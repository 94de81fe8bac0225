/** The deploy controller: the applied baseline of internal/deploy/controller.go and
    the diff classification of internal/config/classify.go. */
module Deploy {
  import opened Options

  /** A string list as Go has it: nil and empty are different values to DeepEqual. */
  type Texts = Option<seq<string>>

  /** The agents section is stored with the others but compared by nobody. */
  datatype MasterConfig = MasterConfig(
    addr: string, basePath: string, maxConnections: int, tmuxPrefix: string,
    caddyAdmin: string, claudeBin: string, claudeArgs: Texts,
    domain: string, basicAuthUser: string, sharedDirs: Texts, agents: map<string, string>)

  const ZERO_CONFIG := MasterConfig("", "", 0, "", "", "", None, "", "", None, map[])

  datatype Field =
    | Addr | BasePath | MaxConnections | TmuxPrefix | CaddyAdmin | ClaudeBin | ClaudeArgs
    | Domain | BasicAuthUser | SharedDirs

  datatype Class = Hot | Restart | Root | Workspace

  datatype Value = Text(text: string) | Number(n: int) | List(texts: Texts)

  function ClassOf(f: Field): Class {
    match f
    case CaddyAdmin => Hot
    case ClaudeBin => Hot
    case ClaudeArgs => Hot
    case Domain => Root
    case SharedDirs => Workspace
    case _ => Restart
  }

  function Get(c: MasterConfig, f: Field): Value {
    match f
    case Addr => Text(c.addr)
    case BasePath => Text(c.basePath)
    case MaxConnections => Number(c.maxConnections)
    case TmuxPrefix => Text(c.tmuxPrefix)
    case CaddyAdmin => Text(c.caddyAdmin)
    case ClaudeBin => Text(c.claudeBin)
    case ClaudeArgs => List(c.claudeArgs)
    case Domain => Text(c.domain)
    case BasicAuthUser => Text(c.basicAuthUser)
    case SharedDirs => List(c.sharedDirs)
  }

  const FIELDS := [Addr, BasePath, MaxConnections, TmuxPrefix, CaddyAdmin, ClaudeBin, ClaudeArgs,
                   Domain, BasicAuthUser, SharedDirs]

  /** The fields of `fields` that differ, in order. */
  function Differing(old_: MasterConfig, neu: MasterConfig, fields: seq<Field>): (d: seq<Field>)
    ensures forall f :: f in d <==> f in fields && Get(old_, f) != Get(neu, f)
  {
    if fields == [] then []
    else
      var init, f := Differing(old_, neu, fields[..|fields| - 1]), fields[|fields| - 1];
      if Get(old_, f) != Get(neu, f) then init + [f] else init
  }

  lemma AllFields(f: Field)
    ensures f in FIELDS
  {
  }

  function Diff(old_: MasterConfig, neu: MasterConfig): seq<Field> {
    Differing(old_, neu, FIELDS)
  }

  ghost predicate Changed(old_: MasterConfig, neu: MasterConfig, c: Class) {
    exists f :: ClassOf(f) == c && Get(old_, f) != Get(neu, f)
  }

  /** A class is among the changes exactly when a field of that class differs. */
  lemma DiffHas(old_: MasterConfig, neu: MasterConfig, c: Class)
    ensures (exists f :: f in Diff(old_, neu) && ClassOf(f) == c) <==> Changed(old_, neu, c)
  {
  }

  /** A change of the agents section alone is no change, whatever fields are asked
      about: such an apply is not even written. */
  lemma {:induction false} AgentsAreInvisible(c: MasterConfig, agents: map<string, string>, fields: seq<Field>)
    ensures Differing(c, c.(agents := agents), fields) == []
    decreases |fields|
  {
    if fields != [] {
      AgentsAreInvisible(c, agents, fields[..|fields| - 1]);
    }
  }

  // ------------------------------------------------ one apply

  datatype Message =
    | NoMessage | NoChanges | NixosRebuild | Reconcile | NeedsRestart
    | SharedFolders(containers: nat) | InProcess

  datatype Outcome = Outcome(
    changes: seq<Field>, hotApplied: bool, needRestart: bool, needPrivilege: bool,
    workspaceApplied: bool, message: Message)

  /** What the in-process components were last told. */
  datatype Told = Told(caddyAdmin: string, claudeBin: string, claudeArgs: Texts, sharedDirs: Texts)

  function ToldBy(c: MasterConfig): Told {
    Told(c.caddyAdmin, c.claudeBin, c.claudeArgs, c.sharedDirs)
  }

  /** The baseline after a real apply of `neu`. */
  function Advanced(applied: MasterConfig, neu: MasterConfig, hasApplier: bool): MasterConfig {
    applied.(
      caddyAdmin := neu.caddyAdmin, claudeBin := neu.claudeBin, claudeArgs := neu.claudeArgs,
      sharedDirs := if hasApplier then neu.sharedDirs else applied.sharedDirs)
  }

  predicate HasClass(changes: seq<Field>, c: Class) {
    exists f :: f in changes && ClassOf(f) == c
  }

  function MessageFor(changes: seq<Field>, nixOS: bool, containers: nat): Message {
    if changes == [] then NoChanges
    else if HasClass(changes, Root) then (if nixOS then NixosRebuild else Reconcile)
    else if HasClass(changes, Restart) then NeedsRestart
    else if HasClass(changes, Workspace) then SharedFolders(containers)
    else InProcess
  }

  function OutcomeOf(changes: seq<Field>, nixOS: bool, containers: nat): Outcome {
    Outcome(
      changes, HasClass(changes, Hot), HasClass(changes, Restart), HasClass(changes, Root),
      HasClass(changes, Workspace), MessageFor(changes, nixOS, containers))
  }

  /** What an apply reports about each class is whether a field of that class
      differs; a dry run differs from a real one in no more than the number of
      containers in the message. */
  lemma OutcomeIsVerdict(applied: MasterConfig, neu: MasterConfig, nixOS: bool, n: nat, m: nat)
    ensures var out := OutcomeOf(Diff(applied, neu), nixOS, n);
            && (out.hotApplied <==> Changed(applied, neu, Hot))
            && (out.needRestart <==> Changed(applied, neu, Restart))
            && (out.needPrivilege <==> Changed(applied, neu, Root))
            && (out.workspaceApplied <==> Changed(applied, neu, Workspace))
            && out == OutcomeOf(Diff(applied, neu), nixOS, m).(message := out.message)
            && (out.message != OutcomeOf(Diff(applied, neu), nixOS, m).message ==> out.message == SharedFolders(n))
  {
  }

  /** What each kind of change is about, field by field. */
  lemma ClassesByField(a: MasterConfig, b: MasterConfig)
    ensures Changed(a, b, Root) <==> a.domain != b.domain
    ensures Changed(a, b, Restart) <==>
              || a.addr != b.addr || a.basePath != b.basePath || a.maxConnections != b.maxConnections
              || a.tmuxPrefix != b.tmuxPrefix || a.basicAuthUser != b.basicAuthUser
    ensures Changed(a, b, Hot) <==>
              a.caddyAdmin != b.caddyAdmin || a.claudeBin != b.claudeBin || a.claudeArgs != b.claudeArgs
    ensures Changed(a, b, Workspace) <==> a.sharedDirs != b.sharedDirs
  {
    assert Get(a, Domain) != Get(b, Domain) <==> a.domain != b.domain;
    assert Get(a, Addr) != Get(b, Addr) <==> a.addr != b.addr;
    assert Get(a, BasePath) != Get(b, BasePath) <==> a.basePath != b.basePath;
    assert Get(a, MaxConnections) != Get(b, MaxConnections) <==> a.maxConnections != b.maxConnections;
    assert Get(a, TmuxPrefix) != Get(b, TmuxPrefix) <==> a.tmuxPrefix != b.tmuxPrefix;
    assert Get(a, BasicAuthUser) != Get(b, BasicAuthUser) <==> a.basicAuthUser != b.basicAuthUser;
    assert Get(a, CaddyAdmin) != Get(b, CaddyAdmin) <==> a.caddyAdmin != b.caddyAdmin;
    assert Get(a, ClaudeBin) != Get(b, ClaudeBin) <==> a.claudeBin != b.claudeBin;
    assert Get(a, ClaudeArgs) != Get(b, ClaudeArgs) <==> a.claudeArgs != b.claudeArgs;
    assert Get(a, SharedDirs) != Get(b, SharedDirs) <==> a.sharedDirs != b.sharedDirs;
  }

  /** There is a change iff a field other than the agents differs. */
  lemma NoDiff(a: MasterConfig, b: MasterConfig)
    ensures Diff(a, b) == [] <==> b == a.(agents := b.agents)
  {
    ClassesByField(a, b);
    DiffHas(a, b, Root);
    DiffHas(a, b, Restart);
    DiffHas(a, b, Hot);
    DiffHas(a, b, Workspace);
    if Diff(a, b) != [] {
      var f := Diff(a, b)[0];
      assert f in Diff(a, b) && Get(a, f) != Get(b, f);
    }
  }

  /** The changes listed, by field. */
  ghost predicate Lists(changes: seq<Field>, a: MasterConfig, b: MasterConfig) {
    && (Addr in changes <==> a.addr != b.addr)
    && (BasePath in changes <==> a.basePath != b.basePath)
    && (MaxConnections in changes <==> a.maxConnections != b.maxConnections)
    && (TmuxPrefix in changes <==> a.tmuxPrefix != b.tmuxPrefix)
    && (CaddyAdmin in changes <==> a.caddyAdmin != b.caddyAdmin)
    && (ClaudeBin in changes <==> a.claudeBin != b.claudeBin)
    && (ClaudeArgs in changes <==> a.claudeArgs != b.claudeArgs)
    && (Domain in changes <==> a.domain != b.domain)
    && (BasicAuthUser in changes <==> a.basicAuthUser != b.basicAuthUser)
    && (SharedDirs in changes <==> a.sharedDirs != b.sharedDirs)
  }

  lemma Listed(a: MasterConfig, b: MasterConfig, f: Field)
    ensures f in Diff(a, b) <==> Get(a, f) != Get(b, f)
  {
    AllFields(f);
  }

  /** Every field that differs is listed. */
  lemma DiffLists(a: MasterConfig, b: MasterConfig)
    ensures Lists(Diff(a, b), a, b)
  {
    Listed(a, b, Addr);
    Listed(a, b, BasePath);
    Listed(a, b, MaxConnections);
    Listed(a, b, TmuxPrefix);
    Listed(a, b, CaddyAdmin);
    Listed(a, b, ClaudeBin);
    Listed(a, b, ClaudeArgs);
    Listed(a, b, Domain);
    Listed(a, b, BasicAuthUser);
    Listed(a, b, SharedDirs);
  }

  /** And none is listed twice, as long as none is asked about twice. */
  lemma {:induction false} DiffOnce(a: MasterConfig, b: MasterConfig, fields: seq<Field>)
    requires forall i, j :: 0 <= i < j < |fields| ==> fields[i] != fields[j]
    ensures var d := Differing(a, b, fields); forall i, j :: 0 <= i < j < |d| ==> d[i] != d[j]
    decreases |fields|
  {
    if fields != [] {
      var init, f := fields[..|fields| - 1], fields[|fields| - 1];
      DiffOnce(a, b, init);
      assert f !in init && f !in Differing(a, b, init);
    }
  }

  /** What the outcome of an apply says, in terms of the configuration's fields. */
  ghost predicate Tells(out: Outcome, applied: MasterConfig, neu: MasterConfig, nixOS: bool, containers: nat) {
    && (out.needPrivilege <==> applied.domain != neu.domain)
    && (out.needRestart <==>
          || applied.addr != neu.addr || applied.basePath != neu.basePath
          || applied.maxConnections != neu.maxConnections || applied.tmuxPrefix != neu.tmuxPrefix
          || applied.basicAuthUser != neu.basicAuthUser)
    && (out.hotApplied <==>
          || applied.caddyAdmin != neu.caddyAdmin || applied.claudeBin != neu.claudeBin
          || applied.claudeArgs != neu.claudeArgs)
    && (out.workspaceApplied <==> applied.sharedDirs != neu.sharedDirs)
    && out.message ==
         if neu == applied.(agents := neu.agents) then NoChanges
         else if applied.domain != neu.domain then (if nixOS then NixosRebuild else Reconcile)
         else if out.needRestart then NeedsRestart
         else if applied.sharedDirs != neu.sharedDirs then SharedFolders(containers)
         else InProcess
  }

  lemma OutcomeByField(applied: MasterConfig, neu: MasterConfig, nixOS: bool, containers: nat)
    ensures Tells(OutcomeOf(Diff(applied, neu), nixOS, containers), applied, neu, nixOS, containers)
  {
    ClassesByField(applied, neu);
    NoDiff(applied, neu);
    DiffHas(applied, neu, Root);
    DiffHas(applied, neu, Restart);
    DiffHas(applied, neu, Hot);
    DiffHas(applied, neu, Workspace);
  }

  /** How the outside answers: whether the file can be read and written, and the
      number of running containers, if they can be reached. */
  datatype World = World(readable: bool, writable: bool, containers: Option<nat>)

  function Reached(w: World): nat {
    if w.containers.Some? then w.containers.value else 0
  }

  /** Whether an apply moves the baseline of this field. */
  predicate Moves(f: Field, hasApplier: bool) {
    ClassOf(f) == Hot || (f == SharedDirs && hasApplier)
  }

  lemma SameConfig(a: MasterConfig, b: MasterConfig)
    requires forall f :: Get(a, f) == Get(b, f)
    requires a.agents == b.agents
    ensures a == b
  {
    assert Get(a, Addr) == Get(b, Addr) && Get(a, BasePath) == Get(b, BasePath);
    assert Get(a, MaxConnections) == Get(b, MaxConnections) && Get(a, TmuxPrefix) == Get(b, TmuxPrefix);
    assert Get(a, CaddyAdmin) == Get(b, CaddyAdmin) && Get(a, ClaudeBin) == Get(b, ClaudeBin);
    assert Get(a, ClaudeArgs) == Get(b, ClaudeArgs) && Get(a, Domain) == Get(b, Domain);
    assert Get(a, BasicAuthUser) == Get(b, BasicAuthUser) && Get(a, SharedDirs) == Get(b, SharedDirs);
  }

  lemma AdvancedMoves(applied: MasterConfig, neu: MasterConfig, hasApplier: bool, after: MasterConfig)
    requires after.agents == applied.agents && Moved(applied, after, neu, Diff(applied, neu), hasApplier)
    ensures after == Advanced(applied, neu, hasApplier)
  {
    var adv := Advanced(applied, neu, hasApplier);
    forall g ensures Get(after, g) == Get(adv, g) {
      AllFields(g);
      assert Get(adv, g) == if Moves(g, hasApplier) then Get(neu, g) else Get(applied, g);
    }
    SameConfig(after, adv);
  }

  /** A field only a restart or a privileged step can change. */
  predicate Pending(f: Field) {
    ClassOf(f) == Restart || ClassOf(f) == Root
  }

  ghost predicate KeepsLaunch(launch: MasterConfig, applied: MasterConfig) {
    forall f :: Pending(f) ==> Get(applied, f) == Get(launch, f)
  }

  lemma AdvancedKeepsLaunch(launch: MasterConfig, applied: MasterConfig, neu: MasterConfig, hasApplier: bool)
    requires KeepsLaunch(launch, applied)
    ensures KeepsLaunch(launch, Advanced(applied, neu, hasApplier))
  {
  }

  lemma LaunchDecides(launch: MasterConfig, applied: MasterConfig, neu: MasterConfig, c: Class)
    requires KeepsLaunch(launch, applied) && (c == Restart || c == Root)
    ensures HasClass(Diff(applied, neu), c) <==> Changed(launch, neu, c)
  {
  }

  /** Without an applier nobody is told of an apply: what the components were told still
      is the baseline after it iff no hot field differs, although the outcome calls a
      hot change applied and asks for no restart. */
  lemma UntoldWithoutApplier(applied: MasterConfig, neu: MasterConfig, nixOS: bool, n: nat)
    ensures ToldBy(applied) == ToldBy(Advanced(applied, neu, false)) <==> !Changed(applied, neu, Hot)
    ensures Changed(applied, neu, Hot) ==> OutcomeOf(Diff(applied, neu), nixOS, n).hotApplied
  {
    assert Get(applied, CaddyAdmin) == Get(neu, CaddyAdmin) <==> applied.caddyAdmin == neu.caddyAdmin;
    assert Get(applied, ClaudeBin) == Get(neu, ClaudeBin) <==> applied.claudeBin == neu.claudeBin;
    assert Get(applied, ClaudeArgs) == Get(neu, ClaudeArgs) <==> applied.claudeArgs == neu.claudeArgs;
    DiffHas(applied, neu, Hot);
  }

  /** Applying the same configuration again reports exactly what is still pending. */
  lemma {:induction false} ApplyAgain(applied: MasterConfig, neu: MasterConfig, fields: seq<Field>)
    ensures Differing(Advanced(applied, neu, true), neu, fields) == PendingOf(Differing(applied, neu, fields))
    decreases |fields|
  {
    if fields != [] {
      ApplyAgain(applied, neu, fields[..|fields| - 1]);
      var init, f := Differing(applied, neu, fields[..|fields| - 1]), fields[|fields| - 1];
      assert Get(Advanced(applied, neu, true), f) == if Pending(f) then Get(applied, f) else Get(neu, f);
      assert (init + [f])[..|init|] == init;
    }
  }

  function PendingOf(fields: seq<Field>): seq<Field> {
    if fields == [] then []
    else
      var init, f := PendingOf(fields[..|fields| - 1]), fields[|fields| - 1];
      if Pending(f) then init + [f] else init
  }

  /** `launch` is the configuration the server started with. */
  class Controller {
    var applied: MasterConfig
    var disk: Option<MasterConfig>
    var told: Told
    const hasApplier: bool
    const nixOS: bool
    ghost const launch: MasterConfig

    /** Restart and root fields never leave their launch values, and an applier has
        been told exactly the baseline. */
    ghost predicate Valid()
      reads this
    {
      && KeepsLaunch(launch, applied)
      && (hasApplier ==> told == ToldBy(applied))
    }

    constructor (launch: MasterConfig, disk: Option<MasterConfig>, hasApplier: bool, nixOS: bool)
      ensures Valid() && applied == launch && this.disk == disk && this.launch == launch
      ensures this.hasApplier == hasApplier && this.nixOS == nixOS
    {
      applied, told := launch, ToldBy(launch);
      this.disk, this.hasApplier, this.nixOS, this.launch := disk, hasApplier, nixOS, launch;
    }

    /** Applies one change: the hot ones take effect and move the baseline. */
    method ApplyChange(f: Field, neu: MasterConfig, dryRun: bool)
      modifies this`applied, this`told
      ensures dryRun ==> applied == old(applied) && told == old(told)
      ensures !dryRun ==> Moved(old(applied), applied, neu, [f], hasApplier)
      ensures applied.agents == old(applied).agents
      ensures !dryRun && hasApplier && old(told) == ToldBy(old(applied)) ==> told == ToldBy(applied)
      ensures !hasApplier ==> told == old(told)
    {
      if dryRun {
        return;
      }
      match f {
        case CaddyAdmin =>
          if hasApplier { told := told.(caddyAdmin := neu.caddyAdmin); }
          applied := applied.(caddyAdmin := neu.caddyAdmin);
        case ClaudeBin =>
          if hasApplier { told := told.(claudeBin := neu.claudeBin); }
          applied := applied.(claudeBin := neu.claudeBin);
        case ClaudeArgs =>
          if hasApplier { told := told.(claudeArgs := neu.claudeArgs); }
          applied := applied.(claudeArgs := neu.claudeArgs);
        case SharedDirs =>
          if hasApplier {
            told := told.(sharedDirs := neu.sharedDirs);
            applied := applied.(sharedDirs := neu.sharedDirs);
          }
        case _ =>
      }
    }

    /** The loop over the changes: applies each and notes its class. */
    method ApplyAll(changes: seq<Field>, neu: MasterConfig, dryRun: bool, w: World)
      returns (out: Outcome, containers: nat)
      requires hasApplier ==> told == ToldBy(applied)
      modifies this`applied, this`told
      ensures out == SoFar(changes, changes)
      ensures containers == if HasClass(changes, Workspace) && !dryRun && hasApplier then Reached(w) else 0
      ensures dryRun ==> applied == old(applied) && told == old(told)
      ensures !dryRun ==> Moved(old(applied), applied, neu, changes, hasApplier)
      ensures applied.agents == old(applied).agents
      ensures hasApplier ==> told == ToldBy(applied)
      ensures !hasApplier ==> told == old(told)
    {
      ghost var was := applied;
      out, containers := Outcome(changes, false, false, false, false, NoMessage), 0;
      var i := 0;
      while i < |changes|
        invariant 0 <= i <= |changes|
        invariant out == SoFar(changes, changes[..i])
        invariant containers == if out.workspaceApplied && !dryRun && hasApplier then Reached(w) else 0
        invariant dryRun ==> applied == was && told == old(told)
        invariant !dryRun ==> Moved(was, applied, neu, changes[..i], hasApplier)
        invariant applied.agents == was.agents
        invariant hasApplier ==> told == ToldBy(applied)
        invariant !hasApplier ==> told == old(told)
      {
        var f := changes[i];
        ghost var before := applied;
        SoFarMore(changes, i);
        ApplyChange(f, neu, dryRun);
        if !dryRun {
          MovedOneMore(was, before, applied, neu, changes, i, hasApplier);
        }
        match ClassOf(f) {
          case Hot => out := out.(hotApplied := true);
          case Workspace =>
            if !dryRun && hasApplier { containers := Reached(w); }
            out := out.(workspaceApplied := true);
          case Restart => out := out.(needRestart := true);
          case Root => out := out.(needPrivilege := true);
        }
        i := i + 1;
      }
      assert changes[..i] == changes;
    }

    /** Persists, applies what can be applied in process, and says what is left. */
    method SaveAndClassify(neu: MasterConfig, dryRun: bool, w: World) returns (out: Outcome, ok: bool)
      requires Valid()
      modifies this`applied, this`disk, this`told
      ensures Valid()
      ensures ok == (neu == old(applied).(agents := neu.agents) || dryRun || w.writable)
      ensures out == if ok
                     then OutcomeOf(Diff(old(applied), neu), nixOS, if dryRun || !hasApplier then 0 else Reached(w))
                     else Outcome(Diff(old(applied), neu), false, false, false, false, NoMessage)
      ensures disk == if ok && !dryRun && neu != old(applied).(agents := neu.agents) then Some(neu) else old(disk)
      ensures applied == if ok && !dryRun then Advanced(old(applied), neu, hasApplier) else old(applied)
      ensures ok ==> (out.needRestart <==> Changed(launch, neu, Restart))
      ensures ok ==> (out.needPrivilege <==> Changed(launch, neu, Root))
      ensures dryRun || !hasApplier ==> told == old(told)
      ensures ok ==> Tells(out, old(applied), neu, nixOS, if dryRun || !hasApplier then 0 else Reached(w))
      ensures ok ==> (out.needPrivilege <==> launch.domain != neu.domain)
      ensures ok ==> (out.needRestart <==>
                        || launch.addr != neu.addr || launch.basePath != neu.basePath
                        || launch.maxConnections != neu.maxConnections || launch.tmuxPrefix != neu.tmuxPrefix
                        || launch.basicAuthUser != neu.basicAuthUser)
      ensures ok && !dryRun ==>
                applied == old(applied).(
                  caddyAdmin := neu.caddyAdmin, claudeBin := neu.claudeBin, claudeArgs := neu.claudeArgs,
                  sharedDirs := if hasApplier then neu.sharedDirs else old(applied).sharedDirs)
      ensures ok && !dryRun && hasApplier ==>
                told == Told(neu.caddyAdmin, neu.claudeBin, neu.claudeArgs, neu.sharedDirs)
    {
      OutcomeByField(applied, neu, nixOS, if dryRun || !hasApplier then 0 else Reached(w));
      ClassesByField(launch, neu);
      NoDiff(applied, neu);
      ghost var was := applied;
      var changes := DiffMaster(applied, neu);
      Verdicts(launch, applied, neu);
      AdvancedKeepsLaunch(launch, applied, neu, hasApplier);
      out := Outcome(changes, false, false, false, false, NoMessage);
      if changes == [] {
        AdvancedMoves(applied, neu, hasApplier, applied);
        return out.(message := NoChanges), true;
      }
      if !dryRun {
        if !w.writable {
          return out, false;
        }
        disk := Some(neu);
      }
      var containers;
      out, containers := ApplyAll(changes, neu, dryRun, w);
      if !dryRun {
        AdvancedMoves(was, neu, hasApplier, applied);
      }
      out, ok := Summarize(out, containers), true;
    }

    /** Adds the message for a list of changes that has been classified. */
    function Summarize(out: Outcome, containers: nat): (r: Outcome)
      requires out.changes != [] && out == SoFar(out.changes, out.changes)
      ensures r == OutcomeOf(out.changes, nixOS, containers)
    {
      var message :=
        if out.needPrivilege then (if nixOS then NixosRebuild else Reconcile)
        else if out.needRestart then NeedsRestart
        else if out.workspaceApplied then SharedFolders(containers)
        else InProcess;
      out.(message := message)
    }

    /** The shared-folder toggle: `dirs` are the expanded paths, None if one of them
        is refused. It moves the baseline with or without an applier. */
    method ApplySharedDirs(dirs: Option<seq<string>>, w: World) returns (n: nat, ok: bool)
      requires Valid()
      modifies this`applied, this`disk, this`told
      ensures Valid()
      ensures ok == (dirs.Some? && w.readable && w.writable)
      ensures applied == if ok then old(applied).(sharedDirs := dirs) else old(applied)
      ensures disk == if ok then Some((if old(disk).Some? then old(disk).value else ZERO_CONFIG).(sharedDirs := dirs))
                      else old(disk)
      ensures told == if ok && hasApplier then old(told).(sharedDirs := dirs) else old(told)
      ensures n == if ok && hasApplier then Reached(w) else 0
    {
      if dirs.None? || !w.readable || !w.writable {
        return 0, false;
      }
      disk := Some((if disk.Some? then disk.value else ZERO_CONFIG).(sharedDirs := dirs));
      applied := applied.(sharedDirs := dirs);
      n := 0;
      if hasApplier {
        told := told.(sharedDirs := dirs);
        n := Reached(w);
      }
      ok := true;
    }
  }

  lemma Verdicts(launch: MasterConfig, applied: MasterConfig, neu: MasterConfig)
    requires KeepsLaunch(launch, applied)
    ensures HasClass(Diff(applied, neu), Restart) <==> Changed(launch, neu, Restart)
    ensures HasClass(Diff(applied, neu), Root) <==> Changed(launch, neu, Root)
  {
    LaunchDecides(launch, applied, neu, Restart);
    LaunchDecides(launch, applied, neu, Root);
    DiffHas(applied, neu, Restart);
    DiffHas(applied, neu, Root);
  }

  /** From `was` to `now` exactly the listed fields that can be applied became `neu`'s. */
  ghost predicate Moved(
    was: MasterConfig, now: MasterConfig, neu: MasterConfig, changes: seq<Field>, hasApplier: bool)
  {
    forall g :: Get(now, g) == if g in changes && Moves(g, hasApplier) then Get(neu, g) else Get(was, g)
  }

  lemma MovedOneMore(
    was: MasterConfig, before: MasterConfig, now: MasterConfig, neu: MasterConfig,
    changes: seq<Field>, i: nat, hasApplier: bool)
    requires i < |changes| && Moved(was, before, neu, changes[..i], hasApplier)
    requires Moved(before, now, neu, [changes[i]], hasApplier)
    ensures Moved(was, now, neu, changes[..i + 1], hasApplier)
  {
    assert changes[..i + 1] == changes[..i] + [changes[i]];
  }

  /** The outcome once the changes in `done` have been classified. */
  function SoFar(changes: seq<Field>, done: seq<Field>): Outcome {
    Outcome(changes, HasClass(done, Hot), HasClass(done, Restart), HasClass(done, Root), HasClass(done, Workspace),
            NoMessage)
  }

  lemma SoFarMore(changes: seq<Field>, i: nat)
    requires i < |changes|
    ensures var out := SoFar(changes, changes[..i]);
            SoFar(changes, changes[..i + 1]) ==
            match ClassOf(changes[i]) {
              case Hot => out.(hotApplied := true)
              case Workspace => out.(workspaceApplied := true)
              case Restart => out.(needRestart := true)
              case Root => out.(needPrivilege := true)
            }
  {
    OneMore(changes, i);
  }

  lemma OneMore(changes: seq<Field>, i: nat)
    requires i < |changes|
    ensures changes[..i + 1] == changes[..i] + [changes[i]]
    ensures forall c :: HasClass(changes[..i + 1], c) <==> HasClass(changes[..i], c) || ClassOf(changes[i]) == c
  {
    assert changes[..i + 1] == changes[..i] + [changes[i]];
    assert changes[i] in changes[..i + 1];
  }

  method DiffMaster(old_: MasterConfig, neu: MasterConfig) returns (changes: seq<Field>)
    ensures changes == Diff(old_, neu)
  {
    changes := [];
    for i := 0 to |FIELDS|
      invariant changes == Differing(old_, neu, FIELDS[..i])
    {
      assert FIELDS[..i + 1][..i] == FIELDS[..i];
      if Get(old_, FIELDS[i]) != Get(neu, FIELDS[i]) {
        changes := changes + [FIELDS[i]];
      }
    }
    assert FIELDS[..|FIELDS|] == FIELDS;
  }
}
