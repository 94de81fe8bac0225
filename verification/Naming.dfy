/** The tmux naming grammar of internal/domain/naming.go. */
module Naming {
  import opened Options
  import opened TextCodecs

  const DEFAULT_PREFIX := "_palmux_"
  const GROUP := "__grp_"
  const WINDOW_PREFIX := "palmux:"

  // ------------------------------------------------ searching

  ghost predicate OccursAt(s: string, pat: string, i: int) {
    0 <= i && i + |pat| <= |s| && s[i..i + |pat|] == pat
  }

  ghost predicate Occurs(s: string, pat: string) {
    exists i :: OccursAt(s, pat, i)
  }

  lemma OccursInRest(s: string, pat: string, k: int)
    requires s != [] && k > 0
    ensures OccursAt(s, pat, k) <==> OccursAt(s[1..], pat, k - 1)
  {
    if k + |pat| <= |s| {
      assert s[1..][k - 1..k - 1 + |pat|] == s[k..k + |pat|];
    }
  }

  lemma OccursLater(s: string, pat: string)
    requires s != [] && |pat| <= |s| && s[..|pat|] != pat
    ensures forall k :: OccursAt(s, pat, k) ==> k > 0 && OccursAt(s[1..], pat, k - 1)
    ensures forall k :: OccursAt(s[1..], pat, k) ==> OccursAt(s, pat, k + 1)
  {
    forall k | OccursAt(s, pat, k) ensures k > 0 && OccursAt(s[1..], pat, k - 1) {
      assert k != 0;
      OccursInRest(s, pat, k);
    }
    forall k | OccursAt(s[1..], pat, k) ensures OccursAt(s, pat, k + 1) {
      OccursInRest(s, pat, k + 1);
    }
  }

  /** strings.Index */
  function Find(s: string, pat: string): (i: int)
    ensures i == -1 || OccursAt(s, pat, i)
    ensures forall k :: OccursAt(s, pat, k) ==> 0 <= i <= k
    decreases |s|
  {
    if |s| < |pat| then -1
    else if s[..|pat|] == pat then 0
    else if s == [] then -1
    else
      OccursLater(s, pat);
      var r := Find(s[1..], pat);
      if r < 0 then -1 else r + 1
  }

  function FindChar(s: string, c: char): (i: int)
    ensures i == -1 ==> c !in s
    ensures i != -1 ==> 0 <= i < |s| && s[i] == c && c !in s[..i]
    decreases |s|
  {
    if s == [] then -1
    else if s[0] == c then 0
    else
      var r := FindChar(s[1..], c);
      assert r >= 0 ==> s[..r + 1] == [s[0]] + s[1..][..r];
      if r < 0 then -1 else r + 1
  }

  // ------------------------------------------------ session names

  /** Configure: what the session prefix becomes. */
  function Configured(prefix: string): (p: string)
    ensures p != "" && p[|p| - 1] == '_'
    ensures if prefix == "" then p == "_palmux_" else prefix <= p && |p| <= |prefix| + 1
    ensures prefix != "" && prefix[|prefix| - 1] == '_' ==> p == prefix
  {
    if prefix == "" then DEFAULT_PREFIX
    else if prefix[|prefix| - 1] == '_' then prefix
    else prefix + "_"
  }

  function SessionName(prefix: string, repo: string, branch: string): string {
    prefix + repo + "_" + branch
  }

  function GroupSessionName(base: string, conn: string): string {
    base + GROUP + conn
  }

  function WithoutGroup(rest: string): string {
    var i := Find(rest, GROUP);
    if i >= 0 then rest[..i] else rest
  }

  function ParseSessionName(prefix: string, name: string): Option<(string, string)> {
    if !(prefix <= name) then None else ParseRest(WithoutGroup(name[|prefix|..]))
  }

  function ParseRest(rest: string): Option<(string, string)> {
    var i := FindChar(rest, '_');
    if i <= 0 || i == |rest| - 1 || Find(rest[..i], "--") < 0 then None
    else Some((rest[..i], rest[i + 1..]))
  }

  predicate IsPalmuxSession(prefix: string, name: string) {
    ParseSessionName(prefix, name).Some?
  }

  /** What a session name can carry: a repo id without '_' that contains "--", and a
      branch id. */
  ghost predicate Shaped(repo: string, branch: string) {
    '_' !in repo && Occurs(repo, "--") && branch != ""
  }

  ghost predicate EndsWith(s: string, end: string) {
    |end| <= |s| && s[|s| - |end|..] == end
  }

  lemma {:induction false} FindCharIs(a: string, c: char, rest: string)
    requires c !in a
    ensures FindChar(a + [c] + rest, c) == |a|
    decreases |a|
  {
    if a != "" {
      FindCharIs(a[1..], c, rest);
      assert (a + [c] + rest)[1..] == a[1..] + [c] + rest;
    }
  }

  lemma ParsesRest(rest: string, repo: string, branch: string)
    ensures ParseRest(rest) == Some((repo, branch)) <==> rest == repo + "_" + branch && Shaped(repo, branch)
  {
    if ParseRest(rest) == Some((repo, branch)) {
      var i := FindChar(rest, '_');
      assert rest == rest[..i] + "_" + rest[i + 1..];
      assert OccursAt(repo, "--", Find(repo, "--"));
    }
    if rest == repo + "_" + branch && Shaped(repo, branch) {
      FindCharIs(repo, '_', branch);
      var k :| OccursAt(repo, "--", k);
      assert rest[..|repo|] == repo && rest[|repo| + 1..] == branch;
    }
  }

  /** The separator cannot begin inside a repo id without '_'. */
  lemma GroupAfterRepo(repo: string, u: string, k: int)
    requires '_' !in repo
    ensures OccursAt(repo + u, GROUP, k) <==> OccursAt(u, GROUP, k - |repo|)
  {
    var s := repo + u;
    if OccursAt(s, GROUP, k) {
      assert s[k] == s[k..k + |GROUP|][0] == '_';
      assert k >= |repo|;
      assert u[k - |repo|..k - |repo| + |GROUP|] == s[k..k + |GROUP|];
    }
    if OccursAt(u, GROUP, k - |repo|) {
      assert u[k - |repo|..k - |repo| + |GROUP|] == s[k..k + |GROUP|];
    }
  }

  lemma GroupInName(repo: string, u: string)
    requires '_' !in repo
    ensures Occurs(repo + u, GROUP) <==> Occurs(u, GROUP)
  {
    if k :| OccursAt(repo + u, GROUP, k) {
      GroupAfterRepo(repo, u, k);
    }
    if k :| OccursAt(u, GROUP, k) {
      GroupAfterRepo(repo, u, k + |repo|);
    }
  }

  /** Exactly which ids survive a session name. */
  lemma SessionRoundTrip(prefix: string, repo: string, branch: string)
    ensures ParseSessionName(prefix, SessionName(prefix, repo, branch)) == Some((repo, branch)) <==>
            Shaped(repo, branch) && !Occurs("_" + branch, GROUP)
  {
    var rest := repo + "_" + branch;
    assert SessionName(prefix, repo, branch) == prefix + rest;
    assert SessionName(prefix, repo, branch)[|prefix|..] == rest;
    var cut := WithoutGroup(rest);
    ParsesRest(cut, repo, branch);
    assert rest == repo + ("_" + branch);
    if '_' !in repo {
      GroupInName(repo, "_" + branch);
    }
    if !Occurs(rest, GROUP) {
      assert cut == rest;
    } else {
      assert |cut| < |rest|;
    }
  }

  lemma GroupCrosses(base: string, conn: string)
    requires |base| >= 5
    ensures OccursAt(base + GROUP + conn, GROUP, |base| - 5) <==> EndsWith(base, "__grp")
  {
    var s := base + GROUP + conn;
    var end := base[|base| - 5..];
    assert s[|base| - 5..|base| + 1] == end + "_";
    assert GROUP == "__grp" + "_";
    if end + "_" == GROUP {
      assert end == (end + "_")[..5] == GROUP[..5];
    }
  }

  lemma GroupOverlaps(base: string, conn: string, k: int)
    requires |base| - |GROUP| < k < |base| && OccursAt(base + GROUP + conn, GROUP, k)
    ensures k == |base| - 5
  {
    var s := base + GROUP + conn;
    var here := s[k..k + |GROUP|];
    var j := |base| - k;
    assert forall i :: 0 <= i < |GROUP| ==> here[i] == s[k + i];
    assert forall i :: 0 <= i < |GROUP| ==> s[|base| + i] == GROUP[i];
    assert here[j] == GROUP[0];
    assert here[0] == '_' && here[1] == '_' && here[2] == 'g' && here[3] == 'r' && here[4] == 'p' && here[5] == '_';
  }

  /** A second separator in front of the first one needs a base that contains it, or
      that ends in all of it but the last character. */
  lemma GroupBefore(base: string, conn: string, k: int)
    requires k < |base|
    ensures OccursAt(base + GROUP + conn, GROUP, k) <==>
            OccursAt(base, GROUP, k) || (k == |base| - 5 >= 0 && EndsWith(base, "__grp"))
  {
    var s := base + GROUP + conn;
    if 0 <= k <= |base| - |GROUP| {
      assert s[k..k + |GROUP|] == base[k..k + |GROUP|];
    } else if k >= 0 {
      if OccursAt(s, GROUP, k) {
        GroupOverlaps(base, conn, k);
      }
      if k == |base| - 5 {
        GroupCrosses(base, conn);
      }
    }
  }

  lemma CutIs(rest: string, base: string, f: nat)
    requires base <= rest && f <= |rest|
    ensures rest[..f] == base <==> f == |base|
  {
  }

  lemma SessionIs(prefix: string, repo: string, branch: string)
    ensures SessionName(prefix, repo, branch) == prefix + (repo + "_" + branch)
  {
  }

  lemma GroupNameRest(prefix: string, base: string, conn: string)
    ensures var rest := base + GROUP + conn;
            && 0 <= Find(rest, GROUP) <= |base|
            && ParseSessionName(prefix, GroupSessionName(prefix + base, conn)) == ParseRest(rest[..Find(rest, GROUP)])
  {
    var rest := base + GROUP + conn;
    var name := GroupSessionName(prefix + base, conn);
    assert name == prefix + rest;
    assert name[|prefix|..] == rest;
    SeparatorAt(base, conn);
  }

  lemma GroupRestRoundTrip(repo: string, branch: string, rest: string, f: nat)
    requires repo + "_" + branch <= rest && f <= |rest|
    ensures ParseRest(rest[..f]) == Some((repo, branch)) <==> f == |repo + "_" + branch| && Shaped(repo, branch)
  {
    CutIs(rest, repo + "_" + branch, f);
    ParsesRest(rest[..f], repo, branch);
  }

  /** Exactly which ids survive the name of a connection's group session. */
  lemma GroupRoundTrip(prefix: string, repo: string, branch: string, conn: string)
    ensures ParseSessionName(prefix, GroupSessionName(SessionName(prefix, repo, branch), conn)) == Some((repo, branch))
            <==>
            Shaped(repo, branch) && !Occurs("_" + branch, GROUP) && !EndsWith("_" + branch, "__grp")
  {
    var base := repo + "_" + branch;
    SessionIs(prefix, repo, branch);
    GroupNameRest(prefix, base, conn);
    GroupRestRoundTrip(repo, branch, base + GROUP + conn, Find(base + GROUP + conn, GROUP));
    if '_' !in repo {
      FirstSeparator(repo, branch, conn);
    }
  }

  lemma FirstSeparator(repo: string, branch: string, conn: string)
    requires '_' !in repo
    ensures var base := repo + "_" + branch;
            Find(base + GROUP + conn, GROUP) == |base| <==>
            !Occurs("_" + branch, GROUP) && !EndsWith("_" + branch, "__grp")
  {
    var base, end := repo + "_" + branch, "_" + branch;
    assert base == repo + end;
    GroupInName(repo, end);
    GroupEnd(repo, end);
    var f := Find(base + GROUP + conn, GROUP);
    if f == |base| {
      NoneBefore(base, conn);
    } else {
      SeparatorAt(base, conn);
      GroupBefore(base, conn, f);
    }
  }

  lemma SeparatorAt(base: string, conn: string)
    ensures OccursAt(base + GROUP + conn, GROUP, |base|)
  {
    assert (base + GROUP + conn)[|base|..|base| + |GROUP|] == GROUP;
  }

  lemma NoneBefore(base: string, conn: string)
    requires Find(base + GROUP + conn, GROUP) == |base|
    ensures !Occurs(base, GROUP) && !EndsWith(base, "__grp")
  {
    forall k ensures !OccursAt(base, GROUP, k) {
      if OccursAt(base, GROUP, k) {
        GroupBefore(base, conn, k);
      }
    }
    if EndsWith(base, "__grp") {
      GroupBefore(base, conn, |base| - 5);
    }
  }

  lemma GroupEnd(repo: string, u: string)
    requires '_' !in repo
    ensures EndsWith(repo + u, "__grp") <==> EndsWith(u, "__grp")
  {
    var s := repo + u;
    if EndsWith(s, "__grp") {
      assert s[|s| - 5] == s[|s| - 5..][0] == '_';
      assert |u| >= 5;
      assert u[|u| - 5..] == s[|s| - 5..];
    }
    if EndsWith(u, "__grp") {
      assert u[|u| - 5..] == s[|s| - 5..];
    }
  }

  // ------------------------------------------------ instances sharing one tmux server

  function FirstToken(w: string): string {
    var i := FindChar(w, '_');
    if i < 0 then w else w[..i]
  }

  lemma TokenFound(w: string, more: string)
    requires '_' in w
    ensures FindChar(w + more, '_') == FindChar(w, '_')
  {
    var i := FindChar(w, '_');
    FindCharIs(w[..i], '_', w[i + 1..] + more);
    assert w + more == w[..i] + ['_'] + (w[i + 1..] + more);
  }

  lemma PeerRejected(w: string, more: string)
    requires '_' in w && !Occurs(FirstToken(w), "--")
    ensures ParseRest(WithoutGroup(w + more)) == None
  {
    var rest := w + more;
    var i := FindChar(w, '_');
    var cut := WithoutGroup(rest);
    assert cut <= rest;
    if |cut| <= i {
      assert cut == w[..i][..|cut|];
      assert '_' !in cut;
    } else {
      assert rest == cut + rest[|cut|..];
      assert rest[i] == '_' && cut[i] == '_';
      TokenFound(cut, rest[|cut|..]);
      TokenFound(w, more);
      assert cut[..i] == w[..i];
      assert Find(cut[..i], "--") == -1;
    }
  }

  /** Two instances whose prefixes are P and P + w never claim the same session,
      provided the first token of w has no "--". */
  lemma PeersAreDisjoint(prefix: string, w: string, name: string)
    requires '_' in w && !Occurs(FirstToken(w), "--")
    ensures !(IsPalmuxSession(prefix, name) && IsPalmuxSession(prefix + w, name))
  {
    if IsPalmuxSession(prefix + w, name) {
      var more := name[|prefix + w|..];
      assert name[|prefix|..] == w + more;
      PeerRejected(w, more);
    }
  }

  /** A separator in w + more lies in one of the two or takes more's first character. */
  lemma GroupSplit(w: string, more: string, k: int)
    requires |more| > 0 && OccursAt(w + more, GROUP, k)
    ensures OccursAt(w, GROUP, k) || OccursAt(more, GROUP, k - |w|) || more[0] in GROUP
  {
    var s := w + more;
    var at := s[k..k + |GROUP|];
    if k + |GROUP| <= |w| {
      assert w[k..k + |GROUP|] == at;
    } else if k >= |w| {
      assert more[k - |w|..k - |w| + |GROUP|] == at;
    } else {
      assert at[|w| - k] == s[|w|] == more[0];
    }
  }

  lemma SampleParses()
    ensures WithoutGroup("x--y_z") == "x--y_z" && ParseRest("x--y_z") == Some(("x--y", "z"))
  {
    var more := "x--y_z";
    forall k ensures !OccursAt(more, GROUP, k) {
      assert more[0] != GROUP[0];
    }
    assert more == "x--y" + ['_'] + "z";
    FindCharIs("x--y", '_', "z");
    assert more[..4] == "x--y" && more[5..] == "z";
    assert OccursAt("x--y", "--", 1);
  }

  lemma ClashParses(w: string)
    requires '_' in w && Occurs(FirstToken(w), "--") && !Occurs(w, GROUP)
    ensures ParseRest(WithoutGroup(w + "x--y_z")).Some?
  {
    var more := "x--y_z";
    forall k ensures !OccursAt(w + more, GROUP, k) {
      if OccursAt(w + more, GROUP, k) {
        GroupSplit(w, more, k);
        SampleParses();
      }
    }
    var i := FindChar(w, '_');
    TokenFound(w, more);
    assert (w + more)[..i] == w[..i];
    var k :| OccursAt(FirstToken(w), "--", k);
    assert i > 0;
  }

  lemma SampleClash(prefix: string, w: string)
    requires ParseRest(WithoutGroup(w + "x--y_z")).Some?
    ensures var name := prefix + w + "x--y_z";
            IsPalmuxSession(prefix, name) && IsPalmuxSession(prefix + w, name)
  {
    var name := prefix + w + "x--y_z";
    assert name == prefix + (w + "x--y_z");
    assert name[|prefix|..] == w + "x--y_z" && name[|prefix + w|..] == "x--y_z";
    SampleParses();
  }

  /** A separator in w is the first one of whatever follows. */
  lemma SeparatorInFront(w: string, more: string)
    requires Find(w, GROUP) >= 0
    ensures WithoutGroup(w + more) == w[..Find(w, GROUP)]
  {
    var s, f := w + more, Find(w, GROUP);
    StillOccurs(w, more, f);
    FoundFirst(w, more, Find(s, GROUP));
    assert s[..f] == w[..f];
  }

  lemma StillOccurs(w: string, more: string, k: int)
    requires OccursAt(w, GROUP, k)
    ensures OccursAt(w + more, GROUP, k)
  {
    assert (w + more)[k..k + |GROUP|] == w[k..k + |GROUP|];
  }

  lemma FoundFirst(w: string, more: string, k: int)
    requires Find(w, GROUP) >= 0 && OccursAt(w + more, GROUP, k)
    ensures Find(w, GROUP) <= k
  {
    if k + |GROUP| <= |w| {
      assert w[k..k + |GROUP|] == (w + more)[k..k + |GROUP|];
      assert OccursAt(w, GROUP, k);
    }
  }

  /** What of a peer's prefix the first instance takes for ids. */
  predicate ReadsAsIds(w: string) {
    if Find(w, GROUP) >= 0 then ParseRest(w[..Find(w, GROUP)]).Some? else Find(FirstToken(w), "--") >= 0
  }

  /** Exactly when instances with prefixes P and P + w can claim the same session: the
      first token of w has "--" or, if w holds the group separator, what comes before it
      reads as a repo and a branch id. */
  lemma PeersClash(prefix: string, w: string)
    requires '_' in w
    ensures ReadsAsIds(w) <==>
            exists name :: IsPalmuxSession(prefix, name) && IsPalmuxSession(prefix + w, name)
  {
    if ReadsAsIds(w) {
      if Find(w, GROUP) >= 0 {
        SeparatorInFront(w, "x--y_z");
      } else {
        ClashParses(w);
      }
      SampleClash(prefix, w);
    } else {
      forall name ensures !(IsPalmuxSession(prefix, name) && IsPalmuxSession(prefix + w, name)) {
        NoClash(prefix, w, name);
      }
    }
  }

  lemma NoClash(prefix: string, w: string, name: string)
    requires '_' in w && !ReadsAsIds(w)
    ensures !(IsPalmuxSession(prefix, name) && IsPalmuxSession(prefix + w, name))
  {
    if Find(w, GROUP) < 0 {
      PeersAreDisjoint(prefix, w, name);
    } else if prefix + w <= name {
      NoClashCut(prefix, w, name);
    }
  }

  lemma NoClashCut(prefix: string, w: string, name: string)
    requires Find(w, GROUP) >= 0 && prefix + w <= name
    ensures ParseSessionName(prefix, name) == ParseRest(w[..Find(w, GROUP)])
  {
    var more := name[|prefix + w|..];
    assert name[|prefix|..] == w + more;
    SeparatorInFront(w, more);
  }

  // ------------------------------------------------ window names

  function WindowName(tabType: string, name: string): string {
    WINDOW_PREFIX + tabType + ":" + if name == "" then tabType else name
  }

  function ParseWindowName(window: string): Option<(string, string)> {
    if !(WINDOW_PREFIX <= window) then None
    else
      var rest := window[|WINDOW_PREFIX|..];
      var i := FindChar(rest, ':');
      if i <= 0 || i == |rest| - 1 then None else Some((rest[..i], rest[i + 1..]))
  }

  /** A window name reads back exactly when its tab type is not empty and has no
      colon; the tab name may have any. */
  lemma WindowRoundTrip(tabType: string, name: string)
    ensures ParseWindowName(WindowName(tabType, name)) == Some((tabType, if name == "" then tabType else name)) <==>
            tabType != "" && ':' !in tabType
  {
    var shown := if name == "" then tabType else name;
    var rest := tabType + [':'] + shown;
    assert WindowName(tabType, name) == WINDOW_PREFIX + rest;
    assert WindowName(tabType, name)[|WINDOW_PREFIX|..] == rest;
    if ':' !in tabType {
      FindCharIs(tabType, ':', shown);
      assert rest[..|tabType|] == tabType && rest[|tabType| + 1..] == shown;
    }
  }

  lemma CutOnce(s: string, i: nat)
    requires i < |s|
    ensures s == s[..i] + [s[i]] + s[i + 1..]
  {
  }

  /** What was read is what would be printed. */
  lemma WindowPrintsBack(window: string, tabType: string, name: string)
    requires ParseWindowName(window) == Some((tabType, name))
    ensures WindowName(tabType, name) == window
  {
    var rest := window[|WINDOW_PREFIX|..];
    assert window == WINDOW_PREFIX + rest;
    CutOnce(rest, FindChar(rest, ':'));
    assert rest == tabType + ":" + name;
  }

  // ------------------------------------------------ the next free bash window

  const LAST := 1_000_000
  const OVERFLOW := WindowName("bash", "overflow")

  function Candidate(i: nat): string {
    WindowName("bash", if i <= 1 then "bash" else "bash-" + FormatNat(i))
  }

  /** The first is palmux:bash:bash, the others have their number behind it. */
  lemma CandidateText(i: nat)
    ensures Candidate(i) == if i <= 1 then "palmux:bash:bash" else "palmux:bash:bash-" + FormatNat(i)
  {
    if i > 1 {
      assert "palmux:" + "bash" + ":" + ("bash-" + FormatNat(i)) == "palmux:bash:bash-" + FormatNat(i);
    }
  }

  lemma CandidatesDiffer(i: nat, j: nat)
    requires 1 <= i < j
    ensures Candidate(i) != Candidate(j)
  {
    NatRoundTrip(i);
    NatRoundTrip(j);
    var a := if i <= 1 then "bash" else "bash-" + FormatNat(i);
    var b := "bash-" + FormatNat(j);
    WindowRoundTrip("bash", a);
    WindowRoundTrip("bash", b);
    if i > 1 {
      assert a[5..] == FormatNat(i);
    }
    assert b[5..] == FormatNat(j);
  }

  ghost predicate AllTaken(existing: set<string>, n: nat) {
    forall i :: 1 <= i < n ==> Candidate(i) in existing
  }

  /** Pigeonholes: to take the first n names there must be n windows. */
  lemma {:induction false} TakenAreMany(existing: set<string>, n: nat)
    requires AllTaken(existing, n + 1)
    ensures |existing| >= n
  {
    if n > 0 {
      var rest := existing - {Candidate(n)};
      forall i | 1 <= i < n ensures Candidate(i) in rest {
        CandidatesDiffer(i, n);
      }
      TakenAreMany(rest, n - 1);
    }
  }

  method NextBashWindowName(existing: set<string>) returns (name: string)
    ensures (name !in existing && exists i :: 1 <= i < 1_000_000 && name == Candidate(i) && AllTaken(existing, i))
            || (name == "palmux:bash:overflow" && AllTaken(existing, 1_000_000))
    ensures |existing| < 999_999 ==> name !in existing
  {
    if Candidate(1) !in existing {
      FirstIsFree(existing, 1);
      return Candidate(1);
    }
    var i := 2;
    while i < LAST
      invariant 2 <= i <= LAST && AllTaken(existing, i)
    {
      name := Candidate(i);
      if name !in existing {
        FirstIsFree(existing, i);
        return;
      }
      i := i + 1;
    }
    name := OVERFLOW;
    TakenAreMany(existing, LAST - 1);
  }

  lemma FirstIsFree(existing: set<string>, i: nat)
    requires 1 <= i < LAST && Candidate(i) !in existing && AllTaken(existing, i)
    ensures exists k :: 1 <= k < LAST && Candidate(i) == Candidate(k) && AllTaken(existing, k)
  {
  }
}
