/** The tmux session reconciler of internal/store/branch.go, against a tmux server on
    which anything may happen between two calls. */
module EnsureSession {
  import opened Options

  /** Window names are made by WindowName and never empty. */
  type Name = s: string | s != "" witness "palmux:bash:bash"

  const PLACEHOLDER: Name := "palmux:placeholder:placeholder"

  datatype Error = NoSuchSession | Refused

  /** What others do to the session just before a call, and how the call goes:
      `session` is the session from then on, if they touched it; `refuse` makes the
      call fail; `serverUp` says whether a server is still there without the session. */
  datatype Turn = Turn(change: Option<Option<seq<Name>>>, refuse: bool, serverUp: bool)

  const QUIET := Turn(None, false, true)

  datatype Event = Nothing | Saw(live: bool) | Listed | Created | Opened | Failed

  /** The session when the next call reaches the server. */
  function AtCall(session: Option<seq<Name>>, turns: seq<Turn>): Option<seq<Name>> {
    if turns != [] && turns[0].change.Some? then turns[0].change.value else session
  }

  function Rest(turns: seq<Turn>): seq<Turn> {
    if turns == [] then [] else turns[1..]
  }

  predicate Refuses(turns: seq<Turn>) {
    turns != [] && turns[0].refuse
  }

  /** One session of a tmux server. `turns` is what is going to happen, one turn per
      call; when they run out nobody interferes any more. */
  class Tmux {
    var session: Option<seq<Name>>
    var turns: seq<Turn>
    ghost var last: Event
    ghost var mutations: nat

    constructor (session: Option<seq<Name>>, turns: seq<Turn>)
      ensures this.session == session && this.turns == turns && last == Nothing && mutations == 0
    {
      this.session, this.turns, last, mutations := session, turns, Nothing, 0;
    }

    /** The next turn. */
    method Next() returns (t: Turn)
      modifies this`session, this`turns
      ensures t == if old(turns) == [] then QUIET else old(turns)[0]
      ensures turns == Rest(old(turns))
      ensures session == AtCall(old(session), old(turns)) && t.refuse == Refuses(old(turns))
    {
      if turns == [] {
        return QUIET;
      }
      t := turns[0];
      turns := turns[1..];
      if t.change.Some? {
        session := t.change.value;
      }
    }

    method HasSession() returns (live: bool, err: Option<Error>)
      modifies this
      ensures session == AtCall(old(session), old(turns))
      ensures err == if Refuses(old(turns)) then Some(Refused) else None
      ensures err.None? ==> live == session.Some?
      ensures last == if err.None? then Saw(live) else Failed
      ensures mutations == old(mutations)
      ensures turns == Rest(old(turns))
    {
      var t := Next();
      if t.refuse {
        last := Failed;
        return false, Some(Refused);
      }
      live, err := session.Some?, None;
      last := Saw(live);
    }

    method NewSession(w: Name) returns (err: Option<Error>)
      modifies this
      ensures err.None? <==> !Refuses(old(turns)) && AtCall(old(session), old(turns)).None?
      ensures session == if err.None? then Some([w]) else AtCall(old(session), old(turns))
      ensures last == if err.None? then Created else Failed
      ensures mutations == old(mutations) + 1
      ensures turns == Rest(old(turns))
    {
      var t := Next();
      mutations := mutations + 1;
      if t.refuse || session.Some? {
        last := Failed;
        return Some(Refused);
      }
      session, err, last := Some([w]), None, Created;
    }

    method ListWindows() returns (have: seq<Name>, err: Option<Error>)
      modifies this
      ensures session == AtCall(old(session), old(turns))
      ensures err == Some(Refused) <==> Refuses(old(turns))
      ensures session.Some? && !Refuses(old(turns)) ==> err == None
      ensures err.None? ==> have == if session.Some? then session.value else []
      ensures last == if err.None? then Listed else Failed
      ensures mutations == old(mutations)
      ensures turns == Rest(old(turns))
    {
      var t := Next();
      if t.refuse {
        last := Failed;
        return [], Some(Refused);
      }
      if session.None? && t.serverUp {
        last := Failed;
        return [], Some(NoSuchSession);
      }
      have, err := if session.Some? then session.value else [], None;
      last := Listed;
    }

    method NewWindow(w: Name) returns (err: Option<Error>)
      modifies this
      ensures err.None? <==> !Refuses(old(turns)) && AtCall(old(session), old(turns)).Some?
      ensures session == if err.None? then Some(AtCall(old(session), old(turns)).value + [w])
                         else AtCall(old(session), old(turns))
      ensures last == if err.None? then Opened else Failed
      ensures mutations == old(mutations) + 1
      ensures turns == Rest(old(turns))
    {
      var t := Next();
      mutations := mutations + 1;
      if t.refuse || session.None? {
        last := Failed;
        return Some(if t.refuse then Refused else NoSuchSession);
      }
      session, err, last := Some(session.value + [w]), None, Opened;
    }
  }

  // ------------------------------------------------ what it should come to

  /** The specs not among `have`, each once, in order. */
  function Missing(have: seq<Name>, specs: seq<Name>): seq<Name> {
    if specs == [] then []
    else
      var init, w := Missing(have, specs[..|specs| - 1]), specs[|specs| - 1];
      if w in have || w in init then init else init + [w]
  }

  /** The session as it was with the missing windows behind, and never empty. */
  function Settled(session: Option<seq<Name>>, specs: seq<Name>): seq<Name> {
    match session
    case Some(have) => have + Missing(have, specs)
    case None => if specs == [] then [PLACEHOLDER] else Missing([], specs)
  }

  lemma {:induction false} MissingOnce(have: seq<Name>, specs: seq<Name>)
    ensures var m := Missing(have, specs);
            && (forall w :: w in m <==> w in specs && w !in have)
            && (forall i, j :: 0 <= i < j < |m| ==> m[i] != m[j])
    decreases |specs|
  {
    if specs != [] {
      MissingOnce(have, specs[..|specs| - 1]);
      assert specs == specs[..|specs| - 1] + [specs[|specs| - 1]];
    }
  }

  lemma {:induction false} NoneMissing(have: seq<Name>, specs: seq<Name>)
    requires forall w :: w in specs ==> w in have
    ensures Missing(have, specs) == []
    decreases |specs|
  {
    if specs != [] {
      NoneMissing(have, specs[..|specs| - 1]);
    }
  }

  /** Every spec ends up as a window, those that were missing exactly once, and what
      was there stays in place. */
  lemma SettledIsRight(session: Option<seq<Name>>, specs: seq<Name>)
    ensures var after := Settled(session, specs);
            var had := if session.Some? then session.value else [];
            && had <= after
            && (forall w :: w in specs ==> w in after)
            && (forall w :: w in after[|had|..] ==> w !in had && (w in specs || (specs == [] && w == PLACEHOLDER)))
            && (forall i, j :: |had| <= i < j < |after| ==> after[i] != after[j])
            && (session.None? ==> after != [])
  {
    var had := if session.Some? then session.value else [];
    MissingOnce(had, specs);
    var after := Settled(session, specs);
    if session.Some? || specs != [] {
      assert after[|had|..] == Missing(had, specs);
    }
    if specs != [] {
      assert specs[0] in specs;
    }
  }

  /** A second run has nothing to do. */
  lemma SettledTwice(session: Option<seq<Name>>, specs: seq<Name>)
    ensures Missing(Settled(session, specs), specs) == []
  {
    SettledIsRight(session, specs);
    NoneMissing(Settled(session, specs), specs);
  }

  lemma {:induction false} FirstThenRest(w: Name, rest: seq<Name>)
    ensures Missing([], [w] + rest) == [w] + Missing([w], rest)
    decreases |rest|
  {
    if rest == [] {
      assert ([w] + rest)[..0] == [];
      assert [w] + rest == [w];
    } else {
      var n := |rest| - 1;
      FirstThenRest(w, rest[..n]);
      assert ([w] + rest)[..|[w] + rest| - 1] == [w] + rest[..n];
    }
  }

  // ------------------------------------------------ ensureSession

  /** Others may end the session whenever they like, but nothing else. */
  ghost predicate OnlyKills(turns: seq<Turn>) {
    forall i :: 0 <= i < |turns| ==> !turns[i].refuse && (turns[i].change == None || turns[i].change == Some(None))
  }

  function Windows(session: Option<seq<Name>>): seq<Name> {
    if session.Some? then session.value else []
  }

  class Store {
    var knownBaseSessions: set<string>

    constructor ()
      ensures knownBaseSessions == {}
    {
      knownBaseSessions := {};
    }

    /** If nobody interferes: the session as it should be, by exactly as many
        mutations as it has new windows. Whatever anybody does between two calls:
        success means that the last thing tmux said is that the session lives, or
        that it has just been created, from the first window. And whenever and however
        often the session is ended meanwhile, it succeeds. */
    method EnsureSession(tmux: Tmux, name: string, windows: seq<Name>) returns (err: Option<Error>)
      modifies this, tmux
      ensures err.None? ==> tmux.session.Some? && (tmux.last == Saw(true) || tmux.last == Created)
      ensures old(tmux.turns) == [] ==>
                && err == None
                && tmux.session == Some(Settled(old(tmux.session), windows))
                && tmux.mutations == old(tmux.mutations)
                     + |Settled(old(tmux.session), windows)| - |Windows(old(tmux.session))|
      ensures err.None? && tmux.last == Created ==>
                tmux.session == Some([if windows == [] then PLACEHOLDER else windows[0]])
      ensures OnlyKills(old(tmux.turns)) ==> err == None
      ensures knownBaseSessions == old(knownBaseSessions) + {name}
              || (err.Some? && knownBaseSessions == old(knownBaseSessions))
    {
      var exists_;
      exists_, err := tmux.HasSession();
      if err.Some? {
        return;
      }
      knownBaseSessions := knownBaseSessions + {name};
      var rest := windows;
      if !exists_ {
        if windows == [] {
          err := tmux.NewSession(PLACEHOLDER);
          return;
        }
        err := tmux.NewSession(windows[0]);
        if err.Some? {
          return;
        }
        rest := windows[1..];
        FirstThenRest(windows[0], rest);
        assert [windows[0]] + rest == windows;
      }
      var have;
      have, err := tmux.ListWindows();
      if err == Some(Refused) {
        return;
      }
      if err.Some? {
        have := [];
      }
      err := AddMissing(tmux, have, rest);
      if err.Some? {
        return;
      }
      err := Reseed(tmux, if windows == [] then PLACEHOLDER else windows[0]);
    }

    /** A window that cannot be added because the session is gone re-establishes it. */
    method AddWindow(tmux: Tmux, w: Name) returns (err: Option<Error>)
      modifies tmux
      ensures err.None? ==>
                && tmux.session.Some? && tmux.session.value != [] && tmux.session.value[|tmux.session.value| - 1] == w
                && (tmux.last == Opened || (tmux.last == Created && tmux.session == Some([w])))
      ensures err.Some? ==> tmux.last != Opened && tmux.last != Created
      ensures var turns0, turns1 := old(tmux.turns), Rest(old(tmux.turns));
              var session0 := AtCall(old(tmux.session), turns0);
              var session1 := AtCall(session0, turns1);
              var session2 := AtCall(session1, Rest(turns1));
              err.None? <==>
                || (!Refuses(turns0) && session0.Some?)
                || (!Refuses(turns1) && session1.None? && !Refuses(Rest(turns1)) && session2.None?)
      ensures OnlyKills(old(tmux.turns)) ==> err == None && OnlyKills(tmux.turns)
      ensures old(tmux.turns) == [] && old(tmux.session).Some? ==>
                && err == None && tmux.turns == []
                && tmux.session == Some(old(tmux.session).value + [w])
                && tmux.mutations == old(tmux.mutations) + 1
    {
      err := tmux.NewWindow(w);
      if err.Some? {
        var live, herr := tmux.HasSession();
        if herr.Some? {
          return herr;
        }
        if !live {
          err := tmux.NewSession(w);
        }
      }
    }

    /** The loop over the windows. */
    method AddMissing(tmux: Tmux, have: seq<Name>, windows: seq<Name>) returns (err: Option<Error>)
      modifies tmux
      ensures OnlyKills(old(tmux.turns)) ==> err == None && OnlyKills(tmux.turns)
      ensures old(tmux.turns) == [] && old(tmux.session) == Some(have) ==>
                && err == None && tmux.turns == []
                && tmux.session == Some(have + Missing(have, windows))
                && tmux.mutations == old(tmux.mutations) + |Missing(have, windows)|
    {
      var existing := set w | w in have;
      var i := 0;
      assert windows[..0] == [] && have + [] == have;
      while i < |windows|
        invariant 0 <= i <= |windows|
        invariant forall w :: w in existing <==> w in have || w in windows[..i]
        invariant OnlyKills(old(tmux.turns)) ==> OnlyKills(tmux.turns)
        invariant old(tmux.turns) == [] && old(tmux.session) == Some(have) ==>
                    && tmux.turns == [] && tmux.session == Some(have + Missing(have, windows[..i]))
                    && tmux.mutations == old(tmux.mutations) + |Missing(have, windows[..i])|
      {
        var w := windows[i];
        OneMore(have, windows, i);
        if w !in existing {
          err := AddWindow(tmux, w);
          if err.Some? {
            return;
          }
          existing := existing + {w};
        }
        i := i + 1;
      }
      assert windows[..i] == windows;
      err := None;
    }

    /** The final guarantee. */
    method Reseed(tmux: Tmux, seed: Name) returns (err: Option<Error>)
      modifies tmux
      ensures err.None? ==>
                tmux.session.Some? && (tmux.last == Saw(true) || (tmux.last == Created && tmux.session == Some([seed])))
      ensures OnlyKills(old(tmux.turns)) ==> err == None
      ensures old(tmux.turns) == [] && old(tmux.session).Some? ==>
                err == None && tmux.session == old(tmux.session) && tmux.mutations == old(tmux.mutations)
    {
      var live;
      live, err := tmux.HasSession();
      if err.Some? || live {
        return;
      }
      err := tmux.NewSession(seed);
    }
  }

  lemma OneMore(have: seq<Name>, windows: seq<Name>, i: nat)
    requires i < |windows|
    ensures windows[..i + 1] == windows[..i] + [windows[i]]
    ensures var m := Missing(have, windows[..i]);
            && Missing(have, windows[..i + 1]) ==
               (if windows[i] in have || windows[i] in windows[..i] then m else m + [windows[i]])
            && have + (m + [windows[i]]) == have + m + [windows[i]]
  {
    assert windows[..i + 1][..i] == windows[..i];
    MissingOnce(have, windows[..i]);
  }
}
