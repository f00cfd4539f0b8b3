/** The held-input ledger (ledger.py) with callbacks that do not call back into it. What each callback
    does when it runs is up to the outside world: `ok` says which tokens' callbacks return normally. */
module Ledger {
  import opened Wrappers

  datatype Held = Held(token: string, kind: string, callback: nat, retain: bool)

  /** A failed callback leaves its hold in place only if the hold asked for that. */
  predicate Stays(h: Held, ok: string -> bool) { h.retain && !ok(h.token) }

  function Kept(hs: seq<Held>, ok: string -> bool): seq<Held> {
    if hs == [] then [] else if Stays(hs[0], ok) then [hs[0]] + Kept(hs[1..], ok) else Kept(hs[1..], ok)
  }

  function Gone(hs: seq<Held>, ok: string -> bool): seq<Held> {
    if hs == [] then [] else if Stays(hs[0], ok) then Gone(hs[1..], ok) else [hs[0]] + Gone(hs[1..], ok)
  }

  function Tokens(hs: seq<Held>): seq<string> {
    if hs == [] then [] else [hs[0].token] + Tokens(hs[1..])
  }

  function Callbacks(hs: seq<Held>): seq<nat> {
    if hs == [] then [] else [hs[0].callback] + Callbacks(hs[1..])
  }

  ghost predicate Keyed(hs: seq<Held>) { forall i, j :: 0 <= i < j < |hs| ==> hs[i].token != hs[j].token }

  /** Exactly the retained holds whose callback failed stay. */
  lemma {:induction false} SplitMembers(hs: seq<Held>, ok: string -> bool, h: Held)
    ensures h in Kept(hs, ok) <==> h in hs && Stays(h, ok)
    ensures h in Gone(hs, ok) <==> h in hs && !Stays(h, ok)
  {
    if hs != [] {
      SplitMembers(hs[1..], ok, h);
      assert hs == [hs[0]] + hs[1..];
    }
  }

  /** What is held splits into what is released and what is kept: nothing twice, nothing lost. */
  lemma {:induction false} ReleaseSplits(hs: seq<Held>, ok: string -> bool)
    ensures multiset(hs) == multiset(Gone(hs, ok)) + multiset(Kept(hs, ok))
  {
    if hs != [] {
      assert hs == [hs[0]] + hs[1..];
      ReleaseSplits(hs[1..], ok);
    }
  }

  /** Assignment to a key of the dictionary: an old entry is replaced where it is. */
  function Store(hs: seq<Held>, h: Held): seq<Held> {
    if hs == [] then [h]
    else if hs[0].token == h.token then [h] + hs[1..]
    else [hs[0]] + Store(hs[1..], h)
  }

  function Drop(hs: seq<Held>, token: string): seq<Held> {
    if hs == [] then [] else if hs[0].token == token then hs[1..] else [hs[0]] + Drop(hs[1..], token)
  }

  lemma {:induction false} StoreMembers(hs: seq<Held>, h: Held)
    requires Keyed(hs)
    ensures Keyed(Store(hs, h))
    ensures forall x :: x in Store(hs, h) <==> x == h || (x in hs && x.token != h.token)
  {
    if hs != [] {
      assert hs == [hs[0]] + hs[1..];
      assert forall x :: x in hs[1..] ==> x.token != hs[0].token;
      StoreMembers(hs[1..], h);
      var r := Store(hs, h);
      assert r == [r[0]] + r[1..];
      assert forall x :: x in r[1..] ==> x.token != r[0].token;
    }
  }

  lemma {:induction false} DropMembers(hs: seq<Held>, token: string)
    requires Keyed(hs)
    ensures Keyed(Drop(hs, token))
    ensures forall x :: x in Drop(hs, token) <==> x in hs && x.token != token
  {
    if hs != [] {
      assert hs == [hs[0]] + hs[1..];
      assert forall x :: x in hs[1..] ==> x.token != hs[0].token;
      DropMembers(hs[1..], token);
      var r := Drop(hs, token);
      if hs[0].token != token {
        assert r == [hs[0]] + r[1..];
        assert forall x :: x in r[1..] ==> x.token != hs[0].token;
      }
    }
  }

  /** The entry about to be released is the first with its token. */
  lemma {:induction false} DropPast(kept: seq<Held>, rest: seq<Held>)
    requires Keyed(kept + rest) && rest != []
    ensures Drop(kept + rest, rest[0].token) == kept + rest[1..] && Keyed(kept + rest[1..])
  {
    if kept == [] {
      assert kept + rest == rest && kept + rest[1..] == rest[1..];
    } else {
      var all := kept + rest;
      assert all[0] == kept[0] && all[1..] == kept[1..] + rest && all[0].token != all[|kept|].token;
      DropPast(kept[1..], rest);
      var r := kept + rest[1..];
      assert r == [kept[0]] + (kept[1..] + rest[1..]);
      forall j | 0 < j < |r| ensures r[j].token != r[0].token {
        assert if j < |kept| then r[j] == all[j] else r[j] == all[j + 1];
      }
    }
  }

  lemma {:induction false} TokensExtend(hs: seq<Held>, h: Held)
    ensures Tokens(hs + [h]) == Tokens(hs) + [h.token] && Callbacks(hs + [h]) == Callbacks(hs) + [h.callback]
  {
    if hs != [] {
      assert (hs + [h])[1..] == hs[1..] + [h];
      TokensExtend(hs[1..], h);
    }
  }

  /** The invariant of the release loop: `rest` is still to do, `kept` and `gone` are done. */
  ghost predicate Midway(all: seq<Held>, ok: string -> bool, kept: seq<Held>, gone: seq<Held>, rest: seq<Held>) {
    kept + Kept(rest, ok) == Kept(all, ok) && gone + Gone(rest, ok) == Gone(all, ok) && Keyed(kept + rest)
  }

  /** ... together with what the ledger's fields show of it. */
  ghost predicate Shows(
    all: seq<Held>, kept: seq<Held>, gone: seq<Held>, rest: seq<Held>,
    held: seq<Held>, released: seq<string>, before: seq<nat>, calls: seq<nat>)
  {
    && |rest| <= |all| && rest == all[|all| - |rest|..]
    && held == kept + rest && released == Tokens(gone)
    && calls == before + Callbacks(all[..|all| - |rest|])
  }

  lemma {:induction false} Turn(all: seq<Held>, ok: string -> bool, kept: seq<Held>, gone: seq<Held>, rest: seq<Held>)
    requires Midway(all, ok, kept, gone, rest) && rest != []
    ensures if Stays(rest[0], ok) then Midway(all, ok, kept + [rest[0]], gone, rest[1..])
            else Midway(all, ok, kept, gone + [rest[0]], rest[1..])
    ensures Drop(kept + rest, rest[0].token) == kept + rest[1..]
  {
    DropPast(kept, rest);
    if Stays(rest[0], ok) {
      assert kept + [rest[0]] + rest[1..] == kept + rest;
      assert kept + [rest[0]] + Kept(rest[1..], ok) == kept + Kept(rest, ok);
    } else {
      assert gone + [rest[0]] + Gone(rest[1..], ok) == gone + Gone(rest, ok);
    }
  }

  lemma {:induction false} TurnShows(
    all: seq<Held>, kept: seq<Held>, gone: seq<Held>, rest: seq<Held>,
    held: seq<Held>, released: seq<string>, before: seq<nat>, calls: seq<nat>)
    requires Shows(all, kept, gone, rest, held, released, before, calls) && rest != []
    ensures rest[0] == all[|all| - |rest|]
    ensures Shows(all, kept + [rest[0]], gone, rest[1..], held, released, before, calls + [rest[0].callback])
    ensures Shows(all, kept, gone + [rest[0]], rest[1..], kept + rest[1..],
                  released + [rest[0].token], before, calls + [rest[0].callback])
  {
    var i := |all| - |rest|;
    assert all[..i + 1] == all[..i] + [all[i]];
    TokensExtend(all[..i], all[i]);
    TokensExtend(gone, rest[0]);
    assert kept + [rest[0]] + rest[1..] == kept + rest;
  }

  lemma {:induction false} SweepEnds(all: seq<Held>, ok: string -> bool, kept: seq<Held>, gone: seq<Held>)
    requires Midway(all, ok, kept, gone, [])
    ensures kept == Kept(all, ok) && gone == Gone(all, ok) && Keyed(kept)
    ensures multiset(all) == multiset(gone) + multiset(kept)
    ensures forall h :: h in kept <==> h in all && Stays(h, ok)
  {
    assert kept + [] == kept && gone + [] == gone;
    ReleaseSplits(all, ok);
    forall h ensures h in kept <==> h in all && Stays(h, ok) { SplitMembers(all, ok, h); }
  }

  class HeldInputLedger {
    const deadman: real
    var held: seq<Held>        // the dictionary's values, in its order
    var timer: Option<real>    // when the running deadman timer will fire
    var stopped: bool
    var clock: real
    var lastReset: real
    var calls: seq<nat>        // callbacks run so far

    /** Whatever is held without custody is covered by a timer that has not run out. */
    ghost predicate Valid()
      reads this
    {
      && Keyed(held) && deadman > 0.0 && lastReset <= clock
      && (timer.Some? ==> timer.value == lastReset + deadman && clock < timer.value)
      && (stopped ==> timer == None)
      && forall h :: h in held && !h.retain ==> !stopped && timer.Some?
    }

    constructor (deadmanSeconds: real)
      requires deadmanSeconds > 0.0
      ensures Valid() && held == [] && deadman == deadmanSeconds && !stopped
    {
      deadman, held, timer, stopped, clock, lastReset, calls := deadmanSeconds, [], None, false, 0.0, 0.0, [];
    }

    method ResetDeadman()
      modifies this`timer, this`lastReset
      ensures timer == if held == [] || stopped then None else Some(clock + deadman)
      ensures lastReset == if held == [] || stopped then old(lastReset) else clock
    {
      timer := None;
      if held == [] || stopped { return; }
      timer := Some(clock + deadman);
      lastReset := clock;
    }

    method Hold(h: Held, ok: string -> bool)
      requires Valid()
      modifies this
      ensures Valid() && stopped == old(stopped) && clock == old(clock)
      ensures !stopped ==> held == Store(old(held), h) && timer == Some(clock + deadman) && calls == old(calls)
      ensures stopped ==> calls == old(calls) + [h.callback] && timer == None
      ensures stopped ==> held == if !h.retain then old(held)
                                  else if Stays(h, ok) then Store(old(held), h)
                                  else Drop(Store(old(held), h), h.token)
    {
      StoreMembers(held, h);
      if stopped {
        if h.retain {
          held := Store(held, h);
          DropMembers(held, h.token);
          var _ := ReleaseOne(h, ok);
        } else {
          calls := calls + [h.callback];
        }
        return;
      }
      held := Store(held, h);
      ResetDeadman();
    }

    /** _release_locked: run the callback, then forget the hold unless it has to be kept. */
    method ReleaseOne(h: Held, ok: string -> bool) returns (released: bool)
      modifies this`held, this`calls
      ensures released == !Stays(h, ok) && calls == old(calls) + [h.callback]
      ensures held == if released then Drop(old(held), h.token) else old(held)
    {
      calls := calls + [h.callback];
      if !ok(h.token) && h.retain { return false; }
      held := Drop(held, h.token);
      released := true;
    }

    method Release(token: string, ok: string -> bool)
      requires Valid()
      modifies this
      ensures Valid() && stopped == old(stopped) && clock == old(clock)
      ensures (forall h :: h in old(held) ==> h.token != token) ==>
                held == old(held) && calls == old(calls) && timer == old(timer)
      ensures forall h :: h in old(held) && h.token == token ==>
        && calls == old(calls) + [h.callback]
        && held == (if Stays(h, ok) then old(held) else Drop(old(held), token))
        && timer == if held == [] || stopped then None else Some(clock + deadman)
    {
      var i := 0;
      while i < |held| && held[i].token != token
        invariant 0 <= i <= |held| && held == old(held)
        invariant forall j :: 0 <= j < i ==> held[j].token != token
      {
        i := i + 1;
      }
      if i == |held| { return; }
      DropMembers(held, token);
      var _ := ReleaseOne(held[i], ok);
      ResetDeadman();
    }

    /** Every held token once, in order: exactly the confirmed or unretained ones are released and
        reported, exactly the retained ones whose callback failed are still held. */
    method ReleaseAll(ok: string -> bool) returns (released: seq<string>)
      requires Valid()
      modifies this`held, this`calls
      ensures Valid()
      ensures released == Tokens(Gone(old(held), ok)) && held == Kept(old(held), ok)
      ensures multiset(old(held)) == multiset(Gone(old(held), ok)) + multiset(held)
      ensures forall h :: h in held <==> h in old(held) && Stays(h, ok)
      ensures calls == old(calls) + Callbacks(old(held))
    {
      ghost var all, kept, gone := held, [], [];
      released, kept, gone := ReleaseEach(ok);
      SweepEnds(all, ok, kept, gone);
    }

    /** The release loop, over a snapshot of the dictionary. */
    method ReleaseEach(ok: string -> bool)
        returns (released: seq<string>, ghost kept: seq<Held>, ghost gone: seq<Held>)
      requires Keyed(held)
      modifies this`held, this`calls
      ensures Midway(old(held), ok, kept, gone, []) && held == kept && released == Tokens(gone)
      ensures calls == old(calls) + Callbacks(old(held))
    {
      var all, rest := held, held;
      released, kept, gone := [], [], [];
      assert [] + all == all && [] + Kept(all, ok) == Kept(all, ok) && [] + Gone(all, ok) == Gone(all, ok);
      while rest != []
        invariant Midway(all, ok, kept, gone, rest)
        invariant Shows(all, kept, gone, rest, held, released, old(calls), calls)
      {
        Turn(all, ok, kept, gone, rest);
        TurnShows(all, kept, gone, rest, held, released, old(calls), calls);
        var h := rest[0];
        var ran := ReleaseOne(h, ok);
        rest := rest[1..];
        if ran {
          released := released + [h.token];
          gone := gone + [h];
        } else {
          kept := kept + [h];
        }
      }
      assert all[..|all|] == all && kept + [] == kept;
    }

    method Stop(ok: string -> bool)
      requires Valid()
      modifies this
      ensures Valid() && stopped && timer == None && held == Kept(old(held), ok)
      ensures forall h :: h in held ==> h.retain
    {
      var _ := ReleaseAll(ok);
      stopped := true;
      timer := None;
    }

    /** Time goes on; a timer that runs out releases everything. Whatever then is still held without
        custody was put there, or confirmed by a release, less than `deadman` ago. */
    method Advance(to: real, ok: string -> bool)
      requires Valid() && clock <= to
      modifies this
      ensures Valid() && clock == to && lastReset == old(lastReset) && stopped == old(stopped)
      ensures forall h :: h in held && !h.retain ==> to < lastReset + deadman
      ensures held == if old(timer).Some? && old(timer).value <= to then Kept(old(held), ok) else old(held)
    {
      if timer.Some? && timer.value <= to {
        var _ := ReleaseAll(ok);
        timer := None;
      }
      clock := to;
    }
  }
}
