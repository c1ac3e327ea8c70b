/**
What one call of the lock does and another undoes, with the second call one that the
discipline of callers allows: the calls come in pairs, at every depth of the hold.
*/
module CcmsUndo {
  import opened CcmsModel
  import opened CcmsInvariant
  import opened CcmsSolo
  import opened CcmsLock
  import opened CcmsSharing

  /** The thread is outside the lock code, and nobody is inside its spin sections. */
  ghost predicate AtRest(s: State, i: nat) {
    Inv(s) && s.c.spin.None? && i < |s.ts| && s.ts[i].pc.Idle?
  }

  /** What the last completed call returned. */
  function LastRv(t: Thread): nat
    requires t.log != []
  {
    t.log[|t.log| - 1].rv
  }

  /** The lock is held as before; its waiters may have been woken. */
  predicate Restored(c: Cst, d: Cst) {
    d.count == c.count && d.upgrade == c.upgrade && d.td == c.td && d.spin == c.spin
  }

  /** The call may be made and returns, the call that is given what it returned may be
      made then, and the two leave the caller's hold and the lock as they were. */
  ghost predicate Undone(keyed: bool, s: State, i: nat, op: Op, inverse: nat -> Op)
    requires i < |s.ts|
  {
    && Enabled(s, Call(i, op))
    && var s1 := CallOn(keyed, s, i, op);
    && |s1.ts| == |s.ts| && s1.ts[i].log != []
    && var back := inverse(LastRv(s1.ts[i]));
    && Enabled(s1, Call(i, back))
    && var s2 := CallOn(keyed, s1, i, back);
    && |s2.ts| == |s.ts| && s2.ts[i].pc.Idle? && s2.ts[i].hold == s.ts[i].hold && Restored(s.c, s2.c)
  }

  /** A call that returns leaves its caller at rest again. */
  lemma CallRests(keyed: bool, s: State, i: nat, op: Op, s1: State, o: Outcome)
    requires Callable(s, i, op) && !op.Owned? && s1 == CallOn(keyed, s, i, op)
    requires o == OutcomeOf(keyed, s.c, s.ts[i].hold, i, op) && o.Returns? && o.c.spin.None?
    ensures AtRest(s1, i) && |s1.ts| == |s.ts| && s1.c == o.c && s1.ts[i].hold == o.hold
    ensures s1.ts[i].log != [] && LastRv(s1.ts[i]) == o.rv
  {
    CallOnInv(keyed, s, i, op);
    CallOnEnds(keyed, s, i, op);
    CallOnFields(keyed, s, i, op);
    AfterIs(keyed, s, i, op);
  }

  /** Two calls in a row, by their outcomes. */
  lemma UndoneBy(keyed: bool, s: State, i: nat, op: Op, inverse: nat -> Op, o: Outcome, p: Outcome)
    requires AtRest(s, i) && Enabled(s, Call(i, op)) && !op.Owned?
    requires o == OutcomeOf(keyed, s.c, s.ts[i].hold, i, op) && o.Returns? && o.c.spin.None?
    requires !inverse(o.rv).Owned? && MayCall(inverse(o.rv), o.hold)
    requires p == OutcomeOf(keyed, o.c, o.hold, i, inverse(o.rv)) && p.Returns? && p.c.spin.None?
    requires p.hold == s.ts[i].hold && Restored(s.c, p.c)
    ensures Undone(keyed, s, i, op, inverse)
  {
    var s1 := CallOn(keyed, s, i, op);
    CallRests(keyed, s, i, op, s1, o);
    CallRests(keyed, s1, i, inverse(o.rv), CallOn(keyed, s1, i, inverse(o.rv)), p);
  }

  lemma NoOwner(s: State, i: nat)
    requires AtRest(s, i) && s.c.count >= 0
    ensures s.c.td.None?
  {
    if s.c.td.Some? {
      var j := s.c.td.value;
      assert s.ts[j].owns && LocalOk(s.ts[j]);
      CountOfExclusive(s, j);
    }
  }

  /** An upgrade is undone by a downgrade to what it returned: from a shared hold that is
      the only one, and from an exclusive hold of any depth. */
  lemma UpgradeUndone(keyed: bool, s: State, i: nat)
    requires AtRest(s, i)
    requires s.ts[i].hold.Excl?
             || (s.ts[i].hold == Shared(1) && forall k :: 0 <= k < |s.ts| && k != i ==> s.ts[k].hold.Free?)
    ensures Undone(keyed, s, i, Upgrade, (v: nat) => Downgrade(v))
  {
    var h := s.ts[i].hold;
    if h == Shared(1) {
      OnlyHolderIff(s, i);
      NoOwner(s, i);
    }
    var o := OutcomeOf(keyed, s.c, h, i, Upgrade);
    UndoneBy(keyed, s, i, Upgrade, (v: nat) => Downgrade(v), o, OutcomeOf(keyed, o.c, o.hold, i, Downgrade(o.rv)));
  }

  /** A request that is let in is undone by an unlock: of a thread that holds nothing, of
      one that holds the lock shared and does not wait for it, and of the owner. */
  lemma RequestUndone(keyed: bool, s: State, i: nat, op: Op)
    requires AtRest(s, i) && (op.Lock? || op.TryLock? || op.TempRestore?)
    requires s.ts[i].hold.Excl? || (ValidState(Wanted(op)) && LetsIn(s, Wanted(op)))
    requires s.ts[i].hold.Shared? ==> op.TryLock? && Wanted(op) == SHARED
    ensures Undone(keyed, s, i, op, (_: nat) => Unlock)
  {
    var h := s.ts[i].hold;
    Views(s, i);
    if !h.Excl? {
      LetsInIff(s, i, Wanted(op));
      NoOwner(s, i);
    }
    var o := OutcomeOf(keyed, s.c, h, i, op);
    UndoneBy(keyed, s, i, op, (_: nat) => Unlock, o, OutcomeOf(keyed, o.c, o.hold, i, Unlock));
  }

  /** A temporary release is undone by restoring what it returned, if nobody waits to
      upgrade or the lock stays owned. */
  lemma TempUndone(keyed: bool, s: State, i: nat)
    requires AtRest(s, i) && (s.ts[i].hold == Shared(1) || s.ts[i].hold.Excl?)
    requires s.c.upgrade == 0 || (s.ts[i].hold.Excl? && s.ts[i].hold.depth > 1)
    ensures Undone(keyed, s, i, TempRelease, (v: nat) => TempRestore(v))
  {
    var h := s.ts[i].hold;
    Views(s, i);
    IdleOwner(s, i);
    if h == Shared(1) { NoOwner(s, i); }
    var o := OutcomeOf(keyed, s.c, h, i, TempRelease);
    var p := OutcomeOf(keyed, o.c, o.hold, i, TempRestore(o.rv));
    UndoneBy(keyed, s, i, TempRelease, (v: nat) => TempRestore(v), o, p);
  }

  /** The two calls may be made in a row, and come to the same as the one. */
  ghost predicate SameAsBoth(keyed: bool, s: State, i: nat, op: Op, first: Op, second: Op)
    requires i < |s.ts|
  {
    && Enabled(s, Call(i, op)) && Enabled(s, Call(i, first))
    && var s0, s1 := CallOn(keyed, s, i, op), CallOn(keyed, s, i, first);
    && Enabled(s1, Call(i, second))
    && var s2 := CallOn(keyed, s1, i, second);
    && |s0.ts| == |s2.ts| == |s.ts| && s0.ts[i].pc.Idle? && s2.ts[i].pc.Idle?
    && s0.c == s2.c && s0.ts[i].hold == s2.ts[i].hold
  }

  lemma BothBy(keyed: bool, s: State, i: nat, op: Op, first: Op, second: Op, o: Outcome, p: Outcome)
    requires AtRest(s, i) && Enabled(s, Call(i, op)) && Enabled(s, Call(i, first))
    requires !op.Owned? && !first.Owned? && !second.Owned?
    requires o == OutcomeOf(keyed, s.c, s.ts[i].hold, i, first) && o.Returns? && o.c.spin.None?
    requires MayCall(second, o.hold) && p == OutcomeOf(keyed, o.c, o.hold, i, second) && p.Returns? && p.c.spin.None?
    requires var q := OutcomeOf(keyed, s.c, s.ts[i].hold, i, op); q.Returns? && q.c == p.c && q.hold == p.hold
    ensures SameAsBoth(keyed, s, i, op, first, second)
  {
    var s1 := CallOn(keyed, s, i, first);
    CallRests(keyed, s, i, op, CallOn(keyed, s, i, op), OutcomeOf(keyed, s.c, s.ts[i].hold, i, op));
    CallRests(keyed, s, i, first, s1, o);
    CallRests(keyed, s1, i, second, CallOn(keyed, s1, i, second), p);
  }

  /** Giving back an upgraded hold is downgrading it and unlocking what is left. */
  lemma UnlockUpgradedIsBoth(keyed: bool, s: State, i: nat, v: nat)
    requires AtRest(s, i)
    requires if v == SHARED then s.ts[i].hold == Excl(1, true)
             else !s.ts[i].hold.Free? && s.ts[i].hold != Excl(1, true)
    ensures SameAsBoth(keyed, s, i, UnlockUpgraded(v), Downgrade(v), Unlock)
  {
    var o := OutcomeOf(keyed, s.c, s.ts[i].hold, i, Downgrade(v));
    BothBy(keyed, s, i, UnlockUpgraded(v), Downgrade(v), Unlock, o, OutcomeOf(keyed, o.c, o.hold, i, Unlock));
  }
}
