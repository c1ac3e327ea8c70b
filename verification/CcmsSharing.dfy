/**
Who is let in: the answer to a request, in terms of what the threads hold and not of
the lock's fields.
*/
module CcmsSharing {
  import opened Base
  import opened CcmsModel
  import opened CcmsInvariant
  import opened CcmsSolo
  import opened CcmsRefinement
  import opened CcmsLock

  /** What lets a request for st in: for shared, nobody exclusive and nobody waiting to
      upgrade; for exclusive, nobody holding anything and nobody waiting to upgrade. */
  ghost predicate LetsIn(s: State, st: nat) {
    var a := Parties(s);
    NoUpgrader(a) && (if st == SHARED then NoWriter(a) else NoHolder(a))
  }

  lemma LetsInIff(s: State, i: nat, st: nat)
    requires Inv(s) && s.c.spin.None? && i < |s.ts| && s.ts[i].pc.Idle? && ValidState(st)
    ensures LetsIn(s, st) <==> !Waits(s.c, WaitFor(st))
  {
    FreeIff(s);
    UpgraderIff(s, i);
    if NoHolder(Parties(s)) { assert forall k :: 0 <= k < |s.ts| ==> Parties(s)[k].hold.Free?; }
  }

  /** The thread after its call, run on alone. */
  ghost function After(keyed: bool, s: State, i: nat, op: Op): Thread
    requires Enabled(s, Call(i, op))
  {
    Solo(keyed, s.c, Entering(s.ts[i], op), i, LIMIT).1
  }

  /** The system's call is that thread's. */
  lemma AfterIs(keyed: bool, s: State, i: nat, op: Op)
    requires Enabled(s, Call(i, op))
    ensures i < |CallOn(keyed, s, i, op).ts| && CallOn(keyed, s, i, op).ts[i] == After(keyed, s, i, op)
  {
    RunOnIsSolo(keyed, Apply(keyed, s, Call(i, op)), i, LIMIT);
  }

  /** The call has returned rv and left the thread holding h. */
  ghost predicate ReturnedWith(t: Thread, u: Thread, h: Hold, rv: nat) {
    && u.pc.Idle? && u.hold == h && |u.log| == |t.log| + 1
    && u.log[|t.log|].exit == h && u.log[|t.log|].rv == rv
  }

  /** A thread that is not the owner asks for a known state with the spin free: it is
      let in, by either request, exactly if the holds of the threads let it in; and if
      not, the non-blocking request says EBUSY and the blocking one sleeps. */
  lemma RequestIff(keyed: bool, s: State, i: nat, op: Op)
    requires Callable(s, i, op) && (op.Lock? || op.TryLock? || op.TempRestore?)
    requires ValidState(Wanted(op)) && !s.ts[i].hold.Excl?
    ensures var t, u, st := s.ts[i], After(keyed, s, i, op), Wanted(op);
            if LetsIn(s, st) then ReturnedWith(t, u, if st == SHARED then AddShared(t.hold) else Excl(1, false), 0)
            else if op.TryLock? then ReturnedWith(t, u, t.hold, EBUSY)
            else u.pc == InWait(WaitFor(st), Asleep) && i in CallOn(keyed, s, i, op).c.queue
  {
    LetsInIff(s, i, Wanted(op));
    CallOnEnds(keyed, s, i, op);
    CallOnFields(keyed, s, i, op);
    AfterIs(keyed, s, i, op);
  }

  /** An upgrade is granted at once exactly if no other thread holds the lock. */
  lemma UpgradeIff(keyed: bool, s: State, i: nat)
    requires Callable(s, i, Upgrade) && s.ts[i].hold == Shared(1)
    ensures var t, u := s.ts[i], After(keyed, s, i, Upgrade);
            if forall k :: 0 <= k < |s.ts| && k != i ==> s.ts[k].hold.Free?
            then ReturnedWith(t, u, Excl(1, true), SHARED)
            else u.pc == InWait(ForUpgrade, Asleep) && i in CallOn(keyed, s, i, Upgrade).c.queue
  {
    OnlyHolderIff(s, i);
    CallOnEnds(keyed, s, i, Upgrade);
    CallOnFields(keyed, s, i, Upgrade);
    AfterIs(keyed, s, i, Upgrade);
  }

  lemma OnlyHolderIff(s: State, i: nat)
    requires Inv(s) && i < |s.ts| && s.ts[i].hold == Shared(1)
    ensures s.c.count == 1 <==> forall k :: 0 <= k < |s.ts| && k != i ==> s.ts[k].hold.Free?
  {
    Views(s, i);
    NoneExclusive(s);
    if forall k :: 0 <= k < |s.ts| && k != i ==> s.ts[k].hold.Free? {
      SumSingle(CountShare, s.ts, i);
    } else {
      var k :| 0 <= k < |s.ts| && k != i && !s.ts[k].hold.Free?;
      TwoHolders(s, i, k);
    }
  }

  lemma TwoHolders(s: State, i: nat, k: nat)
    requires Inv(s) && s.c.count >= 0 && i < |s.ts| && k < |s.ts| && i != k
    requires s.ts[i].hold == Shared(1) && !s.ts[k].hold.Free?
    ensures s.c.count > 1
  {
    NoneExclusive(s);
    var t := s.ts[i].(hold := Free);
    var ts := s.ts[i := t];
    SumUpdate(CountShare, s.ts, i, t);
    forall j | 0 <= j < |ts| ensures CountShare(ts[j]) >= 0 { assert !s.ts[j].hold.Excl?; }
    SumBound(CountShare, ts, k);
    assert LocalOk(s.ts[k]);
  }

  /** Any thread may ask whether it owns the lock, and is told so exactly if it does. */
  lemma OwnedIff(keyed: bool, s: State, i: nat)
    requires Inv(s) && i < |s.ts| && s.ts[i].pc.Idle?
    ensures Enabled(s, Call(i, Owned)) && CallOn(keyed, s, i, Owned).c == s.c
    ensures ReturnedWith(s.ts[i], After(keyed, s, i, Owned), s.ts[i].hold, if s.ts[i].hold.Excl? then 1 else 0)
  {
    IdleOwner(s, i);
    var t := Entering(s.ts[i], Owned);
    SoloStep(keyed, s.c, t, i, LIMIT);
    var t1 := Exec(keyed, s.c, t, i).1;
    if s.c.count < 0 {
      SoloStep(keyed, s.c, t1, i, LIMIT - 1);
      SoloReturn(keyed, s.c, Exec(keyed, s.c, t1, i).1, i, LIMIT - 2);
    } else {
      SoloReturn(keyed, s.c, t1, i, LIMIT - 1);
    }
    RunOnIsSolo(keyed, Apply(keyed, s, Call(i, Owned)), i, LIMIT);
  }
}
