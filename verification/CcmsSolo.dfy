/**
What each function of the lock does when its thread runs on without another
thread in between: up to its return, or up to the sleep.  These outcomes are the
specification of the imperative form of the lock, and the place where the
blocking and the non-blocking request are compared.
*/
module CcmsSolo {
  import opened Base
  import opened CcmsModel
  import opened CcmsInvariant
  import opened CcmsSafety

  /** At most `n` steps of one thread, as long as it can take them. */
  function Solo(keyed: bool, c: Cst, t: Thread, me: nat, n: nat): (Cst, Thread)
    decreases n
  {
    if n == 0 || !Ready(c, t, me) then (c, t)
    else var (c', t') := Exec(keyed, c, t, me); Solo(keyed, c', t', me, n - 1)
  }

  /** Enough steps for any function of the lock. */
  const LIMIT: nat := 20

  /** The end of an uninterrupted call. */
  datatype Outcome =
    | Returns(c: Cst, hold: Hold, rv: nat)
    | Sleeps(c: Cst, w: Wait)

  function WaitFor(st: nat): Wait {
    if st == SHARED then ForShared else ForExcl
  }

  /** A granted request, seen in the fields. */
  function Granted(c: Cst, me: nat, w: Wait): Cst {
    if w == ForShared then c.(count := c.count + 1) else c.(count := -1, td := Some(me))
  }

  function LockOutcome(c: Cst, h: Hold, me: nat, st: nat): Outcome {
    if h.Excl? then Returns(c.(count := c.count - 1), Deeper(h), 0)
    else if !ValidState(st) then Returns(c, h, 0)
    else if Waits(c, WaitFor(st)) then Sleeps(c.(blocked := true, queue := c.queue + {me}), WaitFor(st))
    else Returns(Granted(c, me, WaitFor(st)), Acquired(h, st), 0)
  }

  function TryOutcome(c: Cst, h: Hold, me: nat, st: nat): Outcome {
    if h.Excl? then Returns(c.(count := c.count - 1), Deeper(h), 0)
    else if !ValidState(st) || Waits(c, WaitFor(st)) then Returns(c, h, EBUSY)
    else Returns(Granted(c, me, WaitFor(st)), Acquired(h, st), 0)
  }

  function UpgradeOutcome(c: Cst, h: Hold, me: nat): Outcome {
    if h.Excl? then Returns(c, h, EXCLUSIVE)
    else
      var c1 := c.(upgrade := c.upgrade + 1, count := c.count - 1);
      if c1.count != 0 then Sleeps(c1.(blocked := true, queue := c.queue + {me}), ForUpgrade)
      else Returns(c1.(count := -1, td := Some(me)), Excl(1, true), SHARED)
  }

  /** A release that lets waiters go: clear the flag and wake the channel. */
  function Woken(keyed: bool, c: Cst): Cst {
    if c.blocked then c.(blocked := false, queue := if keyed then {} else c.queue) else c
  }

  function DowngradeOutcome(keyed: bool, c: Cst, left: nat): Outcome {
    Returns(Woken(keyed, c.(upgrade := c.upgrade - 1, count := left, td := None)),
            if left == 1 then Shared(1) else Free, 0)
  }

  function UnlockOutcome(keyed: bool, c: Cst, h: Hold, rv: nat): Outcome {
    if h.Excl? then
      if h.depth > 1 then Returns(c.(count := c.count + 1), Released(h), rv)
      else Returns(Woken(keyed, c.(count := 0, td := None)), Free, rv)
    else
      var c1 := c.(count := c.count - 1);
      Returns(if c1.count == 0 then Woken(keyed, c1) else c1, Released(h), rv)
  }

  /** The thread has ended its call as the outcome says. */
  ghost predicate EndsIn(r: (Cst, Thread), t: Thread, o: Outcome) {
    match o
    case Returns(c, h, rv) =>
      && r.0 == c && r.1.pc.Idle? && r.1.hold == h
      && r.1.log == t.log + [CallRec(t.op, t.entry, h, rv)]
    case Sleeps(c, w) => r.0 == c && r.1.pc == InWait(w, Asleep) && r.1.hold == Free && r.1.log == t.log
  }

  ghost predicate Alone(c: Cst, t: Thread, me: nat) {
    LocalOk(t) && View(c, t, me) && c.spin.None? && me !in c.queue
  }

  lemma SoloStep(keyed: bool, c: Cst, t: Thread, me: nat, n: nat)
    requires n > 0 && Ready(c, t, me)
    ensures var (c', t') := Exec(keyed, c, t, me);
            Solo(keyed, c, t, me, n) == Solo(keyed, c', t', me, n - 1)
  {}

  lemma SoloStop(keyed: bool, c: Cst, t: Thread, me: nat, n: nat)
    requires !Ready(c, t, me)
    ensures Solo(keyed, c, t, me, n) == (c, t)
  {}

  lemma SoloReturn(keyed: bool, c: Cst, t: Thread, me: nat, n: nat)
    requires n > 0 && t.pc.Ret?
    ensures Solo(keyed, c, t, me, n) == (c, t.(pc := Idle, log := t.log + [CallRec(t.op, t.entry, t.hold, t.rv)]))
  {
    SoloStep(keyed, c, t, me, n);
    var (c', t') := Exec(keyed, c, t, me);
    SoloStop(keyed, c', t', me, n - 1);
  }

  lemma SoloUnspin(keyed: bool, c: Cst, t: Thread, me: nat, n: nat)
    requires n > 1 && t.pc == InTail(Unspin)
    ensures Solo(keyed, c, t, me, n) ==
            (c.(spin := None), t.(pc := Idle, log := t.log + [CallRec(t.op, t.entry, t.hold, t.rv)]))
  {
    SoloStep(keyed, c, t, me, n);
    SoloReturn(keyed, c.(spin := None), t.(pc := Ret), me, n - 1);
  }

  lemma SoloTail(keyed: bool, c: Cst, t: Thread, me: nat, n: nat)
    requires n > 4 && t.pc == InTail(RdBlocked)
    ensures Solo(keyed, c, t, me, n) ==
            (Woken(keyed, c).(spin := None), t.(pc := Idle, log := t.log + [CallRec(t.op, t.entry, t.hold, t.rv)]))
  {
    SoloStep(keyed, c, t, me, n);
    if c.blocked {
      var t1, c1 := t.(pc := InTail(ClrBlocked)), c.(blocked := false);
      SoloStep(keyed, c, t1, me, n - 1);
      var t2 := t.(pc := InTail(UnspinWake));
      SoloStep(keyed, c1, t2, me, n - 2);
      var t3, c3 := t.(pc := InTail(Wakeup)), c1.(spin := None);
      SoloStep(keyed, c3, t3, me, n - 3);
      var c4 := c3.(queue := if keyed then {} else c.queue);
      SoloReturn(keyed, c4, t.(pc := Ret), me, n - 4);
      assert c4 == Woken(keyed, c).(spin := None);
    } else {
      SoloUnspin(keyed, c, t.(pc := InTail(Unspin)), me, n - 1);
    }
  }

  /** The wait loop's test, entered with the spin, when the condition holds:
      refuse or sleep. */
  lemma SoloRefused(keyed: bool, c: Cst, t: Thread, me: nat, n: nat, w: Wait)
    requires n > 6 && t.pc == InWait(w, Test) && c.spin == Some(me) && Waits(c, w)
    ensures var r := Solo(keyed, c, t, me, n);
            if t.op.TryLock? then
              r == (c.(spin := None),
                    t.(pc := Idle, rv := EBUSY, log := t.log + [CallRec(t.op, t.entry, t.hold, EBUSY)]))
            else r == (c.(spin := None, blocked := true, queue := c.queue + {me}), t.(pc := InWait(w, Asleep)))
  {
    SoloStep(keyed, c, t, me, n);
    if t.op.TryLock? {
      SoloStep(keyed, c, t.(pc := InLock(BusyUnspin)), me, n - 1);
      SoloReturn(keyed, c.(spin := None), t.(pc := Ret, rv := EBUSY), me, n - 2);
    } else {
      SoloStep(keyed, c, t.(pc := InWait(w, SetBlocked)), me, n - 1);
      var c2, t2 := c.(blocked := true), t.(pc := InWait(w, Enqueue));
      SoloStep(keyed, c2, t2, me, n - 2);
      var c3, t3 := c2.(queue := c.queue + {me}), t.(pc := InWait(w, SleepUnspin));
      SoloStep(keyed, c3, t3, me, n - 3);
      SoloStop(keyed, c3.(spin := None), t.(pc := InWait(w, Asleep)), me, n - 4);
    }
  }

  /** The same, when the condition does not hold: the grant. */
  lemma SoloGranted(keyed: bool, c: Cst, t: Thread, me: nat, n: nat, w: Wait)
    requires n > 6 && t.pc == InWait(w, Test) && c.spin == Some(me) && !Waits(c, w)
    ensures var r := Solo(keyed, c, t, me, n);
            var h := if w == ForShared then AddShared(t.hold) else Excl(1, w == ForUpgrade);
            && r.0 == Granted(c, me, w).(spin := None) && r.1.pc.Idle? && r.1.hold == h
            && r.1.log == t.log + [CallRec(t.op, t.entry, h, if w == ForUpgrade then SHARED else t.rv)]
  {
    SoloStep(keyed, c, t, me, n);
    if w == ForShared {
      SoloStep(keyed, c, t.(pc := InLock(IncShared)), me, n - 1);
      var c2, t2 := c.(count := c.count + 1), t.(pc := InLock(AssertNoTd), hold := AddShared(t.hold));
      SoloStep(keyed, c2, t2, me, n - 2);
      SoloUnspin(keyed, c2, t2.(pc := InTail(Unspin)), me, n - 3);
    } else {
      SoloTaken(keyed, c, t.(pc := InWait(w, TakeCount)), me, n - 1, w);
    }
  }

  lemma SoloTaken(keyed: bool, c: Cst, t: Thread, me: nat, n: nat, w: Wait)
    requires n > 5 && t.pc == InWait(w, TakeCount) && c.spin == Some(me) && w != ForShared
    ensures var r := Solo(keyed, c, t, me, n);
            var h := Excl(1, w == ForUpgrade);
            && r.0 == Granted(c, me, w).(spin := None) && r.1.pc.Idle? && r.1.hold == h
            && r.1.log == t.log + [CallRec(t.op, t.entry, h, if w == ForUpgrade then SHARED else t.rv)]
  {
    SoloStep(keyed, c, t, me, n);
    var c2, t2 := c.(count := -1), t.(pc := InWait(w, TakeTd), hold := Excl(1, w == ForUpgrade));
    SoloStep(keyed, c2, t2, me, n - 1);
    var t3 := t2.(pc := InTail(Unspin), owns := true, rv := if w == ForUpgrade then SHARED else t.rv);
    SoloUnspin(keyed, c2.(td := Some(me)), t3, me, n - 2);
  }

  /** lock, its non-blocking form, and temp_restore. */
  lemma SoloLock(keyed: bool, c: Cst, t: Thread, me: nat)
    requires t.pc == InLock(RdCount) && Alone(c, t, me)
    ensures EndsIn(Solo(keyed, c, t, me, LIMIT), t,
                   if t.op.TryLock? then TryOutcome(c, t.hold, me, Wanted(t.op))
                   else LockOutcome(c, t.hold, me, Wanted(t.op)))
  {
    SoloStep(keyed, c, t, me, 20);
    var t1 := ExecLock(c, t, me, RdCount).1;
    if t.hold.Excl? {
      SoloStep(keyed, c, t1, me, 19);
      var t2 := t.(pc := InLock(RecRd));
      SoloStep(keyed, c, t2, me, 18);
      var t3 := t.(pc := InLock(RecWr(c.count)));
      SoloStep(keyed, c, t3, me, 17);
      SoloReturn(keyed, c.(count := c.count - 1), t.(pc := Ret, hold := Deeper(t.hold)), me, 16);
    } else {
      var t2 := t.(pc := InLock(Spin));
      if c.count < 0 {
        SoloStep(keyed, c, t1, me, 19);
        SoloSpin(keyed, c, t2, me, 18);
      } else {
        SoloSpin(keyed, c, t2, me, 19);
      }
    }
  }

  lemma SoloArm(keyed: bool, c: Cst, t: Thread, me: nat, n: nat)
    requires t.pc == InWait(WaitFor(Wanted(t.op)), Test) && c.spin == Some(me) && !t.hold.Excl? && t.rv == 0 && n > 6
    requires ValidState(Wanted(t.op)) && (t.op.TryLock? || t.hold == Free)
    ensures EndsIn(Solo(keyed, c, t, me, n), t,
                   if t.op.TryLock? then TryOutcome(c.(spin := None), t.hold, me, Wanted(t.op))
                   else LockOutcome(c.(spin := None), t.hold, me, Wanted(t.op)))
  {
    var w := WaitFor(Wanted(t.op));
    if Waits(c, w) {
      SoloRefused(keyed, c, t, me, n, w);
    } else {
      SoloGranted(keyed, c, t, me, n, w);
    }
  }

  lemma SoloSpin(keyed: bool, c: Cst, t: Thread, me: nat, n: nat)
    requires t.pc == InLock(Spin) && Alone(c, t, me) && n > 9
    ensures EndsIn(Solo(keyed, c, t, me, n), t,
                   if t.op.TryLock? then TryOutcome(c, t.hold, me, Wanted(t.op))
                   else LockOutcome(c, t.hold, me, Wanted(t.op)))
  {
    var c1 := c.(spin := Some(me));
    assert c1.(spin := None) == c;
    SoloStep(keyed, c, t, me, n);
    SoloStep(keyed, c1, t.(pc := InLock(Arm)), me, n - 1);
    if ValidState(Wanted(t.op)) {
      SoloArm(keyed, c1, t.(pc := InWait(WaitFor(Wanted(t.op)), Test)), me, n - 2);
    } else {
      SoloStep(keyed, c1, t.(pc := InLock(BadUnspin)), me, n - 2);
      SoloReturn(keyed, c, t.(pc := Ret, rv := if t.op.TryLock? then EBUSY else 0), me, n - 3);
    }
  }

  lemma SoloUpInc(keyed: bool, c: Cst, t: Thread, me: nat, n: nat)
    requires t.pc == InUp(UpInc) && c.spin == Some(me) && t.hold == Shared(1) && t.op == Upgrade && n > 8
    ensures EndsIn(Solo(keyed, c, t, me, n), t, UpgradeOutcome(c.(spin := None), t.hold, me))
  {
    SoloStep(keyed, c, t, me, n);
    var c2 := c.(upgrade := c.upgrade + 1);
    SoloStep(keyed, c2, t.(pc := InUp(UpDec), up := 1), me, n - 1);
    var c3, t3 := c2.(count := c.count - 1), t.(pc := InWait(ForUpgrade, Test), up := 1, hold := Free);
    if c3.count != 0 {
      SoloRefused(keyed, c3, t3, me, n - 2, ForUpgrade);
    } else {
      SoloGranted(keyed, c3, t3, me, n - 2, ForUpgrade);
    }
  }

  lemma SoloUpgrade(keyed: bool, c: Cst, t: Thread, me: nat)
    requires t.pc == InUp(UpRdNeg) && Alone(c, t, me)
    ensures EndsIn(Solo(keyed, c, t, me, LIMIT), t, UpgradeOutcome(c, t.hold, me))
  {
    SoloStep(keyed, c, t, me, 20);
    if t.hold.Excl? {
      SoloStep(keyed, c, t.(pc := InUp(UpAssert)), me, 19);
      SoloReturn(keyed, c, t.(pc := Ret, rv := EXCLUSIVE), me, 18);
    } else {
      SoloStep(keyed, c, t.(pc := InUp(UpRdPos)), me, 19);
      SoloStep(keyed, c, t.(pc := InUp(UpSpin)), me, 18);
      SoloUpInc(keyed, c.(spin := Some(me)), t.(pc := InUp(UpInc)), me, 17);
      assert c.(spin := Some(me)).(spin := None) == c;
    }
  }

  /** The end of a completed call, from any point at which only the fields `c`
      and the hold `h` matter. */
  ghost predicate EndsWith(r: (Cst, Thread), t: Thread, c: Cst, h: Hold) {
    r == (c, r.1) && r.1.pc.Idle? && r.1.hold == h && r.1.log == t.log + [CallRec(t.op, t.entry, h, t.rv)]
  }

  lemma SoloDropTd(keyed: bool, c: Cst, t: Thread, me: nat, n: nat)
    requires n > 5 && t.pc == InTail(DropTd)
    ensures EndsWith(Solo(keyed, c, t, me, n), t, Woken(keyed, c.(td := None)).(spin := None), t.hold)
  {
    SoloStep(keyed, c, t, me, n);
    SoloTail(keyed, c.(td := None), t.(pc := InTail(RdBlocked), owns := false), me, n - 1);
  }

  lemma SoloDgUp(keyed: bool, c: Cst, t: Thread, me: nat, n: nat)
    requires n > 7 && t.pc == InDown(DgUp)
    ensures EndsWith(Solo(keyed, c, t, me, n), t,
                     Woken(keyed, c.(upgrade := c.upgrade - 1, count := Left(t.op), td := None)).(spin := None),
                     if Left(t.op) == 1 then Shared(1) else Free)
  {
    SoloStep(keyed, c, t, me, n);
    var c2, t2 := c.(upgrade := c.upgrade - 1), t.(pc := InDown(DgCount), up := 0);
    SoloStep(keyed, c2, t2, me, n - 1);
    var h := if Left(t.op) == 1 then Shared(1) else Free;
    SoloDropTd(keyed, c2.(count := Left(t.op)), t2.(pc := InTail(DropTd), hold := h), me, n - 2);
  }

  /** downgrade and unlock_upgraded with the state the upgrade returned. */
  lemma SoloDowngrade(keyed: bool, c: Cst, t: Thread, me: nat)
    requires t.pc == InDown(DgAssertTd) && Alone(c, t, me)
    ensures EndsIn(Solo(keyed, c, t, me, LIMIT), t, DowngradeOutcome(keyed, c, Left(t.op)))
  {
    SoloStep(keyed, c, t, me, 20);
    SoloStep(keyed, c, t.(pc := InDown(DgAssertCount)), me, 19);
    SoloStep(keyed, c, t.(pc := InDown(DgSpin)), me, 18);
    SoloDgUp(keyed, c.(spin := Some(me)), t.(pc := InDown(DgUp)), me, 17);
  }

  lemma SoloUnDeep(keyed: bool, c: Cst, t: Thread, me: nat, n: nat)
    requires n > 2 && t.pc == InUn(UnRecRd)
    ensures EndsWith(Solo(keyed, c, t, me, n), t, c.(count := c.count + 1), Shallower(t.hold))
  {
    SoloStep(keyed, c, t, me, n);
    SoloStep(keyed, c, t.(pc := InUn(UnRecWr(c.count))), me, n - 1);
    SoloReturn(keyed, c.(count := c.count + 1), t.(pc := Ret, hold := Shallower(t.hold)), me, n - 2);
  }

  lemma SoloUnLast(keyed: bool, c: Cst, t: Thread, me: nat, n: nat)
    requires n > 8 && t.pc == InUn(UnSpinX) && c.spin.None?
    ensures EndsWith(Solo(keyed, c, t, me, n), t, Woken(keyed, c.(count := 0, td := None)), Free)
  {
    var c1 := c.(spin := Some(me));
    SoloStep(keyed, c, t, me, n);
    SoloStep(keyed, c1, t.(pc := InUn(UnAssertCount)), me, n - 1);
    SoloStep(keyed, c1, t.(pc := InUn(UnZero)), me, n - 2);
    SoloDropTd(keyed, c1.(count := 0), t.(pc := InTail(DropTd), hold := Free), me, n - 3);
  }

  lemma SoloUnShared(keyed: bool, c: Cst, t: Thread, me: nat, n: nat)
    requires n > 7 && t.pc == InUn(UnSpinS) && c.spin.None?
    ensures var c1 := c.(count := c.count - 1);
            EndsWith(Solo(keyed, c, t, me, n), t, if c1.count == 0 then Woken(keyed, c1) else c1, DropShared(t.hold))
  {
    var c1 := c.(spin := Some(me));
    SoloStep(keyed, c, t, me, n);
    SoloStep(keyed, c1, t.(pc := InUn(UnDec)), me, n - 1);
    var c2, t2 := c1.(count := c.count - 1), t.(hold := DropShared(t.hold));
    if c2.count == 0 {
      SoloTail(keyed, c2, t2.(pc := InTail(RdBlocked)), me, n - 2);
    } else {
      SoloUnspin(keyed, c2, t2.(pc := InTail(Unspin)), me, n - 2);
    }
  }

  lemma SoloUnExcl(keyed: bool, c: Cst, t: Thread, me: nat, n: nat)
    requires t.pc == InUn(UnAssertTd) && t.hold.Excl? && Alone(c, t, me) && n >= 15
    ensures EndsIn(Solo(keyed, c, t, me, n), t, UnlockOutcome(keyed, c, t.hold, t.rv))
  {
    SoloStep(keyed, c, t, me, n);
    SoloStep(keyed, c, t.(pc := InUn(UnRdDeep)), me, n - 1);
    if t.hold.depth > 1 {
      SoloUnDeep(keyed, c, t.(pc := InUn(UnRecRd)), me, n - 2);
    } else {
      SoloUnLast(keyed, c, t.(pc := InUn(UnSpinX)), me, n - 2);
    }
  }

  lemma SoloUnlock(keyed: bool, c: Cst, t: Thread, me: nat, n: nat)
    requires t.pc == InUn(UnRdNeg) && Alone(c, t, me) && n >= 16
    ensures EndsIn(Solo(keyed, c, t, me, n), t, UnlockOutcome(keyed, c, t.hold, t.rv))
  {
    SoloStep(keyed, c, t, me, n);
    if t.hold.Excl? {
      SoloUnExcl(keyed, c, t.(pc := InUn(UnAssertTd)), me, n - 1);
    } else {
      SoloStep(keyed, c, t.(pc := InUn(UnRdPos)), me, n - 1);
      SoloUnShared(keyed, c, t.(pc := InUn(UnSpinS)), me, n - 2);
    }
  }

  /** temp_release: one release, and the state that was held. */
  lemma SoloTempRelease(keyed: bool, c: Cst, t: Thread, me: nat)
    requires t.pc == InQuery(TrRdNeg) && Alone(c, t, me)
    ensures EndsIn(Solo(keyed, c, t, me, LIMIT), t, UnlockOutcome(keyed, c, t.hold, CodeOf(t.hold)))
  {
    SoloStep(keyed, c, t, me, 20);
    if t.hold.Excl? {
      SoloUnlock(keyed, c, t.(pc := InUn(UnRdNeg), rv := EXCLUSIVE), me, 19);
    } else {
      SoloStep(keyed, c, t.(pc := InQuery(TrRdPos)), me, 19);
      SoloUnlock(keyed, c, t.(pc := InUn(UnRdNeg), rv := SHARED), me, 18);
    }
  }

  /** A woken sleeper: re-take the spin and test again. */
  lemma SoloResume(keyed: bool, c: Cst, t: Thread, me: nat, w: Wait)
    requires t.pc == InWait(w, Asleep) && Alone(c, t, me) && !t.op.TryLock?
    ensures EndsIn(Solo(keyed, c, t, me, LIMIT), t, ResumeOutcome(c, me, w))
  {
    SoloStep(keyed, c, t, me, 20);
    SoloStep(keyed, c, t.(pc := InWait(w, Respin)), me, 19);
    var c1, t1 := c.(spin := Some(me)), t.(pc := InWait(w, Test));
    if Waits(c, w) {
      SoloRefused(keyed, c1, t1, me, 18, w);
    } else {
      SoloGranted(keyed, c1, t1, me, 18, w);
    }
  }

  function ResumeOutcome(c: Cst, me: nat, w: Wait): Outcome {
    if Waits(c, w) then Sleeps(c.(blocked := true, queue := c.queue + {me}), w)
    else Returns(Granted(c, me, w), if w == ForShared then Shared(1) else Excl(1, w == ForUpgrade),
                 if w == ForUpgrade then SHARED else 0)
  }

  // --------------------------------------------- the two forms of the request

  /** The thread at the start of a call. */
  function Entering(t: Thread, op: Op): Thread {
    t.(pc := EntryPc(op), op := op, entry := t.hold, rv := 0)
  }

  /** The non-blocking request returns 0 exactly where the blocking one would not
      sleep, with the same fields and the same hold, and otherwise returns EBUSY and
      changes nothing. */
  ghost predicate Agree(keyed: bool, s: State, i: nat, st: nat)
    requires i < |s.ts|
  {
    var t := s.ts[i];
    var (cl, tl) := Solo(keyed, s.c, Entering(t, Lock(st)), i, LIMIT);
    var (ct, tt) := Solo(keyed, s.c, Entering(t, TryLock(st)), i, LIMIT);
    && tt.pc.Idle? && |tt.log| == |t.log| + 1
    && (tt.log[|t.log|].rv == 0 || tt.log[|t.log|].rv == EBUSY)
    && (tt.log[|t.log|].rv == 0 <==> !Sleeping(tl.pc))
    && (tt.log[|t.log|].rv == 0 ==> ct == cl && tt.hold == tl.hold && tl.pc.Idle?)
    && (tt.log[|t.log|].rv == EBUSY ==> ct == s.c && tt.hold == t.hold && Sleeping(tl.pc) && i in cl.queue)
  }

  /** In every state of the counting invariant the two agree exactly when the state
      asked for is one the lock knows or the caller owns the lock: on any other the
      blocking request reports and returns, and the non-blocking one says EBUSY. */
  lemma TryLockAgrees(keyed: bool, s: State, i: nat, st: nat)
    requires Inv(s) && Enabled(s, Call(i, Lock(st))) && s.c.spin.None?
    ensures Agree(keyed, s, i, st) <==> ValidState(st) || s.ts[i].hold.Excl?
  {
    Views(s, i);
    EnterFacts(s.ts[i], Lock(st));
    EnterFacts(s.ts[i], TryLock(st));
    SoloLock(keyed, s.c, Entering(s.ts[i], Lock(st)), i);
    SoloLock(keyed, s.c, Entering(s.ts[i], TryLock(st)), i);
  }

  // ------------------------------------------------------------ whole states

  /** Let thread `i` run on alone. */
  function RunOn(keyed: bool, s: State, i: nat, n: nat): (r: State)
    requires i < |s.ts|
    ensures |r.ts| == |s.ts|
    decreases n
  {
    if n == 0 || !Ready(s.c, s.ts[i], i) then s else RunOn(keyed, Apply(keyed, s, Run(i)), i, n - 1)
  }

  /** A call, run on alone. */
  function CallOn(keyed: bool, s: State, i: nat, op: Op): State
    requires Enabled(s, Call(i, op))
  {
    RunOn(keyed, Apply(keyed, s, Call(i, op)), i, LIMIT)
  }

  lemma {:induction false} RunOnIsSolo(keyed: bool, s: State, i: nat, n: nat)
    requires i < |s.ts|
    ensures var (c', t') := Solo(keyed, s.c, s.ts[i], i, n); RunOn(keyed, s, i, n) == State(c', s.ts[i := t'])
    decreases n
  {
    if n > 0 && Ready(s.c, s.ts[i], i) {
      var s1 := Apply(keyed, s, Run(i));
      RunOnIsSolo(keyed, s1, i, n - 1);
      var t' := Solo(keyed, s1.c, s1.ts[i], i, n - 1).1;
      assert s1.ts[i := t'] == s.ts[i := t'];
    } else {
      assert s.ts[i := s.ts[i]] == s.ts;
    }
  }

  /** An uninterrupted stretch is made of steps of the system, so it keeps the
      invariant. */
  lemma {:induction false} RunOnKeepsInv(keyed: bool, s: State, i: nat, n: nat, r: State)
    requires Inv(s) && i < |s.ts| && r == RunOn(keyed, s, i, n)
    ensures Inv(r)
    decreases n
  {
    if n > 0 && Ready(s.c, s.ts[i], i) {
      var s' := RunOnNext(keyed, s, i, n);
      RunOnKeepsInv(keyed, s', i, n - 1, r);
    }
  }

  lemma RunOnNext(keyed: bool, s: State, i: nat, n: nat) returns (s': State)
    requires Inv(s) && i < |s.ts| && n > 0 && Ready(s.c, s.ts[i], i)
    ensures Inv(s') && i < |s'.ts| && RunOn(keyed, s, i, n) == RunOn(keyed, s', i, n - 1)
  {
    RunKeepsInv(keyed, s, i);
    s' := Apply(keyed, s, Run(i));
  }
}
