/**
No lost wakeup and no deadlock, without the timeout of the sleep.

The results are about a sleep that queues its caller on the lock's channel.
CcmsShim shows that they need exactly that: with a sleep on a queue of the
caller's own, which is what the port's ssleep() builds, a wakeup can be lost.
*/
module CcmsWakeup {
  import opened Base
  import opened CcmsModel
  import opened CcmsInvariant
  import opened CcmsSafety

  // ---------------------------------------------------------- the invariant

  /** The thread has cleared `blocked` and has yet to wake the channel. */
  predicate Clearing(t: Thread) {
    t.pc == InTail(UnspinWake) || t.pc == InTail(Wakeup)
  }

  /** The thread will wake the channel, or is inside the spin section of an upgrade
      that is about to take the lock itself. */
  predicate Coming(c: Cst, t: Thread) {
    match t.pc
    case InTail(r) =>
      || r.UnspinWake? || r.Wakeup? || r.ClrBlocked?
      || ((r.RdBlocked? || r.DropTd?) && c.blocked)
    case InWait(w, p) => w == ForUpgrade && (p.TakeCount? || (p.Test? && c.count == 0))
    case _ => false
  }

  ghost predicate SomeClearing(s: State) {
    exists j :: 0 <= j < |s.ts| && Clearing(s.ts[j])
  }

  ghost predicate SomeComing(s: State) {
    exists j :: 0 <= j < |s.ts| && Coming(s.c, s.ts[j])
  }

  /** A queued thread still has its wait condition, unless a wakeup is coming. */
  ghost predicate StillWaits(s: State) {
    SomeComing(s) || forall i :: i in s.c.queue ==> i < |s.ts| && s.ts[i].pc.InWait? && Waits(s.c, s.ts[i].pc.w)
  }

  /** A queued thread is announced by `blocked`, unless a wakeup is coming. */
  ghost predicate Announced(s: State) {
    s.c.queue == {} || s.c.blocked || SomeClearing(s)
  }

  ghost predicate WakeInv(s: State) {
    StillWaits(s) && Announced(s)
  }

  // ------------------------------------------------------ one thread's step

  /** A step that ends a wait condition either leaves its thread committed to
      waking the channel or finds `blocked` clear. */
  ghost predicate Commits(c: Cst, c': Cst, t': Thread) {
    (exists w :: Waits(c, w) && !Waits(c', w)) ==>
      Coming(c', t') || (!c.blocked && c'.blocked == c.blocked)
  }

  lemma LockCommits(c: Cst, t: Thread, me: nat, l: LockPc)
    requires t.pc == InLock(l) && Ready(c, t, me) && LocalOk(t) && View(c, t, me)
    requires InSpin(t.pc) ==> SpinOk(c, t)
    ensures var (c', t') := ExecLock(c, t, me, l); Commits(c, c', t')
  {}

  lemma WaitCommits(c: Cst, t: Thread, me: nat, w: Wait, p: WaitPc)
    requires t.pc == InWait(w, p) && Ready(c, t, me) && LocalOk(t) && View(c, t, me)
    requires InSpin(t.pc) ==> SpinOk(c, t)
    ensures var (c', t') := ExecWait(c, t, me, w, p); Commits(c, c', t')
  {}

  lemma UpCommits(c: Cst, t: Thread, me: nat, u: UpPc)
    requires t.pc == InUp(u) && Ready(c, t, me) && LocalOk(t) && View(c, t, me) && c.upgrade >= 0
    ensures var (c', t') := ExecUp(c, t, me, u); Commits(c, c', t')
  {}

  lemma DownCommits(c: Cst, t: Thread, me: nat, d: DownPc)
    requires t.pc == InDown(d) && Ready(c, t, me) && LocalOk(t) && View(c, t, me)
    ensures var (c', t') := ExecDown(c, t, me, d); Commits(c, c', t')
  {}

  lemma UnCommits(c: Cst, t: Thread, me: nat, n: UnPc)
    requires t.pc == InUn(n) && Ready(c, t, me) && LocalOk(t) && View(c, t, me)
    ensures var (c', t') := ExecUn(c, t, me, n); Commits(c, c', t')
  {}

  lemma StepCommits(keyed: bool, c: Cst, t: Thread, me: nat)
    requires Ready(c, t, me) && LocalOk(t) && View(c, t, me) && c.upgrade >= 0
    requires InSpin(t.pc) ==> SpinOk(c, t)
    ensures var (c', t') := Exec(keyed, c, t, me); Commits(c, c', t')
  {
    match t.pc
    case InLock(l) => LockCommits(c, t, me, l);
    case InWait(w, p) => WaitCommits(c, t, me, w, p);
    case InUp(u) => UpCommits(c, t, me, u);
    case InDown(d) => DownCommits(c, t, me, d);
    case InUn(n) => UnCommits(c, t, me, n);
    case InTail(r) =>
    case InQuery(q) =>
    case Ret =>
  }

  /** A thread committed to a wakeup stays so until it has emptied the queue, or
      has taken the lock exclusively, which renews every wait condition. */
  lemma ComingSteps(c: Cst, t: Thread, me: nat)
    requires Ready(c, t, me) && Coming(c, t)
    ensures var (c', t') := Exec(true, c, t, me);
            Coming(c', t') || c'.queue == {} || (c'.count < 0 && c'.queue == c.queue)
  {}

  /** What a step may do to `blocked` and the queue. */
  lemma StepAnnounces(c: Cst, t: Thread, me: nat)
    requires Ready(c, t, me)
    requires InSpin(t.pc) ==> SpinOk(c, t)
    ensures var (c', t') := Exec(true, c, t, me);
            && (c.blocked && !c'.blocked ==> Clearing(t'))
            && (Clearing(t) ==> Clearing(t') || c'.queue == {})
            && (c'.queue == {} || c'.queue == c.queue || (c'.queue == c.queue + {me} && c.blocked && c'.blocked))
  {
    match t.pc
    case InLock(l) =>
    case InWait(w, p) =>
    case InUp(u) =>
    case InDown(d) =>
    case InUn(n) =>
    case InTail(r) =>
    case InQuery(q) =>
    case Ret =>
  }

  lemma EnqueueWaits(c: Cst, t: Thread, me: nat)
    requires Ready(c, t, me) && me !in c.queue
    requires InSpin(t.pc) ==> SpinOk(c, t)
    ensures var (c', t') := Exec(true, c, t, me);
            me in c'.queue ==> t'.pc.InWait? && Waits(c', t'.pc.w)
  {
    match t.pc
    case InLock(l) =>
    case InWait(w, p) =>
    case InUp(u) =>
    case InDown(d) =>
    case InUn(n) =>
    case InTail(r) =>
    case InQuery(q) =>
    case Ret =>
  }

  /** A queued thread that steps is about to release its spin: it changes no
      condition. */
  lemma QueuedStep(c: Cst, t: Thread, me: nat)
    requires Ready(c, t, me) && me in c.queue && Queueable(t.pc)
    ensures var (c', t') := Exec(true, c, t, me);
            c'.count == c.count && c'.upgrade == c.upgrade && c'.queue == c.queue && t'.pc == InWait(t.pc.w, Asleep)
  {}

  // ------------------------------------------------------------ preservation

  /** Another thread's commitment survives the step. */
  lemma OthersComing(s: State, i: nat, j: nat)
    requires Inv(s) && Enabled(s, Run(i)) && j < |s.ts| && j != i && Coming(s.c, s.ts[j])
    ensures SomeComing(Apply(true, s, Run(i)))
  {
    Views(s, i);
    if InSpin(s.ts[j].pc) {
      assert s.c.spin == Some(j);
      StepUnnoticed(true, s.c, s.ts[i], i);
    }
    var s' := Apply(true, s, Run(i));
    assert s'.ts[j] == s.ts[j];
    assert Coming(s'.c, s'.ts[j]);
  }

  lemma RunKeepsAnnounced(s: State, i: nat)
    requires Inv(s) && Announced(s) && Enabled(s, Run(i))
    ensures Announced(Apply(true, s, Run(i)))
  {
    var s' := Apply(true, s, Run(i));
    StepAnnounces(s.c, s.ts[i], i);
    if s'.c.queue != {} && !s'.c.blocked {
      if s.c.blocked {
        assert Clearing(s'.ts[i]);
      } else {
        assert s'.c.queue == s.c.queue;
        var j :| 0 <= j < |s.ts| && Clearing(s.ts[j]);
        assert Clearing(s'.ts[j]);
      }
    }
  }

  lemma RunKeepsStillWaits(s: State, i: nat)
    requires Inv(s) && WakeInv(s) && Enabled(s, Run(i))
    ensures StillWaits(Apply(true, s, Run(i)))
  {
    var s' := Apply(true, s, Run(i));
    var c, t := s.c, s.ts[i];
    Views(s, i);
    UpgradeBound(s, i);
    StepAnnounces(c, t, i);
    if !SomeComing(s') && s'.c.queue != {} {
      if SomeComing(s) {
        var j :| 0 <= j < |s.ts| && Coming(c, s.ts[j]);
        if j == i {
          ComingSteps(c, t, i);
          assert !Coming(s'.c, s'.ts[i]);
          QueueStillInWait(s, i);
        } else {
          OthersComing(s, i, j);
        }
      } else {
        StepCommits(true, c, t, i);
        assert !Coming(s'.c, s'.ts[i]);
        WaitsRenewed(s, i);
      }
    }
  }

  lemma QueueStillInWait(s: State, i: nat)
    requires Inv(s) && Enabled(s, Run(i))
    requires var s' := Apply(true, s, Run(i)); s'.c.count < 0 && s'.c.queue == s.c.queue
    ensures StillWaits(Apply(true, s, Run(i)))
  {
    var s' := Apply(true, s, Run(i));
    forall q | q in s'.c.queue ensures q < |s'.ts| && s'.ts[q].pc.InWait? && Waits(s'.c, s'.ts[q].pc.w) {
      if q == i { QueuedStep(s.c, s.ts[i], i); }
    }
  }

  lemma ClearingIsComing(s: State)
    ensures SomeClearing(s) ==> SomeComing(s)
  {
    if SomeClearing(s) {
      var j :| 0 <= j < |s.ts| && Clearing(s.ts[j]);
      assert Coming(s.c, s.ts[j]);
    }
  }

  lemma WaitsRenewed(s: State, i: nat)
    requires Inv(s) && WakeInv(s) && Enabled(s, Run(i)) && !SomeComing(s)
    requires var s' := Apply(true, s, Run(i));
             !SomeComing(s') && s'.c.queue != {} && Commits(s.c, s'.c, s'.ts[i])
             && (s'.c.queue == s.c.queue || (s'.c.queue == s.c.queue + {i} && s.c.blocked))
    ensures StillWaits(Apply(true, s, Run(i)))
  {
    var s' := Apply(true, s, Run(i));
    var c, t := s.c, s.ts[i];
    assert !Coming(s'.c, s'.ts[i]);
    forall q | q in s'.c.queue ensures q < |s'.ts| && s'.ts[q].pc.InWait? && Waits(s'.c, s'.ts[q].pc.w) {
      if q !in c.queue {
        EnqueueWaits(c, t, i);
      } else if q == i {
        QueuedStep(c, t, i);
      } else {
        ClearingIsComing(s);
        assert c.blocked && Waits(c, s.ts[q].pc.w);
      }
    }
  }

  lemma NextKeepsWakeInv(s: State, e: Event)
    requires Inv(s) && WakeInv(s) && Enabled(s, e)
    ensures WakeInv(Apply(true, s, e))
  {
    if e.Run? {
      RunKeepsAnnounced(s, e.i);
      RunKeepsStillWaits(s, e.i);
    } else {
      EventUndisturbed(s, e);
      UndisturbedKeepsWakeInv(s, Apply(true, s, e));
    }
  }

  /** What a call, a timeout or a hand-off leaves alone. */
  ghost predicate Undisturbed(s: State, s': State) {
    && |s'.ts| == |s.ts|
    && s'.c.count == s.c.count && s'.c.upgrade == s.c.upgrade && s'.c.blocked == s.c.blocked
    && s'.c.queue <= s.c.queue
    && (forall j :: 0 <= j < |s.ts| && !s.ts[j].pc.Idle? && !Sleeping(s.ts[j].pc) ==> s'.ts[j].pc == s.ts[j].pc)
    && (forall j :: j in s'.c.queue && 0 <= j < |s.ts| ==> s'.ts[j].pc == s.ts[j].pc)
  }

  lemma EventUndisturbed(s: State, e: Event)
    requires QueueOk(s) && Enabled(s, e) && !e.Run?
    ensures Undisturbed(s, Apply(true, s, e))
  {}

  lemma UndisturbedKeepsWakeInv(s: State, s': State)
    requires QueueOk(s) && WakeInv(s) && Undisturbed(s, s')
    ensures WakeInv(s')
  {
    if SomeComing(s) {
      var j :| 0 <= j < |s.ts| && Coming(s.c, s.ts[j]);
      assert Coming(s'.c, s'.ts[j]);
    }
    if SomeClearing(s) {
      var j :| 0 <= j < |s.ts| && Clearing(s.ts[j]);
      assert Clearing(s'.ts[j]);
    }
  }

  lemma {:induction false} WakeSafety(tr: seq<State>, es: seq<Event>, k: nat)
    requires FromInit(true, tr, es) && k < |tr|
    ensures Inv(tr[k]) && WakeInv(tr[k])
  {
    Safety(true, tr, es, k);
    if k > 0 {
      WakeSafety(tr, es, k - 1);
      assert Enabled(tr[k - 1], es[k - 1]) && tr[k - 1 + 1] == Apply(true, tr[k - 1], es[k - 1]);
      NextKeepsWakeInv(tr[k - 1], es[k - 1]);
    }
  }

  // --------------------------------------------------------------- theorems

  /** No thread sleeps on a condition that has ended: while the spin is free, each
      queued sleeper's condition holds or a wakeup is about to be issued, and
      `blocked` is set or a wakeup is about to be issued. */
  ghost predicate NoLostWakeup(s: State) {
    s.c.spin.None? ==>
      forall i :: 0 <= i < |s.ts| && Sleeping(s.ts[i].pc) && i in s.c.queue ==>
        || WakeupPending(s)
        || (Waits(s.c, s.ts[i].pc.w) && s.c.blocked)
  }

  ghost predicate WakeupPending(s: State) {
    exists j :: 0 <= j < |s.ts| && s.ts[j].pc == InTail(Wakeup)
  }

  lemma ComingOutsideSpin(s: State)
    requires Inv(s) && s.c.spin.None? && (SomeComing(s) || SomeClearing(s))
    ensures WakeupPending(s)
  {
    ClearingIsComing(s);
    var j :| 0 <= j < |s.ts| && Coming(s.c, s.ts[j]);
    assert !InSpin(s.ts[j].pc);
    assert s.ts[j].pc == InTail(Wakeup);
  }

  /** With a sleep keyed to the lock's channel no wakeup is lost, in any state of
      any run, and no timeout is needed for it. */
  lemma NoWakeupLost(tr: seq<State>, es: seq<Event>, k: nat)
    requires FromInit(true, tr, es) && k < |tr|
    ensures NoLostWakeup(tr[k])
  {
    WakeSafety(tr, es, k);
    var s := tr[k];
    if s.c.spin.None? && (SomeComing(s) || SomeClearing(s)) {
      ComingOutsideSpin(s);
    }
  }

  /** The caller has finished: outside the lock code and holding nothing. */
  predicate Finished(t: Thread) {
    t.pc.Idle? && t.hold.Free?
  }

  /** The call by which a thread that holds something gives one hold back. */
  function ReleaseCall(h: Hold): Op {
    if h == Excl(1, true) then UnlockUpgraded(SHARED) else Unlock
  }

  /** A step inside the lock code, or a release by a thread outside it. */
  ghost predicate Advances(s: State, e: Event) {
    match e
    case Run(i) => true
    case Call(i, op) => i < |s.ts| && s.ts[i].hold != Free && op == ReleaseCall(s.ts[i].hold)
    case _ => false
  }

  lemma SpinnerReady(s: State)
    requires Inv(s) && s.c.spin.Some?
    ensures Enabled(s, Run(s.c.spin.value))
  {
    var j := s.c.spin.value;
    assert InSpin(s.ts[j].pc);
  }

  lemma SleepersHoldNothing(t: Thread)
    requires LocalOk(t) && t.pc.InWait? && (t.pc.p.Asleep? || t.pc.p.Respin?)
    ensures t.hold.Free? && (t.pc.w == ForUpgrade <==> t.up == 1)
  {}

  /** Everybody asleep or finished, and somebody asleep: excluded. */
  lemma NotAllAsleep(s: State)
    requires Inv(s) && WakeInv(s) && s.c.spin.None?
    requires forall i :: 0 <= i < |s.ts| ==> Finished(s.ts[i]) || (Sleeping(s.ts[i].pc) && i in s.c.queue)
    ensures forall i :: 0 <= i < |s.ts| ==> Finished(s.ts[i])
  {
    forall i | 0 <= i < |s.ts| ensures s.ts[i].hold.Free? && (s.ts[i].pc.Idle? ==> s.ts[i].up == 0) {
      if !Finished(s.ts[i]) { SleepersHoldNothing(s.ts[i]); }
    }
    SumAllZero(CountShare, s.ts);
    forall i | 0 <= i < |s.ts| ensures Finished(s.ts[i]) {
      if !Finished(s.ts[i]) {
        if SomeComing(s) { ComingOutsideSpin(s); }
        assert Waits(s.c, s.ts[i].pc.w);
        forall k | 0 <= k < |s.ts| ensures UpShare(s.ts[k]) == 0 {
          if !Finished(s.ts[k]) { SleepersHoldNothing(s.ts[k]); }
        }
        SumAllZero(UpShare, s.ts);
        assert false;
      }
    }
  }

  /** Deadlock freedom: unless every thread has finished, some thread can take a
      step of the lock code or give back what it holds; no timeout is needed. */
  lemma Progress(s: State)
    requires Inv(s) && WakeInv(s)
    ensures (forall i :: 0 <= i < |s.ts| ==> Finished(s.ts[i])) || exists e :: Enabled(s, e) && Advances(s, e)
  {
    if s.c.spin.Some? {
      SpinnerReady(s);
    } else if i :| 0 <= i < |s.ts| && !Finished(s.ts[i]) && !(Sleeping(s.ts[i].pc) && i in s.c.queue) {
      if s.ts[i].pc.Idle? {
        assert LocalOk(s.ts[i]);
        assert Enabled(s, Call(i, ReleaseCall(s.ts[i].hold)));
      } else {
        assert Enabled(s, Run(i));
      }
    } else {
      NotAllAsleep(s);
    }
  }

  lemma NoDeadlock(tr: seq<State>, es: seq<Event>, k: nat)
    requires FromInit(true, tr, es) && k < |tr|
    requires exists i :: 0 <= i < |tr[k].ts| && !Finished(tr[k].ts[i])
    ensures exists e :: Enabled(tr[k], e) && Advances(tr[k], e)
  {
    WakeSafety(tr, es, k);
    Progress(tr[k]);
  }
}
