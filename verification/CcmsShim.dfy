/**
The port's ssleep() puts its caller on a wait queue of the caller's own stack
frame, while wakeup() wakes the queue keyed to the lock's address.  This module
shows what that costs: a wakeup is lost in a run of two threads, no later wakeup
helps, and the sleep ends only by itself, at its timeout or a signal.  No lost
wakeup, and progress without such an end, therefore hold of every run exactly when
the sleep is keyed to the channel.
*/
module CcmsShim {
  import opened Base
  import opened CcmsModel
  import opened CcmsInvariant
  import opened CcmsSafety
  import opened CcmsSolo
  import opened CcmsLock
  import opened CcmsWakeup

  ghost predicate Reachable(keyed: bool, s: State) {
    exists tr, es :: FromInit(keyed, tr, es) && tr[|es|] == s
  }

  lemma ReachInit(keyed: bool, n: nat)
    ensures Reachable(keyed, Init(n))
  {
    var tr: seq<State>, es: seq<Event> := [Init(n)], [];
    assert FromInit(keyed, tr, es) && tr[|es|] == Init(n);
  }

  lemma ReachStep(keyed: bool, s: State, e: Event)
    requires Reachable(keyed, s) && Enabled(s, e)
    ensures Reachable(keyed, Apply(keyed, s, e))
  {
    var tr, es :| FromInit(keyed, tr, es) && tr[|es|] == s;
    var tr', es' := tr + [Apply(keyed, s, e)], es + [e];
    forall k | 0 <= k < |es'| ensures Enabled(tr'[k], es'[k]) && tr'[k + 1] == Apply(keyed, tr'[k], es'[k]) {
      if k < |es| {
        assert tr'[k] == tr[k] && es'[k] == es[k] && tr'[k + 1] == tr[k + 1];
      }
    }
    assert FromInit(keyed, tr', es') && tr'[|es'|] == Apply(keyed, s, e);
  }

  lemma {:induction false} ReachRunOn(keyed: bool, s: State, i: nat, n: nat)
    requires Reachable(keyed, s) && i < |s.ts|
    ensures Reachable(keyed, RunOn(keyed, s, i, n))
    decreases n
  {
    if n > 0 && Ready(s.c, s.ts[i], i) {
      ReachStep(keyed, s, Run(i));
      ReachRunOn(keyed, Apply(keyed, s, Run(i)), i, n - 1);
    }
  }

  lemma ReachCallOn(keyed: bool, s: State, i: nat, op: Op)
    requires Reachable(keyed, s) && Enabled(s, Call(i, op))
    ensures Reachable(keyed, CallOn(keyed, s, i, op))
  {
    ReachStep(keyed, s, Call(i, op));
    ReachRunOn(keyed, Apply(keyed, s, Call(i, op)), i, LIMIT);
  }

  /** The whole outcome of an uninterrupted call, on the state. */
  lemma CallEffect(keyed: bool, s: State, me: nat, op: Op)
    requires Callable(s, me, op) && !op.Owned?
    ensures var s', o := CallOn(keyed, s, me, op), OutcomeOf(keyed, s.c, s.ts[me].hold, me, op);
            && Inv(s') && |s'.ts| == |s.ts| && s'.c == o.c
            && (o.Returns? ==> s'.ts[me].pc.Idle? && s'.ts[me].hold == o.hold)
            && (o.Sleeps? ==> s'.ts[me].pc == InWait(o.w, Asleep))
            && (forall k :: 0 <= k < |s.ts| && k != me ==> s'.ts[k] == s.ts[k])
  {
    CallOnInv(keyed, s, me, op);
    CallOnEnds(keyed, s, me, op);
    RunOnIsSolo(keyed, Apply(keyed, s, Call(me, op)), me, LIMIT);
    assert Apply(keyed, s, Call(me, op)).ts[me] == Entering(s.ts[me], op);
  }

  /** Two threads; the first is outside the lock code. */
  ghost predicate Two(s: State, c: Cst, h0: Hold, pc1: Pc, h1: Hold) {
    && Reachable(false, s) && Inv(s) && |s.ts| == 2 && s.c == c
    && s.ts[0].pc.Idle? && s.ts[0].hold == h0 && s.ts[1].pc == pc1 && s.ts[1].hold == h1
  }

  lemma FirstTakes() returns (s: State)
    ensures Two(s, Cst(-1, 0, Some(0), false, None, {}), Excl(1, false), Idle, Free)
  {
    InitInv(2);
    ReachInit(false, 2);
    CallEffect(false, Init(2), 0, Lock(EXCLUSIVE));
    ReachCallOn(false, Init(2), 0, Lock(EXCLUSIVE));
    s := CallOn(false, Init(2), 0, Lock(EXCLUSIVE));
  }

  lemma SecondSleeps(s: State) returns (s': State)
    requires Two(s, Cst(-1, 0, Some(0), false, None, {}), Excl(1, false), Idle, Free)
    ensures Two(s', Cst(-1, 0, Some(0), true, None, {1}), Excl(1, false), InWait(ForExcl, Asleep), Free)
  {
    CallEffect(false, s, 1, Lock(EXCLUSIVE));
    ReachCallOn(false, s, 1, Lock(EXCLUSIVE));
    s' := CallOn(false, s, 1, Lock(EXCLUSIVE));
    SleepersHoldNothing(s'.ts[1]);
    assert {1} == {} + {1};
  }

  lemma FirstReleases(s: State) returns (s': State)
    requires Two(s, Cst(-1, 0, Some(0), true, None, {1}), Excl(1, false), InWait(ForExcl, Asleep), Free)
    ensures Two(s', Cst(0, 0, None, false, None, {1}), Free, InWait(ForExcl, Asleep), Free)
  {
    CallEffect(false, s, 0, Unlock);
    ReachCallOn(false, s, 0, Unlock);
    s' := CallOn(false, s, 0, Unlock);
  }

  /** The run that loses a wakeup: the first thread takes the lock exclusively, the
      second asks for it and sleeps, the first releases it and wakes the channel.
      The second is left asleep on a free lock with nothing pending. */
  lemma LosingRun() returns (s: State)
    ensures Two(s, Cst(0, 0, None, false, None, {1}), Free, InWait(ForExcl, Asleep), Free)
  {
    s := FirstTakes();
    s := SecondSleeps(s);
    s := FirstReleases(s);
  }

  /** No wakeup is lost in any run exactly when the sleep is keyed to the channel. */
  lemma NoLostWakeupIffKeyed(keyed: bool)
    ensures (forall s :: Reachable(keyed, s) ==> NoLostWakeup(s)) <==> keyed
  {
    if keyed {
      forall s | Reachable(true, s) ensures NoLostWakeup(s) {
        var tr, es :| FromInit(true, tr, es) && tr[|es|] == s;
        NoWakeupLost(tr, es, |es|);
      }
    } else {
      var s := LosingRun();
      assert Sleeping(s.ts[1].pc) && 1 in s.c.queue;
      assert !NoLostWakeup(s);
    }
  }

  ghost predicate CanAdvance(s: State) {
    (forall i :: 0 <= i < |s.ts| ==> Finished(s.ts[i])) || exists e :: Enabled(s, e) && Advances(s, e)
  }

  /** Until every thread has finished, some thread can take a step or give back what it
      holds without any sleep ending by itself: in every run, exactly when the sleep is
      keyed to the channel. */
  lemma NoDeadlockIffKeyed(keyed: bool)
    ensures (forall s :: Reachable(keyed, s) ==> CanAdvance(s)) <==> keyed
  {
    if keyed {
      forall s | Reachable(true, s) ensures CanAdvance(s) {
        var tr, es :| FromInit(true, tr, es) && tr[|es|] == s;
        WakeSafety(tr, es, |es|);
        Progress(s);
      }
    } else {
      var s := LosingRun();
      assert !Finished(s.ts[1]);
      forall e | Enabled(s, e) ensures !Advances(s, e) {
        assert e.Run? ==> e.i == 0 || e.i == 1;
      }
      assert !CanAdvance(s);
    }
  }

  /** With a queue of its own a sleeper stays asleep through every event but the end of
      its own sleep. */
  lemma OnlyTimeoutWakes(s: State, e: Event, i: nat)
    requires Inv(s) && Enabled(s, e) && i < |s.ts| && Sleeping(s.ts[i].pc) && i in s.c.queue && e != Timeout(i)
    ensures var s' := Apply(false, s, e); |s'.ts| == |s.ts| && s'.ts[i] == s.ts[i] && i in s'.c.queue
  {
    if e.Run? {
      QueueKept(s.c, s.ts[e.i], e.i);
    }
  }

  lemma QueueKept(c: Cst, t: Thread, me: nat)
    requires Ready(c, t, me)
    ensures c.queue <= Exec(false, c, t, me).0.queue
  {
    match t.pc
    case InLock(l) =>
    case InWait(w, p) =>
    case InUp(u) =>
    case InDown(d) =>
    case InUn(n) =>
    case InTail(r) =>
    case InQuery(q) =>
    case Ret =>
  }

  lemma {:induction false} StuckWithoutTimeout(tr: seq<State>, es: seq<Event>, i: nat, k: nat)
    requires IsRun(false, tr, es) && Inv(tr[0]) && k < |tr|
    requires i < |tr[0].ts| && Sleeping(tr[0].ts[i].pc) && i in tr[0].c.queue
    requires forall j :: 0 <= j < |es| ==> es[j] != Timeout(i)
    ensures Inv(tr[k]) && |tr[k].ts| == |tr[0].ts| && tr[k].ts[i] == tr[0].ts[i] && i in tr[k].c.queue
  {
    if k > 0 {
      StuckWithoutTimeout(tr, es, i, k - 1);
      assert Enabled(tr[k - 1], es[k - 1]) && tr[k - 1 + 1] == Apply(false, tr[k - 1], es[k - 1]);
      NextKeepsInv(false, tr[k - 1], es[k - 1]);
      OnlyTimeoutWakes(tr[k - 1], es[k - 1], i);
    }
  }
}
