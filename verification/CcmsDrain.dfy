/**
Liveness without fairness: once callers only give back what they hold, every run
of the lock code is bounded, and one that cannot go on has granted every request,
given back every hold and left the lock as it was initialised.  In particular any
number of simultaneous upgraders all get the exclusive lock, in turn.

The bound is a rank: every step lowers its own thread's rank, and the one step
that raises other threads' ranks, a wakeup, is paid for in advance by the release
that issues it.  A sleep that ends by itself raises the rank by a constant.  With a
sleep keyed to the channel no sleep has to end by itself; with the port's own, the
runs here are those in which sleeps do.
*/
module CcmsDrain {
  import opened Base
  import opened CcmsModel
  import opened CcmsInvariant
  import opened CcmsSafety
  import opened CcmsWakeup

  // ---------------------------------------------------------------- the rank

  function Size(h: Hold): nat {
    match h
    case Free => 0
    case Shared(k) => k
    case Excl(d, _) => d
  }

  /** The releases a thread still has to make after the call it is in. */
  function Owed(t: Thread): nat {
    match t.pc
    case InLock(l) => if l.AssertNoTd? || l.BusyUnspin? || l.BadUnspin? then Size(t.hold) else Size(t.hold) + 1
    case InWait(_, p) => if p.TakeTd? then Size(t.hold) else Size(t.hold) + 1
    case InDown(_) => Left(t.op)
    case InUn(_) => if Size(t.hold) > 0 then Size(t.hold) - 1 else 0
    case InQuery(q) => if (q.TrRdNeg? || q.TrRdPos?) && Size(t.hold) > 0 then Size(t.hold) - 1 else Size(t.hold)
    case _ => Size(t.hold)
  }

  /** Whether the call may still issue a wakeup. */
  predicate MayWake(t: Thread) {
    || t.pc.InDown? || t.pc.InUn? || (t.pc.InTail? && !t.pc.r.Unspin?)
    || (t.pc.InQuery? && (t.pc.q.TrRdNeg? || t.pc.q.TrRdPos?))
  }

  /** Steps to the end of the call, or to sleep. */
  function Left2Go(t: Thread, queued: bool): nat {
    match t.pc
    case Idle => 0
    case Ret => 1
    case InLock(l) =>
      (match l
       case RdCount => 13
       case RdTd => 12
       case RecRd => 3
       case RecWr(_) => 2
       case Spin => 11
       case Arm => 10
       case IncShared => 4
       case AssertNoTd => 3
       case BusyUnspin => 2
       case BadUnspin => 2)
    case InWait(_, p) =>
      (match p
       case Test => 9
       case SetBlocked => 8
       case Enqueue => 7
       case SleepUnspin => if queued then 6 else 12
       case Asleep => if queued then 5 else 11
       case Respin => 10
       case TakeCount => 4
       case TakeTd => 3)
    case InUp(u) =>
      (match u
       case UpRdNeg => 16
       case UpAssert => 2
       case UpRdPos => 15
       case UpBad => 2
       case UpSpin => 14
       case UpInc => 13
       case UpDec => 12)
    case InDown(d) =>
      (match d
       case DgAssertTd => 12
       case DgAssertCount => 11
       case DgSpin => 10
       case DgUp => 9
       case DgCount => 8)
    case InUn(n) =>
      (match n
       case UnRdNeg => 17
       case UnAssertTd => 16
       case UnRdDeep => 15
       case UnRecRd => 14
       case UnRecWr(_) => 13
       case UnSpinX => 14
       case UnAssertCount => 13
       case UnZero => 12
       case UnRdPos => 16
       case UnBad => 2
       case UnSpinS => 15
       case UnDec => 14)
    case InTail(r) =>
      (match r
       case DropTd => 7
       case RdBlocked => 6
       case ClrBlocked => 5
       case UnspinWake => 4
       case Wakeup => 3
       case Unspin => 2)
    case InQuery(q) =>
      (match q
       case TrRdNeg => 19
       case TrRdPos => 18
       case OwRdCount => 3
       case OwRdTd => 2)
  }

  /** What a wakeup can add to the ranks of `n` sleepers. */
  function WakeCost(n: nat): nat {
    6 * n
  }

  function ReleaseCost(n: nat): nat {
    6 * n + 40
  }

  function Rank(n: nat, t: Thread, queued: bool): nat {
    ReleaseCost(n) * Owed(t) + (if MayWake(t) then WakeCost(n) else 0) + Left2Go(t, queued)
  }

  // -------------------------------------------------- a thread's own progress

  ghost predicate Lowers(t: Thread, q: bool, t': Thread, q': bool) {
    || (Owed(t') == Owed(t) && MayWake(t') == MayWake(t) && Left2Go(t', q') < Left2Go(t, q))
    || (Owed(t') == Owed(t) && MayWake(t) && !MayWake(t') && Left2Go(t', q') < Left2Go(t, q))
    || (Owed(t') < Owed(t) && !MayWake(t') && Left2Go(t', q') < 40)
  }

  lemma {:induction false} OneLess(b: nat, x: nat, y: nat)
    requires y < x
    ensures b * y + b <= b * x
  {
    assert b * (x - 1) + b == b * x;
    if y < x - 1 { OneLess(b, x - 1, y); }
  }

  lemma LowersRank(n: nat, t: Thread, q: bool, t': Thread, q': bool)
    requires Lowers(t, q, t', q')
    ensures Rank(n, t', q') < Rank(n, t, q)
  {
    var b, x, y := ReleaseCost(n), Owed(t), Owed(t');
    if y < x {
      OneLess(b, x, y);
    }
  }

  lemma LockLowers(k: nat, c: Cst, t: Thread, me: nat, l: LockPc)
    requires t.pc == InLock(l) && Ready(c, t, me) && LocalOk(t) && View(c, t, me) && me !in c.queue
    ensures var (c', t') := ExecLock(c, t, me, l); Rank(k, t', false) < Rank(k, t, false)
  {
    var (_, t') := ExecLock(c, t, me, l);
    assert Lowers(t, false, t', false);
    LowersRank(k, t, false, t', false);
  }

  lemma WaitLowers(k: nat, c: Cst, t: Thread, me: nat, w: Wait, p: WaitPc)
    requires t.pc == InWait(w, p) && Ready(c, t, me) && LocalOk(t) && View(c, t, me)
    requires me in c.queue ==> Queueable(t.pc)
    ensures var (c', t') := ExecWait(c, t, me, w, p); Rank(k, t', me in c'.queue) < Rank(k, t, me in c.queue)
  {
    var (c', t') := ExecWait(c, t, me, w, p);
    assert Lowers(t, me in c.queue, t', me in c'.queue);
    LowersRank(k, t, me in c.queue, t', me in c'.queue);
  }

  lemma UpLowers(k: nat, c: Cst, t: Thread, me: nat, u: UpPc)
    requires t.pc == InUp(u) && Ready(c, t, me) && LocalOk(t) && View(c, t, me) && me !in c.queue
    ensures var (c', t') := ExecUp(c, t, me, u); Rank(k, t', false) < Rank(k, t, false)
  {
    var (_, t') := ExecUp(c, t, me, u);
    assert Lowers(t, false, t', false);
    LowersRank(k, t, false, t', false);
  }

  lemma DownLowers(k: nat, c: Cst, t: Thread, me: nat, d: DownPc)
    requires t.pc == InDown(d) && Ready(c, t, me) && LocalOk(t) && View(c, t, me) && me !in c.queue
    ensures var (c', t') := ExecDown(c, t, me, d); Rank(k, t', false) < Rank(k, t, false)
  {
    var (_, t') := ExecDown(c, t, me, d);
    assert Lowers(t, false, t', false);
    LowersRank(k, t, false, t', false);
  }

  lemma UnLowers(k: nat, c: Cst, t: Thread, me: nat, n: UnPc)
    requires t.pc == InUn(n) && Ready(c, t, me) && LocalOk(t) && View(c, t, me) && me !in c.queue
    ensures var (c', t') := ExecUn(c, t, me, n); Rank(k, t', false) < Rank(k, t, false)
  {
    var (_, t') := ExecUn(c, t, me, n);
    assert Lowers(t, false, t', false);
    LowersRank(k, t, false, t', false);
  }

  lemma TailLowers(keyed: bool, k: nat, c: Cst, t: Thread, me: nat, r: TailPc)
    requires t.pc == InTail(r) && Ready(c, t, me) && LocalOk(t) && me !in c.queue
    ensures var (c', t') := ExecTail(keyed, c, t, me, r);
            Rank(k, t', false) < Rank(k, t, false)
  {
    var (_, t') := ExecTail(keyed, c, t, me, r);
    assert Lowers(t, false, t', false);
    LowersRank(k, t, false, t', false);
  }

  lemma QueryLowers(k: nat, c: Cst, t: Thread, me: nat, q: QueryPc)
    requires t.pc == InQuery(q) && Ready(c, t, me) && LocalOk(t) && View(c, t, me) && me !in c.queue
    ensures var (c', t') := ExecQuery(c, t, me, q); Rank(k, t', false) < Rank(k, t, false)
  {
    var (_, t') := ExecQuery(c, t, me, q);
    assert Lowers(t, false, t', false);
    LowersRank(k, t, false, t', false);
  }

  /** A step lowers its own thread's rank. */
  lemma StepLowers(keyed: bool, n: nat, c: Cst, t: Thread, me: nat)
    requires Ready(c, t, me) && LocalOk(t) && View(c, t, me)
    requires me in c.queue ==> Queueable(t.pc)
    ensures var (c', t') := Exec(keyed, c, t, me);
            Rank(n, t', me in c'.queue) < Rank(n, t, me in c.queue)
  {
    if t.pc.InLock? || t.pc.InWait? || t.pc.InUp? {
      AskingLowers(keyed, n, c, t, me);
    } else {
      LeavingLowers(keyed, n, c, t, me);
    }
  }

  lemma AskingLowers(keyed: bool, n: nat, c: Cst, t: Thread, me: nat)
    requires Ready(c, t, me) && LocalOk(t) && View(c, t, me) && (t.pc.InLock? || t.pc.InWait? || t.pc.InUp?)
    requires me in c.queue ==> Queueable(t.pc)
    ensures var (c', t') := Exec(keyed, c, t, me);
            Rank(n, t', me in c'.queue) < Rank(n, t, me in c.queue)
  {
    match t.pc
    case InLock(l) => LockLowers(n, c, t, me, l);
    case InWait(w, p) => WaitLowers(n, c, t, me, w, p);
    case InUp(u) => UpLowers(n, c, t, me, u);
  }

  lemma LeavingLowers(keyed: bool, n: nat, c: Cst, t: Thread, me: nat)
    requires Ready(c, t, me) && LocalOk(t) && View(c, t, me) && !t.pc.InLock? && !t.pc.InWait? && !t.pc.InUp?
    requires me in c.queue ==> Queueable(t.pc)
    ensures var (c', t') := Exec(keyed, c, t, me);
            Rank(n, t', me in c'.queue) < Rank(n, t, me in c.queue)
  {
    match t.pc
    case InDown(d) => DownLowers(n, c, t, me, d);
    case InUn(m) => UnLowers(n, c, t, me, m);
    case InTail(r) => TailLowers(keyed, n, c, t, me, r);
    case InQuery(q) => QueryLowers(n, c, t, me, q);
    case Ret =>
  }

  /** A wakeup lowers its thread's rank by more than it can add to the others. */
  lemma WakeupPays(n: nat, c: Cst, t: Thread, me: nat)
    requires t.pc == InTail(Wakeup)
    ensures Rank(n, Exec(true, c, t, me).1, false) + 6 * n < Rank(n, t, false)
  {}

  lemma ReleaseLowers(t: Thread)
    requires LocalOk(t) && t.pc.Idle? && !t.hold.Free?
    ensures var op := ReleaseCall(t.hold);
            var t' := t.(pc := EntryPc(op), op := op, entry := t.hold, rv := 0);
            Owed(t') + 1 == Owed(t) && MayWake(t') && Left2Go(t', false) < 40
  {}

  // ------------------------------------------------------------ the whole rank

  ghost function Flagged(s: State): (r: seq<(Thread, bool)>)
    ensures |r| == |s.ts|
    ensures forall k :: 0 <= k < |s.ts| ==> r[k] == (s.ts[k], k in s.c.queue)
  {
    seq(|s.ts|, k requires 0 <= k < |s.ts| => (s.ts[k], k in s.c.queue))
  }

  ghost function Weigh(n: nat): ((Thread, bool)) -> int {
    (p: (Thread, bool)) => Rank(n, p.0, p.1)
  }

  ghost function Total(s: State): int {
    Sum(Weigh(|s.ts|), Flagged(s))
  }

  lemma TotalNonNegative(s: State)
    ensures Total(s) >= 0
  {
    SumNonNegative(Weigh(|s.ts|), Flagged(s));
  }

  /** Emptying the queue raises each thread's rank by at most six. */
  lemma {:induction false} WakeupRaises(n: nat, r: seq<(Thread, bool)>, r': seq<(Thread, bool)>)
    requires |r| == |r'| && forall k :: 0 <= k < |r| ==> r'[k] == (r[k].0, false)
    ensures Sum(Weigh(n), r') <= Sum(Weigh(n), r) + 6 * |r|
  {
    if r != [] {
      WakeupRaises(n, r[1..], r'[1..]);
      DequeueRaises(n, r[0].0, r[0].1);
    }
  }

  lemma DequeueRaises(n: nat, t: Thread, q: bool)
    ensures Rank(n, t, false) <= Rank(n, t, q) + 6
  {}

  lemma WakeupLowersTotal(s: State, i: nat)
    requires Inv(s) && Enabled(s, Run(i)) && s.ts[i].pc == InTail(Wakeup)
    ensures Total(Apply(true, s, Run(i))) < Total(s)
  {
    var n, t := |s.ts|, s.ts[i];
    var s' := Apply(true, s, Run(i));
    var t' := s'.ts[i];
    WakeupPays(n, s.c, t, i);
    var woken := seq(n, k requires 0 <= k < n => (s.ts[k], false));
    WakeupRaises(n, Flagged(s), woken);
    assert Flagged(s') == woken[i := (t', false)];
    SumUpdate(Weigh(n), woken, i, (t', false));
  }

  lemma RunLowersTotal(keyed: bool, s: State, i: nat)
    requires Inv(s) && Enabled(s, Run(i)) && (keyed ==> s.ts[i].pc != InTail(Wakeup))
    ensures Total(Apply(keyed, s, Run(i))) < Total(s)
  {
    var n, c, t := |s.ts|, s.c, s.ts[i];
    var s' := Apply(keyed, s, Run(i));
    Views(s, i);
    StepLowers(keyed, n, c, t, i);
    QueueMovesAlone(keyed, c, t, i);
    var p' := (s'.ts[i], i in s'.c.queue);
    assert Flagged(s') == Flagged(s)[i := p'];
    SumUpdate(Weigh(n), Flagged(s), i, p');
  }

  lemma QueueMovesAlone(keyed: bool, c: Cst, t: Thread, me: nat)
    requires Ready(c, t, me) && (keyed ==> t.pc != InTail(Wakeup))
    ensures var (c', _) := Exec(keyed, c, t, me);
            forall k :: k != me ==> (k in c'.queue <==> k in c.queue)
  {
    match t.pc
    case InLock(l) =>
    case InWait(w, p) =>
    case InUp(u) =>
    case InDown(d) =>
    case InUn(n) =>
    case InTail(r) =>
    case InQuery(q) =>
    case Ret =>
  }

  lemma CallLowersTotal(keyed: bool, s: State, i: nat)
    requires Inv(s) && i < |s.ts| && s.ts[i].pc.Idle? && !s.ts[i].hold.Free?
    requires Enabled(s, Call(i, ReleaseCall(s.ts[i].hold)))
    ensures Total(Apply(keyed, s, Call(i, ReleaseCall(s.ts[i].hold)))) < Total(s)
  {
    var n := |s.ts|;
    var t := s.ts[i];
    var s' := Apply(keyed, s, Call(i, ReleaseCall(t.hold)));
    ReleaseLowers(t);
    assert i !in s.c.queue;
    OneLess(ReleaseCost(n), Owed(t), Owed(s'.ts[i]));
    assert Flagged(s') == Flagged(s)[i := (s'.ts[i], false)];
    SumUpdate(Weigh(n), Flagged(s), i, (s'.ts[i], false));
  }

  lemma AdvanceLowersTotal(keyed: bool, s: State, e: Event)
    requires Inv(s) && Enabled(s, e) && Advances(s, e)
    ensures Total(Apply(keyed, s, e)) < Total(s)
  {
    if e.Run? {
      if keyed && s.ts[e.i].pc == InTail(Wakeup) { WakeupLowersTotal(s, e.i); } else { RunLowersTotal(keyed, s, e.i); }
    } else {
      CallLowersTotal(keyed, s, e.i);
    }
  }

  lemma WokenRank(n: nat, t: Thread)
    requires Sleeping(t.pc)
    ensures Rank(n, t.(pc := InWait(t.pc.w, Respin)), false) == Rank(n, t, true) + 5
  {
  }

  /** A sleep that ends by itself costs five. */
  lemma TimeoutRaisesTotal(keyed: bool, s: State, i: nat)
    requires Inv(s) && Enabled(s, Timeout(i))
    ensures Total(Apply(keyed, s, Timeout(i))) == Total(s) + 5
  {
    var s' := Apply(keyed, s, Timeout(i));
    WokenRank(|s.ts|, s.ts[i]);
    var p' := (s'.ts[i], false);
    assert Flagged(s') == Flagged(s)[i := p'];
    SumUpdate(Weigh(|s.ts|), Flagged(s), i, p');
  }

  // --------------------------------------------------------------- theorems

  /** A step, a release, or the end of a sleep. */
  ghost predicate Drains(s: State, e: Event) {
    Advances(s, e) || e.Timeout?
  }

  ghost predicate Fit(keyed: bool, s: State) {
    Inv(s) && (keyed ==> WakeInv(s))
  }

  ghost predicate Draining(keyed: bool, tr: seq<State>, es: seq<Event>) {
    && IsRun(keyed, tr, es)
    && Fit(keyed, tr[0])
    && forall k :: 0 <= k < |es| ==> Drains(tr[k], es[k])
  }

  function Timeouts(es: seq<Event>): (n: nat)
    ensures n <= |es|
  {
    if es == [] then 0 else Timeouts(es[..|es| - 1]) + if es[|es| - 1].Timeout? then 1 else 0
  }

  /** Nothing more can happen: no step and no release, nor, where a sleep needs it,
      the end of a sleep. */
  ghost predicate Over(keyed: bool, s: State) {
    forall e | Enabled(s, e) :: !Advances(s, e) && (keyed || !e.Timeout?)
  }

  ghost predicate AllFinished(s: State) {
    forall i :: 0 <= i < |s.ts| ==> Finished(s.ts[i])
  }

  lemma DrainStep(keyed: bool, s: State, e: Event, s': State)
    requires Fit(keyed, s) && Enabled(s, e) && Drains(s, e) && s' == Apply(keyed, s, e)
    ensures Fit(keyed, s')
    ensures Total(s') + 1 <= Total(s) + if e.Timeout? then 6 else 0
  {
    NextKeepsInv(keyed, s, e);
    if keyed { NextKeepsWakeInv(s, e); }
    if e.Timeout? { TimeoutRaisesTotal(keyed, s, e.i); } else { AdvanceLowersTotal(keyed, s, e); }
  }

  lemma {:induction false} DrainInv(keyed: bool, tr: seq<State>, es: seq<Event>, k: nat)
    requires Draining(keyed, tr, es) && k < |tr|
    ensures Fit(keyed, tr[k])
    ensures Total(tr[k]) + k <= Total(tr[0]) + 6 * Timeouts(es[..k])
  {
    if k > 0 {
      DrainInv(keyed, tr, es, k - 1);
      assert es[..k][..k - 1] == es[..k - 1];
      var e := es[k - 1];
      assert Enabled(tr[k - 1], e) && Drains(tr[k - 1], e) && tr[k - 1 + 1] == Apply(keyed, tr[k - 1], e);
      DrainStep(keyed, tr[k - 1], e, tr[k]);
    }
  }

  /** Every drain is bounded by the rank of the state it starts from and the sleeps
      that end by themselves in it. */
  lemma DrainBounded(keyed: bool, tr: seq<State>, es: seq<Event>)
    requires Draining(keyed, tr, es)
    ensures |es| <= Total(tr[0]) + 6 * Timeouts(es)
  {
    DrainInv(keyed, tr, es, |es|);
    assert es[..|es|] == es;
    TotalNonNegative(tr[|es|]);
  }

  /** The lock of a state in which every thread has finished. */
  lemma FinishedLock(s: State)
    requires Inv(s) && AllFinished(s)
    ensures s.c.count == 0 && s.c.upgrade == 0 && s.c.td.None? && s.c.spin.None? && s.c.queue == {}
  {
    SumAllZero(CountShare, s.ts);
    forall k | 0 <= k < |s.ts| ensures UpShare(s.ts[k]) == 0 && !s.ts[k].owns {
      assert LocalOk(s.ts[k]);
    }
    SumAllZero(UpShare, s.ts);
  }

  /** A thread that has not finished can move, or sleeps. */
  lemma Movable(s: State, i: nat)
    requires Inv(s) && s.c.spin.None? && i < |s.ts| && !Finished(s.ts[i])
    ensures Enabled(s, Timeout(i)) || exists e :: Enabled(s, e) && Advances(s, e)
  {
    if !(Sleeping(s.ts[i].pc) && i in s.c.queue) {
      if s.ts[i].pc.Idle? {
        assert LocalOk(s.ts[i]);
        assert Enabled(s, Call(i, ReleaseCall(s.ts[i].hold)));
      } else {
        assert Enabled(s, Run(i));
      }
    }
  }

  lemma OverFinished(keyed: bool, s: State)
    requires Fit(keyed, s) && Over(keyed, s)
    ensures AllFinished(s)
  {
    if keyed {
      Progress(s);
    } else {
      if s.c.spin.Some? { SpinnerReady(s); }
      forall i | 0 <= i < |s.ts| ensures Finished(s.ts[i]) {
        if !Finished(s.ts[i]) { Movable(s, i); }
      }
    }
  }

  /** A drain that cannot go on has finished every thread and left the lock as it
      was initialised. */
  lemma DrainCompletes(keyed: bool, tr: seq<State>, es: seq<Event>)
    requires Draining(keyed, tr, es) && Over(keyed, tr[|es|])
    ensures AllFinished(tr[|es|])
    ensures var c := tr[|es|].c; c.count == 0 && c.upgrade == 0 && c.td.None? && c.spin.None? && c.queue == {}
  {
    DrainInv(keyed, tr, es, |es|);
    OverFinished(keyed, tr[|es|]);
    FinishedLock(tr[|es|]);
  }

  /** A thread inside a call completes that call and no other before it is outside
      again. */
  lemma {:induction false} CallCompletes(keyed: bool, tr: seq<State>, es: seq<Event>, k: nat, i: nat)
    requires Draining(keyed, tr, es) && k < |tr| && i < |tr[0].ts| && !tr[0].ts[i].pc.Idle?
    ensures |tr[k].ts| == |tr[0].ts| && Completes(tr[0].ts[i], tr[k].ts[i])
  {
    if k > 0 {
      CallCompletes(keyed, tr, es, k - 1, i);
      NextCompletes(keyed, tr, es, k - 1, tr[0].ts[i], i);
    }
  }

  lemma NextCompletes(keyed: bool, tr: seq<State>, es: seq<Event>, k: nat, t: Thread, i: nat)
    requires Draining(keyed, tr, es) && k < |es| && i < |tr[k].ts| && Completes(t, tr[k].ts[i])
    ensures |tr[k + 1].ts| == |tr[k].ts| && Completes(t, tr[k + 1].ts[i])
  {
    assert Enabled(tr[k], es[k]) && Drains(tr[k], es[k]) && tr[k + 1] == Apply(keyed, tr[k], es[k]);
    StepCompletes(keyed, tr[k], es[k], t, i);
  }

  /** The thread t, inside a call, is inside that call still, or its next record is of
      that call. */
  ghost predicate Completes(t: Thread, u: Thread) {
    if |u.log| == |t.log| then !u.pc.Idle? && u.op == t.op && u.entry == t.entry && u.log == t.log
    else |u.log| > |t.log| && u.log[|t.log|].op == t.op && u.log[|t.log|].entry == t.entry
  }

  lemma StepCompletes(keyed: bool, s: State, e: Event, t: Thread, i: nat)
    requires Enabled(s, e) && Drains(s, e) && i < |s.ts| && Completes(t, s.ts[i])
    ensures var s' := Apply(keyed, s, e); |s'.ts| == |s.ts| && Completes(t, s'.ts[i])
  {
    if e == Run(i) && !s.ts[i].pc.Ret? {
      StepKeepsCall(keyed, s.c, s.ts[i], i);
    }
  }

  /** Every call in progress when the drain starts has returned by its end, with
      the effect its contract states: a waiting request has been granted. */
  lemma EveryCallReturns(keyed: bool, tr: seq<State>, es: seq<Event>, i: nat)
    requires Draining(keyed, tr, es) && Over(keyed, tr[|es|])
    requires i < |tr[0].ts| && !tr[0].ts[i].pc.Idle?
    ensures |tr[|es|].ts| == |tr[0].ts|
    ensures var t, u := tr[0].ts[i], tr[|es|].ts[i];
            |u.log| > |t.log| && u.log[|t.log|].op == t.op && u.log[|t.log|].entry == t.entry && OpPost(u.log[|t.log|])
  {
    DrainCompletes(keyed, tr, es);
    CallCompletes(keyed, tr, es, |es|, i);
    DrainInv(keyed, tr, es, |es|);
    var t, u := tr[0].ts[i], tr[|es|].ts[i];
    assert Finished(u);
    assert LogOk(u);
  }

  /** Every thread waiting to upgrade when the drain starts is granted the exclusive
      lock in it, by the very call it is in, however many of them there are. */
  lemma UpgradersAllGetIn(keyed: bool, tr: seq<State>, es: seq<Event>, i: nat)
    requires Draining(keyed, tr, es) && Over(keyed, tr[|es|])
    requires i < |tr[0].ts| && tr[0].ts[i].pc.InWait? && tr[0].ts[i].pc.w == ForUpgrade
    ensures |tr[|es|].ts| == |tr[0].ts| && |tr[|es|].ts[i].log| > |tr[0].ts[i].log|
    ensures tr[|es|].ts[i].log[|tr[0].ts[i].log|] == CallRec(Upgrade, Shared(1), Excl(1, true), SHARED)
  {
    EveryCallReturns(keyed, tr, es, i);
    assert LocalOk(tr[0].ts[i]);
  }

  // ------------------------------------------------------ that a drain exists

  /** With everybody finished or asleep, somebody sleeps on a condition that has
      ended: an upgrader if there is one, and anybody if there is none. */
  lemma SomebodyFree(s: State) returns (i: nat)
    requires Inv(s) && s.c.spin.None? && !AllFinished(s)
    requires forall k :: 0 <= k < |s.ts| ==> Finished(s.ts[k]) || (Sleeping(s.ts[k].pc) && k in s.c.queue)
    ensures Enabled(s, Timeout(i)) && !Waits(s.c, s.ts[i].pc.w) && !s.ts[i].op.TryLock?
  {
    forall k | 0 <= k < |s.ts| ensures CountShare(s.ts[k]) == 0 && LocalOk(s.ts[k]) {
      if !Finished(s.ts[k]) { SleepersHoldNothing(s.ts[k]); }
    }
    SumAllZero(CountShare, s.ts);
    if k :| 0 <= k < |s.ts| && Sleeping(s.ts[k].pc) && s.ts[k].pc.w == ForUpgrade {
      i := k;
    } else {
      forall k | 0 <= k < |s.ts| ensures UpShare(s.ts[k]) == 0 {
        if !Finished(s.ts[k]) { SleepersHoldNothing(s.ts[k]); }
      }
      SumAllZero(UpShare, s.ts);
      i :| 0 <= i < |s.ts| && !Finished(s.ts[i]);
    }
  }

  /** Its sleep ends, it takes the spin and finds the condition over: three events. */
  lemma SleeperMoves(keyed: bool, s: State, i: nat, s1: State, s2: State, s3: State)
    requires s.c.spin.None? && Enabled(s, Timeout(i)) && !Waits(s.c, s.ts[i].pc.w) && !s.ts[i].op.TryLock?
    requires s1 == Apply(keyed, s, Timeout(i))
    ensures Enabled(s1, Run(i))
    ensures s2 == Apply(keyed, s1, Run(i)) ==> Enabled(s2, Run(i))
    ensures s2 == Apply(keyed, s1, Run(i)) && s3 == Apply(keyed, s2, Run(i)) ==>
              && s3.c.queue == s.c.queue - {i}
              && var w := s.ts[i].pc.w;
                 s3.ts == s.ts[i := s.ts[i].(pc := if w == ForShared then InLock(IncShared) else InWait(w, TakeCount))]
  {
  }

  lemma GotInRank(n: nat, t: Thread)
    requires Sleeping(t.pc)
    ensures var pc := if t.pc.w == ForShared then InLock(IncShared) else InWait(t.pc.w, TakeCount);
            Rank(n, t.(pc := pc), false) < Rank(n, t, true)
  {
  }

  lemma GotInTotal(s: State, i: nat, s3: State, t3: Thread)
    requires i < |s.ts| && i in s.c.queue && s3.c.queue == s.c.queue - {i} && s3.ts == s.ts[i := t3]
    requires Rank(|s.ts|, t3, false) < Rank(|s.ts|, s.ts[i], true)
    ensures Total(s3) < Total(s)
  {
    assert Flagged(s3) == Flagged(s)[i := (t3, false)];
    SumUpdate(Weigh(|s.ts|), Flagged(s), i, (t3, false));
  }

  /** And they lower the rank. */
  lemma SleeperGetsIn(keyed: bool, s: State, i: nat) returns (s1: State, s2: State, s3: State)
    requires Fit(keyed, s) && s.c.spin.None? && Enabled(s, Timeout(i))
    requires !Waits(s.c, s.ts[i].pc.w) && !s.ts[i].op.TryLock?
    ensures s1 == Apply(keyed, s, Timeout(i)) && Enabled(s1, Run(i)) && s2 == Apply(keyed, s1, Run(i))
    ensures Enabled(s2, Run(i)) && s3 == Apply(keyed, s2, Run(i))
    ensures Fit(keyed, s1) && Fit(keyed, s2) && Fit(keyed, s3) && Total(s3) < Total(s)
  {
    s1 := Apply(keyed, s, Timeout(i));
    SleeperMoves(keyed, s, i, s1, s1, s1);
    s2 := Apply(keyed, s1, Run(i));
    SleeperMoves(keyed, s, i, s1, s2, s2);
    s3 := Apply(keyed, s2, Run(i));
    SleeperMoves(keyed, s, i, s1, s2, s3);
    DrainStep(keyed, s, Timeout(i), s1);
    DrainStep(keyed, s1, Run(i), s2);
    DrainStep(keyed, s2, Run(i), s3);
    GotInRank(|s.ts|, s.ts[i]);
    GotInTotal(s, i, s3, s3.ts[i]);
  }

  /** From every state of the invariant, with either sleep, the callers can drain the
      lock, each sleep that ends by itself lowering the rank in its turn. */
  lemma {:induction false} DrainExists(keyed: bool, s: State) returns (tr: seq<State>, es: seq<Event>)
    requires Fit(keyed, s)
    ensures Draining(keyed, tr, es) && tr[0] == s && AllFinished(tr[|es|])
    ensures Timeouts(es) <= Total(s)
    decreases Total(s)
  {
    TotalNonNegative(s);
    if AllFinished(s) {
      tr, es := [s], [];
    } else if e :| Enabled(s, e) && Advances(s, e) {
      var s' := Apply(keyed, s, e);
      DrainStep(keyed, s, e, s');
      TotalNonNegative(s');
      tr, es := DrainExists(keyed, s');
      TimeoutsFirst(e, es);
      tr, es := DrainPrepended(keyed, s, e, tr, es);
    } else {
      if s.c.spin.Some? { SpinnerReady(s); }
      forall k | 0 <= k < |s.ts| ensures Finished(s.ts[k]) || (Sleeping(s.ts[k].pc) && k in s.c.queue) {
        if !Finished(s.ts[k]) { Movable(s, k); }
      }
      var i := SomebodyFree(s);
      var s1, s2, s3 := SleeperGetsIn(keyed, s, i);
      TotalNonNegative(s3);
      tr, es := DrainExists(keyed, s3);
      TimeoutsFirst(Run(i), es);
      TimeoutsFirst(Run(i), [Run(i)] + es);
      TimeoutsFirst(Timeout(i), [Run(i)] + ([Run(i)] + es));
      tr, es := DrainPrepended(keyed, s2, Run(i), tr, es);
      tr, es := DrainPrepended(keyed, s1, Run(i), tr, es);
      tr, es := DrainPrepended(keyed, s, Timeout(i), tr, es);
    }
  }

  lemma {:induction false} TimeoutsFirst(e: Event, es: seq<Event>)
    ensures Timeouts([e] + es) == Timeouts(es) + if e.Timeout? then 1 else 0
  {
    if es == [] {
      assert [e] + es == [e] && [e][..0] == [];
    } else {
      var n := |es| - 1;
      assert ([e] + es)[..n + 1] == [e] + es[..n];
      TimeoutsFirst(e, es[..n]);
    }
  }

  lemma DrainPrepended(keyed: bool, s: State, e: Event, tr: seq<State>, es: seq<Event>)
    returns (tr': seq<State>, es': seq<Event>)
    requires Fit(keyed, s) && Enabled(s, e) && Drains(s, e)
    requires Draining(keyed, tr, es) && tr[0] == Apply(keyed, s, e)
    ensures tr' == [s] + tr && es' == [e] + es && Draining(keyed, tr', es')
    ensures tr'[0] == s && tr'[|es'|] == tr[|es|]
  {
    tr', es' := [s] + tr, [e] + es;
    assert tr'[0] == s;
    forall k | 0 <= k < |es'|
      ensures Enabled(tr'[k], es'[k]) && tr'[k + 1] == Apply(keyed, tr'[k], es'[k]) && Drains(tr'[k], es'[k])
    {
      if k == 0 {
        assert es'[0] == e && tr'[1] == tr[0];
      } else {
        Shifted(s, e, tr, es, k - 1);
      }
    }
  }

  lemma Shifted(s: State, e: Event, tr: seq<State>, es: seq<Event>, k: nat)
    requires k < |es| && k + 1 < |tr|
    ensures ([s] + tr)[k + 1] == tr[k] && ([s] + tr)[k + 2] == tr[k + 1] && ([e] + es)[k + 1] == es[k]
  {
  }
}
