/**
The counting invariant of the thread lock, over every run.

`count` is the sum of what the threads hold (a shared hold counts one, an
exclusive hold counts minus its depth), `upgrade` is the number of threads that
have raised it, `td` names exactly the thread that owns it, the spin is held by
exactly the thread whose program counter is inside a spin section, and an
exclusive hold excludes every other hold.
*/
module CcmsInvariant {
  import opened Base
  import opened CcmsModel

  function CountShare(t: Thread): int {
    match t.hold
    case Free => 0
    case Shared(k) => k
    case Excl(d, _) => 0 - d
  }

  function UpShare(t: Thread): int {
    t.up
  }

  /** Program points inside a spin section. */
  predicate InSpin(pc: Pc) {
    match pc
    case InLock(l) => l.Arm? || l.IncShared? || l.AssertNoTd? || l.BusyUnspin? || l.BadUnspin?
    case InWait(_, p) => !p.Asleep? && !p.Respin?
    case InUp(u) => u.UpInc? || u.UpDec?
    case InDown(d) => d.DgUp? || d.DgCount?
    case InUn(n) => n.UnAssertCount? || n.UnZero? || n.UnDec?
    case InTail(r) => !r.Wakeup?
    case _ => false
  }

  // ------------------------------------------------------ contract of a call

  /** The hold after a granted request for `st`. */
  function Acquired(h: Hold, st: nat): Hold {
    if h.Excl? then Deeper(h)
    else if st == SHARED then AddShared(h)
    else if st == EXCLUSIVE then Excl(1, false)
    else h
  }

  /** Whether a request for `st` by a thread holding `h` can be granted at all. */
  predicate Grantable(h: Hold, st: nat) {
    h.Excl? || st == SHARED || (st == EXCLUSIVE && h.Free?)
  }

  /** The hold after one release. */
  function Released(h: Hold): Hold {
    match h
    case Free => Free
    case Shared(_) => DropShared(h)
    case Excl(d, u) => if d <= 1 then Free else Excl(d - 1, u)
  }

  function CodeOf(h: Hold): nat {
    match h
    case Free => INVALID
    case Shared(_) => SHARED
    case Excl(_, _) => EXCLUSIVE
  }

  /** What a completed call has done to its caller's hold, and what it returned. */
  predicate OpPost(r: CallRec) {
    match r.op
    case Lock(st) => r.rv == 0 && r.exit == Acquired(r.entry, st)
    case TempRestore(st) => r.rv == 0 && r.exit == Acquired(r.entry, st)
    case TryLock(st) =>
      || (r.rv == 0 && Grantable(r.entry, st) && r.exit == Acquired(r.entry, st))
      || (r.rv == EBUSY && r.exit == r.entry && !r.entry.Excl?)
    case Upgrade =>
      if r.entry.Excl? then r.rv == EXCLUSIVE && r.exit == r.entry
      else r.rv == SHARED && r.entry == Shared(1) && r.exit == Excl(1, true)
    case Downgrade(o) =>
      r.rv == 0 && (if o == SHARED then r.entry == Excl(1, true) && r.exit == Shared(1) else r.exit == r.entry)
    case Unlock => r.rv == 0 && r.exit == Released(r.entry)
    case UnlockUpgraded(o) => r.rv == 0 && r.exit == Released(r.entry)
    case TempRelease => MayRelease(r.entry) && r.rv == CodeOf(r.entry) && r.exit == Released(r.entry)
    case Owned => r.rv == (if r.entry.Excl? then 1 else 0) && r.exit == r.entry
    case Take => r.entry.Free? && r.exit.Excl?
    case Give => r.entry.Excl? && r.exit.Free?
  }

  // --------------------------------------------------- what a thread knows

  predicate HoldOk(h: Hold) {
    match h
    case Free => true
    case Shared(k) => k >= 1
    case Excl(d, _) => d >= 1
  }

  /** The bookkeeping of a thread that is between the writes of no update. */
  predicate Settled(t: Thread) {
    t.owns == t.hold.Excl? && t.up == (if t.hold.Excl? && t.hold.upgraded then 1 else 0)
  }

  /** In lock or its non-blocking form, before the request has had any effect. */
  predicate Requesting(t: Thread) {
    && (t.op.Lock? || t.op.TempRestore? || t.op.TryLock?)
    && t.hold == t.entry && t.rv == 0 && MayCall(t.op, t.entry)
  }

  /** In a function that gives back one hold, before it has. */
  predicate Releasing(t: Thread) {
    && (t.op == Unlock || t.op == TempRelease || (t.op.UnlockUpgraded? && t.op.ost != SHARED))
    && t.hold == t.entry && MayRelease(t.hold)
    && t.rv == (if t.op == TempRelease then CodeOf(t.hold) else 0)
  }

  predicate Downgrading(t: Thread) {
    && (t.op == Downgrade(SHARED) || t.op == UnlockUpgraded(SHARED))
    && t.entry == Excl(1, true) && t.hold == t.entry && t.rv == 0
  }

  predicate Upgrading(t: Thread) {
    t.op == Upgrade && t.entry == Shared(1) && t.rv == 0
  }

  /** The call has had its effect and only has to return. */
  predicate Done(t: Thread) {
    OpPost(CallRec(t.op, t.entry, t.hold, t.rv))
  }

  /** In one of the wait loops, holding nothing. */
  predicate Waiting(t: Thread, w: Wait) {
    && t.hold == Free && !t.owns
    && (if w == ForUpgrade then Upgrading(t) && t.up == 1
        else Requesting(t) && t.up == 0 && Wanted(t.op) == WaitCode(w))
  }

  function WaitCode(w: Wait): nat {
    if w == ForShared then SHARED else EXCLUSIVE
  }

  // The facts about a thread's own bookkeeping at each program point.

  predicate AtLock(t: Thread, l: LockPc) {
    && Settled(t)
    && (if l.AssertNoTd? then Done(t) && t.hold.Shared? else Requesting(t))
    && (l.RecRd? || l.RecWr? ==> t.hold.Excl?)
    && (l.RecWr? ==> l.tmp == 0 - t.hold.depth)
    && (!l.RdCount? && !l.RdTd? && !l.RecRd? && !l.RecWr? ==> !t.hold.Excl?)
    && (l.IncShared? ==> Wanted(t.op) == SHARED)
    && (l.BusyUnspin? ==> t.op.TryLock?)
    && (l.BadUnspin? ==> !ValidState(Wanted(t.op)))
  }

  predicate AtWait(t: Thread, w: Wait, p: WaitPc) {
    match p
    case Test =>
      if w == ForUpgrade then Waiting(t, w)
      else Settled(t) && !t.hold.Excl? && Requesting(t) && Wanted(t.op) == WaitCode(w)
    case TakeCount => w != ForShared && Waiting(t, w)
    case TakeTd =>
      && w != ForShared && !t.owns && t.hold == Excl(1, w == ForUpgrade)
      && (if w == ForUpgrade then Upgrading(t) && t.up == 1 else Done(t) && !t.op.Upgrade? && t.up == 0)
    case _ => Waiting(t, w) && !t.op.TryLock?
  }

  predicate AtUp(t: Thread, u: UpPc) {
    match u
    case UpRdNeg => Settled(t) && t.op == Upgrade && t.hold == t.entry && MayCall(Upgrade, t.hold) && t.rv == 0
    case UpAssert => Settled(t) && t.op == Upgrade && t.hold == t.entry && t.hold.Excl?
    case UpBad => false
    case UpDec => Upgrading(t) && t.hold == Shared(1) && t.up == 1 && !t.owns
    case _ => Settled(t) && Upgrading(t) && t.hold == Shared(1)
  }

  predicate AtDown(t: Thread, d: DownPc) {
    Downgrading(t) && t.owns && t.up == (if d.DgCount? then 0 else 1)
  }

  predicate AtUn(t: Thread, n: UnPc) {
    && Settled(t) && Releasing(t) && !n.UnBad?
    && (n.UnAssertTd? || n.UnRdDeep? ==> t.hold.Excl?)
    && (n.UnRecRd? || n.UnRecWr? ==> t.hold.Excl? && t.hold.depth >= 2)
    && (n.UnRecWr? ==> n.tmp == 0 - t.hold.depth)
    && (n.UnSpinX? || n.UnAssertCount? || n.UnZero? ==> t.hold == Excl(1, false))
    && (n.UnRdPos? || n.UnSpinS? || n.UnDec? ==> t.hold.Shared?)
  }

  predicate AtTail(t: Thread, r: TailPc) {
    && Done(t)
    && (if r.DropTd? then t.owns && t.up == 0 && !t.hold.Excl? else Settled(t))
    && (!r.Unspin? ==> !t.hold.Excl?)
  }

  predicate AtQuery(t: Thread, q: QueryPc) {
    && Settled(t) && t.hold == t.entry
    && (if q.TrRdNeg? || q.TrRdPos? then t.op == TempRelease && MayRelease(t.hold) else t.op == Owned && t.rv == 0)
    && (q.TrRdPos? ==> t.hold.Shared?)
  }

  predicate AtPc(t: Thread) {
    match t.pc
    case Idle => Settled(t)
    case Ret => Settled(t) && Done(t)
    case InLock(l) => AtLock(t, l)
    case InWait(w, p) => AtWait(t, w, p)
    case InUp(u) => AtUp(t, u)
    case InDown(d) => AtDown(t, d)
    case InUn(n) => AtUn(t, n)
    case InTail(r) => AtTail(t, r)
    case InQuery(q) => AtQuery(t, q)
  }

  /** Consecutive completed calls of a thread start where the previous one ended. */
  predicate Chained(log: seq<CallRec>) {
    forall k :: 0 <= k < |log| - 1 ==> log[k].exit == log[k + 1].entry
  }

  /** Every completed call met its contract, and the calls chain up to what the
      thread holds now (outside a call) or held when it entered its call. */
  predicate LogOk(t: Thread) {
    && HoldOk(Anchor(t))
    && (forall r :: r in t.log ==> OpPost(r) && HoldOk(r.entry))
    && Chained(t.log)
    && (if t.log == [] then Anchor(t) == Free else t.log[|t.log| - 1].exit == Anchor(t))
  }

  function Anchor(t: Thread): Hold {
    if t.pc.Idle? then t.hold else t.entry
  }

  predicate LocalOk(t: Thread) {
    HoldOk(t.hold) && (t.up == 0 || t.up == 1) && AtPc(t)
  }

  // -------------------------------------------------------- the invariant

  /** What the thread inside the spin section may rely on. */
  predicate SpinOk(c: Cst, t: Thread) {
    match t.pc
    case InLock(l) => l.IncShared? ==> c.count >= 0 && c.upgrade == 0
    case InWait(w, p) =>
      && (p.SetBlocked? || p.Enqueue? || p.SleepUnspin? ==> Waits(c, w))
      && (p.Enqueue? || p.SleepUnspin? ==> c.blocked)
      && (p.TakeCount? ==> !Waits(c, w))
    case InTail(r) => r.ClrBlocked? ==> c.blocked
    case _ => true
  }

  ghost predicate SpinnerOk(s: State) {
    forall i :: 0 <= i < |s.ts| && InSpin(s.ts[i].pc) ==> SpinOk(s.c, s.ts[i])
  }

  ghost predicate Exclusion(ts: seq<Thread>) {
    forall i, j :: 0 <= i < |ts| && 0 <= j < |ts| && i != j && ts[i].hold.Excl? ==> ts[j].hold.Free?
  }

  ghost predicate TdOk(s: State) {
    && (s.c.td.Some? ==> s.c.td.value < |s.ts|)
    && forall i :: 0 <= i < |s.ts| ==> (s.c.td == Some(i) <==> s.ts[i].owns)
  }

  ghost predicate SpinHeld(s: State) {
    && (s.c.spin.Some? ==> s.c.spin.value < |s.ts|)
    && forall i :: 0 <= i < |s.ts| ==> (s.c.spin == Some(i) <==> InSpin(s.ts[i].pc))
  }

  /** The program points at which a thread may be on the sleep queue. */
  predicate Queueable(pc: Pc) {
    pc.InWait? && (pc.p.SleepUnspin? || pc.p.Asleep?)
  }

  ghost predicate QueueOk(s: State) {
    forall i :: i in s.c.queue ==> i < |s.ts| && Queueable(s.ts[i].pc)
  }

  ghost predicate Inv(s: State) {
    && s.c.count == Sum(CountShare, s.ts)
    && s.c.upgrade == Sum(UpShare, s.ts)
    && TdOk(s)
    && SpinHeld(s)
    && QueueOk(s)
    && Exclusion(s.ts)
    && All(LocalOk, s.ts)
    && All(LogOk, s.ts)
    && SpinnerOk(s)
  }

  // ------------------------------------------------- reading the shared fields

  /** What the invariant lets one thread conclude from the shared fields. */
  ghost predicate View(c: Cst, t: Thread, me: nat) {
    && (t.hold.Excl? ==> c.count == 0 - t.hold.depth)
    && (t.hold.Shared? ==> c.count >= t.hold.k)
    && (c.td == Some(me) <==> t.owns)
    && (c.spin == Some(me) <==> InSpin(t.pc))
    && (InSpin(t.pc) && !t.owns && (c.count >= 0 || t.hold.Excl?) ==> c.td.None?)
    && (t.up == 1 ==> c.upgrade >= 1)
  }

  lemma CountOfExclusive(s: State, i: nat)
    requires Inv(s) && i < |s.ts| && s.ts[i].hold.Excl?
    ensures s.c.count == 0 - s.ts[i].hold.depth
  {
    forall k | 0 <= k < |s.ts| && k != i ensures CountShare(s.ts[k]) == 0 {
      assert s.ts[k].hold.Free?;
    }
    SumSingle(CountShare, s.ts, i);
  }

  lemma NoneExclusive(s: State)
    requires Inv(s) && s.c.count >= 0
    ensures forall k :: 0 <= k < |s.ts| ==> !s.ts[k].hold.Excl?
  {
    forall k | 0 <= k < |s.ts| ensures !s.ts[k].hold.Excl? {
      if s.ts[k].hold.Excl? {
        CountOfExclusive(s, k);
        assert false;
      }
    }
  }

  lemma CountOfShared(s: State, i: nat)
    requires Inv(s) && i < |s.ts| && s.ts[i].hold.Shared?
    ensures s.c.count >= s.ts[i].hold.k
  {
    forall k | 0 <= k < |s.ts| ensures CountShare(s.ts[k]) >= 0 {
      assert !s.ts[k].hold.Excl?;
    }
    SumBound(CountShare, s.ts, i);
  }

  lemma UpgradeBound(s: State, i: nat)
    requires Inv(s) && i < |s.ts|
    ensures s.c.upgrade >= s.ts[i].up && s.c.upgrade >= 0
  {
    forall k | 0 <= k < |s.ts| ensures UpShare(s.ts[k]) >= 0 {
      assert LocalOk(s.ts[k]);
    }
    SumBound(UpShare, s.ts, i);
  }

  lemma OwnerHolds(t: Thread)
    requires LocalOk(t) && t.owns
    ensures t.hold.Excl? || InSpin(t.pc)
  {}

  lemma Views(s: State, i: nat)
    requires Inv(s) && i < |s.ts|
    ensures View(s.c, s.ts[i], i)
  {
    var t := s.ts[i];
    if t.hold.Excl? { CountOfExclusive(s, i); }
    if t.hold.Shared? { CountOfShared(s, i); }
    UpgradeBound(s, i);
    if InSpin(t.pc) && !t.owns && (s.c.count >= 0 || t.hold.Excl?) && s.c.td.Some? {
      if s.c.count >= 0 { NoneExclusive(s); }
      var o := s.c.td.value;
      assert s.ts[o].owns;
      OwnerHolds(s.ts[o]);
      assert false;
    }
  }
}
