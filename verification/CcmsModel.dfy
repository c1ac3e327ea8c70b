/**
The CCMS thread lock as an interleaving transition system.

One lock (`Cst`) is shared by any number of threads.  Each thread carries a
program counter; one step of one thread is one read, one write, one spin
acquire or release, one enqueue, or one wakeup.  The reads and writes the
source makes without the spin are steps of their own, so every interleaving of
them is a run of this system.

Each thread also carries bookkeeping that the lock does not read: what the
thread holds (`hold`), whether it has raised `upgrade` (`up`), whether the
owner field names it (`owns`), the call it is in and the calls it has completed
(`log`).  A bookkeeping field moves in the step that writes the variable it
accounts for.
*/
module CcmsModel {
  import opened Base

  // The states a caller may name, and the refusal of the non-blocking form.
  const INVALID: nat := 0
  const SHARED: nat := 2
  const EXCLUSIVE: nat := 3
  const EBUSY: nat := 16

  /** What one thread holds: nothing, some number of shared holds, or the
      exclusive lock at some depth, possibly obtained by an upgrade. */
  datatype Hold = Free | Shared(k: nat) | Excl(depth: nat, upgraded: bool)

  /** The three wait loops. */
  datatype Wait = ForShared | ForExcl | ForUpgrade

  /** One entry point of the lock, with its argument.  `Take` and `Give` are the
      two sides of an ownership hand-off. */
  datatype Op =
    | Lock(st: nat)
    | TryLock(st: nat)
    | Upgrade
    | Downgrade(ost: nat)
    | Unlock
    | UnlockUpgraded(ost: nat)
    | TempRelease
    | TempRestore(ost: nat)
    | Owned
    | Take
    | Give

  /** A completed call: what the caller held before and after, and the result. */
  datatype CallRec = CallRec(op: Op, entry: Hold, exit: Hold, rv: nat)

  // Program counters, one datatype per stretch of the source.

  /** lock and its non-blocking form: the unspun recursion test and decrement,
      then the two arms under the spin. */
  datatype LockPc =
    | RdCount | RdTd | RecRd | RecWr(tmp: int)
    | Spin | Arm | IncShared | AssertNoTd | BusyUnspin | BadUnspin

  /** A wait loop, and the two writes that take the lock exclusively. */
  datatype WaitPc =
    | Test | SetBlocked | Enqueue | SleepUnspin | Asleep | Respin | TakeCount | TakeTd

  datatype UpPc = UpRdNeg | UpAssert | UpRdPos | UpBad | UpSpin | UpInc | UpDec

  /** downgrade, and the release of an upgraded lock. */
  datatype DownPc = DgAssertTd | DgAssertCount | DgSpin | DgUp | DgCount

  datatype UnPc =
    | UnRdNeg | UnAssertTd | UnRdDeep | UnRecRd | UnRecWr(tmp: int)
    | UnSpinX | UnAssertCount | UnZero | UnRdPos | UnBad | UnSpinS | UnDec

  /** The tail of a spin section: clear the owner, wake if blocked, unspin. */
  datatype TailPc = DropTd | RdBlocked | ClrBlocked | UnspinWake | Wakeup | Unspin

  /** Temporary release and the ownership query. */
  datatype QueryPc = TrRdNeg | TrRdPos | OwRdCount | OwRdTd

  datatype Pc =
    | Idle
    | Ret
    | InLock(l: LockPc)
    | InWait(w: Wait, p: WaitPc)
    | InUp(u: UpPc)
    | InDown(d: DownPc)
    | InUn(n: UnPc)
    | InTail(r: TailPc)
    | InQuery(q: QueryPc)

  datatype Thread = Thread(pc: Pc, hold: Hold, up: int, owns: bool,
                           op: Op, entry: Hold, rv: nat, log: seq<CallRec>)

  /** The lock: the fields of the source's structure, the holder of its spin,
      and the threads queued on the sleep channel. */
  datatype Cst = Cst(count: int, upgrade: int, td: Option<nat>, blocked: bool,
                     spin: Option<nat>, queue: set<nat>)

  datatype State = State(c: Cst, ts: seq<Thread>)

  /** `Timeout` is the end of a sleep by itself: its timeout, or a signal, since the
      source's sleep is interruptible. */
  datatype Event =
    | Call(i: nat, op: Op)
    | Run(i: nat)
    | Timeout(i: nat)
    | HandOff(i: nat, j: nat)

  // ---------------------------------------------------------------- callers

  predicate ValidState(st: nat) {
    st == SHARED || st == EXCLUSIVE
  }

  /** The discipline the lock asks of a caller that holds `h`. */
  predicate MayCall(op: Op, h: Hold) {
    match op
    case Lock(st) => h.Shared? ==> !ValidState(st)
    case TempRestore(st) => h.Shared? ==> !ValidState(st)
    case TryLock(_) => true
    case Upgrade => h == Shared(1) || h.Excl?
    case Downgrade(o) => o == SHARED ==> h == Excl(1, true)
    case Unlock => MayRelease(h)
    case TempRelease => MayRelease(h)
    case UnlockUpgraded(o) => if o == SHARED then h == Excl(1, true) else MayRelease(h)
    case Owned => true
    case Take => false
    case Give => false
  }

  /** An upgraded hold at depth one is given back by downgrade or
      unlock_upgraded with the state the upgrade returned, never by unlock. */
  predicate MayRelease(h: Hold) {
    h.Shared? || (h.Excl? && h != Excl(1, true))
  }

  /** The state a lock request names. */
  function Wanted(op: Op): nat {
    match op
    case Lock(st) => st
    case TryLock(st) => st
    case TempRestore(st) => st
    case _ => INVALID
  }

  function EntryPc(op: Op): Pc {
    match op
    case Lock(_) => InLock(RdCount)
    case TempRestore(_) => InLock(RdCount)
    case TryLock(_) => InLock(RdCount)
    case Upgrade => InUp(UpRdNeg)
    case Downgrade(o) => if o == SHARED then InDown(DgAssertTd) else Ret
    case Unlock => InUn(UnRdNeg)
    case UnlockUpgraded(o) => if o == SHARED then InDown(DgAssertTd) else InUn(UnRdNeg)
    case TempRelease => InQuery(TrRdNeg)
    case Owned => InQuery(OwRdCount)
    case Take => Ret
    case Give => Ret
  }

  // ------------------------------------------------------------------ steps

  /** The condition of a wait loop. */
  predicate Waits(c: Cst, w: Wait) {
    match w
    case ForShared => c.count < 0 || c.upgrade != 0
    case ForExcl => c.count != 0 || c.upgrade != 0
    case ForUpgrade => c.count != 0
  }

  predicate AcquiresSpin(pc: Pc) {
    match pc
    case InLock(l) => l.Spin?
    case InWait(_, p) => p.Respin?
    case InUp(u) => u.UpSpin?
    case InDown(d) => d.DgSpin?
    case InUn(n) => n.UnSpinX? || n.UnSpinS?
    case _ => false
  }

  predicate Sleeping(pc: Pc) {
    pc.InWait? && pc.p.Asleep?
  }

  /** Whether thread `me` can take its next step on its own.  A sleeper can once
      it has left the queue; a timeout is an event of its own. */
  predicate Ready(c: Cst, t: Thread, me: nat) {
    && !t.pc.Idle?
    && (AcquiresSpin(t.pc) ==> c.spin.None?)
    && (Sleeping(t.pc) ==> me !in c.queue)
  }

  function AddShared(h: Hold): Hold {
    match h
    case Free => Shared(1)
    case Shared(k) => Shared(k + 1)
    case Excl(d, u) => Excl(d, u)
  }

  function DropShared(h: Hold): Hold {
    match h
    case Free => Free
    case Shared(k) => if k <= 1 then Free else Shared(k - 1)
    case Excl(d, u) => Excl(d, u)
  }

  function Deeper(h: Hold): Hold {
    if h.Excl? then Excl(h.depth + 1, h.upgraded) else h
  }

  function Shallower(h: Hold): Hold {
    if h.Excl? && h.depth > 0 then Excl(h.depth - 1, h.upgraded) else h
  }

  function ExecLock(c: Cst, t: Thread, me: nat, l: LockPc): (r: (Cst, Thread)) {
    match l
    case RdCount => (c, t.(pc := InLock(if c.count < 0 then RdTd else Spin)))
    case RdTd => (c, t.(pc := InLock(if c.td == Some(me) then RecRd else Spin)))
    case RecRd => (c, t.(pc := InLock(RecWr(c.count))))
    case RecWr(tmp) => (c.(count := tmp - 1), t.(pc := Ret, hold := Deeper(t.hold)))
    case Spin => (c.(spin := Some(me)), t.(pc := InLock(Arm)))
    case Arm =>
      (c, t.(pc := if Wanted(t.op) == SHARED then InWait(ForShared, Test)
                   else if Wanted(t.op) == EXCLUSIVE then InWait(ForExcl, Test)
                   else InLock(BadUnspin)))
    case IncShared =>
      (c.(count := c.count + 1), t.(pc := InLock(AssertNoTd), hold := AddShared(t.hold)))
    case AssertNoTd => (c, t.(pc := InTail(Unspin)))
    case BusyUnspin => (c.(spin := None), t.(pc := Ret, rv := EBUSY))
    case BadUnspin => (c.(spin := None), t.(pc := Ret, rv := if t.op.TryLock? then EBUSY else 0))
  }

  function ExecWait(c: Cst, t: Thread, me: nat, w: Wait, p: WaitPc): (r: (Cst, Thread)) {
    match p
    case Test =>
      (c, t.(pc := if Waits(c, w) then
                     (if t.op.TryLock? then InLock(BusyUnspin) else InWait(w, SetBlocked))
                   else if w == ForShared then InLock(IncShared)
                   else InWait(w, TakeCount)))
    case SetBlocked => (c.(blocked := true), t.(pc := InWait(w, Enqueue)))
    case Enqueue => (c.(queue := c.queue + {me}), t.(pc := InWait(w, SleepUnspin)))
    case SleepUnspin => (c.(spin := None), t.(pc := InWait(w, Asleep)))
    case Asleep => (c, t.(pc := InWait(w, Respin)))
    case Respin => (c.(spin := Some(me)), t.(pc := InWait(w, Test)))
    case TakeCount =>
      (c.(count := -1), t.(pc := InWait(w, TakeTd), hold := Excl(1, w == ForUpgrade)))
    case TakeTd =>
      (c.(td := Some(me)),
       t.(pc := InTail(Unspin), owns := true, rv := if w == ForUpgrade then SHARED else t.rv))
  }

  function ExecUp(c: Cst, t: Thread, me: nat, u: UpPc): (r: (Cst, Thread)) {
    match u
    case UpRdNeg => (c, t.(pc := InUp(if c.count < 0 then UpAssert else UpRdPos)))
    case UpAssert => (c, t.(pc := Ret, rv := EXCLUSIVE))
    case UpRdPos => (c, t.(pc := InUp(if c.count > 0 then UpSpin else UpBad)))
    case UpBad => (c, t.(pc := Ret))
    case UpSpin => (c.(spin := Some(me)), t.(pc := InUp(UpInc)))
    case UpInc => (c.(upgrade := c.upgrade + 1), t.(pc := InUp(UpDec), up := 1))
    case UpDec =>
      (c.(count := c.count - 1), t.(pc := InWait(ForUpgrade, Test), hold := DropShared(t.hold)))
  }

  /** The shared count a downgrade leaves behind: one, or none for a release. */
  function Left(op: Op): nat {
    if op.Downgrade? then 1 else 0
  }

  function ExecDown(c: Cst, t: Thread, me: nat, d: DownPc): (r: (Cst, Thread)) {
    match d
    case DgAssertTd => (c, t.(pc := InDown(DgAssertCount)))
    case DgAssertCount => (c, t.(pc := InDown(DgSpin)))
    case DgSpin => (c.(spin := Some(me)), t.(pc := InDown(DgUp)))
    case DgUp => (c.(upgrade := c.upgrade - 1), t.(pc := InDown(DgCount), up := 0))
    case DgCount =>
      (c.(count := Left(t.op)),
       t.(pc := InTail(DropTd), hold := if Left(t.op) == 1 then Shared(1) else Free))
  }

  function ExecUn(c: Cst, t: Thread, me: nat, n: UnPc): (r: (Cst, Thread)) {
    match n
    case UnRdNeg => (c, t.(pc := InUn(if c.count < 0 then UnAssertTd else UnRdPos)))
    case UnAssertTd => (c, t.(pc := InUn(UnRdDeep)))
    case UnRdDeep => (c, t.(pc := InUn(if c.count < -1 then UnRecRd else UnSpinX)))
    case UnRecRd => (c, t.(pc := InUn(UnRecWr(c.count))))
    case UnRecWr(tmp) => (c.(count := tmp + 1), t.(pc := Ret, hold := Shallower(t.hold)))
    case UnSpinX => (c.(spin := Some(me)), t.(pc := InUn(UnAssertCount)))
    case UnAssertCount => (c, t.(pc := InUn(UnZero)))
    case UnZero => (c.(count := 0), t.(pc := InTail(DropTd), hold := Free))
    case UnRdPos => (c, t.(pc := InUn(if c.count > 0 then UnSpinS else UnBad)))
    case UnBad => (c, t.(pc := Ret))
    case UnSpinS => (c.(spin := Some(me)), t.(pc := InUn(UnDec)))
    case UnDec =>
      (c.(count := c.count - 1),
       t.(pc := InTail(if c.count - 1 == 0 then RdBlocked else Unspin), hold := DropShared(t.hold)))
  }

  /**
  The tail of a spin section.

  `keyed` says what the sleep primitive does: when set, a sleeper is queued on
  the lock's own channel and a wakeup of that channel empties the queue; when
  clear, each sleeper waits on a queue of its own, which no wakeup reaches.
  */
  function ExecTail(keyed: bool, c: Cst, t: Thread, me: nat, r: TailPc): (o: (Cst, Thread)) {
    match r
    case DropTd => (c.(td := None), t.(pc := InTail(RdBlocked), owns := false))
    case RdBlocked => (c, t.(pc := InTail(if c.blocked then ClrBlocked else Unspin)))
    case ClrBlocked => (c.(blocked := false), t.(pc := InTail(UnspinWake)))
    case UnspinWake => (c.(spin := None), t.(pc := InTail(Wakeup)))
    case Wakeup => (c.(queue := if keyed then {} else c.queue), t.(pc := Ret))
    case Unspin => (c.(spin := None), t.(pc := Ret))
  }

  function ExecQuery(c: Cst, t: Thread, me: nat, q: QueryPc): (r: (Cst, Thread)) {
    match q
    case TrRdNeg =>
      (c, if c.count < 0 then t.(pc := InUn(UnRdNeg), rv := EXCLUSIVE) else t.(pc := InQuery(TrRdPos)))
    case TrRdPos =>
      (c, if c.count > 0 then t.(pc := InUn(UnRdNeg), rv := SHARED) else t.(pc := Ret, rv := INVALID))
    case OwRdCount => (c, t.(pc := if c.count < 0 then InQuery(OwRdTd) else Ret))
    case OwRdTd => (c, t.(pc := Ret, rv := if c.td == Some(me) then 1 else 0))
  }

  /** One step of a thread inside the lock code. */
  function Exec(keyed: bool, c: Cst, t: Thread, me: nat): (r: (Cst, Thread))
    requires Ready(c, t, me)
  {
    match t.pc
    case Idle => (c, t)
    case Ret => (c, t.(pc := Idle, log := t.log + [CallRec(t.op, t.entry, t.hold, t.rv)]))
    case InLock(l) => ExecLock(c, t, me, l)
    case InWait(w, p) => ExecWait(c, t, me, w, p)
    case InUp(u) => ExecUp(c, t, me, u)
    case InDown(d) => ExecDown(c, t, me, d)
    case InUn(n) => ExecUn(c, t, me, n)
    case InTail(r) => ExecTail(keyed, c, t, me, r)
    case InQuery(q) => ExecQuery(c, t, me, q)
  }

  // --------------------------------------------------------------- the system

  /** `n` threads outside the lock code, holding nothing, on a zeroed lock. */
  function Init(n: nat): State {
    State(Cst(0, 0, None, false, None, {}),
          seq(n, _ => Thread(Idle, Free, 0, false, Unlock, Free, 0, [])))
  }

  /** A hand-off needs a quiescent exclusive owner and a quiescent taker. */
  predicate Enabled(s: State, e: Event) {
    match e
    case Call(i, op) => i < |s.ts| && s.ts[i].pc.Idle? && MayCall(op, s.ts[i].hold)
    case Run(i) => i < |s.ts| && Ready(s.c, s.ts[i], i)
    case Timeout(i) => i < |s.ts| && Sleeping(s.ts[i].pc) && i in s.c.queue
    case HandOff(i, j) =>
      && i < |s.ts| && j < |s.ts| && i != j
      && s.ts[i].pc.Idle? && s.ts[j].pc.Idle?
      && s.ts[i].hold.Excl? && s.ts[j].hold.Free?
  }

  function Apply(keyed: bool, s: State, e: Event): State
    requires Enabled(s, e)
  {
    match e
    case Call(i, op) =>
      var t := s.ts[i];
      s.(ts := s.ts[i := t.(pc := EntryPc(op), op := op, entry := t.hold, rv := 0)])
    case Run(i) =>
      var (c', t') := Exec(keyed, s.c, s.ts[i], i);
      State(c', s.ts[i := t'])
    case Timeout(i) =>
      State(s.c.(queue := s.c.queue - {i}), s.ts[i := s.ts[i].(pc := InWait(s.ts[i].pc.w, Respin))])
    case HandOff(i, j) =>
      var a, b := s.ts[i], s.ts[j];
      var a' := a.(hold := Free, up := 0, owns := false,
                   log := a.log + [CallRec(Give, a.hold, Free, 0)]);
      var b' := b.(hold := a.hold, up := a.up, owns := true,
                   log := b.log + [CallRec(Take, b.hold, a.hold, 0)]);
      State(s.c.(td := Some(j)), s.ts[i := a'][j := b'])
  }

  /** A run: states joined by enabled events. */
  ghost predicate IsRun(keyed: bool, tr: seq<State>, es: seq<Event>) {
    && |tr| == |es| + 1
    && forall k :: 0 <= k < |es| ==> Enabled(tr[k], es[k]) && tr[k + 1] == Apply(keyed, tr[k], es[k])
  }

  /** A run from the zeroed lock. */
  ghost predicate FromInit(keyed: bool, tr: seq<State>, es: seq<Event>) {
    IsRun(keyed, tr, es) && tr[0] == Init(|tr[0].ts|)
  }
}
