/**
Every step of every thread keeps the counting invariant, so every state of every
run has it.
*/
module CcmsSafety {
  import opened Base
  import opened CcmsModel
  import opened CcmsInvariant

  // -------------------------------------------------- one thread's own step

  /** The effect of one thread's step, seen from that thread alone. */
  ghost predicate LocalEffect(c: Cst, t: Thread, c': Cst, t': Thread, me: nat) {
    && c'.count - c.count == CountShare(t') - CountShare(t)
    && c'.upgrade - c.upgrade == UpShare(t') - UpShare(t)
    && (c'.td == Some(me) <==> t'.owns)
    && (c'.td == c.td || c.td.None? || c.td == Some(me))
    && (c'.td == c.td || c'.td.None? || c'.td == Some(me))
    && (c'.spin == Some(me) <==> InSpin(t'.pc))
    && (c'.spin == c.spin || c.spin.None? || c.spin == Some(me))
    && (c'.spin == c.spin || c'.spin.None? || c'.spin == Some(me))
    && c'.queue <= c.queue + {me}
    && (me in c'.queue ==> Queueable(t'.pc))
    && (t'.hold.Excl? ==> t.hold.Excl? || c.count == 0)
    && (t'.hold.Shared? ==> t.hold.Shared? || t.hold.Excl? || c.count >= 0)
    && (InSpin(t'.pc) ==> SpinOk(c', t'))
  }

  lemma LockStep(c: Cst, t: Thread, me: nat, l: LockPc)
    requires t.pc == InLock(l) && Ready(c, t, me) && LocalOk(t) && View(c, t, me)
    requires InSpin(t.pc) ==> SpinOk(c, t)
    requires me !in c.queue
    ensures var (c', t') := ExecLock(c, t, me, l); LocalEffect(c, t, c', t', me)
  {}

  lemma LockFacts(c: Cst, t: Thread, me: nat, l: LockPc)
    requires t.pc == InLock(l) && Ready(c, t, me) && LocalOk(t) && View(c, t, me)
    requires InSpin(t.pc) ==> SpinOk(c, t)
    requires me !in c.queue
    ensures var (_, t') := ExecLock(c, t, me, l); LocalOk(t')
  {}

  lemma WaitStep(c: Cst, t: Thread, me: nat, w: Wait, p: WaitPc)
    requires t.pc == InWait(w, p) && Ready(c, t, me) && LocalOk(t) && View(c, t, me)
    requires InSpin(t.pc) ==> SpinOk(c, t)
    requires me in c.queue ==> Queueable(t.pc)
    ensures var (c', t') := ExecWait(c, t, me, w, p); LocalEffect(c, t, c', t', me)
  {}

  lemma WaitFacts(c: Cst, t: Thread, me: nat, w: Wait, p: WaitPc)
    requires t.pc == InWait(w, p) && Ready(c, t, me) && LocalOk(t) && View(c, t, me)
    requires InSpin(t.pc) ==> SpinOk(c, t)
    requires me in c.queue ==> Queueable(t.pc)
    ensures var (_, t') := ExecWait(c, t, me, w, p); LocalOk(t')
  {}

  lemma UpStep(c: Cst, t: Thread, me: nat, u: UpPc)
    requires t.pc == InUp(u) && Ready(c, t, me) && LocalOk(t) && View(c, t, me) && me !in c.queue
    ensures var (c', t') := ExecUp(c, t, me, u); LocalEffect(c, t, c', t', me)
  {}

  lemma UpFacts(c: Cst, t: Thread, me: nat, u: UpPc)
    requires t.pc == InUp(u) && Ready(c, t, me) && LocalOk(t) && View(c, t, me) && me !in c.queue
    ensures var (_, t') := ExecUp(c, t, me, u); LocalOk(t')
  {}

  lemma DownStep(c: Cst, t: Thread, me: nat, d: DownPc)
    requires t.pc == InDown(d) && Ready(c, t, me) && LocalOk(t) && View(c, t, me) && me !in c.queue
    ensures var (c', t') := ExecDown(c, t, me, d); LocalEffect(c, t, c', t', me)
  {}

  lemma DownFacts(c: Cst, t: Thread, me: nat, d: DownPc)
    requires t.pc == InDown(d) && Ready(c, t, me) && LocalOk(t) && View(c, t, me) && me !in c.queue
    ensures var (_, t') := ExecDown(c, t, me, d); LocalOk(t')
  {}

  lemma UnStep(c: Cst, t: Thread, me: nat, n: UnPc)
    requires t.pc == InUn(n) && Ready(c, t, me) && LocalOk(t) && View(c, t, me) && me !in c.queue
    ensures var (c', t') := ExecUn(c, t, me, n); LocalEffect(c, t, c', t', me)
  {}

  lemma UnFacts(c: Cst, t: Thread, me: nat, n: UnPc)
    requires t.pc == InUn(n) && Ready(c, t, me) && LocalOk(t) && View(c, t, me) && me !in c.queue
    ensures var (_, t') := ExecUn(c, t, me, n); LocalOk(t')
  {}

  lemma TailStep(keyed: bool, c: Cst, t: Thread, me: nat, r: TailPc)
    requires t.pc == InTail(r) && Ready(c, t, me) && LocalOk(t) && View(c, t, me) && me !in c.queue
    ensures var (c', t') := ExecTail(keyed, c, t, me, r); LocalEffect(c, t, c', t', me)
  {}

  lemma TailFacts(keyed: bool, c: Cst, t: Thread, me: nat, r: TailPc)
    requires t.pc == InTail(r) && Ready(c, t, me) && LocalOk(t) && View(c, t, me) && me !in c.queue
    ensures var (_, t') := ExecTail(keyed, c, t, me, r); LocalOk(t')
  {}

  lemma QueryStep(c: Cst, t: Thread, me: nat, q: QueryPc)
    requires t.pc == InQuery(q) && Ready(c, t, me) && LocalOk(t) && View(c, t, me) && me !in c.queue
    ensures var (c', t') := ExecQuery(c, t, me, q); LocalEffect(c, t, c', t', me)
  {}

  lemma QueryFacts(c: Cst, t: Thread, me: nat, q: QueryPc)
    requires t.pc == InQuery(q) && Ready(c, t, me) && LocalOk(t) && View(c, t, me) && me !in c.queue
    ensures var (_, t') := ExecQuery(c, t, me, q); LocalOk(t')
  {}

  /** One step of the lock code keeps the thread's own facts, whatever the other
      threads are doing. */
  lemma StepLocal(keyed: bool, c: Cst, t: Thread, me: nat)
    requires Ready(c, t, me) && LocalOk(t) && View(c, t, me)
    requires InSpin(t.pc) ==> SpinOk(c, t)
    requires me in c.queue ==> Queueable(t.pc)
    ensures var (c', t') := Exec(keyed, c, t, me); LocalEffect(c, t, c', t', me) && LocalOk(t')
  {
    if t.pc.InLock? || t.pc.InWait? || t.pc.InUp? {
      AskingLocal(keyed, c, t, me);
    } else {
      LeavingLocal(keyed, c, t, me);
    }
  }

  lemma AskingLocal(keyed: bool, c: Cst, t: Thread, me: nat)
    requires Ready(c, t, me) && LocalOk(t) && View(c, t, me) && (t.pc.InLock? || t.pc.InWait? || t.pc.InUp?)
    requires InSpin(t.pc) ==> SpinOk(c, t)
    requires me in c.queue ==> Queueable(t.pc)
    ensures var (c', t') := Exec(keyed, c, t, me); LocalEffect(c, t, c', t', me) && LocalOk(t')
  {
    match t.pc
    case InLock(l) => LockStep(c, t, me, l); LockFacts(c, t, me, l);
    case InWait(w, p) => WaitStep(c, t, me, w, p); WaitFacts(c, t, me, w, p);
    case InUp(u) => UpStep(c, t, me, u); UpFacts(c, t, me, u);
  }

  lemma LeavingLocal(keyed: bool, c: Cst, t: Thread, me: nat)
    requires Ready(c, t, me) && LocalOk(t) && View(c, t, me) && !t.pc.InLock? && !t.pc.InWait? && !t.pc.InUp?
    requires InSpin(t.pc) ==> SpinOk(c, t)
    requires me in c.queue ==> Queueable(t.pc)
    ensures var (c', t') := Exec(keyed, c, t, me); LocalEffect(c, t, c', t', me) && LocalOk(t')
  {
    match t.pc
    case InDown(d) => DownStep(c, t, me, d); DownFacts(c, t, me, d);
    case InUn(n) => UnStep(c, t, me, n); UnFacts(c, t, me, n);
    case InTail(r) => TailStep(keyed, c, t, me, r); TailFacts(keyed, c, t, me, r);
    case InQuery(q) => QueryStep(c, t, me, q); QueryFacts(c, t, me, q);
    case Ret =>
  }

  /** Until the return, a step leaves the call and the log as they are. */
  lemma StepKeepsCall(keyed: bool, c: Cst, t: Thread, me: nat)
    requires Ready(c, t, me) && !t.pc.Ret?
    ensures var t' := Exec(keyed, c, t, me).1;
            t'.log == t.log && t'.entry == t.entry && t'.op == t.op && !t'.pc.Idle?
  {
    match t.pc
    case InLock(l) =>
    case InWait(w, p) =>
    case InUp(u) =>
    case InDown(d) =>
    case InUn(n) =>
    case InTail(r) =>
    case InQuery(q) =>
  }

  lemma AppendLog(t: Thread, r: CallRec, t': Thread)
    requires LogOk(t) && OpPost(r) && r.entry == Anchor(t)
    requires t'.log == t.log + [r] && Anchor(t') == r.exit && HoldOk(r.exit)
    ensures LogOk(t')
  {}

  lemma StepLog(keyed: bool, c: Cst, t: Thread, me: nat)
    requires Ready(c, t, me) && LocalOk(t) && LogOk(t)
    ensures LogOk(Exec(keyed, c, t, me).1)
  {
    var t' := Exec(keyed, c, t, me).1;
    if t.pc.Ret? {
      AppendLog(t, CallRec(t.op, t.entry, t.hold, t.rv), t');
    } else {
      StepKeepsCall(keyed, c, t, me);
    }
  }

  // -------------------------------------------- what the other threads see

  /** A change of the shared fields that a spin section does not notice: at most
      an exclusive count moved to another exclusive count, or the queue shrank. */
  ghost predicate Unnoticed(c: Cst, c': Cst) {
    && c'.upgrade == c.upgrade && c'.blocked == c.blocked
    && (c'.count == c.count || (c.count < 0 && c'.count < 0))
  }

  /** While another thread is in a spin section, a step changes nothing that
      section relies on; the unspun writes are made by the exclusive owner only. */
  lemma StepUnnoticed(keyed: bool, c: Cst, t: Thread, me: nat)
    requires Ready(c, t, me) && LocalOk(t) && View(c, t, me)
    requires c.spin.Some? && c.spin != Some(me)
    ensures Unnoticed(c, Exec(keyed, c, t, me).0)
  {
    match t.pc
    case InLock(l) =>
    case InWait(w, p) =>
    case InUp(u) =>
    case InDown(d) =>
    case InUn(n) =>
    case InTail(r) =>
    case InQuery(q) =>
    case Ret =>
  }

  lemma SpinOkStable(c: Cst, c': Cst, t: Thread)
    requires SpinOk(c, t) && Unnoticed(c, c')
    ensures SpinOk(c', t)
  {}

  lemma AllFree(s: State)
    requires Inv(s) && s.c.count == 0
    ensures forall k :: 0 <= k < |s.ts| ==> s.ts[k].hold.Free?
  {
    NoneExclusive(s);
    forall k | 0 <= k < |s.ts| ensures s.ts[k].hold.Free? {
      if s.ts[k].hold.Shared? {
        CountOfShared(s, k);
        assert HoldOk(s.ts[k].hold);
      }
    }
  }

  // ----------------------------------------------------------- preservation

  lemma RunKeepsExclusion(s: State, i: nat, t': Thread)
    requires Inv(s) && i < |s.ts|
    requires t'.hold.Excl? ==> s.ts[i].hold.Excl? || s.c.count == 0
    requires t'.hold.Shared? ==> s.ts[i].hold.Shared? || s.ts[i].hold.Excl? || s.c.count >= 0
    ensures Exclusion(s.ts[i := t'])
  {
    if s.c.count >= 0 { NoneExclusive(s); }
    if s.c.count == 0 { AllFree(s); }
  }

  /** The parts of the invariant that speak of the shared fields follow from the
      stepping thread's own effect. */
  lemma FieldsKept(s: State, i: nat, c': Cst, t': Thread)
    requires TdOk(s) && SpinHeld(s) && QueueOk(s) && i < |s.ts|
    requires LocalEffect(s.c, s.ts[i], c', t', i)
    ensures var s' := State(c', s.ts[i := t']); TdOk(s') && SpinHeld(s') && QueueOk(s')
  {}

  lemma SpinnerKept(s: State, i: nat, c': Cst, t': Thread)
    requires SpinnerOk(s) && i < |s.ts|
    requires InSpin(t'.pc) ==> SpinOk(c', t')
    requires forall k :: 0 <= k < |s.ts| && k != i && InSpin(s.ts[k].pc) ==> Unnoticed(s.c, c')
    ensures SpinnerOk(State(c', s.ts[i := t']))
  {
    var s' := State(c', s.ts[i := t']);
    forall k | 0 <= k < |s'.ts| && InSpin(s'.ts[k].pc) ensures SpinOk(s'.c, s'.ts[k]) {
      if k != i { SpinOkStable(s.c, c', s.ts[k]); }
    }
  }

  /** A step that has the stepping thread's effect, and that no spin section
      notices, keeps the whole invariant. */
  lemma UpdateKeepsInv(s: State, i: nat, c': Cst, t': Thread)
    requires Inv(s) && i < |s.ts|
    requires LocalEffect(s.c, s.ts[i], c', t', i) && LocalOk(t') && LogOk(t')
    requires forall k :: 0 <= k < |s.ts| && k != i && InSpin(s.ts[k].pc) ==> Unnoticed(s.c, c')
    ensures Inv(State(c', s.ts[i := t']))
  {
    SumUpdate(CountShare, s.ts, i, t');
    SumUpdate(UpShare, s.ts, i, t');
    FieldsKept(s, i, c', t');
    SpinnerKept(s, i, c', t');
    RunKeepsExclusion(s, i, t');
    AllUpdate(LocalOk, s.ts, i, t');
    AllUpdate(LogOk, s.ts, i, t');
  }

  lemma RunKeepsInv(keyed: bool, s: State, i: nat)
    requires Inv(s) && Enabled(s, Run(i))
    ensures Inv(Apply(keyed, s, Run(i)))
  {
    var c, t := s.c, s.ts[i];
    Views(s, i);
    StepLocal(keyed, c, t, i);
    StepLog(keyed, c, t, i);
    var (c', t') := Exec(keyed, c, t, i);
    forall k | 0 <= k < |s.ts| && k != i && InSpin(s.ts[k].pc) ensures Unnoticed(c, c') {
      StepUnnoticed(keyed, c, t, i);
    }
    UpdateKeepsInv(s, i, c', t');
  }

  lemma EnterFacts(t: Thread, op: Op)
    requires LocalOk(t) && LogOk(t) && t.pc.Idle? && MayCall(op, t.hold)
    ensures var t' := t.(pc := EntryPc(op), op := op, entry := t.hold, rv := 0);
            LocalOk(t') && LogOk(t') && !InSpin(t'.pc) && !Queueable(t'.pc)
  {}

  lemma CallKeepsInv(keyed: bool, s: State, i: nat, op: Op)
    requires Inv(s) && Enabled(s, Call(i, op))
    ensures Inv(Apply(keyed, s, Call(i, op)))
  {
    var t := s.ts[i];
    EnterFacts(t, op);
    UpdateKeepsInv(s, i, s.c, t.(pc := EntryPc(op), op := op, entry := t.hold, rv := 0));
  }

  lemma TimeoutKeepsInv(keyed: bool, s: State, i: nat)
    requires Inv(s) && Enabled(s, Timeout(i))
    ensures Inv(Apply(keyed, s, Timeout(i)))
  {
    var t := s.ts[i];
    UpdateKeepsInv(s, i, s.c.(queue := s.c.queue - {i}), t.(pc := InWait(t.pc.w, Respin)));
  }

  lemma GiveFacts(a: Thread, b: Thread)
    requires LocalOk(a) && LocalOk(b) && LogOk(a) && LogOk(b)
    requires a.pc.Idle? && b.pc.Idle? && a.hold.Excl? && b.hold.Free?
    ensures var a' := a.(hold := Free, up := 0, owns := false, log := a.log + [CallRec(Give, a.hold, Free, 0)]);
            LocalOk(a') && LogOk(a')
    ensures var b' := b.(hold := a.hold, up := a.up, owns := true, log := b.log + [CallRec(Take, b.hold, a.hold, 0)]);
            LocalOk(b') && LogOk(b')
    ensures a.owns && !b.owns && b.up == 0
  {
    AppendLog(a, CallRec(Give, a.hold, Free, 0),
              a.(hold := Free, up := 0, owns := false, log := a.log + [CallRec(Give, a.hold, Free, 0)]));
    AppendLog(b, CallRec(Take, b.hold, a.hold, 0),
              b.(hold := a.hold, up := a.up, owns := true, log := b.log + [CallRec(Take, b.hold, a.hold, 0)]));
  }

  lemma HandOffKeepsInv(keyed: bool, s: State, i: nat, j: nat)
    requires Inv(s) && Enabled(s, HandOff(i, j))
    ensures Inv(Apply(keyed, s, HandOff(i, j)))
  {
    var s' := Apply(keyed, s, HandOff(i, j));
    var a', b' := s'.ts[i], s'.ts[j];
    GiveFacts(s.ts[i], s.ts[j]);
    var mid := s.ts[i := a'];
    assert s'.ts == mid[j := b'];
    SumUpdate(CountShare, s.ts, i, a');
    SumUpdate(CountShare, mid, j, b');
    SumUpdate(UpShare, s.ts, i, a');
    SumUpdate(UpShare, mid, j, b');
    AllUpdate(LocalOk, s.ts, i, a');
    AllUpdate(LocalOk, mid, j, b');
    AllUpdate(LogOk, s.ts, i, a');
    AllUpdate(LogOk, mid, j, b');
    HandOffFields(keyed, s, i, j);
  }

  lemma HandOffFields(keyed: bool, s: State, i: nat, j: nat)
    requires TdOk(s) && SpinHeld(s) && QueueOk(s) && Exclusion(s.ts) && SpinnerOk(s)
    requires Enabled(s, HandOff(i, j)) && s.ts[i].owns
    ensures var s' := Apply(keyed, s, HandOff(i, j));
            TdOk(s') && SpinHeld(s') && QueueOk(s') && Exclusion(s'.ts) && SpinnerOk(s')
  {
    var s' := Apply(keyed, s, HandOff(i, j));
    forall k | 0 <= k < |s'.ts| && InSpin(s'.ts[k].pc) ensures SpinOk(s'.c, s'.ts[k]) {
      SpinOkStable(s.c, s'.c, s.ts[k]);
    }
  }

  /** Every event keeps the counting invariant. */
  lemma NextKeepsInv(keyed: bool, s: State, e: Event)
    requires Inv(s) && Enabled(s, e)
    ensures Inv(Apply(keyed, s, e))
  {
    match e
    case Call(i, op) => CallKeepsInv(keyed, s, i, op);
    case Run(i) => RunKeepsInv(keyed, s, i);
    case Timeout(i) => TimeoutKeepsInv(keyed, s, i);
    case HandOff(i, j) => HandOffKeepsInv(keyed, s, i, j);
  }

  lemma InitInv(n: nat)
    ensures Inv(Init(n))
  {
    SumAllZero(CountShare, Init(n).ts);
    SumAllZero(UpShare, Init(n).ts);
  }

  /** The counting invariant holds in every state of every run, for any number
      of threads, every interleaving and either sleep primitive. */
  lemma {:induction false} Safety(keyed: bool, tr: seq<State>, es: seq<Event>, k: nat)
    requires FromInit(keyed, tr, es) && k < |tr|
    ensures Inv(tr[k])
  {
    if k == 0 {
      InitInv(|tr[0].ts|);
    } else {
      Safety(keyed, tr, es, k - 1);
      NextKeepsInv(keyed, tr[k - 1], es[k - 1]);
      assert tr[(k - 1) + 1] == Apply(keyed, tr[k - 1], es[k - 1]);
    }
  }
}
