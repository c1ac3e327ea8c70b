/**
What the counting invariant says of every run: exclusion and the exact meaning
of the fields, the source's assertions, the spin discipline, and the round trips
of a caller under any interference.
*/
module CcmsTheorems {
  import opened Base
  import opened CcmsModel
  import opened CcmsInvariant
  import opened CcmsSafety

  // ------------------------------------------------- the fields' meaning

  function SharedShare(t: Thread): int {
    if t.hold.Shared? then t.hold.k else 0
  }

  /** Threads in the upgrade wait loop, between raising `upgrade` and the grant. */
  function WaitingUpgrade(t: Thread): int {
    if t.up == 1 && !t.hold.Excl? then 1 else 0
  }

  lemma {:induction false} NoExclusiveCount(ts: seq<Thread>)
    requires forall k :: 0 <= k < |ts| ==> !ts[k].hold.Excl?
    ensures Sum(CountShare, ts) == Sum(SharedShare, ts)
  {
    if ts != [] { NoExclusiveCount(ts[1..]); }
  }

  lemma {:induction false} NoUpgradedCount(ts: seq<Thread>)
    requires forall k :: 0 <= k < |ts| ==> (ts[k].hold.Excl? ==> ts[k].up == 0)
    requires forall k :: 0 <= k < |ts| ==> ts[k].up == 0 || ts[k].up == 1
    ensures Sum(UpShare, ts) == Sum(WaitingUpgrade, ts)
  {
    if ts != [] { NoUpgradedCount(ts[1..]); }
  }

  /** With an exclusive owner `o`: `count` is minus its depth, nobody else holds
      anything, and `upgrade` is the waiting upgraders plus one if the owner got
      in by upgrade. */
  lemma OwnerAccount(keyed: bool, tr: seq<State>, es: seq<Event>, k: nat, o: nat)
    requires FromInit(keyed, tr, es) && k < |tr| && o < |tr[k].ts| && tr[k].ts[o].hold.Excl?
    ensures tr[k].c.count == 0 - tr[k].ts[o].hold.depth < 0
    ensures forall j :: 0 <= j < |tr[k].ts| && j != o ==> tr[k].ts[j].hold.Free?
    ensures tr[k].c.spin.None? ==> tr[k].c.td == Some(o)
    ensures tr[k].c.upgrade == Sum(WaitingUpgrade, tr[k].ts) + tr[k].ts[o].up
    ensures tr[k].c.spin.None? ==> (tr[k].ts[o].up == 1 <==> tr[k].ts[o].hold.upgraded)
  {
    Safety(keyed, tr, es, k);
    var s := tr[k];
    CountOfExclusive(s, o);
    var lowered := s.ts[o].(up := 0);
    SumUpdate(UpShare, s.ts, o, lowered);
    SumUpdate(WaitingUpgrade, s.ts, o, lowered);
    NoUpgradedCount(s.ts[o := lowered]);
    if s.c.spin.None? { OutsideSpinSettled(s.ts[o]); }
  }

  /** Without an owner: `count` is the number of shared holds, `upgrade` is the
      number of waiting upgraders and, outside a spin section, `td` is empty. */
  lemma NoOwnerAccount(keyed: bool, tr: seq<State>, es: seq<Event>, k: nat)
    requires FromInit(keyed, tr, es) && k < |tr|
    requires forall i :: 0 <= i < |tr[k].ts| ==> !tr[k].ts[i].hold.Excl?
    ensures tr[k].c.count == Sum(SharedShare, tr[k].ts)
    ensures tr[k].c.upgrade == Sum(WaitingUpgrade, tr[k].ts)
    ensures tr[k].c.spin.None? ==> tr[k].c.td.None?
  {
    Safety(keyed, tr, es, k);
    var s := tr[k];
    NoExclusiveCount(s.ts);
    NoUpgradedCount(s.ts);
    if s.c.spin.None? && s.c.td.Some? {
      OwnerHolds(s.ts[s.c.td.value]);
      assert false;
    }
  }

  lemma OutsideSpinSettled(t: Thread)
    requires LocalOk(t) && !InSpin(t.pc) && t.hold.Excl?
    ensures Settled(t)
  {}

  // ------------------------------------------------- the source's assertions

  /** The assertion the source makes at a program point, over the values it reads. */
  predicate Asserted(c: Cst, t: Thread, me: nat) {
    match t.pc
    case InLock(AssertNoTd) => c.td.None?
    case InUp(UpAssert) => c.td == Some(me)
    case InDown(DgAssertTd) => c.td == Some(me)
    case InDown(DgAssertCount) => c.count == -1
    case InUn(UnAssertTd) => c.td == Some(me)
    case InUn(UnAssertCount) => c.count == -1
    case _ => true
  }

  /** The arms that report a caller holding nothing. */
  predicate Panics(pc: Pc) {
    pc == InUp(UpBad) || pc == InUn(UnBad)
  }

  /** No assertion of the lock fails and no not-locked arm is reached, in any
      state of any run of disciplined callers. */
  lemma AssertionsHold(keyed: bool, tr: seq<State>, es: seq<Event>, k: nat, i: nat)
    requires FromInit(keyed, tr, es) && k < |tr| && i < |tr[k].ts|
    ensures Asserted(tr[k].c, tr[k].ts[i], i)
    ensures !Panics(tr[k].ts[i].pc)
  {
    Safety(keyed, tr, es, k);
    Views(tr[k], i);
  }

  /** An upgrade or an unlock of a lock that nobody else changes meanwhile takes the
      not-locked arm exactly when the lock is free, and then leaves everything alone. */
  lemma PanicsIff(keyed: bool, c: Cst, t: Thread, me: nat, op: Op)
    requires (op.Upgrade? || op.Unlock?) && t.pc == EntryPc(op)
    ensures var (c1, t1) := Exec(keyed, c, t, me);
            Ready(c1, t1, me) &&
            var (c2, t2) := Exec(keyed, c1, t1, me);
            && c2 == c && (Panics(t2.pc) <==> c.count == 0)
            && (c.count == 0 ==> Ready(c2, t2, me) && Exec(keyed, c2, t2, me) == (c, t.(pc := Ret)))
  {
  }

  /** A temporary release of a lock that nobody else changes meanwhile goes on to the
      unlock exactly when the lock is held, with the state it is held in; and a query says
      yes exactly to the thread that the lock names while it is held exclusively. */
  lemma QueryIff(keyed: bool, c: Cst, t: Thread, me: nat)
    requires t.rv == 0 && (t.pc == EntryPc(TempRelease) || t.pc == EntryPc(Owned))
    ensures var (c1, t1) := Exec(keyed, c, t, me);
            c1 == c && Ready(c1, t1, me) &&
            var (c2, t2) := if t1.pc.InQuery? then Exec(keyed, c1, t1, me) else (c1, t1);
            && c2 == c
            && if t.pc == EntryPc(Owned)
               then t2 == t.(pc := Ret, rv := if c.count < 0 && c.td == Some(me) then 1 else 0)
               else if c.count == 0 then t2 == t.(pc := Ret, rv := INVALID)
               else t2 == t.(pc := EntryPc(Unlock), rv := if c.count < 0 then EXCLUSIVE else SHARED)
  {
  }

  /** The owner hand-off finds the lock exclusively held, as it asserts. */
  lemma HandOffAsserts(keyed: bool, tr: seq<State>, es: seq<Event>, k: nat, i: nat, j: nat)
    requires FromInit(keyed, tr, es) && k < |tr| && Enabled(tr[k], HandOff(i, j))
    ensures tr[k].c.count < 0 && tr[k].c.td == Some(i)
    ensures var s' := Apply(keyed, tr[k], HandOff(i, j));
            s'.c.td == Some(j) && s'.ts[j].hold == tr[k].ts[i].hold && s'.ts[i].hold == Free
  {
    Safety(keyed, tr, es, k);
    Views(tr[k], i);
  }

  // ----------------------------------------------------------- the spin

  /** The program points whose step releases the spin. */
  predicate ReleasesSpin(pc: Pc) {
    match pc
    case InLock(l) => l.BusyUnspin? || l.BadUnspin?
    case InWait(_, p) => p.SleepUnspin?
    case InTail(r) => r.UnspinWake? || r.Unspin?
    case _ => false
  }

  /** Each step acquires a free spin, releases the spin its thread holds, or
      leaves it; so every thread alternates the two, no spin is released by a
      thread that does not hold it, and none is held at a return or outside. */
  lemma SpinDiscipline(keyed: bool, tr: seq<State>, es: seq<Event>, k: nat, i: nat)
    requires FromInit(keyed, tr, es) && k < |es| && es[k] == Run(i)
    ensures var pc := tr[k].ts[i].pc;
            && (ReleasesSpin(pc) ==> tr[k].c.spin == Some(i) && tr[k + 1].c.spin.None?)
            && (AcquiresSpin(pc) ==> tr[k].c.spin.None? && tr[k + 1].c.spin == Some(i))
            && (!ReleasesSpin(pc) && !AcquiresSpin(pc) ==> tr[k + 1].c.spin == tr[k].c.spin)
            && (pc.Ret? || pc.Idle? ==> tr[k].c.spin != Some(i))
            && (tr[k + 1].ts[i].pc.Idle? ==> tr[k + 1].c.spin != Some(i))
  {
    Safety(keyed, tr, es, k);
    assert Enabled(tr[k], es[k]) && tr[k + 1] == Apply(keyed, tr[k], es[k]);
    SpinChange(keyed, tr[k].c, tr[k].ts[i], i);
  }

  lemma SpinChange(keyed: bool, c: Cst, t: Thread, me: nat)
    requires Ready(c, t, me)
    ensures var (c', t') := Exec(keyed, c, t, me);
            && (ReleasesSpin(t.pc) ==> c'.spin.None? && !InSpin(t'.pc))
            && (AcquiresSpin(t.pc) ==> c'.spin == Some(me) && InSpin(t'.pc))
            && (!ReleasesSpin(t.pc) && !AcquiresSpin(t.pc) ==> c'.spin == c.spin && InSpin(t.pc) == InSpin(t'.pc))
            && (t'.pc.Idle? ==> t.pc.Ret?)
  {
    match t.pc
    case InLock(l) =>
    case InWait(w, p) =>
    case InUp(u) =>
    case InDown(d) =>
    case InUn(n) =>
    case InTail(r) =>
    case InQuery(q) =>
    case Ret =>
  }

  // ------------------------------------------------------- a caller's calls

  /** Every completed call of every thread met its contract, whatever the other
      threads did in the meantime, and calls chain. */
  lemma CallContracts(keyed: bool, tr: seq<State>, es: seq<Event>, k: nat, i: nat)
    requires FromInit(keyed, tr, es) && k < |tr| && i < |tr[k].ts|
    ensures forall r :: r in tr[k].ts[i].log ==> OpPost(r)
    ensures Chained(tr[k].ts[i].log)
  {
    Safety(keyed, tr, es, k);
  }

  predicate Acquires(r: CallRec) {
    && (r.op.Lock? || r.op.TryLock? || r.op.TempRestore?)
    && r.rv == 0 && Grantable(r.entry, Wanted(r.op))
  }

  predicate Releases(r: CallRec) {
    r.op.Unlock? || r.op.TempRelease? || r.op.UnlockUpgraded?
  }

  /** A call and the call that undoes it. */
  predicate Paired(a: CallRec, b: CallRec) {
    || (Acquires(a) && Releases(b))
    || (a.op.Upgrade? && b.op == Downgrade(a.rv))
    || (a.op.TempRelease? && (a.rv == SHARED || a.rv == EXCLUSIVE) && b.op == TempRestore(a.rv))
  }

  /** A call that holds nothing more or less: a query or a refused request. */
  predicate Neutral(r: CallRec) {
    r.op.Owned? || (r.op.TryLock? && r.rv == EBUSY)
  }

  /** How a stretch of calls nests: nothing, a neutral call and what follows, or
      an opening call, the call at index `close` that undoes it, what lies
      between, and what follows. */
  datatype Nesting = Empty | Skip(rest: Nesting) | Bracket(close: nat, inner: Nesting, rest: Nesting)

  /** The calls `log[a..b]` are well nested in the way `n` says. */
  predicate WellNested(n: Nesting, log: seq<CallRec>, a: nat, b: nat)
    requires a <= b <= |log|
  {
    match n
    case Empty => a == b
    case Skip(rest) => a < b && Neutral(log[a]) && WellNested(rest, log, a + 1, b)
    case Bracket(m, inner, rest) =>
      && a < m < b && Paired(log[a], log[m])
      && WellNested(inner, log, a + 1, m) && WellNested(rest, log, m + 1, b)
  }

  ghost predicate GoodLog(log: seq<CallRec>) {
    Chained(log) && forall k :: 0 <= k < |log| ==> OpPost(log[k]) && HoldOk(log[k].entry)
  }

  /** An opening call followed by its undoing call, with the hold restored in
      between, gives back the hold it started from. */
  lemma PairRestores(a: CallRec, b: CallRec)
    requires OpPost(a) && OpPost(b) && HoldOk(a.entry) && Paired(a, b) && a.exit == b.entry
    ensures b.exit == a.entry
  {}

  /** Releasing with the state the upgrade returned is the one release the hold
      before the upgrade was owed. */
  lemma UpgradeThenRelease(a: CallRec, b: CallRec)
    requires OpPost(a) && OpPost(b) && a.op.Upgrade? && b.op == UnlockUpgraded(a.rv) && a.exit == b.entry
    ensures b.exit == Released(a.entry)
  {}

  /** Any well-nested stretch of a thread's calls restores the thread's hold. */
  lemma {:induction false} NestedRestores(n: Nesting, log: seq<CallRec>, a: nat, b: nat)
    requires GoodLog(log) && a < b <= |log| && WellNested(n, log, a, b)
    ensures log[b - 1].exit == log[a].entry
    decreases n, 1
  {
    var m := if n.Skip? then a else n.close;
    if n.Skip? {
      assert log[a].exit == log[a].entry;
    } else {
      BracketRestores(n, log, a, b);
    }
    if m + 1 < b {
      NestedRestores(n.rest, log, m + 1, b);
      assert log[m].exit == log[m + 1].entry;
    }
  }

  lemma {:induction false} BracketRestores(n: Nesting, log: seq<CallRec>, a: nat, b: nat)
    requires GoodLog(log) && a < b <= |log| && WellNested(n, log, a, b) && n.Bracket?
    ensures log[n.close].exit == log[a].entry
    decreases n, 0
  {
    var m := n.close;
    assert log[a].exit == log[a + 1].entry;
    if a + 1 < m {
      NestedRestores(n.inner, log, a + 1, m);
      assert log[m - 1].exit == log[m - 1 + 1].entry;
    }
    PairRestores(log[a], log[m]);
  }

  /** Round trips under interference: in every state of every run, any
      well-nested stretch of any thread's completed calls has restored what the
      thread held. */
  lemma RoundTrips(keyed: bool, tr: seq<State>, es: seq<Event>, k: nat, i: nat, n: Nesting, a: nat, b: nat)
    requires FromInit(keyed, tr, es) && k < |tr| && i < |tr[k].ts|
    requires a < b <= |tr[k].ts[i].log| && WellNested(n, tr[k].ts[i].log, a, b)
    ensures tr[k].ts[i].log[b - 1].exit == tr[k].ts[i].log[a].entry
  {
    Safety(keyed, tr, es, k);
    LogIsGood(tr[k].ts[i]);
    NestedRestores(n, tr[k].ts[i].log, a, b);
  }

  lemma LogIsGood(t: Thread)
    requires LogOk(t)
    ensures GoodLog(t.log)
  {}
}
