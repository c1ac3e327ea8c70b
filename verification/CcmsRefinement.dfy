/**
The thread lock refines a reader/writer lock with a recursive writer and an
upgrade: every step of every thread, unspun reads and writes included, is one
step of that lock or none.
*/
module CcmsRefinement {
  import opened Base
  import opened CcmsModel
  import opened CcmsInvariant
  import opened CcmsSafety

  // ------------------------------------------------------ the abstract lock

  /** A thread as the abstract lock sees it: what it holds, and whether it gave up
      a shared hold to wait for the exclusive one. */
  datatype Party = Party(hold: Hold, upgrading: bool)

  datatype Move =
    | AcquireShared(i: nat)
    | AcquireExclusive(i: nat)
    | Recurse(i: nat)
    | Release(i: nat)
    | StartUpgrade(i: nat)
    | GrantUpgrade(i: nat)
    | Demote(i: nat)
    | ReleaseUpgraded(i: nat)
    | Transfer(i: nat, j: nat)

  ghost predicate NoWriter(a: seq<Party>) {
    forall k :: 0 <= k < |a| ==> !a[k].hold.Excl?
  }

  ghost predicate NoHolder(a: seq<Party>) {
    forall k :: 0 <= k < |a| ==> a[k].hold.Free?
  }

  ghost predicate NoUpgrader(a: seq<Party>) {
    forall k :: 0 <= k < |a| ==> !a[k].upgrading
  }

  ghost predicate Allowed(a: seq<Party>, m: Move) {
    match m
    case AcquireShared(i) => i < |a| && NoWriter(a) && NoUpgrader(a)
    case AcquireExclusive(i) => i < |a| && NoHolder(a) && NoUpgrader(a)
    case Recurse(i) => i < |a| && a[i].hold.Excl?
    case Release(i) => i < |a| && MayRelease(a[i].hold)
    case StartUpgrade(i) => i < |a| && a[i].hold == Shared(1)
    case GrantUpgrade(i) => i < |a| && a[i].upgrading && NoHolder(a)
    case Demote(i) => i < |a| && a[i].hold == Excl(1, true)
    case ReleaseUpgraded(i) => i < |a| && a[i].hold == Excl(1, true)
    case Transfer(i, j) => i < |a| && j < |a| && i != j && a[i].hold.Excl? && a[j].hold.Free? && !a[j].upgrading
  }

  ghost function Moved(a: seq<Party>, m: Move): seq<Party>
    requires Allowed(a, m)
  {
    match m
    case AcquireShared(i) => a[i := a[i].(hold := AddShared(a[i].hold))]
    case AcquireExclusive(i) => a[i := a[i].(hold := Excl(1, false))]
    case Recurse(i) => a[i := a[i].(hold := Deeper(a[i].hold))]
    case Release(i) => a[i := a[i].(hold := Released(a[i].hold))]
    case StartUpgrade(i) => a[i := Party(Free, true)]
    case GrantUpgrade(i) => a[i := Party(Excl(1, true), false)]
    case Demote(i) => a[i := a[i].(hold := Shared(1))]
    case ReleaseUpgraded(i) => a[i := a[i].(hold := Free)]
    case Transfer(i, j) => a[i := Party(Free, false)][j := Party(a[i].hold, false)]
  }

  /** What makes it a reader/writer lock: a writer is alone, and an upgrader holds
      nothing while it waits. */
  ghost predicate ReaderWriter(a: seq<Party>) {
    && (forall i, j :: 0 <= i < |a| && 0 <= j < |a| && i != j && a[i].hold.Excl? ==> a[j].hold.Free?)
    && (forall i :: 0 <= i < |a| && a[i].upgrading ==> a[i].hold.Free?)
  }

  lemma MoveKeepsReaderWriter(a: seq<Party>, m: Move)
    requires ReaderWriter(a) && Allowed(a, m)
    ensures ReaderWriter(Moved(a, m))
  {}

  // --------------------------------------------------------- the refinement

  function View1(t: Thread): Party {
    Party(t.hold, t.up == 1 && t.hold.Free?)
  }

  ghost function Parties(s: State): (a: seq<Party>)
    ensures |a| == |s.ts|
    ensures forall k :: 0 <= k < |s.ts| ==> a[k] == View1(s.ts[k])
  {
    seq(|s.ts|, k requires 0 <= k < |s.ts| => View1(s.ts[k]))
  }

  /** The abstract move a step takes, if any: the steps that write `count`. */
  function Linearized(t: Thread, i: nat): Option<Move> {
    match t.pc
    case InLock(RecWr(_)) => Some(Recurse(i))
    case InLock(IncShared) => Some(AcquireShared(i))
    case InWait(w, TakeCount) => Some(if w == ForUpgrade then GrantUpgrade(i) else AcquireExclusive(i))
    case InUp(UpDec) => Some(StartUpgrade(i))
    case InDown(DgCount) => Some(if Left(t.op) == 1 then Demote(i) else ReleaseUpgraded(i))
    case InUn(UnRecWr(_)) => Some(Release(i))
    case InUn(UnZero) => Some(Release(i))
    case InUn(UnDec) => Some(Release(i))
    case _ => None
  }

  function MoveOf(s: State, e: Event): Option<Move>
    requires Enabled(s, e)
  {
    match e
    case Run(i) => Linearized(s.ts[i], i)
    case HandOff(i, j) => Some(Transfer(i, j))
    case Call(_, _) => None
    case Timeout(_) => None
  }

  /** The party of a stepping thread changes exactly as its move says. */
  ghost predicate PartyStep(a: Party, b: Party, m: Option<Move>) {
    match m
    case None => b == a
    case Some(AcquireShared(_)) => b == a.(hold := AddShared(a.hold))
    case Some(AcquireExclusive(_)) => b == a.(hold := Excl(1, false))
    case Some(Recurse(_)) => b == a.(hold := Deeper(a.hold)) && a.hold.Excl?
    case Some(Release(_)) => b == a.(hold := Released(a.hold)) && MayRelease(a.hold)
    case Some(StartUpgrade(_)) => b == Party(Free, true) && a.hold == Shared(1)
    case Some(GrantUpgrade(_)) => b == Party(Excl(1, true), false) && a.upgrading
    case Some(Demote(_)) => b == a.(hold := Shared(1)) && a.hold == Excl(1, true)
    case Some(ReleaseUpgraded(_)) => b == a.(hold := Free) && a.hold == Excl(1, true)
    case Some(Transfer(_, _)) => false
  }

  lemma StepParty(keyed: bool, c: Cst, t: Thread, me: nat)
    requires Ready(c, t, me) && LocalOk(t)
    ensures PartyStep(View1(t), View1(Exec(keyed, c, t, me).1), Linearized(t, me))
  {
    match t.pc
    case InLock(l) =>
    case InWait(w, p) =>
    case InUp(u) =>
    case InDown(d) =>
    case InUn(n) =>
    case InTail(r) =>
    case InQuery(q) =>
    case Ret =>
  }

  /** The move that a wait loop is there for. */
  function Asked(w: Wait, i: nat): Move {
    match w
    case ForShared => AcquireShared(i)
    case ForExcl => AcquireExclusive(i)
    case ForUpgrade => GrantUpgrade(i)
  }

  predicate Granting(pc: Pc, w: Wait) {
    pc == (if w == ForShared then InLock(IncShared) else InWait(w, TakeCount))
  }

  /** A wait loop's test grants exactly when the abstract lock allows the move: readers
      share, a writer waits for every holder, and both wait for an upgrade. */
  lemma TestIff(keyed: bool, s: State, i: nat, w: Wait)
    requires Inv(s) && i < |s.ts| && s.ts[i].pc == InWait(w, Test)
    ensures Granting(Exec(keyed, s.c, s.ts[i], i).1.pc, w) <==> Allowed(Parties(s), Asked(w, i))
  {
    assert LocalOk(s.ts[i]) && s.c.spin == Some(i);
    FreeIff(s);
    UpgraderIff(s, i);
  }

  lemma FreeIff(s: State)
    requires Inv(s)
    ensures s.c.count >= 0 <==> NoWriter(Parties(s))
    ensures s.c.count == 0 <==> NoHolder(Parties(s))
  {
    if s.c.count >= 0 { NoneExclusive(s); }
    if s.c.count == 0 { AllFree(s); }
    if NoWriter(Parties(s)) {
      forall k | 0 <= k < |s.ts| ensures CountShare(s.ts[k]) >= 0 { assert !Parties(s)[k].hold.Excl?; }
      SumNonNegative(CountShare, s.ts);
    }
    if NoHolder(Parties(s)) {
      forall k | 0 <= k < |s.ts| ensures CountShare(s.ts[k]) == 0 { assert Parties(s)[k].hold.Free?; }
      SumAllZero(CountShare, s.ts);
    }
  }

  /** With nobody exclusive, and no other thread between the writes of an upgrade,
      `upgrade` counts the upgraders that wait. */
  lemma UpgraderIff(s: State, i: nat)
    requires Inv(s) && i < |s.ts| && (s.c.spin.None? || s.c.spin == Some(i)) && !s.ts[i].pc.InUp?
    ensures NoWriter(Parties(s)) ==> (s.c.upgrade == 0 <==> NoUpgrader(Parties(s)))
  {
    if s.c.upgrade == 0 { NobodyUpgrading(s); }
    if NoWriter(Parties(s)) && NoUpgrader(Parties(s)) {
      forall k | 0 <= k < |s.ts| ensures UpShare(s.ts[k]) == 0 {
        assert LocalOk(s.ts[k]) && !Parties(s)[k].upgrading && !Parties(s)[k].hold.Excl?;
        assert InSpin(s.ts[k].pc) ==> k == i;
      }
      SumAllZero(UpShare, s.ts);
    }
  }

  lemma NobodyUpgrading(s: State)
    requires Inv(s) && s.c.upgrade == 0
    ensures forall k :: 0 <= k < |s.ts| ==> s.ts[k].up == 0
  {
    forall k | 0 <= k < |s.ts| ensures s.ts[k].up == 0 {
      UpgradeBound(s, k);
    }
  }

  /** The abstract guard of a granting step is what the source tested under the
      spin: no owner and no upgrade for shared, no holder and no upgrade for
      exclusive, no holder for an upgrade. */
  lemma GuardsMatch(s: State, i: nat)
    requires Inv(s) && Enabled(s, Run(i)) && Linearized(s.ts[i], i).Some?
    ensures var m := Linearized(s.ts[i], i).value;
            && (m.AcquireShared? ==> NoWriter(Parties(s)) && NoUpgrader(Parties(s)))
            && (m.AcquireExclusive? ==> NoHolder(Parties(s)) && NoUpgrader(Parties(s)))
            && (m.GrantUpgrade? ==> NoHolder(Parties(s)))
  {
    var m := Linearized(s.ts[i], i).value;
    if m.AcquireShared? || m.AcquireExclusive? || m.GrantUpgrade? {
      assert InSpin(s.ts[i].pc);
      assert SpinOk(s.c, s.ts[i]);
      if m.AcquireShared? { NoneExclusive(s); } else { AllFree(s); }
      if !m.GrantUpgrade? { NobodyUpgrading(s); }
    }
  }

  /** Each event is one move of the abstract lock, allowed where it happens, or
      leaves the abstract lock as it was. */
  lemma Refines(keyed: bool, s: State, e: Event)
    requires Inv(s) && Enabled(s, e)
    ensures var a, a' := Parties(s), Parties(Apply(keyed, s, e));
            match MoveOf(s, e)
            case None => a' == a
            case Some(m) => Allowed(a, m) && a' == Moved(a, m)
  {
    var s' := Apply(keyed, s, e);
    var a, a' := Parties(s), Parties(s');
    match e
    case Run(i) =>
      StepParty(keyed, s.c, s.ts[i], i);
      if MoveOf(s, e).Some? {
        GuardsMatch(s, i);
        RunMoves(keyed, s, i, MoveOf(s, e).value);
      } else {
        assert a' == a;
      }
    case Call(i, op) => assert a' == a;
    case Timeout(i) => assert a' == a;
    case HandOff(i, j) =>
      HandOffMoves(keyed, s, i, j);
  }

  lemma HandOffMoves(keyed: bool, s: State, i: nat, j: nat)
    requires Inv(s) && Enabled(s, HandOff(i, j))
    ensures var a, m := Parties(s), Transfer(i, j);
            Allowed(a, m) && Parties(Apply(keyed, s, HandOff(i, j))) == Moved(a, m)
  {
    assert LocalOk(s.ts[i]) && LocalOk(s.ts[j]);
  }

  lemma RunMoves(keyed: bool, s: State, i: nat, m: Move)
    requires Enabled(s, Run(i)) && Linearized(s.ts[i], i) == Some(m)
    requires PartyStep(View1(s.ts[i]), View1(Exec(keyed, s.c, s.ts[i], i).1), Some(m))
    requires m.AcquireShared? ==> NoWriter(Parties(s)) && NoUpgrader(Parties(s))
    requires m.AcquireExclusive? ==> NoHolder(Parties(s)) && NoUpgrader(Parties(s))
    requires m.GrantUpgrade? ==> NoHolder(Parties(s))
    ensures Allowed(Parties(s), m) && Parties(Apply(keyed, s, Run(i))) == Moved(Parties(s), m)
  {
    var a, a' := Parties(s), Parties(Apply(keyed, s, Run(i)));
    assert Allowed(a, m);
    assert a'[i] == Moved(a, m)[i];
    assert a' == Moved(a, m);
  }

  /** Over a whole run the parties go through moves of the abstract lock, so they
      are a reader/writer lock throughout. */
  lemma {:induction false} RunRefines(keyed: bool, tr: seq<State>, es: seq<Event>, k: nat)
    requires FromInit(keyed, tr, es) && k < |tr|
    ensures ReaderWriter(Parties(tr[k]))
    ensures k > 0 ==>
              match MoveOf(tr[k - 1], es[k - 1])
              case None => Parties(tr[k]) == Parties(tr[k - 1])
              case Some(m) => Allowed(Parties(tr[k - 1]), m) && Parties(tr[k]) == Moved(Parties(tr[k - 1]), m)
  {
    if k > 0 {
      RunRefines(keyed, tr, es, k - 1);
      Safety(keyed, tr, es, k - 1);
      assert Enabled(tr[k - 1], es[k - 1]) && tr[k - 1 + 1] == Apply(keyed, tr[k - 1], es[k - 1]);
      Refines(keyed, tr[k - 1], es[k - 1]);
      if MoveOf(tr[k - 1], es[k - 1]).Some? {
        MoveKeepsReaderWriter(Parties(tr[k - 1]), MoveOf(tr[k - 1], es[k - 1]).value);
      }
    }
  }
}
