/**
Upgrade exclusion: from the moment a thread raises `upgrade` until the last
upgraded holder lowers it, nobody joins the threads that hold the lock or wait to
upgrade.
*/
module CcmsUpgrade {
  import opened Base
  import opened CcmsModel
  import opened CcmsInvariant
  import opened CcmsSafety

  /** The thread holds the lock, or has raised `upgrade` and waits. */
  predicate Member(t: Thread) {
    !t.hold.Free? || t.up == 1
  }

  /** A step makes its thread a member only at a grant, which the source makes
      only after reading `upgrade` as zero under the spin. */
  lemma StepJoins(keyed: bool, c: Cst, t: Thread, me: nat)
    requires Ready(c, t, me) && LocalOk(t) && !Member(t) && Member(Exec(keyed, c, t, me).1)
    requires InSpin(t.pc) ==> SpinOk(c, t)
    ensures c.upgrade == 0
  {
    match t.pc
    case InLock(l) =>
    case InWait(w, p) =>
    case InUp(u) =>
    case InDown(d) =>
    case InUn(n) =>
    case InTail(r) =>
    case InQuery(q) =>
    case Ret =>
  }

  /** The event hands the lock to thread i. */
  predicate HandsTo(e: Event, i: nat) {
    e.HandOff? && e.j == i
  }

  lemma NobodyJoins(keyed: bool, s: State, e: Event, i: nat)
    requires Inv(s) && Enabled(s, e) && s.c.upgrade > 0 && i < |s.ts|
    ensures |Apply(keyed, s, e).ts| == |s.ts|
    ensures Member(Apply(keyed, s, e).ts[i]) ==> Member(s.ts[i]) || HandsTo(e, i)
  {
    if e == Run(i) && !Member(s.ts[i]) && Member(Apply(keyed, s, e).ts[i]) {
      StepJoins(keyed, s.c, s.ts[i], i);
      assert false;
    }
  }

  /** While `upgrade` stays positive, a member at the end of a stretch of a run was a
      member at its start, or has been handed the lock by one in between. */
  lemma {:induction false} UpgradeExclusion(keyed: bool, tr: seq<State>, es: seq<Event>, a: nat, b: nat, i: nat)
    requires FromInit(keyed, tr, es) && a <= b < |tr|
    requires forall k :: a <= k < b ==> tr[k].c.upgrade > 0
    requires i < |tr[b].ts|
    ensures |tr[a].ts| == |tr[b].ts|
    ensures Member(tr[b].ts[i]) ==> Member(tr[a].ts[i]) || exists k :: a <= k < b && HandsTo(es[k], i)
    decreases b - a
  {
    if a < b {
      Safety(keyed, tr, es, b - 1);
      assert Enabled(tr[b - 1], es[b - 1]) && tr[b - 1 + 1] == Apply(keyed, tr[b - 1], es[b - 1]);
      NobodyJoins(keyed, tr[b - 1], es[b - 1], i);
      UpgradeExclusion(keyed, tr, es, a, b - 1, i);
    }
  }

  function MemberShare(t: Thread): int { if Member(t) then 1 else 0 }

  lemma HandOffMovesMember(keyed: bool, s: State, i: nat, j: nat)
    requires Inv(s) && Enabled(s, HandOff(i, j))
    ensures Sum(MemberShare, Apply(keyed, s, HandOff(i, j)).ts) == Sum(MemberShare, s.ts)
  {
    var s' := Apply(keyed, s, HandOff(i, j));
    assert LocalOk(s.ts[j]) && s.ts[j].up == 0;
    SumUpdate(MemberShare, s.ts, i, s'.ts[i]);
    SumUpdate(MemberShare, s.ts[i := s'.ts[i]], j, s'.ts[j]);
    assert s'.ts == s.ts[i := s'.ts[i]][j := s'.ts[j]];
  }

  lemma EventMovesOne(keyed: bool, s: State, e: Event)
    requires Inv(s) && Enabled(s, e) && s.c.upgrade > 0 && !e.HandOff?
    ensures Sum(MemberShare, Apply(keyed, s, e).ts) <= Sum(MemberShare, s.ts)
  {
    var s' := Apply(keyed, s, e);
    NobodyJoins(keyed, s, e, e.i);
    assert s'.ts == s.ts[e.i := s'.ts[e.i]];
    SumUpdate(MemberShare, s.ts, e.i, s'.ts[e.i]);
  }

  /** The number of members never grows meanwhile, hand-offs included. */
  lemma {:induction false} MembersNeverGrow(keyed: bool, tr: seq<State>, es: seq<Event>, a: nat, b: nat)
    requires FromInit(keyed, tr, es) && a <= b < |tr|
    requires forall k :: a <= k < b ==> tr[k].c.upgrade > 0
    ensures Sum(MemberShare, tr[b].ts) <= Sum(MemberShare, tr[a].ts)
    decreases b - a
  {
    if a < b {
      var s, e := tr[b - 1], es[b - 1];
      Safety(keyed, tr, es, b - 1);
      assert Enabled(s, e) && tr[b - 1 + 1] == Apply(keyed, s, e);
      if e.HandOff? { HandOffMovesMember(keyed, s, e.i, e.j); } else { EventMovesOne(keyed, s, e); }
      MembersNeverGrow(keyed, tr, es, a, b - 1);
    }
  }

  /** Between an upgrader's start and its grant, only threads that already held the
      lock or were upgrading when it started are ever exclusive, and those they hand
      the lock to. */
  lemma OnlyMembersGetIn(keyed: bool, tr: seq<State>, es: seq<Event>, a: nat, b: nat, u: nat, i: nat)
    requires FromInit(keyed, tr, es) && a <= b < |tr| && u < |tr[b].ts| && i < |tr[b].ts|
    requires forall k :: a <= k <= b ==> u < |tr[k].ts| && tr[k].ts[u].up == 1
    requires tr[b].ts[i].hold.Excl?
    ensures |tr[a].ts| == |tr[b].ts|
    ensures Member(tr[a].ts[i]) || exists k :: a <= k < b && HandsTo(es[k], i)
  {
    forall k | a <= k < b ensures tr[k].c.upgrade > 0 {
      Safety(keyed, tr, es, k);
      UpgradeBound(tr[k], u);
    }
    UpgradeExclusion(keyed, tr, es, a, b, i);
  }

  /** An upgrader that finds no other holder never sleeps: its own shared hold is
      given up before the test, so it does not wait for itself. */
  lemma LastHolderTakesLock(keyed: bool, s: State, i: nat)
    requires Inv(s) && i < |s.ts| && s.ts[i].pc == InUp(UpDec) && s.c.count == 1
    ensures var s1 := Apply(keyed, s, Run(i));
            && Enabled(s1, Run(i))
            && var s2 := Apply(keyed, s1, Run(i));
            && s2.ts[i].pc == InWait(ForUpgrade, TakeCount)
            && Enabled(s2, Run(i))
            && Apply(keyed, s2, Run(i)).ts[i].hold == Excl(1, true)
            && Apply(keyed, s2, Run(i)).c.count == -1
  {
    var s1 := Apply(keyed, s, Run(i));
    assert s1.c.count == 0 && s1.ts[i].pc == InWait(ForUpgrade, Test);
    assert LocalOk(s.ts[i]) && s1.ts[i].op == s.ts[i].op;
    var s2 := Apply(keyed, s1, Run(i));
    assert s2.ts[i].pc == InWait(ForUpgrade, TakeCount);
  }
}
