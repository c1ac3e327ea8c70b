/**
An upgrade is granted however many other threads ask for the lock meanwhile.

While a thread waits to upgrade, the threads that hold the lock, wait to upgrade or
have yet to wake the channel are the involved ones; nobody joins them.  If those only
finish their calls and give back what they hold, the number of their steps until the
grant has a bound, no matter what all the others call or do and how often.
*/
module CcmsCrowd {
  import opened Base
  import opened CcmsModel
  import opened CcmsInvariant
  import opened CcmsSafety
  import opened CcmsWakeup
  import opened CcmsUpgrade
  import opened CcmsDrain

  predicate Involved(t: Thread) {
    Member(t) || MayWake(t)
  }

  predicate AwaitsUpgrade(t: Thread) {
    t.pc.InWait? && t.pc.w == ForUpgrade
  }

  /** What outsiders do, they do as outsiders. */
  lemma StaysOut(keyed: bool, c: Cst, t: Thread, me: nat)
    requires Ready(c, t, me) && LocalOk(t) && !Involved(t) && c.upgrade > 0
    requires InSpin(t.pc) ==> SpinOk(c, t)
    ensures !Involved(Exec(keyed, c, t, me).1)
  {
    if Member(Exec(keyed, c, t, me).1) {
      StepJoins(keyed, c, t, me);
      assert false;
    }
  }

  // ------------------------------------------------- the rank of the involved

  ghost function Weight(n: nat): ((Thread, bool)) -> int {
    (p: (Thread, bool)) => if Involved(p.0) then Rank(n, p.0, p.1) else 0
  }

  ghost function Crowded(s: State): int {
    Sum(Weight(|s.ts|), Flagged(s))
  }

  lemma CrowdedNonNegative(s: State)
    ensures Crowded(s) >= 0
  {
    SumNonNegative(Weight(|s.ts|), Flagged(s));
  }

  lemma {:induction false} WakeupWeighs(n: nat, r: seq<(Thread, bool)>, r': seq<(Thread, bool)>)
    requires |r| == |r'| && forall k :: 0 <= k < |r| ==> r'[k] == (r[k].0, false)
    ensures Sum(Weight(n), r') <= Sum(Weight(n), r) + 6 * |r|
  {
    if r != [] {
      WakeupWeighs(n, r[1..], r'[1..]);
      DequeueRaises(n, r[0].0, r[0].1);
    }
  }

  lemma WakeupLowers(s: State, i: nat)
    requires Inv(s) && Enabled(s, Run(i)) && s.ts[i].pc == InTail(Wakeup)
    ensures Crowded(Apply(true, s, Run(i))) < Crowded(s)
  {
    var n, t := |s.ts|, s.ts[i];
    var s' := Apply(true, s, Run(i));
    var t' := s'.ts[i];
    WakeupPays(n, s.c, t, i);
    var woken := seq(n, k requires 0 <= k < n => (s.ts[k], false));
    WakeupWeighs(n, Flagged(s), woken);
    assert Flagged(s') == woken[i := (t', false)];
    SumUpdate(Weight(n), woken, i, (t', false));
  }

  lemma RunLowers(keyed: bool, s: State, i: nat)
    requires Inv(s) && Enabled(s, Run(i)) && Involved(s.ts[i]) && (keyed ==> s.ts[i].pc != InTail(Wakeup))
    ensures Crowded(Apply(keyed, s, Run(i))) < Crowded(s)
  {
    var n, c, t := |s.ts|, s.c, s.ts[i];
    var s' := Apply(keyed, s, Run(i));
    Views(s, i);
    StepLowers(keyed, n, c, t, i);
    QueueMovesAlone(keyed, c, t, i);
    var p' := (s'.ts[i], i in s'.c.queue);
    assert Flagged(s') == Flagged(s)[i := p'];
    SumUpdate(Weight(n), Flagged(s), i, p');
  }

  lemma ReleaseLowersCrowd(keyed: bool, s: State, i: nat)
    requires Inv(s) && i < |s.ts| && s.ts[i].pc.Idle? && !s.ts[i].hold.Free?
    requires Enabled(s, Call(i, ReleaseCall(s.ts[i].hold)))
    ensures Crowded(Apply(keyed, s, Call(i, ReleaseCall(s.ts[i].hold)))) < Crowded(s)
  {
    var n, t := |s.ts|, s.ts[i];
    var s' := Apply(keyed, s, Call(i, ReleaseCall(t.hold)));
    ReleaseLowers(t);
    assert i !in s.c.queue;
    OneLess(ReleaseCost(n), Owed(t), Owed(s'.ts[i]));
    assert Flagged(s') == Flagged(s)[i := (s'.ts[i], false)];
    SumUpdate(Weight(n), Flagged(s), i, (s'.ts[i], false));
  }

  lemma TimeoutRaisesCrowd(keyed: bool, s: State, i: nat)
    requires Inv(s) && Enabled(s, Timeout(i))
    ensures Crowded(Apply(keyed, s, Timeout(i))) <= Crowded(s) + 5
  {
    var s' := Apply(keyed, s, Timeout(i));
    WokenRank(|s.ts|, s.ts[i]);
    var p' := (s'.ts[i], false);
    assert Flagged(s') == Flagged(s)[i := p'];
    SumUpdate(Weight(|s.ts|), Flagged(s), i, p');
  }

  /** An event of an involved thread that only drains lowers their rank. */
  lemma InvolvedLowers(keyed: bool, s: State, e: Event)
    requires Inv(s) && Enabled(s, e) && Drains(s, e) && Involved(s.ts[e.i])
    ensures Crowded(Apply(keyed, s, e)) + 1 <= Crowded(s) + if e.Timeout? then 6 else 0
  {
    match e
    case Run(i) =>
      if keyed && s.ts[i].pc == InTail(Wakeup) { WakeupLowers(s, i); } else { RunLowers(keyed, s, i); }
    case Call(i, op) => ReleaseLowersCrowd(keyed, s, i);
    case Timeout(i) => TimeoutRaisesCrowd(keyed, s, i);
  }

  /** Nothing an outsider does changes it. */
  lemma OutsiderLeaves(keyed: bool, s: State, e: Event)
    requires Inv(s) && Enabled(s, e) && !Involved(s.ts[e.i]) && s.c.upgrade > 0
    ensures Crowded(Apply(keyed, s, e)) == Crowded(s)
  {
    var n, c, i := |s.ts|, s.c, e.i;
    var s' := Apply(keyed, s, e);
    if e.Run? {
      StaysOut(keyed, c, s.ts[i], i);
      QueueMovesAlone(keyed, c, s.ts[i], i);
    }
    var p' := (s'.ts[i], i in s'.c.queue);
    assert !Involved(s'.ts[i]);
    assert Flagged(s') == Flagged(s)[i := p'];
    SumUpdate(Weight(n), Flagged(s), i, p');
  }

  // --------------------------------------------------------------- the bound

  /** Over the first m events thread u waits to upgrade and the involved only drain; all
      others are free to do anything. */
  ghost predicate Waiting(keyed: bool, tr: seq<State>, es: seq<Event>, u: nat, m: nat) {
    && IsRun(keyed, tr, es) && Fit(keyed, tr[0]) && u < |tr[0].ts| && m <= |es|
    && forall k :: 0 <= k < m ==> WaitingAt(tr[k], es[k], u)
  }

  ghost predicate WaitingAt(s: State, e: Event, u: nat) {
    && u < |s.ts| && AwaitsUpgrade(s.ts[u])
    && (e.i < |s.ts| && Involved(s.ts[e.i]) ==> Drains(s, e))
  }

  predicate Counts(s: State, e: Event) {
    e.i < |s.ts| && Involved(s.ts[e.i])
  }

  /** The events of involved threads among the first k. */
  ghost function Moves(tr: seq<State>, es: seq<Event>, k: nat): nat
    requires k <= |es| < |tr|
  {
    if k == 0 then 0 else Moves(tr, es, k - 1) + if Counts(tr[k - 1], es[k - 1]) then 1 else 0
  }

  /** Those of them that end a sleep. */
  ghost function Returns(tr: seq<State>, es: seq<Event>, k: nat): nat
    requires k <= |es| < |tr|
  {
    if k == 0 then 0
    else Returns(tr, es, k - 1) + if Counts(tr[k - 1], es[k - 1]) && es[k - 1].Timeout? then 1 else 0
  }

  lemma CrowdStep(keyed: bool, s: State, e: Event, u: nat, s': State)
    requires Fit(keyed, s) && Enabled(s, e) && WaitingAt(s, e, u) && s' == Apply(keyed, s, e)
    ensures Fit(keyed, s') && |s'.ts| == |s.ts|
    ensures if Counts(s, e) then Crowded(s') + 1 <= Crowded(s) + (if e.Timeout? then 6 else 0)
            else Crowded(s') == Crowded(s)
  {
    NextKeepsInv(keyed, s, e);
    if keyed { NextKeepsWakeInv(s, e); }
    UpgradeBound(s, u);
    assert LocalOk(s.ts[u]);
    if Counts(s, e) { InvolvedLowers(keyed, s, e); } else { OutsiderLeaves(keyed, s, e); }
  }

  lemma {:induction false} CrowdInv(keyed: bool, tr: seq<State>, es: seq<Event>, u: nat, k: nat)
    requires Waiting(keyed, tr, es, u, k)
    ensures Fit(keyed, tr[k]) && |tr[k].ts| == |tr[0].ts|
    ensures Moves(tr, es, k) + Crowded(tr[k]) <= Crowded(tr[0]) + 6 * Returns(tr, es, k)
  {
    if k > 0 {
      CrowdInv(keyed, tr, es, u, k - 1);
      assert WaitingAt(tr[k - 1], es[k - 1], u);
      assert Enabled(tr[k - 1], es[k - 1]) && tr[k - 1 + 1] == Apply(keyed, tr[k - 1], es[k - 1]);
      CrowdStep(keyed, tr[k - 1], es[k - 1], u, tr[k]);
    }
  }

  /** While u waits, the involved make no more moves than their rank at the start, and
      six for each sleep of theirs that ends by itself. */
  lemma MovesBounded(keyed: bool, tr: seq<State>, es: seq<Event>, u: nat, m: nat)
    requires Waiting(keyed, tr, es, u, m)
    ensures Moves(tr, es, m) <= Crowded(tr[0]) + 6 * Returns(tr, es, m)
  {
    CrowdInv(keyed, tr, es, u, m);
    CrowdedNonNegative(tr[m]);
  }

  // ------------------------------------------------------------- and progress

  /** Some involved thread can go on, where need be by the end of a sleep. */
  ghost predicate CanMove(keyed: bool, s: State) {
    exists e :: Enabled(s, e) && Counts(s, e) && (Advances(s, e) || (!keyed && e.Timeout?))
  }

  lemma HolderMoves(keyed: bool, s: State, h: nat)
    requires Inv(s) && s.c.spin.None? && h < |s.ts| && !s.ts[h].hold.Free?
    ensures CanMove(keyed, s)
  {
    assert LocalOk(s.ts[h]);
    if s.ts[h].pc.Idle? {
      var e := Call(h, ReleaseCall(s.ts[h].hold));
      assert Enabled(s, e) && Counts(s, e) && Advances(s, e);
    } else {
      assert !Sleeping(s.ts[h].pc);
      assert Enabled(s, Run(h)) && Counts(s, Run(h)) && Advances(s, Run(h));
    }
  }

  /** While an upgrade waits and the spin is free, some involved thread can go on. */
  lemma InvolvedCanMove(keyed: bool, s: State, u: nat)
    requires Fit(keyed, s) && s.c.spin.None? && u < |s.ts| && AwaitsUpgrade(s.ts[u])
    ensures CanMove(keyed, s)
  {
    assert LocalOk(s.ts[u]);
    if !(Sleeping(s.ts[u].pc) && u in s.c.queue) {
      assert Enabled(s, Run(u)) && Counts(s, Run(u)) && Advances(s, Run(u));
    } else if !keyed {
      assert Enabled(s, Timeout(u)) && Counts(s, Timeout(u));
    } else if SomeComing(s) {
      ComingOutsideSpin(s);
      var j :| 0 <= j < |s.ts| && s.ts[j].pc == InTail(Wakeup);
      assert Enabled(s, Run(j)) && Counts(s, Run(j)) && Advances(s, Run(j));
    } else if h :| 0 <= h < |s.ts| && !s.ts[h].hold.Free? {
      HolderMoves(keyed, s, h);
    } else {
      SumAllZero(CountShare, s.ts);
      assert false;
    }
  }

  /** The only way out of the wait is the grant. */
  lemma WaitEnds(keyed: bool, s: State, e: Event, u: nat, s': State)
    requires Inv(s) && Enabled(s, e) && u < |s.ts| && AwaitsUpgrade(s.ts[u]) && s' == Apply(keyed, s, e)
    ensures u < |s'.ts| && (AwaitsUpgrade(s'.ts[u]) || GrantedAt(s'.ts[u]))
  {
    assert LocalOk(s.ts[u]);
  }

  /** The upgrade has been granted and has only to return. */
  predicate GrantedAt(t: Thread) {
    t.pc == InTail(Unspin) && t.op == Upgrade && t.entry == Shared(1) && t.hold == Excl(1, true) && t.rv == SHARED
  }

  /** In every run in which the involved only drain while u waits to upgrade, and which
      ends with the spin free and none of them able to go on, u has been granted the
      exclusive lock, whatever the others have called; and until then the involved have
      made no more moves than the bound. */
  lemma UpgraderGetsIn(keyed: bool, tr: seq<State>, es: seq<Event>, u: nat) returns (k: nat)
    requires DrainsWhile(keyed, tr, es, u) && tr[|es|].c.spin.None? && !CanMove(keyed, tr[|es|])
    ensures k <= |es| && u < |tr[k].ts| && GrantedAt(tr[k].ts[u]) && Waiting(keyed, tr, es, u, k)
    ensures Moves(tr, es, k) <= Crowded(tr[0]) + 6 * Returns(tr, es, k)
  {
    var out;
    out, k := OutBy(keyed, tr, es, u, |es|);
    MovesBounded(keyed, tr, es, u, k);
    if !out {
      CrowdInv(keyed, tr, es, u, |es|);
      InvolvedCanMove(keyed, tr[|es|], u);
      assert false;
    }
  }

  /** Thread u waits to upgrade at the start, and while it does the involved only drain. */
  ghost predicate DrainsWhile(keyed: bool, tr: seq<State>, es: seq<Event>, u: nat) {
    && IsRun(keyed, tr, es) && Fit(keyed, tr[0]) && u < |tr[0].ts| && AwaitsUpgrade(tr[0].ts[u])
    && forall k :: 0 <= k < |es| && u < |tr[k].ts| && AwaitsUpgrade(tr[k].ts[u]) ==> WaitingAt(tr[k], es[k], u)
  }

  /** Among the first m states u is granted, or it waits in all of them. */
  lemma {:induction false} OutBy(keyed: bool, tr: seq<State>, es: seq<Event>, u: nat, m: nat)
    returns (out: bool, k: nat)
    requires DrainsWhile(keyed, tr, es, u) && m <= |es|
    ensures k <= m && u < |tr[k].ts| && Waiting(keyed, tr, es, u, k)
    ensures if out then GrantedAt(tr[k].ts[u]) else k == m && AwaitsUpgrade(tr[m].ts[u])
  {
    if m == 0 {
      out, k := false, 0;
    } else {
      out, k := OutBy(keyed, tr, es, u, m - 1);
      if !out {
        out := OutNext(keyed, tr, es, u, m - 1);
        k := m;
      }
    }
  }

  lemma OutNext(keyed: bool, tr: seq<State>, es: seq<Event>, u: nat, k: nat) returns (out: bool)
    requires DrainsWhile(keyed, tr, es, u) && k < |es| && Waiting(keyed, tr, es, u, k)
    requires u < |tr[k].ts| && AwaitsUpgrade(tr[k].ts[u])
    ensures u < |tr[k + 1].ts| && Waiting(keyed, tr, es, u, k + 1)
    ensures if out then GrantedAt(tr[k + 1].ts[u]) else AwaitsUpgrade(tr[k + 1].ts[u])
  {
    CrowdInv(keyed, tr, es, u, k);
    assert WaitingAt(tr[k], es[k], u);
    WaitEnds(keyed, tr[k], es[k], u, tr[k + 1]);
    out := !AwaitsUpgrade(tr[k + 1].ts[u]);
  }
}
