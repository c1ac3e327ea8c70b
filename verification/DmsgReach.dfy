/**
Which states a failure reaches, read off the tree before it: those on a way down from
its top that meets no state failed before.  And what follows for the tree: when it
stays under its root, and who has been told.
*/
module DmsgReach {
  import opened Base
  import opened DmsgStates
  import opened DmsgTeardown
  import opened DmsgFailure

  /** A way down the tree, each state on the list of the one before. */
  ghost predicate Path(h: Heap, q: seq<nat>) {
    var n := |q| - 1;
    && n >= 0 && q[n] in h
    && (n > 0 ==> Path(h, q[..n]) && q[n - 1] in h && q[n] in h[q[n - 1]].subq)
  }

  /** A way down from x to z with no failed state on it below x. */
  ghost predicate LivePath(h: Heap, q: seq<nat>, x: nat, z: nat) {
    var n := |q| - 1;
    && n >= 0 && q[0] == x && q[n] == z && z in h
    && (n > 0 ==> !h[z].aborting && q[n - 1] in h && LivePath(h, q[..n], x, q[n - 1]) && z in h[q[n - 1]].subq)
  }

  ghost predicate Within(h: Heap, x: nat, z: nat) {
    exists q :: LivePath(h, q, x, z)
  }

  lemma LiveExtend(h: Heap, q: seq<nat>, x: nat, p: nat, z: nat)
    requires LivePath(h, q, x, p) && z in h && !h[z].aborting && z in h[p].subq
    ensures LivePath(h, q + [z], x, z)
  {
    var r := q + [z];
    assert r[..|q|] == q && r[|q| - 1] == p;
  }

  lemma {:induction false} HitWithin(ans: nat -> bool, h: Heap, g: Heap, x: nat, z: nat)
    requires Ready(h, x) && Laws(ans, h, g, x) && z != x && Hit(h, g, z) && h[x].parent != Some(z)
    ensures Within(h, x, z)
    decreases h[z].born
  {
    var p := HitParent(ans, h, g, x, z);
    if p == x { WithinSelf(h, x); } else { HitWithin(ans, h, g, x, p); }
    WithinChild(h, x, p, z);
  }

  lemma HitParent(ans: nat -> bool, h: Heap, g: Heap, x: nat, z: nat) returns (p: nat)
    requires Ready(h, x) && Laws(ans, h, g, x) && z != x && Hit(h, g, z) && h[x].parent != Some(z)
    ensures p in h && h[p].born < h[z].born && z in h[p].subq && !h[z].aborting
    ensures p != x ==> Hit(h, g, p) && h[x].parent != Some(p)
  {
    assert LawAt(ans, h, g, x, z) && NodeOk(h, z);
    p := h[z].parent.value;
    if h[x].parent.Some? { NotOlder(h, x, h[x].parent.value); }
  }

  lemma WithinSelf(h: Heap, x: nat)
    requires x in h
    ensures Within(h, x, x)
  {
    assert LivePath(h, [x], x, x);
  }

  lemma WithinChild(h: Heap, x: nat, p: nat, z: nat)
    requires p in h && Within(h, x, p) && z in h && !h[z].aborting && z in h[p].subq
    ensures Within(h, x, z)
  {
    var q :| LivePath(h, q, x, p);
    LiveExtend(h, q, x, p, z);
  }

  lemma {:induction false} WithinHit(ans: nat -> bool, h: Heap, g: Heap, x: nat, q: seq<nat>, z: nat)
    requires Ready(h, x) && Laws(ans, h, g, x) && AllReached(h, g, h[x].subq)
    requires LivePath(h, q, x, z) && |q| > 1
    ensures z != x && h[x].parent != Some(z) && h[x].born < h[z].born && Hit(h, g, z)
  {
    var n := |q| - 1;
    var p := q[n - 1];
    assert NodeOk(h, p) && NodeOk(h, z);
    if h[x].parent.Some? { NotOlder(h, x, h[x].parent.value); }
    if n > 1 {
      WithinHit(ans, h, g, x, q[..n], p);
      assert LawAt(ans, h, g, x, p);
    }
    assert Reached(h, g, z);
  }

  /** A failure of all below x hits exactly the states within its reach. */
  lemma HitIff(ans: nat -> bool, h: Heap, g: Heap, x: nat, z: nat)
    requires Ready(h, x) && Laws(ans, h, g, x) && AllReached(h, g, h[x].subq) && z != x && h[x].parent != Some(z)
    ensures Hit(h, g, z) <==> Within(h, x, z)
  {
    if Hit(h, g, z) { HitWithin(ans, h, g, x, z); }
    if Within(h, x, z) {
      var q :| LivePath(h, q, x, z);
      WithinHit(ans, h, g, x, q, z);
    }
  }

  // ------------------------------------------------- staying under the root

  /** Every child leaves when failed. */
  ghost predicate Clears(ans: nat -> bool, h: Heap, y: nat)
    requires y in h
  {
    forall c | c in h[y].subq :: c in h && Leaves(ans, h[c], c)
  }

  /** No state that leaves its list when all below x is failed keeps a child that does
      not; x itself counts if it is to leave. */
  ghost predicate StaysWhole(ans: nat -> bool, h: Heap, x: nat, out: bool) {
    forall y {:trigger Within(h, x, y)} |
      Within(h, x, y) && y in h && (if y == x then out else Leaves(ans, h[y], y)) :: Clears(ans, h, y)
  }

  ghost predicate LeftList(ans: nat -> bool, h: Heap, g: Heap, x: nat, out: bool, y: nat) {
    x in h && y in h && if y == x then out else h[x].parent != Some(y) && Hit(h, g, y) && Leaves(ans, h[y], y)
  }

  /** A state in the new tree that hangs from nothing and from which something hangs. */
  lemma KeepsLoose(ans: nat -> bool, h: Heap, g: Heap, x: nat, out: bool, y: nat, c: nat)
    requires Ready(h, x) && Step(ans, h, g, x) && LeftList(ans, h, g, x, out, y)
    requires out ==> (x in g ==> g[x].parent.None?)
    requires y != ROOT && c in h[y].subq && c in h && !Leaves(ans, h[c], c) && c != x && h[x].parent != Some(c)
    ensures y in g && c in g[y].subq && g[y].parent.None?
  {
    assert NodeOk(h, y) && NodeOk(h, c) && LawAt(ans, h, g, x, c);
    assert c in g && g[c].parent == Some(y);
    assert NodeOk(g, c);
    if y != x { assert LawAt(ans, h, g, x, y); }
  }

  lemma WithinYounger(ans: nat -> bool, h: Heap, g: Heap, x: nat, y: nat)
    requires Ready(h, x) && Laws(ans, h, g, x) && AllReached(h, g, h[x].subq) && Within(h, x, y)
    ensures y in h && h[x].born <= h[y].born && (y != x ==> Hit(h, g, y) && h[x].parent != Some(y))
  {
    var q :| LivePath(h, q, x, y);
    if |q| > 1 { WithinHit(ans, h, g, x, q, y); }
  }

  lemma WholeNeeds(ans: nat -> bool, h: Heap, g: Heap, x: nat, out: bool, y: nat, c: nat)
    requires Ready(h, x) && Step(ans, h, g, x) && AllReached(h, g, h[x].subq) && Within(h, x, y)
    requires LeftList(ans, h, g, x, out, y) && y != ROOT && c in h[y].subq
    requires out ==> (x in g ==> g[x].parent.None?)
    ensures c in h && (Anchored(g) ==> Leaves(ans, h[c], c))
  {
    WithinYounger(ans, h, g, x, y);
    assert NodeOk(h, y) && NodeOk(h, c);
    if h[x].parent.Some? { NotOlder(h, x, h[x].parent.value); }
    if !Leaves(ans, h[c], c) {
      KeepsLoose(ans, h, g, x, out, y, c);
      assert !AnchoredAt(g, y);
    }
  }

  lemma Emptied(ans: nat -> bool, h: Heap, g: Heap, x: nat, z: nat)
    requires Ready(h, x) && Step(ans, h, g, x) && z in h && z in g && Clears(ans, h, z)
    requires AllReached(h, g, h[z].subq) && h[x].born <= h[z].born
    ensures g[z].subq == []
  {
    assert MonoAt(h, g, z) && NodeOk(g, z) && NodeOk(h, z);
    if h[x].parent.Some? { NotOlder(h, x, h[x].parent.value); }
    forall c ensures c !in g[z].subq {
      if c in h[z].subq {
        assert Reached(h, g, c) && NodeOk(h, c) && LawAt(ans, h, g, x, c);
      }
    }
    EmptyOrNot(g[z].subq);
  }

  lemma AnchoredOne(ans: nat -> bool, h: Heap, g: Heap, x: nat, out: bool, z: nat)
    requires Ready(h, x) && Step(ans, h, g, x) && x in g && AnchoredAt(h, z) && AllReached(h, g, h[x].subq)
    requires if out then !g[x].rb else g[x].parent == h[x].parent
    requires z in h && LeftList(ans, h, g, x, out, z) ==> Clears(ans, h, z)
    ensures AnchoredAt(g, z)
  {
    assert MonoAt(h, g, z);
    if z in g {
      assert h[z].subq == [] ==> g[z].subq == [] by { EmptyOrNot(g[z].subq); }
      if z == x {
        if out { Emptied(ans, h, g, x, x); }
      } else {
        assert LawAt(ans, h, g, x, z);
        BereftSame(h[z], x);
        if LeftList(ans, h, g, x, out, z) { Emptied(ans, h, g, x, z); }
      }
    }
  }

  /** The tree stays under its root exactly when no state that leaves keeps a child that
      does not. */
  lemma WholeIff(ans: nat -> bool, h: Heap, g: Heap, x: nat, out: bool)
    requires Ready(h, x) && Step(ans, h, g, x) && x in g && Anchored(h) && AllReached(h, g, h[x].subq)
    requires if out then x != ROOT && g[x].parent.None? && !g[x].rb else g[x].parent == h[x].parent
    ensures Anchored(g) <==> StaysWhole(ans, h, x, out)
  {
    if StaysWhole(ans, h, x, out) {
      forall z ensures AnchoredAt(g, z) {
        assert AnchoredAt(h, z);
        if LeftList(ans, h, g, x, out, z) {
          if z == x { WithinSelf(h, x); } else { HitWithin(ans, h, g, x, z); }
          assert Within(h, x, z);
        }
        AnchoredOne(ans, h, g, x, out, z);
      }
    }
    if Anchored(g) {
      forall y | Within(h, x, y) && y in h && (if y == x then out else Leaves(ans, h[y], y))
        ensures Clears(ans, h, y)
      {
        WithinYounger(ans, h, g, x, y);
        if y != x { assert LawAt(ans, h, g, x, y); }
        forall c | c in h[y].subq ensures c in h && Leaves(ans, h[c], c) { WholeNeeds(ans, h, g, x, out, y, c); }
      }
    }
  }

  lemma AnchoredLetGo(h: Heap, x: nat, g: Heap)
    requires Forest(h) && x in h && h[x].held > 0 && g == Drop(h, x)
    ensures Anchored(g) <==> Anchored(h)
  {
    assert NodeOk(h, x);
    forall z ensures AnchoredAt(g, z) <==> AnchoredAt(h, z) { }
  }

  // ------------------------------------------------------- who has been told

  /** The state at i is due, and no state past it on q has been told: the end of q is to
      be told when i is. */
  ghost predicate AwaitsAt(h: Heap, q: seq<nat>, i: int) {
    && 0 < i < |q| && q[i] in h && Due(h[q[i]])
    && forall j | i < j < |q| :: q[j] in h && !Told(h[q[j]])
  }

  /** The end of q has been told, or is to be when a message has been sent. */
  ghost predicate Heeded(h: Heap, q: seq<nat>) {
    |q| > 0 && q[|q| - 1] in h && (Told(h[q[|q| - 1]]) || exists i :: AwaitsAt(h, q, i))
  }

  /** Every state below x, at any depth. */
  ghost predicate ToldBelow(h: Heap, x: nat) {
    forall q {:trigger Heeded(h, q)} | Path(h, q) && q[0] == x && |q| > 1 :: Heeded(h, q)
  }

  ghost predicate SettledBelow(h: Heap, x: nat) {
    forall q {:trigger Path(h, q)} | Path(h, q) && q[0] == x && |q| > 1 :: SettledAt(h, q[|q| - 1])
  }

  lemma {:induction false} PathHeeded(h: Heap, x: nat, q: seq<nat>)
    requires SettledBelow(h, x) && ChildrenDone(h, x) && Path(h, q) && q[0] == x && |q| > 1
    ensures Heeded(h, q)
  {
    var n := |q| - 1;
    var y, z, r := q[n - 1], q[n], q[..n];
    if n > 1 && !Told(h[y]) {
      PathHeeded(h, x, r);
      var i :| AwaitsAt(h, r, i);
      assert Told(h[z]) || AwaitsAt(h, q, i);
    } else {
      assert n > 1 ==> SettledAt(h, r[|r| - 1]);
      assert Told(h[z]) || AwaitsAt(h, q, n);
    }
  }

  lemma PathExtend(h: Heap, r: seq<nat>, x: nat)
    requires Path(h, r) && r[|r| - 1] in h && x in h && x in h[r[|r| - 1]].subq
    ensures Path(h, r + [x])
  {
    assert (r + [x])[..|r|] == r;
  }

  lemma HeededSettled(h: Heap, x: nat, q: seq<nat>)
    requires Forest(h) && ToldBelow(h, x) && Path(h, q) && q[0] == x && |q| > 1
    ensures SettledAt(h, q[|q| - 1])
  {
    var y := q[|q| - 1];
    assert NodeOk(h, y);
    forall c | c in h[y].subq && Told(h[y]) ensures c in h && Done(h[c]) {
      var r := q + [c];
      PathExtend(h, q, c);
      assert Heeded(h, r) && r[|r| - 2] == y;
    }
  }

  lemma HeededChildren(h: Heap, x: nat)
    requires Forest(h) && ToldBelow(h, x) && x in h
    ensures ChildrenDone(h, x)
  {
    assert NodeOk(h, x);
    forall c | c in h[x].subq ensures c in h && Done(h[c]) {
      assert Path(h, [x]);
      PathExtend(h, [x], c);
      assert Heeded(h, [x, c]) by { assert [x] + [c] == [x, c]; }
    }
  }

  /** Every state below x has been told, or is to be when a message has been sent,
      exactly when that is so of its children and all below is settled. */
  lemma ToldBelowIff(h: Heap, x: nat)
    requires Forest(h) && x in h
    ensures ToldBelow(h, x) <==> ChildrenDone(h, x) && SettledBelow(h, x)
  {
    if ToldBelow(h, x) {
      HeededChildren(h, x);
      forall q | Path(h, q) && q[0] == x && |q| > 1 ensures SettledAt(h, q[|q| - 1]) { HeededSettled(h, x, q); }
    }
    if ChildrenDone(h, x) && SettledBelow(h, x) {
      forall q | Path(h, q) && q[0] == x && |q| > 1 ensures Heeded(h, q) { PathHeeded(h, x, q); }
    }
  }

  lemma SettledToldBelow(h: Heap, x: nat)
    requires Forest(h) && x in h && AllSettled(h) && ChildrenDone(h, x)
    ensures ToldBelow(h, x)
  {
    forall q | Path(h, q) && q[0] == x && |q| > 1 ensures SettledAt(h, q[|q| - 1]) { }
    ToldBelowIff(h, x);
  }

  /** Nothing is being sent. */
  ghost predicate Quiet(h: Heap) {
    forall y | y in h :: !h[y].young && !h[y].inter
  }

  /** Then every state below has been told. */
  lemma QuietTold(h: Heap, x: nat, q: seq<nat>)
    requires ToldBelow(h, x) && Quiet(h) && Path(h, q) && q[0] == x && |q| > 1
    ensures q[|q| - 1] in h && Told(h[q[|q| - 1]])
  {
    assert Heeded(h, q);
  }

  // ---------------------------------------------------- the entry points

  /** What the cleanup after a received message does.  After a DELETE the children left
      are those that do not leave when failed, and all of them have been told; and the
      tree stays under its root exactly when it was to.  A state closed both ways is off
      its parent's list, and any other where it was. */
  ghost predicate CleanedRx(ans: nat -> bool, h: Heap, k: Heap, x: nat, del: bool)
    requires x in h
  {
    var out := h[x].rxd && h[x].txd;
    && Laws(ans, h, k, x) && GrowsBut(h, k, x) && LingerOn(h, k, x)
    && (del && x in k ==> LeftBy(ans, h, k, x) && ChildrenDone(k, x) && (k[x].subq == [] <==> Clears(ans, h, x)))
    && (del && Anchored(h) ==> (Anchored(k) <==> StaysWhole(ans, h, x, out)))
    && (if out then x in k ==> k[x].parent.None? else h[x].parent.Some? ==> x in k && LetGo(h[x], k[x]))
  }

  lemma RxCleaned(ans: nat -> bool, h: Heap, g: Heap, x: nat, k: Heap, del: bool, n: nat)
    requires Forest(h) && AllSane(h) && x in h && x != ROOT && Step(ans, h, g, x) && x in g && g[x].held > 0
    requires BornBefore(h, n) && k == Drop(g, x) && (del ==> ChildrenFailed(g, x))
    requires (h[x].rxd && h[x].txd ==> !h[x].rb) && SameFlags(h[x], g[x])
    requires g[x].rb == h[x].rb && g[x].parent == if h[x].rxd && h[x].txd then None else h[x].parent
    ensures Forest(k) && AllSane(k) && BornBefore(k, n) && k[ROOT].aborting == h[ROOT].aborting
    ensures CleanedRx(ans, h, k, x, del) && SaneAt(g, x)
  {
    assert SaneAt(h, x) && MonoAt(h, g, x) && AllSane(g);
    Released(ans, h, g, x, k);
    GrowsBefore(h, k, x, n);
    RootStays(ans, h, k, x);
    DropAt(g, x, k);
    if del { RxFailed(ans, h, g, x, k); }
  }

  lemma RxFailed(ans: nat -> bool, h: Heap, g: Heap, x: nat, k: Heap)
    requires Ready(h, x) && x != ROOT && Step(ans, h, g, x) && x in g && g[x].held > 0
    requires k == Drop(g, x) && ChildrenFailed(g, x) && AllSane(k) && Forest(k)
    requires (h[x].rxd && h[x].txd ==> !g[x].rb) && g[x].parent == if h[x].rxd && h[x].txd then None else h[x].parent
    ensures x in k ==> LeftBy(ans, h, k, x) && ChildrenDone(k, x) && (k[x].subq == [] <==> Clears(ans, h, x))
    ensures Anchored(h) ==> (Anchored(k) <==> StaysWhole(ans, h, x, h[x].rxd && h[x].txd))
  {
    ScanReached(ans, h, g, x);
    LeftExact(ans, h, g, x);
    DropFailed(g, x, k);
    DropAt(g, x, k);
    FailedDone(k, x);
    if x in k { EmptiedIff(ans, h, k, x); }
    if Anchored(h) {
      WholeIff(ans, h, g, x, h[x].rxd && h[x].txd);
      AnchoredLetGo(g, x, k);
    }
  }

  /** What the cleanup after a sent message does.  A deferred abort leaves the state told,
      or due again if it is still new, and its children as a received DELETE would. */
  ghost predicate CleanedTx(ans: nat -> bool, h: Heap, k: Heap, x: nat, del: bool)
    requires x in h
  {
    && Laws(ans, h, k, x) && GrowsBut(h, k, x) && LingerOn(h, k, x) && (Lingering(h, x) ==> Lingering(k, x))
    && (Deferred(h, x) && x in k ==> k[x].aborting && Done(k[x]))
    && (Deferred(h, x) && !h[x].young && x in k ==>
          && Told(k[x]) && LeftBy(ans, h, k, x) && ChildrenDone(k, x)
          && (del || h[x].txd || ans(x) ==> Gone(k[x])))
  }

  /** A step that ends the sending of a message: the DELETE, and a deferred abort. */
  ghost predicate SendResult(ans: nat -> bool, h: Heap, g: Heap, x: nat, del: bool)
    requires x in h && x in g
  {
    && Step(ans, h, g, x) && g[x].held > 0
    && (!Deferred(h, x) ==>
          && g[x].aborting == h[x].aborting && g[x].dying == h[x].dying && g[x].rxd == h[x].rxd
          && (!del ==> SameBut(h[x], g[x])))
    && (Deferred(h, x) ==> g[x].aborting && Sane(g[x]))
    && (Deferred(h, x) && !h[x].young ==>
          Told(g[x]) && ChildrenFailed(g, x) && (del || h[x].txd || ans(x) ==> Gone(g[x])))
  }

  lemma SentResult(ans: nat -> bool, h: Heap, h1: Heap, g: Heap, x: nat, del: bool)
    requires AllSane(h) && x in h && x in g && h1 == Sent(h, x) && SendResult(ans, h1, g, x, del)
    ensures SentOk(h, g, x)
  {
    assert SaneAt(h, x) && MonoAt(h1, g, x);
  }

  lemma TxCleaned(ans: nat -> bool, h: Heap, h1: Heap, g: Heap, x: nat, k: Heap, del: bool, n: nat)
    requires Forest(h) && AllSane(h) && x in h && x != ROOT && h1 == Sent(h, x) && Ready(h1, x)
    requires x in g && SendResult(ans, h1, g, x, del) && k == Drop(g, x) && BornBefore(h, n) && (del ==> !h[x].txd)
    ensures Forest(k) && AllSane(k) && BornBefore(k, n) && k[ROOT].aborting == h[ROOT].aborting
    ensures CleanedTx(ans, h, k, x, del) && (AllSettled(h) ==> AllSettled(k))
  {
    SentResult(ans, h, h1, g, x, del);
    SentSettled(ans, h, h1, g, x);
    assert MonoAt(h1, g, x);
    Released(ans, h, g, x, k);
    SentLeft(ans, h, h1, g, x, k);
    GrowsBefore(h, k, x, n);
    RootStays(ans, h, k, x);
    if AllSettled(h) { SettledOwn(g, k, x); }
  }

  /** All below the root failed. */
  lemma TornDown(ans: nat -> bool, h: Heap, g: Heap)
    requires Forest(h) && AllSane(h) && !h[ROOT].aborting && Step(ans, h, g, ROOT) && SameBut(h[ROOT], g[ROOT])
    requires AllReached(h, g, h[ROOT].subq) && ChildrenFailed(g, ROOT)
    ensures AllSane(g) && LingerOn(h, g, ROOT) && forall z | Stranded(h, z) :: Stranded(g, z)
    ensures LeftBy(ans, h, g, ROOT) && ChildrenDone(g, ROOT) && (g[ROOT].subq == [] <==> Clears(ans, h, ROOT))
    ensures AllSettled(g) <==> AllSettled(h)
    ensures Anchored(h) ==> (Anchored(g) <==> StaysWhole(ans, h, ROOT, false))
  {
    LingersOn(ans, h, g, ROOT);
    forall z | Stranded(h, z) ensures Stranded(g, z) {
      assert Lingering(g, z) && MonoAt(h, g, z);
      EmptyOrNot(g[z].subq);
    }
    LeftExact(ans, h, g, ROOT);
    EmptiedIff(ans, h, g, ROOT);
    FailedDone(g, ROOT);
    TornDownSettled(ans, h, g);
    if Anchored(h) { WholeIff(ans, h, g, ROOT, false); }
  }

  lemma TornDownSettled(ans: nat -> bool, h: Heap, g: Heap)
    requires Forest(h) && AllSane(h) && !h[ROOT].aborting && Step(ans, h, g, ROOT) && SameBut(h[ROOT], g[ROOT])
    ensures AllSettled(g) <==> AllSettled(h)
    ensures AllSane(g)
  {
    assert SaneAt(h, ROOT) && AllSane(g);
    if AllSettled(h) { SettledKept(ans, h, g, ROOT); }
    if AllSettled(g) {
      forall y ensures SettledAt(h, y) {
        if y in h && Told(h[y]) {
          forall c | c in h[y].subq ensures c in h && Done(h[c]) {
            assert NodeOk(h, y) && SettledAt(g, y);
            BelowTold(ans, h, g, ROOT, y, c);
          }
        }
      }
    }
  }
}
