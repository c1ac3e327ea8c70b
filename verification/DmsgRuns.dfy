/**
Runs of a connection from its start, by entry points alone, in which no owner answers
from its callback.  Transaction 1 is open under the root and 2 under 1; then 1 is
closed by both ends while 2 is not, or the peer opens a third under 2.
*/
module DmsgRuns {
  import opened Base
  import opened DmsgStates
  import opened DmsgTeardown
  import opened DmsgFailure
  import opened DmsgReach
  import opened DmsgForest
  import opened DmsgIocom

  /** Nobody is at work on the state. */
  predicate Idle(s: St) { s.held == 0 && s.txc && !s.young && !s.inter }

  /** A transaction that is open both ways. */
  ghost predicate OpenUnder(h: Heap, x: nat, p: nat, q: seq<nat>) {
    && x in h && p in h && h[x].parent == Some(p) && h[x].subq == q && Idle(h[x]) && h[x].rb
    && !h[x].txd && !h[x].rxd && !h[x].aborting && !h[x].dying
  }

  /** One that the peer has closed and this end has not. */
  ghost predicate HalfClosed(h: Heap, x: nat, p: nat) {
    x in h && h[x].parent == Some(p) && Idle(h[x]) && !h[x].txd && h[x].rxd
  }

  /** What opening x under p leaves, p having one more child. */
  ghost predicate Opening(h: Heap, g: Heap, p: nat, x: nat) {
    && p in h && p in g && g.Keys == h.Keys + {x} && OpenUnder(g, x, p, [])
    && g[p] == h[p].(subq := h[p].subq + [x], refs := g[p].refs)
    && forall y | y in h && y != p :: g[y] == h[y]
  }

  lemma OpeningFacts(h: Heap, p: nat, x: nat, h1: Heap, s: St, g: Heap)
    requires p in h && x !in h && s == Opened(s.born, false) && h1 == Insert(h, p, x, s)
    requires g == Drop(Sent(h1[x := Sending(h1[x], true, false)], x), x)
    ensures Opening(h, g, p, x)
  {
  }

  /** A transaction opened under p. */
  method Open(c: Iocom, p: nat, x: nat)
    requires c.Valid() && p in c.heap && !c.heap[p].dying && x !in c.heap && x != ROOT
    modifies c
    ensures c.Valid() && c.late == old(c.late) && Opening(old(c.heap), c.heap, p, x)
  {
    ghost var h := c.heap;
    c.Alloc(p, x);
    ghost var h1 := c.heap;
    c.MsgTx(x, true, false);
    c.CleanupTx(x, false);
    OpeningFacts(h, p, x, h1, Opened(old(c.clock), false), c.heap);
  }

  /** 1 open under the root, and 2 under 1. */
  method OpenPair() returns (c: Iocom)
    ensures fresh(c) && c.Valid() && c.late == 0 && c.heap.Keys == {ROOT, 1, 2} && c.answers == (_ => false)
    ensures OpenUnder(c.heap, 1, ROOT, [2]) && OpenUnder(c.heap, 2, 1, [])
  {
    c := new Iocom(_ => false);
    Open(c, ROOT, 1);
    Open(c, 1, 2);
  }

  /** This end's DELETE on a transaction that the peer has not closed. */
  method DeleteFirst(c: Iocom, x: nat)
    requires c.Valid() && x in c.heap && x != ROOT && Idle(c.heap[x]) && !c.heap[x].txd
    requires !c.heap[x].rxd && !c.heap[x].aborting && !c.heap[x].dying
    modifies c`heap
    ensures c.Valid() && x in c.heap && c.heap == old(c.heap)[x := old(c.heap[x]).(txd := true)]
  {
    ghost var h := c.heap;
    c.AllocOn(x);
    c.CleanupTx(x, true);
    FirstClosed(h, x, c.heap);
  }

  lemma FirstClosed(h: Heap, x: nat, g: Heap)
    requires Forest(h) && x in h && x != ROOT && Idle(h[x]) && !h[x].rxd
    requires g == Drop(TxClosed(Sent(Hold(h, x), x), x), x)
    ensures g == h[x := h[x].(txd := true)]
  {
    assert NodeOk(h, x);
  }

  /** The peer's DELETE on a transaction with a child whose owner will not answer. */
  method DeleteReceived(c: Iocom, x: nat, p: nat, d: nat)
    requires c.Valid() && x in c.heap && x != ROOT && c.heap[x].parent == Some(p) && Idle(c.heap[x]) && !c.heap[x].rxd
    requires d in c.heap[x].subq && OpenUnder(c.heap, d, x, []) && !c.answers(d)
    modifies c`heap
    ensures c.Valid() && x in c.heap && c.heap.Keys <= old(c.heap.Keys)
    ensures HalfClosed(c.heap, d, x) && Told(c.heap[d]) && c.heap[d].rb && c.heap[d].subq == []
    ensures old(c.heap[x].txd) ==> c.heap[x].parent.None? && !Anchored(c.heap)
    ensures !old(c.heap[x].txd) ==> HalfClosed(c.heap, x, p)
  {
    c.AllocOn(x);
    c.MsgRx(x, true, true);
    ghost var h := c.heap;
    c.CleanupRx(x, true);
    ReceivedFacts(c.answers, h, c.heap, x, d);
  }

  /** What a DELETE received on x leaves of such a child d. */
  lemma ReceivedFacts(ans: nat -> bool, h: Heap, g: Heap, x: nat, d: nat)
    requires Forest(h) && Forest(g) && x in h && x != ROOT && CleanedRx(ans, h, g, x, true)
    requires d in h[x].subq && OpenUnder(h, d, x, []) && !ans(d)
    requires (h[x].rxd && h[x].txd) || h[x].parent.Some?
    ensures g.Keys <= h.Keys && x in g && HalfClosed(g, d, x) && Told(g[d]) && g[d].rb && g[d].subq == []
    ensures h[x].rxd && h[x].txd ==> g[x].parent.None? && !Anchored(g)
  {
    assert NodeOk(h, x) && NodeOk(h, d) && LawAt(ans, h, g, x, d) && MonoAt(h, g, d);
    assert d in g && g[d].parent == Some(x);
    assert NodeOk(g, d);
    assert d in g[x].subq && Done(g[d]);
    EmptyOrNot(g[d].subq);
    forall y | y in g ensures y in h { assert y != x ==> MonoAt(h, g, y); }
    assert h[x].rxd && h[x].txd ==> !AnchoredAt(g, x);
  }

  // ------------------------------------------------- opened and closed again

  /** Nothing is left of x, and its parent has only lost it. */
  ghost predicate GoneFrom(h: Heap, g: Heap, p: nat, x: nat) {
    && p in h && x !in g && g.Keys <= h.Keys
    && (p in g ==> g[p] == Bereft(h[p], x))
    && (p !in g ==> p != ROOT && h[p].parent.None? && !h[p].rb && h[p].held == 0 && h[p].subq == [x])
    && forall z {:trigger SameAt(h, g, z)} | z != x && z != p :: SameAt(h, g, z)
  }

  lemma DropLast(k: Heap, x: nat, g: Heap)
    requires x in k && x != ROOT && k[x].held == 1 && k[x].refs == 1 && g == Drop(k, x)
    ensures g == k - {x}
  {
  }

  /** A parent goes only with its last child, when nothing else refers to it. */
  lemma ParentGone(h: Heap, x: nat, p: nat, k: Heap)
    requires Forest(h) && x in h && p in h && h[x].parent == Some(p) && h[x].held > 0 && k == Unparent(h, x)
    ensures p !in k ==> p != ROOT && h[p].parent.None? && !h[p].rb && h[p].held == 0 && h[p].subq == [x]
  {
    assert NodeOk(h, x) && NodeOk(h, p);
    RemoveNoDup(h[p].subq, x);
    assert |h[p].subq| == 1 ==> h[p].subq[0] == x;
    EmptyOrNot(Remove(h[p].subq, x));
  }

  /** A state with no children and one holder leaves its list and is let go. */
  lemma LeafGone(h: Heap, x: nat, p: nat, g: Heap)
    requires Forest(h) && x in h && x != ROOT && p in h && h[x].parent == Some(p)
    requires h[x].held == 1 && !h[x].rb && h[x].subq == [] && g == Drop(Unparent(h, x), x)
    ensures GoneFrom(h, g, p, x)
  {
    var k := Unparent(h, x);
    UnparentAt(h, x, p, k);
    ParentGone(h, x, p, k);
    assert NodeOk(h, x);
    DropLast(k, x, g);
    forall z | z != x && z != p ensures SameAt(h, g, z) { }
  }

  /** This end's DELETE last. */
  lemma OwnLast(h: Heap, x: nat, p: nat, t: St, h1: Heap, h2: Heap, g: Heap)
    requires Forest(h) && x in h && x != ROOT && p in h && h[x].parent == Some(p) && h[x].held == 1
    requires SameLinks(h[x], t) && h[x].subq == [] && h1 == h[x := t] && h2 == Unlist(h1, x)
    requires g == Drop(Unparent(h2, x), x)
    ensures GoneFrom(h, g, p, x)
  {
    NotOlder(h, x, p);
    FlagForest(h, x, t);
    UnlistKeeps(h1, x);
    UnlistOwn(h1, x, h2);
    LeafGone(h2, x, p, g);
    forall z | z != x ensures SameAt(h, h2, z) { assert SameAt(h1, h2, z); }
    GoneBefore(h, h2, g, p, x);
  }

  /** The peer's DELETE last. */
  lemma PeerLast(h: Heap, x: nat, p: nat, h1: Heap, g: Heap)
    requires Forest(h) && x in h && x != ROOT && p in h && h[x].parent == Some(p) && h[x].held == 1
    requires h[x].txd && h[x].subq == [] && h1 == Tracked(h, x, true, true) && g == Drop(Unparent(h1, x), x)
    ensures GoneFrom(h, g, p, x)
  {
    NotOlder(h, x, p);
    TrackedFacts(h, x, true, true, h1);
    LeafGone(h1, x, p, g);
    GoneBefore(h, h1, g, p, x);
  }

  lemma GoneBefore(h: Heap, h1: Heap, g: Heap, p: nat, x: nat)
    requires GoneFrom(h1, g, p, x) && p != x && p in h && h1.Keys <= h.Keys
    requires forall z {:trigger SameAt(h, h1, z)} | z != x :: SameAt(h, h1, z)
    ensures GoneFrom(h, g, p, x)
  {
    assert SameAt(h, h1, p);
    forall z | z != x && z != p ensures SameAt(h, g, z) { assert SameAt(h, h1, z) && SameAt(h1, g, z); }
  }

  /** A reply with CREATE and DELETE on a transaction that the peer has closed. */
  method ReplyOnce(c: Iocom, p: nat, x: nat)
    requires c.Valid() && x in c.heap && x != ROOT && p in c.heap && c.heap[x].parent == Some(p)
    requires c.heap[x].held == 0 && c.heap[x].rxd && c.heap[x].subq == []
    modifies c`heap
    ensures c.Valid() && GoneFrom(old(c.heap), c.heap, p, x)
  {
    ghost var h0 := c.heap;
    NotOlder(h0, x, p);
    c.AllocOn(x);
    c.MsgTx(x, true, true);
    ghost var h := c.heap;
    c.CleanupTx(x, true);
    ReplyGone(h, x, p, c.heap);
    GoneBefore(h0, h, c.heap, p, x);
  }

  lemma TxLeaf(h: Heap, x: nat, t: St)
    requires x in h && h[x].rxd && h[x].subq == [] && t == h[x].(inter := false, txc := true, txd := true)
    ensures TxClosed(Sent(h, x), x) == Unparent(Unlist(h[x := t], x), x)
  {
    assert Sent(h, x)[x := Sent(h, x)[x].(txc := true, txd := true)] == h[x := t];
  }

  lemma ReplyGone(h: Heap, x: nat, p: nat, g: Heap)
    requires Forest(h) && x in h && x != ROOT && p in h && h[x].parent == Some(p) && h[x].held == 1
    requires h[x].rxd && h[x].subq == [] && g == Drop(TxClosed(Sent(h, x), x), x)
    ensures GoneFrom(h, g, p, x)
  {
    var t := h[x].(inter := false, txc := true, txd := true);
    TxLeaf(h, x, t);
    OwnLast(h, x, p, t, h[x := t], Unlist(h[x := t], x), g);
  }

  /** The peer's DELETE on a transaction that this end has closed. */
  method DeletedOnce(c: Iocom, p: nat, x: nat)
    requires c.Valid() && x in c.heap && x != ROOT && p in c.heap && c.heap[x].parent == Some(p)
    requires c.heap[x].held == 0 && c.heap[x].txd && !c.heap[x].rxd && !c.heap[x].inter && c.heap[x].subq == []
    modifies c`heap
    ensures c.Valid() && GoneFrom(old(c.heap), c.heap, p, x)
  {
    ghost var h0 := c.heap;
    NotOlder(h0, x, p);
    c.AllocOn(x);
    ghost var h := c.heap;
    c.MsgRx(x, true, true);
    ghost var h1 := c.heap;
    TrackedFacts(h, x, true, true, h1);
    c.CleanupRx(x, true);
    PeerLast(h, x, p, h1, c.heap);
    GoneBefore(h0, h, c.heap, p, x);
  }

  /** A command of one message from the peer, CREATE and DELETE, and the one reply to it:
      all is as before. */
  method OneShotIn(c: Iocom, p: nat, x: nat)
    requires c.Valid() && p in c.heap && (p == ROOT || c.heap[p].rb) && x !in c.heap
    modifies c
    ensures c.Valid() && c.heap == old(c.heap)
  {
    ghost var h0 := c.heap;
    c.RxCreate(p, x, true);
    ghost var h1 := c.heap;
    c.CleanupRx(x, true);
    ghost var h := c.heap;
    ListedIn(h0, p, x, h1, Accepted(old(c.clock), true), h);
    ReplyOnce(c, p, x);
    BackAgain(h0, h, p, x, c.heap);
  }

  lemma ListedIn(h0: Heap, p: nat, x: nat, h1: Heap, s: St, g: Heap)
    requires p in h0 && x !in h0 && h1 == Insert(h0, p, x, s) && !s.txd && g == Drop(Closing(h1, x), x)
    ensures Listed(h0, g, p, x) && g[x].held == 0 && g[x].rxd == s.rxd && g[x].rxc == s.rxc
  {
  }

  /** The tree with x added to p's list. */
  ghost predicate Listed(h0: Heap, h: Heap, p: nat, x: nat) {
    && p in h0 && x !in h0 && h.Keys == h0.Keys + {x} && h[x].parent == Some(p) && h[x].subq == []
    && h[p] == h0[p].(subq := h0[p].subq + [x], refs := h0[p].refs + if h0[p].subq == [] then 1 else 0)
    && forall z | z in h0 && z != p :: h[z] == h0[z]
  }

  lemma {:induction false} RemoveLast(q: seq<nat>, x: nat)
    requires x !in q
    ensures Remove(q + [x], x) == q
  {
    if q != [] {
      assert (q + [x])[1..] == q[1..] + [x];
      RemoveLast(q[1..], x);
    } else {
      assert (q + [x])[1..] == [];
    }
  }

  /** A leaf put on a list and taken off again. */
  lemma BackAgain(h0: Heap, h: Heap, p: nat, x: nat, g: Heap)
    requires Forest(h0) && Listed(h0, h, p, x) && GoneFrom(h, g, p, x)
    ensures g == h0
  {
    assert NodeOk(h0, p);
    assert x !in h0[p].subq;
    RemoveLast(h0[p].subq, x);
    assert p in g;
    assert g[p] == h0[p];
    forall z | z in h0 ensures z in g && g[z] == h0[z] { assert z != p ==> SameAt(h, g, z); }
    assert g.Keys == h0.Keys;
  }

  /** A command of one message from this end, and the one reply to it: the same. */
  method OneShotOut(c: Iocom, p: nat, x: nat)
    requires c.Valid() && p in c.heap && !c.heap[p].dying && x !in c.heap && x != ROOT
    modifies c
    ensures c.Valid() && c.heap == old(c.heap)
  {
    ghost var h0 := c.heap;
    c.Alloc(p, x);
    ghost var h1 := c.heap;
    c.MsgTx(x, true, false);
    c.CleanupTx(x, true);
    ghost var h := c.heap;
    ListedOut(h0, p, x, h1, Opened(old(c.clock), false), h);
    DeletedOnce(c, p, x);
    BackAgain(h0, h, p, x, c.heap);
  }

  lemma ListedOut(h0: Heap, p: nat, x: nat, h1: Heap, s: St, g: Heap)
    requires p in h0 && x !in h0 && s == Opened(s.born, false) && h1 == Insert(h0, p, x, s)
    requires g == Drop(TxClosed(Sent(h1[x := Sending(h1[x], true, false)], x), x), x)
    ensures Listed(h0, g, p, x) && g[x].held == 0 && g[x].txd && !g[x].rxd && !g[x].inter
  {
  }

  // ------------------------------------------------------- closed by both ends

  /** Closed by the peer last: 1 is off the root's list, with 2 below it. */
  method OrphanRun() returns (c: Iocom)
    ensures c.Valid() && c.late == 0 && 1 in c.heap && c.heap[1].parent.None?
    ensures 2 in c.heap && c.heap[2].parent == Some(1) && !Anchored(c.heap)
  {
    c := OpenPair();
    DeleteFirst(c, 1);
    DeleteReceived(c, 1, ROOT, 2);
  }

  lemma OnlyChild(h: Heap)
    requires Forest(h) && h.Keys <= {ROOT, 1, 2}
    requires 1 in h && h[1].parent == Some(ROOT) && 2 in h && h[2].parent == Some(1)
    ensures h[1].subq == [2]
  {
    assert NodeOk(h, 1) && NodeOk(h, 2);
    var q := h[1].subq;
    forall i | 0 <= i < |q| ensures q[i] == 2 { assert q[i] in q && q[i] in h.Keys; }
    OneOf(q);
  }

  lemma OneOf(q: seq<nat>)
    requires 2 in q && forall i | 0 <= i < |q| :: q[i] == 2
    ensures NoDup(q) ==> q == [2]
  {
    if |q| > 1 { assert q[0] == q[1]; }
  }

  /** This end's DELETE on a transaction that the peer has closed and that has children:
      nothing else changes, and it lingers. */
  method DeleteSecond(c: Iocom, x: nat, p: nat)
    requires c.Valid() && x != ROOT && HalfClosed(c.heap, x, p) && c.heap[x].subq != []
    modifies c`heap
    ensures c.Valid() && Lingering(c.heap, x) && c.heap[x].subq == old(c.heap[x].subq)
    ensures c.heap[x].aborting == old(c.heap[x].aborting) && !c.heap[x].young && c.heap[x].parent == Some(p)
    ensures forall z {:trigger SameAt(old(c.heap), c.heap, z)} | z != x :: SameAt(old(c.heap), c.heap, z)
  {
    ghost var h0 := c.heap;
    c.AllocOn(x);
    ghost var h := c.heap;
    c.CleanupTx(x, true);
    ClosedOwn(h0, h, x, c.heap);
  }

  lemma ClosedOwn(h0: Heap, h: Heap, x: nat, g: Heap)
    requires Forest(h) && x in h0 && h == Hold(h0, x) && x != ROOT && h[x].rxd && !h[x].txd && h[x].parent.Some?
    requires h[x].subq != [] && g == Drop(TxClosed(Sent(h, x), x), x)
    ensures Lingering(g, x) && g[x].subq == h0[x].subq && g[x].parent == h0[x].parent
    ensures g[x].aborting == h0[x].aborting && g[x].young == h0[x].young
    ensures forall z {:trigger SameAt(h0, g, z)} | z != x :: SameAt(h0, g, z)
  {
    FlagForest(h, x, Sent(h, x)[x]);
    TxClosedLingers(Sent(h, x), x);
  }

  /** And on a last child, which has waited for its owner since it was told. */
  method DeleteChild(c: Iocom, d: nat, p: nat)
    requires c.Valid() && Lingering(c.heap, p) && c.heap[p].subq == [d] && d != ROOT
    requires HalfClosed(c.heap, d, p) && c.heap[d].subq == []
    modifies c`heap
    ensures c.Valid() && Stranded(c.heap, p)
  {
    c.AllocOn(d);
    ghost var h := c.heap;
    c.CleanupTx(d, true);
    FlagForest(h, d, Sent(h, d)[d]);
    TxClosedStrands(Sent(h, d), d, p);
  }

  /** Closed by this end last: 1 is closed both ways and on the root's list, and is so
      when its last child has gone and the connection with it. */
  method StrandRun() returns (c: Iocom)
    ensures c.Valid() && c.late == 0 && Stranded(c.heap, 1)
  {
    c := OpenPair();
    DeleteReceived(c, 1, ROOT, 2);
    ghost var h := c.heap;
    OnlyChild(h);
    DeleteSecond(c, 1, ROOT);
    assert SameAt(h, c.heap, 2);
    DeleteChild(c, 2, 1);
    c.Teardown();
  }

  // -------------------------------------------- opened under a told state

  /** Open and untold, under a state that has been told. */
  ghost predicate Untold(h: Heap, p: nat, x: nat) {
    && p in h && Told(h[p]) && x in h[p].subq && x in h && x != ROOT && h[x].rb && h[x].held == 0
    && !h[x].aborting && !h[x].dying && !h[x].rxd && !h[x].young && !h[x].inter
  }

  /** A transaction that the peer opens under a state that has been told is not told of
      the failure, at the end of the link or ever after: in any connection, and however
      often all below the root is failed. */
  method LateCreate(c: Iocom, p: nat, x: nat, n: nat)
    requires c.Valid() && p in c.heap && Told(c.heap[p]) && c.heap[p].rb && x !in c.heap
    modifies c
    ensures c.Valid() && c.late > 0 && Untold(c.heap, p, x) && !AllSettled(c.heap)
  {
    OpenUnderTold(c, p, x);
    TeardownAgain(c, p, x, n);
    assert !SettledAt(c.heap, p);
  }

  lemma LateFacts(h: Heap, p: nat, x: nat, g: Heap)
    requires Forest(h) && p in h && Told(h[p]) && x in h && x != ROOT && p != x && x in h[p].subq && h[x].rb
    requires h[x].held == 1 && !h[x].txd && g == Drop(Closing(h, x), x)
    requires !h[x].aborting && !h[x].dying && !h[x].rxd && !h[x].young && !h[x].inter
    ensures Untold(g, p, x)
  {
    assert NodeOk(h, x);
  }

  /** All below the root failed n times. */
  method TeardownAgain(c: Iocom, p: nat, x: nat, n: nat)
    requires c.Valid() && Untold(c.heap, p, x)
    modifies c`heap
    ensures c.Valid() && Untold(c.heap, p, x) && LingerOn(old(c.heap), c.heap, ROOT)
  {
    for i := 0 to n
      invariant c.Valid() && Untold(c.heap, p, x) && LingerOn(old(c.heap), c.heap, ROOT)
    {
      ghost var h := c.heap;
      c.Teardown();
      BelowTold(c.answers, h, c.heap, ROOT, p, x);
    }
  }

  /** 1 closed by the peer, 2 told, and 3 opened by the peer under 2. */
  method OpenLate() returns (c: Iocom)
    ensures fresh(c) && c.Valid() && c.late == 1 && Untold(c.heap, 2, 3)
    ensures HalfClosed(c.heap, 1, ROOT) && c.heap[1].subq == [2] && HalfClosed(c.heap, 2, 1)
  {
    c := OpenPair();
    DeleteReceived(c, 1, ROOT, 2);
    ghost var h := c.heap;
    OnlyChild(h);
    OpenUnderTold(c, 2, 3);
    assert SameAt(h, c.heap, 1);
  }

  /** The peer opens x under p, and the message lets go. */
  method OpenUnderTold(c: Iocom, p: nat, x: nat)
    requires c.Valid() && p in c.heap && Told(c.heap[p]) && c.heap[p].rb && x !in c.heap
    modifies c
    ensures c.Valid() && c.late == old(c.late) + 1 && Untold(c.heap, p, x)
    ensures SameBut(old(c.heap[p]), c.heap[p])
    ensures forall z {:trigger SameAt(old(c.heap), c.heap, z)} | z != x && z != p :: SameAt(old(c.heap), c.heap, z)
  {
    ghost var h0 := c.heap;
    c.RxCreate(p, x, false);
    ghost var h := c.heap;
    c.CleanupRx(x, false);
    LateFacts(h, p, x, c.heap);
    forall z | z in h0 ensures z in c.heap && c.heap[z] == h[z] { LateRest(h, x, c.heap, z); }
  }

  lemma LateRest(h: Heap, x: nat, g: Heap, z: nat)
    requires x in h && h[x].held == 1 && !h[x].rxd && g == Drop(Closing(h, x), x) && z in h && z != x
    ensures z in g && g[z] == h[z]
  {
  }

  lemma UntoldBelow(h: Heap)
    requires Forest(h) && Lingering(h, 1) && h[1].parent == Some(ROOT) && Lingering(h, 2) && h[2].parent == Some(1)
    requires Untold(h, 2, 3)
    ensures !ToldBelow(h, ROOT)
  {
    assert NodeOk(h, 1) && NodeOk(h, 2);
    assert Path(h, [ROOT]);
    PathExtend(h, [ROOT], 1);
    PathExtend(h, [ROOT] + [1], 2);
    var q := [ROOT] + [1] + [2];
    ToldBelowIff(h, ROOT);
    assert q[0] == ROOT && q[|q| - 1] == 2 && Path(h, q) && !SettledAt(h, 2);
  }

  /** Then 1 and 2 are closed by this end too, and all below the root is failed any
      number of times: 3 is open still, and in its lookup tree. */
  method LateRun(n: nat) returns (c: Iocom)
    ensures c.Valid() && c.late == 1 && Lingering(c.heap, 1) && Lingering(c.heap, 2) && Untold(c.heap, 2, 3)
    ensures !ToldBelow(c.heap, ROOT)
  {
    c := OpenLate();
    ghost var h := c.heap;
    DeleteSecond(c, 1, ROOT);
    assert SameAt(h, c.heap, 2) && SameAt(h, c.heap, 3);
    ghost var h1 := c.heap;
    DeleteSecond(c, 2, 1);
    assert SameAt(h1, c.heap, 1) && SameAt(h1, c.heap, 3);
    TeardownAgain(c, 2, 3, n);
    UntoldBelow(c.heap);
  }
}
