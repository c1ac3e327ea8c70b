/**
What failing a subtree comes to: which children of a state leave its list and which
stay, and that what is below a told state has been told.
*/
module DmsgFailure {
  import opened Base
  import opened DmsgStates
  import opened DmsgTeardown

  /** Closed both ways and out of the lookup tree, yet still on its parent's list. */
  predicate Lingering(h: Heap, z: nat) {
    z in h && z != ROOT && h[z].txd && h[z].rxd && !h[z].rb && h[z].parent.Some?
  }

  /** Lingering with nothing left to wait for. */
  predicate Stranded(h: Heap, z: nat) {
    Lingering(h, z) && h[z].subq == []
  }

  // ------------------------------------------------------- failing children

  lemma GrowsFewer(h: Heap, g: Heap)
    requires Grows(h, g)
    ensures NotAborting(g) <= NotAborting(h)
  {
    forall y | y in NotAborting(g) ensures y in NotAborting(h) { assert MonoAt(h, g, y); }
  }

  /** The first n children have been failed. */
  ghost predicate FirstFailed(h: Heap, x: nat, n: int)
    requires x in h
  {
    && 0 <= n <= |h[x].subq|
    && forall j | 0 <= j < n :: h[x].subq[j] in h && h[h[x].subq[j]].aborting
  }

  ghost predicate ChildrenFailed(h: Heap, x: nat) {
    x in h ==> forall c | c in h[x].subq :: c in h && h[c].aborting
  }

  lemma FirstFailedStays(h: Heap, g: Heap, x: nat, n: nat)
    requires x in h && x in g && FirstFailed(h, x, n) && Grows(h, g) && Forest(g) && g[x].subq == h[x].subq
    ensures FirstFailed(g, x, n)
  {
    assert NodeOk(g, x);
    forall j | 0 <= j < n ensures g[x].subq[j] in g && g[g[x].subq[j]].aborting { assert MonoAt(h, g, g[x].subq[j]); }
  }

  lemma FirstFailedNext(h: Heap, x: nat, n: nat)
    requires x in h && n < |h[x].subq| && FirstFailed(h, x, n) && h[x].subq[n] in h && h[h[x].subq[n]].aborting
    ensures FirstFailed(h, x, n + 1)
  {
  }

  lemma AllFirstFailed(h: Heap, x: nat)
    requires x in h && FirstFailed(h, x, |h[x].subq|)
    ensures ChildrenFailed(h, x)
  {
    forall c | c in h[x].subq ensures c in h && h[c].aborting {
      var j :| 0 <= j < |h[x].subq| && h[x].subq[j] == c;
    }
  }

  /** A step of the scan of x's children: x itself is as it was but for its list. */
  ghost predicate Scanned(ans: nat -> bool, h: Heap, g: Heap, x: nat) {
    Step(ans, h, g, x) && x in g && SameBut(h[x], g[x]) && SaneAt(g, x) && g[x].held > 0
  }

  lemma ScannedTrans(ans: nat -> bool, h: Heap, g: Heap, k: Heap, x: nat)
    requires Ready(h, x) && Scanned(ans, h, g, x) && Step(ans, g, k, x) && x in k && SameBut(g[x], k[x])
    ensures Scanned(ans, h, k, x)
  {
    StepTrans(ans, h, g, k, x);
  }

  lemma StepFailed(ans: nat -> bool, h: Heap, g: Heap, x: nat)
    requires Step(ans, h, g, x) && x in g
    ensures ChildrenFailed(h, x) ==> ChildrenFailed(g, x)
  {
    assert MonoAt(h, g, x) && NodeOk(g, x);
    forall c | c in g[x].subq && ChildrenFailed(h, x) ensures c in g && g[c].aborting { assert MonoAt(h, g, c); }
  }

  /** A child that is not hit is on the list as it was. */
  lemma ChildStays(ans: nat -> bool, h: Heap, g: Heap, x: nat, c: nat)
    requires Ready(h, x) && Step(ans, h, g, x) && x in g && c in h[x].subq
    ensures c in h && c != x && LawAt(ans, h, g, x, c) && h[x].parent != Some(c)
    ensures !Hit(h, g, c) ==> c in g && c in g[x].subq && g[c].aborting == h[c].aborting
  {
    assert NodeOk(h, x) && NodeOk(h, c);
    assert LawAt(ans, h, g, x, c);
    if !Hit(h, g, c) { assert NodeOk(g, c); }
  }

  /** Once all that are left have been failed, all there were have been. */
  lemma ScanReached(ans: nat -> bool, h: Heap, g: Heap, x: nat)
    requires Ready(h, x) && Step(ans, h, g, x) && x in g && ChildrenFailed(g, x)
    ensures AllReached(h, g, h[x].subq)
  {
    forall c | c in h[x].subq ensures Reached(h, g, c) { ChildStays(ans, h, g, x, c); }
  }

  /** The children left on the list are exactly those that do not leave when failed. */
  ghost predicate LeftBy(ans: nat -> bool, h: Heap, g: Heap, x: nat)
    requires x in h && x in g
  {
    forall c :: c in g[x].subq <==> c in h[x].subq && c in h && !Leaves(ans, h[c], c)
  }

  lemma LeftExact(ans: nat -> bool, h: Heap, g: Heap, x: nat)
    requires Ready(h, x) && Step(ans, h, g, x) && x in g && AllReached(h, g, h[x].subq)
    ensures LeftBy(ans, h, g, x)
  {
    assert MonoAt(h, g, x);
    forall c ensures c in g[x].subq <==> c in h[x].subq && c in h && !Leaves(ans, h[c], c) {
      if c in h[x].subq {
        ChildStays(ans, h, g, x, c);
        assert Reached(h, g, c);
        LeftOne(ans, h, g, x, c);
      }
    }
  }

  lemma LeftOne(ans: nat -> bool, h: Heap, g: Heap, x: nat, c: nat)
    requires Forest(h) && Forest(g) && x in h && x in g && c in h && c in h[x].subq
    requires Hit(h, g, c) ==> HitAt(ans, h, g, x, c)
    requires !Hit(h, g, c) ==> c in g[x].subq && h[c].aborting
    ensures c in g[x].subq <==> !Leaves(ans, h[c], c)
  {
    assert NodeOk(h, x) && NodeOk(g, x);
    if c in g { assert NodeOk(g, c); }
  }

  lemma EmptyOrNot(q: seq<nat>)
    ensures q == [] || exists c :: c in q
  {
    if q != [] { assert q[0] in q; }
  }

  /** So the list is empty afterwards exactly when every child was to leave. */
  lemma EmptiedIff(ans: nat -> bool, h: Heap, g: Heap, x: nat)
    requires Forest(h) && x in h && x in g && LeftBy(ans, h, g, x)
    ensures g[x].subq == [] <==> forall c | c in h[x].subq :: c in h && Leaves(ans, h[c], c)
  {
    assert NodeOk(h, x);
    EmptyOrNot(g[x].subq);
  }

  ghost predicate ChildrenDone(h: Heap, x: nat) {
    x in h ==> forall c | c in h[x].subq :: c in h && Done(h[c])
  }

  lemma FailedDone(h: Heap, x: nat)
    requires ChildrenFailed(h, x) && SaneBut(h, x) && Forest(h)
    ensures ChildrenDone(h, x)
  {
    if x in h {
      assert NodeOk(h, x);
      forall c | c in h[x].subq ensures c in h && Done(h[c]) { assert NodeOk(h, c) && SaneAt(h, c); }
    }
  }

  // ------------------------------------------------------------ letting go

  /** What letting go of a state leaves of it. */
  lemma DropAt(h: Heap, x: nat, g: Heap)
    requires Forest(h) && x in h && h[x].held > 0 && g == Drop(h, x)
    ensures x in g ==> LetGo(h[x], g[x]) && g[x].subq == h[x].subq
    ensures h[x].parent.Some? || h[x].held > 1 ==> x in g
    ensures Like(h, g, x) && (x !in g ==> h[x].parent.None?)
  {
    assert NodeOk(h, x);
  }

  lemma DropFailed(h: Heap, x: nat, g: Heap)
    requires Forest(h) && x in h && h[x].held > 0 && g == Drop(h, x) && ChildrenFailed(h, x)
    ensures ChildrenFailed(g, x)
  {
    assert NodeOk(h, x);
  }

  /** The end of a failure: the children as the scan left them, seen from outside. */
  lemma FailureEnds(ans: nat -> bool, h0: Heap, h1: Heap, g: Heap, x: nat, k: Heap)
    requires Ready(h0, x) && h1 == Hold(h0, x) && Step(ans, h1, g, x) && x in g && ChildrenFailed(g, x)
    requires k == Drop(g, x)
    ensures g[x].held == h0[x].held + 1 && Step(ans, h0, k, x) && ChildrenFailed(k, x)
    ensures AllReached(h0, k, h0[x].subq)
    ensures h0[x].held > 0 || g[x].parent.Some? ==> x in k
    ensures x in k ==> LetGo(g[x], k[x])
  {
    HoldReady(h0, x, h1);
    HoldDrop(ans, h0, h1, g, x, k);
    DropFailed(g, x, k);
    DropAt(g, x, k);
    ScanReached(ans, h1, g, x);
    LikeReached(h0, h1, g, x, k);
  }

  lemma LikeReached(h0: Heap, h1: Heap, g: Heap, x: nat, k: Heap)
    requires Forest(h0) && x in h0 && x in g && h1 == Hold(h0, x) && Like(g, k, x) && AllReached(h1, g, h1[x].subq)
    ensures AllReached(h0, k, h0[x].subq)
  {
    assert NodeOk(h0, x);
    forall c | c in h0[x].subq ensures Reached(h0, k, c) {
      assert Reached(h1, g, c) && NodeOk(h0, c) && SameAt(g, k, c);
    }
  }

  // ------------------------------------------------------ this end's DELETE

  /** A state closed both ways leaves the lookup tree, and its parent's list too unless
      it has children. */
  function TxClosed(h: Heap, x: nat): Heap
    requires x in h
  {
    var h1 := h[x := h[x].(txc := true, txd := true)];
    if !h[x].rxd then h1
    else if h[x].subq == [] then Unparent(Unlist(h1, x), x)
    else Unlist(h1, x)
  }

  /** The same but for txc, txd and what hangs on them. */
  ghost predicate SentDelete(s: St, t: St) {
    && t.held == s.held && t.inter == s.inter && t.dying == s.dying && t.aborting == s.aborting && t.young == s.young
    && t.rxd == s.rxd && t.txd && t.subq == s.subq && (t.rxd ==> !t.rb) && (!t.rxd ==> t.parent == s.parent)
  }

  lemma TxClosedBoth(ans: nat -> bool, h1: Heap, x: nat, h2: Heap, g: Heap)
    requires Ready(h1, x) && h1[x].held > 0 && h1[x].txd && h1[x].rxd && h2 == Unlist(h1, x)
    requires g == if h1[x].subq == [] then Unparent(h2, x) else h2
    ensures Step(ans, h1, g, x) && x in g && SentDelete(h1[x], g[x])
  {
    UnlistStep(ans, h1, x, h2);
    if h1[x].subq == [] {
      UnparentStep(ans, h2, x, g);
      StepTrans(ans, h1, h2, g, x);
    }
  }

  lemma TxClosedStep(ans: nat -> bool, h: Heap, x: nat, g: Heap)
    requires Ready(h, x) && h[x].held > 0 && g == TxClosed(h, x)
    ensures Step(ans, h, g, x) && x in g && SentDelete(h[x], g[x])
  {
    var h1 := h[x := h[x].(txc := true, txd := true)];
    FlagStep(ans, h, x, h1[x], h1);
    if h[x].rxd {
      TxClosedBoth(ans, h1, x, Unlist(h1, x), g);
      StepTrans(ans, h, h1, g, x);
    }
  }

  /** A state closed both ways leaves its parent's list. */
  function Closing(h: Heap, x: nat): Heap
    requires x in h
  {
    if h[x].rxd && h[x].txd then Unparent(h, x) else h
  }

  lemma ClosingStep(ans: nat -> bool, h: Heap, x: nat, g: Heap)
    requires Ready(h, x) && h[x].held > 0 && g == Closing(h, x)
    ensures Step(ans, h, g, x) && x in g && SameFlags(h[x], g[x]) && g[x].rb == h[x].rb && g[x].subq == h[x].subq
    ensures g[x].parent == if h[x].rxd && h[x].txd then None else h[x].parent
  {
    if h[x].rxd && h[x].txd { UnparentStep(ans, h, x, g); } else { StepRefl(ans, h, x); }
  }

  // ----------------------------------------------------- told all the way down

  /** All children of a told state have been told or are due. */
  ghost predicate SettledAt(h: Heap, y: nat) {
    y in h && Told(h[y]) ==> forall c | c in h[y].subq :: c in h && Done(h[c])
  }

  ghost predicate AllSettled(h: Heap) {
    forall y {:trigger SettledAt(h, y)} :: SettledAt(h, y)
  }

  lemma DoneMono(s: St, t: St)
    requires Mono(s, t)
    ensures (Told(s) ==> Told(t)) && (Done(s) ==> Done(t))
  {
  }

  lemma SettledOne(ans: nat -> bool, h: Heap, g: Heap, x: nat, y: nat)
    requires Forest(h) && Forest(g) && x in h && Laws(ans, h, g, x) && GrowsBut(h, g, x) && AllSane(g)
    requires SettledAt(h, y) && y != x && (x in g && Done(h[x]) ==> Done(g[x]))
    ensures SettledAt(g, y)
  {
    if y in g && Told(g[y]) {
      assert MonoAt(h, g, y) && LawAt(ans, h, g, x, y) && NodeOk(g, y) && NodeOk(h, y);
      BereftSame(h[y], x);
      forall c | c in g[y].subq ensures c in g && Done(g[c]) {
        assert SaneAt(g, c) && c in h[y].subq;
        if c != x {
          assert MonoAt(h, g, c);
          if Hit(h, g, y) && h[x].parent != Some(y) { assert Reached(h, g, c); } else { DoneMono(h[c], g[c]); }
        }
      }
    }
  }

  /** A step on x leaves the tree settled if it leaves x so. */
  lemma SettledKept(ans: nat -> bool, h: Heap, g: Heap, x: nat)
    requires Forest(h) && Forest(g) && x in h && Laws(ans, h, g, x) && GrowsBut(h, g, x) && AllSane(g)
    requires AllSettled(h) && SettledAt(g, x) && (x in g && Done(h[x]) ==> Done(g[x]))
    ensures AllSettled(g)
  {
    forall y ensures SettledAt(g, y) {
      if y != x {
        assert SettledAt(h, y);
        SettledOne(ans, h, g, x, y);
      }
    }
  }

  /** What is below a told state is beyond the reach of a step on any other state but
      itself. */
  lemma BelowTold(ans: nat -> bool, h: Heap, g: Heap, x: nat, y: nat, c: nat)
    requires Forest(h) && Forest(g) && x in h && AllSane(h) && Laws(ans, h, g, x)
    requires y in h && Told(h[y]) && c in h[y].subq && y != x && c != x
    ensures c in h && c in g && SameBut(h[c], g[c]) && y in g && c in g[y].subq && Told(g[y])
  {
    assert NodeOk(h, y) && NodeOk(h, c) && SaneAt(h, y);
    assert LawAt(ans, h, g, x, c) && LawAt(ans, h, g, x, y);
    BereftSame(h[c], x);
    BereftSame(h[y], x);
    assert NodeOk(g, c);
  }

  /** A new state leaves the tree settled exactly when it is told itself, or its parent
      is not. */
  lemma InsertSettledIff(h: Heap, p: nat, x: nat, s: St, g: Heap)
    requires Forest(h) && AllSettled(h) && p in h && x !in h && !s.aborting && g == Insert(h, p, x, s)
    ensures AllSettled(g) <==> (Told(h[p]) ==> Done(s))
  {
    assert x in g[p].subq && Told(g[p]) == Told(h[p]) && Done(g[x]) == Done(s);
    assert AllSettled(g) ==> SettledAt(g, p);
    if Told(h[p]) ==> Done(s) {
      forall y ensures SettledAt(g, y) {
        assert SettledAt(h, y);
        if y in h { assert NodeOk(h, y); }
      }
    }
  }

  /** A change to one state alone that does not un-tell it. */
  lemma SettledOwn(h: Heap, g: Heap, x: nat)
    requires Forest(h) && AllSettled(h) && x in h && g.Keys <= h.Keys
    requires forall z {:trigger SameAt(h, g, z)} | z != x :: SameAt(h, g, z)
    requires if x in g then g[x].subq == h[x].subq && (Told(g[x]) ==> Told(h[x])) && (Done(h[x]) ==> Done(g[x]))
             else h[x].parent.None?
    ensures AllSettled(g)
  {
    forall y ensures SettledAt(g, y) {
      assert SettledAt(h, y);
      if y in g {
        assert NodeOk(h, y) && (y != x ==> SameAt(h, g, y));
        forall c | c in g[y].subq && Told(g[y]) ensures c in g && Done(g[c]) {
          assert c in h[y].subq && (c != x ==> SameAt(h, g, c));
        }
      }
    }
  }

  lemma SaneOwn(h: Heap, g: Heap, x: nat)
    requires AllSane(h) && g.Keys <= h.Keys + {x} && SaneAt(g, x)
    requires forall z {:trigger SameAt(h, g, z)} | z != x :: SameAt(h, g, z)
    ensures AllSane(g)
  {
    forall z ensures SaneAt(g, z) { assert z != x ==> SaneAt(h, z) && SameAt(h, g, z); }
  }

  // ---------------------------------------------------- the entry points

  ghost predicate BornBefore(h: Heap, n: nat) {
    forall y | y in h :: h[y].born < n
  }

  lemma GrowsBefore(h: Heap, g: Heap, x: nat, n: nat)
    requires GrowsBut(h, g, x) && BornBefore(h, n) && (x in g ==> x in h && g[x].born == h[x].born)
    ensures BornBefore(g, n)
  {
    forall y | y in g ensures g[y].born < n { assert y != x ==> MonoAt(h, g, y); }
  }

  /** A state for a transaction this end opens. */
  function Opened(born: nat, dying: bool): St {
    St(born, None, [], 0, false, 0, false, false, false, false, false, dying, true, false)
  }

  /** A state for a transaction the peer has opened. */
  function Accepted(born: nat, del: bool): St {
    St(born, None, [], 0, false, 0, false, false, true, del, false, false, false, false)
  }

  /** A state once a message with CREATE, or with DELETE alone, is being sent on it. */
  function Sending(s: St, create: bool, reply: bool): St {
    var t := if create then s.(txc := true, txd := false, inter := true) else s.(inter := true);
    if reply || !create then t else t.(rxc := false, rxd := false, young := false)
  }

  /** The state is interlocked; a CREATE opens its own direction, and a command's CREATE
      has nothing received yet. */
  ghost predicate Sends(s: St, t: St, create: bool, reply: bool) {
    && t.inter && t.txc == (create || s.txc) && t.txd == (!create && s.txd)
    && t.rxc == (s.rxc && (reply || !create)) && t.rxd == (s.rxd && (reply || !create))
    && t.young == (s.young && (reply || !create))
  }

  lemma SendingFlags(s: St, create: bool, reply: bool, t: St)
    requires t == Sending(s, create, reply) && Sane(s) && (create && !reply ==> s.young)
    ensures Sends(s, t, create, reply) && SameLinks(s, t) && t.born == s.born
    ensures Sane(t) && (Told(t) ==> Told(s)) && (Done(s) ==> Done(t))
  {
  }

  /** Tracking a message that is sent keeps what every entry point keeps. */
  lemma SendingOk(h: Heap, x: nat, create: bool, reply: bool, t: St, g: Heap, n: nat)
    requires Forest(h) && AllSane(h) && BornBefore(h, n) && x in h && x != ROOT && (create && !reply ==> h[x].young)
    requires t == Sending(h[x], create, reply) && g == h[x := t]
    ensures Forest(g) && AllSane(g) && BornBefore(g, n) && g[ROOT] == h[ROOT]
    ensures Sends(h[x], t, create, reply) && LingerOn(h, g, x) && (AllSettled(h) ==> AllSettled(g))
  {
    assert SaneAt(h, x);
    SendingFlags(h[x], create, reply, t);
    FlagForest(h, x, t);
    SaneOwn(h, g, x);
    if AllSettled(h) { SettledOwn(h, g, x); }
  }

  function Hears(s: St, create: bool, del: bool): St {
    s.(rxc := s.rxc || create, rxd := s.rxd || del)
  }

  function Tracked(h: Heap, x: nat, create: bool, del: bool): Heap
    requires x in h
  {
    var g := h[x := Hears(h[x], create, del)];
    if del && h[x].txd then Unlist(g, x) else g
  }

  /** The same but for what has been received. */
  ghost predicate Heard(s: St, t: St, del: bool) {
    && t.born == s.born && t.subq == s.subq && t.parent == s.parent && t.rxd == (s.rxd || del)
    && t.held == s.held && t.inter == s.inter && t.dying == s.dying && t.aborting == s.aborting && t.young == s.young
    && t.txc == s.txc && t.txd == s.txd
  }

  lemma HeardFlags(h: Heap, h1: Heap, x: nat, g: Heap, t: St, del: bool)
    requires Forest(h) && x in h && h[x].held > 0 && h1 == h[x := t] && g == Unlist(h1, x)
    requires SameLinks(h[x], t) && Heard(h[x], t, del)
    ensures Forest(h1) && Forest(g) && x in g && g.Keys <= h.Keys && Heard(h[x], g[x], del) && !g[x].rb
    ensures forall z {:trigger SameAt(h, g, z)} | z != x :: SameAt(h, g, z)
  {
    FlagForest(h, x, t);
    UnlistKeeps(h1, x);
    UnlistOwn(h1, x, g);
    forall z | z != x ensures SameAt(h, g, z) { assert SameAt(h1, g, z); }
  }

  lemma TrackedFacts(h: Heap, x: nat, create: bool, del: bool, g: Heap)
    requires Forest(h) && x in h && h[x].held > 0 && g == Tracked(h, x, create, del)
    ensures Forest(g) && x in g && g.Keys <= h.Keys && Heard(h[x], g[x], del)
    ensures forall z {:trigger SameAt(h, g, z)} | z != x :: SameAt(h, g, z)
    ensures (g[x].rb ==> h[x].rb) && (del && h[x].txd ==> !g[x].rb)
  {
    var t := Hears(h[x], create, del);
    HearsFlags(h[x], create, del, t);
    if del && h[x].txd { HeardFlags(h, h[x := t], x, g, t, del); } else { FlagForest(h, x, t); }
  }

  lemma HearsFlags(s: St, create: bool, del: bool, t: St)
    requires t == Hears(s, create, del)
    ensures SameLinks(s, t) && Heard(s, t, del)
  {
  }

  /** Tracking a received message keeps what every entry point keeps. */
  lemma TrackedOk(h: Heap, x: nat, create: bool, del: bool, g: Heap, n: nat)
    requires Forest(h) && AllSane(h) && BornBefore(h, n) && x in h && h[x].held > 0 && !h[x].inter
    requires (del ==> !h[x].rxd) && g == Tracked(h, x, create, del)
    ensures Forest(g) && AllSane(g) && BornBefore(g, n) && x in g && Heard(h[x], g[x], del)
    ensures ROOT in g && (x != ROOT ==> g[ROOT] == h[ROOT])
    ensures LingerOn(h, g, x) && (Lingering(h, x) ==> Lingering(g, x))
    ensures AllSettled(h) ==> AllSettled(g)
  {
    TrackedFacts(h, x, create, del, g);
    HeardOwn(h, g, x, del, n);
    assert SaneAt(h, x) && (x != ROOT ==> SameAt(h, g, ROOT));
    SaneOwn(h, g, x);
    if AllSettled(h) { SettledOwn(h, g, x); }
  }

  /** A message has been sent. */
  function Sent(h: Heap, x: nat): Heap
    requires x in h
  {
    h[x := h[x].(inter := false)]
  }

  /** An abort waits for this message. */
  predicate Deferred(h: Heap, x: nat)
    requires x in h
  {
    (h[x].aborting || h[x].dying) && !h[x].rxd
  }

  /** What lingers lingers on, each on its own list. */
  ghost predicate LingerOn(h: Heap, g: Heap, x: nat) {
    forall z {:trigger Lingering(g, z)} | z != x && Lingering(h, z) :: Lingering(g, z) && g[z].parent == h[z].parent
  }

  /** A closed state does not leave its list by the failure of any other. */
  lemma LingersOn(ans: nat -> bool, h: Heap, g: Heap, x: nat)
    requires Forest(h) && x in h && Laws(ans, h, g, x) && GrowsBut(h, g, x)
    ensures LingerOn(h, g, x)
  {
    forall z | z != x && Lingering(h, z) ensures Lingering(g, z) && g[z].parent == h[z].parent {
      assert LawAt(ans, h, g, x, z) && MonoAt(h, g, z) && NodeOk(h, z);
      BereftSame(h[z], x);
    }
  }

  /** A step on x, and then x let go. */
  lemma Released(ans: nat -> bool, h: Heap, g: Heap, x: nat, k: Heap)
    requires Forest(h) && x in h && Laws(ans, h, g, x) && GrowsBut(h, g, x) && Forest(g) && AllSane(g)
    requires x in g && g[x].held > 0 && g[x].born == h[x].born && k == Drop(g, x)
    ensures Forest(k) && Laws(ans, h, k, x) && GrowsBut(h, k, x) && AllSane(k) && LingerOn(h, k, x)
    ensures k.Keys <= g.Keys && (x in k ==> k[x].born == h[x].born)
  {
    DropKeeps(g, x);
    DropAt(g, x, k);
    LawsAbout(ans, h, h, g, k, x);
    forall z | z != x ensures MonoAt(h, k, z) { assert MonoAt(h, g, z) && SameAt(g, k, z); }
    assert SaneAt(g, x);
    SaneOwn(g, k, x);
    LingersOn(ans, h, k, x);
  }

  lemma SettledTop(ans: nat -> bool, h: Heap, g: Heap, x: nat)
    requires Step(ans, h, g, x) && x in g && SettledAt(h, x)
    requires ChildrenFailed(g, x) || (Told(g[x]) ==> Told(h[x]))
    ensures SettledAt(g, x)
  {
    assert MonoAt(h, g, x) && NodeOk(g, x);
    if ChildrenFailed(g, x) {
      FailedDone(g, x);
    } else if Told(g[x]) {
      forall c | c in g[x].subq ensures c in g && Done(g[c]) {
        assert MonoAt(h, g, c);
        DoneMono(h[c], g[c]);
      }
    }
  }

  /** After a step on x that has failed its children, or not told x anew, and x let go. */
  lemma ReleasedSettled(ans: nat -> bool, h: Heap, g: Heap, x: nat, k: Heap)
    requires Ready(h, x) && AllSettled(h) && Step(ans, h, g, x) && x in g && SaneAt(g, x)
    requires g[x].held > 0 && k == Drop(g, x) && (ChildrenFailed(g, x) || (Told(g[x]) ==> Told(h[x])))
    ensures AllSettled(k)
  {
    assert SettledAt(h, x) && MonoAt(h, g, x);
    SettledTop(ans, h, g, x);
    DoneMono(h[x], g[x]);
    assert AllSane(g);
    SettledKept(ans, h, g, x);
    DropAt(g, x, k);
    SettledOwn(g, k, x);
  }

  /** Clearing the mark of an abort that is then made anew is no step back. */
  lemma ClearedStep(ans: nat -> bool, h: Heap, h1: Heap, g: Heap, x: nat)
    requires Ready(h, x) && h1 == h[x := h[x].(aborting := false)] && Step(ans, h1, g, x)
    requires x in g && g[x].aborting
    ensures Step(ans, h, g, x)
  {
    LawsAbout(ans, h, h1, g, g, x);
    forall z ensures MonoAt(h, g, z) { assert MonoAt(h1, g, z); }
  }

  lemma FlagReady(h: Heap, x: nat, t: St, g: Heap)
    requires Ready(h, x) && SameLinks(h[x], t) && g == h[x := t]
    ensures Ready(g, x)
  {
    FlagForest(h, x, t);
    forall z | z != x ensures SaneAt(g, z) { assert SaneAt(h, z); }
  }

  /** The state's own part in a message's having been sent. */
  ghost predicate SentOk(h: Heap, g: Heap, x: nat)
    requires x in h && x in g
  {
    && SaneAt(g, x) && (Done(h[x]) ==> Done(g[x])) && g[x].born == h[x].born
    && (Told(g[x]) ==> ChildrenFailed(g, x) || Told(h[x]))
  }

  /** After a message has been sent on x, whatever was deferred to it done. */
  lemma SentSettled(ans: nat -> bool, h: Heap, h1: Heap, g: Heap, x: nat)
    requires Forest(h) && AllSane(h) && x in h && h1 == Sent(h, x) && Step(ans, h1, g, x) && x in g && SentOk(h, g, x)
    ensures Laws(ans, h, g, x) && GrowsBut(h, g, x) && AllSane(g)
    ensures AllSettled(h) ==> AllSettled(g)
  {
    LawsAbout(ans, h, h1, g, g, x);
    forall z | z != x ensures MonoAt(h, g, z) { assert MonoAt(h1, g, z); }
    forall z ensures SaneAt(g, z) { }
    if AllSettled(h) {
      assert SettledAt(h, x) && SettledAt(h1, x);
      SettledTop(ans, h1, g, x);
      SettledKept(ans, h, g, x);
    }
  }

  lemma InsertSane(h: Heap, p: nat, x: nat, s: St, g: Heap)
    requires AllSane(h) && p in h && x !in h && Sane(s) && g == Insert(h, p, x, s)
    ensures AllSane(g)
  {
    forall z ensures SaneAt(g, z) { assert SaneAt(h, z); }
  }

  lemma HeardOwn(h: Heap, g: Heap, x: nat, del: bool, n: nat)
    requires x in h && x in g && g.Keys <= h.Keys && Heard(h[x], g[x], del) && BornBefore(h, n)
    requires forall z {:trigger SameAt(h, g, z)} | z != x :: SameAt(h, g, z)
    requires g[x].rb ==> h[x].rb
    ensures BornBefore(g, n) && LingerOn(h, g, x) && (Lingering(h, x) ==> Lingering(g, x))
  {
    forall y | y in g ensures g[y].born < n { assert y != x ==> SameAt(h, g, y); }
    forall z | z != x && Lingering(h, z) ensures Lingering(g, z) && g[z].parent == h[z].parent {
      assert SameAt(h, g, z);
    }
  }

  /** The root is never failed itself. */
  lemma RootStays(ans: nat -> bool, h: Heap, g: Heap, x: nat)
    requires Forest(h) && Forest(g) && x in h && x != ROOT && Laws(ans, h, g, x)
    ensures g[ROOT].aborting == h[ROOT].aborting
  {
    assert LawAt(ans, h, g, x, ROOT);
    BereftSame(h[ROOT], x);
  }

  /** What a message's deferred abort has done to the list, seen from outside. */
  lemma SentLeft(ans: nat -> bool, h: Heap, h1: Heap, g: Heap, x: nat, k: Heap)
    requires Ready(h1, x) && x in h && h1 == Sent(h, x) && Step(ans, h1, g, x) && x in g && g[x].held > 0
    requires k == Drop(g, x)
    ensures x in k ==> LetGo(g[x], k[x]) && (ChildrenFailed(g, x) ==> LeftBy(ans, h, k, x) && ChildrenDone(k, x))
    ensures g[x].parent.Some? ==> x in k
    ensures x !in k ==> g[x].parent.None?
    ensures Like(g, k, x) && k.Keys <= g.Keys && (x in k ==> k[x].subq == g[x].subq)
  {
    DropAt(g, x, k);
    if ChildrenFailed(g, x) {
      ScanReached(ans, h1, g, x);
      LeftExact(ans, h1, g, x);
      DropFailed(g, x, k);
      DropKeeps(g, x);
      forall z | z != x ensures SaneAt(k, z) { assert SaneAt(g, z) && SameAt(g, k, z); }
      FailedDone(k, x);
    }
  }
}
