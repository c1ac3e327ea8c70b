/**
How one step of a connection's own code may change the tree of states: what the
steps that tear transactions down have in common, and how they compose.

Everything is stated one state at a time.  A step is on one state, its top.  Any
other state is either hit, that is marked ABORTING by the step, or left as it was but
for DYING; and whether a state is hit, and whether it then leaves its parent's list,
can be read off the tree before the step.
*/
module DmsgTeardown {
  import opened Base
  import opened DmsgStates

  /** The failure of its peer has been made known to the state's owner. */
  predicate Told(s: St) { s.aborting && s.rxd && !s.young }

  /** It will be, when the message that is being sent, or waits to be, has gone out. */
  predicate Due(s: St) { (s.aborting || s.dying) && (s.young || (s.inter && !s.rxd)) }

  predicate Done(s: St) { Told(s) || Due(s) }

  /** Closed both ways, out of its lookup tree and off its parent's list. */
  predicate Gone(s: St) { s.txd && s.rxd && !s.rb && s.parent.None? }

  /** A failed state has been told or is due. */
  predicate Sane(s: St) { s.aborting ==> s.dying && Done(s) }

  /** A state that, if failed, is closed both ways by it and leaves its parent's list. */
  predicate Leaves(ans: nat -> bool, s: St, z: nat) {
    !s.aborting && !s.young && !s.rxd && (ans(z) || s.txd)
  }

  // ------------------------------------------- what a step may change

  /** A state only goes forward. */
  ghost predicate Mono(s: St, t: St) {
    && t.born == s.born && t.held == s.held && t.young == s.young && t.inter == s.inter
    && (s.aborting ==> t.aborting) && (s.dying ==> t.dying) && (t.rb ==> s.rb)
    && (s.txc ==> t.txc) && (s.txd ==> t.txd) && (s.rxd ==> t.rxd) && (!t.aborting ==> t.rxd == s.rxd)
    && (forall c | c in t.subq :: c in s.subq)
    && (t.parent == s.parent || t.parent.None?)
  }

  /** And is not freed while held. */
  ghost predicate MonoAt(h: Heap, g: Heap, z: nat) {
    && (z in g ==> z in h && Mono(h[z], g[z]))
    && (z in h && h[z].held > 0 ==> z in g)
  }

  ghost predicate Grows(h: Heap, g: Heap) {
    forall z {:trigger MonoAt(h, g, z)} :: MonoAt(h, g, z)
  }

  ghost predicate GrowsBut(h: Heap, g: Heap, x: nat) {
    forall z {:trigger MonoAt(h, g, z)} | z != x :: MonoAt(h, g, z)
  }

  /** The state has been failed, now or before. */
  predicate Reached(h: Heap, g: Heap, z: nat) {
    z in h && (z in g ==> g[z].aborting)
  }

  /** It has been failed by this step. */
  predicate Hit(h: Heap, g: Heap, z: nat) {
    Reached(h, g, z) && !h[z].aborting
  }

  /** It has been marked DYING by this step. */
  predicate Darker(h: Heap, g: Heap, z: nat) {
    z in h && !h[z].dying && (z in g ==> g[z].dying)
  }

  /** A parent that has lost child x. */
  function Bereft(s: St, x: nat): St {
    var q := Remove(s.subq, x);
    s.(subq := q, refs := s.refs - if q == [] then 1 else 0)
  }

  /** x's parent is as it was, or has lost x, and is freed only if nothing holds it. */
  ghost predicate ParentAt(h: Heap, g: Heap, x: nat, p: nat) {
    p in h ==>
      && (p in g ==> g[p] == h[p] || (x in h[p].subq && g[p] == Bereft(h[p], x)))
      && (h[p].held > 0 || h[p].parent.Some? ==> p in g)
  }

  ghost predicate AllReached(h: Heap, g: Heap, q: seq<nat>) {
    forall c {:trigger Reached(h, g, c)} | c in q :: Reached(h, g, c)
  }

  predicate HitBelow(h: Heap, g: Heap, x: nat, z: nat)
    requires x in h
  {
    Hit(h, g, z) && h[x].born < h[z].born
  }

  /** Where it was: on its list, in its tree, this end's direction as it was. */
  predicate StaysOn(s: St, t: St) {
    t.parent == s.parent && t.txd == s.txd && t.rb == s.rb
  }

  /** What is known of a hit state: its parent is the top or is hit, its children have
      all been failed, and it has left its parent's list or not as it was to. */
  ghost predicate HitAt(ans: nat -> bool, h: Heap, g: Heap, x: nat, z: nat)
    requires x in h && z in h
  {
    && h[x].born < h[z].born
    && h[z].parent.Some? && (h[z].parent == Some(x) || HitBelow(h, g, x, h[z].parent.value))
    && AllReached(h, g, h[z].subq)
    && (if Leaves(ans, h[z], z) then z in g ==> Gone(g[z])
        else z in g && StaysOn(h[z], g[z]))
  }

  /** What is known of a state that is not hit: nothing has changed, but that DYING may
      have come down to it. */
  ghost predicate StillAt(h: Heap, g: Heap, x: nat, z: nat)
    requires x in h && z in h
  {
    && z in g
    && (|| g[z] == h[z]
        || (&& !h[z].dying && g[z] == h[z].(dying := true) && h[x].born < h[z].born
            && h[z].parent.Some? && Darker(h, g, h[z].parent.value)))
  }

  /** The law of a step on x for any other state. */
  ghost predicate LawAt(ans: nat -> bool, h: Heap, g: Heap, x: nat, z: nat)
    requires x in h
  {
    z in h ==>
      if h[x].parent == Some(z) then ParentAt(h, g, x, z)
      else if Hit(h, g, z) then HitAt(ans, h, g, x, z)
      else StillAt(h, g, x, z)
  }

  ghost predicate Laws(ans: nat -> bool, h: Heap, g: Heap, x: nat)
    requires x in h
  {
    forall z {:trigger LawAt(ans, h, g, x, z)} | z != x :: LawAt(ans, h, g, x, z)
  }

  ghost predicate SaneAt(h: Heap, z: nat) { z in h ==> Sane(h[z]) }

  ghost predicate SaneBut(h: Heap, x: nat) {
    forall z {:trigger SaneAt(h, z)} | z != x :: SaneAt(h, z)
  }

  ghost predicate AllSane(h: Heap) {
    forall z {:trigger SaneAt(h, z)} :: SaneAt(h, z)
  }

  /** What every step on x needs, and leaves. */
  ghost predicate Ready(h: Heap, x: nat) {
    Forest(h) && x in h && SaneBut(h, x)
  }

  ghost predicate Step(ans: nat -> bool, h: Heap, g: Heap, x: nat) {
    x in h && Forest(g) && SaneBut(g, x) && Grows(h, g) && Laws(ans, h, g, x)
  }

  // ------------------------------------------------------------ composition

  lemma StepRefl(ans: nat -> bool, h: Heap, x: nat)
    requires Ready(h, x)
    ensures Step(ans, h, h, x)
  {
  }

  lemma ReachedStays(h: Heap, g: Heap, k: Heap, z: nat)
    requires MonoAt(h, g, z) && MonoAt(g, k, z)
    ensures Reached(h, g, z) ==> Reached(h, k, z)
    ensures Reached(g, k, z) ==> Reached(h, k, z)
    ensures Hit(h, g, z) ==> Hit(h, k, z)
    ensures Hit(g, k, z) ==> Hit(h, k, z)
    ensures Darker(h, g, z) ==> Darker(h, k, z)
    ensures Darker(g, k, z) ==> Darker(h, k, z)
  {
  }

  lemma NotOlder(h: Heap, x: nat, p: nat)
    requires Forest(h) && x in h && h[x].parent == Some(p)
    ensures p != x && p in h && h[p].born < h[x].born && x in h[p].subq
  {
    assert NodeOk(h, x);
  }

  lemma ParentTrans(ans: nat -> bool, h: Heap, g: Heap, k: Heap, x: nat, p: nat)
    requires Ready(h, x) && Step(ans, h, g, x) && Step(ans, g, k, x) && h[x].parent == Some(p)
    ensures ParentAt(h, k, x, p)
  {
    NotOlder(h, x, p);
    assert LawAt(ans, h, g, x, p) && MonoAt(g, k, p) && MonoAt(h, g, x);
    if p in g {
      if g[x].parent == Some(p) {
        NotOlder(g, x, p);
        BereftSame(h[p], x);
        assert g[p] == h[p] && LawAt(ans, g, k, x, p);
      } else {
        assert g[p].born == h[p].born;
        OlderSame(ans, g, k, x, p);
      }
    }
  }

  /** An older state that is not the top's parent is as it was. */
  lemma OlderSame(ans: nat -> bool, h: Heap, g: Heap, x: nat, z: nat)
    requires Step(ans, h, g, x) && z in h && z != x && h[z].born <= h[x].born && h[x].parent != Some(z)
    ensures z in g && g[z] == h[z]
  {
    assert LawAt(ans, h, g, x, z);
  }

  lemma HitFirst(ans: nat -> bool, h: Heap, g: Heap, k: Heap, x: nat, z: nat)
    requires Ready(h, x) && Step(ans, h, g, x) && Step(ans, g, k, x)
    requires z in h && z != x && h[x].parent != Some(z) && Hit(h, g, z)
    ensures HitAt(ans, h, k, x, z)
  {
    assert LawAt(ans, h, g, x, z) && MonoAt(h, g, z) && MonoAt(g, k, z) && MonoAt(h, g, x);
    var p := h[z].parent.value;
    assert MonoAt(h, g, p) && MonoAt(g, k, p);
    ReachedStays(h, g, k, p);
    forall c | c in h[z].subq ensures Reached(h, k, c) {
      assert Reached(h, g, c) && MonoAt(h, g, c) && MonoAt(g, k, c);
      ReachedStays(h, g, k, c);
    }
    if z in g { assert LawAt(ans, g, k, x, z); }
  }

  lemma HitLater(ans: nat -> bool, h: Heap, g: Heap, k: Heap, x: nat, z: nat)
    requires Ready(h, x) && Step(ans, h, g, x) && Step(ans, g, k, x)
    requires z in h && z != x && h[x].parent != Some(z) && !Hit(h, g, z) && Hit(h, k, z)
    ensures HitAt(ans, h, k, x, z)
  {
    assert LawAt(ans, h, g, x, z) && MonoAt(h, g, z) && MonoAt(h, g, x);
    assert LawAt(ans, g, k, x, z) && Hit(g, k, z);
    var p := h[z].parent.value;
    assert MonoAt(h, g, p) && MonoAt(g, k, p);
    ReachedStays(h, g, k, p);
    forall c | c in h[z].subq ensures Reached(h, k, c) {
      assert Reached(g, k, c) && MonoAt(h, g, c) && MonoAt(g, k, c);
      ReachedStays(h, g, k, c);
    }
  }

  lemma StillTrans(ans: nat -> bool, h: Heap, g: Heap, k: Heap, x: nat, z: nat)
    requires Ready(h, x) && Step(ans, h, g, x) && Step(ans, g, k, x)
    requires z in h && z != x && h[x].parent != Some(z) && !Hit(h, k, z)
    ensures StillAt(h, k, x, z)
  {
    assert MonoAt(h, g, z) && MonoAt(g, k, z) && MonoAt(h, g, x);
    ReachedStays(h, g, k, z);
    assert LawAt(ans, h, g, x, z) && LawAt(ans, g, k, x, z);
    if h[z].parent.Some? {
      var p := h[z].parent.value;
      assert MonoAt(h, g, p) && MonoAt(g, k, p);
      ReachedStays(h, g, k, p);
    }
  }

  lemma StepTrans(ans: nat -> bool, h: Heap, g: Heap, k: Heap, x: nat)
    requires Ready(h, x) && Step(ans, h, g, x) && Step(ans, g, k, x)
    ensures Step(ans, h, k, x)
  {
    forall z ensures MonoAt(h, k, z) { assert MonoAt(h, g, z) && MonoAt(g, k, z); }
    forall z | z != x ensures LawAt(ans, h, k, x, z) {
      if z in h {
        if h[x].parent == Some(z) {
          ParentTrans(ans, h, g, k, x, z);
        } else if Hit(h, g, z) {
          HitFirst(ans, h, g, k, x, z);
          assert MonoAt(h, g, z) && MonoAt(g, k, z);
          ReachedStays(h, g, k, z);
        } else if Hit(h, k, z) {
          HitLater(ans, h, g, k, x, z);
        } else {
          StillTrans(ans, h, g, k, x, z);
        }
      }
    }
  }

  // ------------------------------------------------- steps on the top alone

  ghost predicate SameAt(h: Heap, g: Heap, z: nat) {
    z in h ==> z in g && g[z] == h[z]
  }

  /** Nothing but x and its parent has changed. */
  ghost predicate OnlyAt(h: Heap, g: Heap, x: nat)
    requires x in h
  {
    forall z {:trigger SameAt(h, g, z)} | z != x && h[x].parent != Some(z) :: SameAt(h, g, z)
  }

  lemma StepAt(ans: nat -> bool, h: Heap, g: Heap, x: nat)
    requires Ready(h, x) && Forest(g) && Grows(h, g) && OnlyAt(h, g, x)
    requires h[x].parent.Some? ==> ParentAt(h, g, x, h[x].parent.value)
    ensures Step(ans, h, g, x)
  {
    forall z | z != x ensures LawAt(ans, h, g, x, z) && SaneAt(g, z) {
      assert SaneAt(h, z) && MonoAt(h, g, z);
      if h[x].parent != Some(z) { assert SameAt(h, g, z); }
    }
  }

  /** Nothing but x has changed. */
  lemma StepOwn(ans: nat -> bool, h: Heap, g: Heap, x: nat)
    requires Ready(h, x) && Forest(g) && MonoAt(h, g, x) && g.Keys <= h.Keys
    requires forall z {:trigger SameAt(h, g, z)} | z != x :: SameAt(h, g, z)
    ensures Step(ans, h, g, x)
  {
    forall z ensures MonoAt(h, g, z) { assert z != x ==> SameAt(h, g, z); }
    if h[x].parent.Some? {
      NotOlder(h, x, h[x].parent.value);
      assert SameAt(h, g, h[x].parent.value);
    }
    StepAt(ans, h, g, x);
  }

  ghost predicate SameLinks(s: St, t: St) {
    t.born == s.born && t.parent == s.parent && t.subq == s.subq && t.refs == s.refs && t.rb == s.rb && t.held == s.held
  }

  ghost predicate SameFlags(s: St, t: St) {
    && t.held == s.held && t.inter == s.inter && t.dying == s.dying && t.aborting == s.aborting && t.young == s.young
    && t.txc == s.txc && t.txd == s.txd && t.rxd == s.rxd
  }

  ghost predicate LinksAt(h: Heap, g: Heap, z: nat) {
    z in h ==> z in g && SameLinks(h[z], g[z])
  }

  /** The forest is in the links alone. */
  lemma LinksForest(h: Heap, g: Heap)
    requires Forest(h) && g.Keys == h.Keys && forall z {:trigger LinksAt(h, g, z)} :: LinksAt(h, g, z)
    ensures Forest(g)
  {
    assert LinksAt(h, g, ROOT);
    forall y | y in g ensures NodeOk(g, y) {
      assert NodeOk(h, y) && LinksAt(h, g, y);
      forall c | c in g[y].subq ensures c in g && g[c].parent == Some(y) { assert LinksAt(h, g, c); }
      if h[y].parent.Some? { assert LinksAt(h, g, h[y].parent.value); }
    }
  }

  lemma FlagForest(h: Heap, x: nat, t: St)
    requires Forest(h) && x in h && SameLinks(h[x], t)
    ensures Forest(h[x := t])
  {
    LinksForest(h, h[x := t]);
  }

  /** Flags that only grow may be set freely. */
  lemma FlagStep(ans: nat -> bool, h: Heap, x: nat, t: St, g: Heap)
    requires Ready(h, x) && SameLinks(h[x], t) && Mono(h[x], t) && g == h[x := t]
    ensures Step(ans, h, g, x)
  {
    FlagForest(h, x, t);
    StepOwn(ans, h, g, x);
  }

  lemma UnlistStep(ans: nat -> bool, h: Heap, x: nat, g: Heap)
    requires Ready(h, x) && h[x].held > 0 && g == Unlist(h, x)
    ensures Step(ans, h, g, x) && x in g && !g[x].rb
    ensures SameFlags(h[x], g[x]) && g[x].parent == h[x].parent && g[x].subq == h[x].subq
  {
    UnlistKeeps(h, x);
    UnlistOwn(h, x, g);
    StepOwn(ans, h, g, x);
  }

  lemma UnlistOwn(h: Heap, x: nat, g: Heap)
    requires Forest(h) && x in h && h[x].held > 0 && g == Unlist(h, x)
    ensures x in g && !g[x].rb && MonoAt(h, g, x) && g.Keys <= h.Keys
    ensures SameFlags(h[x], g[x]) && g[x].parent == h[x].parent && g[x].subq == h[x].subq
    ensures forall z {:trigger SameAt(h, g, z)} | z != x :: SameAt(h, g, z)
  {
    assert NodeOk(h, x);
  }

  /** Exactly what leaving the parent's list changes. */
  lemma UnparentAt(h: Heap, x: nat, p: nat, g: Heap)
    requires Forest(h) && x in h && h[x].held > 0 && h[x].parent == Some(p) && p in h && g == Unparent(h, x)
    ensures x != p && x in g && g[x] == h[x].(parent := None, refs := h[x].refs - 1)
    ensures x in h[p].subq && (p in g ==> g[p] == Bereft(h[p], x))
    ensures h[p].held > 0 || h[p].parent.Some? ==> p in g
    ensures g.Keys <= h.Keys && OnlyAt(h, g, x)
  {
    assert NodeOk(h, x) && NodeOk(h, p);
  }

  lemma UnparentStep(ans: nat -> bool, h: Heap, x: nat, g: Heap)
    requires Ready(h, x) && h[x].held > 0 && g == Unparent(h, x)
    ensures Step(ans, h, g, x) && x in g && g[x].parent.None?
    ensures SameFlags(h[x], g[x]) && g[x].rb == h[x].rb && g[x].subq == h[x].subq
  {
    if h[x].parent.Some? {
      UnparentFacts(h, x, h[x].parent.value, g);
      StepAt(ans, h, g, x);
    } else {
      StepRefl(ans, h, x);
    }
  }

  lemma UnparentFacts(h: Heap, x: nat, p: nat, g: Heap)
    requires Forest(h) && x in h && h[x].held > 0 && h[x].parent == Some(p) && g == Unparent(h, x)
    ensures Forest(g) && Grows(h, g) && OnlyAt(h, g, x) && ParentAt(h, g, x, p)
    ensures x in g && g[x].parent.None? && SameFlags(h[x], g[x]) && g[x].rb == h[x].rb && g[x].subq == h[x].subq
  {
    NotOlder(h, x, p);
    UnparentKeeps(h, x);
    UnparentAt(h, x, p, g);
    forall z ensures MonoAt(h, g, z) {
      if z != x && z != p { assert SameAt(h, g, z); }
    }
  }

  // ------------------------------------------ seen from outside, and below

  /** The same as seen by any other state. */
  ghost predicate Like(h: Heap, g: Heap, x: nat)
    requires x in h
  {
    && (x in g ==> g[x].born == h[x].born && g[x].parent == h[x].parent && g[x].dying == h[x].dying)
    && forall z {:trigger SameAt(h, g, z)} | z != x :: SameAt(h, g, z) && (z in g ==> z in h)
  }

  /** The laws speak of the top's place and of its DYING, and of nothing else in it. */
  lemma LawsAbout(ans: nat -> bool, h: Heap, h1: Heap, g: Heap, k: Heap, x: nat)
    requires Forest(h) && x in h && x in h1 && x in g && Like(h, h1, x) && Like(g, k, x) && Laws(ans, h1, g, x)
    ensures Laws(ans, h, k, x)
  {
    forall z | z != x ensures LawAt(ans, h, k, x, z) {
      assert LawAt(ans, h1, g, x, z) && SameAt(h, h1, z) && SameAt(g, k, z);
      if z in h {
        assert NodeOk(h, z);
        if h[z].parent.Some? && h[z].parent.value != x {
          assert SameAt(h, h1, h[z].parent.value) && SameAt(g, k, h[z].parent.value);
        }
        if Hit(h, k, z) && h[x].parent != Some(z) {
          forall c | c in h[z].subq ensures Reached(h, k, c) {
            assert Reached(h1, g, c) && SameAt(h, h1, c) && SameAt(g, k, c);
          }
        }
      }
    }
  }

  /** Work done under a reference of one's own, seen from outside it. */
  lemma HoldDrop(ans: nat -> bool, h: Heap, h1: Heap, g: Heap, x: nat, k: Heap)
    requires Ready(h, x) && h1 == Hold(h, x) && Step(ans, h1, g, x) && x in g && k == Drop(g, x)
    ensures g[x].held == h[x].held + 1 && Step(ans, h, k, x)
    ensures h[x].held > 0 || g[x].parent.Some? ==> x in k
  {
    assert MonoAt(h1, g, x) && NodeOk(g, x);
    DropKeeps(g, x);
    HoldDropGrows(h, h1, g, x, k);
    assert Like(h, h1, x) && Like(g, k, x);
    LawsAbout(ans, h, h1, g, k, x);
    forall z | z != x ensures SaneAt(k, z) { assert SaneAt(g, z); }
  }

  lemma HoldDropGrows(h: Heap, h1: Heap, g: Heap, x: nat, k: Heap)
    requires x in h && h1 == Hold(h, x) && Grows(h1, g) && Forest(g) && x in g && k == Drop(g, x)
    ensures Grows(h, k)
  {
    assert MonoAt(h1, g, x) && NodeOk(g, x);
    forall z ensures MonoAt(h, k, z) { assert MonoAt(h1, g, z); }
  }

  lemma HoldReady(h: Heap, x: nat, g: Heap)
    requires Ready(h, x) && g == Hold(h, x)
    ensures Ready(g, x)
  {
    HoldKeeps(h, x);
    forall z | z != x ensures SaneAt(g, z) { assert SaneAt(h, z); }
  }

  /** Its place and its flags are as they were. */
  ghost predicate SameBut(s: St, t: St) {
    && t.parent == s.parent && t.rb == s.rb && t.held == s.held && t.inter == s.inter && t.dying == s.dying
    && t.txc == s.txc && t.txd == s.txd && t.rxd == s.rxd && t.aborting == s.aborting && t.young == s.young
  }

  /** The same with one message fewer to hold it. */
  ghost predicate LetGo(s: St, t: St) {
    && t.parent == s.parent && t.rb == s.rb && t.held == s.held - 1 && t.inter == s.inter && t.dying == s.dying
    && t.txc == s.txc && t.txd == s.txd && t.rxd == s.rxd && t.aborting == s.aborting && t.young == s.young
  }

  /** What failing the top itself comes to. */
  ghost predicate Failed(ans: nat -> bool, h: Heap, g: Heap, x: nat)
    requires x in h
  {
    && Reached(h, g, x) && SaneAt(g, x) && AllReached(h, g, h[x].subq)
    && (if Leaves(ans, h[x], x) then x in g ==> Gone(g[x])
        else x in g && StaysOn(h[x], g[x]))
  }

  lemma ChildReady(h: Heap, x: nat, c: nat)
    requires Ready(h, x) && SaneAt(h, x) && c in h[x].subq
    ensures Ready(h, c) && c != x && c != ROOT && h[c].parent == Some(x) && h[x].born < h[c].born
  {
    assert NodeOk(h, x) && NodeOk(h, c);
  }

  lemma ChildLaw(ans: nat -> bool, h: Heap, g: Heap, x: nat, c: nat, z: nat)
    requires Ready(h, x) && SaneAt(h, x) && c in h[x].subq && c in h && !h[c].aborting
    requires Step(ans, h, g, c) && Failed(ans, h, g, c) && z != x
    ensures LawAt(ans, h, g, x, z)
  {
    ChildReady(h, x, c);
    if h[x].parent.Some? { NotOlder(h, x, h[x].parent.value); }
    if z != c { assert LawAt(ans, h, g, c, z); }
  }

  lemma ChildTop(ans: nat -> bool, h: Heap, g: Heap, x: nat, c: nat)
    requires Ready(h, x) && SaneAt(h, x) && h[x].held > 0 && c in h[x].subq && Step(ans, h, g, c)
    ensures x in g && SameBut(h[x], g[x]) && (c in g[x].subq ==> g[x] == h[x])
  {
    ChildReady(h, x, c);
    assert LawAt(ans, h, g, c, x);
    BereftSame(h[x], c);
  }

  lemma BereftSame(s: St, x: nat)
    ensures SameBut(s, Bereft(s, x)) && x !in Bereft(s, x).subq
  {
  }

  /** A child's failure is a step of x, and leaves x on its parent's list. */
  lemma ChildStep(ans: nat -> bool, h: Heap, g: Heap, x: nat, c: nat)
    requires Ready(h, x) && SaneAt(h, x) && h[x].held > 0 && c in h[x].subq && c in h && !h[c].aborting
    requires Step(ans, h, g, c) && Failed(ans, h, g, c)
    ensures Step(ans, h, g, x) && x in g && SameBut(h[x], g[x]) && (c in g[x].subq ==> g[x] == h[x])
  {
    forall z | z != x ensures LawAt(ans, h, g, x, z) { ChildLaw(ans, h, g, x, c, z); }
    ChildTop(ans, h, g, x, c);
    forall z | z != x ensures SaneAt(g, z) { }
  }

  // ------------------------------------------------------ marking a subtree

  /** From h to g only DYING has been set, on x and down from it. */
  ghost predicate Darkens(h: Heap, g: Heap, x: nat)
    requires x in h
  {
    g.Keys == h.Keys && forall z {:trigger DarkAt(h, g, x, z)} | z in h :: DarkAt(h, g, x, z)
  }

  ghost predicate DarkAt(h: Heap, g: Heap, x: nat, z: nat)
    requires x in h && z in h
  {
    && z in g
    && (|| g[z] == h[z]
        || (&& !h[z].dying && g[z] == h[z].(dying := true)
            && (z == x || (h[x].born < h[z].born && h[z].parent.Some? && Darker(h, g, h[z].parent.value)))))
  }

  /** The states newly marked have all their children marked. */
  ghost predicate Spread(h: Heap, g: Heap, but: set<nat>) {
    forall y | y in h && y in g && y !in but && g[y].dying && !h[y].dying ::
      forall c | c in g[y].subq :: c in g && g[c].dying
  }

  function NotDying(h: Heap): set<nat> { set y | y in h && !h[y].dying }

  function NotAborting(h: Heap): set<nat> { set y | y in h && !h[y].aborting }

  lemma DarkensForest(h: Heap, g: Heap, x: nat)
    requires Forest(h) && x in h && Darkens(h, g, x)
    ensures Forest(g)
  {
    forall z ensures LinksAt(h, g, z) { assert z in h ==> DarkAt(h, g, x, z); }
    LinksForest(h, g);
  }

  lemma DarkensStep(ans: nat -> bool, h: Heap, g: Heap, x: nat)
    requires Ready(h, x) && Darkens(h, g, x)
    ensures Step(ans, h, g, x) && NotAborting(g) == NotAborting(h)
  {
    DarkensForest(h, g, x);
    forall z ensures MonoAt(h, g, z) { assert z in h ==> DarkAt(h, g, x, z); }
    forall z | z != x ensures SaneAt(g, z) && LawAt(ans, h, g, x, z) {
      assert SaneAt(h, z) && (z in h ==> DarkAt(h, g, x, z));
      if h[x].parent == Some(z) { NotOlder(h, x, z); }
    }
    assert forall z | z in h :: DarkAt(h, g, x, z);
  }

  lemma DarkensTrans(h: Heap, g: Heap, k: Heap, x: nat, c: nat)
    requires Forest(h) && x in h && c in g && Darkens(h, g, x) && Darkens(g, k, c)
    requires !h[x].dying && g[x].dying && h[c].parent == Some(x)
    ensures Darkens(h, k, x)
  {
    assert NodeOk(h, c) && DarkAt(h, g, x, c) && DarkAt(h, g, x, x) && DarkAt(g, k, c, x);
    forall z | z in h ensures DarkAt(h, k, x, z) {
      assert DarkAt(h, g, x, z) && DarkAt(g, k, c, z);
      if h[z].parent.Some? {
        var p := h[z].parent.value;
        assert NodeOk(h, z) && DarkAt(h, g, x, p) && DarkAt(g, k, c, p);
      }
      DarkTrans(h, g, k, x, c, z);
    }
  }

  lemma DarkTrans(h: Heap, g: Heap, k: Heap, x: nat, c: nat, z: nat)
    requires x in h && c in h && c in g && z in h && z in g && DarkAt(h, g, x, z) && DarkAt(g, k, c, z)
    requires h[x].born < h[c].born && g[c].born == h[c].born && h[c].parent == Some(x) && Darker(h, k, x)
    requires h[z].parent.Some? ==> DyingGrows(h, g, k, h[z].parent.value)
    ensures DarkAt(h, k, x, z)
  {
  }

  ghost predicate DyingGrows(h: Heap, g: Heap, k: Heap, p: nat) {
    p in h && p in g && p in k && (h[p].dying ==> g[p].dying) && (g[p].dying ==> k[p].dying)
  }

  lemma SpreadTrans(h: Heap, g: Heap, k: Heap, x: nat, c: nat, but: set<nat>)
    requires x in h && c in g && Darkens(h, g, x) && Darkens(g, k, c) && Spread(h, g, but) && Spread(g, k, {})
    ensures Spread(h, k, but)
  {
    forall y | y in h && y in k && y !in but && k[y].dying && !h[y].dying
      ensures forall d | d in k[y].subq :: d in k && k[d].dying
    {
      assert DarkAt(h, g, x, y) && DarkAt(g, k, c, y) && g[y].subq == k[y].subq;
      forall d | d in k[y].subq && d in g && g[d].dying ensures d in k && k[d].dying { assert DarkAt(g, k, c, d); }
    }
  }

  lemma DarkensFewer(h: Heap, g: Heap, x: nat)
    requires x in h && Darkens(h, g, x) && !h[x].dying && g[x].dying
    ensures NotDying(g) < NotDying(h)
  {
    assert x in NotDying(h);
    forall y | y in NotDying(g) ensures y in NotDying(h) { assert DarkAt(h, g, x, y); }
  }

  /** Marking one state starts it. */
  lemma DarkenOne(h: Heap, x: nat, g: Heap)
    requires x in h && !h[x].dying && g == h[x := h[x].(dying := true)]
    ensures Darkens(h, g, x) && Spread(h, g, {x})
  {
  }

  ghost predicate FirstDying(h: Heap, x: nat, n: int)
    requires x in h
  {
    && 0 <= n <= |h[x].subq|
    && forall j | 0 <= j < n :: h[x].subq[j] in h && h[h[x].subq[j]].dying
  }

  lemma DarkenChild(h: Heap, g: Heap, x: nat, c: nat, n: nat)
    requires x in h && c in h && FirstDying(h, x, n) && n < |h[x].subq| && c == h[x].subq[n] && Darkens(h, g, c)
    requires g[c].dying
    ensures x in g && (h[x].dying ==> g[x].dying) && g[x].subq == h[x].subq && FirstDying(g, x, n + 1)
  {
    assert DarkAt(h, g, c, x);
    forall j | 0 <= j < n ensures h[x].subq[j] in g && g[h[x].subq[j]].dying { assert DarkAt(h, g, c, h[x].subq[j]); }
  }

  lemma SpreadAll(h: Heap, g: Heap, x: nat)
    requires x in g && Spread(h, g, {x}) && FirstDying(g, x, |g[x].subq|)
    ensures Spread(h, g, {})
  {
    forall y | y in h && y in g && g[y].dying && !h[y].dying
      ensures forall c | c in g[y].subq :: c in g && g[c].dying
    {
      if y == x {
        forall c | c in g[x].subq ensures c in g && g[c].dying {
          var j :| 0 <= j < |g[x].subq| && g[x].subq[j] == c;
        }
      }
    }
  }

  lemma AbortedFewer(h: Heap, g: Heap, x: nat)
    requires x in h && !h[x].aborting && g == h[x := h[x].(aborting := true)]
    ensures NotAborting(g) < NotAborting(h)
  {
    assert x in NotAborting(h);
  }

  /** A state marked as aborted, and it and all below it as dying. */
  lemma AbortedStep(ans: nat -> bool, h: Heap, h1: Heap, g: Heap, x: nat)
    requires Ready(h, x) && !h[x].aborting && h1 == h[x := h[x].(aborting := true)]
    requires Step(ans, h, h1, x) && Darkens(h1, g, x) && g[x].dying
    ensures Step(ans, h, g, x) && x in g && g[x] == h[x].(aborting := true, dying := true)
    ensures NotAborting(g) < NotAborting(h)
  {
    AbortedFewer(h, h1, x);
    DarkensStep(ans, h1, g, x);
    assert DarkAt(h1, g, x, x);
    StepTrans(ans, h, h1, g, x);
  }
}
