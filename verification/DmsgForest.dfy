/**
What the tree of transaction states keeps, and the two places where it does not:
a received DELETE takes a closed state off its parent's list whether or not it has
children, and a state closed by its own DELETE while it has children is not taken
off when they go.
*/
module DmsgForest {
  import opened Base
  import opened DmsgStates
  import opened DmsgTeardown
  import opened DmsgFailure
  import opened DmsgReach

  // ------------------------------------------------------------- paths

  /** Every state that is open, has children or is on a list is under the root. */
  lemma {:induction false} RootPath(h: Heap, x: nat) returns (q: seq<nat>)
    requires Forest(h) && Anchored(h) && x in h && (x == ROOT || h[x].rb || h[x].subq != [] || h[x].parent.Some?)
    ensures Path(h, q) && q[0] == ROOT && q[|q| - 1] == x
    decreases h[x].born
  {
    if x == ROOT {
      q := [x];
    } else {
      assert NodeOk(h, x) && AnchoredAt(h, x);
      var p := h[x].parent.value;
      var r := RootPath(h, p);
      PathExtend(h, r, x);
      q := r + [x];
    }
  }

  // ------------------------------------------------- staying under the root

  /** No state has got less of a parent or more to hang from it. */
  ghost predicate Lighter(h: Heap, g: Heap) {
    forall y {:trigger AnchoredAt(g, y)} | y in g ::
      y in h && g[y].parent == h[y].parent && (g[y].rb ==> h[y].rb) && (g[y].subq != [] ==> h[y].subq != [])
  }

  lemma LighterAnchored(h: Heap, g: Heap)
    requires Lighter(h, g) && Anchored(h)
    ensures Anchored(g)
  {
    forall y ensures AnchoredAt(g, y) { assert AnchoredAt(h, y); }
  }

  /** A state with nothing to hang from it may leave its parent's list. */
  lemma AnchoredLeaf(h: Heap, x: nat, g: Heap)
    requires Forest(h) && Anchored(h) && x in h && h[x].held > 0 && h[x].parent.Some? && g == Unparent(h, x)
    requires h[x].subq == [] && !h[x].rb
    ensures Anchored(g)
  {
    assert NodeOk(h, x);
    var p := h[x].parent.value;
    UnparentAt(h, x, p, g);
    forall y ensures AnchoredAt(g, y) {
      assert AnchoredAt(h, y);
      if y in g && y != x && y != p { assert SameAt(h, g, y); }
    }
  }

  /** Opening a transaction keeps the tree under the root exactly when its parent is
      still there. */
  lemma AnchoredInsert(h: Heap, p: nat, x: nat, s: St)
    requires Forest(h) && Anchored(h) && p in h && x !in h && x != ROOT
    ensures Anchored(Insert(h, p, x, s)) <==> p == ROOT || h[p].parent.Some?
  {
    var g := Insert(h, p, x, s);
    assert AnchoredAt(g, p) <==> p == ROOT || h[p].parent.Some?;
    forall y | y != p ensures AnchoredAt(g, y) { assert AnchoredAt(h, y); }
  }

  /** A closed state's leaving its parent's list keeps the tree under the root exactly
      when it has no children. */
  lemma AnchoredUnparent(h: Heap, x: nat)
    requires Forest(h) && Anchored(h) && x in h && x != ROOT && h[x].held > 0 && h[x].parent.Some? && !h[x].rb
    ensures Anchored(Unparent(h, x)) <==> h[x].subq == []
  {
    var g := Unparent(h, x);
    assert NodeOk(h, x);
    UnparentAt(h, x, h[x].parent.value, g);
    if h[x].subq == [] {
      AnchoredLeaf(h, x, g);
    } else {
      assert !AnchoredAt(g, x);
    }
  }

  /** This end's own DELETE keeps it: a state with children stays on the list. */
  lemma AnchoredTxClosed(h: Heap, x: nat)
    requires Forest(h) && Anchored(h) && x in h && x != ROOT && h[x].held > 0 && !h[x].txd
    ensures Anchored(TxClosed(h, x))
  {
    var h1 := h[x := h[x].(txc := true, txd := true)];
    FlagForest(h, x, h1[x]);
    LighterAnchored(h, h1);
    if h[x].rxd { AnchoredClosed(h1, x, Unlist(h1, x)); }
  }

  lemma AnchoredClosed(h: Heap, x: nat, g: Heap)
    requires Forest(h) && Anchored(h) && x in h && h[x].held > 0 && g == Unlist(h, x)
    ensures x in g && Anchored(g) && (h[x].subq == [] ==> Anchored(Unparent(g, x)))
  {
    UnlistKeeps(h, x);
    UnlistOwn(h, x, g);
    LighterAnchored(h, g);
    if h[x].subq == [] && g[x].parent.Some? { AnchoredLeaf(g, x, Unparent(g, x)); }
  }

  lemma AnchoredTracked(h: Heap, x: nat, create: bool, del: bool)
    requires Forest(h) && Anchored(h) && x in h
    ensures Anchored(Tracked(h, x, create, del))
  {
    LighterAnchored(h, Tracked(h, x, create, del));
  }

  lemma AnchoredDrop(h: Heap, x: nat)
    requires Anchored(h)
    ensures Anchored(Drop(h, x))
  {
    LighterAnchored(h, Drop(h, x));
  }

  // ---------------------------------------------------------- left behind

  lemma ParentStays(h: Heap, x: nat, g: Heap)
    requires Forest(h) && x in h && h[x].parent.Some? && h[x].held > 0 && g == Unlist(h, x)
    ensures x in g && g[x].parent == h[x].parent && !g[x].rb && g[x].txd == h[x].txd && g[x].rxd == h[x].rxd
    ensures Forest(g) && g[x].held == h[x].held
  {
    assert NodeOk(h, x);
    UnlistKeeps(h, x);
  }

  /** A state that its own DELETE closes lingers, once the message has let go, exactly
      when it has children. */
  lemma TxClosedLingers(h: Heap, x: nat)
    requires Forest(h) && x in h && x != ROOT && h[x].held > 0 && h[x].rxd && !h[x].txd && h[x].parent.Some?
    ensures Lingering(Drop(TxClosed(h, x), x), x) <==> h[x].subq != []
  {
    var h1 := h[x := h[x].(txc := true, txd := true)];
    var p, h2 := h[x].parent.value, Unlist(h1, x);
    assert NodeOk(h, x);
    ClosedChild(h, x, p, h1, h2);
    ParentStays(h1, x, h2);
    if h[x].subq == [] {
      UnparentAt(h2, x, p, Unparent(h2, x));
    } else {
      DropAt(h2, x, Drop(h2, x));
    }
  }

  lemma ParentAfter(h: Heap, c: nat, p: nat, g: Heap)
    requires Forest(h) && c in h && h[c].parent == Some(p) && p in h && g == Unparent(h, c)
    ensures p in g ==> g[p] == Bereft(h[p], c)
    ensures h[p].parent.Some? ==> p in g
  {
    assert NodeOk(h, c) && NodeOk(h, p);
    assert p != c;
  }

  /** When a child leaves, its parent is stranded exactly when it lingered with that
      child alone. */
  lemma LastChildStrands(h: Heap, c: nat, p: nat)
    requires Forest(h) && c in h && h[c].parent == Some(p) && p in h
    ensures Stranded(Unparent(h, c), p) <==> Lingering(h, p) && h[p].subq == [c]
  {
    ParentAfter(h, c, p, Unparent(h, c));
    assert NodeOk(h, c) && NodeOk(h, p);
    var q := h[p].subq;
    RemoveNoDup(q, c);
    assert |q| == 1 ==> q[0] == c;
  }

  /** The same for a child that its own DELETE closes. */
  lemma TxClosedStrands(h: Heap, c: nat, p: nat)
    requires Forest(h) && c in h && h[c].held > 0 && h[c].rxd && h[c].subq == [] && h[c].parent == Some(p) && p in h
    ensures Stranded(Drop(TxClosed(h, c), c), p) <==> Lingering(h, p) && h[p].subq == [c]
  {
    var h1 := h[c := h[c].(txc := true, txd := true)];
    var h2 := Unlist(h1, c);
    ClosedChild(h, c, p, h1, h2);
    LastChildStrands(h2, c, p);
    StrandedDrop(Unparent(h2, c), c, p);
  }

  lemma ClosedChild(h: Heap, c: nat, p: nat, h1: Heap, h2: Heap)
    requires Forest(h) && c in h && h[c].held > 0 && h[c].parent == Some(p) && p in h
    requires h1 == h[c := h[c].(txc := true, txd := true)] && h2 == Unlist(h1, c)
    ensures Forest(h1) && Forest(h2) && c in h2 && h2[c].parent == Some(p) && c != p && p in h2 && h2[p] == h[p]
  {
    assert NodeOk(h, c);
    FlagForest(h, c, h1[c]);
    ParentStays(h1, c, h2);
  }

  lemma StrandedDrop(h: Heap, c: nat, p: nat)
    requires c != p
    ensures Stranded(Drop(h, c), p) <==> Stranded(h, p)
  {
  }

  /** And stays so: no step on another state takes it off its list, whatever states the
      step goes through, its own ancestors and the root among them. */
  lemma StrandedStays(ans: nat -> bool, h: Heap, g: Heap, x: nat, z: nat)
    requires Forest(h) && x in h && Laws(ans, h, g, x) && GrowsBut(h, g, x) && Stranded(h, z) && z != x
    ensures Stranded(g, z) && g[z].parent == h[z].parent
  {
    LingersOn(ans, h, g, x);
    assert Lingering(g, z) && MonoAt(h, g, z);
    EmptyOrNot(g[z].subq);
  }
}
