/**
Stacked transactions of one connection: the tree of transaction states under the
connection's root state, and the reference count each state carries.

A state is named by its address; `Heap` is what is allocated.  `held` counts the
references that messages and running code hold, so that the count a state ought to
have can be read off the state itself.  `born` orders states by creation; it is not
in the source and stands for the fact that a parent exists before its child.
*/
module DmsgStates {
  import opened Base

  /** One transaction state.  `parent` is set exactly while the state is inserted on
      its parent's list (SUBINSERTED); `rb` says it is in a lookup tree (RBINSERTED);
      `young` is NEW; `inter` is INTERLOCK, set while a message of the state's is sent. */
  datatype St = St(
    born: nat, parent: Option<nat>, subq: seq<nat>, refs: int, rb: bool, held: nat,
    txc: bool, txd: bool, rxc: bool, rxd: bool, aborting: bool, dying: bool, young: bool, inter: bool)

  type Heap = map<nat, St>

  /** The root state, part of the connection and never freed. */
  const ROOT: nat := 0

  // ------------------------------------------------------- the invariant

  /** One reference for a non-empty list, one for being on the parent's, one for the
      lookup tree, and one for each message or holder. */
  function Weight(s: St): nat {
    (if s.subq == [] then 0 else 1) + (if s.parent.None? then 0 else 1) + (if s.rb then 1 else 0) + s.held
  }

  ghost predicate NoDup(q: seq<nat>) {
    forall i, j :: 0 <= i < j < |q| ==> q[i] != q[j]
  }

  ghost predicate NodeOk(h: Heap, x: nat)
    requires x in h
  {
    var s := h[x];
    && s.refs == Weight(s) && (x != ROOT ==> s.refs > 0)
    && NoDup(s.subq)
    && (forall c | c in s.subq :: c in h && h[c].parent == Some(x))
    && (s.parent.Some? ==>
          var p := s.parent.value; p in h && x in h[p].subq && h[p].born < s.born)
  }

  /** The states form a forest by parent and list, with every count right. */
  ghost predicate Forest(h: Heap) {
    && ROOT in h && h[ROOT].parent.None?
    && forall x {:trigger NodeOk(h, x)} | x in h :: NodeOk(h, x)
  }

  ghost predicate AnchoredAt(h: Heap, x: nat) {
    x in h && x != ROOT && (h[x].rb || h[x].subq != []) ==> h[x].parent.Some?
  }

  /** Every state that is open or has children hangs under its parent. */
  ghost predicate Anchored(h: Heap) {
    forall x {:trigger AnchoredAt(h, x)} :: AnchoredAt(h, x)
  }

  // ------------------------------------------------------- the primitives

  function Remove(q: seq<nat>, x: nat): (r: seq<nat>)
    ensures forall y :: y in r <==> y in q && y != x
    ensures x !in q ==> r == q
  {
    if q == [] then []
    else if q[0] == x then Remove(q[1..], x)
    else [q[0]] + Remove(q[1..], x)
  }

  lemma {:induction false} RemoveNoDup(q: seq<nat>, x: nat)
    requires NoDup(q)
    ensures NoDup(Remove(q, x))
    ensures x in q ==> |Remove(q, x)| == |q| - 1
  {
    if q != [] {
      var t := q[1..];
      assert forall i | 0 <= i < |t| :: t[i] == q[i + 1];
      assert q[0] !in t;
      RemoveNoDup(t, x);
      var r := Remove(t, x);
      if q[0] != x {
        assert q[0] !in r;
        var w := [q[0]] + r;
        forall i, j | 0 <= i < j < |w| ensures w[i] != w[j] {
          assert w[j] == r[j - 1];
        }
        assert Remove(q, x) == w;
      }
    }
  }

  /** Drop a reference: s is the state with the reference taken off, and it is freed
      if that was the last. */
  function Put(h: Heap, x: nat, s: St): Heap {
    if s.refs == 0 && x != ROOT then h - {x} else h[x := s]
  }

  function Hold(h: Heap, x: nat): Heap
    requires x in h
  {
    h[x := h[x].(refs := h[x].refs + 1, held := h[x].held + 1)]
  }

  function Drop(h: Heap, x: nat): Heap {
    if x in h && h[x].held > 0 then Put(h, x, h[x].(refs := h[x].refs - 1, held := h[x].held - 1)) else h
  }

  /** Take a state out of its lookup tree. */
  function Unlist(h: Heap, x: nat): Heap {
    if x in h && h[x].rb then Put(h, x, h[x].(refs := h[x].refs - 1, rb := false)) else h
  }

  /** Take a state off its parent's list; the parent loses a reference with its last
      child. */
  function Unparent(h: Heap, x: nat): Heap {
    if x !in h || h[x].parent.None? || h[x].parent.value !in h then h
    else
      var p := h[x].parent.value;
      var q := Remove(h[p].subq, x);
      var h1 := Put(h, p, h[p].(subq := q, refs := h[p].refs - if q == [] then 1 else 0));
      Put(h1, x, h[x].(parent := None, refs := h[x].refs - 1))
  }

  /** A new state on p's list, in a lookup tree, held by its message. */
  function Insert(h: Heap, p: nat, x: nat, s: St): Heap
    requires p in h
  {
    var sp := h[p];
    h[p := sp.(subq := sp.subq + [x], refs := sp.refs + if sp.subq == [] then 1 else 0)]
     [x := s.(parent := Some(p), subq := [], rb := true, held := 1, refs := 3)]
  }

  lemma HoldKeeps(h: Heap, x: nat)
    requires Forest(h) && x in h
    ensures Forest(Hold(h, x))
  {
    var g := Hold(h, x);
    forall y | y in g ensures NodeOk(g, y) { assert NodeOk(h, y); }
  }

  /** A state is freed only when nothing refers to it. */
  lemma PutKeeps(h: Heap, x: nat, s: St)
    requires Forest(h) && x in h
    requires s == h[x].(refs := s.refs, held := s.held, rb := s.rb) && s.refs == Weight(s)
    ensures Forest(Put(h, x, s))
    ensures x !in Put(h, x, s) ==> s.subq == [] && s.parent.None? && !s.rb && s.held == 0
  {
    var g := Put(h, x, s);
    assert NodeOk(h, x);
    forall y | y in g ensures NodeOk(g, y) { assert NodeOk(h, y); }
  }

  lemma DropKeeps(h: Heap, x: nat)
    requires Forest(h) && x in h && h[x].held > 0
    ensures Forest(Drop(h, x))
  {
    assert NodeOk(h, x);
    PutKeeps(h, x, h[x].(refs := h[x].refs - 1, held := h[x].held - 1));
  }

  lemma UnlistKeeps(h: Heap, x: nat)
    requires Forest(h) && x in h
    ensures Forest(Unlist(h, x))
  {
    assert NodeOk(h, x);
    if h[x].rb { PutKeeps(h, x, h[x].(refs := h[x].refs - 1, rb := false)); }
  }

  lemma UnparentParent(h: Heap, x: nat, p: nat, g: Heap)
    requires Forest(h) && x in h && p in h && h[x].parent == Some(p) && g == Unparent(h, x) && p in g
    ensures NodeOk(g, p)
  {
    assert NodeOk(h, x) && NodeOk(h, p);
    RemoveNoDup(h[p].subq, x);
    var s := h[p];
    if s.parent.Some? { assert NodeOk(h, s.parent.value); }
    forall c | c in g[p].subq ensures c in g && g[c].parent == Some(p) { assert c in h && c != x && c != p; }
  }

  lemma UnparentOther(h: Heap, x: nat, p: nat, g: Heap, y: nat)
    requires Forest(h) && x in h && p in h && h[x].parent == Some(p) && g == Unparent(h, x) && y in g && y != p
    ensures NodeOk(g, y)
  {
    assert NodeOk(h, x) && NodeOk(h, y) && NodeOk(h, p);
    assert y in h && g[y].subq == h[y].subq;
    forall c | c in g[y].subq ensures c in g && g[c].parent == Some(y) { assert NodeOk(h, c) && c != x; }
  }

  lemma UnparentKeeps(h: Heap, x: nat)
    requires Forest(h) && x in h
    ensures Forest(Unparent(h, x))
  {
    assert NodeOk(h, x);
    if h[x].parent.Some? {
      var p, g := h[x].parent.value, Unparent(h, x);
      forall y | y in g ensures NodeOk(g, y) {
        if y == p { UnparentParent(h, x, p, g); } else { UnparentOther(h, x, p, g, y); }
      }
    }
  }

  lemma InsertKeeps(h: Heap, p: nat, x: nat, s: St)
    requires Forest(h) && p in h && x !in h && h[p].born < s.born
    ensures Forest(Insert(h, p, x, s))
  {
    var g := Insert(h, p, x, s);
    forall y | y in g ensures NodeOk(g, y) {
      if y != x { assert NodeOk(h, y); }
      if y == p { assert x !in h[p].subq; }
    }
  }
}
