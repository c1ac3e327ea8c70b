/**
What joining lines keeps: the layout of a statement over lines does not show in the
result, and no text is lost, added or moved.
*/
module CoreReflow {
  import opened CoreText
  import opened CoreDepth
  import opened CoreCollapse
  import opened CoreDiff

  // ------------------------------------------------------- breaking a line

  lemma TightRun(a: string, w: string, b: string)
    requires Tight(a) && Tight(b) && Blank(w)
    ensures Tight(a + w + b) && Strip(a + w + b) == a + w + b
  {
    var s := a + w + b;
    assert s[0] == a[0] && s[|s| - 1] == b[|b| - 1];
  }

  /** The one storage class with space in it breaks after `static`. */
  lemma StorageSplit(x: string, w: string, y: string)
    requires IsStorage(x + w + y) && Blank(w) && w != ""
    ensures x == "static"
  {
    var s := x + w + y;
    assert s[|x|] == w[0] && w[0] in w && IsSpace(s[|x|]);
    if s == "static __inline" {
      assert |x| == 6;
      assert x == s[..6];
    }
  }

  /** Two joining states that differ in runs of space only. */
  ghost predicate Same(t: Text, u: Text) {
    && Mapped(Collapse, t.out) == Mapped(Collapse, u.out)
    && (t.buf == "" <==> u.buf == "") && Collapse(t.buf) == Collapse(u.buf)
  }

  predicate Ready(t: Text) { t.buf == "" || Tight(t.buf) }

  lemma ExtendedTight(buf: string, line: string)
    requires (buf == "" || Tight(buf)) && Tight(line)
    ensures Tight(Extended(buf, line)) && (buf != "" ==> Extended(buf, line) == buf + " " + line)
  {
    if buf != "" { TightRun(buf, " ", line); }
  }

  lemma ExtendedSame(a: string, b: string, line: string)
    requires (a == "" || Tight(a)) && (b == "" || Tight(b)) && (a == "" <==> b == "") && Collapse(a) == Collapse(b)
    requires Tight(line)
    ensures Collapse(Extended(a, line)) == Collapse(Extended(b, line))
    ensures Depth(Extended(a, line)) == Depth(Extended(b, line))
  {
    ExtendedTight(a, line);
    ExtendedTight(b, line);
    if a != "" {
      CollapseJoin(a, " ", line);
      CollapseJoin(b, " ", line);
    }
    DepthCollapse(Extended(a, line));
    DepthCollapse(Extended(b, line));
  }

  /** The space in what is pending has no say in what follows. */
  lemma TakeSame(t: Text, u: Text, line: string)
    requires Same(t, u) && Ready(t) && Ready(u) && Tight(line)
    ensures Same(Take(t, line), Take(u, line))
  {
    ExtendedSame(t.buf, u.buf, line);
    MappedAppend(Collapse, t.out, Extended(t.buf, line));
    MappedAppend(Collapse, u.out, Extended(u.buf, line));
  }

  lemma TakeReady(t: Text, line: string)
    requires Ready(t) && Tight(line)
    ensures Ready(Take(t, line))
  {
    ExtendedTight(t.buf, line);
  }

  lemma {:induction false} TakeAllSame(t: Text, u: Text, lines: seq<string>)
    requires Same(t, u) && Ready(t) && Ready(u) && forall l | l in lines :: Tight(l)
    ensures Same(TakeAll(t, lines), TakeAll(u, lines))
    decreases |lines|
  {
    if lines != [] {
      TakeSame(t, u, lines[0]);
      TakeReady(t, lines[0]);
      TakeReady(u, lines[0]);
      TakeAllSame(Take(t, lines[0]), Take(u, lines[0]), lines[1..]);
    }
  }

  /** A break at the space w between x and y does not show: after a storage class that
      starts a statement, unless the whole is itself a storage class; elsewhere, inside
      parentheses. */
  predicate CanBreak(t: Text, x: string, w: string, y: string) {
    if t.buf == "" && IsStorage(x) then !IsStorage(x + w + y)
    else Depth(Extended(t.buf, x)) > 0
  }

  lemma TakeTwo(t: Text, x: string, y: string)
    ensures TakeAll(t, [x, y]) == Take(Take(t, x), y) && TakeAll(t, [x]) == Take(t, x)
  {
    assert [x, y][1..] == [y];
    TakeFew(t, [x]);
    TakeFew(Take(t, x), [y]);
  }

  /** Joined in one go or in two, the pending text is the same but for space. */
  lemma JoinedOnce(buf: string, x: string, w: string, y: string)
    requires (buf == "" || Tight(buf)) && Tight(x) && Tight(y) && Blank(w) && w != ""
    ensures var one, two := Extended(buf, x + w + y), Extended(Extended(buf, x), y);
            Collapse(one) == Collapse(two) && Depth(one) == Depth(two) && one != "" && two != ""
  {
    var b := Extended(buf, x);
    var one, two := Extended(buf, x + w + y), Extended(b, y);
    TightRun(x, w, y);
    ExtendedTight(buf, x);
    ExtendedTight(buf, x + w + y);
    ExtendedTight(b, y);
    assert one == b + w + y by {
      if buf != "" { assert buf + " " + (x + w + y) == buf + " " + x + w + y; }
    }
    CollapseJoin(b, w, y);
    CollapseJoin(b, " ", y);
    DepthCollapse(one);
    DepthCollapse(two);
  }

  /** The joining state after a line is, but for space, the state after its two halves
      exactly when the line can be broken there. */
  lemma BreakIff(t: Text, x: string, w: string, y: string)
    requires Ready(t) && Tight(x) && Tight(y) && Blank(w) && w != ""
    ensures Same(TakeAll(t, [x + w + y]), TakeAll(t, [x, y])) <==> CanBreak(t, x, w, y)
  {
    TakeTwo(t, x, y);
    TakeTwo(t, x + w + y, y);
    JoinedOnce(t.buf, x, w, y);
    if IsStorage(x + w + y) { StorageSplit(x, w, y); }
    var b := Extended(t.buf, x);
    if t.buf == "" && IsStorage(x) {
      BreakAfterStorage(t, x, w, y);
    } else if Depth(b) <= 0 {
      EmitsDiffer(t, b, Extended(t.buf, x + w + y), y);
    } else {
      ExtendedTight(t.buf, x);
      MappedAppend(Collapse, t.out, Extended(t.buf, x + w + y));
      MappedAppend(Collapse, t.out, Extended(b, y));
    }
  }

  lemma BreakAfterStorage(t: Text, x: string, w: string, y: string)
    requires t.buf == "" && IsStorage(x) && Tight(x) && Tight(y) && Blank(w) && w != ""
    requires var one, two := x + w + y, Extended(x, y); Collapse(one) == Collapse(two) && Depth(one) == Depth(two)
    ensures Same(Take(t, x + w + y), Take(Take(t, x), y)) <==> !IsStorage(x + w + y)
  {
    var one, two := x + w + y, Extended(x, y);
    StorageDepth(one);
    MappedAppend(Collapse, t.out, one);
    MappedAppend(Collapse, t.out, two);
    if IsStorage(one) {
      assert |Mapped(Collapse, t.out)| == |t.out| && |Mapped(Collapse, t.out + [two])| == |t.out| + 1;
    }
  }

  lemma StorageDepth(s: string)
    ensures IsStorage(s) ==> Depth(s) == 0
  {
    if IsStorage(s) { NoParens(s, 0); }
  }

  lemma {:induction false} NoParens(s: string, i: nat)
    requires i <= |s| && forall c | c in s :: c != '(' && c != ')' && !IsQuote(c)
    ensures DepthAt(s, i) == 0
    decreases |s| - i
  {
    if i < |s| { NoParens(s, i + 1); }
  }

  /** Ending a statement early shows. */
  lemma EmitsDiffer(t: Text, b: string, whole: string, y: string)
    requires y != "" && b != "" && whole != ""
    ensures !Same(Text(t.out + [whole], ""), Take(Text(t.out + [b], ""), y))
    ensures !Same(t.(buf := whole), Take(Text(t.out + [b], ""), y))
  {
    var r := Take(Text(t.out + [b], ""), y);
    assert |Mapped(Collapse, r.out)| == |r.out| && |Mapped(Collapse, t.out + [whole])| == |t.out| + 1;
    assert |Mapped(Collapse, t.out)| == |t.out|;
    assert r.buf == y || |r.out| == |t.out| + 2;
  }

  // --------------------------------------------------- breaks in raw lines

  /** A place to break a line of a file: the lines before and after it, the text left
      and right of the break, the space at the break, and the space around each half. */
  datatype Cut = Cut(before: seq<string>, after: seq<string>,
                     w0: string, x: string, w: string, y: string, w3: string, w1: string, w2: string)

  function Whole(c: Cut): string { c.w0 + (c.x + c.w + c.y) + c.w3 }

  function Unbroken(c: Cut): seq<string> { c.before + [Whole(c)] + c.after }

  function Broken(c: Cut): seq<string> { c.before + [c.w0 + c.x + c.w1, c.w2 + c.y + c.w3] + c.after }

  /** Neither the line nor a part is an include line, and the break does not show where
      the joining has got to. */
  ghost predicate Legal(c: Cut) {
    && Tight(c.x) && Tight(c.y) && Blank(c.w) && c.w != ""
    && Blank(c.w0) && Blank(c.w1) && Blank(c.w2) && Blank(c.w3)
    && !IsInclude(Whole(c)) && !IsInclude(c.w0 + c.x + c.w1) && !IsInclude(c.w2 + c.y + c.w3)
    && CanBreak(TakeAll(EMPTY, Kept(c.before)), Rewrite(c.x), c.w, Rewrite(c.y))
  }

  lemma KeepTrimmed(w: string, s: string, w': string)
    requires Blank(w) && Blank(w') && Tight(s) && !IsInclude(w + s + w')
    ensures Keep(w + s + w') == [Rewrite(s)]
  {
    StripBlank(w, s, w');
  }

  lemma KeepPair(w0: string, x: string, w: string, y: string, w3: string, s: string)
    requires Blank(w0) && Blank(w3) && Tight(x) && Tight(y) && Blank(w) && w != "" && s == x + w + y
    requires !IsInclude(w0 + s + w3)
    ensures Keep(w0 + s + w3) == [Rewrite(x) + w + Rewrite(y)]
  {
    TightRun(x, w, y);
    KeepTrimmed(w0, s, w3);
    RewriteSpace(x, w, y);
  }

  lemma KeptPair(a: string, b: string)
    ensures Kept([a, b]) == Keep(a) + Keep(b)
  {
    assert [a] + [b] == [a, b];
    KeptAppend([a], [b]);
    KeptOne(a);
    KeptOne(b);
  }

  lemma KeepWhole(c: Cut)
    requires Legal(c)
    ensures Keep(Whole(c)) == [Rewrite(c.x) + c.w + Rewrite(c.y)]
  {
    KeepPair(c.w0, c.x, c.w, c.y, c.w3, c.x + c.w + c.y);
  }

  lemma KeepHalves(c: Cut)
    requires Legal(c)
    ensures Kept([c.w0 + c.x + c.w1, c.w2 + c.y + c.w3]) == [Rewrite(c.x), Rewrite(c.y)]
  {
    KeepTrimmed(c.w0, c.x, c.w1);
    KeepTrimmed(c.w2, c.y, c.w3);
    KeptPair(c.w0 + c.x + c.w1, c.w2 + c.y + c.w3);
  }

  lemma {:induction false} ReadyStays(t: Text, lines: seq<string>)
    requires Ready(t) && forall l | l in lines :: Tight(l)
    ensures Ready(TakeAll(t, lines))
    decreases |lines|
  {
    if lines != [] {
      TakeReady(t, lines[0]);
      ReadyStays(Take(t, lines[0]), lines[1..]);
    }
  }

  lemma KeptAround(before: seq<string>, mid: seq<string>, after: seq<string>)
    ensures TakeAll(EMPTY, Kept(before + mid + after))
         == TakeAll(TakeAll(TakeAll(EMPTY, Kept(before)), Kept(mid)), Kept(after))
  {
    KeptAppend(before + mid, after);
    KeptAppend(before, mid);
    TakeAppend(EMPTY, Kept(before) + Kept(mid), Kept(after));
    TakeAppend(EMPTY, Kept(before), Kept(mid));
  }

  lemma SameFinished(t: Text, u: Text, finish: string -> string, last: string -> string)
    requires Same(t, u)
    ensures Finished(t, finish, last) == Finished(u, finish, last)
  {
  }

  /** Breaking a line at a legal place leaves the statements as they were. */
  lemma Reflow(c: Cut, finish: string -> string, last: string -> string)
    requires Legal(c)
    ensures Normalised(Unbroken(c), finish, last) == Normalised(Broken(c), finish, last)
  {
    var t, x, y := TakeAll(EMPTY, Kept(c.before)), Rewrite(c.x), Rewrite(c.y);
    var halves := [c.w0 + c.x + c.w1, c.w2 + c.y + c.w3];
    KeptAround(c.before, [Whole(c)], c.after);
    KeptAround(c.before, halves, c.after);
    KeepWhole(c);
    KeepHalves(c);
    KeptOne(Whole(c));
    ReadyStays(EMPTY, Kept(c.before));
    RewriteTight(c.x);
    RewriteTight(c.y);
    BreakIff(t, x, c.w, y);
    TightRun(x, c.w, y);
    ReadyStays(t, [x + c.w + y]);
    ReadyStays(t, [x, y]);
    TakeAllSame(TakeAll(t, [x + c.w + y]), TakeAll(t, [x, y]), Kept(c.after));
    SameFinished(TakeAll(EMPTY, Kept(Unbroken(c))), TakeAll(EMPTY, Kept(Broken(c))), finish, last);
  }

  ghost predicate Breaks(a: seq<string>, b: seq<string>) {
    exists c :: Legal(c) && a == Unbroken(c) && b == Broken(c)
  }

  /** Each file is related to the one before it. */
  ghost predicate Linked(r: (seq<string>, seq<string>) -> bool, files: seq<seq<string>>) {
    var n := |files| - 1;
    n >= 0 && (n > 0 ==> Linked(r, files[..n]) && r(files[n - 1], files[n]))
  }

  lemma {:induction false} LinkedSame(r: (seq<string>, seq<string>) -> bool, f: seq<string> -> seq<string>,
                                      files: seq<seq<string>>)
    requires Linked(r, files) && forall a, b | r(a, b) :: f(a) == f(b)
    ensures f(files[0]) == f(files[|files| - 1])
  {
    var n := |files| - 1;
    if n > 0 {
      LinkedSame(r, f, files[..n]);
    }
  }

  /** And so does any number of breaks, one after another. */
  lemma ReflowMany(files: seq<seq<string>>, finish: string -> string, last: string -> string)
    requires Linked(Breaks, files)
    ensures Normalised(files[0], finish, last) == Normalised(files[|files| - 1], finish, last)
  {
    var f := (l: seq<string>) => Normalised(l, finish, last);
    forall a, b | Breaks(a, b) ensures f(a) == f(b) {
      var c :| Legal(c) && a == Unbroken(c) && b == Broken(c);
      Reflow(c, finish, last);
    }
    LinkedSame(Breaks, f, files);
  }

  // ----------------------------------------------------- conserving text

  /** A group of lines makes a complete statement. */
  predicate Closes(g: seq<string>) {
    g != [] && !(|g| == 1 && IsStorage(g[0])) && Depth(Joined(g)) <= 0
  }

  /** The kept lines in groups: the complete ones, and the lines still pending. */
  datatype Groups = Groups(done: seq<seq<string>>, open: seq<string>)

  function Add(p: Groups, line: string): Groups {
    var g := p.open + [line];
    if Closes(g) then Groups(p.done + [g], []) else Groups(p.done, g)
  }

  function AddAll(p: Groups, lines: seq<string>): Groups
    decreases |lines|
  {
    if lines == [] then p else AddAll(Add(p, lines[0]), lines[1..])
  }

  function Flat(gs: seq<seq<string>>): seq<string> {
    if gs == [] then [] else Flat(gs[..|gs| - 1]) + gs[|gs| - 1]
  }

  function JoinedAll(gs: seq<seq<string>>): seq<string> {
    if gs == [] then [] else JoinedAll(gs[..|gs| - 1]) + [Joined(gs[|gs| - 1])]
  }

  function TextOf(p: Groups): Text { Text(JoinedAll(p.done), Joined(p.open)) }

  /** The shortest run of lines that makes a complete statement. */
  ghost predicate Shortest(g: seq<string>) {
    Closes(g) && forall k | 0 < k < |g| :: !Closes(g[..k])
  }

  /** No run of the lines from the first makes a complete statement. */
  ghost predicate Unfinished(g: seq<string>) {
    forall k | 0 < k <= |g| :: !Closes(g[..k])
  }

  ghost predicate GroupsOk(p: Groups) {
    && (forall g | g in p.done :: Shortest(g))
    && Unfinished(p.open)
    && (forall l | l in p.open :: Tight(l))
  }

  lemma {:induction false} JoinedTight(g: seq<string>)
    requires g != [] && forall l | l in g :: Tight(l)
    ensures Tight(Joined(g))
  {
    if |g| > 1 {
      JoinedTight(g[..|g| - 1]);
      TightRun(Joined(g[..|g| - 1]), " ", g[|g| - 1]);
    }
  }

  lemma JoinedSnoc(g: seq<string>, line: string)
    requires Tight(line) && forall l | l in g :: Tight(l)
    ensures Joined(g + [line]) == Extended(Joined(g), line)
  {
    if g != [] {
      assert (g + [line])[..|g|] == g;
      JoinedTight(g);
      TightRun(Joined(g), " ", line);
    }
  }

  lemma AddIsTake(p: Groups, line: string)
    requires GroupsOk(p) && Tight(line)
    ensures TextOf(Add(p, line)) == Take(TextOf(p), line)
  {
    var g := p.open + [line];
    JoinedSnoc(p.open, line);
    if p.open != [] { JoinedTight(p.open); }
    assert (p.done + [g])[..|p.done|] == p.done;
  }

  lemma AddKeeps(p: Groups, line: string)
    requires GroupsOk(p) && Tight(line)
    ensures GroupsOk(Add(p, line))
  {
    OpenGrows(p.open, line);
  }

  lemma OpenGrows(open: seq<string>, line: string)
    requires Unfinished(open)
    ensures var g := open + [line]; if Closes(g) then Shortest(g) else Unfinished(g)
  {
    PrefixesGrow(Closes, open, line);
  }

  lemma PrefixesGrow(p: seq<string> -> bool, open: seq<string>, line: string)
    requires forall k | 0 < k <= |open| :: !p(open[..k])
    ensures var g := open + [line];
            && (forall k | 0 < k < |g| :: !p(g[..k]))
            && (!p(g) ==> forall k | 0 < k <= |g| :: !p(g[..k]))
  {
    var g := open + [line];
    forall k | 0 < k < |g| ensures !p(g[..k]) { assert g[..k] == open[..k]; }
    assert g[..|g|] == g;
  }

  /** All the lines of the groups, complete or not. */
  function AllLines(p: Groups): seq<string> { Flat(p.done) + p.open }

  lemma AddConserves(p: Groups, line: string)
    ensures AllLines(Add(p, line)) == AllLines(p) + [line]
  {
    FlatSnoc(p.done, p.open + [line]);
    assert Flat(p.done) + (p.open + [line]) == Flat(p.done) + p.open + [line];
  }

  lemma FlatSnoc(gs: seq<seq<string>>, g: seq<string>)
    ensures Flat(gs + [g]) + [] == Flat(gs) + g
  {
    assert (gs + [g])[..|gs|] == gs;
  }

  lemma {:induction false} AllConserves(p: Groups, lines: seq<string>)
    ensures AllLines(AddAll(p, lines)) == AllLines(p) + lines
    decreases |lines|
  {
    if lines != [] {
      AddConserves(p, lines[0]);
      AllConserves(Add(p, lines[0]), lines[1..]);
      assert AllLines(p) + [lines[0]] + lines[1..] == AllLines(p) + lines;
    }
  }

  lemma {:induction false} GroupsAreText(p: Groups, lines: seq<string>)
    requires GroupsOk(p) && forall l | l in lines :: Tight(l)
    ensures var q := AddAll(p, lines); GroupsOk(q) && TakeAll(TextOf(p), lines) == TextOf(q)
    decreases |lines|
  {
    if lines != [] {
      AddIsTake(p, lines[0]);
      AddKeeps(p, lines[0]);
      GroupsAreText(Add(p, lines[0]), lines[1..]);
    }
  }

  const NONE := Groups([], [])

  lemma NoneOk()
    ensures GroupsOk(NONE) && TextOf(NONE) == EMPTY && AllLines(NONE) == []
  {
  }

  /** The statements of a file, before anything is done to them, are its kept lines in
      order, each statement the shortest run that is complete, and what is pending at
      the end no complete one. */
  lemma JoiningConserves(raws: seq<string>)
    ensures var q := AddAll(NONE, Kept(raws));
            TakeAll(EMPTY, Kept(raws)) == TextOf(q) && AllLines(q) == Kept(raws) && GroupsOk(q)
  {
    NoneOk();
    var lines := Kept(raws);
    GroupsAreText(NONE, lines);
    AllConserves(NONE, lines);
  }
}
