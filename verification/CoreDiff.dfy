/**
Joining the kept lines of a source file into statements, so that the same statement
laid out over a different number of lines compares equal.
*/
module CoreDiff {
  import opened CoreText
  import opened CoreDepth

  predicate IsStorage(s: string) {
    s == "static" || s == "extern" || s == "inline" || s == "__inline" || s == "static __inline"
  }

  // ---------------------------------------------------------- kept lines

  /** `#include`, with space before and after the mark, and not a longer word. */
  predicate IsInclude(raw: string) {
    var s := Lstrip(raw);
    && s != "" && s[0] == '#'
    && var t := Lstrip(s[1..]);
       "include" <= t && (|t| == 7 || !IsWord(t[7]))
  }

  /** An include directive: space, the mark, space, the word, and no more of a word. */
  ghost predicate Includes(raw: string, u: string, v: string, r: string) {
    Blank(u) && Blank(v) && raw == u + "#" + v + "include" + r && (r == "" || !IsWord(r[0]))
  }

  lemma IncludeFound(raw: string) returns (u: string, v: string, r: string)
    requires IsInclude(raw)
    ensures Includes(raw, u, v, r)
  {
    var s := Lstrip(raw);
    u := LstripOuter(raw);
    v := LstripOuter(s[1..]);
    r := Lstrip(s[1..])[7..];
    PrefixRest("include", Lstrip(s[1..]), r);
    PrefixRest("#", s, s[1..]);
    Assoc5(u, "#", v, "include", r);
  }

  lemma PrefixRest(p: string, t: string, r: string)
    requires p <= t && r == t[|p|..]
    ensures t == p + r && (r != "" ==> r[0] == t[|p|])
  {
  }

  lemma Assoc5(a: string, b: string, c: string, d: string, e: string)
    ensures a + (b + (c + (d + e))) == a + b + c + d + e
  {
  }

  lemma LstripAt(w: string, s: string)
    requires Blank(w) && s != "" && !IsSpace(s[0])
    ensures Lstrip(w + s) == s
  {
    LstripBlank(w, s);
  }

  lemma IncludeIs(raw: string, u: string, v: string, r: string)
    requires Includes(raw, u, v, r)
    ensures IsInclude(raw)
  {
    var t := "include" + r;
    var s := "#" + (v + t);
    Assoc5(u, "#", v, "include", r);
    LstripAt(u, s);
    assert s[1..] == v + t;
    LstripAt(v, t);
    assert "include" <= t && (|t| > 7 ==> t[7] == r[0]);
  }

  /** A line is dropped exactly when it is blank or an include directive. */
  lemma KeptIff(raw: string)
    ensures Keep(raw) == [] <==> Blank(raw) || exists u, v, r :: Includes(raw, u, v, r)
  {
    if IsInclude(raw) { var u, v, r := IncludeFound(raw); }
    if u, v, r :| Includes(raw, u, v, r) { IncludeIs(raw, u, v, r); }
    StripEmptyIff(raw);
  }

  lemma StripEmptyIff(s: string)
    ensures Strip(s) == "" <==> Blank(s)
  {
    var w, w' := StripOuter(s);
    if Strip(s) == "" {
      forall c | c in s ensures IsSpace(c) { assert c in w || c in w'; }
    } else {
      assert Strip(s)[0] in s by { assert s[|w|] == Strip(s)[0]; }
    }
  }

  /** What becomes of one raw line: nothing, or its stripped and rewritten text. */
  function Keep(raw: string): (r: seq<string>)
    ensures |r| <= 1 && forall l | l in r :: Tight(l)
  {
    if IsInclude(raw) || Strip(raw) == "" then []
    else
      RewriteTight(Strip(raw));
      [Rewrite(Strip(raw))]
  }

  function Kept(raws: seq<string>): (r: seq<string>)
    ensures forall l | l in r :: Tight(l)
  {
    if raws == [] then [] else Keep(raws[0]) + Kept(raws[1..])
  }

  // ------------------------------------------------------------- joining

  /** The statements so far and the pending one. */
  datatype Text = Text(out: seq<string>, buf: string)

  function Extended(buf: string, line: string): string {
    if buf == "" then line else Strip(buf + " " + line)
  }

  /** One kept line: a storage class alone waits for the next line; otherwise the line
      joins the pending statement, which ends when its depth is not positive. */
  function Take(t: Text, line: string): Text {
    if t.buf == "" && IsStorage(line) then t.(buf := line)
    else
      var b := Extended(t.buf, line);
      if Depth(b) > 0 then t.(buf := b) else Text(t.out + [b], "")
  }

  function TakeAll(t: Text, lines: seq<string>): Text
    decreases |lines|
  {
    if lines == [] then t else TakeAll(Take(t, lines[0]), lines[1..])
  }

  lemma {:induction false} TakeAppend(t: Text, a: seq<string>, b: seq<string>)
    ensures TakeAll(t, a + b) == TakeAll(TakeAll(t, a), b)
    decreases |a|
  {
    if a == [] {
      assert a + b == b;
    } else {
      assert (a + b)[1..] == a[1..] + b;
      TakeAppend(Take(t, a[0]), a[1..], b);
    }
  }

  lemma {:induction false} KeptAppend(a: seq<string>, b: seq<string>)
    ensures Kept(a + b) == Kept(a) + Kept(b)
  {
    if a == [] {
      assert a + b == b;
    } else {
      assert (a + b)[1..] == a[1..] + b;
      KeptAppend(a[1..], b);
    }
  }

  const EMPTY := Text([], "")

  function Mapped(f: string -> string, s: seq<string>): (r: seq<string>)
    ensures |r| == |s| && forall i | 0 <= i < |s| :: r[i] == f(s[i])
  {
    seq(|s|, i requires 0 <= i < |s| => f(s[i]))
  }

  /** The result of a joining state: every statement with its space collapsed, and then
      `finish` done to it if it is complete and `last` if it is still pending. */
  function Finished(t: Text, finish: string -> string, last: string -> string): seq<string> {
    Mapped(finish, Mapped(Collapse, t.out)) + if t.buf == "" then [] else [last(Collapse(t.buf))]
  }

  function Normalised(raws: seq<string>, finish: string -> string, last: string -> string): seq<string> {
    Finished(TakeAll(EMPTY, Kept(raws)), finish, last)
  }

  lemma KeptOne(raw: string)
    ensures Kept([raw]) == Keep(raw)
  {
    assert [raw][1..] == [];
  }

  lemma TakeFew(t: Text, k: seq<string>)
    requires |k| <= 1
    ensures TakeAll(t, k) == if k == [] then t else Take(t, k[0])
  {
    if k != [] { assert k[1..] == []; }
  }

  lemma KeptMore(raws: seq<string>, i: nat)
    requires i < |raws|
    ensures Kept(raws[..i + 1]) == Kept(raws[..i]) + Keep(raws[i])
  {
    assert raws[..i + 1] == raws[..i] + [raws[i]];
    KeptAppend(raws[..i], [raws[i]]);
    KeptOne(raws[i]);
  }

  lemma OneMore(raws: seq<string>, i: nat, k: seq<string>, t: Text)
    requires i < |raws| && k == Keep(raws[i]) && t == TakeAll(EMPTY, Kept(raws[..i]))
    ensures TakeAll(EMPTY, Kept(raws[..i + 1])) == if k == [] then t else Take(t, k[0])
  {
    KeptMore(raws, i);
    TakeAppend(EMPTY, Kept(raws[..i]), k);
    TakeFew(t, k);
  }

  lemma MappedAppend(f: string -> string, s: seq<string>, x: string)
    ensures Mapped(f, s + [x]) == Mapped(f, s) + [f(x)]
  {
  }

  /** A line of one word of a table, with any space around it, comes out as the table's
      word for it. */
  lemma NormalisedWord(u: string, w: string, v: string, finish: string -> string, last: string -> string)
    requires Blank(u) && Blank(v) && AllWord(w)
    ensures var t := TypeAlias(Rename(w));
            Normalised([u + w + v], finish, last) == [if IsStorage(t) then last(Collapse(t)) else finish(Collapse(t))]
  {
    var t := TypeAlias(Rename(w));
    assert IsWord(w[0]) && IsWord(w[|w| - 1]);
    KeepLine(u, w, v);
    RewriteWord(w);
    WordDepth(w);
    NormalisedOne(u + w + v, t, finish, last);
  }

  /** A line that is no directive is kept, without the space around it. */
  lemma KeepLine(u: string, l: string, v: string)
    requires Blank(u) && Blank(v) && Tight(l) && l[0] != '#'
    ensures Keep(u + l + v) == [Rewrite(l)]
  {
    StripBlank(u, l, v);
    assert u + l + v == u + (l + v);
    LstripAt(u, l + v);
  }

  /** A kept line that is complete is a statement, and a storage class waits. */
  lemma NormalisedOne(raw: string, t: string, finish: string -> string, last: string -> string)
    requires Keep(raw) == [t] && Depth(t) <= 0
    ensures Normalised([raw], finish, last) == [if IsStorage(t) then last(Collapse(t)) else finish(Collapse(t))]
  {
    KeptOne(raw);
    TakeFew(EMPTY, [t]);
    assert t in Keep(raw) && t != "";
  }

  lemma WordDepth(w: string)
    requires AllWord(w)
    ensures Depth(TypeAlias(Rename(w))) <= 0
  {
    var t := TypeAlias(Rename(w));
    RenameIsWord(w);
    forall i | 0 <= i < |t| ensures Paren(t[i]) == 0 && !IsQuote(t[i]) { AliasPlain(Rename(w), i); }
    PlainDepth(t, 0);
  }

  lemma {:induction false} PlainDepth(s: string, i: nat)
    requires i <= |s| && forall k | i <= k < |s| :: Paren(s[k]) == 0 && !IsQuote(s[k])
    ensures DepthAt(s, i) == 0
    decreases |s| - i
  {
    if i < |s| { PlainDepth(s, i + 1); }
  }

  const STORAGE: seq<string> := ["static", "extern", "inline", "__inline", "static __inline"]

  lemma StorageIn(w: string)
    ensures IsStorage(w) <==> w in STORAGE
  {
    if IsStorage(w) {
      var k := if w == "static" then 0 else if w == "extern" then 1 else if w == "inline" then 2
               else if w == "__inline" then 3 else 4;
      assert STORAGE[k] == w;
    }
  }

  lemma StripTight(s: string)
    requires Tight(s)
    ensures Strip(s) == s
  {
    StripBlank("", s, "");
    assert "" + s + "" == s;
  }

  lemma TakeTwo(w: string, l: string)
    ensures TakeAll(EMPTY, [w, l]) == Take(Take(EMPTY, w), l)
  {
    TakeAppend(EMPTY, [w], [l]);
    TakeFew(EMPTY, [w]);
    TakeFew(Take(EMPTY, w), [l]);
    assert [w] + [l] == [w, l];
  }

  lemma TakeOn(w: string, l: string)
    requires Tight(w) && Tight(l) && Depth(w + " " + l) <= 0
    ensures Take(Text([], w), l) == Text([w + " " + l], "")
  {
    StripTight(w + " " + l);
  }

  lemma TakeKeeps(t: Text, l: string)
    ensures t.out <= Take(t, l).out
  {
  }

  /** A complete line joins the complete line after it exactly when it is a storage class
      alone. */
  lemma StorageJoins(w: string, l: string)
    requires Tight(w) && Tight(l) && Depth(w) <= 0 && Depth(w + " " + l) <= 0
    ensures TakeAll(EMPTY, [w, l]).out == [w + " " + l] <==> w in STORAGE
  {
    TakeTwo(w, l);
    StorageIn(w);
    if IsStorage(w) {
      TakeOn(w, l);
    } else {
      assert Take(EMPTY, w) == Text([w], "");
      TakeKeeps(Text([w], ""), l);
      assert TakeAll(EMPTY, [w, l]).out[0] == w && |w + " " + l| > |w|;
    }
  }

  method Normalise(raws: seq<string>, finish: string -> string, last: string -> string) returns (out: seq<string>)
    ensures out == Normalised(raws, finish, last)
  {
    out := [];
    var buf, depth := "", 0;
    ghost var t := EMPTY;
    for i := 0 to |raws|
      invariant t == TakeAll(EMPTY, Kept(raws[..i]))
      invariant out == Mapped(finish, Mapped(Collapse, t.out)) && buf == t.buf
    {
      OneMore(raws, i, Keep(raws[i]), t);
      if IsInclude(raws[i]) {
        continue;
      }
      var line := Strip(raws[i]);
      if line == "" {
        continue;
      }
      line := Rewrite(line);
      ghost var t0 := t;
      t := Take(t, line);
      if buf == "" && IsStorage(line) {
        buf := line;
        continue;
      }
      buf := if buf == "" then line else Strip(buf + " " + line);
      depth := Depth(buf);
      if depth > 0 {
        continue;
      }
      MappedAppend(Collapse, t0.out, buf);
      MappedAppend(finish, Mapped(Collapse, t0.out), Collapse(buf));
      out := out + [finish(Collapse(buf))];
      buf := "";
    }
    assert raws[..|raws|] == raws;
    if buf != "" {
      out := out + [last(Collapse(buf))];
    }
  }
}
