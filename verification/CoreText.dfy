/**
The text passes of the core comparison: stripping a line, renaming whole words, and
putting a space between a keyword and its parenthesis.  What matters of them for
joining lines is that a space is a border none of them looks across.
*/
module CoreText {
  predicate IsSpace(c: char) {
    c == ' ' || c == '\t' || c == '\n' || c == '\r' || c == 11 as char || c == 12 as char
  }

  predicate IsWord(c: char) {
    'a' <= c <= 'z' || 'A' <= c <= 'Z' || '0' <= c <= '9' || c == '_'
  }

  predicate Blank(s: string) { forall c | c in s :: IsSpace(c) }

  /** Not empty, and no space at either end. */
  predicate Tight(s: string) {
    s != "" && !IsSpace(s[0]) && !IsSpace(s[|s| - 1])
  }

  function Lstrip(s: string): (r: string)
    ensures r == "" || !IsSpace(r[0])
    ensures |r| <= |s| && (r == "" || s[|s| - 1] == r[|r| - 1])
  {
    if s != "" && IsSpace(s[0]) then Lstrip(s[1..]) else s
  }

  function Rstrip(s: string): (r: string)
    ensures r == "" || !IsSpace(r[|r| - 1])
    ensures |r| <= |s| && (r == "" || r[0] == s[0])
  {
    if s != "" && IsSpace(s[|s| - 1]) then Rstrip(s[..|s| - 1]) else s
  }

  function Strip(s: string): (r: string)
    ensures r == "" || Tight(r)
    ensures Tight(s) ==> r == s
  {
    Rstrip(Lstrip(s))
  }

  lemma {:induction false} LstripBlank(w: string, s: string)
    requires Blank(w)
    ensures Lstrip(w + s) == Lstrip(s)
  {
    if w != "" {
      assert (w + s)[1..] == w[1..] + s;
      LstripBlank(w[1..], s);
    } else {
      assert w + s == s;
    }
  }

  lemma {:induction false} RstripBlank(s: string, w: string)
    requires Blank(w)
    ensures Rstrip(s + w) == Rstrip(s)
  {
    if w != "" {
      assert (s + w)[..|s + w| - 1] == s + w[..|w| - 1];
      RstripBlank(s, w[..|w| - 1]);
    } else {
      assert s + w == s;
    }
  }

  /** Stripping takes off space at the two ends and nothing else. */
  lemma StripOuter(s: string) returns (w: string, w': string)
    ensures Blank(w) && Blank(w') && s == w + Strip(s) + w'
  {
    w := LstripOuter(s);
    w' := RstripOuter(Lstrip(s));
    assert w + (Strip(s) + w') == w + Strip(s) + w';
  }

  lemma {:induction false} LstripOuter(s: string) returns (w: string)
    ensures Blank(w) && s == w + Lstrip(s)
  {
    if s != "" && IsSpace(s[0]) {
      var v := LstripOuter(s[1..]);
      w := [s[0]] + v;
    } else {
      w := "";
    }
  }

  lemma {:induction false} RstripOuter(s: string) returns (w: string)
    ensures Blank(w) && s == Rstrip(s) + w
  {
    if s != "" && IsSpace(s[|s| - 1]) {
      var v := RstripOuter(s[..|s| - 1]);
      w := v + [s[|s| - 1]];
    } else {
      w := "";
    }
  }

  /** Space around a line is not part of it. */
  lemma StripBlank(w: string, s: string, w': string)
    requires Blank(w) && Blank(w') && Tight(s)
    ensures Strip(w + s + w') == s
  {
    assert w + s + w' == w + (s + w');
    LstripBlank(w, s + w');
    assert Lstrip(s + w') == s + w';
    RstripBlank(s, w');
  }

  // ------------------------------------------------------- collapsing space

  /** Every run of space made one space. */
  function Collapse(s: string): string {
    if s == "" then ""
    else if !IsSpace(s[0]) then [s[0]] + Collapse(s[1..])
    else if |s| > 1 && IsSpace(s[1]) then Collapse(s[1..])
    else " " + Collapse(s[1..])
  }

  lemma {:induction false} CollapseBlank(w: string, b: string)
    requires Blank(w) && w != "" && b != "" && !IsSpace(b[0])
    ensures Collapse(w + b) == " " + Collapse(b)
    decreases |w|
  {
    var s, v := w + b, w[1..];
    assert w[0] in w && s[0] == w[0] && s[1..] == v + b;
    if v != "" {
      assert v[0] in w && s[1] == v[0];
      assert forall d | d in v :: d in w;
      CollapseBlank(v, b);
    } else {
      assert v + b == b && s[1] == b[0];
    }
  }

  lemma {:induction false} CollapseStep(u: string)
    requires u != ""
    ensures !IsSpace(u[0]) ==> Collapse(u) == [u[0]] + Collapse(u[1..])
    ensures IsSpace(u[0]) && |u| > 1 && IsSpace(u[1]) ==> Collapse(u) == Collapse(u[1..])
    ensures IsSpace(u[0]) && !(|u| > 1 && IsSpace(u[1])) ==> Collapse(u) == " " + Collapse(u[1..])
    ensures IsSpace(u[0]) ==> Collapse(u) != "" && Collapse(u)[0] == ' '
    decreases |u|
  {
    if IsSpace(u[0]) && |u| > 1 && IsSpace(u[1]) { CollapseStep(u[1..]); }
  }

  lemma Regroup(a: string, b: string, c: char, d: string)
    ensures a + (b + [c] + d) == (a + b) + [c] + d
  {
  }

  lemma JoinTail(a: string, w: string, b: string)
    requires a != ""
    ensures (a + w + b)[0] == a[0] && (a + w + b)[1..] == a[1..] + w + b
    ensures |a| > 1 ==> (a + w + b)[1] == a[1]
  {
  }

  /** A run of space between two texts is one space, whatever the run. */
  lemma {:induction false} CollapseJoin(a: string, w: string, b: string)
    requires Blank(w) && w != "" && b != "" && !IsSpace(b[0]) && a != "" && !IsSpace(a[|a| - 1])
    ensures Collapse(a + w + b) == Collapse(a) + " " + Collapse(b)
    decreases |a|
  {
    var s, t := a + w + b, a[1..];
    JoinTail(a, w, b);
    CollapseStep(s);
    CollapseStep(a);
    if t == "" {
      assert t + w + b == w + b;
      CollapseBlank(w, b);
      Regroup([a[0]], "", ' ', Collapse(b));
      assert "" + [' '] + Collapse(b) == " " + Collapse(b);
    } else {
      CollapseJoin(t, w, b);
      Regroup([a[0]], Collapse(t), ' ', Collapse(b));
      Regroup(" ", Collapse(t), ' ', Collapse(b));
    }
  }

  // -------------------------------------------------------- word passes

  /** The length of the word a text begins with. */
  function WordLen(s: string): (n: nat)
    ensures n <= |s|
    ensures forall i | 0 <= i < n :: IsWord(s[i])
    ensures n < |s| ==> !IsWord(s[n])
  {
    if s != "" && IsWord(s[0]) then 1 + WordLen(s[1..]) else 0
  }

  /** A character that no word, and no keyword with its parenthesis, reaches across. */
  predicate IsBorder(c: char) { !IsWord(c) && c != '(' }

  lemma {:induction false} WordLenBorder(x: string, c: char, y: string)
    requires !IsWord(c)
    ensures WordLen(x + [c] + y) == WordLen(x)
  {
    if x != "" && IsWord(x[0]) {
      assert (x + [c] + y)[1..] == x[1..] + [c] + y;
      WordLenBorder(x[1..], c, y);
    }
  }

  /** Replace every whole word by f of it. */
  function Words(f: string -> string, s: string): string {
    if s == "" then ""
    else
      var n := WordLen(s);
      if n > 0 then f(s[..n]) + Words(f, s[n..]) else [s[0]] + Words(f, s[1..])
  }

  const KEYWORDS: seq<string> := ["if", "while", "for", "do", "switch", "return"]

  predicate IsKeyword(w: string) {
    w == "return" || w == "switch" || w == "if" || w == "while" || w == "for" || w == "do"
  }

  /** The first word of a text, or its first character, with a space after it if it
      is a keyword before a parenthesis. */
  function Keyed(kw: string -> bool, s: string): string
    requires s != ""
  {
    var n := WordLen(s);
    if n == 0 then [s[0]]
    else if kw(s[..n]) && n < |s| && s[n] == '(' then s[..n] + " "
    else s[..n]
  }

  /** Put a space between a keyword and the parenthesis that follows it. */
  function KeywordSpace(kw: string -> bool, s: string): string {
    if s == "" then ""
    else Keyed(kw, s) + KeywordSpace(kw, if WordLen(s) == 0 then s[1..] else s[WordLen(s)..])
  }

  /** The split of a text at its first word, which a non-word further on leaves alone. */
  lemma FirstWord(x: string, c: char, y: string)
    requires x != "" && !IsWord(c)
    ensures var s, n := x + [c] + y, WordLen(x);
            WordLen(s) == n && s != "" && s[0] == x[0]
            && s[..n] == x[..n] && s[n..] == x[n..] + [c] + y && s[1..] == x[1..] + [c] + y
  {
    WordLenBorder(x, c, y);
    var s, n := x + [c] + y, WordLen(x);
    assert s[..n] == x[..n] && s[n..] == x[n..] + [c] + y && s[1..] == x[1..] + [c] + y;
  }

  lemma {:induction false} WordLenAll(w: string)
    requires AllWord(w)
    ensures WordLen(w) == |w|
  {
    if |w| > 1 {
      assert forall i | 0 <= i < |w| - 1 :: w[1..][i] == w[i + 1];
      WordLenAll(w[1..]);
    } else {
      assert w[1..] == "";
    }
  }

  /** A word alone is what f makes of it. */
  lemma WordsOne(f: string -> string, w: string)
    requires AllWord(w)
    ensures Words(f, w) == f(w)
  {
    WordLenAll(w);
    assert w[..|w|] == w && w[|w|..] == "";
    assert f(w) + "" == f(w);
  }

  /** And the two sides of a character that is in no word are taken apart: with that the
      pass is what it is on every text. */
  lemma {:induction false} WordsBorder(f: string -> string, x: string, c: char, y: string)
    requires !IsWord(c)
    ensures Words(f, x + [c] + y) == Words(f, x) + [c] + Words(f, y)
    decreases |x|
  {
    var s := x + [c] + y;
    if x == "" {
      assert s[0] == c && s[1..] == y;
    } else {
      FirstWord(x, c, y);
      var n := WordLen(x);
      var head, rest := if n > 0 then f(x[..n]) else [x[0]], if n > 0 then x[n..] else x[1..];
      assert Words(f, s) == head + Words(f, rest + [c] + y);
      WordsBorder(f, rest, c, y);
      Regroup(head, Words(f, rest), c, Words(f, y));
    }
  }

  lemma {:induction false} KeywordSpaceBorder(kw: string -> bool, x: string, c: char, y: string)
    requires IsBorder(c)
    ensures KeywordSpace(kw, x + [c] + y) == KeywordSpace(kw, x) + [c] + KeywordSpace(kw, y)
    decreases |x|
  {
    var s := x + [c] + y;
    if x == "" {
      assert s[0] == c && s[1..] == y;
    } else {
      FirstWord(x, c, y);
      var n := WordLen(x);
      var rest := if n > 0 then x[n..] else x[1..];
      var head := Keyed(kw, x);
      assert head == Keyed(kw, s) && KeywordSpace(kw, s) == head + KeywordSpace(kw, rest + [c] + y);
      KeywordSpaceBorder(kw, rest, c, y);
      Regroup(head, KeywordSpace(kw, rest), c, KeywordSpace(kw, y));
    }
  }

  // ------------------------------------------- a keyword and its parenthesis

  /** The word a text ends in. */
  function LastWord(x: string): string {
    if x == "" || !IsWord(x[|x| - 1]) then "" else LastWord(x[..|x| - 1]) + [x[|x| - 1]]
  }

  lemma {:induction false} LastWordAll(w: string)
    requires AllWord(w)
    ensures LastWord(w) == w
  {
    if |w| > 1 { LastWordAll(w[..|w| - 1]); } else { assert w[..0] == ""; }
  }

  /** What is before a non-word is no part of the last word. */
  lemma {:induction false} LastWordCut(x: string, k: nat)
    requires k <= |x| && (k == 0 || !IsWord(x[k - 1]) || (k < |x| && !IsWord(x[k])))
    ensures LastWord(x) == LastWord(x[k..])
    decreases |x|
  {
    if k == 0 {
      assert x[0..] == x;
    } else if k < |x| && IsWord(x[|x| - 1]) {
      var y := x[..|x| - 1];
      assert y[k..] == x[k..][..|x| - k - 1];
      LastWordCut(y, k);
    } else if k == |x| {
      assert x[k..] == "";
    }
  }

  lemma KeywordSpaceOne(kw: string -> bool, w: string)
    requires AllWord(w)
    ensures KeywordSpace(kw, w) == w
  {
    WordLenAll(w);
    assert w[..|w|] == w && w[|w|..] == "" && w + "" == w;
  }

  lemma FirstParen(kw: string -> bool, x: string, y: string)
    requires x != "" && WordLen(x) < |x|
    ensures Keyed(kw, x + "(" + y) == Keyed(kw, x)
  {
    FirstWord(x, '(', y);
    var n := WordLen(x);
    assert (x + "(" + y)[n] == x[n];
  }

  /** A keyword before a parenthesis gets one space, and any other word none. */
  lemma {:induction false} KeywordSpaceParen(kw: string -> bool, x: string, y: string)
    requires !kw("")
    ensures KeywordSpace(kw, x + "(" + y) ==
            KeywordSpace(kw, x) + (if kw(LastWord(x)) then " (" else "(") + KeywordSpace(kw, y)
    decreases |x|
  {
    var s, m := x + "(" + y, if kw(LastWord(x)) then " (" else "(";
    if x == "" {
      assert s[0] == '(' && s[1..] == y;
    } else {
      FirstWord(x, '(', y);
      var n := WordLen(x);
      if n == |x| {
        WholeParen(kw, x, y);
      } else {
        var rest := if n > 0 then x[n..] else x[1..];
        FirstParen(kw, x, y);
        LastWordCut(x, if n > 0 then n else 1);
        KeywordSpaceParen(kw, rest, y);
        Joined3(Keyed(kw, x), KeywordSpace(kw, rest), m, KeywordSpace(kw, y));
      }
    }
  }

  lemma Joined3(a: string, b: string, c: string, d: string)
    ensures a + (b + c + d) == (a + b) + c + d
  {
  }

  lemma ParenFirst(kw: string -> bool, y: string)
    ensures KeywordSpace(kw, "(" + y) == "(" + KeywordSpace(kw, y)
  {
    var p := "(" + y;
    assert p[0] == '(' && p[1..] == y;
  }

  lemma KeyedWhole(kw: string -> bool, x: string, y: string)
    requires AllWord(x)
    ensures var s := x + "(" + y;
            WordLen(s) == |x| && s[|x|..] == "(" + y && Keyed(kw, s) == if kw(x) then x + " " else x
  {
    var s := x + "(" + y;
    FirstWord(x, '(', y);
    WordLenAll(x);
    assert s[..|x|] == x && s[|x|] == '(';
  }

  lemma SpaceParen(x: string, k: string)
    ensures x + " " + ("(" + k) == x + " (" + k && x + ("(" + k) == x + "(" + k
  {
  }

  lemma WholeParen(kw: string -> bool, x: string, y: string)
    requires AllWord(x)
    ensures KeywordSpace(kw, x + "(" + y) ==
            KeywordSpace(kw, x) + (if kw(LastWord(x)) then " (" else "(") + KeywordSpace(kw, y)
  {
    var s := x + "(" + y;
    KeyedWhole(kw, x, y);
    LastWordAll(x);
    KeywordSpaceOne(kw, x);
    ParenFirst(kw, y);
    SpaceParen(x, KeywordSpace(kw, y));
    assert KeywordSpace(kw, s) == Keyed(kw, s) + KeywordSpace(kw, "(" + y);
  }

  /** A keyword stands right before the parenthesis at i. */
  predicate KeywordAt(kw: string -> bool, s: string, i: int) {
    0 <= i < |s| && s[i] == '(' && kw(LastWord(s[..i]))
  }

  lemma KeyedFree(kw: string -> bool, s: string, n: nat)
    requires !kw("") && s != "" && n == WordLen(s) && !KeywordAt(kw, s, n)
    ensures Keyed(kw, s) == s[..if n > 0 then n else 1]
  {
    if 0 < n < |s| { LastWordAll(s[..n]); }
  }

  /** A text without such a place is unchanged. */
  lemma {:induction false} KeywordSpaceFree(kw: string -> bool, s: string)
    requires !kw("") && forall i :: !KeywordAt(kw, s, i)
    ensures KeywordSpace(kw, s) == s
    decreases |s|
  {
    if s != "" {
      var n := WordLen(s);
      var k := if n > 0 then n else 1;
      forall i ensures !KeywordAt(kw, s[k..], i) { KeywordLater(kw, s, k, i); }
      KeywordSpaceFree(kw, s[k..]);
      KeyedFree(kw, s, n);
      assert s == s[..k] + s[k..];
    }
  }

  lemma KeywordLater(kw: string -> bool, s: string, k: nat, i: int)
    requires !kw("") && 0 < k <= |s| && (!IsWord(s[k - 1]) || (k < |s| ==> !IsWord(s[k])))
    requires !KeywordAt(kw, s, k + i)
    ensures !KeywordAt(kw, s[k..], i)
  {
    if 0 <= i < |s| - k {
      var x := s[..k + i];
      assert x[k..] == s[k..][..i];
      if i == 0 { assert x[k..] == ""; } else { LastWordCut(x, k); }
    }
  }

  predicate AllWord(w: string) { w != "" && forall i | 0 <= i < |w| :: IsWord(w[i]) }

  ghost predicate TightOnWords(f: string -> string) {
    forall w | AllWord(w) :: Tight(f(w))
  }

  lemma {:induction false} WordsTight(f: string -> string, s: string)
    requires TightOnWords(f) && s != "" && !IsSpace(s[|s| - 1])
    ensures var r := Words(f, s); r != "" && !IsSpace(r[|r| - 1]) && (!IsSpace(s[0]) ==> !IsSpace(r[0]))
    decreases |s|
  {
    var n := WordLen(s);
    if n > 0 {
      assert AllWord(s[..n]);
      if n < |s| { WordsTight(f, s[n..]); }
    } else if |s| > 1 {
      WordsTight(f, s[1..]);
    }
  }

  lemma {:induction false} KeywordSpaceTight(kw: string -> bool, s: string)
    requires s != "" && !IsSpace(s[|s| - 1])
    ensures var r := KeywordSpace(kw, s); r != "" && !IsSpace(r[|r| - 1]) && r[0] == s[0]
    decreases |s|
  {
    var n := WordLen(s);
    if n > 0 {
      if n < |s| { KeywordSpaceTight(kw, s[n..]); }
    } else if |s| > 1 {
      KeywordSpaceTight(kw, s[1..]);
    }
  }

  // ------------------------------------------------------ the source's tables

  function Rename(w: string): (r: string)
    ensures AllWord(w) ==> Tight(r)
  {
    if w == "kprintf" || w == "krateprintf" then "hprintf"
    else if w == "panic" then "hpanic"
    else if w == "kmalloc" then "hmalloc"
    else if w == "kfree" then "hfree"
    else if w == "krealloc" then "hrealloc"
    else if w == "kstrdup" then "hstrdup"
    else if w == "kstrfree" then "hstrfree"
    else if w == "wakeup" then "hammer2_lkc_wakeup"
    else if w == "tsleep" then "hammer2_lkc_sleep"
    else w
  }

  function TypeAlias(w: string): (r: string)
    ensures AllWord(w) ==> Tight(r)
  {
    if w == "u_int" then "unsigned int"
    else if w == "u_char" then "unsigned char"
    else if w == "u_short" then "unsigned short"
    else if w == "u_long" then "unsigned long"
    else if w == "__debugvar" then "__diagused"
    else w
  }

  /** The three passes over a kept line, in the source's order. */
  function Rewrite(s: string): string {
    KeywordSpace(IsKeyword, Words(TypeAlias, Words(Rename, s)))
  }

  /** A border in a line is one for all three passes. */
  lemma RewriteBorder(x: string, c: char, y: string)
    requires IsBorder(c)
    ensures Rewrite(x + [c] + y) == Rewrite(x) + [c] + Rewrite(y)
  {
    WordsBorder(Rename, x, c, y);
    WordsBorder(TypeAlias, Words(Rename, x), c, Words(Rename, y));
    KeywordSpaceBorder(IsKeyword, Words(TypeAlias, Words(Rename, x)), c, Words(TypeAlias, Words(Rename, y)));
  }

  lemma {:induction false} BordersThrough(f: string -> string, x: string, w: string, y: string)
    requires forall x, c, y | IsBorder(c) :: f(x + [c] + y) == f(x) + [c] + f(y)
    requires f("") == "" && Blank(w) && w != ""
    ensures f(x + w + y) == f(x) + w + f(y)
    decreases |w|
  {
    var c, v := w[0], w[1..];
    assert c in w && w == [c] + v;
    if v == "" {
      assert w == [c];
    } else {
      assert Blank(v) by { assert forall d | d in v :: d in w; }
      assert x + w + y == x + [c] + (v + y);
      assert f(x + w + y) == f(x) + [c] + f(v + y);
      BordersThrough(f, "", v, y);
      assert "" + v + y == v + y;
      assert f(v + y) == v + f(y);
      assert f(x) + [c] + (v + f(y)) == f(x) + w + f(y);
    }
  }

  /** So a run of space in a line goes through them unchanged, and its two sides apart. */
  lemma RewriteSpace(x: string, w: string, y: string)
    requires Blank(w) && w != ""
    ensures Rewrite(x + w + y) == Rewrite(x) + w + Rewrite(y)
  {
    forall x, c, y | IsBorder(c) ensures Rewrite(x + [c] + y) == Rewrite(x) + [c] + Rewrite(y) {
      RewriteBorder(x, c, y);
    }
    BordersThrough(Rewrite, x, w, y);
  }

  lemma RenameIsWord(w: string)
    requires AllWord(w)
    ensures AllWord(Rename(w))
  {
    var r := Rename(w);
    if r != w {
      forall i | 0 <= i < |r| ensures IsWord(r[i]) { }
    }
  }

  lemma AliasPlain(w: string, i: nat)
    requires AllWord(w) && i < |TypeAlias(w)|
    ensures IsWord(TypeAlias(w)[i]) || TypeAlias(w)[i] == ' '
  {
  }

  /** The three passes on one word: the tables' word for it. */
  lemma RewriteWord(w: string)
    requires AllWord(w)
    ensures Rewrite(w) == TypeAlias(Rename(w))
  {
    WordsOne(Rename, w);
    RenameIsWord(w);
    WordsOne(TypeAlias, Rename(w));
    var r := TypeAlias(Rename(w));
    forall i ensures !KeywordAt(IsKeyword, r, i) {
      if 0 <= i < |r| { AliasPlain(Rename(w), i); }
    }
    KeywordSpaceFree(IsKeyword, r);
  }

  // A name of the original tree and the one the port has for it.
  const RENAMED: seq<(string, string)> := [
    ("kprintf", "hprintf"), ("krateprintf", "hprintf"), ("panic", "hpanic"), ("kmalloc", "hmalloc"), ("kfree", "hfree"),
    ("krealloc", "hrealloc"), ("kstrdup", "hstrdup"), ("kstrfree", "hstrfree"), ("wakeup", "hammer2_lkc_wakeup"),
    ("tsleep", "hammer2_lkc_sleep")]

  const ALIASED: seq<(string, string)> := [
    ("u_int", "unsigned int"), ("u_char", "unsigned char"), ("u_short", "unsigned short"), ("u_long", "unsigned long"),
    ("__debugvar", "__diagused")]

  predicate Listed(names: seq<(string, string)>, w: string) {
    exists k | 0 <= k < |names| :: names[k].0 == w
  }

  lemma RenamedWord(k: nat)
    requires k < |RENAMED|
    ensures AllWord(RENAMED[k].0)
  {
  }

  lemma RenamedTo(k: nat)
    requires k < |RENAMED|
    ensures Rename(RENAMED[k].0) == RENAMED[k].1
  {
  }

  lemma RenamedOnce(k: nat)
    requires k < |RENAMED|
    ensures Rename(RENAMED[k].1) == RENAMED[k].1
  {
  }

  lemma RenamedNoType(k: nat)
    requires k < |RENAMED|
    ensures TypeAlias(RENAMED[k].1) == RENAMED[k].1
  {
  }

  lemma AliasedAt(k: nat)
    requires k < |ALIASED|
    ensures AllWord(ALIASED[k].0) && Rename(ALIASED[k].0) == ALIASED[k].0 && TypeAlias(ALIASED[k].0) == ALIASED[k].1
  {
  }

  lemma RenameListed(w: string)
    ensures Rename(w) == w || Listed(RENAMED, w)
  {
    if Rename(w) != w {
      var k := if w == "kprintf" then 0 else if w == "krateprintf" then 1 else if w == "panic" then 2
               else if w == "kmalloc" then 3 else if w == "kfree" then 4 else if w == "krealloc" then 5
               else if w == "kstrdup" then 6 else if w == "kstrfree" then 7 else if w == "wakeup" then 8 else 9;
      assert RENAMED[k].0 == w;
    }
  }

  lemma AliasListed(w: string)
    ensures TypeAlias(w) == w || Listed(ALIASED, w)
  {
    if TypeAlias(w) != w {
      var k := if w == "u_int" then 0 else if w == "u_char" then 1 else if w == "u_short" then 2
               else if w == "u_long" then 3 else 4;
      assert ALIASED[k].0 == w;
    }
  }

  /** A name of the original tree comes out as the port's, which stays as it is. */
  lemma RewriteRenamed(k: nat)
    requires k < |RENAMED|
    ensures Rewrite(RENAMED[k].0) == RENAMED[k].1 == Rewrite(RENAMED[k].1)
  {
    var a, b := RENAMED[k].0, RENAMED[k].1;
    RenamedWord(k);
    RenamedTo(k);
    RenamedOnce(k);
    RenamedNoType(k);
    RenameIsWord(a);
    RewriteWord(a);
    RewriteWord(b);
  }

  /** A word that neither table has. */
  predicate Untouched(w: string) { AllWord(w) && Rename(w) == w && TypeAlias(w) == w }

  lemma RewriteUntouched(u: string, v: string)
    requires Untouched(u) && Untouched(v)
    ensures Rewrite(u) == u && Rewrite(u + " " + v) == u + " " + v
  {
    RewriteSpace(u, " ", v);
    RewriteWord(u);
    RewriteWord(v);
  }

  lemma TypeParts(k: nat) returns (u: string, v: string)
    requires k < 4
    ensures ALIASED[k].1 == u + " " + v && Untouched(u) && Untouched(v)
  {
    u, v := "unsigned", if k == 0 then "int" else if k == 1 then "char" else if k == 2 then "short" else "long";
  }

  lemma DebugName()
    ensures Untouched(ALIASED[4].1)
  {
  }

  /** The same for the types. */
  lemma RewriteAliased(k: nat)
    requires k < |ALIASED|
    ensures Rewrite(ALIASED[k].0) == ALIASED[k].1 == Rewrite(ALIASED[k].1)
  {
    AliasedAt(k);
    RewriteWord(ALIASED[k].0);
    if k < 4 {
      var u, v := TypeParts(k);
      RewriteUntouched(u, v);
    } else {
      DebugName();
      RewriteUntouched(ALIASED[4].1, ALIASED[4].1);
    }
  }

  /** No other word is changed. */
  lemma RewriteUnlisted(w: string)
    requires AllWord(w) && !Listed(RENAMED, w) && !Listed(ALIASED, w)
    ensures Rewrite(w) == w
  {
    RewriteWord(w);
    RenameListed(w);
    AliasListed(w);
  }

  lemma {:induction false} LastWordIs(x: string)
    ensures |LastWord(x)| <= |x| && x[|x| - |LastWord(x)|..] == LastWord(x)
    ensures LastWord(x) == "" || AllWord(LastWord(x))
    ensures |LastWord(x)| < |x| ==> !IsWord(x[|x| - |LastWord(x)| - 1])
  {
    if x != "" && IsWord(x[|x| - 1]) {
      var y := x[..|x| - 1];
      LastWordIs(y);
      WordSnoc(x, y, LastWord(y), |y| - |LastWord(y)|);
    }
  }

  lemma WordSnoc(x: string, y: string, v: string, k: nat)
    requires x != "" && y == x[..|x| - 1] && k <= |y| && y[k..] == v && IsWord(x[|x| - 1]) && (v == "" || AllWord(v))
    ensures x[k..] == v + [x[|x| - 1]] && AllWord(v + [x[|x| - 1]])
  {
  }

  lemma LastWordAfter(a: string, c: char, b: string)
    requires !IsWord(c)
    ensures LastWord(a + [c] + b) == LastWord(b)
  {
    var x := a + [c] + b;
    assert x[|a| + 1..] == b;
    LastWordCut(x, |a| + 1);
  }

  /** The last word of a text is what f makes of its last word. */
  lemma LastWords(f: string -> string, x: string)
    ensures LastWord(Words(f, x)) == if LastWord(x) == "" then "" else LastWord(f(LastWord(x)))
  {
    LastWordIs(x);
    var w := LastWord(x);
    var k := |x| - |w|;
    if k == 0 {
      assert x[..0] == "" && x == w;
      if w != "" { WordsOne(f, w); }
    } else {
      var a, c := x[..k - 1], x[k - 1];
      assert x == a + [c] + w;
      WordsBorder(f, a, c, w);
      if w != "" { WordsOne(f, w); }
      LastWordAfter(Words(f, a), c, Words(f, w));
    }
  }

  lemma LastOfTwo(r: string, a: string, b: string)
    requires AllWord(b) && r == a + " " + b
    ensures LastWord(r) == b
  {
    LastWordAfter(a, ' ', b);
    LastWordAll(b);
  }

  lemma AliasLast(w: string)
    requires AllWord(w)
    ensures IsKeyword(LastWord(TypeAlias(w))) <==> IsKeyword(w)
  {
    var r := TypeAlias(w);
    if r == w {
      LastWordAll(w);
    } else if w == "__debugvar" {
      LastWordAll(r);
    } else {
      var b := if w == "u_int" then "int" else if w == "u_char" then "char"
               else if w == "u_short" then "short" else "long";
      LastOfTwo(r, "unsigned", b);
    }
  }

  lemma RenameKeyword(w: string)
    ensures IsKeyword(Rename(w)) <==> IsKeyword(w)
  {
  }

  lemma LastKeyword(x: string)
    ensures IsKeyword(LastWord(Words(TypeAlias, Words(Rename, x)))) <==> IsKeyword(LastWord(x))
  {
    var w := LastWord(x);
    LastWordIs(x);
    LastWords(Rename, x);
    LastWords(TypeAlias, Words(Rename, x));
    if w != "" {
      RenameIsWord(w);
      LastWordAll(Rename(w));
      AliasLast(Rename(w));
      RenameKeyword(w);
    }
  }

  /** A parenthesis gets a space before it exactly when it stands right behind a keyword.
      With a word alone and a border this fixes the passes on every text. */
  lemma RewriteParen(x: string, y: string)
    ensures Rewrite(x + "(" + y) == Rewrite(x) + (if IsKeyword(LastWord(x)) then " (" else "(") + Rewrite(y)
  {
    WordsBorder(Rename, x, '(', y);
    WordsBorder(TypeAlias, Words(Rename, x), '(', Words(Rename, y));
    KeywordSpaceParen(IsKeyword, Words(TypeAlias, Words(Rename, x)), Words(TypeAlias, Words(Rename, y)));
    LastKeyword(x);
  }

  lemma KeywordIn(w: string)
    ensures IsKeyword(w) <==> w in KEYWORDS
  {
    if IsKeyword(w) {
      var k := if w == "if" then 0 else if w == "while" then 1 else if w == "for" then 2
               else if w == "do" then 3 else if w == "switch" then 4 else 5;
      assert KEYWORDS[k] == w;
    }
  }

  /** A call of a function goes by the tables' name for it, and a keyword keeps its
      distance. */
  lemma RewriteCall(w: string, x: string)
    requires AllWord(w)
    ensures Rewrite(w + "(" + x) == TypeAlias(Rename(w)) + (if w in KEYWORDS then " (" else "(") + Rewrite(x)
  {
    KeywordIn(w);
    LastWordAll(w);
    RewriteWord(w);
    RewriteParen(w, x);
  }

  lemma RewriteTight(s: string)
    requires Tight(s)
    ensures Tight(Rewrite(s))
  {
    WordsTight(Rename, s);
    WordsTight(TypeAlias, Words(Rename, s));
    KeywordSpaceTight(IsKeyword, Words(TypeAlias, Words(Rename, s)));
  }
}
