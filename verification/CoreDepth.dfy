/**
The parenthesis depth of a pending statement, counted outside string and character
literals as the source's expression recognises them: a literal runs to the next
quote of its kind, and a backslash inside it is admitted only in pairs followed by
one more character.

That is not how C reads a literal, where one backslash escapes the next character.
The C reading is given beside it, with the texts on which the two agree.
*/
module CoreDepth {
  import opened Base

  predicate IsQuote(c: char) { c == '"' || c == '\'' }

  /** Where a literal opened by q just before i ends: past its closing quote. */
  function LitEnd(s: string, i: nat, q: char): (r: Option<nat>)
    requires i <= |s|
    ensures r.Some? ==> i < r.value <= |s|
    decreases |s| - i
  {
    if i == |s| then None
    else if s[i] == q then Some(i + 1)
    else if s[i] != '\\' then LitEnd(s, i + 1, q)
    else if i + 2 < |s| && s[i + 1] == '\\' then LitEnd(s, i + 3, q)
    else None
  }

  /** Where the literal that stands at i ends, if there is one. */
  function LiteralAt(s: string, i: nat): (r: Option<nat>)
    requires i < |s|
    ensures r.Some? ==> i < r.value <= |s|
  {
    if IsQuote(s[i]) then LitEnd(s, i + 1, s[i]) else None
  }

  function Paren(c: char): int { if c == '(' then 1 else if c == ')' then 0 - 1 else 0 }

  /** Opening less closing parentheses from i on, literals left out. */
  function DepthAt(s: string, i: nat): int
    requires i <= |s|
    decreases |s| - i
  {
    if i == |s| then 0
    else
      var e := LiteralAt(s, i);
      if e.Some? then DepthAt(s, e.value) else Paren(s[i]) + DepthAt(s, i + 1)
  }

  function Depth(s: string): int { DepthAt(s, 0) }

  // ------------------------------------------------------- adding up lines

  /** Every literal opened from i on is closed. */
  predicate CleanAt(s: string, i: nat)
    requires i <= |s|
    decreases |s| - i
  {
    i == |s|
    || if IsQuote(s[i]) then LiteralAt(s, i).Some? && CleanAt(s, LiteralAt(s, i).value) else CleanAt(s, i + 1)
  }

  predicate Clean(s: string) { CleanAt(s, 0) }

  /** A literal closed is closed whatever follows. */
  lemma {:induction false} LitEndGrows(a: string, b: string, i: nat, q: char)
    requires i <= |a| && LitEnd(a, i, q).Some?
    ensures LitEnd(a + b, i, q) == LitEnd(a, i, q)
    decreases |a| - i
  {
    if a[i] != q {
      LitEndGrows(a, b, if a[i] == '\\' then i + 3 else i + 1, q);
    }
  }

  /** The text after a is read as it would be alone. */
  lemma {:induction false} LitEndShift(a: string, b: string, j: nat, q: char)
    requires j <= |b|
    ensures var r := LitEnd(b, j, q);
            LitEnd(a + b, |a| + j, q) == if r.None? then None else Some(|a| + r.value)
    decreases |b| - j
  {
    if j < |b| {
      assert (a + b)[|a| + j] == b[j];
      if b[j] != '\\' {
        LitEndShift(a, b, j + 1, q);
      } else if j + 2 < |b| {
        assert (a + b)[|a| + j + 1] == b[j + 1];
        LitEndShift(a, b, j + 3, q);
      }
    }
  }

  lemma {:induction false} DepthShift(a: string, b: string, j: nat)
    requires j <= |b|
    ensures DepthAt(a + b, |a| + j) == DepthAt(b, j)
    ensures CleanAt(a + b, |a| + j) == CleanAt(b, j)
    decreases |b| - j
  {
    if j < |b| {
      assert (a + b)[|a| + j] == b[j];
      LitEndShift(a, b, j + 1, b[j]);
      var e := LiteralAt(b, j);
      DepthShift(a, b, if e.Some? then e.value else j + 1);
    }
  }

  /** A clean text keeps to itself. */
  lemma {:induction false} DepthApart(a: string, b: string, i: nat)
    requires i <= |a| && CleanAt(a, i)
    ensures DepthAt(a + b, i) == DepthAt(a, i) + Depth(b)
    ensures Clean(b) ==> CleanAt(a + b, i)
    decreases |a| - i
  {
    if i == |a| {
      DepthShift(a, b, 0);
    } else {
      assert (a + b)[i] == a[i];
      if IsQuote(a[i]) {
        LitEndGrows(a, b, i + 1, a[i]);
        DepthApart(a, b, LiteralAt(a, i).value);
      } else {
        DepthApart(a, b, i + 1);
      }
    }
  }

  lemma DepthAdd(a: string, b: string)
    requires Clean(a)
    ensures Depth(a + " " + b) == Depth(a) + Depth(b)
    ensures Clean(b) ==> Clean(a + " " + b)
  {
    assert a + " " + b == a + (" " + b);
    DepthApart(a, " " + b, 0);
    DepthApart(" ", b, 0);
  }

  /** Lines joined by single spaces. */
  function Joined(g: seq<string>): string {
    if g == [] then ""
    else if |g| == 1 then g[0]
    else Joined(g[..|g| - 1]) + " " + g[|g| - 1]
  }

  function Sums(g: seq<string>): int {
    if g == [] then 0 else Sums(g[..|g| - 1]) + Depth(g[|g| - 1])
  }

  /** Counting over the whole buffer is the running sum over its lines when no literal
      crosses from a line to the next. */
  lemma {:induction false} DepthIsRunningSum(g: seq<string>)
    requires forall i | 0 <= i < |g| - 1 :: Clean(g[i])
    ensures Depth(Joined(g)) == Sums(g)
    ensures g != [] && Clean(g[|g| - 1]) ==> Clean(Joined(g))
  {
    if |g| > 1 {
      var n := |g| - 1;
      assert g[..n][n - 1] == g[n - 1];
      DepthIsRunningSum(g[..n]);
      DepthAdd(Joined(g[..n]), g[n]);
    } else if |g| == 1 {
      assert g[..0] == [];
    }
  }

  // --------------------------------------------------------- the C reading

  /** Where a literal opened by q just before i ends in C. */
  function CEnd(s: string, i: nat, q: char): (r: Option<nat>)
    requires i <= |s|
    ensures r.Some? ==> i < r.value <= |s|
    decreases |s| - i
  {
    if i == |s| then None
    else if s[i] == q then Some(i + 1)
    else if s[i] != '\\' then CEnd(s, i + 1, q)
    else if i + 2 <= |s| then CEnd(s, i + 2, q)
    else None
  }

  function CLiteralAt(s: string, i: nat): (r: Option<nat>)
    requires i < |s|
    ensures r.Some? ==> i < r.value <= |s|
  {
    if IsQuote(s[i]) then CEnd(s, i + 1, s[i]) else None
  }

  /** The depth from i on with the literals of C left out. */
  function CDepthAt(s: string, i: nat): int
    requires i <= |s|
    decreases |s| - i
  {
    if i == |s| then 0
    else
      var e := CLiteralAt(s, i);
      if e.Some? then CDepthAt(s, e.value) else Paren(s[i]) + CDepthAt(s, i + 1)
  }

  function CDepth(s: string): int { CDepthAt(s, 0) }

  /** The length of the run of backslashes at i. */
  function RunLen(s: string, i: nat): (k: nat)
    requires i <= |s|
    ensures i + k <= |s| && (forall j | i <= j < i + k :: s[j] == '\\')
    ensures i + k < |s| ==> s[i + k] != '\\'
    decreases |s| - i
  {
    if i < |s| && s[i] == '\\' then 1 + RunLen(s, i + 1) else 0
  }

  /** A run that both readings pass in the same way: the script takes backslashes by
      threes and C by twos, so a run of one more than a multiple of three is not
      admitted, and before a closing quote the two counts have to leave the same. */
  predicate RunOk(s: string, i: nat, q: char)
    requires i <= |s|
  {
    var k := RunLen(s, i);
    k % 3 != 1 && (i + k < |s| && s[i + k] == q ==> k % 6 == 0 || k % 6 == 5)
  }

  /** A run of backslashes starts at j, read from i. */
  predicate RunStart(s: string, i: nat, j: int) {
    i <= j < |s| && s[j] == '\\' && (j == i || s[j - 1] != '\\')
  }

  ghost predicate RunsOk(s: string, i: nat, e: nat, q: char)
    requires e <= |s|
  {
    forall j | i <= j < e && RunStart(s, i, j) :: RunOk(s, j, q)
  }

  /** C passes k backslashes two by two. */
  lemma {:induction false} CRun(s: string, i: nat, k: nat, q: char)
    requires i + k < |s| && q != '\\' && forall j | i <= j < i + k :: s[j] == '\\'
    ensures CEnd(s, i, q) == if k % 2 == 0 then CEnd(s, i + k, q) else CEnd(s, i + k + 1, q)
    decreases k
  {
    if k >= 2 { CRun(s, i + 2, k - 2, q); }
  }

  /** The script passes them three by three, the third of any kind. */
  lemma {:induction false} LitRun(s: string, i: nat, k: nat, q: char)
    requires i + k < |s| && q != '\\' && (forall j | i <= j < i + k :: s[j] == '\\') && s[i + k] != '\\'
    ensures k % 3 == 0 ==> LitEnd(s, i, q) == LitEnd(s, i + k, q)
    ensures k % 3 == 1 ==> LitEnd(s, i, q).None?
    ensures k % 3 == 2 ==> LitEnd(s, i, q) == LitEnd(s, i + k + 1, q)
    decreases k
  {
    if k >= 3 { LitRun(s, i + 3, k - 3, q); }
  }

  lemma RunsSplit(s: string, i: nat, k: nat, e: nat, q: char)
    requires i < |s| && s[i] == '\\' && k == RunLen(s, i) && i + k + 1 <= e <= |s|
    ensures RunsOk(s, i, e, q) <==> RunOk(s, i, q) && RunsOk(s, i + k + 1, e, q)
  {
    assert RunStart(s, i, i);
    forall j | i < j < e ensures RunStart(s, i, j) <==> j > i + k && RunStart(s, i + k + 1, j) { }
  }

  lemma RunsSkip(s: string, i: nat, e: nat, q: char)
    requires i < e <= |s| && s[i] != '\\'
    ensures RunsOk(s, i, e, q) <==> RunsOk(s, i + 1, e, q)
  {
    forall j | i < j < e ensures RunStart(s, i, j) <==> RunStart(s, i + 1, j) { }
  }

  /** A literal of C is ended at the same place by the script exactly when every run of
      backslashes in it is one that both readings pass in the same way. */
  lemma {:induction false} SameEndIff(s: string, i: nat, e: nat, q: char)
    requires i <= |s| && q != '\\' && CEnd(s, i, q) == Some(e)
    ensures LitEnd(s, i, q) == Some(e) <==> RunsOk(s, i, e, q)
    decreases |s| - i
  {
    if s[i] == q {
      assert RunsOk(s, i, e, q);
    } else if s[i] != '\\' {
      RunsSkip(s, i, e, q);
      SameEndIff(s, i + 1, e, q);
    } else {
      RunEnd(s, i, e, q);
      var k := RunLen(s, i);
      CRun(s, i, k, q);
      LitRun(s, i, k, q);
      RunsSplit(s, i, k, e, q);
      if s[i + k] != q {
        PlainAfterRun(s, i, k, e, q);
        SameEndIff(s, i + k + 1, e, q);
      } else {
        QuoteAfterRun(s, i, k, e, q);
        if k % 2 == 1 { SameEndIff(s, i + k + 1, e, q); }
      }
    }
  }

  /** A literal of C does not end inside a run of backslashes. */
  lemma {:induction false} RunEnd(s: string, i: nat, e: nat, q: char)
    requires i < |s| && s[i] == '\\' && q != '\\' && CEnd(s, i, q) == Some(e)
    ensures i + RunLen(s, i) + 1 <= e
    decreases |s| - i
  {
    if i + 1 < |s| && s[i + 1] == '\\' {
      if i + 2 < |s| && s[i + 2] == '\\' { RunEnd(s, i + 2, e, q); }
    }
  }

  lemma {:induction false} ModSix(k: nat)
    ensures k % 6 == 0 || k % 6 == 5 <==> (k % 2 == 0 && k % 3 == 0) || (k % 2 == 1 && k % 3 == 2)
  {
    if k >= 6 {
      ModSix(k - 6);
      assert k % 6 == (k - 6) % 6 && k % 3 == (k - 6) % 3 && k % 2 == (k - 6) % 2;
    }
  }

  /** The run is before a character that is not the closing quote. */
  lemma PlainAfterRun(s: string, i: nat, k: nat, e: nat, q: char)
    requires i + k + 1 <= e <= |s| && s[i + k] != '\\' && k == RunLen(s, i) && s[i + k] != q
    requires Some(e) == if k % 2 == 0 then CEnd(s, i + k, q) else CEnd(s, i + k + 1, q)
    ensures CEnd(s, i + k + 1, q) == Some(e) && LitEnd(s, i + k, q) == LitEnd(s, i + k + 1, q)
    ensures RunOk(s, i, q) <==> k % 3 != 1
  {
  }

  /** The run is before it. */
  lemma QuoteAfterRun(s: string, i: nat, k: nat, e: nat, q: char)
    requires i + k + 1 <= e <= |s| && k == RunLen(s, i) && s[i + k] == q
    requires Some(e) == if k % 2 == 0 then CEnd(s, i + k, q) else CEnd(s, i + k + 1, q)
    ensures LitEnd(s, i + k, q) == Some(i + k + 1) != LitEnd(s, i + k + 1, q)
    ensures k % 2 == 0 ==> e == i + k + 1
    ensures RunOk(s, i, q) <==> (k % 2 == 0 && k % 3 == 0) || (k % 2 == 1 && k % 3 == 2)
    ensures k % 2 == 1 ==> e > i + k + 1
  {
    ModSix(k);
  }

  /** No backslash from i up to n. */
  predicate NoBackslash(s: string, i: nat, n: nat) {
    i <= n <= |s| && forall k | i <= k < n :: s[k] != '\\'
  }

  /** Read as C from i on, every literal has only runs of backslashes that both readings
      pass in the same way, and a quote that is not closed has none after it. */
  ghost predicate Tame(s: string, i: nat)
    requires i <= |s|
    decreases |s| - i
  {
    i == |s|
    || if !IsQuote(s[i]) then Tame(s, i + 1)
       else
         match CLiteralAt(s, i)
         case Some(e) => RunsOk(s, i + 1, e, s[i]) && Tame(s, e)
         case None => NoBackslash(s, i + 1, |s|) && Tame(s, i + 1)
  }

  lemma {:induction false} NoBackslashSame(s: string, i: nat, q: char)
    requires NoBackslash(s, i, |s|)
    ensures LitEnd(s, i, q) == CEnd(s, i, q)
    decreases |s| - i
  {
    if i < |s| && s[i] != q { NoBackslashSame(s, i + 1, q); }
  }

  /** On such a text the depth is the depth of C. */
  lemma {:induction false} TameDepth(s: string, i: nat)
    requires i <= |s| && Tame(s, i)
    ensures DepthAt(s, i) == CDepthAt(s, i)
    decreases |s| - i
  {
    if i < |s| {
      var e := CLiteralAt(s, i);
      if IsQuote(s[i]) {
        if e.Some? { SameEndIff(s, i + 1, e.value, s[i]); } else { NoBackslashSame(s, i + 1, s[i]); }
      }
      TameDepth(s, if e.Some? then e.value else i + 1);
    }
  }

  /** No literal of C from i on, closed or not, holds a backslash. */
  predicate Escapeless(s: string, i: nat)
    requires i <= |s|
    decreases |s| - i
  {
    i == |s|
    || if !IsQuote(s[i]) then Escapeless(s, i + 1)
       else
         match CLiteralAt(s, i)
         case Some(e) => NoBackslash(s, i + 1, e) && Escapeless(s, e)
         case None => NoBackslash(s, i + 1, |s|) && Escapeless(s, i + 1)
  }

  lemma {:induction false} EscapelessTame(s: string, i: nat)
    requires i <= |s| && Escapeless(s, i)
    ensures Tame(s, i)
    decreases |s| - i
  {
    if i < |s| {
      var e := CLiteralAt(s, i);
      EscapelessTame(s, if e.Some? then e.value else i + 1);
    }
  }

  /** In particular on every text whose literals hold no backslash. */
  lemma EscapelessDepth(s: string)
    requires Escapeless(s, 0)
    ensures Depth(s) == CDepth(s)
  {
    EscapelessTame(s, 0);
    TameDepth(s, 0);
  }

  // ------------------------------------------------------------- examples

  /** Neither the quote nor a backslash from i up to n. */
  predicate Plain(s: string, i: nat, n: nat, q: char) {
    NoBackslash(s, i, n) && forall k | i <= k < n :: s[k] != q
  }

  lemma {:induction false} PlainLiteral(s: string, i: nat, n: nat, q: char)
    requires Plain(s, i, n, q) && n < |s| && q != '\\'
    ensures s[n] == q ==> LitEnd(s, i, q) == Some(n + 1) && CEnd(s, i, q) == Some(n + 1)
    ensures s[n] == '\\' && !(n + 2 < |s| && s[n + 1] == '\\') ==> LitEnd(s, i, q).None?
    decreases n - i
  {
    if i < n { PlainLiteral(s, i + 1, n, q); }
  }

  lemma {:induction false} PlainOpen(s: string, i: nat, q: char)
    requires Plain(s, i, |s|, q)
    ensures LitEnd(s, i, q).None? && CEnd(s, i, q).None?
    decreases |s| - i
  {
    if i < |s| { PlainOpen(s, i + 1, q); }
  }

  lemma {:induction false} PlainText(s: string, i: nat, n: nat)
    requires i <= n <= |s| && forall k | i <= k < n :: !IsQuote(s[k]) && Paren(s[k]) == 0
    ensures DepthAt(s, i) == DepthAt(s, n) && CDepthAt(s, i) == CDepthAt(s, n)
    decreases n - i
  {
    if i < n { PlainText(s, i + 1, n); }
  }

  /** What stands in a literal without escapes is not counted, whichever quote it has. */
  lemma LiteralHides(q: char, body: string, y: string)
    requires (q == '"' || q == '\'') && forall k | 0 <= k < |body| :: body[k] != q && body[k] != '\\'
    ensures Depth([q] + body + [q] + y) == Depth(y)
  {
    var a := [q] + body + [q];
    var s, n := a + y, |body| + 1;
    assert forall k | 1 <= k < n :: s[k] == body[k - 1];
    PlainLiteral(s, 1, n, q);
    DepthShift(a, y, 0);
  }

  /** The format of a print call with an escape in it: the parenthesis inside the
      literal counts, and the statement is taken as unfinished. */
  lemma EscapeExample()
    ensures var s := "f(\"(\\n\")"; Depth(s) == 1 && CDepth(s) == 0
  {
    var s := "f(\"(\\n\")";
    assert |s| == 8 && s[2] == '"' && s[4] == '\\' && s[6] == '"';
    PlainLiteral(s, 3, 4, '"');
    PlainOpen(s, 7, '"');
    assert DepthAt(s, 7) == 0 - 1 && CDepthAt(s, 7) == 0 - 1 by { assert DepthAt(s, 8) == 0 && CDepthAt(s, 8) == 0; }
    assert DepthAt(s, 6) == 0 - 1;
    PlainText(s, 4, 6);
    assert DepthAt(s, 3) == 0 && DepthAt(s, 2) == 0;
    assert CEnd(s, 3, '"') == Some(7) by { assert CEnd(s, 4, '"') == CEnd(s, 6, '"'); }
    assert CDepthAt(s, 2) == 0 - 1;
    assert DepthAt(s, 1) == 1 && CDepthAt(s, 1) == 0;
  }

  /** And the closing quote that is not read as one opens a literal of its own, which
      hides what follows: here an opening parenthesis of a balanced call. */
  lemma HiddenExample()
    ensures var s := "f(\"\\n\",g(\"x\"))"; Depth(s) == 0 - 1 && CDepth(s) == 0
  {
    var s := "f(\"\\n\",g(\"x\"))";
    assert |s| == 14 && s[2] == '"' && s[3] == '\\' && s[5] == '"' && s[8] == '(' && s[9] == '"' && s[11] == '"';
    PlainLiteral(s, 3, 3, '"');
    PlainLiteral(s, 6, 9, '"');
    PlainLiteral(s, 10, 11, '"');
    PlainOpen(s, 12, '"');
    assert DepthAt(s, 12) == 0 - 2 && CDepthAt(s, 12) == 0 - 2 by {
      assert DepthAt(s, 14) == 0 && DepthAt(s, 13) == 0 - 1 && CDepthAt(s, 14) == 0 && CDepthAt(s, 13) == 0 - 1;
    }
    assert DepthAt(s, 11) == 0 - 2 && DepthAt(s, 10) == 0 - 2 && DepthAt(s, 5) == 0 - 2;
    PlainText(s, 3, 5);
    assert DepthAt(s, 2) == 0 - 2 && DepthAt(s, 1) == 0 - 1;
    assert CEnd(s, 3, '"') == Some(6) by { assert CEnd(s, 3, '"') == CEnd(s, 5, '"'); }
    assert CDepthAt(s, 9) == 0 - 2 && CDepthAt(s, 8) == 0 - 1;
    PlainText(s, 6, 8);
    assert CDepthAt(s, 2) == 0 - 1 && CDepthAt(s, 1) == 0;
  }

  /** A literal that crosses a line is the difference: its parentheses count line by
      line and not in the whole. */
  lemma CrossingLiteralDiffers()
    ensures var g := ["\"(", "(\""]; Sums(g) == 2 && Depth(Joined(g)) == 0
  {
    var a, b := "\"(", "(\"";
    var g := [a, b];
    assert LitEnd(a, 1, '"').None? by { assert LitEnd(a, 2, '"').None?; }
    assert Depth(a) == 1 by { assert DepthAt(a, 1) == 1; }
    assert Depth(b) == 1 by { assert DepthAt(b, 1) == 0; }
    assert g[..1] == [a] && g[..1][..0] == [];
    assert Sums(g[..1]) == 1;
    var j := a + " " + b;
    assert Joined(g) == j;
    assert j[4] == '"' && Plain(j, 1, 4, '"');
    PlainLiteral(j, 1, 4, '"');
    assert DepthAt(j, 5) == 0;
  }
}
