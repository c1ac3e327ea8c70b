/**
Collapsing runs of space does not change the depth of a text, so the space inside a
pending statement has no say in where the statement ends.
*/
module CoreCollapse {
  import opened Base
  import opened CoreText
  import opened CoreDepth

  function Plus(k: nat, r: Option<nat>): Option<nat> {
    if r.None? then None else Some(k + r.value)
  }

  /** A literal read from its own text on. */
  function Lit(u: string, q: char): Option<nat> { LitEnd(u, 0, q) }

  lemma LitRest(u: string, k: nat, q: char)
    requires k <= |u|
    ensures LitEnd(u, k, q) == Plus(k, Lit(u[k..], q))
  {
    assert u == u[..k] + u[k..];
    LitEndShift(u[..k], u[k..], 0, q);
  }

  /** One step of reading a literal. */
  lemma LitStep(u: string, q: char)
    requires u != "" && q != '\\'
    ensures u[0] == q ==> Lit(u, q) == Some(1)
    ensures u[0] != q && u[0] != '\\' ==> Lit(u, q) == Plus(1, Lit(u[1..], q))
    ensures u[0] == '\\' && |u| >= 3 && u[1] == '\\' ==> Lit(u, q) == Plus(3, Lit(u[3..], q))
    ensures u[0] == '\\' && !(|u| >= 3 && u[1] == '\\') ==> Lit(u, q).None?
  {
    LitRest(u, 1, q);
    if |u| >= 3 { LitRest(u, 3, q); }
  }

  /** Both texts close the literal or neither does, and what follows it is the collapsed
      rest. */
  ghost predicate SameLit(u: string, v: string, q: char) {
    && Lit(u, q).Some? == Lit(v, q).Some?
    && (Lit(u, q).Some? ==> v[Lit(v, q).value..] == Collapse(u[Lit(u, q).value..]))
  }

  /** Reading on past one character that is no quote and no backslash. */
  lemma SameLitChar(u: string, c: char, v: string, q: char)
    requires u != "" && u[0] != q && u[0] != '\\' && c != q && c != '\\' && q != '\\' && SameLit(u[1..], v, q)
    ensures SameLit(u, [c] + v, q)
  {
    var w := [c] + v;
    LitStep(u, q);
    LitStep(w, q);
    assert w[1..] == v;
    if Lit(u, q).Some? {
      var k, m := Lit(u[1..], q).value, Lit(v, q).value;
      assert u[1 + k..] == u[1..][k..] && w[1 + m..] == v[m..];
    }
  }

  /** Passing over a first character that the other text has dropped. */
  lemma SameLitDropped(u: string, v: string, q: char)
    requires u != "" && u[0] != q && u[0] != '\\' && q != '\\' && SameLit(u[1..], v, q)
    ensures SameLit(u, v, q)
  {
    LitStep(u, q);
    if Lit(u, q).Some? { assert u[1 + Lit(u[1..], q).value..] == u[1..][Lit(u[1..], q).value..]; }
  }

  /** Reading on past a pair of backslashes and the character after it. */
  lemma SameLitPair(u: string, c: char, v: string, q: char)
    requires |u| >= 3 && u[0] == '\\' && u[1] == '\\' && q != '\\' && SameLit(u[3..], v, q)
    ensures SameLit(u, ['\\', '\\', c] + v, q)
  {
    var w := ['\\', '\\', c] + v;
    LitStep(u, q);
    LitStep(w, q);
    assert w[3..] == v;
    if Lit(u, q).Some? {
      var k, m := Lit(u[3..], q).value, Lit(v, q).value;
      assert u[3 + k..] == u[3..][k..] && w[3 + m..] == v[m..];
    }
  }

  lemma SameLitTail(v: string, q: char)
    requires v != "" && v[0] == ' ' && q != '\\' && q != ' '
    ensures Lit(v, q) == Plus(1, Lit(v[1..], q))
  {
    LitStep(v, q);
  }

  lemma {:induction false} LitCollapse(u: string, q: char)
    requires IsQuote(q)
    ensures SameLit(u, Collapse(u), q)
    decreases |u|
  {
    if u != "" {
      CollapseStep(u);
      if u[0] == q {
        LitStep(u, q);
        LitStep(Collapse(u), q);
        assert Collapse(u)[1..] == Collapse(u[1..]);
      } else if u[0] != '\\' {
        LitCollapse(u[1..], q);
        if !IsSpace(u[0]) {
          SameLitChar(u, u[0], Collapse(u[1..]), q);
        } else if |u| > 1 && IsSpace(u[1]) {
          SameLitDropped(u, Collapse(u[1..]), q);
        } else {
          SameLitChar(u, ' ', Collapse(u[1..]), q);
        }
      } else if |u| >= 3 && u[1] == '\\' {
        LitCollapsePair(u, q);
      } else {
        LitCollapseNone(u, q);
      }
    }
  }

  lemma LitCollapseNone(u: string, q: char)
    requires IsQuote(q) && u != "" && u[0] == '\\' && !(|u| >= 3 && u[1] == '\\')
    ensures SameLit(u, Collapse(u), q)
  {
    var v := Collapse(u);
    CollapseStep(u);
    assert v == [u[0]] + Collapse(u[1..]);
    if |u| > 1 {
      CollapseStep(u[1..]);
      if |u| == 2 { assert u[1..][1..] == "" && Collapse("") == ""; }
    } else {
      assert u[1..] == "" && Collapse("") == "";
    }
    LitStep(u, q);
    LitStep(v, q);
  }

  lemma Three(a: char, b: char, c: char, v: string)
    ensures [a] + ([b] + ([c] + v)) == [a, b, c] + v
  {
  }

  lemma CollapseTwo(u: string, u1: string, u2: string)
    requires |u| >= 3 && !IsSpace(u[0]) && !IsSpace(u[1]) && u1 == u[1..] && u2 == u[2..]
    ensures Collapse(u) == [u[0]] + ([u[1]] + Collapse(u2))
  {
    CollapseStep(u);
    CollapseStep(u1);
    assert u1[1..] == u2;
  }

  /** What collapsing leaves of a text that begins with two backslashes. */
  lemma CollapsePair(u: string, v: string)
    requires |u| >= 3 && u[0] == '\\' && u[1] == '\\' && v == Collapse(u[3..])
    ensures if IsSpace(u[2]) && |u| > 3 && IsSpace(u[3])
            then v != "" && v[0] == ' ' && Collapse(u) == ['\\', '\\', ' '] + v[1..]
            else Collapse(u) == ['\\', '\\', if IsSpace(u[2]) then ' ' else u[2]] + v
  {
    var u2 := u[2..];
    CollapseTwo(u, u[1..], u2);
    CollapseStep(u2);
    assert u2[1..] == u[3..];
    if IsSpace(u[2]) && |u| > 3 && IsSpace(u[3]) {
      CollapseStep(u[3..]);
      assert v == [' '] + v[1..];
      Three('\\', '\\', ' ', v[1..]);
    } else {
      Three('\\', '\\', if IsSpace(u[2]) then ' ' else u[2], v);
    }
  }

  lemma {:induction false} LitCollapsePair(u: string, q: char)
    requires IsQuote(q) && |u| >= 3 && u[0] == '\\' && u[1] == '\\'
    ensures SameLit(u, Collapse(u), q)
    decreases |u|, 0
  {
    var v := Collapse(u[3..]);
    CollapsePair(u, v);
    LitCollapse(u[3..], q);
    if IsSpace(u[2]) && |u| > 3 && IsSpace(u[3]) {
      SameLitTail(v, q);
      SameLitRest(u, v, q);
    } else {
      SameLitPair(u, if IsSpace(u[2]) then ' ' else u[2], v, q);
    }
  }

  /** As SameLitPair, when the character after the pair is the first of a run of space
      and the run has one space left. */
  lemma SameLitRest(u: string, v: string, q: char)
    requires |u| >= 3 && u[0] == '\\' && u[1] == '\\' && q != '\\' && SameLit(u[3..], v, q)
    requires v != "" && Lit(v, q) == Plus(1, Lit(v[1..], q))
    ensures SameLit(u, ['\\', '\\', ' '] + v[1..], q)
  {
    var w := ['\\', '\\', ' '] + v[1..];
    LitStep(u, q);
    LitStep(w, q);
    assert w[3..] == v[1..];
    if Lit(u, q).Some? {
      var k, m := Lit(u[3..], q).value, Lit(v[1..], q).value;
      assert u[3 + k..] == u[3..][k..] && w[3 + m..] == v[1..][m..] == v[1 + m..];
    }
  }

  lemma DepthRest(s: string, i: nat)
    requires i <= |s|
    ensures DepthAt(s, i) == Depth(s[i..])
  {
    assert s == s[..i] + s[i..];
    DepthShift(s[..i], s[i..], 0);
  }

  /** One step of counting depth. */
  lemma DepthStep(s: string)
    requires s != ""
    ensures var lit := if IsQuote(s[0]) then Lit(s[1..], s[0]) else None;
            Depth(s) == if lit.Some? then Depth(s[1..][lit.value..]) else Paren(s[0]) + Depth(s[1..])
  {
    DepthRest(s, 1);
    if IsQuote(s[0]) {
      LitRest(s, 1, s[0]);
      var lit := Lit(s[1..], s[0]);
      if lit.Some? {
        DepthRest(s, 1 + lit.value);
        assert s[1..][lit.value..] == s[1 + lit.value..];
      }
    }
  }

  /** The depth of a text is that of its collapsed form. */
  lemma {:induction false} DepthCollapse(s: string)
    ensures Depth(Collapse(s)) == Depth(s)
    decreases |s|
  {
    if s != "" {
      var v := Collapse(s);
      CollapseStep(s);
      DepthStep(s);
      DepthCollapse(s[1..]);
      if !IsSpace(s[0]) {
        assert v[1..] == Collapse(s[1..]);
        DepthStep(v);
        if IsQuote(s[0]) {
          LitCollapse(s[1..], s[0]);
          var lit := Lit(s[1..], s[0]);
          if lit.Some? { DepthCollapse(s[1..][lit.value..]); }
        }
      } else if !(|s| > 1 && IsSpace(s[1])) {
        assert v[1..] == Collapse(s[1..]);
        DepthStep(v);
      }
    }
  }
}
