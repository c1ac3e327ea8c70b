/**
The scan for sleeping calls in spin-locked regions: from each line that takes a
spinlock to the line that releases the same lock, or to the end of the function.

A line is given by what the source's expressions find in it: the lock it takes, the
locks it releases in the order they stand, whether it ends a function, and its
tokens.  `sleepy` is the list of calls that may sleep.
*/
module SpinAudit {
  import opened Base
  import opened CoreText

  datatype Kind = Ex | Sh

  datatype Token = Name(name: string) | Open | Other

  datatype Acquire = Acquire(kind: Kind, expr: string)

  datatype Line = Line(acquire: Option<Acquire>, releases: seq<string>, funcEnd: bool, tokens: seq<Token>)

  /** One region: the file and line it starts at, the lock, how far the scan went, and
      the sleeping calls it saw. */
  datatype Record = Record(file: nat, line: nat, kind: Kind, lock: string, span: nat, sleeps: set<string>)

  // ------------------------------------------------------ lock expressions

  function Squeeze(s: string): (r: string)
    ensures forall c | c in r :: c in s && !IsSpace(c)
  {
    if s == "" then "" else if IsSpace(s[0]) then Squeeze(s[1..]) else [s[0]] + Squeeze(s[1..])
  }

  function Unref(s: string): (r: string)
    ensures r == "" || r[0] != '&'
    ensures s == "" || s[0] != '&' ==> r == s
    ensures forall c | c in r :: c in s
  {
    if s != "" && s[0] == '&' then Unref(s[1..]) else s
  }

  function Norm(expr: string): (r: string)
    ensures forall c | c in r :: !IsSpace(c)
    ensures r == "" || r[0] != '&'
  {
    Unref(Squeeze(expr))
  }

  lemma {:induction false} SqueezeAdd(a: string, b: string)
    ensures Squeeze(a + b) == Squeeze(a) + Squeeze(b)
  {
    if a == "" {
      assert a + b == b;
    } else {
      assert (a + b)[1..] == a[1..] + b;
      SqueezeAdd(a[1..], b);
      if !IsSpace(a[0]) {
        assert Squeeze(a + b) == [a[0]] + (Squeeze(a[1..]) + Squeeze(b));
      }
    }
  }

  lemma {:induction false} SqueezeTight(s: string)
    requires forall c | c in s :: !IsSpace(c)
    ensures Squeeze(s) == s
  {
    if s != "" { SqueezeTight(s[1..]); }
  }

  /** Space anywhere in a lock expression, and marks of reference before it, do not
      change which lock it names; normalising twice changes nothing. */
  lemma NormIgnores(a: string, c: char, b: string)
    requires IsSpace(c)
    ensures Norm(a + [c] + b) == Norm(a + b)
    ensures Norm("&" + a) == Norm(a)
    ensures Norm(Norm(a)) == Norm(a)
  {
    SqueezeAdd(a + [c], b);
    SqueezeAdd(a, [c]);
    SqueezeAdd(a, b);
    assert Squeeze([c]) == "";
    assert Squeeze(a) + "" == Squeeze(a);
    assert ("&" + a)[1..] == a;
    assert ("&" + Squeeze(a))[1..] == Squeeze(a);
    SqueezeTight(Norm(a));
  }

  /** What is taken out is space and nothing else. */
  lemma SqueezeLaws(a: string, c: char, b: string)
    ensures Squeeze("") == ""
    ensures Squeeze(a + [c] + b) == Squeeze(a) + (if IsSpace(c) then "" else [c]) + Squeeze(b)
  {
    SqueezeAdd(a + [c], b);
    SqueezeAdd(a, [c]);
    assert Squeeze([c]) == if IsSpace(c) then "" else [c];
  }

  /** A name: no space in it and no mark of reference at its front. */
  predicate IsName(t: string) {
    (forall c | c in t :: !IsSpace(c)) && (t == "" || t[0] != '&')
  }

  /** A name is its own, so that different names are different locks. */
  lemma NormOfName(t: string)
    requires IsName(t)
    ensures Norm(t) == t
  {
    SqueezeTight(t);
  }

  function Marks(n: nat): (r: string)
    ensures |r| == n && forall c | c in r :: c == '&'
  {
    if n == 0 then "" else "&" + Marks(n - 1)
  }

  /** Nothing but marks of reference, and t. */
  ghost predicate Marked(s: string, t: string) {
    exists n: nat :: s == Marks(n) + t
  }

  lemma MarksFirst(n: nat, t: string)
    ensures n > 0 ==> (Marks(n) + t)[0] == '&'
  {
  }

  lemma MarkedMore(s: string, t: string)
    requires s != "" && s[0] == '&' && (t == "" || t[0] != '&')
    ensures Marked(s, t) <==> Marked(s[1..], t)
  {
    if Marked(s[1..], t) {
      var n: nat :| s[1..] == Marks(n) + t;
      assert s == Marks(n + 1) + t;
    }
    if Marked(s, t) {
      var n: nat :| s == Marks(n) + t;
      assert n > 0;
      assert s[1..] == Marks(n - 1) + t;
    }
  }

  lemma MarkedNone(s: string, t: string)
    requires s == "" || s[0] != '&'
    ensures Marked(s, t) <==> s == t
  {
    if Marked(s, t) {
      var n: nat :| s == Marks(n) + t;
      MarksFirst(n, t);
      assert "" + t == t;
    }
    assert t == Marks(0) + t;
  }

  lemma {:induction false} UnrefIff(s: string, t: string)
    requires t == "" || t[0] != '&'
    ensures Unref(s) == t <==> Marked(s, t)
  {
    if s != "" && s[0] == '&' {
      UnrefIff(s[1..], t);
      MarkedMore(s, t);
    } else {
      MarkedNone(s, t);
    }
  }

  /** The name of an expression is what is left of it, without space, behind its marks. */
  lemma NormIff(a: string, t: string)
    requires IsName(t)
    ensures Norm(a) == t <==> Marked(Squeeze(a), t)
  {
    UnrefIff(Squeeze(a), t);
  }

  /** Two expressions name one lock exactly when without space they differ in leading
      marks alone. */
  lemma SameLockIff(a: string, b: string)
    ensures Norm(a) == Norm(b) <==> exists t :: IsName(t) && Marked(Squeeze(a), t) && Marked(Squeeze(b), t)
  {
    NormIff(a, Norm(a));
    NormIff(b, Norm(a));
    if t :| IsName(t) && Marked(Squeeze(a), t) && Marked(Squeeze(b), t) {
      NormIff(a, t);
      NormIff(b, t);
    }
  }

  // --------------------------------------------------------- sleeping calls

  predicate CallAt(sleepy: string -> bool, t: seq<Token>, k: int) {
    0 <= k < |t| - 1 && t[k].Name? && sleepy(t[k].name) && t[k + 1] == Open
  }

  /** The sleeping calls in a text: a listed name right before a parenthesis, with
      nothing but space, line ends among it, between. */
  ghost function Calls(sleepy: string -> bool, t: seq<Token>): set<string> {
    set k | 0 <= k < |t| && CallAt(sleepy, t, k) :: t[k].name
  }

  lemma CallsSnoc(sleepy: string -> bool, t: seq<Token>, x: Token)
    ensures var u, n := t + [x], |t| - 1;
            Calls(sleepy, u) == Calls(sleepy, t) + if CallAt(sleepy, u, n) then {u[n].name} else {}
  {
    var u, n := t + [x], |t| - 1;
    forall w | w in Calls(sleepy, t) ensures w in Calls(sleepy, u) {
      var k :| 0 <= k < |t| && CallAt(sleepy, t, k) && t[k].name == w;
      assert CallAt(sleepy, u, k);
    }
    forall w | w in Calls(sleepy, u) ensures w in Calls(sleepy, t) || (CallAt(sleepy, u, n) && w == u[n].name) {
      var k :| 0 <= k < |u| && CallAt(sleepy, u, k) && u[k].name == w;
      if k < n { assert CallAt(sleepy, t, k); }
    }
  }

  method FindCalls(sleepy: string -> bool, t: seq<Token>) returns (r: set<string>)
    ensures r == Calls(sleepy, t)
  {
    r := {};
    for k := 0 to |t|
      invariant r == Calls(sleepy, t[..k])
    {
      CallsSnoc(sleepy, t[..k], t[k]);
      assert t[..k] + [t[k]] == t[..k + 1];
      if CallAt(sleepy, t[..k + 1], k - 1) {
        r := r + {t[k - 1].name};
      }
    }
    assert t[..|t|] == t;
  }

  /** The tokens of the lines from i to j. */
  function Body(lines: seq<Line>, i: nat, j: nat): seq<Token>
    requires i <= j <= |lines|
    decreases j - i
  {
    if i == j then [] else Body(lines, i, j - 1) + lines[j - 1].tokens
  }

  // ------------------------------------------------------------- regions

  /** The lock a line releases, as the scan reads it: the first release on the line. */
  function Released(l: Line): Option<string> {
    if l.releases == [] then None else Some(Norm(l.releases[0]))
  }

  predicate Stops(l: Line, lock: string) {
    l.funcEnd || Released(l) == Some(lock)
  }

  /** The line the scan from i ends at. */
  function EndOf(lines: seq<Line>, i: nat, lock: string): (j: nat)
    requires i < |lines|
    ensures i < j <= |lines|
    ensures forall k | i < k < j :: !Stops(lines[k], lock)
    ensures j < |lines| ==> Stops(lines[j], lock)
    decreases |lines| - i
  {
    if i + 1 < |lines| && !Stops(lines[i + 1], lock) then EndOf(lines, i + 1, lock) else i + 1
  }

  /** A release of the lock comes before the function ends. */
  ghost predicate Resolved(lines: seq<Line>, i: nat, lock: string) {
    exists j :: i < j < |lines| && Released(lines[j]) == Some(lock) && forall k | i < k <= j :: !lines[k].funcEnd
  }

  /** What the source returns for one region. */
  method Scan(lines: seq<Line>, i: nat, lock: string) returns (j: nat, found: bool, body: seq<Token>)
    requires i < |lines|
    ensures i < j <= |lines| && j == EndOf(lines, i, lock)
    ensures body == Body(lines, i + 1, j)
    ensures found <==> Resolved(lines, i, lock)
  {
    body, j, found := [], i + 1, false;
    while j < |lines|
      invariant i < j <= |lines| && !found
      invariant NoStop(lines, i, j, lock) && body == Body(lines, i + 1, j)
    {
      if lines[j].funcEnd {
        break;
      }
      if Released(lines[j]) == Some(lock) {
        found := true;
        break;
      }
      body := body + lines[j].tokens;
      j := j + 1;
    }
    EndIs(lines, i, lock, j);
    ResolvedIff(lines, i, lock, j);
  }

  ghost predicate NoStop(lines: seq<Line>, i: nat, j: nat, lock: string) {
    j <= |lines| && forall k | i < k < j :: !Stops(lines[k], lock)
  }

  lemma {:induction false} EndIs(lines: seq<Line>, i: nat, lock: string, j: nat)
    requires i < j <= |lines| && NoStop(lines, i, j, lock) && (j < |lines| ==> Stops(lines[j], lock))
    ensures EndOf(lines, i, lock) == j
    decreases j - i
  {
    if i + 1 < j { EndIs(lines, i + 1, lock, j); }
  }

  lemma ResolvedIff(lines: seq<Line>, i: nat, lock: string, j: nat)
    requires i < j <= |lines| && NoStop(lines, i, j, lock) && (j < |lines| ==> Stops(lines[j], lock))
    ensures Resolved(lines, i, lock) <==> j < |lines| && !lines[j].funcEnd
  {
    if Resolved(lines, i, lock) {
      var m :| i < m < |lines| && Released(lines[m]) == Some(lock) && forall k | i < k <= m :: !lines[k].funcEnd;
      assert Stops(lines[m], lock);
    }
  }

  // ---------------------------------------------------------- the whole audit

  /** The record of the region that starts at line i, and whether it is resolved. */
  ghost function RecordAt(sleepy: string -> bool, file: nat, lines: seq<Line>, i: nat): Record
    requires i < |lines| && lines[i].acquire.Some?
  {
    var a := lines[i].acquire.value;
    var j := EndOf(lines, i, Norm(a.expr));
    Record(file, i + 1, a.kind, Norm(a.expr), j - i, Calls(sleepy, Body(lines, i + 1, j)))
  }

  ghost predicate Wanted(lines: seq<Line>, i: nat, resolved: bool)
    requires i < |lines|
  {
    lines[i].acquire.Some? && Resolved(lines, i, Norm(lines[i].acquire.value.expr)) == resolved
  }

  /** The resolved, or the unresolved, records of the first n lines of a file. */
  ghost function Records(sleepy: string -> bool, file: nat, lines: seq<Line>, n: nat, resolved: bool): seq<Record>
    requires n <= |lines|
  {
    if n == 0 then []
    else Records(sleepy, file, lines, n - 1, resolved)
         + if Wanted(lines, n - 1, resolved) then [RecordAt(sleepy, file, lines, n - 1)] else []
  }

  ghost function AllRecords(sleepy: string -> bool, files: seq<seq<Line>>, m: nat, resolved: bool): seq<Record>
    requires m <= |files|
  {
    if m == 0 then []
    else AllRecords(sleepy, files, m - 1, resolved)
         + Records(sleepy, m - 1, files[m - 1], |files[m - 1]|, resolved)
  }

  method Audit(sleepy: string -> bool, files: seq<seq<Line>>) returns (resolved: seq<Record>, unresolved: seq<Record>)
    ensures resolved == AllRecords(sleepy, files, |files|, true)
    ensures unresolved == AllRecords(sleepy, files, |files|, false)
  {
    resolved, unresolved := [], [];
    for f := 0 to |files|
      invariant resolved == AllRecords(sleepy, files, f, true)
      invariant unresolved == AllRecords(sleepy, files, f, false)
    {
      var r, u := AuditFile(sleepy, f, files[f]);
      resolved, unresolved := resolved + r, unresolved + u;
    }
  }

  method AuditFile(sleepy: string -> bool, file: nat, lines: seq<Line>)
    returns (resolved: seq<Record>, unresolved: seq<Record>)
    ensures resolved == Records(sleepy, file, lines, |lines|, true)
    ensures unresolved == Records(sleepy, file, lines, |lines|, false)
  {
    resolved, unresolved := [], [];
    for i := 0 to |lines|
      invariant resolved == Records(sleepy, file, lines, i, true)
      invariant unresolved == Records(sleepy, file, lines, i, false)
    {
      if lines[i].acquire.None? {
        continue;
      }
      var rec, found := AuditLine(sleepy, file, lines, i);
      if found {
        resolved := resolved + [rec];
      } else {
        unresolved := unresolved + [rec];
      }
    }
  }

  /** The region that starts at a line. */
  method AuditLine(sleepy: string -> bool, file: nat, lines: seq<Line>, i: nat) returns (rec: Record, found: bool)
    requires i < |lines| && lines[i].acquire.Some?
    ensures rec == RecordAt(sleepy, file, lines, i) && Wanted(lines, i, found) && !Wanted(lines, i, !found)
  {
    var a := lines[i].acquire.value;
    var lock := Norm(a.expr);
    var j, resolved, body := Scan(lines, i, lock);
    var sleeps := FindCalls(sleepy, body);
    rec, found := Record(file, i + 1, a.kind, lock, j - i, sleeps), resolved;
  }

  // ------------------------------------------------------------- theorems

  /** How many records there are for a line of a file. */
  function CountAt(rs: seq<Record>, file: nat, line: nat): nat {
    if rs == [] then 0
    else (if rs[0].file == file && rs[0].line == line then 1 else 0) + CountAt(rs[1..], file, line)
  }

  lemma {:induction false} CountAdd(a: seq<Record>, b: seq<Record>, file: nat, line: nat)
    ensures CountAt(a + b, file, line) == CountAt(a, file, line) + CountAt(b, file, line)
  {
    if a == [] {
      assert a + b == b;
    } else {
      assert (a + b)[1..] == a[1..] + b;
      CountAdd(a[1..], b, file, line);
    }
  }

  predicate Takes(lines: seq<Line>, line: nat) {
    0 < line <= |lines| && lines[line - 1].acquire.Some?
  }

  lemma CountOne(rs: seq<Record>, r: Record, file: nat, line: nat)
    ensures CountAt(rs + [r], file, line) == CountAt(rs, file, line) + if r.file == file && r.line == line then 1 else 0
  {
    CountAdd(rs, [r], file, line);
    assert [r][1..] == [];
  }

  /** The records of the lines below n that are wanted. */
  ghost function Listed(want: nat -> bool, rec: nat -> Record, n: nat): seq<Record> {
    if n == 0 then [] else Listed(want, rec, n - 1) + if want(n - 1) then [rec(n - 1)] else []
  }

  lemma {:induction false} CountListed(want: nat -> bool, rec: nat -> Record, n: nat, file: nat, f: nat, line: nat)
    requires forall i: nat :: rec(i).file == file && rec(i).line == i + 1
    ensures CountAt(Listed(want, rec, n), f, line) == if f == file && 0 < line <= n && want(line - 1) then 1 else 0
  {
    if n > 0 {
      CountListed(want, rec, n - 1, file, f, line);
      var rs := Listed(want, rec, n - 1);
      CountOne(rs, rec(n - 1), f, line);
      assert rs + [] == rs;
    }
  }

  lemma {:induction false} RecordsListed(sleepy: string -> bool, file: nat, lines: seq<Line>, n: nat, resolved: bool,
                                         want: nat -> bool, rec: nat -> Record)
    requires n <= |lines|
    requires forall i | 0 <= i < |lines| :: want(i) == Wanted(lines, i, resolved)
    requires forall i | 0 <= i < |lines| && Wanted(lines, i, resolved) :: rec(i) == RecordAt(sleepy, file, lines, i)
    ensures Records(sleepy, file, lines, n, resolved) == Listed(want, rec, n)
  {
    if n > 0 { RecordsListed(sleepy, file, lines, n - 1, resolved, want, rec); }
  }

  /** The records of one of the two lists. */
  lemma CountList(sleepy: string -> bool, file: nat, lines: seq<Line>, resolved: bool, f: nat, line: nat)
    ensures CountAt(Records(sleepy, file, lines, |lines|, resolved), f, line)
         == if f == file && 0 < line <= |lines| && Wanted(lines, line - 1, resolved) then 1 else 0
  {
    var want := (i: nat) => i < |lines| && Wanted(lines, i, resolved);
    var rec := (i: nat) => if i < |lines| && lines[i].acquire.Some? then RecordAt(sleepy, file, lines, i)
                           else Record(file, i + 1, Ex, "", 0, {});
    RecordsListed(sleepy, file, lines, |lines|, resolved, want, rec);
    CountListed(want, rec, |lines|, file, f, line);
  }

  lemma CountRecords(sleepy: string -> bool, file: nat, lines: seq<Line>, f: nat, line: nat)
    ensures CountAt(Records(sleepy, file, lines, |lines|, true), f, line)
            + CountAt(Records(sleepy, file, lines, |lines|, false), f, line)
         == if f == file && Takes(lines, line) then 1 else 0
  {
    CountList(sleepy, file, lines, true, f, line);
    CountList(sleepy, file, lines, false, f, line);
  }

  /** Every line that takes a spinlock, of every file, has exactly one record, in one of
      the two lists; no other line has any. */
  lemma {:induction false} OneRecordEach(sleepy: string -> bool, files: seq<seq<Line>>, m: nat, f: nat, line: nat)
    requires m <= |files|
    ensures CountAt(AllRecords(sleepy, files, m, true), f, line) + CountAt(AllRecords(sleepy, files, m, false), f, line)
         == if f < m && Takes(files[f], line) then 1 else 0
  {
    if m > 0 {
      OneRecordEach(sleepy, files, m - 1, f, line);
      var lines := files[m - 1];
      CountRecords(sleepy, m - 1, lines, f, line);
      CountAdd(AllRecords(sleepy, files, m - 1, true), Records(sleepy, m - 1, lines, |lines|, true), f, line);
      CountAdd(AllRecords(sleepy, files, m - 1, false), Records(sleepy, m - 1, lines, |lines|, false), f, line);
    }
  }

  lemma CallsParts(sleepy: string -> bool, t: seq<Token>, u: seq<Token>)
    ensures Calls(sleepy, t) <= Calls(sleepy, t + u) && Calls(sleepy, u) <= Calls(sleepy, t + u)
  {
    var v := t + u;
    forall w | w in Calls(sleepy, t) ensures w in Calls(sleepy, v) {
      var k :| 0 <= k < |t| && CallAt(sleepy, t, k) && t[k].name == w;
      assert CallAt(sleepy, v, k);
    }
    forall w | w in Calls(sleepy, u) ensures w in Calls(sleepy, v) {
      var k :| 0 <= k < |u| && CallAt(sleepy, u, k) && u[k].name == w;
      assert CallAt(sleepy, v, |t| + k);
    }
  }

  /** No sleeping call that stands on a line between the two is missed. */
  lemma {:induction false} NoCallMissed(sleepy: string -> bool, lines: seq<Line>, i: nat, j: nat, l: nat)
    requires i <= l < j <= |lines|
    ensures Calls(sleepy, lines[l].tokens) <= Calls(sleepy, Body(lines, i, j))
    decreases j
  {
    CallsParts(sleepy, Body(lines, i, j - 1), lines[j - 1].tokens);
    if l < j - 1 { NoCallMissed(sleepy, lines, i, j - 1, l); }
  }

  // ------------------------------------------------ where the calls stand

  /** A listed name and its parenthesis, next to each other on a line. */
  predicate OnLine(sleepy: string -> bool, l: Line, p: int, w: string) {
    0 <= p < |l.tokens| - 1 && l.tokens[p] == Name(w) && sleepy(w) && l.tokens[p + 1] == Open
  }

  /** Line l ends in a listed name, and line m, the next with anything on it, begins with
      a parenthesis. */
  predicate Across(sleepy: string -> bool, lines: seq<Line>, l: int, m: int, w: string) {
    && 0 <= l < m < |lines| && LastAt(lines, m, l)
    && lines[l].tokens[|lines[l].tokens| - 1] == Name(w) && sleepy(w)
    && lines[m].tokens != [] && lines[m].tokens[0] == Open
  }

  /** Line l is the last before line j with anything on it. */
  predicate LastAt(lines: seq<Line>, j: int, l: int) {
    0 <= l < j <= |lines| && lines[l].tokens != [] && forall k | l < k < j :: lines[k].tokens == []
  }

  /** A sleeping call stands on the lines from i to j, on one of them or across two. */
  ghost predicate CallIn(sleepy: string -> bool, lines: seq<Line>, i: nat, j: nat, w: string)
    requires j <= |lines|
  {
    || (exists l, p :: i <= l < j && OnLine(sleepy, lines[l], p, w))
    || (exists l, m :: i <= l < m < j && Across(sleepy, lines, l, m, w))
  }

  /** A name that ends one text, and a parenthesis that begins the next. */
  predicate Border(sleepy: string -> bool, t: seq<Token>, u: seq<Token>, w: string) {
    t != [] && u != [] && t[|t| - 1] == Name(w) && sleepy(w) && u[0] == Open
  }

  lemma CallsAppend(sleepy: string -> bool, t: seq<Token>, u: seq<Token>, w: string)
    ensures w in Calls(sleepy, t + u) <==> w in Calls(sleepy, t) || w in Calls(sleepy, u) || Border(sleepy, t, u, w)
  {
    var v := t + u;
    CallsParts(sleepy, t, u);
    if w in Calls(sleepy, v) {
      var k :| 0 <= k < |v| && CallAt(sleepy, v, k) && v[k].name == w;
      if k < |t| - 1 { assert CallAt(sleepy, t, k); }
      if k >= |t| { assert CallAt(sleepy, u, k - |t|); }
    }
    if Border(sleepy, t, u, w) { assert CallAt(sleepy, v, |t| - 1); }
  }

  lemma CallsLine(sleepy: string -> bool, l: Line, w: string)
    ensures w in Calls(sleepy, l.tokens) <==> exists p :: OnLine(sleepy, l, p, w)
  {
    if w in Calls(sleepy, l.tokens) {
      var k :| 0 <= k < |l.tokens| && CallAt(sleepy, l.tokens, k) && l.tokens[k].name == w;
      assert OnLine(sleepy, l, k, w);
    }
    if p :| OnLine(sleepy, l, p, w) { assert CallAt(sleepy, l.tokens, p); }
  }

  lemma {:induction false} BodyEnds(lines: seq<Line>, i: nat, j: nat, l: nat)
    requires i <= l < j && LastAt(lines, j, l)
    ensures var b := Body(lines, i, j); b != [] && b[|b| - 1] == lines[l].tokens[|lines[l].tokens| - 1]
    decreases j
  {
    if l < j - 1 { BodyEnds(lines, i, j - 1, l); }
  }

  lemma {:induction false} BodyLast(lines: seq<Line>, i: nat, j: nat) returns (l: nat)
    requires i <= j <= |lines| && Body(lines, i, j) != []
    ensures i <= l < j && LastAt(lines, j, l)
    decreases j
  {
    if lines[j - 1].tokens != [] { l := j - 1; } else { l := BodyLast(lines, i, j - 1); }
  }

  lemma BorderIff(sleepy: string -> bool, lines: seq<Line>, i: nat, k: nat, w: string)
    requires i <= k < |lines|
    ensures Border(sleepy, Body(lines, i, k), lines[k].tokens, w) <==>
            exists l :: i <= l < k && Across(sleepy, lines, l, k, w)
  {
    if Border(sleepy, Body(lines, i, k), lines[k].tokens, w) {
      var l := BodyLast(lines, i, k);
      BodyEnds(lines, i, k, l);
      assert Across(sleepy, lines, l, k, w);
    }
    if l :| i <= l < k && Across(sleepy, lines, l, k, w) { BodyEnds(lines, i, k, l); }
  }

  lemma CallInMore(sleepy: string -> bool, lines: seq<Line>, i: nat, k: nat, w: string)
    requires i <= k < |lines|
    ensures CallIn(sleepy, lines, i, k + 1, w) <==>
            || CallIn(sleepy, lines, i, k, w) || (exists p :: OnLine(sleepy, lines[k], p, w))
            || exists l :: i <= l < k && Across(sleepy, lines, l, k, w)
  {
    if l, p :| i <= l < k + 1 && OnLine(sleepy, lines[l], p, w) {
      if l < k { assert CallIn(sleepy, lines, i, k, w); }
    }
    if l, m :| i <= l < m < k + 1 && Across(sleepy, lines, l, m, w) {
      if m < k { assert CallIn(sleepy, lines, i, k, w); }
    }
    if p :| OnLine(sleepy, lines[k], p, w) { assert CallIn(sleepy, lines, i, k + 1, w); }
  }

  /** The calls found in a region are the ones that stand in it, and no others. */
  lemma {:induction false} CallsIff(sleepy: string -> bool, lines: seq<Line>, i: nat, j: nat, w: string)
    requires i <= j <= |lines|
    ensures w in Calls(sleepy, Body(lines, i, j)) <==> CallIn(sleepy, lines, i, j, w)
    decreases j
  {
    if i < j {
      var k := j - 1;
      CallsIff(sleepy, lines, i, k, w);
      CallsAppend(sleepy, Body(lines, i, k), lines[k].tokens, w);
      CallsLine(sleepy, lines[k], w);
      BorderIff(sleepy, lines, i, k, w);
      CallInMore(sleepy, lines, i, k, w);
    }
  }

  // --------------------------------------------------- what a record says

  /** The first release on the line is of the lock. */
  predicate Lets(l: Line, lock: string) {
    l.releases != [] && Norm(l.releases[0]) == lock
  }

  /** Line i takes the record's lock, line j is the first after it that ends the function
      or lets the lock go first, and the sleeping calls are the ones between.  The region
      is resolved if it does not end with the function. */
  ghost predicate SaysAt(sleepy: string -> bool, lines: seq<Line>, r: Record, resolved: bool, i: int, j: int) {
    && 0 <= i < j <= |lines|
    && lines[i].acquire.Some? && lines[i].acquire.value.kind == r.kind && r.lock == Norm(lines[i].acquire.value.expr)
    && (forall k | i < k < j :: !lines[k].funcEnd && !Lets(lines[k], r.lock))
    && (j < |lines| ==> lines[j].funcEnd || Lets(lines[j], r.lock))
    && (resolved <==> j < |lines| && !lines[j].funcEnd)
    && (forall w :: w in r.sleeps <==> CallIn(sleepy, lines, i + 1, j, w))
  }

  /** The region is from the record's line over its span. */
  ghost predicate Says(sleepy: string -> bool, lines: seq<Line>, r: Record, resolved: bool) {
    SaysAt(sleepy, lines, r, resolved, r.line - 1, r.line - 1 + r.span)
  }

  lemma SleepsSay(sleepy: string -> bool, lines: seq<Line>, i: nat, j: nat, sleeps: set<string>)
    requires i <= j <= |lines| && sleeps == Calls(sleepy, Body(lines, i, j))
    ensures forall w :: w in sleeps <==> CallIn(sleepy, lines, i, j, w)
  {
    forall w ensures w in sleeps <==> CallIn(sleepy, lines, i, j, w) { CallsIff(sleepy, lines, i, j, w); }
  }

  lemma SpanSays(lines: seq<Line>, i: nat, lock: string, j: nat)
    requires i < |lines| && j == EndOf(lines, i, lock)
    ensures forall k | i < k < j :: !lines[k].funcEnd && !Lets(lines[k], lock)
    ensures j < |lines| ==> lines[j].funcEnd || Lets(lines[j], lock)
  {
    forall k | i < k < j ensures !lines[k].funcEnd && !Lets(lines[k], lock) { assert !Stops(lines[k], lock); }
  }

  lemma RecordSays(sleepy: string -> bool, file: nat, lines: seq<Line>, i: nat, resolved: bool)
    requires i < |lines| && Wanted(lines, i, resolved)
    ensures Says(sleepy, lines, RecordAt(sleepy, file, lines, i), resolved)
  {
    var lock := Norm(lines[i].acquire.value.expr);
    var j := EndOf(lines, i, lock);
    ResolvedIff(lines, i, lock, j);
    SpanSays(lines, i, lock, j);
    SleepsSay(sleepy, lines, i + 1, j, Calls(sleepy, Body(lines, i + 1, j)));
    assert SaysAt(sleepy, lines, RecordAt(sleepy, file, lines, i), resolved, i, j);
  }

  lemma {:induction false} FileSays(sleepy: string -> bool, file: nat, lines: seq<Line>, n: nat, resolved: bool,
                                    r: Record)
    requires n <= |lines| && r in Records(sleepy, file, lines, n, resolved)
    ensures r.file == file && Says(sleepy, lines, r, resolved)
  {
    if n > 0 {
      if r in Records(sleepy, file, lines, n - 1, resolved) {
        FileSays(sleepy, file, lines, n - 1, resolved, r);
      } else {
        RecordSays(sleepy, file, lines, n - 1, resolved);
      }
    }
  }

  /** Every record of the audit says what is so of its file, and is in the list that is
      its own. */
  lemma {:induction false} AuditSays(sleepy: string -> bool, files: seq<seq<Line>>, m: nat, resolved: bool, r: Record)
    requires m <= |files| && r in AllRecords(sleepy, files, m, resolved)
    ensures r.file < m && Says(sleepy, files[r.file], r, resolved)
  {
    if m > 0 {
      if r in AllRecords(sleepy, files, m - 1, resolved) {
        AuditSays(sleepy, files, m - 1, resolved, r);
      } else {
        FileSays(sleepy, m - 1, files[m - 1], |files[m - 1]|, resolved, r);
      }
    }
  }

  /** A release of the lock, first on its line or not. */
  ghost predicate ResolvedAnywhere(lines: seq<Line>, i: nat, lock: string) {
    exists j :: i < j < |lines| && Names(lines[j], lock) && forall k | i < k <= j :: !lines[k].funcEnd
  }

  predicate Names(l: Line, lock: string) {
    exists n | 0 <= n < |l.releases| :: Norm(l.releases[n]) == lock
  }

  /** Every release on the line is of one lock, or the line ends the function. */
  predicate OneLock(l: Line) {
    l.funcEnd || forall n | 0 <= n < |l.releases| :: Norm(l.releases[n]) == Norm(l.releases[0])
  }

  /** The scan finds a release exactly when there is one, on files whose lines release
      one lock each. */
  lemma ResolvedIsRelease(lines: seq<Line>, i: nat, lock: string)
    requires forall l | l in lines :: OneLock(l)
    ensures Resolved(lines, i, lock) <==> ResolvedAnywhere(lines, i, lock)
  {
    if Resolved(lines, i, lock) {
      var j :| i < j < |lines| && Released(lines[j]) == Some(lock) && forall k | i < k <= j :: !lines[k].funcEnd;
      assert Norm(lines[j].releases[0]) == lock && Names(lines[j], lock);
    }
    if ResolvedAnywhere(lines, i, lock) {
      var j :| i < j < |lines| && Names(lines[j], lock) && forall k | i < k <= j :: !lines[k].funcEnd;
      assert OneLock(lines[j]) && Released(lines[j]) == Some(lock);
    }
  }

  predicate Ends(l: Line, lock: string) {
    l.funcEnd || Names(l, lock)
  }

  /** Where the region ends: at the first line that releases its lock anywhere, or with
      the function. */
  function TrueEnd(lines: seq<Line>, i: nat, lock: string): (j: nat)
    requires i < |lines|
    ensures i < j <= |lines|
    ensures forall k | i < k < j :: !Ends(lines[k], lock)
    ensures j < |lines| ==> Ends(lines[j], lock)
    decreases |lines| - i
  {
    if i + 1 < |lines| && !Ends(lines[i + 1], lock) then TrueEnd(lines, i + 1, lock) else i + 1
  }

  /** The lock's release is on the line, and the scan does not see it: another comes
      first. */
  predicate Hides(l: Line, lock: string) {
    Names(l, lock) && !Lets(l, lock)
  }

  /** The scan ends a region where it ends exactly when no line it reads on the way
      hides a release of its lock. */
  lemma EndsRightIff(lines: seq<Line>, i: nat, lock: string)
    requires i < |lines|
    ensures EndOf(lines, i, lock) == TrueEnd(lines, i, lock) <==>
            forall k | i < k < EndOf(lines, i, lock) :: !Hides(lines[k], lock)
  {
    var j, t := EndOf(lines, i, lock), TrueEnd(lines, i, lock);
    if j < |lines| { StopsEnds(lines[j], lock); }
    if t < j {
      assert !Stops(lines[t], lock) && Ends(lines[t], lock);
    } else {
      forall k | i < k < j ensures !Hides(lines[k], lock) { }
    }
  }

  lemma StopsEnds(l: Line, lock: string)
    requires Stops(l, lock)
    ensures Ends(l, lock)
  {
    if Released(l) == Some(lock) { assert Norm(l.releases[0]) == lock; }
  }

  /** The record of a region as it is, and not as the scan reads it. */
  ghost function TrueRecord(sleepy: string -> bool, file: nat, lines: seq<Line>, i: nat): Record
    requires i < |lines| && lines[i].acquire.Some?
  {
    var a := lines[i].acquire.value;
    var j := TrueEnd(lines, i, Norm(a.expr));
    Record(file, i + 1, a.kind, Norm(a.expr), j - i, Calls(sleepy, Body(lines, i + 1, j)))
  }

  /** Line k is read for the region that starts at line i and hides its release. */
  ghost predicate Misread(lines: seq<Line>, i: nat, k: nat)
    requires i < |lines| && lines[i].acquire.Some?
  {
    var lock := Norm(lines[i].acquire.value.expr);
    i < k < EndOf(lines, i, lock) && Hides(lines[k], lock)
  }

  ghost predicate RightAt(sleepy: string -> bool, file: nat, lines: seq<Line>, i: nat)
    requires i < |lines| && lines[i].acquire.Some?
  {
    var lock := Norm(lines[i].acquire.value.expr);
    && RecordAt(sleepy, file, lines, i) == TrueRecord(sleepy, file, lines, i)
    && (Resolved(lines, i, lock) <==> ResolvedAnywhere(lines, i, lock))
  }

  lemma RightIff(sleepy: string -> bool, file: nat, lines: seq<Line>, i: nat)
    requires i < |lines| && lines[i].acquire.Some?
    ensures RightAt(sleepy, file, lines, i) <==> forall k: nat :: !Misread(lines, i, k)
  {
    var lock := Norm(lines[i].acquire.value.expr);
    EndsRightIff(lines, i, lock);
    var j := EndOf(lines, i, lock);
    if forall k: nat :: !Misread(lines, i, k) {
      forall k | i < k < j ensures !Hides(lines[k], lock) { assert !Misread(lines, i, k); }
      ResolvedIff(lines, i, lock, j);
      AnywhereIff(lines, i, lock, j);
      if j < |lines| && !lines[j].funcEnd { StopsEnds(lines[j], lock); }
    }
    if RightAt(sleepy, file, lines, i) { assert j == TrueEnd(lines, i, lock); }
  }

  lemma AnywhereIff(lines: seq<Line>, i: nat, lock: string, j: nat)
    requires i < |lines| && j == TrueEnd(lines, i, lock)
    ensures ResolvedAnywhere(lines, i, lock) <==> j < |lines| && !lines[j].funcEnd
  {
    if ResolvedAnywhere(lines, i, lock) {
      var m :| i < m < |lines| && Names(lines[m], lock) && forall k | i < k <= m :: !lines[k].funcEnd;
      assert Ends(lines[m], lock);
    }
    if j < |lines| && !lines[j].funcEnd {
      assert Names(lines[j], lock);
      forall k | i < k <= j ensures !lines[k].funcEnd { assert k < j ==> !Ends(lines[k], lock); }
    }
  }

  /** Every record of a file, with its span, its sleep set and its list, is right
      exactly when no line read for a region hides the release of that region's lock. */
  lemma AuditRightIff(sleepy: string -> bool, file: nat, lines: seq<Line>)
    ensures (forall i: nat | i < |lines| && lines[i].acquire.Some? :: RightAt(sleepy, file, lines, i)) <==>
            forall i: nat, k: nat | i < |lines| && lines[i].acquire.Some? :: !Misread(lines, i, k)
  {
    forall i: nat | i < |lines| && lines[i].acquire.Some?
      ensures RightAt(sleepy, file, lines, i) <==> forall k: nat :: !Misread(lines, i, k)
    {
      RightIff(sleepy, file, lines, i);
    }
  }
}
