/**
The reply of an HM2 request over a channel that may lose, duplicate, reorder or
redeliver any frame ever sent, including frames of an earlier call that used the
same message id.

The client takes a feed only when its tag is the call's and its sequence number
is the number of feeds received, and a close only when its sequence number is
that number; a frame that fails a check ends the link.  `checked` turns the two
checks off, which is the source's negative-control build.  A refusal carries no tag
that the client could check.
*/
module Hm2Reply {
  // The sequence number is 32 bits wide, and unsigned.
  const SEQ_MOD: nat := 0x1_0000_0000
  const XOPFIFO: nat := 16

  // The most feeds a window can allow: both windows are signed 32-bit integers that
  // grow by XOPFIFO, and a feed goes out only below its window.
  const MAX_FEEDS: nat := 0x8000_0000 - XOPFIFO

  /** A signed 32-bit integer, with the wrap-around of its width. */
  function Int32(n: int): int { (n + 0x8000_0000) % 0x1_0000_0000 - 0x8000_0000 }

  /** A window after one continuation. */
  function Widened(w: int): int { Int32(w + XOPFIFO) }

  predicate WindowOk(w: int) { w % XOPFIFO == 0 && -0x8000_0000 <= w <= MAX_FEEDS }

  lemma WidenedOk(w: int)
    requires WindowOk(w)
    ensures WindowOk(Widened(w))
    ensures Widened(w) == if w == MAX_FEEDS then -0x8000_0000 else w + XOPFIFO
  {
  }

  /** A fed chain, by name. */
  type Chain = nat

  datatype Frame =
    | Feed(msgid: nat, tag: nat, seq_: nat, chain: Chain)
    | Close(msgid: nat, tag: nat, seq_: nat, error: nat, eof: bool)
    | Refusal(msgid: nat, of: nat) // `of` is the call refused, which is not on the wire
    | Other(msgid: nat)

  /** How a call stands: open, closed by the server's own closing frame with that
      frame's verdict, or broken off. */
  datatype End = Open | Closed(error: nat, eof: bool) | Broken

  /** The client's side of a call.  `got` is every chain it has taken into its
      list, `taken` the number its consumer has removed. */
  datatype Call = Call(msgid: nat, got: seq<Chain>, nrecv: nat, taken: nat, allowed: int, end: End)

  /** The server's side: the chains the element feeds, the feeds sent, the window,
      and the verdict once closed. */
  datatype Req = Req(msgid: nat, feeds: seq<Chain>, sent: nat, window: int, end: End)

  /** `bound` is the client's open message ids, `wire` every reply frame ever sent. */
  datatype State = State(ntag: nat, calls: map<nat, Call>, bound: map<nat, nat>,
                         reqs: map<nat, Req>, wire: set<Frame>, up: bool)

  datatype Event =
    | Start(msgid: nat)
    | Accept(tag: nat, feeds: seq<Chain>)
    | SendFeed(tag: nat)
    | SendClose(tag: nat, error: nat, eof: bool)
    | Refuse(tag: nat)
    | Widen(tag: nat)
    | Deliver(f: Frame, nomem: bool, known: bool)
    | Consume(tag: nat)
    | LinkEnd

  function Init(): State {
    State(0, map[], map[], map[], {}, true)
  }

  // ------------------------------------------------------------- the client

  /** The source's two checks on a feed or a close. */
  predicate InPlace(checked: bool, call: Call, tag: nat, f: Frame)
    requires f.Feed? || f.Close?
  {
    checked ==> f.tag == tag && f.seq_ == call.nrecv % SEQ_MOD
  }

  /** The reply callback: the call after the frame, and whether the link is ended. */
  function Receive(checked: bool, call: Call, tag: nat, f: Frame, nomem: bool): (r: (Call, bool)) {
    match f
    case Feed(_, _, _, chain) =>
      var n := call.nrecv + 1;
      if !InPlace(checked, call, tag, f) || n > call.allowed || nomem then
        (call.(nrecv := n, end := Broken), true)
      else (call.(nrecv := n, got := call.got + [chain]), false)
    case Close(_, _, _, error, eof) =>
      if !InPlace(checked, call, tag, f) then (call.(end := Broken), true)
      else (call.(end := Closed(error, eof)), false)
    case Refusal(_, _) => (call.(end := Broken), false)
    case Other(_) => (call, false)
  }

  /** The consumer's next chain; every sixteenth asks the server to go on. */
  function Next(call: Call): Call
    requires call.taken < |call.got|
  {
    var c := call.(taken := call.taken + 1);
    if call.end.Open? && call.nrecv == call.allowed && c.taken == |c.got|
    then c.(allowed := Widened(c.allowed)) else c
  }

  // ------------------------------------------------------------- the system

  /** The request of the call has been refused. */
  predicate Refused(s: State, g: nat)
    requires g in s.calls
  {
    Refusal(s.calls[g].msgid, g) in s.wire
  }

  /** `Deliver` says whether memory ran out for the frame and, for a message id without
      a call, whether the transport still has a transaction for it. */
  predicate Enabled(s: State, e: Event) {
    match e
    case Start(m) => s.up && m !in s.bound
    case Accept(g, _) => g in s.calls && g !in s.reqs && !Refused(s, g)
    case SendFeed(g) =>
      g in s.reqs && s.reqs[g].end.Open? && s.reqs[g].sent < |s.reqs[g].feeds| && s.reqs[g].sent < s.reqs[g].window
    case SendClose(g, error, eof) =>
      // the element's end, or an error that ends the scan short
      && g in s.reqs && s.reqs[g].end.Open?
      && (s.reqs[g].sent == |s.reqs[g].feeds| || (error != 0 && eof))
    case Refuse(g) => g in s.calls && g !in s.reqs
    case Widen(g) => g in s.reqs
    case Deliver(f, _, _) => s.up && f in s.wire
    case Consume(g) => g in s.calls && s.calls[g].taken < |s.calls[g].got|
    case LinkEnd => true
  }

  /** Break off every call the client still has open. */
  function BreakAll(calls: map<nat, Call>): map<nat, Call> {
    map g | g in calls :: if calls[g].end.Open? then calls[g].(end := Broken) else calls[g]
  }

  function Ended(s: State): State {
    s.(calls := BreakAll(s.calls), bound := map[], up := false)
  }

  function Apply(checked: bool, s: State, e: Event): State
    requires Enabled(s, e)
  {
    match e
    case Start(m) =>
      var g := s.ntag + 1;
      s.(ntag := g, calls := s.calls[g := Call(m, [], 0, 0, XOPFIFO, Open)], bound := s.bound[m := g])
    case Accept(g, feeds) => s.(reqs := s.reqs[g := Req(s.calls[g].msgid, feeds, 0, XOPFIFO, Open)])
    case SendFeed(g) =>
      var r := s.reqs[g];
      s.(reqs := s.reqs[g := r.(sent := r.sent + 1)],
         wire := s.wire + {Feed(r.msgid, g, r.sent % SEQ_MOD, r.feeds[r.sent])})
    case SendClose(g, error, eof) =>
      var r := s.reqs[g];
      s.(reqs := s.reqs[g := r.(end := Closed(error, eof))],
         wire := s.wire + {Close(r.msgid, g, r.sent % SEQ_MOD, error, eof)})
    case Refuse(g) => s.(wire := s.wire + {Refusal(s.calls[g].msgid, g)})
    case Widen(g) => s.(reqs := s.reqs[g := s.reqs[g].(window := Widened(s.reqs[g].window))])
    case Deliver(f, nomem, known) =>
      if f.msgid !in s.bound || s.bound[f.msgid] !in s.calls then
        // no call: without a transaction the frame is dropped, and its error with it
        if known then Ended(s) else s
      else
        var g := s.bound[f.msgid];
        var (call, lost) := Receive(checked, s.calls[g], g, f, nomem);
        var s1 := s.(calls := s.calls[g := call], bound := if call.end.Open? then s.bound else s.bound - {f.msgid});
        if lost then Ended(s1) else s1
    case Consume(g) => s.(calls := s.calls[g := Next(s.calls[g])])
    case LinkEnd => Ended(s)
  }

  ghost predicate IsRun(checked: bool, tr: seq<State>, es: seq<Event>) {
    && |tr| == |es| + 1 && tr[0] == Init()
    && forall k :: 0 <= k < |es| ==> Enabled(tr[k], es[k]) && tr[k + 1] == Apply(checked, tr[k], es[k])
  }

  // --------------------------------------------------------------- integrity

  /** What the client may have of a call: a prefix of what the server sent, and the
      whole of it, with the server's verdict, once the call is cleanly closed. */
  ghost predicate Faithful(s: State, g: nat)
    requires g in s.calls
  {
    var call := s.calls[g];
    && (call.got != [] ==> g in s.reqs && call.got <= s.reqs[g].feeds[..SentOf(s.reqs[g])])
    && (call.end.Closed? ==>
          g in s.reqs && s.reqs[g].end == call.end && call.got == s.reqs[g].feeds[..SentOf(s.reqs[g])])
  }

  function SentOf(r: Req): (n: nat)
    ensures n <= |r.feeds|
  {
    if r.sent <= |r.feeds| then r.sent else |r.feeds|
  }

  /** The server's i-th feed, as it went out. */
  ghost predicate FeedAt(r: Req, q: nat, chain: Chain, i: int) {
    0 <= i < r.sent <= |r.feeds| && q == i % SEQ_MOD && chain == r.feeds[i]
  }

  /** Each frame on the wire is one the server made for its tag. */
  ghost predicate Genuine(s: State, f: Frame) {
    match f
    case Feed(m, g, q, chain) =>
      && g in s.reqs && s.reqs[g].msgid == m
      && exists i :: FeedAt(s.reqs[g], q, chain, i)
    case Close(m, g, q, error, eof) =>
      && g in s.reqs && s.reqs[g].msgid == m
      && q == s.reqs[g].sent % SEQ_MOD && s.reqs[g].end == Closed(error, eof)
    case Refusal(m, g) => g in s.calls && s.calls[g].msgid == m && g !in s.reqs
    case _ => true
  }

  /** A call on the id up to g has been refused. */
  ghost predicate RefusedBy(s: State, m: nat, g: nat) {
    exists h: nat :: h <= g && Refusal(m, h) in s.wire
  }

  ghost predicate Tracked(s: State, g: nat)
    requires g in s.calls
  {
    var call := s.calls[g];
    && call.taken <= |call.got|
    && (!call.end.Broken? ==> call.nrecv == |call.got|)
  }

  ghost predicate DataOk(s: State, g: nat)
    requires g in s.calls
  {
    0 < g <= s.ntag && Tracked(s, g) && Faithful(s, g)
  }

  /** The client has the call on its message id. */
  predicate Bound(s: State, g: nat)
    requires g in s.calls
  {
    s.calls[g].msgid in s.bound && s.bound[s.calls[g].msgid] == g
  }

  ghost predicate CallOk(s: State, g: nat)
    requires g in s.calls
  {
    && DataOk(s, g)
    && (s.calls[g].end.Open? <==> s.up && Bound(s, g))
    && (s.calls[g].end.Broken? ==> !s.up || RefusedBy(s, s.calls[g].msgid, g))
  }

  /** A verdict on the whole of the reply: all but an error that ends the scan. */
  predicate Conclusive(e: End) { e.Closed? && (e.error == 0 || !e.eof) }

  ghost predicate ReqOk(s: State, g: nat)
    requires g in s.reqs
  {
    && g in s.calls && s.reqs[g].msgid == s.calls[g].msgid
    && s.reqs[g].sent <= |s.reqs[g].feeds| && s.reqs[g].sent <= MAX_FEEDS && WindowOk(s.reqs[g].window)
    && (Conclusive(s.reqs[g].end) ==> s.reqs[g].sent == |s.reqs[g].feeds|)
  }

  ghost predicate BoundOk(s: State, m: nat)
    requires m in s.bound
  {
    && s.bound[m] in s.calls && s.calls[s.bound[m]].msgid == m && s.calls[s.bound[m]].end.Open?
    && forall g | g in s.calls && s.calls[g].msgid == m :: g <= s.bound[m]
  }

  /** What holds whether or not the link is up. */
  ghost predicate Sound(s: State) {
    && (forall g | g in s.reqs :: ReqOk(s, g))
    && (forall f | f in s.wire :: Genuine(s, f))
    && (forall g | g in s.calls :: DataOk(s, g))
  }

  ghost predicate Inv(s: State) {
    && Sound(s)
    && (forall m | m in s.bound :: BoundOk(s, m))
    && (forall g | g in s.calls :: CallOk(s, g))
  }

  /** A checked feed is the call's own, and the very next one. */
  lemma InPlaceFeed(s: State, g: nat, f: Frame)
    requires Inv(s) && g in s.calls && s.calls[g].end.Open? && f.Feed? && f in s.wire
    requires InPlace(true, s.calls[g], g, f)
    ensures g in s.reqs && |s.calls[g].got| < s.reqs[g].sent <= |s.reqs[g].feeds|
    ensures f.chain == s.reqs[g].feeds[|s.calls[g].got|]
  {
    assert Genuine(s, f) && CallOk(s, g) && ReqOk(s, g);
    var i :| FeedAt(s.reqs[g], f.seq_, f.chain, i);
    PlaceOf(s.reqs[g], |s.calls[g].got|, f.seq_, f.chain, i);
  }

  /** Short of a wrap, a sequence number says which feed it is. */
  lemma PlaceOf(r: Req, n: nat, q: nat, chain: Chain, i: int)
    requires FeedAt(r, q, chain, i) && n <= r.sent <= MAX_FEEDS && q == n % SEQ_MOD
    ensures i == n
  {
  }

  /** A checked close is the call's own, and comes when nothing is missing. */
  lemma InPlaceClose(s: State, g: nat, f: Frame)
    requires Inv(s) && g in s.calls && s.calls[g].end.Open? && f.Close? && f in s.wire
    requires InPlace(true, s.calls[g], g, f)
    ensures g in s.reqs && s.reqs[g].end == Closed(f.error, f.eof) && s.reqs[g].sent <= |s.reqs[g].feeds|
    ensures s.calls[g].got == s.reqs[g].feeds[..s.reqs[g].sent]
  {
    assert Genuine(s, f) && CallOk(s, g) && ReqOk(s, g);
    assert |s.calls[g].got| == s.reqs[g].sent;
  }

  lemma EndedKeepsInv(s: State)
    requires Sound(s)
    ensures Inv(Ended(s))
  {
    var t := Ended(s);
    forall f | f in t.wire ensures Genuine(t, f) { assert Genuine(s, f); }
    forall g | g in t.reqs ensures ReqOk(t, g) { assert ReqOk(s, g); }
    forall g | g in t.calls ensures CallOk(t, g) { assert DataOk(s, g); }
  }

  lemma StartKeepsInv(s: State, m: nat, t: State)
    requires Inv(s) && Enabled(s, Start(m)) && t == Apply(true, s, Start(m))
    ensures Inv(t)
  {
    assert s.ntag + 1 !in s.calls && s.ntag + 1 !in s.reqs;
    forall f | f in t.wire ensures Genuine(t, f) { assert Genuine(s, f); }
    forall g | g in t.reqs ensures ReqOk(t, g) { assert ReqOk(s, g); }
    forall m' | m' in t.bound ensures BoundOk(t, m') { assert m' != m ==> BoundOk(s, m'); }
    forall g | g in t.calls ensures CallOk(t, g) { if g in s.calls { StartCall(s, m, t, g); } }
  }

  lemma StartCall(s: State, m: nat, t: State, g: nat)
    requires Inv(s) && Enabled(s, Start(m)) && t == Apply(true, s, Start(m)) && g in s.calls
    ensures g in t.calls && CallOk(t, g)
  {
    assert CallOk(s, g);
  }

  /** A step of the server keeps everything: it only adds genuine frames. */
  lemma ServerKeepsInv(s: State, e: Event, t: State)
    requires Inv(s) && Enabled(s, e) && t == Apply(true, s, e)
    requires e.Accept? || e.SendFeed? || e.SendClose? || e.Refuse? || e.Widen?
    ensures Inv(t)
  {
    var k := e.tag;
    assert k in s.calls by { if k in s.reqs { assert ReqOk(s, k); } }
    forall g | g in t.reqs ensures ReqOk(t, g) {
      if g in s.reqs {
        assert ReqOk(s, g);
        WidenedOk(s.reqs[g].window);
      }
    }
    forall m | m in t.bound ensures BoundOk(t, m) { assert BoundOk(s, m); }
    forall f | f in t.wire ensures Genuine(t, f) { ServerFrames(s, e, t, f); }
    forall g | g in t.calls ensures CallOk(t, g) { ServerCalls(s, e, t, g); }
  }

  lemma ServerFrames(s: State, e: Event, t: State, f: Frame)
    requires Inv(s) && Enabled(s, e) && t == Apply(true, s, e)
    requires e.Accept? || e.SendFeed? || e.SendClose? || e.Refuse? || e.Widen?
    requires f in t.wire
    ensures Genuine(t, f)
  {
    if f in s.wire {
      assert Genuine(s, f);
      if f.Feed? {
        var i :| FeedAt(s.reqs[f.tag], f.seq_, f.chain, i);
        assert FeedAt(t.reqs[f.tag], f.seq_, f.chain, i);
      }
    } else if e.SendFeed? {
      assert FeedAt(t.reqs[e.tag], f.seq_, f.chain, s.reqs[e.tag].sent);
    }
  }

  /** The server's side of a call has gone on, and the client's side is as it was. */
  ghost predicate Further(s: State, t: State, g: nat) {
    && t.calls == s.calls && t.bound == s.bound && t.up == s.up && t.ntag == s.ntag && s.wire <= t.wire
    && (g in s.reqs ==>
          && g in t.reqs && t.reqs[g].feeds == s.reqs[g].feeds && s.reqs[g].sent <= t.reqs[g].sent <= |t.reqs[g].feeds|
          && (s.reqs[g].end.Closed? ==> t.reqs[g].end == s.reqs[g].end && t.reqs[g].sent == s.reqs[g].sent))
  }

  lemma FurtherCall(s: State, t: State, g: nat)
    requires g in s.calls && CallOk(s, g) && Further(s, t, g)
    ensures CallOk(t, g)
  {
  }

  lemma ServerCalls(s: State, e: Event, t: State, g: nat)
    requires Inv(s) && Enabled(s, e) && t == Apply(true, s, e)
    requires e.Accept? || e.SendFeed? || e.SendClose? || e.Refuse? || e.Widen?
    requires g in t.calls
    ensures CallOk(t, g)
  {
    assert CallOk(s, g);
    if g in s.reqs { assert ReqOk(s, g); }
    FurtherCall(s, t, g);
  }

  lemma ReceivedData(s: State, g: nat, f: Frame, nomem: bool, t: State)
    requires Inv(s) && f in s.wire && g in s.calls && s.calls[g].end.Open? && s.calls[g].msgid == f.msgid
    requires t.ntag == s.ntag && t.reqs == s.reqs && g in t.calls
    requires t.calls[g] == Receive(true, s.calls[g], g, f, nomem).0
    ensures DataOk(t, g)
  {
    assert CallOk(s, g);
    if f.Feed? && InPlace(true, s.calls[g], g, f) { InPlaceFeed(s, g, f); }
    if f.Close? && InPlace(true, s.calls[g], g, f) { InPlaceClose(s, g, f); }
  }

  /** The reply callback keeps what the client has sound, whatever frame the channel gave
      it. */
  lemma ReceiveKeepsSound(s: State, g: nat, f: Frame, nomem: bool, t: State)
    requires Inv(s) && f in s.wire && f.msgid in s.bound && s.bound[f.msgid] == g && g in s.calls
    requires var call := Receive(true, s.calls[g], g, f, nomem).0;
             t == s.(calls := s.calls[g := call], bound := if call.end.Open? then s.bound else s.bound - {f.msgid})
    ensures Sound(t)
  {
    assert BoundOk(s, f.msgid) && CallOk(s, g);
    forall h | h in t.wire ensures Genuine(t, h) { assert Genuine(s, h); }
    forall h | h in t.reqs ensures ReqOk(t, h) { assert ReqOk(s, h); }
    forall h | h in t.calls ensures DataOk(t, h) {
      assert DataOk(s, h);
      if h == g { ReceivedData(s, g, f, nomem, t); }
    }
  }

  lemma ReceiveKeepsInv(s: State, g: nat, f: Frame, nomem: bool, t: State)
    requires Inv(s) && s.up && f in s.wire && f.msgid in s.bound && s.bound[f.msgid] == g && g in s.calls
    requires var (call, lost) := Receive(true, s.calls[g], g, f, nomem);
             !lost
             && t == s.(calls := s.calls[g := call], bound := if call.end.Open? then s.bound else s.bound - {f.msgid})
    ensures Inv(t)
  {
    ReceiveKeepsSound(s, g, f, nomem, t);
    assert BoundOk(s, f.msgid) && CallOk(s, g) && Genuine(s, f);
    forall m | m in t.bound ensures BoundOk(t, m) { assert BoundOk(s, m); }
    forall h | h in t.calls ensures CallOk(t, h) {
      assert CallOk(s, h) && DataOk(t, h);
      if h == g && f.Refusal? { assert f.of <= g; }
    }
  }

  lemma NextKeepsInv(s: State, e: Event, t: State)
    requires Inv(s) && Enabled(s, e) && t == Apply(true, s, e)
    ensures Inv(t)
  {
    match e
    case Start(m) => StartKeepsInv(s, m, t);
    case LinkEnd => EndedKeepsInv(s);
    case Deliver(f, nomem, _) =>
      if f.msgid !in s.bound || s.bound[f.msgid] !in s.calls {
        EndedKeepsInv(s);
      } else {
        var g := s.bound[f.msgid];
        var (call, lost) := Receive(true, s.calls[g], g, f, nomem);
        var s1 := s.(calls := s.calls[g := call], bound := if call.end.Open? then s.bound else s.bound - {f.msgid});
        if lost {
          ReceiveKeepsSound(s, g, f, nomem, s1);
          EndedKeepsInv(s1);
        } else {
          ReceiveKeepsInv(s, g, f, nomem, s1);
        }
      }
    case Consume(_) => ConsumeKeepsInv(s, e, t);
    case _ => ServerKeepsInv(s, e, t);
  }

  lemma ConsumeKeepsInv(s: State, e: Event, t: State)
    requires Inv(s) && e.Consume? && Enabled(s, e) && t == Apply(true, s, e)
    ensures Inv(t)
  {
    forall h | h in t.wire ensures Genuine(t, h) { assert Genuine(s, h); }
    forall h | h in t.reqs ensures ReqOk(t, h) { assert ReqOk(s, h); }
    forall m | m in t.bound ensures BoundOk(t, m) { assert BoundOk(s, m); }
    forall h | h in t.calls ensures CallOk(t, h) { assert CallOk(s, h); }
  }

  lemma {:induction false} RunInv(tr: seq<State>, es: seq<Event>, k: nat)
    requires IsRun(true, tr, es) && k <= |es|
    ensures Inv(tr[k])
  {
    if k > 0 {
      RunInv(tr, es, k - 1);
      NextKeepsInv(tr[k - 1], es[k - 1], tr[k]);
    }
  }

  /** At every moment of every run a call has a prefix of what its server has sent, and
      the whole of it once it is closed; a call that ends any other way ends with the
      link, or its request or one before it on the same message id was refused. */
  lemma Integrity(tr: seq<State>, es: seq<Event>, k: nat, g: nat)
    requires IsRun(true, tr, es) && k <= |es| && g in tr[k].calls
    ensures Faithful(tr[k], g)
    ensures tr[k].calls[g].end.Broken? ==> !tr[k].up || RefusedBy(tr[k], tr[k].calls[g].msgid, g)
  {
    RunInv(tr, es, k);
    assert CallOk(tr[k], g);
  }

  /** Every call there was has ended. */
  ghost predicate AllEnded(s: State, t: State) {
    forall g | g in s.calls :: g in t.calls && !t.calls[g].end.Open?
  }

  /** A call is open exactly while the link is up and the client has it on its message
      id, so none is once the link has ended; and a frame for which the client has no
      call ends the link exactly when a transaction is known for it. */
  lemma OpenIff(tr: seq<State>, es: seq<Event>, k: nat, g: nat)
    requires IsRun(true, tr, es) && k <= |es| && g in tr[k].calls
    ensures tr[k].calls[g].end.Open? <==> tr[k].up && Bound(tr[k], g)
    ensures k < |es| && es[k].Deliver? && es[k].f.msgid !in tr[k].bound ==>
              if es[k].known then !tr[k + 1].up && AllEnded(tr[k], tr[k + 1]) else tr[k + 1] == tr[k]
  {
    RunInv(tr, es, k);
    assert CallOk(tr[k], g);
  }

  /** The frame is of the call, and where the call is. */
  predicate InTurn(g: nat, c: Call, f: Frame)
    requires f.Feed? || f.Close?
  {
    f.tag == g && f.seq_ == |c.got| % SEQ_MOD
  }

  /** What any frame of the channel does to the call on its message id.  The link ends
      exactly for a feed that is out of turn, past the window or without memory to hold
      it, and for a close out of turn. */
  lemma DeliverIff(tr: seq<State>, es: seq<Event>, k: nat, f: Frame, g: nat)
    requires IsRun(true, tr, es) && k < |es| && es[k].Deliver? && es[k].f == f
    requires f.msgid in tr[k].bound && tr[k].bound[f.msgid] == g
    ensures g in tr[k].calls && g in tr[k + 1].calls
    ensures var c, d := tr[k].calls[g], tr[k + 1].calls[g];
            && (tr[k + 1].up <==> match f
                                  case Feed(_, _, _, _) => InTurn(g, c, f) && |c.got| < c.allowed && !es[k].nomem
                                  case Close(_, _, _, _, _) => InTurn(g, c, f)
                                  case _ => true)
            && d.got == c.got + (if f.Feed? && tr[k + 1].up then [f.chain] else [])
            && d.nrecv == c.nrecv + (if f.Feed? then 1 else 0)
            && d.end == (if !tr[k + 1].up || f.Refusal? then Broken
                         else if f.Close? then Closed(f.error, f.eof) else Open)
            && (tr[k + 1].up ==> forall h | h in tr[k].calls && h != g ::
                                   h in tr[k + 1].calls && tr[k + 1].calls[h] == tr[k].calls[h])
  {
    RunInv(tr, es, k);
    assert BoundOk(tr[k], f.msgid) && CallOk(tr[k], g);
  }

  /** The server never sends more feeds than its window can count, so the sequence
      number, which is wider, never comes round. */
  lemma NeverWraps(tr: seq<State>, es: seq<Event>, k: nat, g: nat)
    requires IsRun(true, tr, es) && k <= |es| && g in tr[k].reqs
    ensures tr[k].reqs[g].sent <= MAX_FEEDS < SEQ_MOD
  {
    RunInv(tr, es, k);
    assert ReqOk(tr[k], g);
  }

  // ------------------------------------------------------------ the window

  /** The window is at most sixteen past what the consumer has taken, and what has been
      received is within it; once it has wrapped nothing more can come. */
  predicate Fits(c: Call) {
    && c.taken <= |c.got| && (!c.end.Broken? ==> c.nrecv == |c.got|)
    && WindowOk(c.allowed)
    && if c.allowed >= 0 then |c.got| <= c.allowed <= c.taken + XOPFIFO else c.taken == |c.got| == MAX_FEEDS
  }

  lemma ReceiveFits(checked: bool, c: Call, tag: nat, f: Frame, nomem: bool)
    requires Fits(c)
    ensures c.end.Open? ==> Fits(Receive(checked, c, tag, f, nomem).0)
  {
  }

  lemma NextFits(c: Call)
    requires Fits(c) && c.taken < |c.got|
    ensures Fits(Next(c))
  {
    WidenedOk(c.allowed);
  }

  lemma BreakFits(c: Call)
    requires Fits(c)
    ensures Fits(c.(end := Broken))
  {
  }

  ghost predicate BindsOpen(s: State, m: nat)
    requires m in s.bound
  {
    s.bound[m] in s.calls && s.calls[s.bound[m]].msgid == m && s.calls[s.bound[m]].end.Open?
  }

  ghost predicate AllFit(s: State) {
    && (forall g | g in s.calls :: g <= s.ntag && Fits(s.calls[g]))
    && (forall m | m in s.bound :: BindsOpen(s, m))
  }

  lemma EndedFits(s: State)
    requires forall g | g in s.calls :: g <= s.ntag && Fits(s.calls[g])
    ensures AllFit(Ended(s))
  {
    forall g | g in s.calls ensures Fits(Ended(s).calls[g]) { BreakFits(s.calls[g]); }
  }

  lemma DeliverFits(checked: bool, s: State, g: nat, f: Frame, nomem: bool, t: State)
    requires AllFit(s) && f.msgid in s.bound && s.bound[f.msgid] == g && g in s.calls
    requires Enabled(s, Deliver(f, nomem, true)) && t == Apply(checked, s, Deliver(f, nomem, true))
    ensures AllFit(t)
  {
    assert BindsOpen(s, f.msgid);
    var (call, lost) := Receive(checked, s.calls[g], g, f, nomem);
    ReceiveFits(checked, s.calls[g], g, f, nomem);
    var s1 := s.(calls := s.calls[g := call], bound := if call.end.Open? then s.bound else s.bound - {f.msgid});
    if lost { EndedFits(s1); }
    else {
      forall m | m in t.bound ensures BindsOpen(t, m) { assert BindsOpen(s, m); }
    }
  }

  lemma FitsStep(checked: bool, s: State, e: Event, t: State)
    requires AllFit(s) && Enabled(s, e) && t == Apply(checked, s, e)
    ensures AllFit(t)
  {
    if e.LinkEnd? {
      EndedFits(s);
    } else if e.Deliver? {
      if e.f.msgid in s.bound && s.bound[e.f.msgid] in s.calls {
        DeliverFits(checked, s, s.bound[e.f.msgid], e.f, e.nomem, t);
      } else {
        EndedFits(s);
      }
    } else {
      QuietFits(checked, s, e, t);
    }
  }

  /** What no frame does and what leaves the link. */
  lemma QuietFits(checked: bool, s: State, e: Event, t: State)
    requires AllFit(s) && Enabled(s, e) && !e.Deliver? && !e.LinkEnd? && t == Apply(checked, s, e)
    ensures AllFit(t)
  {
    if e.Consume? { NextFits(s.calls[e.tag]); }
    forall m | m in t.bound ensures BindsOpen(t, m) { assert m in s.bound ==> BindsOpen(s, m); }
  }

  lemma {:induction false} RunFits(checked: bool, tr: seq<State>, es: seq<Event>, k: nat)
    requires IsRun(checked, tr, es) && k <= |es|
    ensures AllFit(tr[k])
  {
    if k > 0 {
      RunFits(checked, tr, es, k - 1);
      FitsStep(checked, tr[k - 1], es[k - 1], tr[k]);
    }
  }

  /** The client never holds more than sixteen chains that its consumer has not taken,
      whatever the server sends and whatever the channel does with it. */
  lemma Backlog(checked: bool, tr: seq<State>, es: seq<Event>, k: nat, g: nat)
    requires IsRun(checked, tr, es) && k <= |es| && g in tr[k].calls
    ensures |tr[k].calls[g].got| - XOPFIFO <= tr[k].calls[g].taken <= |tr[k].calls[g].got| <= MAX_FEEDS
  {
    RunFits(checked, tr, es, k);
    assert Fits(tr[k].calls[g]);
  }

  // ---------------------------------------------------- the checks are needed

  ghost predicate Reachable(checked: bool, s: State) {
    exists tr, es :: IsRun(checked, tr, es) && tr[|es|] == s
  }

  lemma ReachInit(checked: bool)
    ensures Reachable(checked, Init())
  {
    assert IsRun(checked, [Init()], []);
  }

  lemma ReachNext(checked: bool, s: State, e: Event)
    requires Reachable(checked, s) && Enabled(s, e)
    ensures Reachable(checked, Apply(checked, s, e))
  {
    var tr, es :| IsRun(checked, tr, es) && tr[|es|] == s;
    var tr1, es1 := tr + [Apply(checked, s, e)], es + [e];
    forall k | 0 <= k < |es1|
      ensures Enabled(tr1[k], es1[k]) && tr1[k + 1] == Apply(checked, tr1[k], es1[k])
    {
      if k < |es| { assert Enabled(tr[k], es[k]); }
    }
    assert IsRun(checked, tr1, es1);
  }

  ghost predicate AlwaysFaithful(checked: bool, feeds: seq<Chain>) {
    forall s, g | Reachable(checked, s) && g in s.calls && g in s.reqs && s.reqs[g].feeds == feeds :: Faithful(s, g)
  }

  /** A call on message id 0 with its one feed and its close in the channel. */
  function Sent(late: Chain): State {
    State(1, map[1 := Call(0, [], 0, 0, XOPFIFO, Open)], map[0 := 1],
          map[1 := Req(0, [late], 1, XOPFIFO, Closed(0, true))],
          {Feed(0, 1, 0, late), Close(0, 1, 1, 0, true)}, true)
  }

  /** The same with the close received and the feed still in the channel. */
  function Served(late: Chain): State {
    Sent(late).(calls := map[1 := Call(0, [], 0, 0, XOPFIFO, Closed(0, true))], bound := map[])
  }

  lemma SentReachable(late: Chain)
    ensures Reachable(false, Sent(late))
  {
    ReachInit(false);
    ReachNext(false, Init(), Start(0));
    var a := Apply(false, Init(), Start(0));
    ReachNext(false, a, Accept(1, [late]));
    var b := Apply(false, a, Accept(1, [late]));
    ReachNext(false, b, SendFeed(1));
    var c := Apply(false, b, SendFeed(1));
    ReachNext(false, c, SendClose(1, 0, true));
    var d := Apply(false, c, SendClose(1, 0, true));
    assert d == Sent(late);
  }

  lemma ServedReachable(late: Chain)
    ensures Reachable(false, Served(late))
  {
    var close := Close(0, 1, 1, 0, true);
    SentReachable(late);
    assert close in Sent(late).wire;
    ReachNext(false, Sent(late), Deliver(close, false, true));
    assert Apply(false, Sent(late), Deliver(close, false, true)) == Served(late);
  }

  /** The next call on the id, with any list to serve, and the late feed taken as its
      first. */
  lemma LateFeedTaken(late: Chain, feeds: seq<Chain>) returns (s: State)
    ensures Reachable(false, s) && 2 in s.calls && 2 in s.reqs && s.reqs[2].feeds == feeds
    ensures s.calls[2].got == [late] && s.reqs[2].sent == 0
  {
    ServedReachable(late);
    ReachNext(false, Served(late), Start(0));
    var a := Apply(false, Served(late), Start(0));
    ReachNext(false, a, Accept(2, feeds));
    var b := Apply(false, a, Accept(2, feeds));
    var f := Feed(0, 1, 0, late);
    assert f in b.wire;
    ReachNext(false, b, Deliver(f, false, true));
    s := Apply(false, b, Deliver(f, false, true));
  }

  /** Every list is protected in every run with the checks, and none without. */
  lemma ProtectedIffChecked(checked: bool, feeds: seq<Chain>)
    ensures AlwaysFaithful(checked, feeds) <==> checked
  {
    if checked {
      forall s, g | Reachable(true, s) && g in s.calls && g in s.reqs && s.reqs[g].feeds == feeds
        ensures Faithful(s, g)
      {
        var tr, es :| IsRun(true, tr, es) && tr[|es|] == s;
        Integrity(tr, es, |es|, g);
      }
    } else {
      var s := LateFeedTaken(0, feeds);
      assert !Faithful(s, 2);
    }
  }

  // ------------------------------------------------------- the whole reply

  /** Every call that ends with the verdict has the whole reply. */
  ghost predicate AlwaysWhole(verdict: End) {
    forall s, g | Reachable(true, s) && g in s.calls && s.calls[g].end == verdict ::
      g in s.reqs && s.calls[g].got == s.reqs[g].feeds
  }

  /** A request whose scan ends on an error before its one chain is fed. */
  lemma ShortReply(error: nat) returns (s: State)
    requires error != 0
    ensures Reachable(true, s) && 1 in s.calls && 1 in s.reqs
    ensures s.calls[1].end == Closed(error, true) && s.calls[1].got == [] && s.reqs[1].feeds == [0]
  {
    var f := Close(0, 1, 0, error, true);
    ReachInit(true);
    ReachNext(true, Init(), Start(0));
    var a := Apply(true, Init(), Start(0));
    ReachNext(true, a, Accept(1, [0]));
    var b := Apply(true, a, Accept(1, [0]));
    ReachNext(true, b, SendClose(1, error, true));
    var c := Apply(true, b, SendClose(1, error, true));
    assert f in c.wire;
    ReachNext(true, c, Deliver(f, false, true));
    s := Apply(true, c, Deliver(f, false, true));
  }

  /** A verdict means that the client has the whole reply exactly when it is not an
      error that ends the scan. */
  lemma WholeIff(error: nat, eof: bool)
    ensures AlwaysWhole(Closed(error, eof)) <==> error == 0 || !eof
  {
    if error == 0 || !eof {
      forall s, g | Reachable(true, s) && g in s.calls && s.calls[g].end == Closed(error, eof)
        ensures g in s.reqs && s.calls[g].got == s.reqs[g].feeds
      {
        var tr, es :| IsRun(true, tr, es) && tr[|es|] == s;
        RunInv(tr, es, |es|);
        assert CallOk(s, g) && ReqOk(s, g);
      }
    } else {
      var s := ShortReply(error);
      assert Reachable(true, s) && 1 in s.calls;
    }
  }

  // ------------------------------------------------------------- refusals

  /** One event can break off the call on m and leave the link up. */
  ghost predicate CanBreak(s: State, m: nat)
    requires m in s.bound
  {
    exists e ::
      && Enabled(s, e)
      && var t := Apply(true, s, e); t.up && s.bound[m] in t.calls && t.calls[s.bound[m]].end.Broken?
  }

  lemma BrokenByRefusal(s: State, m: nat, e: Event, t: State)
    requires Inv(s) && s.up && m in s.bound && Enabled(s, e) && t == Apply(true, s, e)
    requires t.up && s.bound[m] in t.calls && t.calls[s.bound[m]].end.Broken?
    ensures exists h: nat :: Refusal(m, h) in s.wire
  {
    assert BoundOk(s, m);
    assert e.Deliver?;
    assert e.f.msgid in s.bound ==> BoundOk(s, e.f.msgid);
    assert e.f == Refusal(m, e.f.of);
  }

  /** An open call can be broken off with the link up exactly when a request on its
      message id has been refused, its own or an earlier call's. */
  lemma BreaksIffRefused(s: State, m: nat)
    requires Reachable(true, s) && s.up && m in s.bound
    ensures CanBreak(s, m) <==> exists h: nat :: Refusal(m, h) in s.wire
  {
    var tr, es :| IsRun(true, tr, es) && tr[|es|] == s;
    RunInv(tr, es, |es|);
    assert BoundOk(s, m);
    if CanBreak(s, m) {
      var e :| Enabled(s, e) && var t := Apply(true, s, e);
               t.up && s.bound[m] in t.calls && t.calls[s.bound[m]].end.Broken?;
      BrokenByRefusal(s, m, e, Apply(true, s, e));
    }
    if h :| Refusal(m, h) in s.wire {
      var e := Deliver(Refusal(m, h), false, true);
      assert Enabled(s, e) && Apply(true, s, e).calls[s.bound[m]].end.Broken?;
    }
  }

  /** A refusal that comes again breaks off the next call on the id, whatever that call
      is to be fed, while its server serves it. */
  lemma LateRefusal(feeds: seq<Chain>) returns (s: State)
    ensures Reachable(true, s) && s.up && 2 in s.calls && s.calls[2].end.Broken? && !Refused(s, 2)
    ensures 2 in s.reqs && s.reqs[2].feeds == feeds && s.reqs[2].end.Open?
  {
    var f := Refusal(0, 1);
    ReachInit(true);
    ReachNext(true, Init(), Start(0));
    var a := Apply(true, Init(), Start(0));
    ReachNext(true, a, Refuse(1));
    var b := Apply(true, a, Refuse(1));
    ReachNext(true, b, Deliver(f, false, true));
    var c := Apply(true, b, Deliver(f, false, true));
    assert c == State(1, map[1 := Call(0, [], 0, 0, XOPFIFO, Broken)], map[], map[], {f}, true);
    ReachNext(true, c, Start(0));
    var d := Apply(true, c, Start(0));
    ReachNext(true, d, Accept(2, feeds));
    s := Apply(true, d, Accept(2, feeds));
    ReachNext(true, s, Deliver(f, false, true));
    s := Apply(true, s, Deliver(f, false, true));
  }
}
