/**
Flow control of one HM2 reply over a fault-free link: frames arrive in the order
they were sent, none are lost, and neither end gives up.  The client and its
consumer are the ones of Hm2Reply; the server stops at its window until a
continuation widens it.  A window is a signed 32-bit integer, so there is a longest
reply: past it the window is negative and the server has nothing more to wait for.
*/
module Hm2Flow {
  import opened Hm2Reply

  /** `down` is the reply frames in flight, `conts` the continuations in flight. */
  datatype Flow = Flow(tag: nat, call: Call, req: Req, down: seq<Frame>, conts: nat)

  datatype Step = Send | Finish(error: nat, eof: bool) | Arrive | Take | Continued

  function Start(tag: nat, msgid: nat, feeds: seq<Chain>): Flow {
    Flow(tag, Call(msgid, [], 0, 0, XOPFIFO, Open), Req(msgid, feeds, 0, XOPFIFO, Open), [], 0)
  }

  function FeedAt(msgid: nat, feeds: seq<Chain>, tag: nat, i: nat): Frame
    requires i < |feeds|
  {
    Feed(msgid, tag, i % SEQ_MOD, feeds[i])
  }

  predicate Can(s: Flow, e: Step) {
    match e
    case Send => s.req.end.Open? && s.req.sent < |s.req.feeds| && s.req.sent < s.req.window
    case Finish(_, _) => s.req.end.Open? && s.req.sent == |s.req.feeds|
    case Arrive => s.call.end.Open? && s.down != []
    case Take => s.call.taken < |s.call.got|
    case Continued => s.conts > 0
  }

  function Does(s: Flow, e: Step): Flow
    requires Can(s, e)
  {
    match e
    case Send =>
      s.(req := s.req.(sent := s.req.sent + 1), down := s.down + [FeedAt(s.req.msgid, s.req.feeds, s.tag, s.req.sent)])
    case Finish(error, eof) =>
      s.(req := s.req.(end := Closed(error, eof)),
         down := s.down + [Close(s.req.msgid, s.tag, s.req.sent % SEQ_MOD, error, eof)])
    case Arrive => s.(call := Receive(true, s.call, s.tag, s.down[0], false).0, down := s.down[1..])
    case Take =>
      var c := Next(s.call);
      s.(call := c, conts := s.conts + if c.allowed != s.call.allowed then 1 else 0)
    case Continued => s.(conts := s.conts - 1, req := s.req.(window := Widened(s.req.window)))
  }

  ghost predicate IsFlow(tr: seq<Flow>, es: seq<Step>, feeds: seq<Chain>) {
    && |tr| == |es| + 1
    && tr[0] == Start(tr[0].tag, tr[0].call.msgid, feeds)
    && forall k :: 0 <= k < |es| ==> Can(tr[k], es[k]) && tr[k + 1] == Does(tr[k], es[k])
  }

  // --------------------------------------------------------------- invariant

  /** The frames in flight: the feeds sent and not received, then the close. */
  function InFlight(s: Flow): seq<Frame>
    requires s.call.nrecv <= s.req.sent <= |s.req.feeds|
  {
    seq(s.req.sent - s.call.nrecv,
        i requires 0 <= i < s.req.sent - s.call.nrecv => FeedAt(s.req.msgid, s.req.feeds, s.tag, s.call.nrecv + i))
    + if s.req.end.Closed? && s.call.end.Open?
      then [Close(s.req.msgid, s.tag, s.req.sent % SEQ_MOD, s.req.end.error, s.req.end.eof)] else []
  }

  /** What a window has grown to, its last step wrapped or not. */
  function Reach(w: int): int { if w < 0 then 0x8000_0000 else w }

  predicate Grown(w: int) { WindowOk(w) && (w >= XOPFIFO || w == -0x8000_0000) }

  lemma WidenedReach(w: int)
    requires Grown(w) && w >= 0
    ensures Grown(Widened(w)) && Reach(Widened(w)) == w + XOPFIFO
  {
    WidenedOk(w);
  }

  /** The client's list is the server's so far, and the two windows differ by the
      continuations in flight. */
  ghost predicate FlowInv(s: Flow) {
    && s.call.nrecv <= s.req.sent <= |s.req.feeds|
    && s.call.got == s.req.feeds[..s.call.nrecv]
    && s.call.taken <= s.call.nrecv
    && WindowsOk(s)
    && s.down == InFlight(s)
    && !s.req.end.Broken?
    && (s.req.end.Closed? ==> s.req.sent == |s.req.feeds|)
    && (!s.call.end.Open? ==> s.call.end == s.req.end && s.call.nrecv == s.req.sent)
    && (s.call.end.Open? && s.call.nrecv == s.call.allowed ==> s.call.taken < s.call.nrecv)
  }

  predicate WindowsOk(s: Flow) {
    && Grown(s.call.allowed) && Grown(s.req.window)
    && s.req.sent <= MAX_FEEDS && s.req.sent <= Reach(s.req.window)
    && Reach(s.req.window) + XOPFIFO * s.conts == Reach(s.call.allowed)
    && (s.call.allowed < 0 ==> s.call.nrecv == MAX_FEEDS)
  }

  /** The frame that arrives is the next feed, or the close when there is no more,
      and the client takes it. */
  lemma ArriveTakes(s: Flow)
    requires FlowInv(s) && Can(s, Arrive)
    ensures var c, n := Does(s, Arrive).call, s.call.nrecv;
            if n < s.req.sent
            then c == s.call.(nrecv := n + 1, got := s.call.got + [s.req.feeds[n]])
            else s.req.end.Closed? && c == s.call.(end := s.req.end)
    ensures s.down[0].msgid == s.req.msgid && !Receive(true, s.call, s.tag, s.down[0], false).1
  {
    if s.call.nrecv < s.req.sent {
      assert s.call.allowed >= s.req.sent;
      assert s.down[0] == FeedAt(s.req.msgid, s.req.feeds, s.tag, s.call.nrecv);
    }
  }

  lemma ArriveKeepsFlow(s: Flow, t: Flow)
    requires FlowInv(s) && Can(s, Arrive) && t == Does(s, Arrive)
    ensures FlowInv(t)
  {
    ArriveTakes(s);
    var n := s.call.nrecv;
    if n < s.req.sent {
      assert s.req.feeds[..n + 1] == s.req.feeds[..n] + [s.req.feeds[n]];
    }
    assert t.down == InFlight(t);
  }

  lemma StepKeepsFlow(s: Flow, e: Step, t: Flow)
    requires FlowInv(s) && Can(s, e) && t == Does(s, e)
    ensures FlowInv(t) && t.req.feeds == s.req.feeds
  {
    match e
    case Send => assert t.down == InFlight(t);
    case Finish(_, _) => assert t.down == InFlight(t);
    case Arrive => ArriveKeepsFlow(s, t);
    case Take =>
      if s.call.allowed >= 0 { WidenedReach(s.call.allowed); }
      assert t.down == InFlight(t);
    case Continued =>
      WidenedReach(s.req.window);
      assert t.down == InFlight(t);
  }

  /** What is left to do: every step does some of it. */
  function Rank(s: Flow): (r: int)
    ensures FlowInv(s) ==> r >= 0
  {
    5 * (|s.req.feeds| - s.req.sent) + 4 * (s.req.sent - s.call.nrecv) + 2 * (s.call.nrecv - s.call.taken)
    + s.conts + (if s.req.end.Open? then 4 else if s.call.end.Open? then 2 else 0)
  }

  lemma StepLowersRank(s: Flow, e: Step, t: Flow)
    requires FlowInv(s) && Can(s, e) && t == Does(s, e)
    ensures Rank(t) < Rank(s)
  {
    if e.Arrive? { ArriveTakes(s); }
  }

  lemma {:induction false} FlowSafety(tr: seq<Flow>, es: seq<Step>, feeds: seq<Chain>, k: nat)
    requires IsFlow(tr, es, feeds) && k <= |es|
    ensures FlowInv(tr[k]) && tr[k].req.feeds == feeds && Rank(tr[k]) + k <= Rank(tr[0])
  {
    if k == 0 {
      assert tr[0].down == InFlight(tr[0]);
    } else {
      FlowSafety(tr, es, feeds, k - 1);
      StepKeepsFlow(tr[k - 1], es[k - 1], tr[k]);
      StepLowersRank(tr[k - 1], es[k - 1], tr[k]);
    }
  }

  // ---------------------------------------------------------------- theorems

  function Conts(es: seq<Step>): (n: nat)
  {
    if es == [] then 0 else Conts(es[..|es| - 1]) + if es[|es| - 1].Continued? then 1 else 0
  }

  lemma ReachGrows(s: Flow, e: Step, t: Flow)
    requires FlowInv(s) && Can(s, e) && t == Does(s, e)
    ensures Reach(t.req.window) == Reach(s.req.window) + if e.Continued? then XOPFIFO else 0
  {
    if e.Continued? { WidenedReach(s.req.window); }
  }

  lemma {:induction false} WindowCounts(tr: seq<Flow>, es: seq<Step>, feeds: seq<Chain>, k: nat)
    requires IsFlow(tr, es, feeds) && k <= |es|
    ensures Reach(tr[k].req.window) == XOPFIFO * (1 + Conts(es[..k]))
  {
    if k > 0 {
      WindowCounts(tr, es, feeds, k - 1);
      FlowSafety(tr, es, feeds, k - 1);
      ReachGrows(tr[k - 1], es[k - 1], tr[k]);
      assert es[..k][..k - 1] == es[..k - 1];
    }
  }

  /** The server is never more than sixteen feeds past the continuations it has had,
      and the client never refuses a feed. */
  lemma NoSeventeenthFeed(tr: seq<Flow>, es: seq<Step>, feeds: seq<Chain>, k: nat)
    requires IsFlow(tr, es, feeds) && k <= |es|
    ensures tr[k].req.sent <= XOPFIFO * (1 + Conts(es[..k]))
    ensures !tr[k].call.end.Broken? && tr[k].call.got <= feeds
  {
    FlowSafety(tr, es, feeds, k);
    WindowCounts(tr, es, feeds, k);
  }

  /** The consumer has every feed, in order, and the server's own verdict. */
  ghost predicate Delivered(s: Flow) {
    && s.call.got == s.req.feeds && s.call.taken == |s.req.feeds|
    && s.call.end.Closed? && s.call.end == s.req.end
  }

  /** Until the consumer has the whole reply and its end, some step is possible, unless
      the server is at the end of its window for good. */
  lemma FlowProgress(s: Flow) returns (e: Step)
    requires FlowInv(s) && !Delivered(s) && |s.req.feeds| <= MAX_FEEDS
    ensures Can(s, e)
  {
    if s.call.taken < |s.call.got| {
      e := Take;
    } else if s.call.end.Open? && s.down != [] {
      e := Arrive;
    } else if s.conts > 0 {
      e := Continued;
    } else if s.req.sent < |s.req.feeds| {
      e := Send;
    } else {
      assert s.req.feeds[..|s.req.feeds|] == s.req.feeds;
      e := Finish(0, true);
    }
  }

  /** Every run is finite, and one that cannot go on has delivered the reply in full
      exactly when the windows can count it. */
  lemma FullDelivery(tr: seq<Flow>, es: seq<Step>, feeds: seq<Chain>)
    requires IsFlow(tr, es, feeds)
    ensures |es| <= 5 * |feeds| + 4
    ensures (forall e :: !Can(tr[|es|], e)) ==> (Delivered(tr[|es|]) <==> |feeds| <= MAX_FEEDS)
  {
    FlowSafety(tr, es, feeds, |es|);
    var s := tr[|es|];
    if !Delivered(s) && |feeds| <= MAX_FEEDS {
      var e := FlowProgress(s);
    }
  }

  /** Once a reply is closed the client asks for nothing more. */
  lemma {:induction false} ClosedAsksNoMore(tr: seq<Flow>, es: seq<Step>, feeds: seq<Chain>, j: nat, k: nat)
    requires IsFlow(tr, es, feeds) && j <= k <= |es| && !tr[j].call.end.Open?
    ensures tr[k].call.end == tr[j].call.end && tr[k].call.allowed == tr[j].call.allowed && tr[k].conts <= tr[j].conts
    decreases k
  {
    if j < k { ClosedAsksNoMore(tr, es, feeds, j, k - 1); }
  }

  // ------------------------------------------- a flow is a run of Hm2Reply

  /** The state has the flow's call and request, and its frames in the channel. */
  ghost predicate Pictures(t: State, s: Flow) {
    && t.up && s.tag in t.calls && t.calls[s.tag] == s.call && s.tag in t.reqs && t.reqs[s.tag] == s.req
    && s.call.msgid == s.req.msgid
    && (forall f | f in s.down :: f in t.wire)
    && (s.call.end.Open? ==> s.call.msgid in t.bound && t.bound[s.call.msgid] == s.tag)
  }

  function EventOf(s: Flow, e: Step): Event
    requires Can(s, e)
  {
    match e
    case Send => SendFeed(s.tag)
    case Finish(error, eof) => SendClose(s.tag, error, eof)
    case Arrive => Deliver(s.down[0], false, true)
    case Take => Consume(s.tag)
    case Continued => Widen(s.tag)
  }

  lemma StepIsEvent(t: State, s: Flow, e: Step)
    requires Pictures(t, s) && FlowInv(s) && Can(s, e)
    ensures Enabled(t, EventOf(s, e)) && Pictures(Apply(true, t, EventOf(s, e)), Does(s, e))
  {
    if e.Arrive? {
      ArriveTakes(s);
      assert s.down[0] in s.down;
    }
  }

  /** Each state of a flow is one that the lossy channel too can reach. */
  lemma {:induction false} FlowReachable(t0: State, tr: seq<Flow>, es: seq<Step>, feeds: seq<Chain>, k: nat)
    returns (t: State)
    requires Reachable(true, t0) && IsFlow(tr, es, feeds) && Pictures(t0, tr[0]) && k <= |es|
    ensures Reachable(true, t) && Pictures(t, tr[k])
    decreases k
  {
    t := t0;
    if k > 0 {
      t := FlowReachable(t0, tr, es, feeds, k - 1);
      FlowSafety(tr, es, feeds, k - 1);
      StepIsEvent(t, tr[k - 1], es[k - 1]);
      ReachNext(true, t, EventOf(tr[k - 1], es[k - 1]));
      t := Apply(true, t, EventOf(tr[k - 1], es[k - 1]));
    }
  }

  lemma FirstFlow(msgid: nat, feeds: seq<Chain>) returns (t: State)
    ensures Reachable(true, t) && Pictures(t, Start(1, msgid, feeds))
  {
    ReachInit(true);
    ReachNext(true, Init(), Event.Start(msgid));
    t := Apply(true, Init(), Event.Start(msgid));
    ReachNext(true, t, Accept(1, feeds));
    t := Apply(true, t, Accept(1, feeds));
  }
}
