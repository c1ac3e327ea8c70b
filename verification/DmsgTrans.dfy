/**
Transaction identity over a dmsg connection: two ends, one ordered link each way,
and message ids that an end uses again once its transaction state is gone.

Each end keeps the transactions it initiated in `wr` and the ones its peer
initiated in `rd`.  A frame of the responder carries REPLY and REVTRANS, which
sends the receiver to `wr`; a frame of the initiator carries neither and is looked
up in `rd`.  A state leaves its tree when DELETE has been both sent and received;
`keep == false` is the rule that lets it go at the first DELETE sent.

`inc` numbers transactions.  It is not on the wire: it records which transaction a
frame was sent for, so that landing on another one can be told.
*/
module DmsgTrans {
  import opened Base

  datatype Trans = Trans(inc: nat, txc: bool, txd: bool, rxc: bool, rxd: bool)

  datatype Frame = Frame(reply: bool, id: nat, create: bool, del: bool, inc: nat)

  datatype End = End(wr: map<nat, Trans>, rd: map<nat, Trans>)

  datatype Side = A | B

  /** `fromA` is the link that side A sends on, `fromB` the one B sends on. */
  datatype Net = Net(a: End, b: End, fromA: seq<Frame>, fromB: seq<Frame>, incs: nat)

  datatype Event =
    | Open(side: Side, id: nat)
    | Send(side: Side, reply: bool, id: nat, del: bool)
    | Recv(side: Side)

  datatype Outcome = Ok(end: End) | EINVAL(end: End)

  function Peer(s: Side): Side { if s == A then B else A }

  function EndOf(n: Net, s: Side): End { if s == A then n.a else n.b }

  function Link(n: Net, s: Side): seq<Frame> { if s == A then n.fromA else n.fromB }

  function WithEnd(n: Net, s: Side, e: End): Net { if s == A then n.(a := e) else n.(b := e) }

  function WithLink(n: Net, s: Side, l: seq<Frame>): Net { if s == A then n.(fromA := l) else n.(fromB := l) }

  // ------------------------------------------------------------ one end

  /** The tree after t changed: a state closed both ways is gone. */
  function Put(tree: map<nat, Trans>, id: nat, t: Trans): map<nat, Trans> {
    if t.txd && t.rxd then tree - {id} else tree[id := t]
  }

  function Sent(t: Trans, del: bool): Trans {
    t.(txc := true, txd := del)
  }

  function Received(t: Trans, f: Frame): Trans {
    t.(rxc := t.rxc || f.create, rxd := t.rxd || f.del)
  }

  /** State tracking for a frame about to go out, with the cleanup after it. */
  function Transmit(keep: bool, tree: map<nat, Trans>, id: nat, del: bool): map<nat, Trans>
    requires id in tree
  {
    if !keep && del then tree - {id} else Put(tree, id, Sent(tree[id], del))
  }

  /** State tracking for a received frame.  A frame with neither CREATE nor DELETE
      that finds no state is taken as a one-off message. */
  function MsgRx(e: End, f: Frame): Outcome {
    var tree := if f.reply then e.wr else e.rd;
    if f.create && !f.reply then
      if f.id in tree then EINVAL(e)
      else Ok(e.(rd := tree[f.id := Trans(f.inc, false, false, true, f.del)]))
    else if f.id !in tree then
      if f.create || f.del then EINVAL(e) else Ok(e)
    else if f.del && !f.create && !tree[f.id].rxc then EINVAL(e)
    else
      var tree' := Put(tree, f.id, Received(tree[f.id], f));
      Ok(if f.reply then e.(wr := tree') else e.(rd := tree'))
  }

  /** The transaction a received frame lands on. */
  function Target(e: End, f: Frame): Option<Trans> {
    var tree := if f.reply then e.wr else e.rd;
    if f.id in tree then Some(tree[f.id]) else None
  }

  /** A frame is refused exactly when it opens a transaction that there is already, opens
      or closes a direction of one that there is not, or closes a direction that has not
      been opened.  A refused frame changes nothing, nor does a one-off message. */
  lemma RefusedIff(e: End, f: Frame)
    ensures var t := Target(e, f);
            MsgRx(e, f).EINVAL? <==>
            || (f.create && !f.reply && t.Some?)
            || (f.create && f.reply && t.None?) || (f.del && !f.create && t.None?)
            || (f.del && !f.create && t.Some? && !t.value.rxc)
    ensures MsgRx(e, f).EINVAL? || (!f.create && !f.del && Target(e, f).None?) ==> MsgRx(e, f).end == e
  {
  }

  /** A CREATE or DELETE that is taken and comes again is refused exactly when it is a
      command's CREATE, or when it closed the transaction. */
  lemma TwiceIff(e: End, f: Frame, e1: End)
    requires MsgRx(e, f) == Ok(e1) && (f.create || f.del)
    ensures MsgRx(e1, f) == EINVAL(e1) <==>
            (f.create && !f.reply) || (Target(e, f).value.txd && (Target(e, f).value.rxd || f.del))
  {
  }

  // ------------------------------------------------------------ the system

  function Init(): Net { Net(End(map[], map[]), End(map[], map[]), [], [], 0) }

  function TreeOf(e: End, reply: bool): map<nat, Trans> { if reply then e.rd else e.wr }

  predicate Enabled(n: Net, e: Event) {
    match e
    case Open(s, id) => id !in EndOf(n, s).wr
    case Send(s, reply, id, del) =>
      // nothing follows the DELETE of a direction
      var tree := TreeOf(EndOf(n, s), reply);
      id in tree && !tree[id].txd
    case Recv(s) => Link(n, Peer(s)) != []
  }

  function Apply(keep: bool, n: Net, e: Event): Net
    requires Enabled(n, e)
  {
    match e
    case Open(s, id) =>
      var end := EndOf(n, s);
      WithEnd(n, s, end.(wr := end.wr[id := Trans(n.incs, false, false, false, false)])).(incs := n.incs + 1)
    case Send(s, reply, id, del) =>
      var end := EndOf(n, s);
      var t := TreeOf(end, reply)[id];
      // CREATE goes on the first frame of a direction
      var f := Frame(reply, id, !t.txc, del, t.inc);
      var tree := Transmit(keep, TreeOf(end, reply), id, del);
      WithLink(WithEnd(n, s, if reply then end.(rd := tree) else end.(wr := tree)), s, Link(n, s) + [f])
    case Recv(s) =>
      var l := Link(n, Peer(s));
      WithLink(WithEnd(n, s, MsgRx(EndOf(n, s), l[0]).end), Peer(s), l[1..])
  }

  ghost predicate IsRun(keep: bool, tr: seq<Net>, es: seq<Event>) {
    && |tr| == |es| + 1 && tr[0] == Init()
    && forall k :: 0 <= k < |es| ==> Enabled(tr[k], es[k]) && tr[k + 1] == Apply(keep, tr[k], es[k])
  }

  // ------------------------------------------------ opened and closed again

  /** Where the events lead, if each of them is enabled in its turn. */
  function Leads(keep: bool, n: Net, es: seq<Event>): Option<Net>
    decreases |es|
  {
    if es == [] then Some(n) else if Enabled(n, es[0]) then Leads(keep, Apply(keep, n, es[0]), es[1..]) else None
  }

  lemma LeadsOn(keep: bool, n: Net, e: Event, es: seq<Event>)
    requires Enabled(n, e)
    ensures Leads(keep, n, [e] + es) == Leads(keep, Apply(keep, n, e), es)
  {
    assert ([e] + es)[1..] == es;
  }

  /** This end's command, CREATE and DELETE in one, has reached the peer. */
  function Asked(n: Net, s: Side, id: nat): Net {
    var a, b := EndOf(n, s), EndOf(n, Peer(s));
    WithEnd(WithEnd(n, s, a.(wr := a.wr[id := Trans(n.incs, true, true, false, false)])),
            Peer(s), b.(rd := b.rd[id := Trans(n.incs, false, false, true, true)])).(incs := n.incs + 1)
  }

  lemma CommandLeads(n: Net, s: Side, id: nat, es: seq<Event>)
    requires n.fromA == [] && n.fromB == [] && id !in EndOf(n, s).wr && id !in EndOf(n, Peer(s)).rd
    ensures Leads(true, n, [Open(s, id)] + ([Send(s, false, id, true)] + ([Recv(Peer(s))] + es)))
         == Leads(true, Asked(n, s, id), es)
  {
    var e1, e2, e3 := Open(s, id), Send(s, false, id, true), Recv(Peer(s));
    var n1 := Apply(true, n, e1);
    var n2 := Apply(true, n1, e2);
    LeadsOn(true, n, e1, [e2] + ([e3] + es));
    LeadsOn(true, n1, e2, [e3] + es);
    LeadsOn(true, n2, e3, es);
    assert Apply(true, n2, e3) == Asked(n, s, id);
  }

  /** The peer's reply, CREATE and DELETE in one, is on its way back. */
  function Answered(n: Net, s: Side, id: nat): Net {
    var a := EndOf(n, s);
    WithLink(WithEnd(n, s, a.(wr := a.wr[id := Trans(n.incs, true, true, false, false)])),
             Peer(s), [Frame(true, id, true, true, n.incs)]).(incs := n.incs + 1)
  }

  lemma ReplySent(n: Net, s: Side, id: nat, n3: Net, e: Event)
    requires n.fromA == [] && n.fromB == [] && id !in EndOf(n, Peer(s)).rd
    requires n3 == Asked(n, s, id) && e == Send(Peer(s), true, id, true)
    ensures Enabled(n3, e) && Apply(true, n3, e) == Answered(n, s, id)
  {
    var b := EndOf(n, Peer(s));
    assert b.rd[id := Trans(n.incs, false, false, true, true)] - {id} == b.rd;
  }

  lemma ReplyTaken(n: Net, s: Side, id: nat, n4: Net)
    requires n.fromA == [] && n.fromB == [] && id !in EndOf(n, s).wr && n4 == Answered(n, s, id)
    ensures Enabled(n4, Recv(s)) && Apply(true, n4, Recv(s)) == n.(incs := n.incs + 1)
  {
    var a := EndOf(n, s);
    assert a.wr[id := Trans(n.incs, true, true, false, false)] - {id} == a.wr;
  }

  lemma ReplyLeads(n: Net, s: Side, id: nat, n3: Net)
    requires n.fromA == [] && n.fromB == [] && id !in EndOf(n, s).wr && id !in EndOf(n, Peer(s)).rd
    requires n3 == Asked(n, s, id)
    ensures Leads(true, n3, [Send(Peer(s), true, id, true)] + ([Recv(s)] + [])) == Some(n.(incs := n.incs + 1))
  {
    var e4, e5 := Send(Peer(s), true, id, true), Recv(s);
    ReplySent(n, s, id, n3, e4);
    ReplyTaken(n, s, id, Answered(n, s, id));
    LeadsOn(true, n3, e4, [e5] + []);
    LeadsOn(true, Answered(n, s, id), e5, []);
  }

  /** A command and its reply, a message each, leave both ends as they were, and the id
      free to be used again. */
  lemma OneShot(n: Net, s: Side, id: nat)
    requires n.fromA == [] && n.fromB == [] && id !in EndOf(n, s).wr && id !in EndOf(n, Peer(s)).rd
    ensures var es := [Open(s, id), Send(s, false, id, true), Recv(Peer(s)), Send(Peer(s), true, id, true), Recv(s)];
            Leads(true, n, es) == Some(n.(incs := n.incs + 1))
  {
    var e1, e2, e3 := Open(s, id), Send(s, false, id, true), Recv(Peer(s));
    var es := [Send(Peer(s), true, id, true)] + ([Recv(s)] + []);
    CommandLeads(n, s, id, es);
    ReplyLeads(n, s, id, Asked(n, s, id));
    assert [e1, e2, e3, Send(Peer(s), true, id, true), Recv(s)] == [e1] + ([e2] + ([e3] + es));
  }

  // ------------------------------------------------- one transaction id

  /** All that bears on one id of one initiating side: the two ends' states and the
      frames of that id in flight, command direction and reply direction. */
  datatype Key = Key(init: Option<Trans>, resp: Option<Trans>, cmds: seq<Frame>, reps: seq<Frame>)

  /** The frames of id on a link in one direction. */
  function Pick(l: seq<Frame>, reply: bool, id: nat): (p: seq<Frame>)
    ensures |p| <= |l|
    ensures forall f | f in p :: f.reply == reply && f.id == id
  {
    if l == [] then []
    else (if l[0].reply == reply && l[0].id == id then [l[0]] else []) + Pick(l[1..], reply, id)
  }

  lemma {:induction false} PickAppend(l: seq<Frame>, f: Frame, reply: bool, id: nat)
    ensures Pick(l + [f], reply, id)
         == Pick(l, reply, id) + if f.reply == reply && f.id == id then [f] else []
  {
    if l == [] {
      assert Pick([f], reply, id) == if f.reply == reply && f.id == id then [f] else [];
    } else {
      assert (l + [f])[1..] == l[1..] + [f] && (l + [f])[0] == l[0];
      PickAppend(l[1..], f, reply, id);
    }
  }

  function Find(tree: map<nat, Trans>, id: nat): Option<Trans> {
    if id in tree then Some(tree[id]) else None
  }

  function KeyOf(n: Net, s: Side, id: nat): Key {
    Key(Find(EndOf(n, s).wr, id), Find(EndOf(n, Peer(s)).rd, id),
        Pick(Link(n, s), false, id), Pick(Link(n, Peer(s)), true, id))
  }

  /** The frames in flight from a sender that has sent (CREATE, DELETE) to a receiver
      that has received (CREATE, DELETE): CREATE on the first frame of the direction
      and no other, DELETE on the last and no other. */
  ghost predicate Stream(l: seq<Frame>, inc: nat, txc: bool, txd: bool, rxc: bool, rxd: bool) {
    && (txd ==> txc) && (rxc ==> txc) && (rxd ==> rxc && txd)
    && (txc && !rxc ==> l != []) && (txd && !rxd ==> l != [])
    && (!txc || rxd ==> l == [])
    && forall k :: 0 <= k < |l| ==>
         && l[k].inc == inc
         && (l[k].create <==> k == 0 && !rxc)
         && (l[k].del <==> k == |l| - 1 && txd)
  }

  lemma StreamSend(l: seq<Frame>, f: Frame, inc: nat, txc: bool, rxc: bool, rxd: bool)
    requires Stream(l, inc, txc, false, rxc, rxd) && f.inc == inc && f.create == !txc
    ensures Stream(l + [f], inc, true, f.del, rxc, rxd)
  {
  }

  lemma StreamRecv(l: seq<Frame>, inc: nat, txc: bool, txd: bool, rxc: bool, rxd: bool)
    requires Stream(l, inc, txc, txd, rxc, rxd) && l != []
    ensures l[0].inc == inc && l[0].create == !rxc && !rxd
    ensures Stream(l[1..], inc, txc, txd, rxc || l[0].create, rxd || l[0].del)
  {
  }

  /** Both ends have the same transaction. */
  ghost predicate Shared(k: Key) {
    && k.init.Some? && k.resp.Some?
    && var i, r := k.init.value, k.resp.value;
    && i.inc == r.inc && r.rxc && !(i.txd && i.rxd) && !(r.txd && r.rxd)
    && Stream(k.cmds, i.inc, i.txc, i.txd, r.rxc, r.rxd)
    && Stream(k.reps, i.inc, r.txc, r.txd, i.rxc, i.rxd)
  }

  /** The responder still waits for the first m commands, which end a transaction its
      initiator has finished; what follows them is the initiator's next one. */
  ghost predicate Lagging(k: Key, m: nat) {
    && k.resp.Some? && m <= |k.cmds| && k.reps == []
    && var r := k.resp.value;
    && r.txc && r.txd && r.rxc && !r.rxd
    && Stream(k.cmds[..m], r.inc, true, true, true, false)
    && match k.init
       case None => m == |k.cmds|
       case Some(i) => i.inc != r.inc && Unanswered(i, k.cmds[m..])
  }

  /** The initiator's commands, none of them received, none answered. */
  ghost predicate Unanswered(i: Trans, cmds: seq<Frame>) {
    !i.rxc && !i.rxd && Stream(cmds, i.inc, i.txc, i.txd, false, false)
  }

  /** The initiator alone has a state: not yet received, or already finished. */
  ghost predicate Alone(k: Key) {
    && k.init.Some? && k.resp.None?
    && var i := k.init.value;
    || (k.reps == [] && Unanswered(i, k.cmds))
    || (k.cmds == [] && i.txc && i.txd && !i.rxd && Stream(k.reps, i.inc, true, true, i.rxc, false))
  }

  ghost predicate KeyInv(k: Key) {
    || Shared(k)
    || (exists m :: Lagging(k, m))
    || Alone(k)
    || (k.init.None? && k.resp.None? && k.cmds == [] && k.reps == [])
  }

  /** A state unless it is closed both ways. */
  function Kept(t: Trans): Option<Trans> { if t.txd && t.rxd then None else Some(t) }

  /** The responder's state after a command of its initiator. */
  function Answering(resp: Option<Trans>, f: Frame): Option<Trans> {
    match resp
    case None => Some(Trans(f.inc, false, false, true, f.del))
    case Some(r) => Kept(Received(r, f))
  }

  // ---------------------------------------------------- steps of one id

  lemma KeyOpens(k: Key, inc: nat, k': Key)
    requires KeyInv(k) && k.init.None? && (k.resp.Some? ==> k.resp.value.inc != inc)
    requires k' == k.(init := Some(Trans(inc, false, false, false, false)))
    ensures KeyInv(k')
  {
    if m: nat :| Lagging(k, m) {
      assert Lagging(k', m);
    }
  }

  lemma KeyCommands(k: Key, f: Frame, k': Key)
    requires KeyInv(k) && k.init.Some? && !k.init.value.txd
    requires f.create == !k.init.value.txc && f.inc == k.init.value.inc
    requires k' == k.(init := Kept(Sent(k.init.value, f.del)), cmds := k.cmds + [f])
    ensures KeyInv(k')
  {
    var i := k.init.value;
    if Shared(k) {
      var r := k.resp.value;
      StreamSend(k.cmds, f, i.inc, i.txc, r.rxc, r.rxd);
      if f.del && i.rxd {
        assert k'.cmds[..|k'.cmds|] == k'.cmds;
        assert Lagging(k', |k'.cmds|);
      }
    } else if m: nat :| Lagging(k, m) {
      StreamSend(k.cmds[m..], f, i.inc, i.txc, false, false);
      assert k'.cmds[..m] == k.cmds[..m] && k'.cmds[m..] == k.cmds[m..] + [f];
      assert Lagging(k', m);
    } else {
      StreamSend(k.cmds, f, i.inc, i.txc, false, false);
    }
  }

  lemma KeyReplies(k: Key, f: Frame, k': Key)
    requires KeyInv(k) && k.resp.Some? && !k.resp.value.txd
    requires f.create == !k.resp.value.txc && f.inc == k.resp.value.inc
    requires k' == k.(resp := Kept(Sent(k.resp.value, f.del)), reps := k.reps + [f])
    ensures KeyInv(k')
  {
    var i, r := k.init.value, k.resp.value;
    StreamSend(k.reps, f, i.inc, r.txc, i.rxc, i.rxd);
  }

  /** A reply in flight finds the initiator's state, the same transaction, in a state
      that can take it. */
  lemma KeyReplyLands(k: Key, k': Key)
    requires KeyInv(k) && k.reps != []
    ensures k.init.Some?
    ensures var i, f := k.init.value, k.reps[0]; i.inc == f.inc && i.rxc == !f.create && !i.rxd
    ensures k' == k.(init := Kept(Received(k.init.value, k.reps[0])), reps := k.reps[1..]) ==> KeyInv(k')
  {
    var i := k.init.value;
    if Shared(k) {
      var r := k.resp.value;
      StreamRecv(k.reps, i.inc, r.txc, r.txd, i.rxc, i.rxd);
      if k.reps[0].del && i.txd && k' == k.(init := Kept(Received(i, k.reps[0])), reps := k.reps[1..]) {
        assert k'.cmds[..|k'.cmds|] == k'.cmds;
        assert Lagging(k', |k'.cmds|);
      }
    } else {
      StreamRecv(k.reps, i.inc, true, true, i.rxc, i.rxd);
    }
  }

  /** A command in flight either opens a transaction where there is none, or finds the
      responder's state, the same transaction, in a state that can take it. */
  lemma KeyCommandLands(k: Key, k': Key)
    requires KeyInv(k) && k.cmds != []
    ensures k.cmds[0].create == k.resp.None?
    ensures k.resp.Some? ==>
              var r, f := k.resp.value, k.cmds[0]; r.inc == f.inc && r.rxc && !r.rxd
    ensures k' == k.(resp := Answering(k.resp, k.cmds[0]), cmds := k.cmds[1..]) ==> KeyInv(k')
  {
    if Shared(k) {
      var i, r := k.init.value, k.resp.value;
      StreamRecv(k.cmds, i.inc, i.txc, i.txd, r.rxc, r.rxd);
    } else if m: nat :| Lagging(k, m) {
      LaggingLands(k, m, k');
    } else {
      var i := k.init.value;
      StreamRecv(k.cmds, i.inc, i.txc, i.txd, i.rxc, i.rxd);
    }
  }

  lemma LaggingLands(k: Key, m: nat, k': Key)
    requires Lagging(k, m)
    ensures m > 0 && !k.cmds[0].create && k.cmds[0].inc == k.resp.value.inc
    ensures k' == k.(resp := Kept(Received(k.resp.value, k.cmds[0])), cmds := k.cmds[1..]) ==> KeyInv(k')
  {
    var r := k.resp.value;
    StreamRecv(k.cmds[..m], r.inc, true, true, true, false);
    if k' == k.(resp := Kept(Received(r, k.cmds[0])), cmds := k.cmds[1..]) {
      assert k.cmds[..m][0] == k.cmds[0];
      if m == 1 {
        assert k.cmds[m..] == k'.cmds;
      } else {
        assert k.cmds[..m][1..] == k'.cmds[..m - 1] && k.cmds[m..] == k'.cmds[m - 1..];
        assert Lagging(k', m - 1);
      }
    }
  }

  /** What a received frame finds: a CREATE of a command no open transaction of that
      id; any other frame the transaction it was sent for, with CREATE expected
      exactly when it carries it and DELETE not yet received.  It is never refused. */
  ghost predicate LandsRight(e: End, f: Frame) {
    && MsgRx(e, f).Ok?
    && var t := Target(e, f);
       if f.create && !f.reply then t.None?
       else t.Some? && t.value.inc == f.inc && t.value.rxc == !f.create && !t.value.rxd
  }

  // ---------------------------------------------------- steps of the system

  ghost predicate Below(tree: map<nat, Trans>, n: nat) {
    forall id | id in tree :: tree[id].inc < n
  }

  /** The states and frames are of transactions already numbered. */
  ghost predicate Numbered(n: Net) {
    forall s :: Below(EndOf(n, s).wr, n.incs) && Below(EndOf(n, s).rd, n.incs) && LinkBelow(Link(n, s), n.incs)
  }

  ghost predicate LinkBelow(l: seq<Frame>, n: nat) {
    forall f | f in l :: f.inc < n
  }

  ghost predicate KeysInv(n: Net) {
    forall s, id :: KeyInv(KeyOf(n, s, id))
  }

  ghost predicate NetInv(n: Net) {
    KeysInv(n) && Numbered(n)
  }

  lemma PickHead(l: seq<Frame>, reply: bool, id: nat)
    requires l != []
    ensures var f := l[0];
            Pick(l, reply, id) == if f.reply == reply && f.id == id then [f] + Pick(l[1..], reply, id)
                                  else Pick(l[1..], reply, id)
  {
  }

  lemma OpenKeepsKey(n: Net, s0: Side, id0: nat, n': Net, s: Side, id: nat)
    requires KeyInv(KeyOf(n, s, id)) && Numbered(n)
    requires Enabled(n, Open(s0, id0)) && n' == Apply(true, n, Open(s0, id0))
    ensures KeyInv(KeyOf(n', s, id))
  {
    if s == s0 && id == id0 {
      KeyOpens(KeyOf(n, s, id), n.incs, KeyOf(n', s, id));
    } else {
      assert KeyOf(n', s, id) == KeyOf(n, s, id);
    }
  }

  /** What sending does to each id's traffic. */
  /** A frame goes out on the sender's link, and only the tree it was sent from changes. */
  ghost predicate SentOn(n: Net, e: Event, f: Frame, n': Net)
    requires e.Send? && e.id in TreeOf(EndOf(n, e.side), e.reply)
  {
    var tree := TreeOf(EndOf(n, e.side), e.reply);
    && TreeOf(EndOf(n', e.side), e.reply) == Put(tree, e.id, Sent(tree[e.id], e.del))
    && TreeOf(EndOf(n', e.side), !e.reply) == TreeOf(EndOf(n, e.side), !e.reply)
    && EndOf(n', Peer(e.side)) == EndOf(n, Peer(e.side))
    && Link(n', e.side) == Link(n, e.side) + [f] && Link(n', Peer(e.side)) == Link(n, Peer(e.side))
  }

  lemma SendKeyBy(n: Net, e: Event, f: Frame, n': Net, s: Side, id: nat)
    requires e.Send? && e.id in TreeOf(EndOf(n, e.side), e.reply) && SentOn(n, e, f, n')
    requires f.id == e.id && f.reply == e.reply
    ensures var k := KeyOf(n, s, id);
            KeyOf(n', s, id) ==
              if id != e.id || e.reply != (s != e.side) then k
              else if e.reply then k.(resp := Kept(Sent(k.resp.value, e.del)), reps := k.reps + [f])
              else k.(init := Kept(Sent(k.init.value, e.del)), cmds := k.cmds + [f])
  {
    PickAppend(Link(n, e.side), f, s != e.side, id);
  }

  lemma SendKey(n: Net, e: Event, f: Frame, n': Net, s: Side, id: nat)
    requires e.Send? && Enabled(n, e) && n' == Apply(true, n, e)
    requires var t := TreeOf(EndOf(n, e.side), e.reply)[e.id]; f == Frame(e.reply, e.id, !t.txc, e.del, t.inc)
    ensures var k := KeyOf(n, s, id);
            KeyOf(n', s, id) ==
              if id != e.id || e.reply != (s != e.side) then k
              else if e.reply then k.(resp := Kept(Sent(k.resp.value, e.del)), reps := k.reps + [f])
              else k.(init := Kept(Sent(k.init.value, e.del)), cmds := k.cmds + [f])
  {
    SendKeyBy(n, e, f, n', s, id);
  }

  lemma SendKeepsKey(n: Net, e: Event, n': Net, s: Side, id: nat)
    requires KeyInv(KeyOf(n, s, id)) && e.Send? && Enabled(n, e) && n' == Apply(true, n, e)
    ensures KeyInv(KeyOf(n', s, id))
  {
    var t := TreeOf(EndOf(n, e.side), e.reply)[e.id];
    var f := Frame(e.reply, e.id, !t.txc, e.del, t.inc);
    SendKey(n, e, f, n', s, id);
    if id == e.id && e.reply == (s != e.side) {
      if e.reply {
        KeyReplies(KeyOf(n, s, id), f, KeyOf(n', s, id));
      } else {
        KeyCommands(KeyOf(n, s, id), f, KeyOf(n', s, id));
      }
    }
  }

  /** Where a received frame goes, read off its id's own state. */
  lemma FrameLands(n: Net, s0: Side)
    requires KeysInv(n) && Enabled(n, Recv(s0))
    ensures LandsRight(EndOf(n, s0), Link(n, Peer(s0))[0])
  {
    var l := Link(n, Peer(s0));
    var f := l[0];
    PickHead(l, f.reply, f.id);
    if f.reply {
      var k := KeyOf(n, s0, f.id);
      assert KeyInv(k);
      KeyReplyLands(k, k);
    } else {
      var k := KeyOf(n, Peer(s0), f.id);
      assert KeyInv(k);
      KeyCommandLands(k, k);
    }
  }

  /** What receiving does to each id's traffic. */
  lemma RecvKey(n: Net, s0: Side, n': Net, s: Side, id: nat)
    requires Enabled(n, Recv(s0)) && n' == Apply(true, n, Recv(s0))
    requires LandsRight(EndOf(n, s0), Link(n, Peer(s0))[0])
    ensures var f, k := Link(n, Peer(s0))[0], KeyOf(n, s, id);
            if id != f.id || f.reply != (s == s0) then KeyOf(n', s, id) == k
            else if f.reply then
              k.reps != [] && k.reps[0] == f && k.init.Some?
              && KeyOf(n', s, id) == k.(init := Kept(Received(k.init.value, f)), reps := k.reps[1..])
            else
              k.cmds != [] && k.cmds[0] == f
              && KeyOf(n', s, id) == k.(resp := Answering(k.resp, f), cmds := k.cmds[1..])
  {
    PickHead(Link(n, Peer(s0)), s == s0, id);
    var k, k' := KeyOf(n, s, id), KeyOf(n', s, id);
    if s == s0 {
      assert k'.resp == k.resp && k'.cmds == k.cmds;
    } else {
      assert k'.init == k.init && k'.reps == k.reps;
    }
  }

  lemma RecvKeepsKey(n: Net, s0: Side, n': Net, s: Side, id: nat)
    requires KeyInv(KeyOf(n, s, id)) && Enabled(n, Recv(s0)) && n' == Apply(true, n, Recv(s0))
    requires LandsRight(EndOf(n, s0), Link(n, Peer(s0))[0])
    ensures KeyInv(KeyOf(n', s, id))
  {
    var f := Link(n, Peer(s0))[0];
    RecvKey(n, s0, n', s, id);
    if id == f.id && f.reply == (s == s0) {
      if f.reply {
        KeyReplyLands(KeyOf(n, s, id), KeyOf(n', s, id));
      } else {
        KeyCommandLands(KeyOf(n, s, id), KeyOf(n', s, id));
      }
    }
  }

  lemma NextKeepsKeys(n: Net, e: Event, n': Net)
    requires NetInv(n) && Enabled(n, e) && n' == Apply(true, n, e)
    ensures KeysInv(n')
  {
    if e.Recv? { FrameLands(n, e.side); }
    forall s, id ensures KeyInv(KeyOf(n', s, id)) {
      match e
      case Open(s0, id0) => OpenKeepsKey(n, s0, id0, n', s, id);
      case Send(_, _, _, _) => SendKeepsKey(n, e, n', s, id);
      case Recv(s0) => RecvKeepsKey(n, s0, n', s, id);
    }
  }

  lemma RxBelow(e: End, f: Frame, n: nat)
    requires Below(e.wr, n) && Below(e.rd, n) && f.inc < n
    ensures Below(MsgRx(e, f).end.wr, n) && Below(MsgRx(e, f).end.rd, n)
  {
  }

  lemma NextKeepsNumbers(n: Net, e: Event, n': Net)
    requires Numbered(n) && Enabled(n, e) && n' == Apply(true, n, e)
    ensures Numbered(n')
  {
    forall s
      ensures Below(EndOf(n', s).wr, n'.incs) && Below(EndOf(n', s).rd, n'.incs) && LinkBelow(Link(n', s), n'.incs)
    {
      assert Below(EndOf(n, s).wr, n.incs);
      match e
      case Open(s0, _) => assert Below(EndOf(n, s0).wr, n.incs);
      case Send(s0, _, _, _) => assert Below(EndOf(n, s0).wr, n.incs);
      case Recv(s0) =>
        assert LinkBelow(Link(n, Peer(s0)), n.incs);
        if s == s0 { RxBelow(EndOf(n, s), Link(n, Peer(s0))[0], n.incs); }
    }
  }

  lemma {:induction false} NetSafety(tr: seq<Net>, es: seq<Event>, k: nat)
    requires IsRun(true, tr, es) && k <= |es|
    ensures NetInv(tr[k])
  {
    if k > 0 {
      NetSafety(tr, es, k - 1);
      NextKeepsKeys(tr[k - 1], es[k - 1], tr[k]);
      NextKeepsNumbers(tr[k - 1], es[k - 1], tr[k]);
    }
  }

  // ------------------------------------------------------------- theorems

  /** Over every run, every received frame lands on its own transaction. */
  lemma IdSafety(tr: seq<Net>, es: seq<Event>, k: nat, s: Side)
    requires IsRun(true, tr, es) && k <= |es| && Link(tr[k], Peer(s)) != []
    ensures LandsRight(EndOf(tr[k], s), Link(tr[k], Peer(s))[0])
  {
    NetSafety(tr, es, k);
    FrameLands(tr[k], s);
  }

  /** An id that its initiator can use again has no reply of the old transaction on its
      way, and one gone at both ends has no frame at all. */
  lemma ClosedIsQuiet(tr: seq<Net>, es: seq<Event>, k: nat, s: Side, id: nat)
    requires IsRun(true, tr, es) && k <= |es| && id !in EndOf(tr[k], s).wr
    ensures Pick(Link(tr[k], Peer(s)), true, id) == []
    ensures id !in EndOf(tr[k], Peer(s)).rd ==> Pick(Link(tr[k], s), false, id) == []
  {
    NetSafety(tr, es, k);
    assert KeyInv(KeyOf(tr[k], s, id));
  }

  /** The rule is needed: an end that lets a state go with its own DELETE opens the id
      again while its peer still has the transaction. */
  lemma EarlyReleaseCollides()
    ensures exists tr, es :: IsRun(false, tr, es) && Link(tr[|es|], A) != []
                             && !LandsRight(EndOf(tr[|es|], B), Link(tr[|es|], A)[0])
  {
    var e0, e1, e2, e3 := Open(A, 0), Send(A, false, 0, true), Recv(B), Send(A, false, 0, false);
    var n0 := Init();
    var n1 := Apply(false, n0, e0);
    var n2 := Apply(false, n1, e1);
    var n3 := Apply(false, n2, e2);
    var n4 := Apply(false, n3, e0);
    var n5 := Apply(false, n4, e3);
    assert n2.fromA == [Frame(false, 0, true, true, 0)];
    assert n5.fromA == [Frame(false, 0, true, false, 1)] && 0 in n5.b.rd;
    var tr, es := [n0, n1, n2, n3, n4, n5], [e0, e1, e2, e0, e3];
    assert IsRun(false, tr, es);
  }
}
