/**
A connection's transaction states, updated in place: creating, closing, holding and
dropping them, and simulating the failure of a subtree when a governing transaction
ends or the link is lost.

`answers` stands for the owners of the states: whether the owner of a state, told
from its callback that the peer is gone, ends its own direction there and then.
`late` counts the transactions that the peer has opened under a state that had been
told; while there are none, what is below a told state has been told.
*/
module DmsgIocom {
  import opened Base
  import opened DmsgStates
  import opened DmsgTeardown
  import opened DmsgFailure
  import opened DmsgReach

  class Iocom {
    var heap: Heap
    var clock: nat
    const answers: nat -> bool
    ghost var late: nat

    ghost predicate Valid()
      reads this
    {
      && Forest(heap) && BornBefore(heap, clock) && AllSane(heap) && !heap[ROOT].aborting
      && (late == 0 ==> AllSettled(heap))
    }

    /** The connection starts with its root state alone. */
    constructor (answers: nat -> bool)
      ensures Valid() && heap.Keys == {ROOT} && heap[ROOT].subq == [] && !heap[ROOT].dying && Anchored(heap)
      ensures this.answers == answers && late == 0
    {
      this.answers := answers;
      heap := map[ROOT := St(0, None, [], 0, false, 0, false, false, false, false, false, false, false, false)];
      clock := 1;
      late := 0;
    }

    /** Mark a state and, unless it is marked already, all below it as dying. */
    method MarkDying(x: nat)
      requires Forest(heap) && x in heap
      modifies this`heap
      ensures Darkens(old(heap), heap, x) && heap[x].dying && Spread(old(heap), heap, {})
      decreases NotDying(heap)
    {
      ghost var h0 := heap;
      if !heap[x].dying {
        heap := heap[x := heap[x].(dying := true)];
        DarkenOne(h0, x, heap);
        var i := 0;
        while i < |heap[x].subq|
          invariant x in heap && heap[x].dying && heap[x].subq == h0[x].subq && FirstDying(heap, x, i)
          invariant Darkens(h0, heap, x) && Spread(h0, heap, {x})
        {
          ghost var h := heap;
          var c := heap[x].subq[i];
          DarkensForest(h0, heap, x);
          assert NodeOk(heap, x) && NodeOk(h0, x);
          DarkensFewer(h0, heap, x);
          MarkDying(c);
          DarkensTrans(h0, h, heap, x, c);
          SpreadTrans(h0, h, heap, x, c, {x});
          DarkenChild(h, heap, x, c, i);
          i := i + 1;
        }
        SpreadAll(h0, heap, x);
      }
    }

    /** Take a state off its parent's list. */
    method SubqDelete(x: nat)
      requires Forest(heap) && x in heap
      modifies this`heap
      ensures Forest(heap) && heap == Unparent(old(heap), x)
    {
      assert NodeOk(heap, x);
      UnparentKeeps(heap, x);
      if heap[x].parent.Some? {
        var p, s := heap[x].parent.value, heap[x];
        var q := Remove(heap[p].subq, x);
        heap := Put(heap, p, heap[p].(subq := q, refs := heap[p].refs - if q == [] then 1 else 0));
        heap := Put(heap, x, s.(parent := None, refs := s.refs - 1));
      }
    }

    /** Tracking of this end's own DELETE.  Only a state without children leaves its
        parent's list here. */
    method TxClose(x: nat)
      requires Ready(heap, x) && heap[x].held > 0 && !heap[x].txd
      modifies this`heap
      ensures heap == TxClosed(old(heap), x)
      ensures Step(answers, old(heap), heap, x) && x in heap && SentDelete(old(heap[x]), heap[x])
    {
      TxClosedStep(answers, heap, x, TxClosed(heap, x));
      FlagForest(heap, x, heap[x].(txc := true, txd := true));
      heap := heap[x := heap[x].(txc := true, txd := true)];
      if heap[x].rxd {
        UnlistKeeps(heap, x);
        heap := Unlist(heap, x);
        if heap[x].subq == [] {
          SubqDelete(x);
        }
      }
    }

    /** Tell a state that its peer is gone.  A state whose first message has not been
        sent is only marked. */
    method Abort(x: nat)
      requires Ready(heap, x) && heap[x].held > 0 && !heap[x].aborting
      modifies this`heap
      ensures Step(answers, old(heap), heap, x) && x in heap && heap[x].held > 0
      ensures heap[x].aborting && Sane(heap[x])
      ensures if Leaves(answers, old(heap[x]), x) then Gone(heap[x])
              else StaysOn(old(heap[x]), heap[x])
      ensures !old(heap[x].young || heap[x].rxd) ==> Told(heap[x]) && ChildrenFailed(heap, x)
      ensures NotAborting(heap) < NotAborting(old(heap))
      decreases NotAborting(heap), 1
    {
      ghost var h0 := heap;
      MarkAborted(x);
      if !heap[x].young && !heap[x].rxd {
        ghost var h1 := heap;
        FailReceive(x);
        StepTrans(answers, h0, h1, heap, x);
        GrowsFewer(h1, heap);
      }
    }

    /** The marks of an abort. */
    method MarkAborted(x: nat)
      requires Ready(heap, x) && !heap[x].aborting
      modifies this`heap
      ensures Step(answers, old(heap), heap, x) && x in heap
      ensures heap[x] == old(heap[x]).(aborting := true, dying := true)
      ensures NotAborting(heap) < NotAborting(old(heap))
    {
      ghost var h0 := heap;
      heap := heap[x := heap[x].(aborting := true)];
      ghost var h1 := heap;
      FlagStep(answers, h0, x, h1[x], h1);
      MarkDying(x);
      AbortedStep(answers, h0, h1, heap, x);
    }

    /** A received DELETE made up on the state's behalf: tracking, the owner's
        callback, and the cleanup that fails the children first. */
    method FailReceive(x: nat)
      requires Ready(heap, x) && heap[x].held > 0
      requires heap[x].aborting && heap[x].dying && !heap[x].rxd && !heap[x].young
      modifies this`heap
      ensures Step(answers, old(heap), heap, x) && x in heap && heap[x].held > 0 && Told(heap[x]) && heap[x].dying
      ensures if answers(x) || old(heap[x].txd) then Gone(heap[x])
              else StaysOn(old(heap[x]), heap[x])
      ensures ChildrenFailed(heap, x)
      decreases NotAborting(heap), 9
    {
      ghost var h0 := heap;
      heap := Hold(heap, x);
      HoldReady(h0, x, heap);
      ghost var h1 := heap;
      assert NotAborting(h1) == NotAborting(h0);
      Track(x);
      ghost var h2 := heap;
      GrowsFewer(h1, h2);
      FailChildren(x);
      ghost var h3 := heap;
      StepTrans(answers, h1, h2, h3, x);
      heap := Drop(heap, x);
      FailureEnds(answers, h0, h1, h3, x, heap);
    }

    /** Tracking of the made-up DELETE, and the owner's callback. */
    method Track(x: nat)
      requires Ready(heap, x) && heap[x].held > 0 && heap[x].aborting && heap[x].dying && !heap[x].young
      modifies this`heap
      ensures Step(answers, old(heap), heap, x) && x in heap && heap[x].held > 0 && Told(heap[x]) && heap[x].dying
      ensures heap[x].txd <==> old(heap[x].txd) || answers(x)
      ensures if heap[x].txd then !heap[x].rb else StaysOn(old(heap[x]), heap[x])
    {
      ghost var h0 := heap;
      heap := heap[x := heap[x].(rxc := true, rxd := true)];
      FlagStep(answers, h0, x, heap[x], heap);
      ghost var h1 := heap;
      if heap[x].txd {
        heap := Unlist(heap, x);
        UnlistStep(answers, h1, x, heap);
        StepTrans(answers, h0, h1, heap, x);
      } else if answers(x) {
        TxClose(x);
        StepTrans(answers, h0, h1, heap, x);
      }
    }

    /** The end of handling a received DELETE: the children are failed, and the state,
        once closed both ways, leaves its parent's list. */
    method FailChildren(x: nat)
      requires Ready(heap, x) && SaneAt(heap, x) && heap[x].held > 0
      modifies this`heap
      ensures Step(answers, old(heap), heap, x) && x in heap && ChildrenFailed(heap, x)
      ensures SameFlags(old(heap[x]), heap[x]) && heap[x].rb == old(heap[x].rb)
      ensures heap[x].parent == if old(heap[x].rxd && heap[x].txd) then None else old(heap[x].parent)
      ensures old(heap[x].subq) == [] ==> heap == Closing(old(heap), x)
      decreases NotAborting(heap), 8
    {
      ghost var h0 := heap;
      FailBelow(x);
      ghost var h1 := heap;
      Close(x);
      StepTrans(answers, h0, h1, heap, x);
    }

    /** A state closed both ways leaves its parent's list, children or not. */
    method Close(x: nat)
      requires Ready(heap, x) && heap[x].held > 0
      modifies this`heap
      ensures Step(answers, old(heap), heap, x) && x in heap && heap == Closing(old(heap), x)
      ensures SameFlags(old(heap[x]), heap[x]) && heap[x].rb == old(heap[x].rb) && heap[x].subq == old(heap[x].subq)
      ensures heap[x].parent == if old(heap[x].rxd && heap[x].txd) then None else old(heap[x].parent)
      ensures ChildrenFailed(old(heap), x) ==> ChildrenFailed(heap, x)
    {
      ghost var h0 := heap;
      if heap[x].parent.Some? && heap[x].rxd && heap[x].txd {
        SubqDelete(x);
      }
      ClosingStep(answers, h0, x, heap);
      StepFailed(answers, h0, heap, x);
    }

    method FailBelow(x: nat)
      requires Ready(heap, x) && SaneAt(heap, x) && heap[x].held > 0
      modifies this`heap
      ensures Step(answers, old(heap), heap, x) && x in heap && ChildrenFailed(heap, x)
      ensures SameBut(old(heap[x]), heap[x])
      ensures old(heap[x].subq) == [] ==> heap == old(heap)
      decreases NotAborting(heap), 7
    {
      StepRefl(answers, heap, x);
      if heap[x].subq != [] {
        SimulateFailure(x, false);
      }
    }

    /** Fail a state, if asked, and every state below it, each before the ones under it
        are left behind.  The scan starts over whenever the child it was at has gone. */
    method SimulateFailure(x: nat, meto: bool)
      requires Ready(heap, x)
      requires if meto then !heap[x].aborting && heap[x].parent.Some? else SaneAt(heap, x)
      modifies this`heap
      ensures Step(answers, old(heap), heap, x) && ChildrenFailed(heap, x)
      ensures AllReached(old(heap), heap, old(heap[x].subq))
      ensures meto ==> Failed(answers, old(heap), heap, x)
      ensures !meto && x in heap ==> SameBut(old(heap[x]), heap[x])
      ensures old(heap[x].held) > 0 ==> x in heap
      decreases NotAborting(heap), if meto then 2 else 6
    {
      ghost var h0 := heap;
      heap := Hold(heap, x);
      HoldReady(h0, x, heap);
      ghost var h1 := heap;
      assert NotAborting(h1) == NotAborting(h0);
      if meto {
        Abort(x);
      } else {
        StepRefl(answers, heap, x);
      }
      ghost var h2 := heap;
      FailEach(x);
      ghost var h3 := heap;
      StepTrans(answers, h1, h2, h3, x);
      heap := Drop(heap, x);
      FailureEnds(answers, h0, h1, h3, x, heap);
    }

    /** The scan of a state's children. */
    method FailEach(x: nat)
      requires Ready(heap, x) && SaneAt(heap, x) && heap[x].held > 0
      modifies this`heap
      ensures Step(answers, old(heap), heap, x) && x in heap && SameBut(old(heap[x]), heap[x])
      ensures ChildrenFailed(heap, x)
      decreases NotAborting(heap), 5
    {
      ghost var h0 := heap;
      StepRefl(answers, heap, x);
      var i := 0;
      while i < |heap[x].subq|
        invariant x in heap && Scanned(answers, h0, heap, x) && FirstFailed(heap, x, i)
        invariant NotAborting(heap) <= NotAborting(h0)
        decreases NotAborting(heap), |heap[x].subq| - i
      {
        ghost var h := heap;
        i := FailAt(x, i);
        ScannedTrans(answers, h0, h, heap, x);
      }
      AllFirstFailed(heap, x);
    }

    /** The scan at one child: on to the next, or back to the first if it has gone. */
    method FailAt(x: nat, i: nat) returns (j: nat)
      requires Ready(heap, x) && SaneAt(heap, x) && heap[x].held > 0
      requires i < |heap[x].subq| && FirstFailed(heap, x, i)
      modifies this`heap
      ensures Step(answers, old(heap), heap, x) && x in heap && SameBut(old(heap[x]), heap[x])
      ensures FirstFailed(heap, x, j)
      ensures NotAborting(heap) < NotAborting(old(heap)) || (heap == old(heap) && j == i + 1)
      decreases NotAborting(heap), 4
    {
      ghost var h := heap;
      var c := heap[x].subq[i];
      ChildReady(heap, x, c);
      if heap[c].aborting {
        StepRefl(answers, heap, x);
        FirstFailedNext(heap, x, i);
        return i + 1;
      }
      FailChild(x, c);
      if c in heap[x].subq {
        FirstFailedStays(h, heap, x, i);
        FirstFailedNext(heap, x, i);
        return i + 1;
      }
      return 0;
    }

    /** One child, failed to the bottom. */
    method FailChild(x: nat, c: nat)
      requires Ready(heap, x) && SaneAt(heap, x) && heap[x].held > 0
      requires c in heap[x].subq && c in heap && !heap[c].aborting
      modifies this`heap
      ensures Step(answers, old(heap), heap, x) && x in heap && SameBut(old(heap[x]), heap[x])
      ensures c in heap[x].subq ==> heap[x] == old(heap[x]) && c in heap && heap[c].aborting
      ensures NotAborting(heap) < NotAborting(old(heap))
      decreases NotAborting(heap), 3
    {
      ghost var h := heap;
      ChildReady(heap, x, c);
      SimulateFailure(c, true);
      ChildStep(answers, h, heap, x, c);
      assert NodeOk(heap, x);
      GrowsFewer(h, heap);
      assert c in NotAborting(h) && c !in NotAborting(heap);
    }

    // ------------------------------------------------- the entry points

    /** A message that opens a transaction under p: its state at address x, in the
        lookup tree and on p's list, dying if p is. */
    method Alloc(p: nat, x: nat)
      requires Valid() && p in heap && x !in heap
      modifies this`heap, this`clock
      ensures Valid() && LingerOn(old(heap), heap, x)
      ensures heap == Insert(old(heap), p, x, Opened(old(clock), old(heap[p].dying)))
      ensures x in heap && !heap[x].rxc && !heap[x].rxd && !heap[x].txc && !heap[x].txd
      ensures heap[x].rb && heap[x].parent == Some(p) && heap[x].held == 1 && heap[x].young
      ensures heap[x].dying == old(heap[p].dying)
    {
      ghost var h0 := heap;
      var s := Opened(clock, heap[p].dying);
      InsertKeeps(heap, p, x, s);
      heap := Insert(heap, p, x, s);
      clock := clock + 1;
      InsertSane(h0, p, x, s, heap);
      assert SaneAt(h0, p);
      if late == 0 { InsertSettledIff(h0, p, x, s, heap); }
    }

    /** A message on a transaction that exists. */
    method AllocOn(x: nat)
      requires Valid() && x in heap
      modifies this`heap
      ensures Valid() && heap == Hold(old(heap), x)
      ensures LingerOn(old(heap), heap, x) && (Lingering(old(heap), x) ==> Lingering(heap, x))
    {
      ghost var h0 := heap;
      HoldKeeps(heap, x);
      heap := Hold(heap, x);
      assert SaneAt(h0, x);
      SaneOwn(h0, heap, x);
      if late == 0 { SettledOwn(h0, heap, x); }
    }

    /** A received CREATE under p: as above, but the peer's direction is open and the
        state is neither new nor dying.  It is not told of a failure that p has been
        told of. */
    method RxCreate(p: nat, x: nat, del: bool)
      requires Valid() && p in heap && (p == ROOT || heap[p].rb) && x !in heap
      modifies this
      ensures Valid() && LingerOn(old(heap), heap, x)
      ensures heap == Insert(old(heap), p, x, Accepted(old(clock), del))
      ensures x in heap && heap[x].rxc && heap[x].rxd == del && !heap[x].txc && !heap[x].txd
      ensures heap[x].rb && heap[x].parent == Some(p) && heap[x].held == 1 && !heap[x].dying && !heap[x].young
      ensures late == old(late) + if Told(old(heap[p])) then 1 else 0
      ensures old(AllSettled(heap)) ==> (AllSettled(heap) <==> !Told(old(heap[p])))
    {
      ghost var h0 := heap;
      var s := Accepted(clock, del);
      late := late + if Told(heap[p]) then 1 else 0;
      InsertKeeps(heap, p, x, s);
      heap := Insert(heap, p, x, s);
      clock := clock + 1;
      InsertSane(h0, p, x, s, heap);
      if AllSettled(h0) { InsertSettledIff(h0, p, x, s, heap); }
    }

    /** State tracking for a message with CREATE or DELETE about to be sent.  A command's
        CREATE is the first message of its state, and resets what has been received. */
    method MsgTx(x: nat, create: bool, reply: bool)
      requires Valid() && x in heap && x != ROOT && (create && !reply ==> heap[x].young)
      modifies this`heap
      ensures Valid() && heap == old(heap)[x := Sending(old(heap[x]), create, reply)]
      ensures Sends(old(heap[x]), heap[x], create, reply) && LingerOn(old(heap), heap, x)
    {
      ghost var t := Sending(heap[x], create, reply);
      SendingOk(heap, x, create, reply, t, heap[x := t], clock);
      heap := heap[x := Sending(heap[x], create, reply)];
    }

    /** State tracking for a received message on an existing transaction, which the
        message holds.  It waits for a message of the state's that is being sent. */
    method MsgRx(x: nat, create: bool, del: bool)
      requires Valid() && x in heap && x != ROOT && heap[x].held > 0 && !heap[x].inter && (del ==> !heap[x].rxd)
      modifies this`heap
      ensures Valid() && heap == Tracked(old(heap), x, create, del) && x in heap && Heard(old(heap[x]), heap[x], del)
      ensures heap[x].rxc == (create || old(heap[x].rxc)) && (del && heap[x].txd ==> !heap[x].rb)
      ensures LingerOn(old(heap), heap, x) && (Lingering(old(heap), x) ==> Lingering(heap, x))
    {
      TrackedOk(heap, x, create, del, Tracked(heap, x, create, del), clock);
      var s := heap[x];
      heap := heap[x := Hears(s, create, del)];
      if del && s.txd {
        heap := Unlist(heap, x);
      }
    }

    /** Cleanup after a received message.  A DELETE fails the children first; a state
        closed both ways leaves its parent's list; the message lets go. */
    method CleanupRx(x: nat, del: bool)
      requires Valid() && x in heap && x != ROOT && heap[x].held > 0 && (heap[x].rxd && heap[x].txd ==> !heap[x].rb)
      modifies this`heap
      ensures Valid() && CleanedRx(answers, old(heap), heap, x, del)
      ensures del && late == 0 && x in heap ==> ToldBelow(heap, x)
      ensures !del || old(heap[x].subq) == [] ==> heap == Drop(Closing(old(heap), x), x)
    {
      ghost var h0 := heap;
      CloseRx(x, del);
      ghost var h1 := heap;
      Release(x);
      RxCleaned(answers, h0, h1, x, heap, del, clock);
      if late == 0 {
        ReleasedSettled(answers, h0, h1, x, heap);
        if del && x in heap { SettledToldBelow(heap, x); }
      }
    }

    /** Up to where the message lets go. */
    method CloseRx(x: nat, del: bool)
      requires Ready(heap, x) && SaneAt(heap, x) && heap[x].held > 0
      modifies this`heap
      ensures Step(answers, old(heap), heap, x) && x in heap && (del ==> ChildrenFailed(heap, x))
      ensures SameFlags(old(heap[x]), heap[x]) && heap[x].rb == old(heap[x].rb)
      ensures heap[x].parent == if old(heap[x].rxd && heap[x].txd) then None else old(heap[x].parent)
      ensures !del || old(heap[x].subq) == [] ==> heap == Closing(old(heap), x)
    {
      if del {
        FailChildren(x);
      } else {
        Close(x);
      }
    }

    /** A message lets go of its state. */
    method Release(x: nat)
      requires Forest(heap) && x in heap && heap[x].held > 0
      modifies this`heap
      ensures Forest(heap) && heap == Drop(old(heap), x)
    {
      DropKeeps(heap, x);
      heap := Drop(heap, x);
    }

    /** Cleanup after a sent message, and the abort that was put off until then.  The
        message's own reference keeps the state to the end. */
    method CleanupTx(x: nat, del: bool)
      requires Valid() && x in heap && x != ROOT && heap[x].held > 0 && heap[x].txc && (del ==> !heap[x].txd)
      modifies this`heap
      ensures Valid() && CleanedTx(answers, old(heap), heap, x, del)
      ensures !Deferred(old(heap), x) ==>
                heap == Drop(if del then TxClosed(Sent(old(heap), x), x) else Sent(old(heap), x), x)
    {
      ghost var h0 := heap;
      heap := Sent(heap, x);
      FlagReady(h0, x, heap[x], heap);
      ghost var h1 := heap;
      SendDone(x, del);
      ghost var h2 := heap;
      Release(x);
      TxCleaned(answers, h0, h1, h2, x, heap, del, clock);
    }

    /** The DELETE, and the deferred abort. */
    method SendDone(x: nat, del: bool)
      requires Ready(heap, x) && heap[x].held > 0 && (del ==> !heap[x].txd) && !heap[x].inter
      modifies this`heap
      ensures x in heap && SendResult(answers, old(heap), heap, x, del)
      ensures !Deferred(old(heap), x) ==> heap == if del then TxClosed(old(heap), x) else old(heap)
    {
      ghost var h0 := heap;
      StepRefl(answers, heap, x);
      if del {
        TxClose(x);
      }
      ghost var h1 := heap;
      if (heap[x].aborting || heap[x].dying) && !heap[x].rxd {
        DeferredAbort(x);
        StepTrans(answers, h0, h1, heap, x);
      }
    }

    method DeferredAbort(x: nat)
      requires Ready(heap, x) && heap[x].held > 0 && !heap[x].rxd
      modifies this`heap
      ensures Step(answers, old(heap), heap, x) && x in heap && heap[x].held > 0
      ensures heap[x].aborting && Sane(heap[x])
      ensures !old(heap[x].young) ==>
                Told(heap[x]) && ChildrenFailed(heap, x) && (old(heap[x].txd) || answers(x) ==> Gone(heap[x]))
    {
      ghost var h0 := heap;
      heap := heap[x := heap[x].(aborting := false)];
      ghost var h1 := heap;
      FlagReady(h0, x, h1[x], h1);
      Abort(x);
      ClearedStep(answers, h0, h1, heap, x);
      assert MonoAt(h1, heap, x);
    }

    /** The end of the connection: everything below the root is failed. */
    method Teardown()
      requires Valid()
      modifies this`heap
      ensures Valid() && Laws(answers, old(heap), heap, ROOT) && Grows(old(heap), heap)
      ensures LingerOn(old(heap), heap, ROOT) && forall z | Stranded(old(heap), z) :: Stranded(heap, z)
      ensures LeftBy(answers, old(heap), heap, ROOT) && ChildrenDone(heap, ROOT)
      ensures heap[ROOT].subq == [] <==> Clears(answers, old(heap), ROOT)
      ensures (AllSettled(heap) <==> old(AllSettled(heap))) && (late == 0 ==> ToldBelow(heap, ROOT))
      ensures old(Anchored(heap)) ==> (Anchored(heap) <==> StaysWhole(answers, old(heap), ROOT, false))
    {
      ghost var h0 := heap;
      assert SaneAt(h0, ROOT);
      SimulateFailure(ROOT, false);
      TornDown(answers, h0, heap);
      assert MonoAt(h0, heap, ROOT);
      GrowsBefore(h0, heap, ROOT, clock);
      if late == 0 { SettledToldBelow(heap, ROOT); }
    }
  }
}
