/**
The thread lock in its imperative form: an object with the source's fields and
one method per function, each proved to leave the fields that an uninterrupted
run of the same function leaves in the interleaving system.

`world` is the state of that system: the ghost account of what every thread
holds.  Where the source sleeps, the method takes the states the sleeper finds
the lock in after each sleep as a parameter.
*/
module CcmsLock {
  import opened Base
  import opened CcmsModel
  import opened CcmsInvariant
  import opened CcmsSafety
  import opened CcmsSolo

  // --------------------------------------------- calls of the system, run alone

  ghost predicate Callable(s: State, me: nat, op: Op) {
    Inv(s) && s.c.spin.None? && Enabled(s, Call(me, op))
  }

  lemma EnteredAlone(s: State, me: nat, op: Op)
    requires Callable(s, me, op)
    ensures Alone(s.c, Entering(s.ts[me], op), me)
  {
    Views(s, me);
    EnterFacts(s.ts[me], op);
  }

  lemma CallOnInv(keyed: bool, s: State, me: nat, op: Op)
    requires Callable(s, me, op)
    ensures Inv(CallOn(keyed, s, me, op))
  {
    CallKeepsInv(keyed, s, me, op);
    var r := CallOn(keyed, s, me, op);
    RunOnKeepsInv(keyed, Apply(keyed, s, Call(me, op)), me, LIMIT, r);
  }

  /** The outcome of a call that gives back a hold, takes one or converts one. */
  function OutcomeOf(keyed: bool, c: Cst, h: Hold, me: nat, op: Op): Outcome {
    match op
    case Lock(st) => LockOutcome(c, h, me, st)
    case TempRestore(st) => LockOutcome(c, h, me, st)
    case TryLock(st) => TryOutcome(c, h, me, st)
    case Upgrade => UpgradeOutcome(c, h, me)
    case Downgrade(o) => if o == SHARED then DowngradeOutcome(keyed, c, 1) else Returns(c, h, 0)
    case Unlock => UnlockOutcome(keyed, c, h, 0)
    case UnlockUpgraded(o) => if o == SHARED then DowngradeOutcome(keyed, c, 0) else UnlockOutcome(keyed, c, h, 0)
    case TempRelease => UnlockOutcome(keyed, c, h, CodeOf(h))
    case _ => Returns(c, h, 0)
  }

  /** Every function's uninterrupted run ends as its outcome says. */
  lemma CallOnEnds(keyed: bool, s: State, me: nat, op: Op)
    requires Callable(s, me, op) && !op.Owned?
    ensures var t := Entering(s.ts[me], op);
            EndsIn(Solo(keyed, s.c, t, me, LIMIT), t, OutcomeOf(keyed, s.c, s.ts[me].hold, me, op))
  {
    EnteredAlone(s, me, op);
    var t := Entering(s.ts[me], op);
    match op
    case Lock(st) => SoloLock(keyed, s.c, t, me);
    case TempRestore(st) => SoloLock(keyed, s.c, t, me);
    case TryLock(st) => SoloLock(keyed, s.c, t, me);
    case Upgrade => SoloUpgrade(keyed, s.c, t, me);
    case Downgrade(o) =>
      if o == SHARED { SoloDowngrade(keyed, s.c, t, me); } else { SoloReturn(keyed, s.c, t, me, 20); }
    case Unlock => SoloUnlock(keyed, s.c, t, me, 20);
    case UnlockUpgraded(o) =>
      if o == SHARED { SoloDowngrade(keyed, s.c, t, me); } else { SoloUnlock(keyed, s.c, t, me, 20); }
    case TempRelease => SoloTempRelease(keyed, s.c, t, me);
  }

  lemma CallOnFields(keyed: bool, s: State, me: nat, op: Op)
    requires Callable(s, me, op) && !op.Owned?
    ensures CallOn(keyed, s, me, op).c == OutcomeOf(keyed, s.c, s.ts[me].hold, me, op).c
  {
    CallOnEnds(keyed, s, me, op);
    RunOnIsSolo(keyed, Apply(keyed, s, Call(me, op)), me, LIMIT);
    assert Apply(keyed, s, Call(me, op)).ts[me] == Entering(s.ts[me], op);
  }

  /** A call that sleeps leaves its thread asleep in the call's wait loop. */
  lemma CallAsleep(keyed: bool, s: State, me: nat, op: Op, w: Wait)
    requires Callable(s, me, op) && (op.Lock? || op.Upgrade?)
    requires w == (if op.Lock? then WaitFor(op.st) else ForUpgrade)
    ensures OutcomeOf(keyed, s.c, s.ts[me].hold, me, op).Sleeps? ==>
              me < |CallOn(keyed, s, me, op).ts| && CallOn(keyed, s, me, op).ts[me].pc == InWait(w, Asleep)
  {
    CallOnEnds(keyed, s, me, op);
    RunOnIsSolo(keyed, Apply(keyed, s, Call(me, op)), me, LIMIT);
    assert Apply(keyed, s, Call(me, op)).ts[me] == Entering(s.ts[me], op);
  }

  // -------------------------------------------------------- sleeping requests

  /** A state a sleeper may find after a sleep: the others have moved on, the
      sleeper is where it was and has left the queue. */
  ghost predicate Nap(s: State, before: State, me: nat) {
    && Inv(s) && s.c.spin.None? && me < |s.ts| == |before.ts|
    && Sleeping(before.ts[me].pc) && s.ts[me] == before.ts[me] && me !in s.c.queue
  }

  ghost predicate NapAt(naps: seq<State>, before: State, me: nat, k: nat) {
    k < |naps| ==> Nap(naps[k], before, me)
  }

  /** The states in which a wait loop tests its condition. */
  ghost predicate Naps(naps: seq<State>, before: State, me: nat) {
    forall k :: NapAt(naps, before, me, k)
  }

  ghost predicate Unspun(naps: seq<State>, me: nat) {
    forall k :: 0 <= k < |naps| ==> naps[k].c.spin.None? && me < |naps[k].ts|
  }

  /** The first of the fields found after the sleeps that ends the wait, or their number. */
  function FirstFree(w: Wait, naps: seq<State>): (k: nat)
    ensures k <= |naps|
    ensures k < |naps| ==> !Waits(naps[k].c, w)
    ensures forall j :: 0 <= j < k ==> Waits(naps[j].c, w)
  {
    if naps == [] || !Waits(naps[0].c, w) then 0 else 1 + FirstFree(w, naps[1..])
  }

  /** The state in which the wait ended, or the last one that did not end it. */
  ghost function LastNap(w: Wait, naps: seq<State>): State
    requires naps != []
  {
    var k := FirstFree(w, naps);
    naps[if k < |naps| then k else |naps| - 1]
  }

  /** The fields a wait loop entered at `c` leaves: the grant in the first state
      that ends the wait, or the sleeper queued again in the last one. */
  ghost function Taken(c: Cst, me: nat, w: Wait, naps: seq<State>): Cst {
    if !Waits(c, w) then Granted(c, me, w)
    else if naps == [] then c.(blocked := true, queue := c.queue + {me})
    else ResumeOutcome(LastNap(w, naps).c, me, w).c
  }

  /** The system's state after the sleeper's sleeps. */
  ghost function SleptThrough(keyed: bool, asleep: State, me: nat, w: Wait, naps: seq<State>): State
    requires Unspun(naps, me)
  {
    if naps == [] then asleep else RunOn(keyed, LastNap(w, naps), me, LIMIT)
  }

  ghost function LockEnd(c: Cst, me: nat, st: nat, naps: seq<State>): Cst {
    if c.count < 0 && c.td == Some(me) then c.(count := c.count - 1)
    else if !ValidState(st) then c
    else Taken(c, me, WaitFor(st), naps)
  }

  ghost function UpgradeEnd(c: Cst, me: nat, naps: seq<State>): Cst {
    if c.count <= 0 then c
    else Taken(c.(upgrade := c.upgrade + 1, count := c.count - 1), me, ForUpgrade, naps)
  }

  function WaitOf(op: Op): Wait {
    if op.Lock? then WaitFor(op.st) else ForUpgrade
  }

  /** The system's state after a call that may sleep, and the sleeper's sleeps. */
  ghost function AfterCall(keyed: bool, s: State, me: nat, op: Op, naps: seq<State>): State
    requires Enabled(s, Call(me, op)) && Unspun(naps, me)
  {
    if OutcomeOf(keyed, s.c, s.ts[me].hold, me, op).Returns? then CallOn(keyed, s, me, op)
    else SleptThrough(keyed, CallOn(keyed, s, me, op), me, WaitOf(op), naps)
  }

  lemma AfterSleep(keyed: bool, s: State, me: nat, op: Op, naps: seq<State>)
    requires Callable(s, me, op) && (op.Lock? || op.Upgrade?) && naps != []
    requires Unspun(naps, me) && Naps(naps, CallOn(keyed, s, me, op), me)
    requires OutcomeOf(keyed, s.c, s.ts[me].hold, me, op).Sleeps?
    ensures Inv(AfterCall(keyed, s, me, op, naps))
    ensures AfterCall(keyed, s, me, op, naps).c == ResumeOutcome(LastNap(WaitOf(op), naps).c, me, WaitOf(op)).c
  {
    var w, before := WaitOf(op), CallOn(keyed, s, me, op);
    CallAsleep(keyed, s, me, op, w);
    var k := FirstFree(w, naps);
    assert NapAt(naps, before, me, if k < |naps| then k else |naps| - 1);
    NapResumes(keyed, LastNap(w, naps), before, me, w);
  }

  /** The fields of that state are the ones the source's loop leaves. */
  lemma AfterCallFields(keyed: bool, s: State, me: nat, op: Op, naps: seq<State>)
    requires Callable(s, me, op) && (op.Lock? || op.Upgrade?)
    requires Unspun(naps, me) && Naps(naps, CallOn(keyed, s, me, op), me)
    ensures Inv(AfterCall(keyed, s, me, op, naps))
    ensures AfterCall(keyed, s, me, op, naps).c ==
            (if op.Lock? then LockEnd(s.c, me, op.st, naps) else UpgradeEnd(s.c, me, naps))
  {
    IdleOwner(s, me);
    Views(s, me);
    if OutcomeOf(keyed, s.c, s.ts[me].hold, me, op).Sleeps? && naps != [] {
      AfterSleep(keyed, s, me, op, naps);
    } else {
      CallOnInv(keyed, s, me, op);
      CallOnFields(keyed, s, me, op);
    }
  }

  lemma {:induction false} FirstFreeAt(w: Wait, naps: seq<State>, k: nat)
    requires k < |naps| && !Waits(naps[k].c, w) && forall j :: 0 <= j < k ==> Waits(naps[j].c, w)
    ensures FirstFree(w, naps) == k
  {}

  lemma FirstFreeNone(w: Wait, naps: seq<State>)
    requires forall j :: 0 <= j < |naps| ==> Waits(naps[j].c, w)
    ensures FirstFree(w, naps) == |naps|
  {}

  lemma NapResumes(keyed: bool, s: State, before: State, me: nat, w: Wait)
    requires Nap(s, before, me) && s.ts[me].pc == InWait(w, Asleep)
    ensures Inv(RunOn(keyed, s, me, LIMIT))
    ensures RunOn(keyed, s, me, LIMIT).c == ResumeOutcome(s.c, me, w).c
  {
    Views(s, me);
    var r := RunOn(keyed, s, me, LIMIT);
    RunOnKeepsInv(keyed, s, me, LIMIT, r);
    RunOnIsSolo(keyed, s, me, LIMIT);
    SoloResume(keyed, s.c, s.ts[me], me, w);
  }

  // -------------------------------------------------------------- the object

  class CcmsCst {
    const keyed: bool
    var count: int
    var upgrade: int
    var td: Option<nat>
    var blocked: bool
    var spin: Option<nat>
    var channel: set<nat>
    ghost var world: State

    function Fields(): Cst
      reads this
    {
      Cst(count, upgrade, td, blocked, spin, channel)
    }

    ghost predicate Valid()
      reads this
    {
      world.c == Fields() && spin.None? && Inv(world)
    }

    /** ccms_cst_init */
    constructor (keyed: bool, ghost n: nat)
      ensures Valid() && world == CcmsModel.Init(n) && this.keyed == keyed
    {
      this.keyed := keyed;
      count, upgrade, td, blocked, spin, channel := 0, 0, None, false, None, {};
      world := CcmsModel.Init(n);
      InitInv(n);
    }

    /** wakeup(): every thread queued on the lock's channel, which is every
        sleeper or none of them. */
    method Wakeup()
      modifies this`channel
      ensures channel == (if keyed then {} else old(channel))
    {
      if keyed { channel := {}; }
    }

    /** The end of an exclusive spin section: wake the blocked, release the spin. */
    method Finish(me: nat)
      requires spin == Some(me)
      modifies this`blocked, this`spin, this`channel
      ensures Fields() == Woken(keyed, old(Fields())).(spin := None)
    {
      if blocked {
        blocked := false;
        spin := None;
        Wakeup();
      } else {
        spin := None;
      }
    }

    /** The system takes the call in one uninterrupted run. */
    ghost method Account(me: nat, op: Op)
      requires Callable(world, me, op) && !op.Owned?
      modifies this`world
      ensures world == CallOn(keyed, old(world), me, op) && Inv(world)
      ensures world.c == OutcomeOf(keyed, old(world.c), old(world.ts[me].hold), me, op).c
    {
      CallOnInv(keyed, world, me, op);
      CallOnFields(keyed, world, me, op);
      world := CallOn(keyed, world, me, op);
    }

    /** ccms_thread_lock_nonblock */
    method TryLock(me: nat, st: nat) returns (error: nat)
      requires Valid() && Enabled(world, Call(me, Op.TryLock(st)))
      modifies this
      ensures Valid() && world == CallOn(keyed, old(world), me, Op.TryLock(st))
      ensures error == TryOutcome(old(Fields()), old(world.ts[me].hold), me, st).rv
      ensures error != 0 ==> error == EBUSY && Fields() == old(Fields())
    {
      IdleOwner(world, me);
      Account(me, Op.TryLock(st));
      if count < 0 && td == Some(me) {
        count := count - 1;
        return 0;
      }
      spin := Some(me);
      if st == SHARED {
        if count < 0 || upgrade != 0 {
          spin := None;
          return EBUSY;
        }
        count := count + 1;
      } else if st == EXCLUSIVE {
        if count != 0 || upgrade != 0 {
          spin := None;
          return EBUSY;
        }
        count := -1;
        td := Some(me);
      } else {
        spin := None;
        return EBUSY;
      }
      spin := None;
      return 0;
    }

    /** ssleep(): queue on the channel, release the spin, and come back with the
        spin to whatever the other threads have made of the lock. */
    method Ssleep(me: nat, nap: Cst)
      requires nap.spin.None?
      modifies this`count, this`upgrade, this`td, this`blocked, this`spin, this`channel
      ensures Fields() == nap.(spin := Some(me))
    {
      channel := channel + {me};
      spin := None;
      count, upgrade, td, blocked, channel := nap.count, nap.upgrade, nap.td, nap.blocked, nap.queue;
      spin := Some(me);
    }

    /** A wait loop, entered with the spin: sleep and test again until the
        condition ends or no more wakes are given. */
    method WaitLoop(me: nat, w: Wait, naps: seq<State>) returns (free: bool)
      requires spin == Some(me) && Unspun(naps, me)
      modifies this`count, this`upgrade, this`td, this`blocked, this`spin, this`channel
      ensures free <==> !Waits(old(Fields()), w) || FirstFree(w, naps) < |naps|
      ensures !Waits(old(Fields()), w) ==> Fields() == old(Fields())
      ensures Waits(old(Fields()), w) ==>
                var k := FirstFree(w, naps);
                if k < |naps| then Fields() == naps[k].c.(spin := Some(me))
                else var last := if naps == [] then old(Fields()) else naps[|naps| - 1].c;
                     Fields() == last.(spin := None, blocked := true, queue := last.queue + {me})
    {
      var k := 0;
      while Waits(Fields(), w)
        invariant 0 <= k <= |naps|
        invariant spin == Some(me)
        invariant k == 0 ==> Fields() == old(Fields())
        invariant k > 0 ==> Waits(old(Fields()), w) && Fields() == naps[k - 1].c.(spin := Some(me))
        invariant forall j :: 0 <= j < k - 1 ==> Waits(naps[j].c, w)
        decreases |naps| - k
      {
        blocked := true;
        if k == |naps| {
          FirstFreeNone(w, naps);
          channel := channel + {me};
          spin := None;
          return false;
        }
        Ssleep(me, naps[k].c);
        k := k + 1;
      }
      if k > 0 { FirstFreeAt(w, naps, k - 1); }
      return true;
    }

    /** A wait loop and the writes that take the lock after it. */
    method Take(me: nat, w: Wait, naps: seq<State>) returns (granted: bool)
      requires spin == Some(me) && Unspun(naps, me)
      modifies this`count, this`upgrade, this`td, this`blocked, this`spin, this`channel
      ensures granted <==> !Waits(old(Fields()), w) || FirstFree(w, naps) < |naps|
      ensures Fields() == Taken(old(Fields()).(spin := None), me, w, naps)
    {
      granted := WaitLoop(me, w, naps);
      if granted {
        if w == ForShared {
          count := count + 1;
        } else {
          count := -1;
          td := Some(me);
        }
      }
      spin := None;
    }

    /** The body of ccms_thread_lock. */
    method LockCode(me: nat, st: nat, naps: seq<State>) returns (granted: bool)
      requires spin.None? && Unspun(naps, me)
      modifies this`count, this`upgrade, this`td, this`blocked, this`spin, this`channel
      ensures Fields() == LockEnd(old(Fields()), me, st, naps)
      ensures granted <==> (old(count) < 0 && old(td) == Some(me)) || !ValidState(st) ||
                           !Waits(old(Fields()), WaitFor(st)) || FirstFree(WaitFor(st), naps) < |naps|
    {
      if count < 0 && td == Some(me) {
        count := count - 1;
        return true;
      }
      spin := Some(me);
      if st == SHARED {
        granted := Take(me, ForShared, naps);
      } else if st == EXCLUSIVE {
        granted := Take(me, ForExcl, naps);
      } else {
        spin := None;
        return true;
      }
    }

    /** ccms_thread_lock, and ccms_thread_lock_temp_restore which is the same call */
    method Lock(me: nat, st: nat, naps: seq<State>) returns (granted: bool)
      requires Valid() && Enabled(world, Call(me, Op.Lock(st)))
      requires Unspun(naps, me) && Naps(naps, CallOn(keyed, world, me, Op.Lock(st)), me)
      modifies this
      ensures Valid() && world == AfterCall(keyed, old(world), me, Op.Lock(st), naps)
      ensures granted <==>
                || LockOutcome(old(Fields()), old(world.ts[me].hold), me, st).Returns?
                || FirstFree(WaitFor(st), naps) < |naps|
    {
      IdleOwner(world, me);
      AfterCallFields(keyed, world, me, Op.Lock(st), naps);
      world := AfterCall(keyed, world, me, Op.Lock(st), naps);
      granted := LockCode(me, st, naps);
    }

    /** The body of ccms_thread_lock_upgrade. */
    method UpgradeCode(me: nat, naps: seq<State>) returns (granted: bool, ostate: nat)
      requires spin.None? && Unspun(naps, me)
      modifies this`count, this`upgrade, this`td, this`blocked, this`spin, this`channel
      ensures Fields() == UpgradeEnd(old(Fields()), me, naps)
      ensures ostate == (if old(count) < 0 then EXCLUSIVE else if old(count) > 0 then SHARED else 0)
      ensures granted <==> old(count) <= 1 || FirstFree(ForUpgrade, naps) < |naps|
    {
      if count < 0 {
        return true, EXCLUSIVE;
      }
      if count > 0 {
        spin := Some(me);
        upgrade := upgrade + 1;
        count := count - 1;
        granted := Take(me, ForUpgrade, naps);
        return granted, SHARED;
      }
      return true, 0;
    }

    /** ccms_thread_lock_upgrade; on an unlocked lock it reports and returns 0 */
    method Upgrade(me: nat, naps: seq<State>) returns (granted: bool, ostate: nat)
      requires Valid() && me < |world.ts| && world.ts[me].pc.Idle?
      requires count == 0 || MayCall(Op.Upgrade, world.ts[me].hold)
      requires Unspun(naps, me) && (count != 0 ==> Naps(naps, CallOn(keyed, world, me, Op.Upgrade), me))
      modifies this
      ensures Valid()
      ensures world == (if old(count) == 0 then old(world) else AfterCall(keyed, old(world), me, Op.Upgrade, naps))
      ensures ostate == (if old(count) < 0 then EXCLUSIVE else if old(count) > 0 then SHARED else 0)
      ensures granted <==> old(count) <= 1 || FirstFree(ForUpgrade, naps) < |naps|
    {
      if count != 0 {
        Views(world, me);
        AfterCallFields(keyed, world, me, Op.Upgrade, naps);
        world := AfterCall(keyed, world, me, Op.Upgrade, naps);
      }
      granted, ostate := UpgradeCode(me, naps);
    }

    /** ccms_thread_lock_downgrade */
    method Downgrade(me: nat, ostate: nat)
      requires Valid() && Enabled(world, Call(me, Op.Downgrade(ostate)))
      modifies this
      ensures Valid() && world == CallOn(keyed, old(world), me, Op.Downgrade(ostate))
    {
      Views(world, me);
      ghost var s0 := world;
      Account(me, Op.Downgrade(ostate));
      if ostate == SHARED {
        assert td == Some(me) && count == -1 by { IdleOwner(s0, me); }
        spin := Some(me);
        upgrade := upgrade - 1;
        count := 1;
        td := None;
        Finish(me);
      }
    }

    /** ccms_thread_unlock; with nothing held by anyone it reports and returns */
    method Unlock(me: nat)
      requires Valid() && me < |world.ts| && world.ts[me].pc.Idle?
      requires count == 0 || MayCall(Op.Unlock, world.ts[me].hold)
      modifies this
      ensures Valid()
      ensures world == (if old(count) == 0 then old(world) else CallOn(keyed, old(world), me, Op.Unlock))
    {
      Views(world, me);
      if count != 0 { Account(me, Op.Unlock); }
      Release(me);
    }

    /** The body of ccms_thread_unlock, which two other functions share. */
    method Release(me: nat)
      requires spin.None?
      modifies this`count, this`td, this`blocked, this`spin, this`channel
      ensures Fields() == (if old(count) < -1 then old(Fields()).(count := old(count) + 1)
                           else if old(count) == -1 then Woken(keyed, old(Fields()).(count := 0, td := None))
                           else if old(count) == 1 then Woken(keyed, old(Fields()).(count := 0))
                           else if old(count) > 1 then old(Fields()).(count := old(count) - 1)
                           else old(Fields()))
    {
      if count < 0 {
        if count < -1 {
          count := count + 1;
          return;
        }
        spin := Some(me);
        count := 0;
        td := None;
        Finish(me);
      } else if count > 0 {
        spin := Some(me);
        count := count - 1;
        if count == 0 && blocked {
          blocked := false;
          spin := None;
          Wakeup();
          return;
        }
        spin := None;
      }
    }

    /** ccms_thread_unlock_upgraded */
    method UnlockUpgraded(me: nat, ostate: nat)
      requires Valid() && Enabled(world, Call(me, Op.UnlockUpgraded(ostate)))
      modifies this
      ensures Valid() && world == CallOn(keyed, old(world), me, Op.UnlockUpgraded(ostate))
    {
      Views(world, me);
      ghost var s0 := world;
      Account(me, Op.UnlockUpgraded(ostate));
      if ostate == SHARED {
        assert td == Some(me) && count == -1 by { IdleOwner(s0, me); }
        spin := Some(me);
        upgrade := upgrade - 1;
        count := 0;
        td := None;
        Finish(me);
      } else {
        Release(me);
      }
    }

    /** ccms_thread_lock_temp_release */
    method TempRelease(me: nat) returns (ostate: nat)
      requires Valid() && me < |world.ts| && world.ts[me].pc.Idle?
      requires count == 0 || MayCall(Op.TempRelease, world.ts[me].hold)
      modifies this
      ensures Valid()
      ensures ostate == (if old(count) < 0 then EXCLUSIVE else if old(count) > 0 then SHARED else INVALID)
      ensures world == (if old(count) == 0 then old(world) else CallOn(keyed, old(world), me, Op.TempRelease))
    {
      Views(world, me);
      if count == 0 {
        return INVALID;
      }
      ostate := if count < 0 then EXCLUSIVE else SHARED;
      Account(me, Op.TempRelease);
      Release(me);
    }

    /** ccms_thread_lock_owned */
    method Owned(me: nat) returns (r: bool)
      requires Valid() && me < |world.ts| && world.ts[me].pc.Idle?
      ensures r <==> world.ts[me].hold.Excl?
    {
      IdleOwner(world, me);
      r := count < 0 && td == Some(me);
    }

    /** The body of ccms_thread_lock_setown: any caller, while the lock is exclusive. */
    method SetOwnCode(me: nat)
      requires count < 0
      modifies this`td
      ensures Fields() == old(Fields()).(td := Some(me))
    {
      td := Some(me);
    }

    /** ccms_thread_lock_setown, as the hand-off from a quiescent owner */
    method SetOwn(me: nat, ghost owner: nat)
      requires Valid() && Enabled(world, HandOff(owner, me))
      modifies this`td, this`world
      ensures Valid() && world == Apply(keyed, old(world), HandOff(owner, me))
    {
      Views(world, owner);
      assert count < 0;
      HandOffKeepsInv(keyed, world, owner, me);
      world := Apply(keyed, world, HandOff(owner, me));
      SetOwnCode(me);
    }
  }

  /** Outside the lock code, the unspun ownership test is exact. */
  lemma IdleOwner(s: State, me: nat)
    requires Inv(s) && me < |s.ts| && s.ts[me].pc.Idle?
    ensures s.ts[me].hold.Excl? <==> s.c.count < 0 && s.c.td == Some(me)
  {
    Views(s, me);
    assert LocalOk(s.ts[me]);
  }
}
