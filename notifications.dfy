/**
 * The on-screen notification queue: notifications wait in FIFO order and
 * at most `maxConcurrent` of them are shown at once; `currentCount` is meant
 * to be the number on screen.
 */
module Notifications {
  import opened Wrappers

  datatype NotificationType =
    | Achievement(title: string, description: string, currencyReward: nat)
    | Currency(amount: nat, reason: string)
    | Warning(message: string)
    | Info(message: string)

  /** The number of queued notifications a frame may show with `count` already on screen. */
  function Room(pending: seq<NotificationType>, maxConcurrent: nat, count: nat): (n: nat)
    ensures n <= |pending|
    ensures count < maxConcurrent ==> n == if |pending| < maxConcurrent - count then |pending| else maxConcurrent - count
    ensures count >= maxConcurrent ==> n == 0
  {
    if count >= maxConcurrent then 0
    else if |pending| < maxConcurrent - count then |pending|
    else maxConcurrent - count
  }

  /** What a spawner frame shows: the oldest notifications, as many as there is room for. */
  function Shown(pending: seq<NotificationType>, maxConcurrent: nat, count: nat): (shown: seq<NotificationType>)
    ensures |shown| == Room(pending, maxConcurrent, count)
  {
    pending[..Room(pending, maxConcurrent, count)]
  }

  /** The queue left behind after a spawner frame. */
  function Remaining(pending: seq<NotificationType>, maxConcurrent: nat, count: nat): seq<NotificationType>
  {
    pending[Room(pending, maxConcurrent, count)..]
  }

  /** A frame neither loses nor reorders notifications: the shown ones followed by the rest are the queue. */
  lemma ShownThenRemainingIsQueue(pending: seq<NotificationType>, maxConcurrent: nat, count: nat)
    ensures Shown(pending, maxConcurrent, count) + Remaining(pending, maxConcurrent, count) == pending
  {
  }

  /**
   * The on-screen count after a frame of the spawner as written: every `pop`
   * below the cap counts a slot, including the last one that finds the queue empty.
   */
  function CountAfterAsWritten(pending: seq<NotificationType>, maxConcurrent: nat, count: nat): nat
  {
    if count >= maxConcurrent then count
    else if |pending| < maxConcurrent - count then count + |pending| + 1
    else maxConcurrent
  }

  /** The on-screen count after a frame when only the notifications actually shown are counted. */
  function CountAfter(pending: seq<NotificationType>, maxConcurrent: nat, count: nat): (c: nat)
    ensures count <= maxConcurrent ==> c <= maxConcurrent
    ensures c == count + |Shown(pending, maxConcurrent, count)|
  {
    count + Room(pending, maxConcurrent, count)
  }

  /** As written, a frame that drains the queue below the cap counts one slot that nothing occupies. */
  lemma AsWrittenCountsPhantomSlot(pending: seq<NotificationType>, maxConcurrent: nat, count: nat)
    requires count < maxConcurrent && |pending| < maxConcurrent - count
    ensures CountAfterAsWritten(pending, maxConcurrent, count) == count + |Shown(pending, maxConcurrent, count)| + 1
  {
  }

  /** The count after `frames` spawner frames with nothing new to show, as written. */
  function IdleFramesAsWritten(maxConcurrent: nat, count: nat, frames: nat): nat
    decreases frames
  {
    if frames == 0 then count else IdleFramesAsWritten(maxConcurrent, CountAfterAsWritten([], maxConcurrent, count), frames - 1)
  }

  /**
   * As written, idle frames alone fill every slot: after `maxConcurrent` of
   * them nothing is on screen, so no completion can free a slot, and no later
   * notification is ever shown.
   */
  lemma {:induction false} AsWrittenIdleFramesLockOut(maxConcurrent: nat, count: nat, frames: nat)
    requires count <= maxConcurrent && frames >= maxConcurrent - count
    ensures IdleFramesAsWritten(maxConcurrent, count, frames) == maxConcurrent
    ensures forall p :: Shown(p, maxConcurrent, IdleFramesAsWritten(maxConcurrent, count, frames)) == []
    decreases frames
  {
    if frames > 0 {
      AsWrittenIdleFramesLockOut(maxConcurrent, CountAfterAsWritten([], maxConcurrent, count), frames - 1);
    }
  }

  /** With only shown notifications counted, idle frames leave the count alone. */
  lemma IdleFrameKeepsCount(maxConcurrent: nat, count: nat)
    ensures CountAfter([], maxConcurrent, count) == count
  {
  }

  /** A frame with room and something queued always shows the oldest queued notification. */
  lemma FrameMakesProgress(pending: seq<NotificationType>, maxConcurrent: nat, count: nat)
    requires count < maxConcurrent && pending != []
    ensures Shown(pending, maxConcurrent, count) != [] && Shown(pending, maxConcurrent, count)[0] == pending[0]
  {
  }

  class NotificationQueue {
    var notifications: seq<NotificationType>
    var maxConcurrent: nat
    var currentCount: nat

    ghost predicate Valid()
      reads this
    {
      currentCount <= maxConcurrent
    }

    /** NotificationQueue::new: up to three notifications at once. */
    constructor New()
      ensures Valid() && notifications == [] && maxConcurrent == 3 && currentCount == 0
    {
      notifications := [];
      maxConcurrent := 3;
      currentCount := 0;
    }

    /** The derived Default, which the plugin installs: every field zero, so a cap of none. */
    constructor Default()
      ensures Valid() && notifications == [] && maxConcurrent == 0 && currentCount == 0
    {
      notifications := [];
      maxConcurrent := 0;
      currentCount := 0;
    }

    method Push(n: NotificationType)
      modifies this
      ensures notifications == old(notifications) + [n]
      ensures maxConcurrent == old(maxConcurrent) && currentCount == old(currentCount)
    {
      notifications := notifications + [n];
    }

    /** pop as written: below the cap a slot is counted before looking at the queue. */
    method PopAsWritten() returns (n: Option<NotificationType>)
      modifies this
      ensures maxConcurrent == old(maxConcurrent)
      ensures old(currentCount) < maxConcurrent ==>
        currentCount == old(currentCount) + 1
        && (old(notifications) == [] ==> n == None && notifications == [])
        && (old(notifications) != [] ==> n == Some(old(notifications)[0]) && notifications == old(notifications)[1..])
      ensures old(currentCount) >= maxConcurrent ==>
        n == None && currentCount == old(currentCount) && notifications == old(notifications)
    {
      if currentCount < maxConcurrent {
        currentCount := currentCount + 1;
        if notifications == [] {
          n := None;
        } else {
          n := Some(notifications[0]);
          notifications := notifications[1..];
        }
      } else {
        n := None;
      }
    }

    /** pop counting a slot only for a notification it hands out. */
    method Pop() returns (n: Option<NotificationType>)
      modifies this
      ensures maxConcurrent == old(maxConcurrent)
      ensures old(currentCount) < maxConcurrent && old(notifications) != [] ==>
        n == Some(old(notifications)[0]) && notifications == old(notifications)[1..]
        && currentCount == old(currentCount) + 1
      ensures !(old(currentCount) < maxConcurrent && old(notifications) != []) ==>
        n == None && notifications == old(notifications) && currentCount == old(currentCount)
    {
      if currentCount < maxConcurrent && notifications != [] {
        currentCount := currentCount + 1;
        n := Some(notifications[0]);
        notifications := notifications[1..];
      } else {
        n := None;
      }
    }

    /** notification_completed: one slot is freed, never going below zero. */
    method NotificationCompleted()
      modifies this
      ensures currentCount == if old(currentCount) > 0 then old(currentCount) - 1 else 0
      ensures notifications == old(notifications) && maxConcurrent == old(maxConcurrent)
    {
      if currentCount > 0 {
        currentCount := currentCount - 1;
      }
    }

    /**
     * notification_spawner_system: queue the frame's events, then show
     * notifications while `pop` hands them out.
     */
    method SpawnerSystem(events: seq<NotificationType>) returns (shown: seq<NotificationType>)
      requires Valid()
      modifies this
      ensures Valid() && maxConcurrent == old(maxConcurrent)
      ensures shown == Shown(old(notifications) + events, maxConcurrent, old(currentCount))
      ensures notifications == Remaining(old(notifications) + events, maxConcurrent, old(currentCount))
      ensures currentCount == CountAfter(old(notifications) + events, maxConcurrent, old(currentCount))
    {
      for i := 0 to |events|
        invariant notifications == old(notifications) + events[..i]
        invariant maxConcurrent == old(maxConcurrent) && currentCount == old(currentCount)
      {
        Push(events[i]);
        assert events[..i + 1] == events[..i] + [events[i]];
      }
      assert events[..|events|] == events;
      ghost var pending := notifications;
      shown := [];
      var next := Pop();
      while next.Some?
        invariant maxConcurrent == old(maxConcurrent) && Valid()
        invariant |shown| <= |pending| && shown == pending[..|shown|]
        invariant next.Some? ==>
          |shown| < |pending| && next.value == pending[|shown|]
          && notifications == pending[|shown| + 1..] && currentCount == old(currentCount) + |shown| + 1
        invariant next.None? ==>
          notifications == pending[|shown|..] && currentCount == old(currentCount) + |shown|
          && (currentCount == maxConcurrent || notifications == [])
        decreases maxConcurrent - currentCount + (if next.Some? then 1 else 0)
      {
        shown := shown + [next.value];
        next := Pop();
      }
    }

    /** The spawner system with the `pop` as written. */
    method SpawnerSystemAsWritten(events: seq<NotificationType>) returns (shown: seq<NotificationType>)
      requires Valid()
      modifies this
      ensures Valid() && maxConcurrent == old(maxConcurrent)
      ensures shown == Shown(old(notifications) + events, maxConcurrent, old(currentCount))
      ensures notifications == Remaining(old(notifications) + events, maxConcurrent, old(currentCount))
      ensures currentCount == CountAfterAsWritten(old(notifications) + events, maxConcurrent, old(currentCount))
    {
      for i := 0 to |events|
        invariant notifications == old(notifications) + events[..i]
        invariant maxConcurrent == old(maxConcurrent) && currentCount == old(currentCount)
      {
        Push(events[i]);
        assert events[..i + 1] == events[..i] + [events[i]];
      }
      assert events[..|events|] == events;
      ghost var pending := notifications;
      shown := [];
      var next := PopAsWritten();
      while next.Some?
        invariant maxConcurrent == old(maxConcurrent) && Valid()
        invariant |shown| <= |pending| && shown == pending[..|shown|]
        invariant next.Some? ==>
          |shown| < |pending| && next.value == pending[|shown|]
          && notifications == pending[|shown| + 1..] && currentCount == old(currentCount) + |shown| + 1
        invariant next.None? ==>
          notifications == pending[|shown|..]
          && ((currentCount == maxConcurrent && old(currentCount) + |shown| == maxConcurrent)
              || (notifications == [] && currentCount == old(currentCount) + |shown| + 1 && currentCount <= maxConcurrent))
        decreases maxConcurrent - currentCount + (if next.Some? then 1 else 0)
      {
        shown := shown + [next.value];
        next := PopAsWritten();
      }
    }

    /** notification_cleanup_system: one completion per notification whose lifetime finished. */
    method CleanupSystem(finished: nat)
      modifies this
      ensures currentCount == if old(currentCount) >= finished then old(currentCount) - finished else 0
      ensures notifications == old(notifications) && maxConcurrent == old(maxConcurrent)
    {
      for i := 0 to finished
        invariant currentCount == if old(currentCount) >= i then old(currentCount) - i else 0
        invariant notifications == old(notifications) && maxConcurrent == old(maxConcurrent)
      {
        NotificationCompleted();
      }
    }
  }

  /** The Default-built queue shows nothing, whatever is pushed. */
  lemma DefaultQueueShowsNothing(pending: seq<NotificationType>)
    ensures Shown(pending, 0, 0) == [] && Remaining(pending, 0, 0) == pending
  {
  }

  /** A queue built with `new` shows the first notification pushed into it on the next frame. */
  lemma NewQueueShowsFirst(n: NotificationType, rest: seq<NotificationType>)
    ensures Shown([n] + rest, 3, 0)[0] == n
  {
  }
}
