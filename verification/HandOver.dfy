/** The hand-over queue between the update handler and the pull loop (run-node.ts, `updateQueue`). */
module HandOver {
  import opened Options

  class UpdateQueue<T> {
    var buffered: seq<T>
    var waiting: bool
    ghost var pushed: seq<T>
    ghost var handed: seq<T>  // in the order the loop received them

    /** Every message is handed over or waits its turn, and no take waits while one does. */
    ghost predicate Valid()
      reads this
    {
      pushed == handed + buffered && (waiting ==> buffered == [])
    }

    constructor ()
      ensures Valid() && pushed == [] && handed == [] && !waiting
    {
      buffered, waiting, pushed, handed := [], false, [], [];
    }

    /** Answers the waiting take, if there is one, with the message. */
    method Push(message: T) returns (answered: Option<T>)
      requires Valid()
      modifies this
      ensures Valid() && pushed == old(pushed) + [message] && !waiting
      ensures answered == if old(waiting) then Some(message) else None
      ensures handed == if old(waiting) then old(handed) + [message] else old(handed)
    {
      pushed := pushed + [message];
      if !waiting {
        buffered := buffered + [message];
        return None;
      }
      waiting := false;
      handed := handed + [message];
      return Some(message);
    }

    /** Answers with the oldest message not handed over, or waits for the next. */
    method Take() returns (answered: Option<T>)
      requires Valid() && !waiting
      modifies this
      ensures Valid() && pushed == old(pushed) && waiting == answered.None?
      ensures answered == if |old(handed)| < |pushed| then Some(pushed[|old(handed)|]) else None
      ensures handed == if answered.Some? then old(handed) + [answered.value] else old(handed)
    {
      if buffered != [] {
        var next := buffered[0];
        buffered := buffered[1..];
        handed := handed + [next];
        return Some(next);
      }
      waiting := true;
      return None;
    }
  }

  /** Any schedule of pushes and takes, a take being issued only once the one before is answered:
      what the loop receives is, in order, the front of what was pushed, one message for each take
      issued; and a take waits exactly where more takes were issued than messages pushed. */
  method Exchange<T>(schedule: seq<Option<T>>) returns (received: seq<T>, waits: bool)
    ensures |received| <= |Pushes(schedule)| && received == Pushes(schedule)[..|received|]
    ensures waits <==> Issued(schedule) > |Pushes(schedule)|
    ensures |received| == if waits then |Pushes(schedule)| else Issued(schedule)
  {
    var queue := new UpdateQueue<T>();
    received := [];
    for n := 0 to |schedule|
      invariant queue.Valid() && fresh(queue)
      invariant queue.pushed == Pushes(schedule[..n]) && received == queue.handed
      invariant Issued(schedule[..n]) == |received| + if queue.waiting then 1 else 0
    {
      assert schedule[..n + 1][..n] == schedule[..n];
      if schedule[n].Some? {
        var answered := queue.Push(schedule[n].value);
        if answered.Some? { received := received + [answered.value]; }
      } else if !queue.waiting {
        var answered := queue.Take();
        if answered.Some? { received := received + [answered.value]; }
      }
    }
    assert schedule[..|schedule|] == schedule;
    waits := queue.waiting;
  }

  /** The takes issued: one more only once there was a push for each of those before it. */
  function Issued<T>(schedule: seq<Option<T>>): nat {
    if schedule == [] then 0
    else
      var front := schedule[..|schedule| - 1];
      Issued(front) + if schedule[|schedule| - 1].None? && Issued(front) <= |Pushes(front)| then 1 else 0
  }

  function Pushes<T>(schedule: seq<Option<T>>): seq<T> {
    if schedule == [] then []
    else
      var last := schedule[|schedule| - 1];
      Pushes(schedule[..|schedule| - 1]) + if last.Some? then [last.value] else []
  }
}
