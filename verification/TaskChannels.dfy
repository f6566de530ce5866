/** A bounded channel of tasks. */
module TaskChannels {
  import opened Records
  import opened Machine

  class Channel {
    var items: seq<Task>

    constructor ()
      ensures items == []
    {
      items := [];
    }

    /** A push never waits; on a full channel it reports failure and changes nothing. */
    method Push(task: Task, status: Status) returns (pushed: bool)
      modifies this
      ensures pushed <==> Room(old(items))
      ensures pushed <==> |old(items)| < 5000
      ensures items == if pushed then old(items) + [task.(status := status)] else old(items)
    {
      if |items| < CAPACITY {
        items := items + [task.(status := status)];
        return true;
      }
      return false;
    }

    /** The oldest `count` tasks, or fewer if the channel empties first; -1 asks for all of them. */
    method Fetch(count: int) returns (tasks: seq<Task>)
      modifies this
      ensures old(items) == tasks + items
      ensures count == -1 ==> items == []
      ensures count != -1 ==> |tasks| == if count < 0 then 0 else if count < |old(items)| then count else |old(items)|
    {
      tasks := [];
      if count == -1 {
        while items != []
          invariant old(items) == tasks + items
          decreases |items|
        {
          tasks, items := tasks + [items[0]], items[1..];
        }
        return;
      }
      var i := 0;
      while i < count && |items| > 0
        invariant old(items) == tasks + items && |tasks| == i && (i <= count || i == 0)
        decreases |items|
      {
        tasks, items := tasks + [items[0]], items[1..];
        i := i + 1;
      }
    }
  }
}
