/** `AnyTask`: a task box whose every copy takes the task away from the original. */
module Tasks {

  /** The heap object behind a box: how often it ran, how often it was deleted. */
  class TaskModel {
    var runs: nat
    var deletions: nat

    constructor ()
      ensures runs == 0 && deletions == 0
    {
      runs, deletions := 0, 0;
    }
  }

  class AnyTask {
    var task: TaskModel?

    /** Made from a callable. */
    constructor (task: TaskModel?)
      ensures this.task == task
    {
      this.task := task;
    }

    /** The default constructor leaves the pointer as the memory was: `garbage` is arbitrary. */
    constructor Default(garbage: TaskModel?)
      ensures task == garbage
    {
      task := garbage;
    }

    /** Copy and move construction alike. */
    constructor From(other: AnyTask)
      modifies other
      ensures task == old(other.task) && other.task == null
    {
      task := other.task;
      new;
      other.task := null;
    }

    /** Copy and move assignment alike; what this box held is forgotten, not deleted. */
    method Assign(other: AnyTask)
      modifies this, other
      ensures other.task == null
      ensures other != this ==> task == old(other.task)
    {
      task := other.task;
      other.task := null;
    }

    method Run()
      modifies task
      ensures task == old(task)
      ensures task != null ==> task.runs == old(task.runs) + 1 && task.deletions == old(task.deletions)
    {
      if task != null {
        task.runs := task.runs + 1;
      }
    }

    method Destroy()
      modifies task
      ensures task != null ==> task.deletions == old(task.deletions) + 1 && task.runs == old(task.runs)
    {
      if task != null {
        task.deletions := task.deletions + 1;
      }
    }
  }

  /** At most one of the boxes holds `m`. */
  ghost predicate HeldOnce(boxes: set<AnyTask>, m: TaskModel)
    reads boxes
  {
    forall a, b :: a in boxes && b in boxes && a.task == m && b.task == m ==> a == b
  }

  ghost predicate Held(boxes: set<AnyTask>, m: TaskModel)
    reads boxes
  {
    exists a :: a in boxes && a.task == m
  }

  /**
   Assignment keeps every task in at most one box. It loses one exactly when the box assigned to
   held it: when that box is overwritten, and also when it is assigned to itself.
   */
  method AssignKeepsOwnership(boxes: set<AnyTask>, to: AnyTask, other: AnyTask, m: TaskModel)
    requires to in boxes && other in boxes && HeldOnce(boxes, m)
    modifies to, other
    ensures HeldOnce(boxes, m)
    ensures Held(boxes, m) <==> old(Held(boxes, m) && to.task != m)
  {
    ghost var holder := if Held(boxes, m) then (var a :| a in boxes && a.task == m; a) else to;
    to.Assign(other);
    assert holder.task == m || (to.task == m && other != to) ==> Held(boxes, m);
  }

  /**
   The way of a posted task: into a node, out of it by the stealing read in `Pop`, into the caller's
   box, which runs it. Every box is destroyed at its end. The task runs exactly once and is deleted
   exactly once, whatever the caller's box held before it was assigned to.
   */
  method Journey(m: TaskModel, garbage: TaskModel?)
    requires m.runs == 0 && m.deletions == 0
    modifies m
    ensures m.runs == 1 && m.deletions == 1
  {
    var argument := new AnyTask(m);
    var node := new AnyTask.From(argument);
    argument.Destroy();
    var value := new AnyTask.From(node);
    var output := new AnyTask.Default(garbage);
    output.Assign(value);
    node.Destroy();
    value.Destroy();
    output.Run();
    output.Destroy();
  }

  /**
   `ConsumeOne` with a function that does nothing, on the boxes left in the queue: takes the first
   out and destroys it with its task. On an empty queue the box it declared is destroyed as it was.
   */
  method ConsumeOne(boxes: seq<AnyTask>, garbage: TaskModel?) returns (taken: bool, left: seq<AnyTask>)
    requires forall i :: 0 <= i < |boxes| ==> boxes[i].task != null
    modifies if boxes == [] then {} else {boxes[0]}
    modifies if boxes == [] then {garbage} else {boxes[0].task}
    ensures taken <==> boxes != []
    ensures left == if taken then boxes[1..] else []
    ensures taken ==> var m := old(boxes[0].task); m.deletions == old(m.deletions) + 1 && m.runs == old(m.runs)
    ensures !taken && garbage != null ==>
      garbage.deletions == old(garbage.deletions) + 1 && garbage.runs == old(garbage.runs)
  {
    var value := new AnyTask.Default(garbage);
    if boxes == [] {
      value.Destroy();
      return false, [];
    }
    var stolen := new AnyTask.From(boxes[0]);
    value.Assign(stolen);
    stolen.Destroy();
    value.Destroy();
    return true, boxes[1..];
  }

  /** The boxes are different and hold these tasks, which are different. */
  ghost predicate Holding(boxes: seq<AnyTask>, tasks: seq<TaskModel>)
    reads boxes
  {
    && |boxes| == |tasks|
    && (forall i :: 0 <= i < |tasks| ==> boxes[i].task == tasks[i])
    && (forall i, j :: 0 <= i < j < |tasks| ==> boxes[i] != boxes[j] && tasks[i] != tasks[j])
  }

  /**
   `Clear`, and so the destructors of the queue and of the serializer: every task left is deleted once
   and never run. It always ends with a `ConsumeOne` that finds nothing, whose box was never
   assigned to: one deletion too many exactly if that box did not happen to hold null, the second
   one of a task if it held a task of the queue.
   */
  method Clear(boxes: seq<AnyTask>, ghost tasks: seq<TaskModel>, garbage: TaskModel?)
    requires Holding(boxes, tasks)
    modifies boxes, tasks, {garbage}
    ensures forall i :: 0 <= i < |tasks| ==>
      && tasks[i].deletions == old(tasks[i].deletions) + 1 + (if tasks[i] == garbage then 1 else 0)
      && tasks[i].runs == old(tasks[i].runs)
    ensures garbage != null && garbage !in tasks ==> garbage.deletions == old(garbage.deletions) + 1
  {
    var left := boxes;
    ghost var n := 0;
    while true
      invariant 0 <= n <= |boxes| && left == boxes[n..]
      invariant Holding(left, tasks[n..])
      invariant forall i :: 0 <= i < |tasks| ==>
        && tasks[i].deletions == old(tasks[i].deletions) + (if i < n then 1 else 0)
        && tasks[i].runs == old(tasks[i].runs)
      invariant garbage != null && garbage !in tasks ==> garbage.deletions == old(garbage.deletions)
      decreases |left|
    {
      ghost var rest := tasks[n..];
      if left != [] { HoldingLess(left, rest); }
      var taken;
      taken, left := ConsumeOne(left, garbage);
      if !taken {
        break;
      }
      assert rest[1..] == tasks[n + 1..] && rest[0] == tasks[n];
      n := n + 1;
    }
  }

  lemma HoldingLess(boxes: seq<AnyTask>, tasks: seq<TaskModel>)
    requires Holding(boxes, tasks) && boxes != []
    ensures boxes[0].task == tasks[0] && boxes[0] !in boxes[1..] && tasks[0] !in tasks[1..]
    ensures Holding(boxes[1..], tasks[1..])
  {
  }
}
