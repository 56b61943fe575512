/**
 * A task future: the awaitable result of one polling task.  It is created
 * either watching (its task's paths are registered) or polling (it
 * reschedules itself), ends in exactly one of Done, Failed and Cancelled,
 * and after that ignores every further poll and cancel.
 */
module Futures {
  import opened Files
  import opened Tasks

  /** How the future learns that its task may have progressed; `schedules` counts scheduled runs. */
  datatype Mode = WatchMode | PollMode(schedules: nat)

  datatype Status<+V> = Pending | Done(value: V) | Failed(error: Error) | Cancelled
  {
    predicate IsDone() { !Pending? }
  }

  /**
   * One future: the paths its task asks to be watched, its mode, its status,
   * and how often it has called its task's `poll` and `abort`.
   */
  datatype TaskFuture<+V> = TaskFuture(paths: seq<Path>, mode: Mode, status: Status<V>, polls: nat, aborts: nat)

  /** What `TaskFuture.poll` does to the future when its task replies `reply`. */
  function AfterPoll<V>(f: TaskFuture<V>, reply: Reply<V>): (g: TaskFuture<V>)
    // A finished future does not even ask its task.
    ensures f.status.IsDone() ==> g == f
    // A pending one asks exactly once and keeps its paths.
    ensures !f.status.IsDone() ==> g.polls == f.polls + 1 && g.paths == f.paths
    // A value fulfils it; a failure aborts its task once and fails it with that failure.
    ensures !f.status.IsDone() && reply.Value? ==> g.status == Done(reply.value) && g.aborts == f.aborts && g.mode == f.mode
    ensures !f.status.IsDone() && reply.Thrown? ==> g.status == Failed(reply.error) && g.aborts == f.aborts + 1 && g.mode == f.mode
    // No answer keeps it pending; only a polling future schedules another run.
    ensures !f.status.IsDone() && reply.Null? ==>
      && g.status == Pending && g.aborts == f.aborts
      && g.mode == (if f.mode.PollMode? then PollMode(f.mode.schedules + 1) else WatchMode)
  {
    if f.status.IsDone() then f
    else match reply
      case Value(v) => f.(status := Done(v), polls := f.polls + 1)
      case Thrown(e) => f.(status := Failed(e), polls := f.polls + 1, aborts := f.aborts + 1)
      case Null =>
        var mode := if f.mode.PollMode? then PollMode(f.mode.schedules + 1) else f.mode;
        f.(mode := mode, polls := f.polls + 1)
  }

  /** A poll that ends a pending future also unregisters it. */
  predicate ReleasedByPoll<V>(f: TaskFuture<V>, reply: Reply<V>) {
    f.status.Pending? && !reply.Null?
  }

  /** `cancel` succeeds unless the future is finished or its task refuses to abort. */
  predicate CancelSucceeds<V>(f: TaskFuture<V>, answer: AbortReply) {
    f.status.Pending? && answer != Returned(false)
  }

  /** What `TaskFuture.cancel` does to the future when its task's abort answers `answer`. */
  function AfterCancel<V>(f: TaskFuture<V>, answer: AbortReply): (g: TaskFuture<V>)
    ensures f.status.IsDone() ==> g == f
    ensures !f.status.IsDone() ==> g.aborts == f.aborts + 1 && g.polls == f.polls && g.paths == f.paths && g.mode == f.mode
    // A refusal leaves it pending; a clean abort cancels it; a throwing abort fails it.
    ensures !f.status.IsDone() ==> g.status == match answer
      case Returned(ok) => if ok then Cancelled else Pending
      case AbortThrown(e) => Failed(e)
    ensures g.status.IsDone() != f.status.IsDone() <==> CancelSucceeds(f, answer)
  {
    if f.status.IsDone() then f
    else match answer
      case Returned(ok) => f.(status := if ok then Cancelled else Pending, aborts := f.aborts + 1)
      case AbortThrown(e) => f.(status := Failed(e), aborts := f.aborts + 1)
  }

  /** Something that may happen to a future. */
  datatype Op<+V> = PollOp(reply: Reply<V>) | CancelOp(answer: AbortReply)

  function Apply<V>(f: TaskFuture<V>, op: Op<V>): TaskFuture<V> {
    match op
    case PollOp(reply) => AfterPoll(f, reply)
    case CancelOp(answer) => AfterCancel(f, answer)
  }

  function ApplyAll<V>(f: TaskFuture<V>, ops: seq<Op<V>>): TaskFuture<V>
    decreases |ops|
  {
    if ops == [] then f else ApplyAll(Apply(f, ops[0]), ops[1..])
  }

  /** The number of operations in `ops` that change the future's status. */
  ghost function Transitions<V>(f: TaskFuture<V>, ops: seq<Op<V>>): nat
    decreases |ops|
  {
    if ops == [] then 0
    else
      var g := Apply(f, ops[0]);
      (if g.status != f.status then 1 else 0) + Transitions(g, ops[1..])
  }

  /** Once finished, a future keeps its outcome whatever polls and cancels follow. */
  lemma {:induction false} DoneIsFinal<V>(f: TaskFuture<V>, ops: seq<Op<V>>)
    requires f.status.IsDone()
    ensures ApplyAll(f, ops) == f
    ensures Transitions(f, ops) == 0
    decreases |ops|
  {
    if ops != [] {
      DoneIsFinal(Apply(f, ops[0]), ops[1..]);
    }
  }

  /** A future changes status at most once, and only from Pending. */
  lemma {:induction false} AtMostOneTransition<V>(f: TaskFuture<V>, ops: seq<Op<V>>)
    ensures Transitions(f, ops) <= (if f.status.Pending? then 1 else 0)
    ensures ApplyAll(f, ops).status == f.status || f.status.Pending?
    decreases |ops|
  {
    if ops != [] {
      var g := Apply(f, ops[0]);
      if g.status == f.status {
        AtMostOneTransition(g, ops[1..]);
      } else {
        DoneIsFinal(g, ops[1..]);
      }
    }
  }
}
