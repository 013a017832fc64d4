/** The data of `scheduler` (scheduler.hpp) and what each of its critical
    sections does to them (scheduler.cc), as functions from state to state. The
    class in Scheduler.dfy implements them; Protocol.dfy interleaves them. */
module SchedulerCore {
  import opened EventWord

  // An entry of an op_queue<operation>: a user operation, the operation part of
  // a descriptor_state, or task_operation_.
  datatype Op<H> = User(h: H) | Descriptor(d: nat) | Task

  // `guardedWake` selects between the two readings of the test at
  // scheduler.cc:248: `!task_interrupted_` (true) and the literal, always-true
  // `&task_interrupted_` (false).
  datatype Core<H> = Core(
    ops: seq<Op<H>>,
    word: nat,
    stopped: bool,
    shutdown: bool,
    task: bool,
    interrupted: bool,
    outstanding: int,
    oneThread: bool,
    guardedWake: bool)

  // What a section asks of the world outside the mutex.
  datatype Effect = Effect(notify: Notify, interrupt: bool)

  datatype Result<H> = Result(core: Core<H>, effect: Effect)

  function Fresh<H>(oneThread: bool, guardedWake: bool): Core<H>
  {
    // The source constructor leaves several members unset; this is the start
    // state its code relies on.
    Core([], 0, false, false, false, true, 0, oneThread, guardedWake)
  }

  /** wake_one_thread_and_unlock */
  function WakeOne<H>(c: Core<H>): Result<H>
  {
    var w := SetBit(c.word);
    if w > 1 then
      Result(c.(word := w), Effect(One, false))
    else if (!c.guardedWake || !c.interrupted) && c.task then
      Result(c.(word := w, interrupted := true), Effect(NoOne, true))
    else
      Result(c.(word := w), Effect(NoOne, false))
  }

  /** The section shared by every post to the common queue. */
  function PushAndWake<H>(c: Core<H>, batch: seq<Op<H>>): Result<H>
  {
    WakeOne(c.(ops := c.ops + batch))
  }

  function InitTask<H>(c: Core<H>): Result<H>
  {
    if !c.shutdown && !c.task then PushAndWake(c.(task := true), [Task])
    else Result(c, Effect(NoOne, false))
  }

  function StopAll<H>(c: Core<H>): Result<H>
  {
    var c1 := c.(stopped := true, word := SetBit(c.word));
    if !c.interrupted && c.task then Result(c1.(interrupted := true), Effect(All, true))
    else Result(c1, Effect(All, false))
  }

  // What a thread does once it has left the section that starts a pass of the
  // loop in do_run_one.
  datatype Turn<H> = Leave | Block | Poll(blocking: bool) | Execute(op: Op<H>)

  datatype Pass<H> = Pass(core: Core<H>, effect: Effect, turn: Turn<H>)

  /** One pass of the loop in do_run_one, from holding the mutex to releasing it. */
  function TakeTurn<H>(c: Core<H>): Pass<H>
  {
    if c.stopped then
      Pass(c, Effect(NoOne, false), Leave)
    else if c.ops == [] then
      Pass(c.(word := AddWaiter(ClearBit(c.word))), Effect(NoOne, false), Block)
    else
      var o := c.ops[0];
      var more := |c.ops| > 1;
      var c1 := c.(ops := c.ops[1..], interrupted := if o.Task? then more else c.interrupted);
      var turn := if o.Task? then Poll(!more) else Execute(o);
      if more && !c.oneThread then
        var w := SetBit(c.word);
        Pass(c1.(word := w), Effect(if w > 1 then One else NoOne, false), turn)
      else
        Pass(c1, Effect(NoOne, false), turn)
  }

  // ---- The destructors that end a pass ----

  /** ~task_cleanup: the private work, the reactor's harvest, then the task. */
  function CleanUpTask<H>(c: Core<H>, own: seq<Op<H>>, work: nat): Core<H>
  {
    c.(outstanding := c.outstanding + work, interrupted := true, ops := c.ops + own + [Task])
  }

  /** ~work_cleanup, with nobody else in between. */
  function CleanUpWork<H>(c: Core<H>, own: seq<Op<H>>, work: nat): Result<H>
  {
    var c1 := c.(outstanding := c.outstanding + work - 1, ops := c.ops + own);
    if c1.outstanding == 0 then StopAll(c1) else Result(c1, Effect(NoOne, false))
  }

  /** A post that takes the common counter and queue. */
  function PostShared<H>(c: Core<H>, op: Op<H>): Result<H>
  {
    PushAndWake(c.(outstanding := c.outstanding + 1), [op])
  }
}
