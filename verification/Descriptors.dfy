/** What the program does to one descriptor_state (epoll_reactor.hpp) inside the
    sections guarded by that descriptor's mutex (epoll_reactor.cc), as functions
    on values. DescriptorState.dfy implements them in place; Protocol.dfy
    interleaves them. */
module Descriptors {

  // Event flags; a uint32_t mask is the set of its flags, `|` is union.
  datatype Flag = EpollIn | EpollPri | EpollOut | EpollErr | EpollHup | EpollEt

  type Events = set<Flag>

  // read_op, write_op (= connect_op) and except_op index the three queues.
  type Dir = j: nat | j < 3
  const READ: Dir := 0
  const WRITE: Dir := 1
  const EXCEPT: Dir := 2

  type Queues = s: seq<seq<nat>> | |s| == 3 witness [[], [], []]
  type Bits = s: seq<bool> | |s| == 3 witness [false, false, false]

  const NO_OPS: Queues := [[], [], []]
  const ADD_EVENTS: Events := {EpollIn, EpollErr, EpollHup, EpollPri, EpollEt}

  function FlagOf(j: Dir): Flag
  {
    if j == READ then EpollIn else if j == WRITE then EpollOut else EpollPri
  }

  // events & (flag[j] | EPOLLERR | EPOLLHUP)
  predicate Selects(events: Events, j: Dir)
  {
    FlagOf(j) in events || EpollErr in events || EpollHup in events
  }

  // reactor_op::status
  datatype Status = NotDone | Done | DoneAndExhausted

  // `performed` records, per direction, the operations whose perform() has
  // succeeded; the program does not keep it.
  datatype Desc = Desc(queues: Queues, speculative: Bits, registered: Events, shutdown: bool, performed: Queues)

  const NEW_DESC := Desc(NO_OPS, [true, true, true], ADD_EVENTS, false, NO_OPS)

  function Enqueue(d: Desc, j: Dir, u: nat): Desc
  {
    d.(queues := d.queues[j := d.queues[j] + [u]])
  }

  function LogPerformed(d: Desc, j: Dir, u: nat): Desc
  {
    d.(performed := d.performed[j := d.performed[j] + [u]])
  }

  // ---- start_op ----

  // What start_op decides: hand the operation to the scheduler at once, or
  // leave it in the queue (charging a unit), or go on holding the mutex.
  datatype Outcome = Complete | Queued | Hold(speculative: bool)

  datatype Started = Started(desc: Desc, outcome: Outcome)

  predicate SpeculationAllowed(d: Desc, j: Dir, allow: bool)
  {
    allow && (j != READ || d.queues[EXCEPT] == [])
  }

  predicate Tries(d: Desc, j: Dir, allow: bool)
  {
    !d.shutdown && d.queues[j] == [] && SpeculationAllowed(d, j, allow) && d.speculative[j]
  }

  /** start_op up to and including the speculative perform(), whose result is
      `status` when it is called. */
  function StartBegin(d: Desc, j: Dir, allow: bool, status: Status, u: nat): Started
  {
    if d.shutdown then Started(d, Complete)
    else if d.queues[j] != [] then Started(Enqueue(d, j, u), Queued)
    else if !SpeculationAllowed(d, j, allow) then Started(d, Hold(false))
    else if !d.speculative[j] || status.NotDone? then Started(d, Hold(true))
    else
      var d1 := LogPerformed(d, j, u);
      if status.DoneAndExhausted? && d.registered != {} then
        Started(d1.(speculative := d1.speculative[j := false]), Complete)
      else
        Started(d1, Complete)
  }

  // A successful or failed EPOLL_CTL_MOD, when one is issued.
  datatype Control = NoControl | Modified(interest: Events) | Failed

  datatype Finished = Finished(desc: Desc, outcome: Outcome, control: Control)

  /** The rest of start_op after `Hold(speculative)`. `modOk` says whether the
      EPOLL_CTL_MOD, if issued, succeeds. epoll_reactor.cc:205 reads `&=`; the
      evident intent, `|=`, is modelled here, the literal text below. */
  function StartFinish(d: Desc, j: Dir, speculative: bool, modOk: bool, u: nat): Finished
  {
    if d.registered == {} then
      Finished(d, Complete, NoControl)
    else if speculative then
      if j == WRITE && EpollOut !in d.registered then
        if modOk then
          Finished(Enqueue(d.(registered := d.registered + {EpollOut}), j, u), Queued,
                   Modified(d.registered + {EpollOut}))
        else
          Finished(d, Complete, Failed)
      else
        Finished(Enqueue(d, j, u), Queued, NoControl)
    else
      var d1 := if j == WRITE then d.(registered := d.registered + {EpollOut}) else d;
      Finished(Enqueue(d1, j, u), Queued,
               if modOk then Modified(d1.registered + {EpollOut}) else Failed)
  }

  /** start_op as a whole, with nobody in between. */
  function StartWhole(d: Desc, j: Dir, allow: bool, status: Status, modOk: bool, u: nat): Finished
  {
    var b := StartBegin(d, j, allow, status, u);
    if b.outcome.Hold? then StartFinish(b.desc, j, b.outcome.speculative, modOk, u)
    else Finished(b.desc, b.outcome, NoControl)
  }

  // ---- cancel_ops, deregister_descriptor ----

  // The cancelled operations in the order in which they reach the scheduler.
  function AllQueued(d: Desc): seq<nat> { d.queues[READ] + d.queues[WRITE] + d.queues[EXCEPT] }

  function Cancelled(d: Desc): Desc { d.(queues := NO_OPS) }

  // What the calls leave of a descriptor and return: `removed` when it is taken out
  // of epoll, `cleared` when only the caller's pointer is.
  predicate CancelOpsDoes(d: Desc, d': Desc, ops: seq<nat>)
  {
    d' == Cancelled(d) && ops == AllQueued(d)
  }

  predicate DeregisterDoes(d: Desc, closing: bool, d': Desc, ops: seq<nat>, removed: bool, cleared: bool)
  {
    if d.shutdown then d' == d && ops == [] && cleared && !removed
    else d' == Cancelled(d).(shutdown := true) && ops == AllQueued(d) && !cleared
         && removed == (!closing && d.registered != {})
  }

  // ---- perform_io ----

  // perform_io in progress: the directions below `left` remain, the current one
  // is `left - 1`, and `done` is io_cleanup.ops_.
  datatype Scan = Scan(desc: Desc, left: nat, done: seq<nat>)

  function Enter(d: Desc, events: Events, left: nat): Desc
  {
    if 0 < left <= 3 && Selects(events, left - 1) then d.(speculative := d.speculative[left - 1 := true]) else d
  }

  function ScanBegin(d: Desc, events: Events): Scan { Scan(Enter(d, events, 3), 3, []) }

  function NextDirection(s: Scan, events: Events): Scan
    requires s.left > 0
  {
    Scan(Enter(s.desc, events, s.left - 1), s.left - 1, s.done)
  }

  predicate Performs(s: Scan, events: Events)
    requires 0 < s.left <= 3
  {
    Selects(events, s.left - 1) && s.desc.queues[s.left - 1] != []
  }

  /** One turn of the inner loop of perform_io: at most one perform(), whose
      result is `status`. */
  function ScanStep(s: Scan, events: Events, status: Status): Scan
    requires 0 < s.left <= 3
  {
    var j: Dir := s.left - 1;
    if !Performs(s, events) || status.NotDone? then NextDirection(s, events)
    else
      var u := s.desc.queues[j][0];
      var d := LogPerformed(s.desc.(queues := s.desc.queues[j := s.desc.queues[j][1..]]), j, u);
      if status.Done? then Scan(d, s.left, s.done + [u])
      else NextDirection(Scan(d.(speculative := d.speculative[j := false]), s.left, s.done + [u]), events)
  }
}
