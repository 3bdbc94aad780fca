/** The messages of a scheduler thread and the verdicts of an executor iteration. */
module Messages {

  datatype Message =
    | SignalDone | Done | Exit | NotifyOutput | NotifyInput | NotifyAll | OtherAction
    | MsgPort | ParameterQuery | ParameterChange | OtherMessage

  /** The messages that make the worker call the executor. */
  predicate RequestsWork(m: Message) {
    m.Done? || m.NotifyOutput? || m.NotifyInput? || m.NotifyAll?
  }

  datatype Status = READY | READY_NO_OUTPUT | BLKD_IN | BLKD_OUT | DONE | MSG_ONLY

  /** What the thread tells the runtime monitor. */
  datatype Report = ReportDone | ReportFlushed

  /** The scheduler options the worker reads, and how many blocks its group has. */
  datatype Config = Config(flush: bool, flushCount: nat, blocks: nat)
}

/** The scheduler's worker thread as a step machine. Between any two of its atomic steps other threads
    may push messages, start the group, stop the thread or wake it for no reason. A step that is not
    enabled changes nothing, so every finite sequence of steps is a run. */
module Worker {
  import opened Messages

  /** Where the worker stands; the comments name the statement that comes next. */
  datatype Pc =
    | Gate                    // test of _ready_to_start, under _start_mutex
    | Asleep                  // waiting on _start_cv
    | Outer                   // test of the outer loop
    | Inner                   // test of the drain loop
    | Pop                     // blocking or non-blocking pop
    | Handle(msg: Message)    // the switch over the message
    | Drained                 // test of do_some_work
    | Call                    // run_one_iteration
    | Tell(status: Status)    // DONE to the monitor
    | Settle(status: Status)  // the flush protocol
    | Bottom(again: bool)     // update of blocking_queue
    | Exited

  /** How far the caller of start() has come. */
  datatype Starter = Starting(next: nat) | Opening | Signalling | Opened

  /** How far the caller of stop() has come. */
  datatype Stopper = Idle | Flagged | Joining | Joined

  /** What a step does that other threads, or the claims about a run, can tell. */
  datatype Event =
    | Silent
    | BlockStarted(index: nat)
    | GateOpened
    | Waits                   // a blocking pop begins
    | Popped(msg: Message)
    | Worked(status: Status)
    | Told(report: Report)    // a message to the runtime monitor
    | PassEnded
    | StopSet                 // d_thread_stopped turns true
    | Left                    // the outer loop is left

  datatype State = State(
    pc: Pc, queue: seq<Message>, stopped: bool, flushing: bool, flushCnt: nat,
    ready: bool, blocking: bool, valid: bool, doWork: bool,
    starter: Starter, stopper: Stopper)

  datatype Step =
    | WorkerStep(status: Status)  // the status is what run_one_iteration returns, if it is called
    | Push(msg: Message)
    | StartStep
    | StopStep
    | WakeUp                      // a spurious wake-up

  function Init(): State {
    State(Gate, [], false, false, 0, false, true, true, false, Starting(0), Idle)
  }

  function Enqueue(st: State, m: Message): State {
    st.(queue := st.queue + [m])
  }

  /** The switch over one message. */
  function HandleMessage(st: State, m: Message): State {
    match m
    case Done => Enqueue(st.(flushing := true, flushCnt := 0, doWork := true), NotifyAll)
    case Exit => st.(stopped := true)
    case NotifyOutput => st.(doWork := true)
    case NotifyInput => st.(doWork := true)
    case NotifyAll => st.(doWork := true)
    case _ => st
  }

  /** The flush protocol sends FLUSHED instead of another NOTIFY_ALL. */
  predicate ReportsFlushed(c: Config, st: State) {
    st.flushing && (!c.flush || st.flushCnt + 1 >= c.flushCount)
  }

  /** The flush protocol behind an iteration that returned `s`. */
  function Settled(c: Config, st: State, s: Status): State {
    if !st.flushing || !c.flush then st.(pc := Bottom(false))
    else if ReportsFlushed(c, st) then st.(pc := Bottom(false), flushCnt := st.flushCnt + 1)
    else
      Enqueue(st.(pc := Bottom(s.READY? || s.READY_NO_OUTPUT? || s.BLKD_OUT?), flushCnt := st.flushCnt + 1),
              NotifyAll)
  }

  /** The worker can take a step: it has not left, does not sleep and is not blocked on an empty queue. */
  predicate Enabled(st: State) {
    !st.pc.Exited? && !st.pc.Asleep? && !(st.pc.Pop? && st.blocking && st.queue == [])
  }

  function WorkerDo(c: Config, st: State, s: Status): State
    requires Enabled(st)
  {
    match st.pc
    case Gate => st.(pc := if st.ready then Outer else Asleep)
    case Outer => if st.stopped then st.(pc := Exited) else st.(pc := Inner, valid := true, doWork := false)
    case Inner => st.(pc := if st.valid && !st.stopped then Pop else Drained)
    case Pop =>
      if st.queue == [] then st.(pc := Inner, valid := false, blocking := false)
      else st.(pc := Handle(st.queue[0]), queue := st.queue[1..], valid := true, blocking := false)
    case Handle(m) => HandleMessage(st, m).(pc := Inner)
    case Drained => st.(pc := if st.doWork then Call else Bottom(false))
    case Call => st.(pc := Tell(s))
    case Tell(s') => st.(pc := Settle(s'))
    case Settle(s') => Settled(c, st, s')
    case Bottom(again) => st.(pc := Outer, blocking := !again || st.blocking)
  }

  function StartDo(c: Config, st: State): State {
    match st.starter
    case Starting(k) =>
      if k < c.blocks then st.(starter := Starting(k + 1)) else Enqueue(st.(starter := Opening), NotifyAll)
    case Opening => st.(starter := Signalling, ready := true)
    case Signalling => st.(starter := Opened, pc := if st.pc.Asleep? then Gate else st.pc)
    case Opened => st
  }

  function StopDo(st: State): State {
    match st.stopper
    case Idle => st.(stopper := Flagged, stopped := true)
    case Flagged => Enqueue(st.(stopper := Joining), Exit)
    case Joining => if st.pc.Exited? then st.(stopper := Joined) else st
    case Joined => st
  }

  function Do(c: Config, st: State, step: Step): State {
    match step
    case WorkerStep(s) => if Enabled(st) then WorkerDo(c, st, s) else st
    case Push(m) => Enqueue(st, m)
    case StartStep => StartDo(c, st)
    case StopStep => StopDo(st)
    case WakeUp => if st.pc.Asleep? then st.(pc := Gate) else st
  }

  /** What the worker's step from `st` shows. */
  function WorkerEmits(c: Config, st: State, s: Status): Event
    requires Enabled(st)
  {
    match st.pc
    case Outer => if st.stopped then Left else Silent
    case Inner => if st.valid && !st.stopped && st.blocking then Waits else Silent
    case Pop => if st.queue == [] then Silent else Popped(st.queue[0])
    case Handle(m) =>
      if m.SignalDone? then Told(ReportDone) else if m.Exit? && !st.stopped then StopSet else Silent
    case Call => Worked(s)
    case Tell(s') => if s'.DONE? then Told(ReportDone) else Silent
    case Settle(_) => if ReportsFlushed(c, st) then Told(ReportFlushed) else Silent
    case Bottom(_) => PassEnded
    case _ => Silent
  }

  /** What a step from `st` shows. */
  function Emits(c: Config, st: State, step: Step): Event {
    match step
    case WorkerStep(s) => if Enabled(st) then WorkerEmits(c, st, s) else Silent
    case StartStep =>
      if st.starter.Opening? then GateOpened
      else if st.starter.Starting? && st.starter.next < c.blocks then BlockStarted(st.starter.next)
      else Silent
    case StopStep => if st.stopper.Idle? && !st.stopped then StopSet else Silent
    case _ => Silent
  }

  /** The state that a sequence of steps leads to. */
  function Exec(c: Config, st: State, steps: seq<Step>): State {
    if steps == [] then st
    else Do(c, Exec(c, st, steps[..|steps| - 1]), steps[|steps| - 1])
  }

  /** The state behind a run from the beginning. */
  function After(c: Config, run: seq<Step>): State {
    Exec(c, Init(), run)
  }

  /** What each step of a run shows. */
  function Trace(c: Config, run: seq<Step>): (h: seq<Event>)
    ensures |h| == |run|
  {
    if run == [] then []
    else
      var front := run[..|run| - 1];
      Trace(c, front) + [Emits(c, After(c, front), run[|run| - 1])]
  }

  lemma {:induction false} ExecConcat(c: Config, st: State, a: seq<Step>, b: seq<Step>)
    ensures Exec(c, st, a + b) == Exec(c, Exec(c, st, a), b)
  {
    if b == [] {
      assert a + b == a;
    } else {
      var front := b[..|b| - 1];
      assert (a + b)[..|a + b| - 1] == a + front;
      ExecConcat(c, st, a, front);
    }
  }

  /** The history of a run is the history of its beginning, extended. */
  lemma {:induction false} TracePrefix(c: Config, run: seq<Step>, n: nat)
    requires n <= |run|
    ensures Trace(c, run)[..n] == Trace(c, run[..n])
    ensures n < |run| ==> Trace(c, run)[n] == Emits(c, After(c, run[..n]), run[n])
  {
    if n == |run| {
      assert run[..n] == run;
      assert Trace(c, run)[..n] == Trace(c, run);
    } else {
      var front := run[..|run| - 1];
      TracePrefix(c, front, n);
      assert front[..n] == run[..n];
    }
  }
}
