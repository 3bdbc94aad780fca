/** The worker thread as it is written: an object whose fields the threads share, and the nested loops of its
    body. Every statement that reads or writes a shared field is one step of the machine in module Worker, so
    each call of ThreadBody is one of the runs that module WorkerTheorems speaks about. */
module ThreadWrapper {
  import opened Messages
  import opened Worker
  import opened WorkerInvariants
  import opened Widths
  import opened WorkerTheorems
  import opened WorkerProgress

  /** The reports among the events of a history, in order. */
  function Reports(h: seq<Event>): seq<Report> {
    if h == [] then []
    else
      var e := h[|h| - 1];
      Reports(h[..|h| - 1]) + if e.Told? then [e.report] else []
  }

  /** The steps of a run that are not the worker's. */
  function Others(run: seq<Step>): seq<Step> {
    if run == [] then []
    else
      var step := run[|run| - 1];
      Others(run[..|run| - 1]) + if step.WorkerStep? then [] else [step]
  }

  function Flat(agenda: seq<seq<Step>>): seq<Step> {
    if agenda == [] then [] else agenda[0] + Flat(agenda[1..])
  }

  /** How often the monitor has been told `r`. */
  function Tells(reports: seq<Report>, r: Report): nat {
    if reports == [] then 0 else Tells(reports[..|reports| - 1], r) + If(reports[|reports| - 1] == r)
  }

  lemma TellsOne(reports: seq<Report>, e: Report, r: Report)
    ensures Tells(reports + [e], r) == Tells(reports, r) + If(e == r)
  {
    assert (reports + [e])[..|reports + [e]| - 1] == reports;
  }

  /** The totals of a history count the reports. */
  lemma {:induction false} ReportsAreCounted(blocks: nat, h: seq<Event>)
    ensures Tells(Reports(h), ReportFlushed) == TallyOf(blocks, h).flushed
    ensures Tells(Reports(h), ReportDone) == TallyOf(blocks, h).saidDone
  {
    hide Tells;
    if h == [] {
      NoTells();
    } else {
      var front, e := h[..|h| - 1], h[|h| - 1];
      ReportsAreCounted(blocks, front);
      if e.Told? {
        TellsOne(Reports(front), e.report, ReportFlushed);
        TellsOne(Reports(front), e.report, ReportDone);
      } else {
        assert Reports(h) == Reports(front);
      }
    }
  }

  lemma NoTells()
    ensures forall r :: Tells([], r) == 0
  {
  }

  lemma {:induction false} OthersAreCounted(run: seq<Step>)
    ensures StartSteps(Others(run)) == StartSteps(run) && StopSteps(Others(run)) == StopSteps(run)
  {
    if run != [] {
      var front, step := run[..|run| - 1], run[|run| - 1];
      OthersAreCounted(front);
      if step.WorkerStep? {
        assert Others(run) == Others(front);
      } else {
        assert Others(run)[..|Others(run)| - 1] == Others(front);
      }
    }
  }

  /** What a thread at rest owes to nobody: every request popped has had its work call, and no call came without
      one; every DONE due has been told, and for every DONE popped every FLUSHED due. */
  ghost predicate Accounted(c: Config, run: seq<Step>, monitor: seq<Report>, iterations: nat) {
    var t := Totals(c, run);
    && (forall i :: 0 <= i < |run| && IsRequest(Trace(c, run)[i]) ==>
          exists k :: i < k < |run| && Trace(c, run)[k].Worked?)
    && iterations == Count(Trace(c, run), IsWork) <= Count(Trace(c, run), IsRequest)
    && Tells(monitor, ReportDone) == t.dueDone
    && Tells(monitor, ReportFlushed) == Earlier(c, run) + if t.dones == 0 then 0 else FlushedDue(c, t.doneWorks)
  }

  lemma RestIsAccounted(c: Config, run: seq<Step>)
    requires !Enabled(After(c, run))
    ensures Accounted(c, run, Reports(Trace(c, run)), Totals(c, run).works)
  {
    hide Tells; hide Reports; hide After; hide Trace; hide Earlier; hide FlushedDue; hide Count;
    hide GateInv; hide RequestInv; hide FlushInv; hide StopInv; hide PassInv;
    InvHolds(c, run);
    FlushedExactly(c, run);
    DoneReportsAddUp(c, run);
    WorkIsAskedFor(c, run);
    AllFlushes(c, run);
    DueFormula(c, Totals(c, run).doneWorks);
    ReportsAreCounted(c.blocks, Trace(c, run));
    TotalsCount(c.blocks, Trace(c, run));
    NothingPending(c, run);
    forall i | 0 <= i < |run| && IsRequest(Trace(c, run)[i])
      ensures exists k :: i < k < |run| && Trace(c, run)[k].Worked?
    {
      if forall k :: i < k < |run| ==> !Trace(c, run)[k].Worked? {
        RequestIsPending(c.blocks, Trace(c, run), i);
      }
    }
  }

  lemma NothingPending(c: Config, run: seq<Step>)
    requires !Enabled(After(c, run))
    ensures Totals(c, run).pending == 0
  {
    hide After; hide Totals;
    InvHolds(c, run);
  }

  /** A script with all of start() and the flag and EXIT of stop() leaves no thread at rest but one that has
      ended. */
  lemma WholeScriptEnds(c: Config, run: seq<Step>)
    requires StartSteps(Others(run)) >= c.blocks + 3 && StopSteps(Others(run)) >= 2
    requires !Enabled(After(c, run))
    ensures After(c, run).pc.Exited?
  {
    hide After; hide StartSteps; hide StopSteps; hide Others;
    OthersAreCounted(run);
    CallersProgress(c, run);
    InvHolds(c, run);
    if !After(c, run).pc.Exited? {
      StopNeverBlocks(c, run);
    }
  }

  lemma OthersOne(run: seq<Step>, step: Step)
    ensures Others(run + [step]) == Others(run) + if step.WorkerStep? then [] else [step]
  {
    assert (run + [step])[..|run + [step]| - 1] == run;
  }

  lemma ReportsOne(c: Config, run: seq<Step>, step: Step)
    ensures Reports(Trace(c, run + [step]))
         == Reports(Trace(c, run)) + var e := Emits(c, After(c, run), step); if e.Told? then [e.report] else []
  {
    assert (run + [step])[..|run + [step]| - 1] == run;
    var h := Trace(c, run + [step]);
    assert h[..|h| - 1] == Trace(c, run);
  }

  /** What only the worker changes is the same in both states; asleep it can only be woken. */
  predicate OnlyOthers(before: State, after: State) {
    && (after.pc == before.pc || (before.pc.Asleep? && after.pc.Gate?))
    && after.flushing == before.flushing && after.flushCnt == before.flushCnt
    && after.blocking == before.blocking && after.valid == before.valid && after.doWork == before.doWork
    && before.queue <= after.queue
    && (before.stopped ==> after.stopped) && (before.ready ==> after.ready)
  }

  /** Fewer things on the agenda, or as many and less fuel. */
  predicate Progress(agenda: nat, fuel: nat, agenda': nat, fuel': nat) {
    agenda' < agenda || (agenda' == agenda && fuel' < fuel)
  }

  lemma OtherStart(c: Config, st: State)
    ensures OnlyOthers(st, StartDo(c, st))
  {
    match st.starter
    case Starting(_) => OtherStarting(c, st);
    case _ =>
  }

  lemma OtherStarting(c: Config, st: State)
    requires st.starter.Starting?
    ensures OnlyOthers(st, StartDo(c, st))
  {
    hide OnlyOthers; hide Enqueue;
    OtherPush(st.(starter := Opening), NotifyAll);
    OtherCount(st, Starting(st.starter.next + 1));
    OtherCount(st, Opening);
    Chained(st, st.(starter := Opening), Enqueue(st.(starter := Opening), NotifyAll));
  }

  lemma OtherCount(st: State, starter: Starter)
    ensures OnlyOthers(st, st.(starter := starter))
  {
  }

  lemma Chained(a: State, b: State, d: State)
    requires OnlyOthers(a, b) && OnlyOthers(b, d)
    ensures OnlyOthers(a, d)
  {
  }

  lemma OtherPush(st: State, m: Message)
    ensures OnlyOthers(st, Enqueue(st, m))
  {
  }

  lemma OtherStop(st: State)
    ensures OnlyOthers(st, StopDo(st))
  {
    match st.stopper
    case Idle =>
    case Flagged =>
    case Joining =>
    case Joined =>
  }

  lemma OtherStep(c: Config, st: State, step: Step)
    requires !step.WorkerStep?
    ensures OnlyOthers(st, Do(c, st, step))
  {
    match step
    case StartStep => OtherStart(c, st);
    case StopStep => OtherStop(st);
    case _ =>
  }

  lemma CallsOnly(c: Config, st: State, s: Status)
    requires Enabled(st)
    ensures WorkerEmits(c, st, s).Worked? <==> st.pc.Call?
  {
  }

  /** The step that pushes another NOTIFY_ALL. */
  lemma SelfStep(c: Config, st: State, s: Status)
    requires st.pc == Pc.Settle(s) && st.flushing && !ReportsFlushed(c, st)
    ensures !WorkerEmits(c, st, READY).Told?
    ensures WorkerDo(c, st, READY) == Enqueue(
      st.(pc := Bottom(s.READY? || s.READY_NO_OUTPUT? || s.BLKD_OUT?), flushCnt := st.flushCnt + 1), NotifyAll)
  {
    hide Worker.HandleMessage;
  }

  class ThreadWrapper {
    const opts: Config

    // Shared with the other threads.
    var msgq: seq<Message>
    var stopped: bool
    var readyToStart: bool
    var asleep: bool            // the worker waits on _start_cv
    var left: bool              // the worker's thread has ended
    var monitor: seq<Report>    // what the runtime monitor has been sent
    var starter: Starter
    var stopper: Stopper

    // The worker's own.
    var iterations: nat         // calls of run_one_iteration
    var flushing: bool
    var flushCnt: nat

    /** What the other threads do between one step of the worker and the next. */
    var agenda: seq<seq<Step>>

    ghost var run: seq<Step>
    ghost var st: State

    /** The fields are those of the machine behind the run so far. */
    ghost predicate Valid()
      reads this
    {
      && st == After(opts, run)
      && msgq == st.queue && stopped == st.stopped && readyToStart == st.ready
      && asleep == st.pc.Asleep? && left == st.pc.Exited?
      && flushing == st.flushing && flushCnt == st.flushCnt
      && starter == st.starter && stopper == st.stopper
      && monitor == Reports(Trace(opts, run)) && iterations == Totals(opts, run).works
      && (forall i, j :: 0 <= i < |agenda| && 0 <= j < |agenda[i]| ==> !agenda[i][j].WorkerStep?)
    }

    /** What the other threads have done and are still to do. */
    ghost function Script(): seq<Step>
      reads this
    {
      Others(run) + Flat(agenda)
    }

    constructor (opts: Config, agenda: seq<seq<Step>>)
      requires forall i, j :: 0 <= i < |agenda| && 0 <= j < |agenda[i]| ==> !agenda[i][j].WorkerStep?
      ensures Valid() && st == Init() && run == []
      ensures this.opts == opts && this.agenda == agenda && Script() == Flat(agenda)
    {
      this.opts := opts;
      msgq, stopped, readyToStart, asleep, left, monitor := [], false, false, false, false, [];
      starter, stopper := Starting(0), Idle;
      flushing, flushCnt, iterations := false, 0, 0;
      this.agenda := agenda;
      run, st := [], Init();
    }

    /** One more step of the machine. */
    ghost method Record(step: Step)
      requires st == After(opts, run)
      modifies `run, `st
      ensures run == old(run) + [step] && st == After(opts, run) && st == Do(opts, old(st), step)
      ensures var e := Emits(opts, old(st), step);
        Reports(Trace(opts, run)) == Reports(Trace(opts, old(run))) + if e.Told? then [e.report] else []
      ensures Totals(opts, run).works == Totals(opts, old(run)).works + If(Emits(opts, old(st), step).Worked?)
      ensures Others(run) == Others(old(run)) + if step.WorkerStep? then [] else [step]
    {
      OneMore(opts, run, step);
      ReportsOne(opts, run, step);
      OthersOne(run, step);
      run := run + [step];
      st := After(opts, run);
    }

    // ---- The other threads ----

    /** What no other thread touches: what the monitor has been told, and the calls of run_one_iteration. */
    twostate predicate OthersOnly()
      reads this
    {
      monitor == old(monitor) && iterations == old(iterations)
    }

    method PushMessage(m: Message)
      requires Valid()
      modifies this
      ensures Valid() && OthersOnly() && run == old(run) + [Push(m)] && agenda == old(agenda)
      ensures Others(run) == Others(old(run)) + [Push(m)]
      ensures msgq == old(msgq) + [m] && st == Enqueue(old(st), m)
    {
      hide After; hide Trace; hide Reports; hide Totals;
      msgq := msgq + [m];
      Record(Push(m));
    }

    /** start() starts one more block. */
    method StartBlock()
      requires Valid() && starter.Starting? && starter.next < opts.blocks
      modifies this
      ensures Valid() && OthersOnly() && st == Do(opts, old(st), StartStep) && agenda == old(agenda)
      ensures Others(run) == Others(old(run)) + [StartStep]
      ensures starter == Starting(old(starter.next) + 1) && msgq == old(msgq) && monitor == old(monitor)
    {
      hide After; hide Trace; hide Reports; hide Totals;
      starter := Starting(starter.next + 1);
      Record(StartStep);
    }

    /** start() pushes its NOTIFY_ALL. */
    method PushStart()
      requires Valid() && starter.Starting? && starter.next >= opts.blocks
      modifies this
      ensures Valid() && OthersOnly() && st == Do(opts, old(st), StartStep) && agenda == old(agenda)
      ensures Others(run) == Others(old(run)) + [StartStep]
      ensures starter.Opening? && msgq == old(msgq) + [NotifyAll] && monitor == old(monitor)
    {
      hide After; hide Trace; hide Reports; hide Totals;
      msgq := msgq + [NotifyAll];
      starter := Opening;
      Record(StartStep);
    }

    /** start() sets _ready_to_start. */
    method OpenGate()
      requires Valid() && starter.Opening?
      modifies this
      ensures Valid() && OthersOnly() && st == Do(opts, old(st), StartStep) && agenda == old(agenda)
      ensures Others(run) == Others(old(run)) + [StartStep]
      ensures starter.Signalling? && readyToStart && msgq == old(msgq) && monitor == old(monitor)
    {
      hide After; hide Trace; hide Reports; hide Totals;
      readyToStart := true;
      starter := Signalling;
      Record(StartStep);
    }

    /** start() notifies _start_cv. */
    method SignalGate()
      requires Valid() && starter.Signalling?
      modifies this
      ensures Valid() && OthersOnly() && st == Do(opts, old(st), StartStep) && agenda == old(agenda)
      ensures Others(run) == Others(old(run)) + [StartStep]
      ensures starter.Opened? && !asleep && readyToStart == old(readyToStart)
      ensures msgq == old(msgq) && monitor == old(monitor)
    {
      hide After; hide Trace; hide Reports; hide Totals;
      asleep := false;
      starter := Opened;
      Record(StartStep);
    }

    /** stop() sets d_thread_stopped. */
    method FlagStop()
      requires Valid() && stopper.Idle?
      modifies this
      ensures Valid() && OthersOnly() && st == Do(opts, old(st), StopStep) && agenda == old(agenda)
      ensures Others(run) == Others(old(run)) + [StopStep]
      ensures stopper.Flagged? && stopped && msgq == old(msgq)
    {
      hide After; hide Trace; hide Reports; hide Totals;
      stopped := true;
      stopper := Flagged;
      Record(StopStep);
    }

    /** kill(), called by anybody at any time: an EXIT in the queue and nothing else. */
    method Kill()
      requires Valid()
      modifies this
      ensures Valid() && OthersOnly() && run == old(run) + [Push(Exit)] && agenda == old(agenda)
      ensures msgq == old(msgq) + [Exit] && st == Enqueue(old(st), Exit)
    {
      PushMessage(Exit);
    }

    /** The kill() in stop(). */
    method KillToStop()
      requires Valid() && stopper.Flagged?
      modifies this
      ensures Valid() && OthersOnly() && st == Do(opts, old(st), StopStep) && agenda == old(agenda)
      ensures run == old(run) + [StopStep] && Others(run) == Others(old(run)) + [StopStep]
      ensures stopper.Joining? && msgq == old(msgq) + [Exit]
    {
      hide After; hide Trace; hide Reports; hide Totals;
      msgq := msgq + [Exit];
      stopper := Joining;
      Record(StopStep);
    }

    /** A spurious wake-up of _start_cv. */
    method WakeUpForNoReason()
      requires Valid()
      modifies this
      ensures Valid() && OthersOnly() && st == Do(opts, old(st), WakeUp) && agenda == old(agenda)
      ensures Others(run) == Others(old(run)) + [WakeUp]
    {
      hide After; hide Trace; hide Reports; hide Totals;
      asleep := false;
      Record(WakeUp);
    }

    /** The join in stop() returns once the thread has ended. */
    method Join()
      requires Valid() && stopper.Joining?
      modifies this
      ensures Valid() && OthersOnly() && st == Do(opts, old(st), StopStep) && agenda == old(agenda)
      ensures Others(run) == Others(old(run)) + [StopStep]
      ensures (stopper.Joined? <==> left) && left == old(left) && msgq == old(msgq)
    {
      hide After; hide Trace; hide Reports; hide Totals;
      if left {
        stopper := Joined;
      }
      Record(StopStep);
    }

    method PerformStart()
      requires Valid()
      modifies this
      ensures Valid() && OthersOnly() && st == Do(opts, old(st), StartStep) && agenda == old(agenda)
      ensures Others(run) == Others(old(run)) + [StartStep]
    {
      match starter {
        case Starting(k) =>
          if k < opts.blocks {
            StartBlock();
          } else {
            PushStart();
          }
        case Opening => OpenGate();
        case Signalling => SignalGate();
        case Opened => Record(StartStep);
      }
    }

    method PerformStop()
      requires Valid()
      modifies this
      ensures Valid() && OthersOnly() && st == Do(opts, old(st), StopStep) && agenda == old(agenda)
      ensures Others(run) == Others(old(run)) + [StopStep]
    {
      match stopper {
        case Idle => FlagStop();
        case Flagged => KillToStop();
        case Joining => Join();
        case Joined => Record(StopStep);
      }
    }

    method Perform(step: Step)
      requires Valid() && !step.WorkerStep?
      modifies this
      ensures Valid() && OthersOnly() && st == Do(opts, old(st), step) && agenda == old(agenda)
      ensures Others(run) == Others(old(run)) + [step]
    {
      match step {
        case Push(m) => PushMessage(m);
        case StartStep => PerformStart();
        case StopStep => PerformStop();
        case WakeUp => WakeUpForNoReason();
      }
    }

    method PerformAll(steps: seq<Step>)
      requires Valid() && forall j :: 0 <= j < |steps| ==> !steps[j].WorkerStep?
      modifies this
      ensures Valid() && OthersOnly() && agenda == old(agenda)
      ensures Others(run) == Others(old(run)) + steps
      ensures OnlyOthers(old(st), st)
    {
      hide After; hide Trace; hide Reports; hide Totals; hide Others; hide Do;
      for i := 0 to |steps|
        invariant Valid() && OthersOnly() && agenda == old(agenda)
        invariant Others(run) == Others(old(run)) + steps[..i]
        invariant OnlyOthers(old(st), st)
      {
        ghost var before := st;
        Perform(steps[i]);
        OtherStep(opts, before, steps[i]);
        assert steps[..i + 1] == steps[..i] + [steps[i]];
      }
      assert steps[..|steps|] == steps;
    }

    /** The worker is preempted: the other threads do what comes next on their agenda. */
    method Interfere()
      requires Valid()
      modifies this
      ensures Valid() && OthersOnly() && Script() == old(Script())
      ensures if old(agenda) == [] then agenda == [] && st == old(st) else |agenda| < |old(agenda)|
      ensures OnlyOthers(old(st), st)
    {
      hide After; hide Trace; hide Reports; hide Totals; hide Others; hide Do;
      if agenda != [] {
        var steps := agenda[0];
        agenda := agenda[1..];
        PerformAll(steps);
      }
    }

    // ---- The worker ----

    /** The method made exactly one step of the worker: the one the machine takes. */
    twostate predicate Stepped(s: Status)
      requires Enabled(old(st))
      reads this
    {
      && Valid() && st == WorkerDo(opts, old(st), s)
      && agenda == old(agenda) && Others(run) == Others(old(run))
      && Fuel(opts, st) < old(Fuel(opts, st))
      && iterations == old(iterations) + If(old(st).pc.Call?)
    }

    ghost method RecordWork(s: Status)
      requires st == After(opts, run) && Enabled(st)
      modifies `run, `st
      ensures st == After(opts, run) && st == WorkerDo(opts, old(st), s)
      ensures var e := WorkerEmits(opts, old(st), s);
        Reports(Trace(opts, run)) == Reports(Trace(opts, old(run))) + if e.Told? then [e.report] else []
      ensures Totals(opts, run).works == Totals(opts, old(run)).works + If(old(st).pc.Call?)
      ensures Others(run) == Others(old(run))
      ensures Fuel(opts, st) < old(Fuel(opts, st))
    {
      CallsOnly(opts, st, s);
      hide After; hide Trace; hide Reports; hide Totals; hide Fuel; hide WorkerDo; hide WorkerEmits;
      InvHolds(opts, run);
      FuelBurns(opts, st, s);
      Record(WorkerStep(s));
    }

    /** The predicate of _start_cv, and falling asleep when it does not hold. */
    method TestGate() returns (open: bool)
      requires Valid() && st.pc.Gate?
      modifies this
      ensures Stepped(READY) && open == old(readyToStart)
      ensures st.pc == (if open then Outer else Asleep) && st.blocking == old(st.blocking)
    {
      hide After; hide Trace; hide Reports; hide Totals; hide Fuel;
      open := readyToStart;
      asleep := !open;
      RecordWork(READY);
    }

    /** The test of the outer loop, and the end of the thread when it fails. */
    method TestStopped() returns (stop: bool)
      requires Valid() && st.pc.Outer?
      modifies this
      ensures Stepped(READY) && stop == old(stopped)
      ensures st.pc == (if stop then Exited else Inner) && st.blocking == old(st.blocking)
      ensures !stop ==> st.valid && !st.doWork
    {
      hide After; hide Trace; hide Reports; hide Totals; hide Fuel;
      stop := stopped;
      left := stop;
      RecordWork(READY);
    }

    /** The test of the drain loop. */
    method TestDrain(valid: bool) returns (go: bool)
      requires Valid() && st.pc.Inner? && st.valid == valid
      modifies this
      ensures Stepped(READY) && go == (valid && !old(stopped))
      ensures st.pc == (if go then Pop else Drained) && st.blocking == old(st.blocking) && st.doWork == old(st.doWork)
    {
      hide After; hide Trace; hide Reports; hide Totals; hide Fuel;
      go := valid && !stopped;
      RecordWork(READY);
    }

    /** pop_message, which must not find the queue empty, or pop_message_nonblocking. */
    method PopMessage() returns (valid: bool, msg: Message)
      requires Valid() && st.pc.Pop? && Enabled(st)
      modifies this
      ensures Stepped(READY)
      ensures valid == (old(msgq) != [])
      ensures valid ==> msg == old(msgq)[0] && msgq == old(msgq)[1..] && st.pc == Handle(msg) && st.valid
      ensures !st.blocking && st.doWork == old(st.doWork)
      ensures !valid ==> st.pc.Inner? && !st.valid
    {
      hide After; hide Trace; hide Reports; hide Totals; hide Fuel;
      if msgq == [] {
        valid, msg := false, OtherMessage;
      } else {
        valid, msg := true, msgq[0];
        msgq := msgq[1..];
      }
      RecordWork(READY);
    }

    /** start_flushing, on the DONE at hand. */
    method StartFlushing()
      requires Valid() && Handles(st.pc, Done)
      modifies this
      ensures Stepped(READY)
      ensures flushing && flushCnt == 0 && msgq == old(msgq) + [NotifyAll]
      ensures st.pc.Inner? && st.valid == old(st.valid) && st.blocking == old(st.blocking)
      ensures st.doWork && monitor == old(monitor) && stopped == old(stopped)
    {
      hide After; hide Trace; hide Reports; hide Totals; hide Fuel;
      flushing := true;
      flushCnt := 0;
      msgq := msgq + [NotifyAll];
      RecordWork(READY);
    }

    method SignalDone()
      requires Valid() && Handles(st.pc, Message.SignalDone)
      modifies this
      ensures Stepped(READY)
      ensures monitor == old(monitor) + [ReportDone]
      ensures st.pc.Inner? && st.valid == old(st.valid) && st.blocking == old(st.blocking)
      ensures st.doWork == old(st.doWork) && msgq == old(msgq) && stopped == old(stopped)
      ensures flushing == old(flushing) && flushCnt == old(flushCnt)
    {
      hide After; hide Trace; hide Reports; hide Totals; hide Fuel;
      monitor := monitor + [ReportDone];
      RecordWork(READY);
    }

    method StopOnExit()
      requires Valid() && Handles(st.pc, Exit)
      modifies this
      ensures Stepped(READY)
      ensures stopped
      ensures st.pc.Inner? && st.valid == old(st.valid) && st.blocking == old(st.blocking)
      ensures st.doWork == old(st.doWork) && msgq == old(msgq) && monitor == old(monitor)
      ensures flushing == old(flushing) && flushCnt == old(flushCnt)
    {
      hide After; hide Trace; hide Reports; hide Totals; hide Fuel;
      stopped := true;
      RecordWork(READY);
    }

    /** NOTIFY_INPUT, NOTIFY_OUTPUT and NOTIFY_ALL only ask for work, the other messages for nothing here. */
    method Pass(msg: Message)
      requires Valid() && Handles(st.pc, msg) && !msg.SignalDone? && !msg.Done? && !msg.Exit?
      modifies this
      ensures Stepped(READY)
      ensures msgq == old(msgq) && monitor == old(monitor) && stopped == old(stopped)
      ensures st.pc.Inner? && st.valid == old(st.valid) && st.blocking == old(st.blocking)
      ensures st.doWork == (old(st.doWork) || RequestsWork(msg))
      ensures flushing == old(flushing) && flushCnt == old(flushCnt)
    {
      hide After; hide Trace; hide Reports; hide Totals; hide Fuel;
      RecordWork(READY);
    }

    /** The switch over the message at hand; `asked` tells whether it asks for work. */
    method HandleMessage(msg: Message) returns (asked: bool)
      requires Valid() && Handles(st.pc, msg)
      modifies this
      ensures Stepped(READY)
      ensures asked <==> msg.Done? || msg.NotifyOutput? || msg.NotifyInput? || msg.NotifyAll?
      ensures monitor == old(monitor) + if msg.SignalDone? then [ReportDone] else []
      ensures msgq == old(msgq) + if msg.Done? then [NotifyAll] else []
      ensures stopped == (old(stopped) || msg.Exit?) && flushing == (old(flushing) || msg.Done?)
      ensures flushCnt == if msg.Done? then 0 else old(flushCnt)
      ensures st.pc.Inner? && st.valid == old(st.valid) && st.blocking == old(st.blocking)
      ensures st.doWork == (old(st.doWork) || asked)
    {
      hide After; hide Trace; hide Reports; hide Totals; hide Fuel; hide WorkerDo;
      asked := RequestsWork(msg);
      if msg.SignalDone? {
        SignalDone();
      } else if msg.Done? {
        StartFlushing();
      } else if msg.Exit? {
        StopOnExit();
      } else {
        Pass(msg);
      }
    }

    /** run_one_iteration: what it returns is up to the blocks. */
    method RunIteration(result: Status)
      requires Valid() && st.pc.Call?
      modifies this
      ensures Stepped(result) && st.pc == Tell(result) && st.blocking == old(st.blocking)
      ensures iterations == old(iterations) + 1 && monitor == old(monitor)
      ensures flushing == old(flushing) && flushCnt == old(flushCnt)
    {
      hide After; hide Trace; hide Reports; hide Totals; hide Fuel;
      iterations := iterations + 1;
      RecordWork(result);
    }

    /** DONE to the monitor, when the iteration returned it. */
    method TellDone(s: Status)
      requires Valid() && st.pc == Tell(s)
      modifies this
      ensures Stepped(READY) && st.pc == Pc.Settle(s) && st.blocking == old(st.blocking)
      ensures monitor == old(monitor) + if s.DONE? then [ReportDone] else []
      ensures flushing == old(flushing) && flushCnt == old(flushCnt)
    {
      hide After; hide Trace; hide Reports; hide Totals; hide Fuel;
      if s.DONE? {
        monitor := monitor + [ReportDone];
      }
      RecordWork(READY);
    }

    /** FLUSHED to the monitor. */
    method ReportFlush(s: Status)
      requires Valid() && st.pc == Pc.Settle(s) && ReportsFlushed(opts, st)
      modifies this
      ensures Stepped(READY) && st.pc == Bottom(false) && st.blocking == old(st.blocking)
      ensures flushing && flushCnt == old(flushCnt) + If(opts.flush)
      ensures monitor == old(monitor) + [ReportFlushed] && msgq == old(msgq)
    {
      hide After; hide Trace; hide Reports; hide Totals; hide Fuel;
      if opts.flush {
        flushCnt := flushCnt + 1;
      }
      monitor := monitor + [ReportFlushed];
      RecordWork(READY);
    }

    /** Another NOTIFY_ALL to the thread itself. */
    method NotifySelf(s: Status) returns (again: bool)
      requires Valid() && st.pc == Pc.Settle(s) && flushing && !ReportsFlushed(opts, st)
      modifies this
      ensures Stepped(READY) && st.pc == Bottom(again) && st.blocking == old(st.blocking)
      ensures flushing && flushCnt == old(flushCnt) + 1
      ensures again <==> s.READY? || s.READY_NO_OUTPUT? || s.BLKD_OUT?
      ensures monitor == old(monitor) && msgq == old(msgq) + [NotifyAll]
    {
      hide After; hide Trace; hide Reports; hide Totals; hide Fuel;
      hide WorkerDo; hide WorkerEmits;
      SelfStep(opts, st, s);
      flushCnt := flushCnt + 1;
      again := s.READY? || s.READY_NO_OUTPUT? || s.BLKD_OUT?;
      msgq := msgq + [NotifyAll];
      RecordWork(READY);
    }

    method DoNotFlush(s: Status)
      requires Valid() && st.pc == Pc.Settle(s) && !flushing
      modifies this
      ensures Stepped(READY) && st.pc == Bottom(false) && st.blocking == old(st.blocking)
      ensures !flushing && flushCnt == old(flushCnt) && monitor == old(monitor) && msgq == old(msgq)
    {
      hide After; hide Trace; hide Reports; hide Totals; hide Fuel;
      RecordWork(READY);
    }

    /** The flush protocol; `again` is what handle_work_notification returns. */
    method Settle(s: Status) returns (again: bool)
      requires Valid() && st.pc == Pc.Settle(s)
      modifies this
      ensures Stepped(READY) && st.pc == Bottom(again) && st.blocking == old(st.blocking)
      ensures flushing == old(flushing)
      ensures again <==> flushing && opts.flush && flushCnt < opts.flushCount
                         && (s.READY? || s.READY_NO_OUTPUT? || s.BLKD_OUT?)
      ensures var report := flushing && (!opts.flush || flushCnt >= opts.flushCount);
        && flushCnt == old(flushCnt) + If(flushing && opts.flush)
        && monitor == old(monitor) + (if report then [ReportFlushed] else [])
        && msgq == old(msgq) + (if flushing && !report then [NotifyAll] else [])
    {
      hide After; hide Trace; hide Reports; hide Totals; hide Fuel; hide WorkerDo;
      again := false;
      if !flushing {
        DoNotFlush(s);
      } else if !opts.flush || flushCnt + 1 >= opts.flushCount {
        ReportFlush(s);
      } else {
        again := NotifySelf(s);
      }
    }

    /** One iteration and what follows from its result, with the other threads in between. */
    method HandleWorkNotification(result: Status) returns (again: bool)
      requires Valid() && st.pc.Call?
      modifies this
      ensures Valid() && Script() == old(Script())
      ensures st.pc == Bottom(again) && st.blocking == old(st.blocking)
      ensures iterations == old(iterations) + 1
      ensures flushing == old(flushing) && flushCnt == old(flushCnt) + If(flushing && opts.flush)
      ensures again <==> flushing && opts.flush && flushCnt < opts.flushCount
                         && (result.READY? || result.READY_NO_OUTPUT? || result.BLKD_OUT?)
      ensures var report := flushing && (!opts.flush || flushCnt >= opts.flushCount);
        monitor == old(monitor) + (if result.DONE? then [ReportDone] else [])
                                + (if report then [ReportFlushed] else [])
      ensures Progress(|old(agenda)|, old(Fuel(opts, st)), |agenda|, Fuel(opts, st))
    {
      hide After; hide Trace; hide Reports; hide Totals; hide Fuel; hide WorkerDo;
      RunIteration(result);
      Interfere();
      TellDone(result);
      Interfere();
      again := Settle(result);
    }

    /** The test of do_some_work. */
    method TestWork(doWork: bool)
      requires Valid() && st.pc.Drained? && st.doWork == doWork
      modifies this
      ensures Stepped(READY)
      ensures st.pc == (if doWork then Call else Bottom(false)) && st.blocking == old(st.blocking)
    {
      hide After; hide Trace; hide Reports; hide Totals; hide Fuel;
      RecordWork(READY);
    }

    /** The end of a pass. */
    method EndPass(again: bool, blocking: bool) returns (blocking': bool)
      requires Valid() && st.pc == Bottom(again) && st.blocking == blocking
      modifies this
      ensures Stepped(READY)
      ensures st.pc.Outer? && st.blocking == blocking' == (!again || blocking)
    {
      hide After; hide Trace; hide Reports; hide Totals; hide Fuel;
      blocking' := !again || blocking;
      RecordWork(READY);
    }

    /** Wait on _start_cv until _ready_to_start; false when the agenda ends before that. */
    method WaitForStart() returns (open: bool)
      requires Valid() && st.pc.Gate?
      modifies this
      ensures Valid() && Script() == old(Script()) && st.blocking == old(st.blocking)
      ensures if open then st.pc.Outer? else st.pc.Asleep? && agenda == []
      ensures |agenda| <= |old(agenda)|
    {
      hide After; hide Trace; hide Reports; hide Totals; hide Fuel; hide WorkerDo;
      open := TestGate();
      while !open
        invariant Valid() && Script() == old(Script()) && st.blocking == old(st.blocking)
        invariant st.pc == if open then Outer else Asleep
        invariant |agenda| <= |old(agenda)|
        decreases |agenda|, if open then 0 else 1
      {
        if agenda == [] {
          return;
        }
        Interfere();
        if !asleep {
          open := TestGate();
        }
      }
    }

    /** pop_message: blocks while the queue is empty; false when the agenda ends before a message arrives. */
    method AwaitMessage() returns (arrived: bool)
      requires Valid() && st.pc.Pop? && st.blocking
      modifies this
      ensures Valid() && Script() == old(Script())
      ensures st.pc.Pop? && st.blocking && st.valid == old(st.valid) && st.doWork == old(st.doWork)
      ensures if arrived then msgq != [] else msgq == [] && agenda == []
      ensures |agenda| < |old(agenda)| || (agenda == old(agenda) && st == old(st))
    {
      hide After; hide Trace; hide Reports; hide Totals; hide Fuel; hide WorkerDo;
      while msgq == []
        invariant Valid() && Script() == old(Script())
        invariant st.pc.Pop? && st.blocking && st.valid == old(st.valid) && st.doWork == old(st.doWork)
        invariant |agenda| < |old(agenda)| || (agenda == old(agenda) && st == old(st))
        decreases |agenda|
      {
        if agenda == [] {
          return false;
        }
        Interfere();
      }
      arrived := true;
    }

    /** One pop, and what to do about the message. */
    method PopAndHandle() returns (valid: bool, asked: bool)
      requires Valid() && st.pc.Pop? && Enabled(st)
      modifies this
      ensures Valid() && Script() == old(Script())
      ensures st.pc.Inner? && !st.blocking && st.valid == valid && st.doWork == (old(st.doWork) || asked)
      ensures Progress(|old(agenda)|, old(Fuel(opts, st)), |agenda|, Fuel(opts, st))
    {
      hide After; hide Trace; hide Reports; hide Totals; hide Fuel; hide WorkerDo;
      var msg;
      asked := false;
      valid, msg := PopMessage();
      Interfere();
      if valid {
        asked := HandleMessage(msg);
        Interfere();
      }
    }

    /** The drain loop: pops and handles messages until a non-blocking pop finds none or the stop flag is set.
        `rest` tells that a blocking pop waits and the agenda has ended. */
    method Drain(blocking: bool) returns (doWork: bool, blocking': bool, rest: bool)
      requires Valid() && st.pc.Inner? && st.valid && !st.doWork && st.blocking == blocking
      modifies this
      ensures Valid() && Script() == old(Script())
      ensures if rest then !Enabled(st) && agenda == []
              else st.pc.Drained? && st.doWork == doWork && st.blocking == blocking'
      ensures !rest ==> Progress(|old(agenda)|, old(Fuel(opts, st)), |agenda|, Fuel(opts, st))
    {
      hide After; hide Trace; hide Reports; hide Totals; hide Fuel; hide WorkerDo;
      doWork, blocking', rest := false, blocking, false;
      var valid, go := true, true;
      go := TestDrain(valid);
      while go
        invariant Valid() && Script() == old(Script())
        invariant st.pc == if go then Pop else Drained
        invariant st.doWork == doWork && st.blocking == blocking'
        invariant Progress(|old(agenda)|, old(Fuel(opts, st)), |agenda|, Fuel(opts, st))
        decreases |agenda|, Fuel(opts, st)
      {
        Interfere();
        if blocking' {
          var arrived := AwaitMessage();
          if !arrived {
            rest := true;
            return;
          }
        }
        blocking' := false;
        var asked;
        valid, asked := PopAndHandle();
        doWork := doWork || asked;
        go := TestDrain(valid);
      }
    }

    /** One pass of the outer loop. */
    method MakePass(blocking: bool, results: nat -> Status) returns (blocking': bool, rest: bool)
      requires Valid() && st.pc.Inner? && st.valid && !st.doWork && st.blocking == blocking
      modifies this
      ensures Valid() && Script() == old(Script())
      ensures if rest then !Enabled(st) && agenda == [] else st.pc.Outer? && st.blocking == blocking'
      ensures !rest ==> Progress(|old(agenda)|, old(Fuel(opts, st)), |agenda|, Fuel(opts, st))
    {
      hide After; hide Trace; hide Reports; hide Totals; hide Fuel; hide WorkerDo;
      var doWork;
      doWork, blocking', rest := Drain(blocking);
      if rest {
        return;
      }
      Interfere();
      TestWork(doWork);
      var again := false;
      if doWork {
        Interfere();
        again := HandleWorkNotification(results(iterations));
      }
      Interfere();
      blocking' := EndPass(again, blocking');
    }

    /** The thread's body, for every agenda of the other threads and whatever the iterations return: it goes
        through a run of the machine and comes to an end only by leaving the loop or, with the agenda at its
        end, where the machine has no step to take. Every step of the agenda is in the run, in order, or still
        to come. */
    method ThreadBody(results: nat -> Status)
      requires Valid() && st.pc.Gate? && st.blocking
      modifies this
      ensures Valid() && Script() == old(Script())
      ensures !Enabled(st) && (st.pc.Exited? || agenda == [])
      ensures StartSteps(Script()) >= opts.blocks + 3 && StopSteps(Script()) >= 2 ==> left
      ensures Accounted(opts, run, monitor, iterations)
    {
      RunThread(results);
      RestIsAccounted(opts, run);
      if StartSteps(Script()) >= opts.blocks + 3 && StopSteps(Script()) >= 2 && agenda == [] {
        assert Script() == Others(run);
        WholeScriptEnds(opts, run);
      }
    }

    /** Gate and loops. */
    method RunThread(results: nat -> Status)
      requires Valid() && st.pc.Gate? && st.blocking
      modifies this
      ensures Valid() && Script() == old(Script())
      ensures !Enabled(st) && (st.pc.Exited? || agenda == [])
    {
      hide After; hide Trace; hide Reports; hide Totals; hide Fuel; hide WorkerDo;
      Interfere();
      var open := WaitForStart();
      if !open {
        return;
      }
      var blocking, rest := true, false;
      Interfere();
      var stop := TestStopped();
      while !stop
        invariant Valid() && Script() == old(Script())
        invariant if stop then st.pc.Exited? else st.pc.Inner? && st.valid && !st.doWork && st.blocking == blocking
        decreases |agenda|, Fuel(opts, st), if stop then 0 else 1
      {
        Interfere();
        blocking, rest := MakePass(blocking, results);
        if rest {
          return;
        }
        Interfere();
        stop := TestStopped();
      }
    }

    // ---- start() and stop(), undisturbed ----

    /** start(): starts every block, pushes a NOTIFY_ALL, then opens the gate and wakes the worker. */
    method Start()
      requires Valid() && starter == Starting(0)
      modifies this
      ensures Valid() && starter.Opened? && readyToStart && !asleep
      ensures msgq == old(msgq) + [NotifyAll] && monitor == old(monitor)
      ensures Others(run) == Others(old(run)) + seq(opts.blocks + 3, _ => StartStep)
    {
      hide After; hide Trace; hide Reports; hide Totals;
      for k := 0 to opts.blocks
        invariant Valid() && starter == Starting(k) && msgq == old(msgq) && monitor == old(monitor)
        invariant Others(run) == Others(old(run)) + seq(k, _ => StartStep)
      {
        StartBlock();
      }
      PushStart();
      OpenGate();
      SignalGate();
    }

    /** stop() up to its join: sets the stop flag and pushes an EXIT. */
    method Stop()
      requires Valid() && stopper.Idle?
      modifies this
      ensures Valid() && stopper.Joining? && stopped && msgq == old(msgq) + [Exit]
      ensures Others(run) == Others(old(run)) + [StopStep, StopStep]
    {
      FlagStop();
      KillToStop();
    }
  }
}
