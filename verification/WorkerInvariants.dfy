/** What every step of the worker, and of the threads around it, keeps. */
module WorkerInvariants {
  import opened Messages
  import opened Worker
  import opened Widths

  /** Running totals of a history. */
  datatype Tally = Tally(
    started: nat,          // blocks started
    pops: nat,             // messages popped
    requests: nat,         // popped messages that request work
    pending: nat,          // of these, the ones behind the last work call
    works: nat,            // work calls
    passes: nat,           // completed passes of the outer loop
    lost: nat,             // blocking pops and exits with a request pending
    early: nat,            // pops and work calls before every block was started
    notifyAlls: nat,       // popped NOTIFY_ALL
    dones: nat,            // popped DONE
    doneWorks: nat,        // work calls behind the last popped DONE
    doneFlushed: nat,      // FLUSHED reports behind the last popped DONE
    flushed: nat,          // FLUSHED reports
    saidDone: nat,         // DONE reports
    dueDone: nat,          // popped SIGNAL_DONE and work calls that returned DONE
    stops: nat,            // times the stop flag turned true
    stopPops: nat,         // pops behind that
    stopWorks: nat,        // work calls behind that
    exits: nat,            // popped EXIT
    exitPops: nat)         // pops behind the last popped EXIT

  function NoTally(): Tally {
    Tally(0, 0, 0, 0, 0, 0, 0, 0, 0, 0, 0, 0, 0, 0, 0, 0, 0, 0, 0, 0)
  }

  /** One more event. */
  function Note(blocks: nat, t: Tally, e: Event): Tally {
    match e
    case Silent => t
    case BlockStarted(_) => t.(started := t.started + 1)
    case GateOpened => t
    case Waits => t.(lost := t.lost + If(t.pending > 0))
    case Left => t.(lost := t.lost + If(t.pending > 0))
    case PassEnded => t.(passes := t.passes + 1)
    case StopSet => t.(stops := t.stops + 1, stopPops := 0, stopWorks := 0)
    case Told(r) =>
      if r.ReportDone? then t.(saidDone := t.saidDone + 1)
      else t.(flushed := t.flushed + 1, doneFlushed := t.doneFlushed + 1)
    case Worked(s) =>
      t.(works := t.works + 1, pending := 0, doneWorks := t.doneWorks + 1, stopWorks := t.stopWorks + 1,
         dueDone := t.dueDone + If(s.DONE?), early := t.early + If(t.started != blocks))
    case Popped(m) =>
      t.(pops := t.pops + 1, stopPops := t.stopPops + 1,
         requests := t.requests + If(RequestsWork(m)), pending := t.pending + If(RequestsWork(m)),
         notifyAlls := t.notifyAlls + If(m.NotifyAll?),
         dones := t.dones + If(m.Done?),
         doneWorks := if m.Done? then 0 else t.doneWorks,
         doneFlushed := if m.Done? then 0 else t.doneFlushed,
         dueDone := t.dueDone + If(m.SignalDone?),
         exits := t.exits + If(m.Exit?), exitPops := if m.Exit? then 0 else t.exitPops + 1,
         early := t.early + If(t.started != blocks))
  }

  function TallyOf(blocks: nat, h: seq<Event>): Tally {
    if h == [] then NoTally()
    else Note(blocks, TallyOf(blocks, h[..|h| - 1]), h[|h| - 1])
  }

  /** Work calls that the flush protocol makes before it first reports FLUSHED. */
  function Rounds(c: Config): nat {
    if c.flush && c.flushCount > 1 then c.flushCount else 1
  }

  /** FLUSHED reports due after `w` work calls behind a DONE. */
  function FlushedDue(c: Config, w: nat): nat {
    if w < Rounds(c) then 0 else w - Rounds(c) + 1
  }

  /** A work call whose flush protocol has not run yet. */
  predicate Unsettled(pc: Pc) {
    pc.Tell? || pc.Settle?
  }

  /** The worker holds a popped message `m`. */
  predicate Handles(pc: Pc, m: Message) {
    pc.Handle? && pc.msg == m
  }

  // ---- The invariants ----

  /** Where the worker can be, and what its locals are there. */
  ghost predicate Shape(c: Config, st: State) {
    && (st.ready <==> st.starter.Signalling? || st.starter.Opened?)
    && (st.starter.Starting? ==> st.starter.next <= c.blocks)
    && (st.pc.Gate? || st.pc.Asleep? ==> st.blocking)
    && (!st.pc.Gate? && !st.pc.Asleep? ==> st.ready)
    && (st.pc.Asleep? && st.ready ==> st.starter.Signalling?)
    && (!st.stopper.Idle? ==> st.stopped)
    && (st.stopper.Joined? ==> st.pc.Exited?)
    && (st.pc.Exited? ==> st.stopped)
    && (st.pc.Inner? && st.blocking ==> !st.doWork && st.valid)
    && (st.pc.Pop? ==> st.valid && (st.blocking ==> !st.doWork))
    && (st.pc.Handle? ==> !st.blocking && st.valid)
    && (st.pc.Drained? || st.pc.Bottom? ==> (st.blocking ==> st.stopped))
    && (st.pc.Drained? && st.doWork ==> !st.blocking)
    && (st.pc.Call? || st.pc.Tell? || st.pc.Settle? ==> st.doWork && !st.blocking)
    && (st.pc.Bottom? && st.pc.again ==> st.doWork && !st.blocking)
  }

  /** Nothing is popped or worked on before start() has started every block, and its NOTIFY_ALL stays queued. */
  ghost predicate GateInv(c: Config, st: State, t: Tally) {
    && t.started == (if st.starter.Starting? then st.starter.next else c.blocks)
    && t.early == 0
    && t.dones <= t.pops && (st.pc.Gate? || st.pc.Asleep? ==> t.pops == 0)
    && (!st.starter.Starting? && t.notifyAlls == 0 ==> NotifyAll in st.queue)
  }

  /** A request is pending exactly between its pop and the next work call of the same pass. */
  ghost predicate RequestInv(st: State, t: Tally) {
    && (t.pending > 0 <==>
        || (st.pc.Handle? && (RequestsWork(st.pc.msg) || st.doWork))
        || (st.doWork && (st.pc.Inner? || st.pc.Pop? || st.pc.Drained? || st.pc.Call?)))
    && t.works + If(t.pending > 0) <= t.requests
    && t.notifyAlls <= t.requests
    && (t.works == 0 ==> t.pending == t.requests)
    && t.lost == 0
  }

  /** What the flush counter stands for, and where the protocol's next NOTIFY_ALL is. */
  ghost predicate FlushInv(c: Config, st: State, t: Tally) {
    && (t.dones == 0 ==> !st.flushing && t.flushed == 0)
    && (t.dones > 0 && !Handles(st.pc, Done) ==> st.flushing)
    && (Handles(st.pc, Done) ==> t.dones > 0 && t.doneWorks == 0 && t.doneFlushed == 0)
    && (st.flushing && !Handles(st.pc, Done) ==>
          && (Unsettled(st.pc) ==> t.doneWorks > 0)
          && var w := if Unsettled(st.pc) then t.doneWorks - 1 else t.doneWorks;
          && t.doneFlushed == FlushedDue(c, w)
          && (c.flush ==> st.flushCnt == w))
    && (t.dones > 0 && t.doneFlushed == 0 ==> NotifyAll in st.queue || t.pending > 0 || Unsettled(st.pc))
  }

  ghost predicate DoneInv(st: State, t: Tally) {
    t.saidDone + If(Handles(st.pc, SignalDone)) + If((st.pc.Tell? && st.pc.status.DONE?)) == t.dueDone
  }

  /** At most one more pop and one more work call behind the stop flag, no pop behind an EXIT. */
  ghost predicate StopInv(st: State, t: Tally) {
    && t.stops == If(st.stopped)
    && (st.stopped ==>
          && t.stopPops + If(st.pc.Pop?) <= 1
          && t.stopWorks + If(st.pc.Inner? || st.pc.Pop? || st.pc.Handle? || st.pc.Drained? || st.pc.Call?) <= 1)
    && (st.pc.Pop? && st.queue == [] ==> !st.stopper.Joining?)
    && (t.exits > 0 ==> t.exits == 1 && t.exitPops == 0 && !st.pc.Pop? && (Handles(st.pc, Exit) || st.stopped))
    && (Handles(st.pc, Exit) ==> t.exits > 0)
  }

  /** By how far the completed passes may run ahead of the popped messages. */
  ghost predicate PassInv(st: State, t: Tally) {
    match st.pc
    case Gate => t.passes <= 2 * t.pops
    case Asleep => t.passes <= 2 * t.pops
    case Outer => t.passes <= if st.blocking then 2 * t.pops + If(st.stopped) else 2 * t.pops - 1
    case Exited => t.passes <= 2 * t.pops + 1
    case Handle(_) => t.passes <= 2 * t.pops - 2
    case Bottom(again) => t.passes <= 2 * t.pops - (if again then 2 else if st.blocking then 0 else 1)
    case _ => t.passes <= 2 * t.pops - (if st.blocking then 0 else if st.doWork then 2 else 1)
  }

  ghost predicate AllInv(c: Config, st: State, t: Tally) {
    && Shape(c, st) && GateInv(c, st, t) && RequestInv(st, t) && FlushInv(c, st, t)
    && DoneInv(st, t) && StopInv(st, t) && PassInv(st, t)
  }

  // ---- Step by step ----

  /** A step of the worker from `st` keeps the invariants. */
  ghost predicate Keeps(c: Config, st: State, t: Tally, s: Status)
    requires Enabled(st)
  {
    AllInv(c, WorkerDo(c, st, s), Note(c.blocks, t, WorkerEmits(c, st, s)))
  }

  lemma GateKeeps(c: Config, st: State, t: Tally, s: Status)
    requires AllInv(c, st, t) && st.pc.Gate?
    ensures Keeps(c, st, t, s)
  {
  }

  lemma OuterKeeps(c: Config, st: State, t: Tally, s: Status)
    requires AllInv(c, st, t) && st.pc.Outer?
    ensures Keeps(c, st, t, s)
  {
    if st.stopped {
    }
  }

  lemma InnerKeeps(c: Config, st: State, t: Tally, s: Status)
    requires AllInv(c, st, t) && st.pc.Inner?
    ensures Keeps(c, st, t, s)
  {
  }

  lemma PopNothingKeeps(c: Config, st: State, t: Tally, s: Status)
    requires AllInv(c, st, t) && Enabled(st) && st.pc.Pop? && st.queue == []
    ensures Keeps(c, st, t, s)
  {
  }

  lemma PopDoneKeeps(c: Config, st: State, t: Tally, s: Status)
    requires AllInv(c, st, t) && st.pc.Pop? && st.queue != [] && st.queue[0].Done?
    ensures Keeps(c, st, t, s)
  {
    assert st.queue == [st.queue[0]] + st.queue[1..];
  }

  lemma PopNotifyKeeps(c: Config, st: State, t: Tally, s: Status)
    requires AllInv(c, st, t) && st.pc.Pop? && st.queue != []
    requires RequestsWork(st.queue[0]) && !st.queue[0].Done?
    ensures Keeps(c, st, t, s)
  {
    assert st.queue == [st.queue[0]] + st.queue[1..];
  }

  lemma PopExitKeeps(c: Config, st: State, t: Tally, s: Status)
    requires AllInv(c, st, t) && st.pc.Pop? && st.queue != [] && st.queue[0].Exit?
    ensures Keeps(c, st, t, s)
  {
    assert st.queue == [st.queue[0]] + st.queue[1..];
  }

  lemma PopPlainKeeps(c: Config, st: State, t: Tally, s: Status)
    requires AllInv(c, st, t) && st.pc.Pop? && st.queue != []
    requires !RequestsWork(st.queue[0]) && !st.queue[0].Exit?
    ensures Keeps(c, st, t, s)
  {
    assert st.queue == [st.queue[0]] + st.queue[1..];
  }

  lemma HandleDoneKeeps(c: Config, st: State, t: Tally, s: Status)
    requires AllInv(c, st, t) && Handles(st.pc, Done)
    ensures Keeps(c, st, t, s)
  {
  }

  lemma HandleExitKeeps(c: Config, st: State, t: Tally, s: Status)
    requires AllInv(c, st, t) && Handles(st.pc, Exit)
    ensures Keeps(c, st, t, s)
  {
  }

  lemma HandleNotifyKeeps(c: Config, st: State, t: Tally, s: Status)
    requires AllInv(c, st, t) && st.pc.Handle? && RequestsWork(st.pc.msg) && !st.pc.msg.Done?
    ensures Keeps(c, st, t, s)
  {
  }

  lemma HandlePlainKeeps(c: Config, st: State, t: Tally, s: Status)
    requires AllInv(c, st, t) && st.pc.Handle? && !RequestsWork(st.pc.msg) && !st.pc.msg.Exit?
    ensures Keeps(c, st, t, s)
  {
    if st.pc.msg.SignalDone? {
    }
  }

  lemma DrainedKeeps(c: Config, st: State, t: Tally, s: Status)
    requires AllInv(c, st, t) && st.pc.Drained?
    ensures Keeps(c, st, t, s)
  {
  }

  lemma CallKeeps(c: Config, st: State, t: Tally, s: Status)
    requires AllInv(c, st, t) && st.pc.Call?
    ensures Keeps(c, st, t, s)
  {
  }

  lemma TellKeeps(c: Config, st: State, t: Tally, s: Status)
    requires AllInv(c, st, t) && st.pc.Tell?
    ensures Keeps(c, st, t, s)
  {
    if st.pc.status.DONE? {
    }
  }

  lemma SettleKeeps(c: Config, st: State, t: Tally, s: Status)
    requires AllInv(c, st, t) && st.pc.Settle?
    ensures Keeps(c, st, t, s)
  {
    if ReportsFlushed(c, st) {
    } else if st.flushing {
    }
  }

  lemma BottomKeeps(c: Config, st: State, t: Tally, s: Status)
    requires AllInv(c, st, t) && st.pc.Bottom?
    ensures Keeps(c, st, t, s)
  {
  }

  lemma StartBlockKeeps(c: Config, st: State, t: Tally)
    requires AllInv(c, st, t) && st.starter.Starting?
    ensures AllInv(c, StartDo(c, st), Note(c.blocks, t, Emits(c, st, StartStep)))
  {
    if st.starter.next < c.blocks {
    }
  }

  lemma OpenGateKeeps(c: Config, st: State, t: Tally)
    requires AllInv(c, st, t) && !st.starter.Starting?
    ensures AllInv(c, StartDo(c, st), Note(c.blocks, t, Emits(c, st, StartStep)))
  {
  }

  lemma FlagKeeps(c: Config, st: State, t: Tally)
    requires AllInv(c, st, t) && st.stopper.Idle?
    ensures AllInv(c, StopDo(st), Note(c.blocks, t, Emits(c, st, StopStep)))
  {
  }

  lemma KillKeeps(c: Config, st: State, t: Tally)
    requires AllInv(c, st, t) && !st.stopper.Idle?
    ensures AllInv(c, StopDo(st), Note(c.blocks, t, Emits(c, st, StopStep)))
  {
    if st.stopper.Flagged? {
    }
  }

  lemma WorkerKeeps(c: Config, st: State, t: Tally, s: Status)
    requires AllInv(c, st, t) && Enabled(st)
    ensures Keeps(c, st, t, s)
  {
    match st.pc
    case Gate => GateKeeps(c, st, t, s);
    case Outer => OuterKeeps(c, st, t, s);
    case Inner => InnerKeeps(c, st, t, s);
    case Pop =>
      if st.queue == [] {
        PopNothingKeeps(c, st, t, s);
      } else if st.queue[0].Done? {
        PopDoneKeeps(c, st, t, s);
      } else if RequestsWork(st.queue[0]) {
        PopNotifyKeeps(c, st, t, s);
      } else if st.queue[0].Exit? {
        PopExitKeeps(c, st, t, s);
      } else {
        PopPlainKeeps(c, st, t, s);
      }
    case Handle(m) =>
      if m.Done? {
        HandleDoneKeeps(c, st, t, s);
      } else if m.Exit? {
        HandleExitKeeps(c, st, t, s);
      } else if RequestsWork(m) {
        HandleNotifyKeeps(c, st, t, s);
      } else {
        HandlePlainKeeps(c, st, t, s);
      }
    case Drained => DrainedKeeps(c, st, t, s);
    case Call => CallKeeps(c, st, t, s);
    case Tell(_) => TellKeeps(c, st, t, s);
    case Settle(_) => SettleKeeps(c, st, t, s);
    case Bottom(_) => BottomKeeps(c, st, t, s);
  }

  lemma PushKeeps(c: Config, st: State, t: Tally, m: Message)
    requires AllInv(c, st, t)
    ensures AllInv(c, Enqueue(st, m), t)
  {
    assert forall x :: x in st.queue ==> x in st.queue + [m];
  }

  lemma WakeKeeps(c: Config, st: State, t: Tally)
    requires AllInv(c, st, t) && st.pc.Asleep?
    ensures AllInv(c, st.(pc := Gate), t)
  {
  }

  lemma StepKeeps(c: Config, st: State, t: Tally, step: Step)
    requires AllInv(c, st, t)
    ensures AllInv(c, Do(c, st, step), Note(c.blocks, t, Emits(c, st, step)))
  {
    hide AllInv; hide WorkerDo; hide WorkerEmits; hide StartDo; hide StopDo;
    match step
    case WorkerStep(s) =>
      if Enabled(st) {
        WorkerKeeps(c, st, t, s);
      }
    case StartStep =>
      if st.starter.Starting? {
        StartBlockKeeps(c, st, t);
      } else {
        OpenGateKeeps(c, st, t);
      }
    case StopStep =>
      if st.stopper.Idle? {
        FlagKeeps(c, st, t);
      } else {
        KillKeeps(c, st, t);
      }
    case Push(m) => PushKeeps(c, st, t, m);
    case WakeUp =>
      if st.pc.Asleep? {
        WakeKeeps(c, st, t);
      }
  }

  /** The running totals of a run. */
  function Totals(c: Config, run: seq<Step>): Tally {
    TallyOf(c.blocks, Trace(c, run))
  }

  /** Every state of every run satisfies every invariant. */
  lemma {:induction false} InvHolds(c: Config, run: seq<Step>)
    ensures AllInv(c, After(c, run), Totals(c, run))
  {
    if run != [] {
      var front := run[..|run| - 1];
      InvHolds(c, front);
      StepKeeps(c, After(c, front), Totals(c, front), run[|run| - 1]);
      assert Trace(c, run)[..|run| - 1] == Trace(c, front);
    }
  }
}
