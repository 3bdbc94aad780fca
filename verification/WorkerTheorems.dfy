/** What holds over every run of the worker, however the other threads interleave with it. */
module WorkerTheorems {
  import opened Messages
  import opened Worker
  import opened WorkerInvariants
  import opened Widths

  // ---- What the totals count ----

  predicate IsPop(e: Event) { e.Popped? }
  predicate IsRequest(e: Event) {
    e.Popped? && (e.msg.Done? || e.msg.NotifyOutput? || e.msg.NotifyInput? || e.msg.NotifyAll?)
  }
  predicate IsWork(e: Event) { e.Worked? }
  predicate IsPass(e: Event) { e.PassEnded? }
  predicate IsDone(e: Event) { e.Popped? && e.msg.Done? }
  predicate IsNotifyAll(e: Event) { e.Popped? && e.msg.NotifyAll? }
  predicate IsExit(e: Event) { e.Popped? && e.msg.Exit? }
  predicate IsFlushed(e: Event) { e.Told? && e.report.ReportFlushed? }
  predicate IsDoneReport(e: Event) { e.Told? && e.report.ReportDone? }
  predicate IsDoneDue(e: Event) { (e.Popped? && e.msg.SignalDone?) || (e.Worked? && e.status.DONE?) }
  predicate IsStopSet(e: Event) { e.StopSet? }
  predicate IsBlockStart(e: Event) { e.BlockStarted? }

  /** How many events of a history are of a kind. */
  function Count(h: seq<Event>, p: Event -> bool): nat {
    if h == [] then 0 else Count(h[..|h| - 1], p) + If(p(h[|h| - 1]))
  }

  /** The events behind the last one of a kind. */
  function Since(h: seq<Event>, p: Event -> bool): seq<Event> {
    if h == [] then [] else if p(h[|h| - 1]) then [] else Since(h[..|h| - 1], p) + [h[|h| - 1]]
  }

  lemma SinceOne(h: seq<Event>, p: Event -> bool, q: Event -> bool)
    requires h != []
    ensures var front, e := h[..|h| - 1], h[|h| - 1];
      Count(Since(h, p), q) == if p(e) then 0 else Count(Since(front, p), q) + If(q(e))
  {
    var front, e := h[..|h| - 1], h[|h| - 1];
    if !p(e) {
      assert (Since(front, p) + [e])[..|Since(front, p)|] == Since(front, p);
    }
  }

  /** The totals over a whole history. */
  lemma TotalsCount(blocks: nat, h: seq<Event>)
    ensures var t := TallyOf(blocks, h);
      && t.pops == Count(h, IsPop) && t.requests == Count(h, IsRequest) && t.works == Count(h, IsWork)
      && t.passes == Count(h, IsPass) && t.started == Count(h, IsBlockStart) && t.stops == Count(h, IsStopSet)
      && t.dones == Count(h, IsDone) && t.exits == Count(h, IsExit) && t.notifyAlls == Count(h, IsNotifyAll)
      && t.flushed == Count(h, IsFlushed) && t.saidDone == Count(h, IsDoneReport) && t.dueDone == Count(h, IsDoneDue)
  {
    hide TallyOf; hide Count;
    StepsCount(blocks, h);
    MessagesCount(blocks, h);
    ReportsCount(blocks, h);
  }

  lemma {:induction false} StepsCount(blocks: nat, h: seq<Event>)
    ensures var t := TallyOf(blocks, h);
      && t.pops == Count(h, IsPop) && t.works == Count(h, IsWork) && t.passes == Count(h, IsPass)
      && t.started == Count(h, IsBlockStart) && t.stops == Count(h, IsStopSet)
  {
    if h != [] {
      StepsCount(blocks, h[..|h| - 1]);
    }
  }

  lemma {:induction false} MessagesCount(blocks: nat, h: seq<Event>)
    ensures var t := TallyOf(blocks, h);
      && t.requests == Count(h, IsRequest) && t.dones == Count(h, IsDone) && t.exits == Count(h, IsExit)
      && t.notifyAlls == Count(h, IsNotifyAll)
  {
    if h != [] {
      MessagesCount(blocks, h[..|h| - 1]);
    }
  }

  lemma {:induction false} ReportsCount(blocks: nat, h: seq<Event>)
    ensures var t := TallyOf(blocks, h);
      t.flushed == Count(h, IsFlushed) && t.saidDone == Count(h, IsDoneReport) && t.dueDone == Count(h, IsDoneDue)
  {
    if h != [] {
      ReportsCount(blocks, h[..|h| - 1]);
    }
  }

  /** The totals since the last DONE, the stop flag, the last work call and the last EXIT. */
  lemma {:induction false} TotalsCountSince(blocks: nat, h: seq<Event>)
    ensures var t := TallyOf(blocks, h);
      && t.doneWorks == Count(Since(h, IsDone), IsWork) && t.doneFlushed == Count(Since(h, IsDone), IsFlushed)
      && t.stopPops == Count(Since(h, IsStopSet), IsPop) && t.stopWorks == Count(Since(h, IsStopSet), IsWork)
      && t.pending == Count(Since(h, IsWork), IsRequest) && t.exitPops == Count(Since(h, IsExit), IsPop)
  {
    hide Count; hide Since;
    if h == [] {
      NothingSince(IsDone, IsWork);
      NothingSince(IsDone, IsFlushed);
      NothingSince(IsStopSet, IsPop);
      NothingSince(IsStopSet, IsWork);
      NothingSince(IsWork, IsRequest);
      NothingSince(IsExit, IsPop);
    } else {
      TotalsCountSince(blocks, h[..|h| - 1]);
      SinceOne(h, IsDone, IsWork);
      SinceOne(h, IsDone, IsFlushed);
      SinceOne(h, IsStopSet, IsPop);
      SinceOne(h, IsStopSet, IsWork);
      SinceOne(h, IsWork, IsRequest);
      SinceOne(h, IsExit, IsPop);
    }
  }

  lemma NothingSince(p: Event -> bool, q: Event -> bool)
    ensures Count(Since([], p), q) == 0
  {
  }

  // ---- From totals to single events ----

  /** The faults counted up to any point of a run are among the faults of the whole run. */
  lemma {:induction false} FaultsOnlyGrow(blocks: nat, h: seq<Event>, n: nat)
    requires n <= |h|
    ensures TallyOf(blocks, h[..n]).lost <= TallyOf(blocks, h).lost
    ensures TallyOf(blocks, h[..n]).early <= TallyOf(blocks, h).early
  {
    if n == |h| {
      assert h[..n] == h;
    } else {
      var front := h[..|h| - 1];
      FaultsOnlyGrow(blocks, front, n);
      assert front[..n] == h[..n];
    }
  }

  /** A popped request with no work call behind it is pending. */
  lemma {:induction false} RequestIsPending(blocks: nat, h: seq<Event>, i: nat)
    requires i < |h| && IsRequest(h[i])
    requires forall k :: i < k < |h| ==> !h[k].Worked?
    ensures TallyOf(blocks, h).pending > 0
  {
    if i < |h| - 1 {
      RequestIsPending(blocks, h[..|h| - 1], i);
    }
  }

  lemma {:induction false} ExitIsCounted(blocks: nat, h: seq<Event>, i: nat)
    requires i < |h| && h[i] == Popped(Exit)
    ensures TallyOf(blocks, h).exits > 0
  {
    if i < |h| - 1 {
      ExitIsCounted(blocks, h[..|h| - 1], i);
    }
  }

  /** The run up to an event: its invariants, and no fault in the event itself. */
  lemma AtEvent(c: Config, run: seq<Step>, j: nat) returns (st: State, t: Tally, e: Event)
    requires j < |run|
    ensures st == After(c, run[..j]) && t == Totals(c, run[..j]) && e == Trace(c, run)[j]
    ensures e == Emits(c, st, run[j]) && AllInv(c, st, t)
    ensures Note(c.blocks, t, e).lost == 0 && Note(c.blocks, t, e).early == 0
  {
    var h := Trace(c, run);
    st, t, e := After(c, run[..j]), Totals(c, run[..j]), h[j];
    TracePrefix(c, run, j);
    InvHolds(c, run[..j]);
    InvHolds(c, run);
    FaultsOnlyGrow(c.blocks, h, j + 1);
    assert h[..j + 1][..j] == h[..j];
  }

  /** What the events of a history stand for, in states: entering a blocking pop, taking a message, a work call, the
      end of a pass, leaving the loop, and the turning of the two flags. */
  lemma EventsMean(c: Config, run: seq<Step>, j: nat)
    requires j < |run|
    ensures var st, st', e := After(c, run[..j]), After(c, run[..j + 1]), Trace(c, run)[j];
      && (e.Waits? <==> !st.pc.Pop? && st'.pc.Pop? && st'.blocking)
      && (e.Popped? <==> st.pc.Pop? && st'.pc.Handle?)
      && (e.Popped? ==> st'.pc.msg == e.msg && st.queue == [e.msg] + st'.queue)
      && (e.Worked? <==> st.pc.Call? && st'.pc.Tell?) && (e.Worked? ==> st'.pc.status == e.status)
      && (e.PassEnded? <==> st.pc.Bottom? && st'.pc.Outer?)
      && (e.Left? <==> !st.pc.Exited? && st'.pc.Exited?)
      && (e.StopSet? <==> !st.stopped && st'.stopped) && (e.GateOpened? <==> !st.ready && st'.ready)
  {
    hide Do; hide Emits; hide AllInv; hide Trace;
    TracePrefix(c, run, j);
    InvHolds(c, run[..j]);
    assert run[..j + 1] == run[..j] + [run[j]];
    OneMore(c, run[..j], run[j]);
    EventMeans(c, After(c, run[..j]), Totals(c, run[..j]), run[j]);
  }

  lemma EventMeans(c: Config, st: State, t: Tally, step: Step)
    requires AllInv(c, st, t)
    ensures var st', e := Do(c, st, step), Emits(c, st, step);
      && (e.Waits? <==> !st.pc.Pop? && st'.pc.Pop? && st'.blocking)
      && (e.Popped? <==> st.pc.Pop? && st'.pc.Handle?)
      && (e.Popped? ==> st'.pc.msg == e.msg && st.queue == [e.msg] + st'.queue)
      && (e.Worked? <==> st.pc.Call? && st'.pc.Tell?) && (e.Worked? ==> st'.pc.status == e.status)
      && (e.PassEnded? <==> st.pc.Bottom? && st'.pc.Outer?)
      && (e.Left? <==> !st.pc.Exited? && st'.pc.Exited?)
      && (e.StopSet? <==> !st.stopped && st'.stopped) && (e.GateOpened? <==> !st.ready && st'.ready)
  {
    hide WorkerDo; hide WorkerEmits; hide GateInv; hide RequestInv; hide FlushInv; hide DoneInv; hide StopInv;
    hide PassInv;
    if step.WorkerStep? && Enabled(st) {
      WorkerEventMeans(c, st, step.status);
    }
  }

  lemma PushEventMeans(c: Config, st: State, s: Status)
    requires Shape(c, st) && (st.pc.Handle? || st.pc.Settle?)
    ensures var st', e := WorkerDo(c, st, s), WorkerEmits(c, st, s);
      && (e.Waits? <==> !st.pc.Pop? && st'.pc.Pop? && st'.blocking)
      && (e.Popped? <==> st.pc.Pop? && st'.pc.Handle?)
      && (e.Popped? ==> st'.pc.msg == e.msg && st.queue == [e.msg] + st'.queue)
      && (e.Worked? <==> st.pc.Call? && st'.pc.Tell?) && (e.Worked? ==> st'.pc.status == e.status)
      && (e.PassEnded? <==> st.pc.Bottom? && st'.pc.Outer?)
      && (e.Left? <==> !st.pc.Exited? && st'.pc.Exited?)
      && (e.StopSet? <==> !st.stopped && st'.stopped) && !e.GateOpened? && st'.ready == st.ready
  {
    hide ReportsFlushed; hide Shape;
  }

  lemma OtherEventMeans(c: Config, st: State, s: Status)
    requires Shape(c, st) && Enabled(st) && !st.pc.Handle? && !st.pc.Settle?
    ensures var st', e := WorkerDo(c, st, s), WorkerEmits(c, st, s);
      && (e.Waits? <==> !st.pc.Pop? && st'.pc.Pop? && st'.blocking)
      && (e.Popped? <==> st.pc.Pop? && st'.pc.Handle?)
      && (e.Popped? ==> st'.pc.msg == e.msg && st.queue == [e.msg] + st'.queue)
      && (e.Worked? <==> st.pc.Call? && st'.pc.Tell?) && (e.Worked? ==> st'.pc.status == e.status)
      && (e.PassEnded? <==> st.pc.Bottom? && st'.pc.Outer?)
      && (e.Left? <==> !st.pc.Exited? && st'.pc.Exited?)
      && (e.StopSet? <==> !st.stopped && st'.stopped) && !e.GateOpened? && st'.ready == st.ready
  {
    hide HandleMessage; hide Settled;
  }

  lemma WorkerEventMeans(c: Config, st: State, s: Status)
    requires Shape(c, st) && Enabled(st)
    ensures var st', e := WorkerDo(c, st, s), WorkerEmits(c, st, s);
      && (e.Waits? <==> !st.pc.Pop? && st'.pc.Pop? && st'.blocking)
      && (e.Popped? <==> st.pc.Pop? && st'.pc.Handle?)
      && (e.Popped? ==> st'.pc.msg == e.msg && st.queue == [e.msg] + st'.queue)
      && (e.Worked? <==> st.pc.Call? && st'.pc.Tell?) && (e.Worked? ==> st'.pc.status == e.status)
      && (e.PassEnded? <==> st.pc.Bottom? && st'.pc.Outer?)
      && (e.Left? <==> !st.pc.Exited? && st'.pc.Exited?)
      && (e.StopSet? <==> !st.stopped && st'.stopped) && !e.GateOpened? && st'.ready == st.ready
  {
    hide WorkerDo; hide WorkerEmits; hide Shape;
    if st.pc.Handle? || st.pc.Settle? {
      PushEventMeans(c, st, s);
    } else {
      OtherEventMeans(c, st, s);
    }
  }

  // ---- Start gate ----

  /** No message is popped and no work call is made before start() has started every block of the group. */
  lemma NothingBeforeStart(c: Config, run: seq<Step>, j: nat)
    requires j < |run|
    requires Trace(c, run)[j].Popped? || Trace(c, run)[j].Worked?
    ensures Totals(c, run[..j]).started == c.blocks
    ensures After(c, run[..j]).ready
  {
    var st, t, e := AtEvent(c, run, j);
  }

  /** Once start() has pushed its NOTIFY_ALL, that stays queued until it is popped, stopped or not; and once start()
      has returned, an unstopped worker at rest has made a work call: no wake-up at the gate is lost. */
  lemma StartLeadsToWork(c: Config, run: seq<Step>)
    ensures var st, t := After(c, run), Totals(c, run);
      && (!st.starter.Starting? && t.notifyAlls == 0 ==> NotifyAll in st.queue)
      && (st.starter.Opened? && !st.stopped && !Enabled(st) ==> t.works > 0)
  {
    InvHolds(c, run);
    var st, t := After(c, run), Totals(c, run);
    if st.starter.Opened? && !st.stopped && t.works == 0 {
      NotBlocked(c, st, t);
    }
  }

  lemma NotBlocked(c: Config, st: State, t: Tally)
    requires AllInv(c, st, t) && st.starter.Opened? && !st.stopped && t.works == 0
    ensures Enabled(st)
  {
  }

  // ---- Requests for work ----

  /** Between a popped DONE, NOTIFY_OUTPUT, NOTIFY_INPUT or NOTIFY_ALL and any later blocking pop, or the worker's
      exit, there is a work call. */
  lemma NoRequestIsLost(c: Config, run: seq<Step>, i: nat, j: nat)
    requires i < j < |run|
    requires Trace(c, run)[i].Popped?
    requires var m := Trace(c, run)[i].msg; m.Done? || m.NotifyOutput? || m.NotifyInput? || m.NotifyAll?
    requires Trace(c, run)[j].Waits? || Trace(c, run)[j].Left?
    ensures exists k :: i < k < j && Trace(c, run)[k].Worked?
  {
    hide AllInv; hide Emits; hide After; hide Trace; hide Note;
    var st, t, e := AtEvent(c, run, j);
    NothingLost(c.blocks, t, e);
    TracePrefix(c, run, j);
    if forall k :: i < k < j ==> !Trace(c, run)[k].Worked? {
      RequestIsPending(c.blocks, Trace(c, run)[..j], i);
    }
  }

  lemma NothingLost(blocks: nat, t: Tally, e: Event)
    requires Note(blocks, t, e).lost == 0 && (e.Waits? || e.Left?)
    ensures t.pending == 0
  {
  }

  /** Work is only done on request: the work calls, and one more while a request waits for its own, never outnumber
      the popped DONEs and NOTIFYs. */
  lemma WorkIsAskedFor(c: Config, run: seq<Step>)
    ensures var h := Trace(c, run);
      Count(h, IsWork) + If(Count(Since(h, IsWork), IsRequest) > 0) <= Count(h, IsRequest)
    ensures Totals(c, run).works + If(Totals(c, run).pending > 0) <= Totals(c, run).requests
  {
    hide Count; hide Since; hide After; hide Trace;
    InvHolds(c, run);
    TotalsCount(c.blocks, Trace(c, run));
    TotalsCountSince(c.blocks, Trace(c, run));
  }

  // ---- Flushing ----

  lemma NotStalled(c: Config, st: State, t: Tally)
    requires AllInv(c, st, t) && t.dones > 0 && t.doneFlushed == 0 && !st.stopped
    ensures Enabled(st)
  {
  }

  /** From a popped DONE until the first FLUSHED behind it an unstopped worker never sleeps: there is work
      pending in this pass or a NOTIFY_ALL in the queue. */
  lemma FlushNeverStalls(c: Config, run: seq<Step>)
    requires Totals(c, run).dones > 0 && Totals(c, run).doneFlushed == 0
    ensures NotifyAll in After(c, run).queue || Totals(c, run).pending > 0 || Unsettled(After(c, run).pc)
    ensures !After(c, run).stopped ==> Enabled(After(c, run))
  {
    InvHolds(c, run);
    if !After(c, run).stopped {
      NotStalled(c, After(c, run), Totals(c, run));
    }
  }

  function Max(a: int, b: int): int {
    if a < b then b else a
  }

  lemma DueExactly(c: Config, st: State, t: Tally, w: int)
    requires AllInv(c, st, t) && t.dones > 0 && w == t.doneWorks - If(Unsettled(st.pc))
    ensures w >= 0 && t.doneFlushed == if c.flush then Max(0, w - Max(1, c.flushCount) + 1) else w
  {
  }

  /** With `w` settled work calls behind the last DONE, the FLUSHED reports since then number
      max(0, w - max(1, flush_count) + 1), or w when flushing is off; before the first DONE there is none. */
  lemma FlushedExactly(c: Config, run: seq<Step>)
    ensures var t, w := Totals(c, run), Totals(c, run).doneWorks - If(Unsettled(After(c, run).pc));
      && (t.dones == 0 ==> t.flushed == 0)
      && (t.dones > 0 ==>
            w >= 0 && t.doneFlushed == if c.flush then Max(0, w - Max(1, c.flushCount) + 1) else w)
  {
    InvHolds(c, run);
    var t, w := Totals(c, run), Totals(c, run).doneWorks - If(Unsettled(After(c, run).pc));
    if t.dones > 0 {
      DueExactly(c, After(c, run), t, w);
    }
  }

  /** FLUSHED reports due for the DONEs popped before the last one: for each of them what FlushedExactly says of the
      work calls made until the next DONE was popped. */
  function Earlier(c: Config, run: seq<Step>): nat {
    if run == [] then 0
    else
      var front := run[..|run| - 1];
      var e, t := Emits(c, After(c, front), run[|run| - 1]), Totals(c, front);
      Earlier(c, front) + if e == Popped(Done) && t.dones > 0 then FlushedDue(c, t.doneWorks) else 0
  }

  /** What is due is the formula of FlushedExactly. */
  lemma DueFormula(c: Config, w: nat)
    ensures FlushedDue(c, w) == if c.flush then Max(0, w - Max(1, c.flushCount) + 1) else w
  {
  }

  /** All FLUSHED reports of a run, over any number of DONEs. */
  lemma {:induction false} AllFlushes(c: Config, run: seq<Step>)
    ensures Totals(c, run).flushed == Earlier(c, run) + Totals(c, run).doneFlushed
  {
    hide After; hide Emits; hide Note; hide AllInv; hide FlushedDue;
    if run != [] {
      var front, step := run[..|run| - 1], run[|run| - 1];
      AllFlushes(c, front);
      InvHolds(c, front);
      assert run == front + [step];
      OneMore(c, front, step);
      FlushesStep(c, After(c, front), Totals(c, front), step);
    }
  }

  lemma FlushesStep(c: Config, st: State, t: Tally, step: Step)
    requires AllInv(c, st, t) && t.doneFlushed <= t.flushed
    ensures var e := Emits(c, st, step);
      var t' := Note(c.blocks, t, e);
      t'.flushed - t'.doneFlushed
      == t.flushed - t.doneFlushed + if e == Popped(Done) && t.dones > 0 then FlushedDue(c, t.doneWorks) else 0
  {
    hide Emits;
    if Emits(c, st, step).Popped? {
      PopsSettled(c, st, step);
      FlushedAtPop(c, st, t);
    }
  }

  lemma PopsSettled(c: Config, st: State, step: Step)
    requires Emits(c, st, step).Popped?
    ensures st.pc.Pop?
  {
  }

  lemma FlushedAtPop(c: Config, st: State, t: Tally)
    requires AllInv(c, st, t) && st.pc.Pop?
    ensures if t.dones > 0 then t.doneFlushed == FlushedDue(c, t.doneWorks) else t.flushed == 0
  {
    hide GateInv; hide RequestInv; hide DoneInv; hide StopInv; hide PassInv; hide FlushedDue;
  }

  /** DONE reports are the popped SIGNAL_DONEs and the iterations that returned DONE, each reported once. */
  lemma DoneReportsAddUp(c: Config, run: seq<Step>)
    requires !Handles(After(c, run).pc, SignalDone) && !After(c, run).pc.Tell?
    ensures Totals(c, run).saidDone == Totals(c, run).dueDone
  {
    InvHolds(c, run);
  }

  // ---- Stopping ----

  /** Behind the stop flag the worker pops at most one more message and makes at most one more work call. */
  lemma StopIsBounded(c: Config, run: seq<Step>)
    requires After(c, run).stopped
    ensures Totals(c, run).stops == 1
    ensures Totals(c, run).stopPops <= 1 && Totals(c, run).stopWorks <= 1
  {
    InvHolds(c, run);
  }

  /** No message behind a popped EXIT is popped. */
  lemma NothingBehindExit(c: Config, run: seq<Step>, i: nat, j: nat)
    requires i < j < |run|
    requires Trace(c, run)[i] == Popped(Exit)
    ensures !Trace(c, run)[j].Popped?
  {
    hide AllInv; hide Emits; hide Note; hide After;
    var st, t, e := AtEvent(c, run, j);
    TracePrefix(c, run, j);
    ExitIsCounted(c.blocks, Trace(c, run)[..j], i);
    NoPopBehindExit(c, st, t, run[j]);
  }

  lemma NoPopBehindExit(c: Config, st: State, t: Tally, step: Step)
    requires AllInv(c, st, t) && t.exits > 0
    ensures !Emits(c, st, step).Popped?
  {
    hide WorkerDo; hide GateInv; hide RequestInv; hide FlushInv; hide DoneInv; hide PassInv;
  }

  /** Once stop() has pushed its EXIT, a worker still in the loop can take a step if and only if it is not
      asleep at the start gate, where it can only be while start() has not returned. */
  lemma StopNeverBlocks(c: Config, run: seq<Step>)
    requires After(c, run).stopper.Joining? && !After(c, run).pc.Exited?
    ensures Enabled(After(c, run)) <==> !After(c, run).pc.Asleep?
    ensures After(c, run).starter.Opened? ==> Enabled(After(c, run))
  {
    InvHolds(c, run);
  }

  /** The steps of a run that the caller of start(), or that of stop(), has taken or tried to take. */
  function StartSteps(run: seq<Step>): nat {
    if run == [] then 0 else StartSteps(run[..|run| - 1]) + If(run[|run| - 1].StartStep?)
  }

  function StopSteps(run: seq<Step>): nat {
    if run == [] then 0 else StopSteps(run[..|run| - 1]) + If(run[|run| - 1].StopStep?)
  }

  /** How far start() has come: one step a block, one push, one for the gate, one to wake the worker. */
  function StartRank(c: Config, starter: Starter): nat {
    match starter
    case Starting(k) => k
    case Opening => c.blocks + 1
    case Signalling => c.blocks + 2
    case Opened => c.blocks + 3
  }

  predicate SameCallers(a: State, b: State) {
    a.starter == b.starter && a.stopper == b.stopper
  }

  lemma PopKeepsCallers(c: Config, st: State, s: Status)
    requires Enabled(st) && (st.pc.Gate? || st.pc.Outer? || st.pc.Inner? || st.pc.Pop?)
    ensures SameCallers(WorkerDo(c, st, s), st)
  {
    hide HandleMessage; hide Settled;
  }

  lemma WorkKeepsCallers(c: Config, st: State, s: Status)
    requires Enabled(st) && !st.pc.Gate? && !st.pc.Outer? && !st.pc.Inner? && !st.pc.Pop?
    ensures SameCallers(WorkerDo(c, st, s), st)
  {
    hide HandleMessage; hide Settled;
    if st.pc.Handle? {
      HandleKeepsCallers(st, st.pc.msg);
    } else if st.pc.Settle? {
      SettleKeepsCallers(c, st, st.pc.status);
    }
  }

  lemma WorkerKeepsCallers(c: Config, st: State, s: Status)
    requires Enabled(st)
    ensures SameCallers(WorkerDo(c, st, s), st)
  {
    hide WorkerDo; hide SameCallers;
    if st.pc.Gate? || st.pc.Outer? || st.pc.Inner? || st.pc.Pop? {
      PopKeepsCallers(c, st, s);
    } else {
      WorkKeepsCallers(c, st, s);
    }
  }

  lemma HandleKeepsCallers(st: State, m: Message)
    ensures HandleMessage(st, m).starter == st.starter && HandleMessage(st, m).stopper == st.stopper
  {
  }

  lemma SettleKeepsCallers(c: Config, st: State, s: Status)
    ensures Settled(c, st, s).starter == st.starter && Settled(c, st, s).stopper == st.stopper
  {
    hide ReportsFlushed;
  }

  lemma CallersStep(c: Config, st: State, step: Step)
    ensures var st' := Do(c, st, step);
      && (!step.StartStep? ==> st'.starter == st.starter) && (!step.StopStep? ==> st'.stopper == st.stopper)
  {
    hide WorkerDo;
    if step.WorkerStep? && Enabled(st) {
      WorkerKeepsCallers(c, st, step.status);
    }
  }

  lemma {:induction false} CallersProgress(c: Config, run: seq<Step>)
    ensures var st, n := After(c, run), StartSteps(run);
      && StartRank(c, st.starter) == (if n < c.blocks + 3 then n else c.blocks + 3)
      && (st.starter.Starting? ==> st.starter.next <= c.blocks)
    ensures var st, n := After(c, run), StopSteps(run);
      && (st.stopper.Idle? <==> n == 0) && (st.stopper.Flagged? <==> n == 1)
  {
    hide WorkerDo;
    if run != [] {
      CallersProgress(c, run[..|run| - 1]);
      CallersStep(c, After(c, run[..|run| - 1]), run[|run| - 1]);
    }
  }

  /** stop() returns only when start() has started every block and opened the gate: all its steps but the last.
      Before start(), or with a start() stuck in a block, it joins the thread for ever. */
  lemma StopWithoutStartHangs(c: Config, run: seq<Step>)
    ensures After(c, run).stopper.Joined? ==> After(c, run).ready && Totals(c, run).started == c.blocks
    ensures After(c, run).ready <==> StartSteps(run) >= c.blocks + 2
  {
    hide WorkerDo;
    InvHolds(c, run);
    CallersProgress(c, run);
  }

  // ---- Passes ----

  lemma OneMore(c: Config, run: seq<Step>, step: Step)
    ensures After(c, run + [step]) == Do(c, After(c, run), step)
    ensures Totals(c, run + [step]) == Note(c.blocks, Totals(c, run), Emits(c, After(c, run), step))
  {
    assert (run + [step])[..|run + [step]| - 1] == run;
    var h := Trace(c, run + [step]);
    assert h[..|h| - 1] == Trace(c, run);
  }

  /** A run extended by one step from a known state and known totals. */
  lemma Append(c: Config, run: seq<Step>, st: State, t: Tally, step: Step, st': State, t': Tally)
    returns (more: seq<Step>)
    requires After(c, run) == st && Do(c, st, step) == st'
    requires Totals(c, run) == t && Note(c.blocks, t, Emits(c, st, step)) == t'
    ensures After(c, more) == st' && Totals(c, more) == t'
  {
    OneMore(c, run, step);
    more := run + [step];
  }

  /** Step `j` is stop() setting the flag between the two loop tests of a pass that has popped nothing, with two
      passes completed for every message popped. */
  ghost predicate SetBetweenTests(c: Config, run: seq<Step>, j: nat)
    requires j < |run|
  {
    var st, t := After(c, run[..j]), Totals(c, run[..j]);
    && run[j].StopStep? && st.stopper.Idle? && !st.stopped
    && st.pc.Inner? && st.blocking && t.passes == 2 * t.pops
  }

  ghost predicate PassIsWasted(c: Config, run: seq<Step>) {
    exists j: nat :: j < |run| && SetBetweenTests(c, run, j)
  }

  /** Passes and pops of a worker, `wasted` telling whether the flag has been set between the two tests. */
  ghost predicate WasteInv(st: State, t: Tally, wasted: bool) {
    if wasted then
      && st.stopped && !st.stopper.Idle?
      && match st.pc
         case Inner => st.blocking && t.passes == 2 * t.pops
         case Drained => !st.doWork && t.passes == 2 * t.pops
         case Bottom(again) => t.passes == 2 * t.pops
         case Outer => t.passes == 2 * t.pops + 1
         case Exited => t.passes == 2 * t.pops + 1
         case _ => false
    else
      && (st.pc.Outer? || st.pc.Exited? ==> t.passes <= 2 * t.pops)
      && (st.stopped && st.blocking && (st.pc.Inner? || st.pc.Drained? || st.pc.Bottom?) ==> t.passes < 2 * t.pops)
  }

  /** The step sets the flag between the two tests. */
  predicate Wastes(st: State, t: Tally, step: Step) {
    && step.StopStep? && st.stopper.Idle? && !st.stopped
    && st.pc.Inner? && st.blocking && t.passes == 2 * t.pops
  }

  lemma WasteWorker(c: Config, st: State, t: Tally, s: Status, wasted: bool)
    requires Shape(c, st) && PassInv(st, t) && WasteInv(st, t, wasted) && Enabled(st)
    ensures WasteInv(WorkerDo(c, st, s), Note(c.blocks, t, WorkerEmits(c, st, s)), wasted)
  {
    hide HandleMessage; hide Settled;
  }

  lemma WasteStep(c: Config, st: State, t: Tally, step: Step, wasted: bool)
    requires Shape(c, st) && PassInv(st, t) && WasteInv(st, t, wasted)
    ensures WasteInv(Do(c, st, step), Note(c.blocks, t, Emits(c, st, step)), wasted || Wastes(st, t, step))
  {
    hide WorkerDo; hide WorkerEmits; hide WasteInv; hide Note; hide StopDo; hide StartDo;
    match step
    case WorkerStep(s) =>
      if Enabled(st) {
        WasteWorker(c, st, t, s, wasted);
      } else {
        NothingNoted(c, st, t, step);
      }
    case StopStep => WasteStop(c, st, t, wasted);
    case _ => WasteOther(c, st, t, step, wasted);
  }

  lemma NothingNoted(c: Config, st: State, t: Tally, step: Step)
    requires step.WorkerStep? && !Enabled(st)
    ensures Note(c.blocks, t, Emits(c, st, step)) == t && Do(c, st, step) == st && !Wastes(st, t, step)
  {
  }

  lemma WasteStop(c: Config, st: State, t: Tally, wasted: bool)
    requires Shape(c, st) && PassInv(st, t) && WasteInv(st, t, wasted)
    ensures WasteInv(StopDo(st), Note(c.blocks, t, Emits(c, st, StopStep)), wasted || Wastes(st, t, StopStep))
  {
    hide WorkerDo; hide WorkerEmits;
  }

  /** Other threads than those of stop() and the worker note no pass and no pop, and leave alone what the worker
      and stop() change. */
  lemma OthersNote(c: Config, st: State, t: Tally, step: Step)
    requires !step.WorkerStep? && !step.StopStep?
    ensures var t' := Note(c.blocks, t, Emits(c, st, step)); t'.passes == t.passes && t'.pops == t.pops
  {
    hide WorkerEmits;
  }

  lemma OthersLeave(c: Config, st: State, step: Step)
    requires !step.WorkerStep? && !step.StopStep?
    ensures var st' := Do(c, st, step);
      && st'.stopped == st.stopped && st'.stopper == st.stopper && st'.blocking == st.blocking
      && st'.doWork == st.doWork && (st'.pc == st.pc || (st.pc.Asleep? && st'.pc.Gate?))
  {
    hide WorkerDo;
    if step.StartStep? {
      StartLeaves(c, st);
    }
  }

  lemma StartLeaves(c: Config, st: State)
    ensures var st' := StartDo(c, st);
      && st'.stopped == st.stopped && st'.stopper == st.stopper && st'.blocking == st.blocking
      && st'.doWork == st.doWork && (st'.pc == st.pc || (st.pc.Asleep? && st'.pc.Gate?))
  {
    match st.starter
    case Starting(k) =>
      if k < c.blocks {
      }
    case Opening =>
    case Signalling =>
    case Opened =>
  }

  lemma WasteOther(c: Config, st: State, t: Tally, step: Step, wasted: bool)
    requires WasteInv(st, t, wasted) && !step.WorkerStep? && !step.StopStep?
    ensures WasteInv(Do(c, st, step), Note(c.blocks, t, Emits(c, st, step)), wasted || Wastes(st, t, step))
  {
    hide Do; hide Note; hide Emits;
    OthersNote(c, st, t, step);
    OthersLeave(c, st, step);
  }

  lemma WasteBegins()
    ensures WasteInv(Init(), NoTally(), false)
  {
  }

  lemma WastedLonger(c: Config, run: seq<Step>)
    requires run != []
    ensures var front := run[..|run| - 1];
      PassIsWasted(c, run)
      <==> PassIsWasted(c, front) || Wastes(After(c, front), Totals(c, front), run[|run| - 1])
  {
    hide After; hide Totals;
    var front := run[..|run| - 1];
    forall j: nat | j < |front|
      ensures SetBetweenTests(c, run, j) <==> SetBetweenTests(c, front, j)
    {
      assert run[..j] == front[..j];
    }
    if Wastes(After(c, front), Totals(c, front), run[|run| - 1]) {
      assert SetBetweenTests(c, run, |front|);
    }
  }

  lemma {:induction false} WasteHolds(c: Config, run: seq<Step>)
    ensures WasteInv(After(c, run), Totals(c, run), PassIsWasted(c, run))
  {
    hide Do; hide Note; hide Emits; hide WasteInv; hide Wastes; hide PassIsWasted;
    if run == [] {
      WasteBegins();
      NothingWasted(c);
    } else {
      var front, last := run[..|run| - 1], run[|run| - 1];
      WasteHolds(c, front);
      InvHolds(c, front);
      WastedLonger(c, run);
      assert run == front + [last];
      OneMore(c, front, last);
      WasteStep(c, After(c, front), Totals(c, front), last, PassIsWasted(c, front));
    }
  }

  lemma NothingWasted(c: Config)
    ensures !PassIsWasted(c, [])
  {
  }

  /** The outer loop does not spin: its completed passes are at most twice the popped messages, except by one, and
      that exactly when stop() has set the flag between the two tests of an empty pass that has ended since. */
  lemma NoBusySpinning(c: Config, run: seq<Step>)
    ensures var st, t := After(c, run), Totals(c, run);
      && t.passes <= 2 * t.pops + 1
      && (t.passes > 2 * t.pops <==> PassIsWasted(c, run) && (st.pc.Outer? || st.pc.Exited?))
  {
    hide PassIsWasted;
    InvHolds(c, run);
    WasteHolds(c, run);
  }

  lemma NoSteps(c: Config) returns (run: seq<Step>)
    ensures After(c, run) == Init() && Totals(c, run) == NoTally()
  {
    run := [];
  }

  /** A run that starts the first `k` blocks. */
  lemma {:induction false} BlocksStart(c: Config, k: nat) returns (run: seq<Step>)
    requires k <= c.blocks
    ensures After(c, run) == Init().(starter := Starting(k)) && Totals(c, run) == NoTally().(started := k)
  {
    hide After; hide Totals;
    if k == 0 {
      run := NoSteps(c);
    } else {
      var st, t := Init().(starter := Starting(k - 1)), NoTally().(started := k - 1);
      run := BlocksStart(c, k - 1);
      run := Append(c, run, st, t, StartStep, Init().(starter := Starting(k)), NoTally().(started := k));
    }
  }

  /** A run that starts every block, opens the gate and takes the worker into its first pass. */
  lemma FirstPassBegins(c: Config, st: State, t: Tally) returns (run: seq<Step>)
    requires st == Init().(pc := Inner, queue := [NotifyAll], starter := Signalling, ready := true)
    requires t == NoTally().(started := c.blocks)
    ensures After(c, run) == st && Totals(c, run) == t
  {
    hide After; hide Totals;
    var w, s0 := WorkerStep(READY), Init().(starter := Starting(c.blocks));
    var s1 := s0.(queue := [NotifyAll], starter := Opening);
    var s2 := s1.(ready := true, starter := Signalling);
    var s3 := s2.(pc := Outer);
    run := BlocksStart(c, c.blocks);
    run := Append(c, run, s0, t, StartStep, s1, t);
    run := Append(c, run, s1, t, StartStep, s2, t);
    run := Append(c, run, s2, t, w, s3, t);
    run := Append(c, run, s3, t, w, st, t);
  }

  /** A drained pass without work ends. */
  lemma EmptyPassEnds(c: Config, before: seq<Step>, st: State, t: Tally) returns (run: seq<Step>)
    requires After(c, before) == st && Totals(c, before) == t && st.pc == Bottom(false)
    ensures After(c, run) == st.(pc := Outer, blocking := true) && Totals(c, run) == t.(passes := t.passes + 1)
  {
    hide After; hide Totals; hide HandleMessage; hide Settled;
    run := Append(c, before, st, t, WorkerStep(READY), st.(pc := Outer, blocking := true),
                  t.(passes := t.passes + 1));
  }

  /** A stopped worker leaves. */
  lemma WorkerLeaves(c: Config, before: seq<Step>, st: State, t: Tally) returns (run: seq<Step>)
    requires After(c, before) == st && Totals(c, before) == t && st.pc.Outer? && st.stopped && t.pending == 0
    ensures After(c, run) == st.(pc := Exited) && Totals(c, run) == t
  {
    hide After; hide Totals; hide HandleMessage; hide Settled;
    run := Append(c, before, st, t, WorkerStep(READY), st.(pc := Exited), t);
  }

  /** The extra pass is real, for a group of any size: stop() sets the flag between the two loop tests of the first
      pass, and the worker leaves behind one pass and no message. */
  lemma StopCanCostAPass(c: Config) returns (run: seq<Step>)
    ensures After(c, run).pc.Exited? && Totals(c, run).pops == 0 && Totals(c, run).passes == 1
  {
    hide After; hide Totals;
    var w, t, s0 := WorkerStep(READY), NoTally().(started := c.blocks),
      Init().(pc := Inner, queue := [NotifyAll], starter := Signalling, ready := true);
    var s1, t1 := s0.(stopped := true, stopper := Flagged), t.(stops := 1);
    var s2 := s1.(pc := Drained);
    run := FirstPassBegins(c, s0, t);
    run := Append(c, run, s0, t, StopStep, s1, t1);
    run := Append(c, run, s1, t1, w, s2, t1);
    run := Append(c, run, s2, t1, w, s2.(pc := Bottom(false)), t1);
    run := EmptyPassEnds(c, run, s2.(pc := Bottom(false)), t1);
    run := WorkerLeaves(c, run, s2.(pc := Outer, blocking := true), t1.(passes := 1));
  }
}
