/** How long the worker can go on: measures that every one of its steps decreases. */
module WorkerProgress {
  import opened Messages
  import opened Worker
  import opened WorkerInvariants
  import opened Widths
  import WorkerTheorems

  /** The steps of `steps`, taken from `st`, that are enabled steps of the worker. */
  ghost function WorkerSteps(c: Config, st: State, steps: seq<Step>): nat {
    if steps == [] then 0
    else
      var front, last := steps[..|steps| - 1], steps[|steps| - 1];
      WorkerSteps(c, st, front) + If(last.WorkerStep? && Enabled(Exec(c, st, front)))
  }

  // ---- The way to the exit ----

  /** Steps left once the stop flag is set. */
  function TailRank(pc: Pc): nat {
    match pc
    case Exited => 0
    case Outer => 1
    case Bottom(_) => 2
    case Asleep => 2
    case Settle(_) => 3
    case Gate => 3
    case Tell(_) => 4
    case Call => 5
    case Drained => 6
    case Inner => 7
    case Handle(_) => 8
    case Pop => 9
  }

  /** Messages in front of the first EXIT. */
  function Ahead(q: seq<Message>): (n: nat)
    requires Exit in q
    ensures n < |q| && q[n] == Exit && Exit !in q[..n]
  {
    if q[0].Exit? then 0 else 1 + Ahead(q[1..])
  }

  /** A push does not move the first EXIT. */
  lemma {:induction false} AheadStays(q: seq<Message>, m: Message)
    requires Exit in q
    ensures Exit in q + [m] && Ahead(q + [m]) == Ahead(q)
  {
    assert (q + [m])[0] == q[0];
    if !q[0].Exit? {
      assert (q + [m])[1..] == q[1..] + [m];
      AheadStays(q[1..], m);
    }
  }

  /** The worker has passed the gate and nothing can keep it from leaving: an EXIT is queued or popped, or the
      stop flag is set and it is not blocked in a pop. */
  ghost predicate Doomed(st: State) {
    && st.starter.Opened? && st.ready && !st.pc.Asleep?
    && (|| Exit in st.queue
        || Handles(st.pc, Exit)
        || (st.stopped && !(st.pc.Pop? && st.blocking && st.queue == [])))
  }

  /** Steps left for a doomed worker, at most. */
  ghost function ExitRank(st: State): nat
    requires Doomed(st)
  {
    if st.stopped || Handles(st.pc, Exit) || Exit !in st.queue then TailRank(st.pc)
    else
      3 * Ahead(st.queue) +
      match st.pc
      case Pop => 9
      case Inner => if st.valid then 10 else 17
      case Handle(_) => 11
      case Outer => 11
      case Gate => 12
      case Bottom(_) => 12
      case Settle(_) => 13
      case Tell(_) => 14
      case Call => 15
      case Drained => 16
      case _ => 0
  }

  lemma DoomedPop(c: Config, st: State, s: Status)
    requires Shape(c, st) && Doomed(st) && st.pc.Pop? && st.queue != []
    ensures Doomed(WorkerDo(c, st, s)) && ExitRank(WorkerDo(c, st, s)) < ExitRank(st)
  {
    assert st.queue == [st.queue[0]] + st.queue[1..];
  }

  lemma DoomedTests(c: Config, st: State, s: Status)
    requires Shape(c, st) && Doomed(st) && (st.pc.Gate? || st.pc.Outer? || st.pc.Inner?)
    ensures Doomed(WorkerDo(c, st, s)) && ExitRank(WorkerDo(c, st, s)) < ExitRank(st)
  {
    hide Ahead; hide HandleMessage; hide Settled;
  }

  lemma DoomedWorks(c: Config, st: State, s: Status)
    requires Shape(c, st) && Doomed(st) && (st.pc.Drained? || st.pc.Call? || st.pc.Tell? || st.pc.Bottom?)
    ensures Doomed(WorkerDo(c, st, s)) && ExitRank(WorkerDo(c, st, s)) < ExitRank(st)
  {
    hide Ahead; hide HandleMessage; hide Settled;
  }

  lemma DoomedEmpty(c: Config, st: State, s: Status)
    requires Shape(c, st) && Doomed(st) && Enabled(st) && st.pc.Pop? && st.queue == []
    ensures Doomed(WorkerDo(c, st, s)) && ExitRank(WorkerDo(c, st, s)) < ExitRank(st)
  {
    hide Ahead; hide HandleMessage; hide Settled;
  }

  lemma DoomedDone(c: Config, st: State, s: Status)
    requires Shape(c, st) && Doomed(st) && Handles(st.pc, Done)
    ensures Doomed(WorkerDo(c, st, s)) && ExitRank(WorkerDo(c, st, s)) < ExitRank(st)
  {
    hide Ahead; hide Settled;
    if Exit in st.queue {
      AheadStays(st.queue, NotifyAll);
    }
  }

  lemma DoomedHandle(c: Config, st: State, s: Status)
    requires Shape(c, st) && Doomed(st) && st.pc.Handle?
    ensures Doomed(WorkerDo(c, st, s)) && ExitRank(WorkerDo(c, st, s)) < ExitRank(st)
  {
    hide Ahead; hide Settled;
    if st.pc.msg.Done? {
      DoomedDone(c, st, s);
    }
  }

  lemma DoomedSettle(c: Config, st: State, s: Status)
    requires Shape(c, st) && Doomed(st) && st.pc.Settle?
    ensures Doomed(WorkerDo(c, st, s)) && ExitRank(WorkerDo(c, st, s)) < ExitRank(st)
  {
    hide Ahead; hide HandleMessage; hide ReportsFlushed;
    if Exit in st.queue {
      AheadStays(st.queue, NotifyAll);
    }
  }

  /** Every step of a doomed worker takes it closer to the exit. */
  lemma DoomedWorker(c: Config, st: State, s: Status)
    requires Shape(c, st) && Doomed(st) && Enabled(st)
    ensures Doomed(WorkerDo(c, st, s)) && ExitRank(WorkerDo(c, st, s)) < ExitRank(st)
  {
    if st.pc.Pop? {
      if st.queue != [] {
        DoomedPop(c, st, s);
      } else {
        DoomedEmpty(c, st, s);
      }
    } else if st.pc.Handle? {
      DoomedHandle(c, st, s);
    } else if st.pc.Settle? {
      DoomedSettle(c, st, s);
    } else if st.pc.Gate? || st.pc.Outer? || st.pc.Inner? {
      DoomedTests(c, st, s);
    } else {
      DoomedWorks(c, st, s);
    }
  }

  lemma DoomedPushed(st: State, m: Message)
    requires Doomed(st)
    ensures Doomed(Enqueue(st, m)) && ExitRank(Enqueue(st, m)) <= ExitRank(st)
  {
    hide Ahead;
    if Exit in st.queue {
      AheadStays(st.queue, m);
    }
  }

  lemma DoomedStop(c: Config, st: State)
    requires Shape(c, st) && Doomed(st)
    ensures Doomed(StopDo(st)) && ExitRank(StopDo(st)) <= ExitRank(st)
  {
    hide Ahead; hide Enqueue;
    match st.stopper
    case Idle => DoomedFlag(st);
    case Flagged => DoomedKill(st);
    case _ =>
  }

  lemma DoomedFlag(st: State)
    requires Doomed(st)
    ensures var st' := st.(stopper := Flagged, stopped := true); Doomed(st') && ExitRank(st') <= ExitRank(st)
  {
    hide Ahead;
  }

  lemma DoomedKill(st: State)
    requires Doomed(st)
    ensures var st' := Enqueue(st.(stopper := Joining), Exit); Doomed(st') && ExitRank(st') <= ExitRank(st)
  {
    hide Ahead;
    DoomedPushed(st.(stopper := Joining), Exit);
  }

  /** No step of another thread takes a doomed worker further from the exit. */
  lemma DoomedEnvironment(c: Config, st: State, step: Step)
    requires Shape(c, st) && Doomed(st) && !step.WorkerStep?
    ensures Doomed(Do(c, st, step)) && ExitRank(Do(c, st, step)) <= ExitRank(st)
  {
    hide Ahead; hide WorkerDo; hide ExitRank; hide StopDo;
    match step
    case Push(m) => DoomedPushed(st, m);
    case StopStep => DoomedStop(c, st);
    case _ =>
  }

  /** Whatever the other threads do, a doomed worker leaves within ExitRank of its own steps, and until then
      it can always take one. */
  lemma {:induction false} ExitIsReached(c: Config, run: seq<Step>, more: seq<Step>)
    requires Doomed(After(c, run))
    ensures var st, st' := After(c, run), Exec(c, After(c, run), more);
      && Doomed(st')
      && WorkerSteps(c, st, more) + ExitRank(st') <= ExitRank(st)
      && (st'.pc.Exited? || Enabled(st'))
  {
    var front := if more == [] then [] else more[..|more| - 1];
    ExecConcat(c, Init(), run, front);
    InvHolds(c, run + front);
    if more != [] {
      ExitIsReached(c, run, front);
      DoomedStep(c, After(c, run + front), more[|more| - 1]);
    }
  }

  lemma DoomedStep(c: Config, st: State, step: Step)
    requires Shape(c, st) && Doomed(st)
    ensures Doomed(Do(c, st, step))
    ensures ExitRank(Do(c, st, step)) + If(step.WorkerStep? && Enabled(st)) <= ExitRank(st)
    ensures Do(c, st, step).pc.Exited? || Enabled(Do(c, st, step))
  {
    if !step.WorkerStep? {
      DoomedEnvironment(c, st, step);
    } else if Enabled(st) {
      DoomedWorker(c, st, step.status);
    }
  }

  lemma NineSteps(c: Config, st: State, t: Tally)
    requires AllInv(c, st, t) && st.stopper.Joining? && st.starter.Opened?
    ensures Doomed(st) && ExitRank(st) <= 9
  {
    hide GateInv; hide RequestInv; hide FlushInv; hide DoneInv; hide PassInv; hide Ahead;
  }

  lemma AtTheExit(st: State)
    requires Doomed(st) && ExitRank(st) == 0
    ensures st.pc.Exited?
  {
    hide Ahead;
  }

  /** Once stop() has pushed its EXIT to a started group, the worker leaves within nine of its own steps, and
      nothing can block it before. */
  lemma StopReturns(c: Config, run: seq<Step>, more: seq<Step>)
    requires After(c, run).stopper.Joining? && After(c, run).starter.Opened?
    ensures var st, st' := After(c, run), Exec(c, After(c, run), more);
      && WorkerSteps(c, st, more) <= 9
      && (WorkerSteps(c, st, more) == 9 ==> st'.pc.Exited?)
      && (st'.pc.Exited? || Enabled(st'))
  {
    hide After; hide ExitRank; hide Doomed; hide WorkerSteps; hide Enabled;
    InvHolds(c, run);
    NineSteps(c, After(c, run), Totals(c, run));
    ExitIsReached(c, run, more);
    if ExitRank(Exec(c, After(c, run), more)) == 0 {
      AtTheExit(Exec(c, After(c, run), more));
    }
  }

  // ---- How much work one message can cause ----

  /** The most pops that one message can lead to: its own, and for DONE those of the NOTIFY_ALLs it causes. */
  function Weight(c: Config, m: Message): nat {
    if m.Done? then c.flushCount + 2 else 1
  }

  function Load(c: Config, q: seq<Message>): nat {
    if q == [] then 0 else Load(c, q[..|q| - 1]) + Weight(c, q[|q| - 1])
  }

  /** The NOTIFY_ALLs that the flush protocol has still to push. */
  function Budget(c: Config, st: State): nat {
    if st.flushing && c.flush && st.flushCnt + 1 < c.flushCount then c.flushCount - 1 - st.flushCnt else 0
  }

  function PcRank(c: Config, st: State): nat {
    if st.pc.Handle? then 40 * (Weight(c, st.pc.msg) - 1) + if st.stopped then 8 else 27
    else if st.stopped then TailRank(st.pc)
    else
      match st.pc
      case Settle(_) => 20
      case Tell(_) => 21
      case Call => 22
      case Outer => if st.blocking then 12 else 18
      case Bottom(again) => if again then 19 else 13
      case Asleep => 13
      case Gate => 14
      case Drained => if st.doWork then 23 else 14
      case Pop => if st.blocking then 10 else if st.doWork then 25 else 16
      case Inner =>
        if st.blocking then 11
        else if st.valid then (if st.doWork then 26 else 17)
        else if st.doWork then 24 else 15
      case _ => 0
  }

  /** An upper bound for the steps the worker can still take by itself. */
  function Fuel(c: Config, st: State): nat {
    40 * (Load(c, st.queue) + Budget(c, st)) + PcRank(c, st)
  }

  /** What a step of another thread can add to it. */
  function Supply(c: Config, step: Step): nat {
    match step
    case WorkerStep(_) => 0
    case Push(m) => 40 * Weight(c, m)
    case StartStep => 41
    case StopStep => 40
    case WakeUp => 1
  }

  function Supplies(c: Config, steps: seq<Step>): nat {
    if steps == [] then 0 else Supplies(c, steps[..|steps| - 1]) + Supply(c, steps[|steps| - 1])
  }

  lemma LoadPush(c: Config, q: seq<Message>, m: Message)
    ensures Load(c, q + [m]) == Load(c, q) + Weight(c, m)
  {
    assert (q + [m])[..|q + [m]| - 1] == q;
  }

  lemma {:induction false} LoadPop(c: Config, q: seq<Message>)
    requires q != []
    ensures Load(c, q) == Weight(c, q[0]) + Load(c, q[1..])
  {
    if |q| > 1 {
      LoadPop(c, q[..|q| - 1]);
      assert q[..|q| - 1][1..] == q[1..][..|q| - 2];
    } else {
      assert q == [] + [q[0]] && q[1..] == [];
      LoadPush(c, [], q[0]);
    }
  }

  lemma FuelPop(c: Config, st: State, s: Status)
    requires Shape(c, st) && st.pc.Pop? && st.queue != []
    ensures Fuel(c, WorkerDo(c, st, s)) < Fuel(c, st)
  {
    LoadPop(c, st.queue);
  }

  lemma FuelHandle(c: Config, st: State, s: Status)
    requires Shape(c, st) && st.pc.Handle?
    ensures Fuel(c, WorkerDo(c, st, s)) < Fuel(c, st)
  {
    hide Load;
    LoadPush(c, st.queue, NotifyAll);
  }

  lemma FuelSettle(c: Config, st: State, s: Status)
    requires Shape(c, st) && st.pc.Settle?
    ensures Fuel(c, WorkerDo(c, st, s)) < Fuel(c, st)
  {
    hide Load;
    LoadPush(c, st.queue, NotifyAll);
  }

  lemma FuelTests(c: Config, st: State, s: Status)
    requires Shape(c, st) && Enabled(st) && (st.pc.Gate? || st.pc.Outer? || st.pc.Inner? || st.pc.Pop?)
    requires st.pc.Pop? ==> st.queue == []
    ensures Fuel(c, WorkerDo(c, st, s)) < Fuel(c, st)
  {
    hide Load; hide Settled; hide HandleMessage; hide Weight;
  }

  lemma FuelWorks(c: Config, st: State, s: Status)
    requires Shape(c, st) && Enabled(st) && (st.pc.Drained? || st.pc.Call? || st.pc.Tell? || st.pc.Bottom?)
    ensures Fuel(c, WorkerDo(c, st, s)) < Fuel(c, st)
  {
    hide Load; hide Settled; hide HandleMessage; hide Weight;
  }

  /** Every step of the worker uses fuel up. */
  lemma FuelBurns(c: Config, st: State, s: Status)
    requires Shape(c, st) && Enabled(st)
    ensures Fuel(c, WorkerDo(c, st, s)) < Fuel(c, st)
  {
    if st.pc.Handle? {
      FuelHandle(c, st, s);
    } else if st.pc.Settle? {
      FuelSettle(c, st, s);
    } else if st.pc.Pop? && st.queue != [] {
      FuelPop(c, st, s);
    } else if st.pc.Gate? || st.pc.Outer? || st.pc.Inner? || st.pc.Pop? {
      FuelTests(c, st, s);
    } else {
      FuelWorks(c, st, s);
    }
  }

  lemma FuelStart(c: Config, st: State)
    requires Shape(c, st)
    ensures Fuel(c, StartDo(c, st)) <= Fuel(c, st) + 41
  {
    match st.starter
    case Starting(_) => LoadPush(c, st.queue, NotifyAll);
    case _ =>
  }

  lemma FuelStop(c: Config, st: State)
    requires Shape(c, st)
    ensures Fuel(c, StopDo(st)) <= Fuel(c, st) + 40
  {
    match st.stopper
    case Idle =>
    case Flagged => LoadPush(c, st.queue, Exit);
    case _ =>
  }

  lemma FuelStep(c: Config, st: State, step: Step)
    requires Shape(c, st)
    ensures Fuel(c, Do(c, st, step)) + If(step.WorkerStep? && Enabled(st)) <= Fuel(c, st) + Supply(c, step)
  {
    match step
    case WorkerStep(s) =>
      if Enabled(st) {
        FuelBurns(c, st, s);
      }
    case Push(m) => LoadPush(c, st.queue, m);
    case StartStep => FuelStart(c, st);
    case StopStep => FuelStop(c, st);
    case WakeUp =>
  }

  /** Finitely many outside events cause finitely many steps: from any point of any run the worker takes at
      most Fuel steps plus what the other threads supply, so without further events it comes to rest. */
  lemma {:induction false} WorkIsBounded(c: Config, run: seq<Step>, more: seq<Step>)
    ensures var st := After(c, run);
      WorkerSteps(c, st, more) + Fuel(c, Exec(c, st, more)) <= Fuel(c, st) + Supplies(c, more)
  {
    if more != [] {
      var front := more[..|more| - 1];
      WorkIsBounded(c, run, front);
      ExecConcat(c, Init(), run, front);
      InvHolds(c, run + front);
      FuelStep(c, After(c, run + front), more[|more| - 1]);
    }
  }

  // ---- The first work call ----

  /** No EXIT is on its way and the stop flag is not set. */
  predicate NoExit(st: State) {
    !st.stopped && Exit !in st.queue && !Handles(st.pc, Exit)
  }

  lemma NoExitPushed(c: Config, st: State, s: Status)
    requires NoExit(st) && (st.pc.Handle? || st.pc.Settle?)
    ensures NoExit(WorkerDo(c, st, s))
  {
    hide ReportsFlushed;
  }

  lemma NoExitStays(c: Config, st: State, s: Status)
    requires Enabled(st) && NoExit(st)
    ensures NoExit(WorkerDo(c, st, s))
  {
    hide WorkerDo;
    if st.pc.Handle? || st.pc.Settle? {
      NoExitPushed(c, st, s);
    } else if st.pc.Pop? {
      NoExitPopped(c, st, s);
    } else {
      NoExitOther(c, st, s);
    }
  }

  lemma NoExitPopped(c: Config, st: State, s: Status)
    requires st.pc.Pop? && Enabled(st) && NoExit(st)
    ensures NoExit(WorkerDo(c, st, s))
  {
    if st.queue != [] {
      assert st.queue[0] in st.queue && forall m :: m in st.queue[1..] ==> m in st.queue;
    }
  }

  lemma NoExitOther(c: Config, st: State, s: Status)
    requires Enabled(st) && NoExit(st) && !st.pc.Handle? && !st.pc.Settle? && !st.pc.Pop?
    ensures NoExit(WorkerDo(c, st, s))
  {
    hide HandleMessage; hide Settled;
  }

  lemma {:induction false} EnabledAllAlong(c: Config, run: seq<Step>, more: seq<Step>)
    requires forall i :: 0 <= i < |more| ==> more[i].WorkerStep?
    ensures Exec(c, After(c, run), more) == After(c, run + more) && Supplies(c, more) == 0
    ensures Enabled(After(c, run + more)) ==> WorkerSteps(c, After(c, run), more) == |more|
  {
    hide WorkerDo; hide Enabled;
    ExecConcat(c, Init(), run, more);
    if more != [] {
      var front := more[..|more| - 1];
      EnabledAllAlong(c, run, front);
    }
  }

  /** Left to itself, the worker comes to rest within Fuel steps. */
  lemma AloneComesToRest(c: Config, run: seq<Step>, more: seq<Step>)
    requires forall i :: 0 <= i < |more| ==> more[i].WorkerStep?
    requires |more| > Fuel(c, After(c, run))
    ensures !Enabled(After(c, run + more))
  {
    hide Enabled; hide Fuel; hide WorkerSteps; hide Supplies; hide After; hide Exec;
    EnabledAllAlong(c, run, more);
    WorkIsBounded(c, run, more);
  }

  lemma {:induction false} NoExitAlone(c: Config, run: seq<Step>, more: seq<Step>)
    requires forall i :: 0 <= i < |more| ==> more[i].WorkerStep?
    requires NoExit(After(c, run)) && After(c, run).starter.Opened?
    ensures NoExit(After(c, run + more)) && After(c, run + more).starter.Opened?
  {
    hide WorkerDo; hide NoExit; hide Enabled;
    if more == [] {
      assert run + more == run;
    } else {
      var front, last := more[..|more| - 1], more[|more| - 1];
      NoExitAlone(c, run, front);
      var st := After(c, run + front);
      assert run + more == run + front + [last];
      WorkerTheorems.OneMore(c, run + front, last);
      if Enabled(st) {
        NoExitStays(c, st, last.status);
        WorkerTheorems.WorkerKeepsCallers(c, st, last.status);
      }
    }
  }

  /** A group whose start() has returned, with no EXIT on its way, gets its first work call: left to itself, the
      worker comes to rest within Fuel steps, behind a work call. */
  lemma StartIsFollowedByWork(c: Config, run: seq<Step>, more: seq<Step>)
    requires After(c, run).starter.Opened? && NoExit(After(c, run))
    requires forall i :: 0 <= i < |more| ==> more[i].WorkerStep?
    requires |more| > Fuel(c, After(c, run))
    ensures !Enabled(After(c, run + more)) && Totals(c, run + more).works > 0
  {
    hide Enabled; hide Fuel; hide After; hide Totals;
    AloneComesToRest(c, run, more);
    NoExitAlone(c, run, more);
    WorkerTheorems.StartLeadsToWork(c, run + more);
  }

  // ---- A flush with nothing else going on ----

  /** The queue and the message at hand while a DONE is flushed with nothing else going on. */
  ghost predicate QuietQueue(st: State) {
    && (st.queue == [] || (st.queue == [NotifyAll] && !st.pc.Drained? && !st.pc.Call? && !Unsettled(st.pc)))
    && (st.pc.Inner? && !st.valid ==> st.queue == [])
    && (st.pc.Handle? ==> st.queue == [] && (st.pc.msg.Done? || st.pc.msg.NotifyAll?))
  }

  /** DONE is the only message that ever arrived since the worker was blocked with `before` DONEs popped. */
  ghost predicate Quiet(c: Config, st: State, t: Tally, before: nat) {
    && !st.stopped
    && if t.dones == before then st.pc.Pop? && st.blocking && st.queue == [Done]
       else
         && t.dones == before + 1
         && QuietQueue(st)
         && t.doneFlushed <= 1
         && (t.doneFlushed == 1 ==> st.queue == [] && t.pending == 0 && !Unsettled(st.pc) && t.doneWorks == Rounds(c))
  }

  lemma QuietPop(c: Config, st: State, t: Tally, s: Status, before: nat)
    requires AllInv(c, st, t) && Quiet(c, st, t, before) && st.pc.Pop? && st.queue != []
    ensures Quiet(c, WorkerDo(c, st, s), Note(c.blocks, t, WorkerEmits(c, st, s)), before)
  {
    assert st.queue[1..] == [];
  }

  lemma QuietPush(c: Config, st: State, t: Tally, s: Status, before: nat)
    requires AllInv(c, st, t) && Quiet(c, st, t, before) && (st.pc.Handle? || st.pc.Settle?)
    ensures Quiet(c, WorkerDo(c, st, s), Note(c.blocks, t, WorkerEmits(c, st, s)), before)
  {
    assert [] + [NotifyAll] == [NotifyAll];
  }

  lemma QuietOther(c: Config, st: State, t: Tally, s: Status, before: nat)
    requires AllInv(c, st, t) && Quiet(c, st, t, before) && Enabled(st)
    requires !st.pc.Handle? && !st.pc.Settle? && (st.pc.Pop? ==> st.queue == [])
    ensures Quiet(c, WorkerDo(c, st, s), Note(c.blocks, t, WorkerEmits(c, st, s)), before)
  {
  }

  lemma QuietStep(c: Config, st: State, t: Tally, s: Status, before: nat)
    requires AllInv(c, st, t) && Quiet(c, st, t, before) && Enabled(st)
    ensures Quiet(c, WorkerDo(c, st, s), Note(c.blocks, t, WorkerEmits(c, st, s)), before)
  {
    if st.pc.Handle? || st.pc.Settle? {
      QuietPush(c, st, t, s, before);
    } else if st.pc.Pop? && st.queue != [] {
      QuietPop(c, st, t, s, before);
    } else {
      QuietOther(c, st, t, s, before);
    }
  }

  lemma {:induction false} StaysQuiet(c: Config, run: seq<Step>, quiet: seq<Step>, before: nat)
      returns (st: State, t: Tally)
    requires Quiet(c, After(c, run), Totals(c, run), before)
    requires forall i :: 0 <= i < |quiet| ==> quiet[i].WorkerStep?
    ensures st == After(c, run + quiet) && t == Totals(c, run + quiet)
    ensures Quiet(c, st, t, before)
  {
    if quiet == [] {
      assert run + quiet == run;
      st, t := After(c, run), Totals(c, run);
    } else {
      var front, s := quiet[..|quiet| - 1], quiet[|quiet| - 1].status;
      var st0, t0 := StaysQuiet(c, run, front, before);
      assert run + quiet == run + front + [WorkerStep(s)];
      WorkerTheorems.OneMore(c, run + front, WorkerStep(s));
      st, t := Do(c, st0, WorkerStep(s)), Note(c.blocks, t0, Emits(c, st0, WorkerStep(s)));
      InvHolds(c, run + front);
      if Enabled(st0) {
        QuietStep(c, st0, t0, s, before);
      }
    }
  }

  lemma AtRest(c: Config, st: State, t: Tally, before: nat)
    requires AllInv(c, st, t) && Quiet(c, st, t, before) && !Enabled(st)
    ensures st.pc.Pop? && st.blocking && st.queue == []
    ensures t.dones == before + 1 && t.doneWorks == Rounds(c) && t.doneFlushed == 1
  {
  }

  /** A DONE that reaches a blocked worker, with nothing else going on, within Fuel steps makes exactly
      max(1, flush_count) work calls (one when flushing is off) and one FLUSHED report; then the worker blocks
      again. */
  lemma QuietFlush(c: Config, run: seq<Step>, quiet: seq<Step>)
    requires After(c, run).pc.Pop? && !Enabled(After(c, run)) && !After(c, run).stopped
    requires forall i :: 0 <= i < |quiet| ==> quiet[i].WorkerStep?
    requires |quiet| > Fuel(c, After(c, run + [Push(Done)]))
    ensures var st, t := After(c, run + [Push(Done)] + quiet), Totals(c, run + [Push(Done)] + quiet);
      && st.pc.Pop? && st.blocking && st.queue == []
      && t.dones == Totals(c, run).dones + 1
      && t.doneWorks == (if c.flush then WorkerTheorems.Max(1, c.flushCount) else 1)
      && t.doneFlushed == 1
  {
    InvHolds(c, run);
    WorkerTheorems.OneMore(c, run, Push(Done));
    var d := Totals(c, run).dones;
    var st, t := StaysQuiet(c, run + [Push(Done)], quiet, d);
    InvHolds(c, run + [Push(Done)] + quiet);
    AloneComesToRest(c, run + [Push(Done)], quiet);
    AtRest(c, st, t, d);
  }
}
