/** What do_work of a block returns. */
module Returns {

  datatype Return = OK | DONE | INSUFFICIENT_INPUT | INSUFFICIENT_OUTPUT | OtherReturn

  predicate Finishes(r: Return) { r.OK? || r.DONE? }

  predicate Insufficient(r: Return) { r.INSUFFICIENT_INPUT? || r.INSUFFICIENT_OUTPUT? }
}

/** How an iteration waits for the last block: the executor installs a callback, calls do_work, which may hand
    that callback to the inference client, and sleeps on a condition variable until the callback has set a flag
    under a mutex. Mutex, condition variable and flag are made anew for every attempt. A step that is not
    enabled changes nothing, so every finite sequence of steps is a run. */
module Handshake {
  import opened Returns

  /** Where a callback stands: not handed over yet, on its way, holding the mutex, behind it, finished. */
  datatype Callback = NotHandedOver | Coming | Locked | Unlocked | Notified

  /** What one attempt owns. */
  datatype Frame = Frame(ready: bool, callback: Callback)

  datatype Pc =
    | Start                   // before the callback of the next attempt is installed
    | Working                 // in do_work of the last block
    | Locking(ret: Return)    // do_work returned, the mutex is wanted
    | Checking(ret: Return)   // the mutex is held, the flag is read
    | Sleeping(ret: Return)   // in cv.wait, without the mutex
    | Publishing              // the block loop is over
    | Ended

  /** `installed` is the attempt whose callback the block's field holds, if any. */
  datatype State = State(pc: Pc, frames: seq<Frame>, installed: int, passed: bool)

  datatype Step =
    | Executor(ret: Return)   // the next step of the executor; `ret` is what do_work returns, if it returns
    | HandOver                // do_work submits the request, with the callback the block holds
    | Client(attempt: nat)    // the next step of an attempt's callback
    | WakeUp                  // a spurious wake-up

  datatype Event =
    | Silent
    | Installed(attempt: int)
    | Returned(attempt: int, ret: Return)
    | Fired(attempt: int)     // the callback has set its flag
    | Passed(attempt: int)    // the wait is over
    | Published(attempt: int) // post_read and post_write

  function Init(): State {
    State(Start, [], -1, false)
  }

  /** The running attempt. */
  function Current(st: State): int {
    |st.frames| - 1
  }

  function Held(st: State): bool {
    st.frames != [] && st.frames[Current(st)].callback.Locked?
  }

  function ExecutorDo(st: State, ret: Return): State {
    match st.pc
    case Start => st.(pc := Working, frames := st.frames + [Frame(false, NotHandedOver)], installed := |st.frames|,
                      passed := false)
    case Working =>
      if Finishes(ret) then st.(pc := Locking(ret))
      else if Insufficient(ret) then st.(pc := Publishing)
      else st.(pc := Start)
    case Locking(r) => if Held(st) then st else st.(pc := Checking(r))
    case Checking(r) =>
      if st.frames != [] && st.frames[Current(st)].ready then st.(pc := Publishing, passed := true)
      else st.(pc := Sleeping(r))
    case Sleeping(_) => st
    case Publishing => st.(pc := Ended)
    case Ended => st.(pc := Start)
  }

  /** The callback of an attempt: take its mutex, set its flag, release the mutex, notify. */
  function ClientDo(st: State, k: nat): State {
    if k >= |st.frames| then st
    else
      var f := st.frames[k];
      match f.callback
      case Coming =>
        if k == Current(st) && st.pc.Checking? then st
        else st.(frames := st.frames[k := Frame(true, Locked)])
      case Locked => st.(frames := st.frames[k := f.(callback := Unlocked)])
      case Unlocked =>
        var st' := st.(frames := st.frames[k := f.(callback := Notified)]);
        if k == Current(st) && st.pc.Sleeping? then st'.(pc := Locking(st.pc.ret)) else st'
      case _ => st
  }

  function Do(st: State, step: Step): State {
    match step
    case Executor(ret) => ExecutorDo(st, ret)
    case HandOver =>
      if st.pc.Working? && 0 <= st.installed < |st.frames| && st.frames[st.installed].callback.NotHandedOver?
      then st.(frames := st.frames[st.installed := st.frames[st.installed].(callback := Coming)])
      else st
    case Client(k) => ClientDo(st, k)
    case WakeUp => if st.pc.Sleeping? then st.(pc := Locking(st.pc.ret)) else st
  }

  function Emits(st: State, step: Step): Event {
    match step
    case Executor(ret) =>
      if st.pc.Start? then Installed(|st.frames|)
      else if st.pc.Working? && st.frames != [] then Returned(Current(st), ret)
      else if st.pc.Checking? && st.frames != [] && st.frames[Current(st)].ready then Passed(Current(st))
      else if st.pc.Publishing? && st.frames != [] then Published(Current(st))
      else Silent
    case Client(k) =>
      if k < |st.frames| && st.frames[k].callback.Coming? && !(k == Current(st) && st.pc.Checking?) then Fired(k)
      else Silent
    case _ => Silent
  }

  function After(run: seq<Step>): State {
    if run == [] then Init() else Do(After(run[..|run| - 1]), run[|run| - 1])
  }

  function Trace(run: seq<Step>): (h: seq<Event>)
    ensures |h| == |run|
  {
    if run == [] then []
    else
      var front := run[..|run| - 1];
      Trace(front) + [Emits(After(front), run[|run| - 1])]
  }

  // ---- What every step keeps ----

  /** The executor is between its do_work and the end of its wait. */
  predicate Waiting(st: State) {
    st.pc.Locking? || st.pc.Checking? || st.pc.Sleeping?
  }

  predicate FrameOk(f: Frame) {
    f.ready <==> f.callback.Locked? || f.callback.Unlocked? || f.callback.Notified?
  }

  /** The frames: the flag of an attempt is set by its own callback only, and a sleeping executor whose flag is
      set has a notify still to come. */
  ghost predicate FrameInv(st: State) {
    && (!st.pc.Start? ==> st.frames != [] && st.installed == Current(st))
    && (forall k :: 0 <= k < |st.frames| ==> FrameOk(st.frames[k]))
    && (st.pc.Checking? ==> !Held(st))
    && (st.pc.Sleeping? ==> !st.frames[Current(st)].callback.Notified?)
  }

  /** The history: who was installed, who fired, what do_work returned. */
  ghost predicate HistoryInv(st: State, h: seq<Event>) {
    && (forall k :: 0 <= k < |st.frames| <==> Installed(k) in h)
    && (forall k :: 0 <= k < |st.frames| && st.frames[k].ready <==> Fired(k) in h)
    && (forall k, r :: Returned(k, r) in h ==> k < |st.frames|)
    && (st.pc.Working? ==> forall r :: Returned(Current(st), r) !in h)
    && (st.pc.Working? ==> Passed(Current(st)) !in h)
    && (forall k :: Passed(k) in h ==> k < |st.frames|)
    && (st.passed && !st.pc.Start? ==> st.frames != [] && Passed(Current(st)) in h)
    && (st.pc.Publishing? && !st.passed ==>
          forall r :: Returned(Current(st), r) in h ==> Insufficient(r))
  }

  lemma FrameStep(st: State, step: Step)
    requires FrameInv(st)
    ensures FrameInv(Do(st, step))
  {
  }

  lemma HistoryExecutor(st: State, h: seq<Event>, ret: Return)
    requires FrameInv(st) && HistoryInv(st, h)
    ensures HistoryInv(ExecutorDo(st, ret), h + [Emits(st, Executor(ret))])
  {
    var e := Emits(st, Executor(ret));
    assert forall x :: x in h + [e] <==> x in h || x == e;
  }

  lemma HistoryClient(st: State, h: seq<Event>, step: Step)
    requires FrameInv(st) && HistoryInv(st, h) && !step.Executor?
    ensures HistoryInv(Do(st, step), h + [Emits(st, step)])
  {
    var e := Emits(st, step);
    assert forall x :: x in h + [e] <==> x in h || x == e;
  }

  lemma {:induction false} InvHolds(run: seq<Step>)
    ensures FrameInv(After(run)) && HistoryInv(After(run), Trace(run))
  {
    if run != [] {
      var front, last := run[..|run| - 1], run[|run| - 1];
      InvHolds(front);
      FrameStep(After(front), last);
      if last.Executor? {
        HistoryExecutor(After(front), Trace(front), last.ret);
      } else {
        HistoryClient(After(front), Trace(front), last);
      }
    }
  }

  lemma {:induction false} TracePrefix(run: seq<Step>, n: nat)
    requires n <= |run|
    ensures Trace(run)[..n] == Trace(run[..n])
    ensures n < |run| ==> Trace(run)[n] == Emits(After(run[..n]), run[n])
  {
    if n == |run| {
      assert run[..n] == run && Trace(run)[..n] == Trace(run);
    } else {
      TracePrefix(run[..|run| - 1], n);
      assert run[..|run| - 1][..n] == run[..n];
    }
  }

  // ---- Over every run ----

  /** The state and the history in front of step `j`. */
  lemma Before(run: seq<Step>, j: nat) returns (st: State, h: seq<Event>)
    requires j < |run|
    ensures FrameInv(st) && HistoryInv(st, h)
    ensures h == Trace(run)[..j] && Trace(run)[j] == Emits(st, run[j])
  {
    TracePrefix(run, j);
    InvHolds(run[..j]);
    st, h := After(run[..j]), Trace(run)[..j];
  }

  lemma FiredBefore(st: State, h: seq<Event>, step: Step, k: int)
    requires FrameInv(st) && HistoryInv(st, h) && Emits(st, step) == Passed(k)
    ensures Fired(k) in h && forall n :: Installed(n) in h ==> n <= k
  {
  }

  /** The executor passes its wait only behind the callback of that same do_work: the flag it saw was set by
      the callback installed for attempt `k`, and `k` is the latest attempt. */
  lemma WaitEndsOnItsOwnCallback(run: seq<Step>, j: nat, k: int)
    requires j < |run| && Trace(run)[j] == Passed(k)
    ensures exists i :: 0 <= i < j && Trace(run)[i] == Fired(k)
    ensures forall i, n :: 0 <= i < j && Trace(run)[i] == Installed(n) ==> n <= k
  {
    var st, h := Before(run, j);
    FiredBefore(st, h, run[j], k);
    forall i, n | 0 <= i < j && Trace(run)[i] == Installed(n)
      ensures n <= k
    {
      assert h[i] == Installed(n);
    }
  }

  lemma InstalledBefore(st: State, h: seq<Event>, step: Step, k: int)
    requires FrameInv(st) && HistoryInv(st, h) && Emits(st, step) == Fired(k)
    ensures Installed(k) in h && Fired(k) !in h
  {
  }

  /** A callback sets its flag only behind its own installation, and only once. */
  lemma FiresOnceInstalled(run: seq<Step>, j: nat, k: int)
    requires j < |run| && Trace(run)[j] == Fired(k)
    ensures exists i :: 0 <= i < j && Trace(run)[i] == Installed(k)
    ensures forall i :: 0 <= i < j ==> Trace(run)[i] != Fired(k)
  {
    var st, h := Before(run, j);
    InstalledBefore(st, h, run[j], k);
    forall i | 0 <= i < j
      ensures Trace(run)[i] != Fired(k)
    {
      assert h[i] in h;
    }
  }

  lemma PassedBefore(st: State, h: seq<Event>, step: Step, k: int, r: Return)
    requires FrameInv(st) && HistoryInv(st, h) && Emits(st, step) == Published(k)
    requires Returned(k, r) in h && Finishes(r)
    ensures Passed(k) in h
  {
  }

  lemma NotPassedYet(st: State, h: seq<Event>, step: Step, k: int, r: Return)
    requires FrameInv(st) && HistoryInv(st, h) && Emits(st, step) == Returned(k, r)
    ensures Passed(k) !in h
  {
  }

  /** Nothing is published for a do_work that returned OK or DONE before its wait, begun since, is over. */
  lemma NothingPublishedBeforeTheWait(run: seq<Step>, i: nat, j: nat, k: int, r: Return)
    requires i < j < |run|
    requires Trace(run)[i] == Returned(k, r) && Finishes(r) && Trace(run)[j] == Published(k)
    ensures exists m :: i < m < j && Trace(run)[m] == Passed(k)
  {
    hide FrameInv; hide HistoryInv; hide Emits; hide After; hide Trace;
    var st, h := Before(run, j);
    assert h[i] == Returned(k, r);
    PassedBefore(st, h, run[j], k, r);
    var st', h' := Before(run, i);
    NotPassedYet(st', h', run[i], k, r);
    forall m | 0 <= m < i
      ensures Trace(run)[m] != Passed(k)
    {
      assert h'[m] in h';
    }
    var m :| 0 <= m < j && h[m] == Passed(k);
  }

  // ---- What ends an attempt ----

  /** What do_work returned, against what has been published. */
  ghost predicate ReturnInv(st: State, h: seq<Event>) {
    && (forall k :: Published(k) in h ==> k < |st.frames|)
    && (forall k, r :: Returned(k, r) in h ==> k < |st.frames|)
    && (st.pc.Working? ==> Published(Current(st)) !in h && forall r :: Returned(Current(st), r) !in h)
    && (forall k :: Returned(k, INSUFFICIENT_INPUT) in h || Returned(k, INSUFFICIENT_OUTPUT) in h ==>
          Published(k) in h || (st.pc.Publishing? && k == Current(st)))
    && (forall k :: Returned(k, OtherReturn) in h ==> Published(k) !in h)
    && (Waiting(st) || st.pc.Publishing? ==> Returned(Current(st), OtherReturn) !in h)
    && (Waiting(st) ==> Returned(Current(st), st.pc.ret) in h && Finishes(st.pc.ret))
    && (st.pc.Publishing? ==>
          || Returned(Current(st), OK) in h || Returned(Current(st), DONE) in h
          || Returned(Current(st), INSUFFICIENT_INPUT) in h || Returned(Current(st), INSUFFICIENT_OUTPUT) in h)
  }

  lemma Recorded(h: seq<Event>, e: Event)
    ensures forall x :: x in h + [e] <==> x in h || x == e
  {
  }

  lemma ReturnWorking(st: State, h: seq<Event>, ret: Return)
    requires FrameInv(st) && ReturnInv(st, h) && st.pc.Working?
    ensures ReturnInv(ExecutorDo(st, ret), h + [Emits(st, Executor(ret))])
  {
    Recorded(h, Emits(st, Executor(ret)));
  }

  lemma ReturnPublishing(st: State, h: seq<Event>, ret: Return)
    requires FrameInv(st) && ReturnInv(st, h) && st.pc.Publishing?
    ensures ReturnInv(ExecutorDo(st, ret), h + [Emits(st, Executor(ret))])
  {
    Recorded(h, Emits(st, Executor(ret)));
  }

  lemma ReturnStarting(st: State, h: seq<Event>, ret: Return)
    requires FrameInv(st) && ReturnInv(st, h) && (st.pc.Start? || st.pc.Ended?)
    ensures ReturnInv(ExecutorDo(st, ret), h + [Emits(st, Executor(ret))])
  {
    Recorded(h, Emits(st, Executor(ret)));
  }

  lemma ReturnWaiting(st: State, h: seq<Event>, ret: Return)
    requires FrameInv(st) && ReturnInv(st, h) && Waiting(st)
    ensures ReturnInv(ExecutorDo(st, ret), h + [Emits(st, Executor(ret))])
  {
    Recorded(h, Emits(st, Executor(ret)));
  }

  lemma ReturnElsewhere(st: State, h: seq<Event>, step: Step)
    requires FrameInv(st) && ReturnInv(st, h) && !step.Executor?
    ensures ReturnInv(Do(st, step), h + [Emits(st, step)])
  {
    hide Do; hide Emits; hide ReturnInv; hide FrameInv;
    ElsewhereLeaves(st, step);
    Recorded(h, Emits(st, step));
    ReturnSame(st, h, Do(st, step), h + [Emits(st, step)]);
  }

  lemma ReturnSame(st: State, h: seq<Event>, st': State, h': seq<Event>)
    requires ReturnInv(st, h) && |st'.frames| == |st.frames|
    requires st'.pc == st.pc || (st.pc.Sleeping? && st'.pc == Locking(st.pc.ret))
    requires forall k, r :: Returned(k, r) in h' <==> Returned(k, r) in h
    requires forall k :: Published(k) in h' <==> Published(k) in h
    ensures ReturnInv(st', h')
  {
  }

  lemma ElsewhereLeaves(st: State, step: Step)
    requires !step.Executor?
    ensures var st', e := Do(st, step), Emits(st, step);
      && |st'.frames| == |st.frames| && !e.Returned? && !e.Published?
      && (st'.pc == st.pc || (st.pc.Sleeping? && st'.pc == Locking(st.pc.ret)))
  {
  }

  lemma ReturnStep(st: State, h: seq<Event>, step: Step)
    requires FrameInv(st) && ReturnInv(st, h)
    ensures ReturnInv(Do(st, step), h + [Emits(st, step)])
  {
    hide FrameInv; hide ReturnInv; hide ExecutorDo; hide ClientDo; hide Emits;
    if !step.Executor? {
      ReturnElsewhere(st, h, step);
    } else if st.pc.Working? {
      ReturnWorking(st, h, step.ret);
    } else if st.pc.Publishing? {
      ReturnPublishing(st, h, step.ret);
    } else if Waiting(st) {
      ReturnWaiting(st, h, step.ret);
    } else {
      ReturnStarting(st, h, step.ret);
    }
  }

  lemma {:induction false} ReturnsHold(run: seq<Step>)
    ensures ReturnInv(After(run), Trace(run))
  {
    hide FrameInv; hide ReturnInv; hide Do; hide Emits;
    if run == [] {
      NothingReturned();
    } else {
      var front, last := run[..|run| - 1], run[|run| - 1];
      ReturnsHold(front);
      InvHolds(front);
      ReturnStep(After(front), Trace(front), last);
    }
  }

  lemma NothingReturned()
    ensures ReturnInv(Init(), [])
  {
  }

  /** The state and the history in front of step `j`. */
  lemma ReturnsBefore(run: seq<Step>, j: nat) returns (st: State, h: seq<Event>)
    requires j < |run|
    ensures FrameInv(st) && ReturnInv(st, h)
    ensures h == Trace(run)[..j] && Trace(run)[j] == Emits(st, run[j])
  {
    TracePrefix(run, j);
    InvHolds(run[..j]);
    ReturnsHold(run[..j]);
    st, h := After(run[..j]), Trace(run)[..j];
  }

  lemma AtReturn(st: State, h: seq<Event>, step: Step, k: int, r: Return)
    requires FrameInv(st) && ReturnInv(st, h) && Emits(st, step) == Returned(k, r)
    ensures Published(k) !in h
  {
  }

  lemma AtInstall(st: State, h: seq<Event>, step: Step, n: int, k: int)
    requires FrameInv(st) && ReturnInv(st, h) && Emits(st, step) == Installed(n)
    requires Returned(k, INSUFFICIENT_INPUT) in h || Returned(k, INSUFFICIENT_OUTPUT) in h
    ensures Published(k) in h
  {
  }

  /** Insufficient items or room ends the attempts: before a next one begins, the iteration is published. */
  lemma InsufficientIsFinal(run: seq<Step>, i: nat, j: nat, k: int, n: int)
    requires i < j < |run| && Trace(run)[j] == Installed(n)
    requires Trace(run)[i] == Returned(k, INSUFFICIENT_INPUT) || Trace(run)[i] == Returned(k, INSUFFICIENT_OUTPUT)
    ensures exists m :: i < m < j && Trace(run)[m] == Published(k)
  {
    hide FrameInv; hide ReturnInv; hide Emits; hide After; hide Trace;
    var st, h := ReturnsBefore(run, j);
    assert h[i] in h;
    AtInstall(st, h, run[j], n, k);
    var st', h' := ReturnsBefore(run, i);
    if Trace(run)[i] == Returned(k, INSUFFICIENT_INPUT) {
      AtReturn(st', h', run[i], k, INSUFFICIENT_INPUT);
    } else {
      AtReturn(st', h', run[i], k, INSUFFICIENT_OUTPUT);
    }
    forall m | 0 <= m < i
      ensures Trace(run)[m] != Published(k)
    {
      assert h'[m] in h';
    }
    var m :| 0 <= m < j && h[m] == Published(k);
  }

  lemma AtPublish(st: State, h: seq<Event>, step: Step, k: int)
    requires FrameInv(st) && ReturnInv(st, h) && Emits(st, step) == Published(k)
    ensures || Returned(k, OK) in h || Returned(k, DONE) in h
            || Returned(k, INSUFFICIENT_INPUT) in h || Returned(k, INSUFFICIENT_OUTPUT) in h
    ensures Returned(k, OtherReturn) !in h
  {
  }

  /** An iteration is published only behind an attempt that returned OK, DONE, or insufficient items or room; any
      other return value starts another attempt. */
  lemma OtherReturnsRetry(run: seq<Step>, j: nat, k: int)
    requires j < |run| && Trace(run)[j] == Published(k)
    ensures exists i ::
      && 0 <= i < j
      && (|| Trace(run)[i] == Returned(k, OK) || Trace(run)[i] == Returned(k, DONE)
          || Trace(run)[i] == Returned(k, INSUFFICIENT_INPUT) || Trace(run)[i] == Returned(k, INSUFFICIENT_OUTPUT))
    ensures forall i :: 0 <= i < j ==> Trace(run)[i] != Returned(k, OtherReturn)
  {
    hide FrameInv; hide ReturnInv; hide Emits; hide After; hide Trace;
    var st, h := ReturnsBefore(run, j);
    AtPublish(st, h, run[j], k);
    assert forall i :: 0 <= i < j ==> h[i] in h;
    var i :| 0 <= i < j &&
      (|| h[i] == Returned(k, OK) || h[i] == Returned(k, DONE)
       || h[i] == Returned(k, INSUFFICIENT_INPUT) || h[i] == Returned(k, INSUFFICIENT_OUTPUT));
  }

  /** No lost wakeup: whenever the executor sleeps although its flag is set, the callback has still to notify. */
  lemma {:induction false} NoLostWakeup(run: seq<Step>)
    requires After(run).pc.Sleeping? && After(run).frames != []
    requires After(run).frames[Current(After(run))].ready
    ensures After(run).frames[Current(After(run))].callback.Locked?
         || After(run).frames[Current(After(run))].callback.Unlocked?
  {
    InvHolds(run);
  }

  // ---- The wait ends if and only if the request was handed over ----

  /** The callback of the running attempt was never handed to the client. */
  predicate Orphaned(st: State) {
    Waiting(st) && st.frames != [] && st.frames[Current(st)].callback.NotHandedOver?
  }

  function CallbackRank(c: Callback): nat {
    match c
    case NotHandedOver => 0
    case Coming => 3
    case Locked => 2
    case Unlocked => 1
    case Notified => 0
  }

  /** Steps left until the wait is over, at most. */
  function Rank(st: State): nat {
    if !Waiting(st) || st.frames == [] then 0
    else 3 * CallbackRank(st.frames[Current(st)].callback)
         + (match st.pc case Locking(_) => 3 case Checking(_) => 2 case _ => 1)
  }

  /** The step changes where the executor or the callback it waits for stands, and is no spurious wake-up. */
  predicate Moves(st: State, step: Step) {
    !step.WakeUp? && st.frames != [] && Do(st, step).frames != [] &&
    (Do(st, step).pc != st.pc || Do(st, step).frames[Current(Do(st, step))] != st.frames[Current(st)])
  }

  /** Every such step of a wait with a request handed over brings its end closer, and there always is one. */
  lemma WaitStep(st: State, step: Step)
    requires FrameInv(st) && Waiting(st) && !Orphaned(st)
    ensures var st' := Do(st, step);
      || (st'.pc.Publishing? && st'.passed)
      || (Waiting(st') && !Orphaned(st') && Current(st') == Current(st)
          && Rank(st') + (if Moves(st, step) then 1 else 0) <= Rank(st) + if step.WakeUp? then 2 else 0)
  {
  }

  lemma WaitCanMove(st: State) returns (step: Step)
    requires FrameInv(st) && Waiting(st) && !Orphaned(st)
    ensures !step.WakeUp? && Moves(st, step)
  {
    if st.pc.Checking? || (st.pc.Locking? && !Held(st)) {
      step := Executor(OK);
    } else {
      step := Client(Current(st));
    }
  }

  /** The wait that goes on behind `run` is not over at any point of `more`. */
  ghost predicate KeepsWaiting(run: seq<Step>, more: seq<Step>) {
    && Waiting(After(run + more))
    && (more != [] ==> KeepsWaiting(run, more[..|more| - 1]))
  }

  /** The steps of `more`, taken behind `run`, that move the wait, less two for every spurious wake-up. */
  ghost function Moved(run: seq<Step>, more: seq<Step>): int {
    if more == [] then 0
    else
      var front, last := more[..|more| - 1], more[|more| - 1];
      Moved(run, front) + (if Moves(After(run + front), last) then 1 else 0) - if last.WakeUp? then 2 else 0
  }

  /** A wait that is not over yet has been moved by at most twelve steps, plus two for every spurious wake-up. */
  lemma {:induction false} WaitIsBounded(run: seq<Step>, more: seq<Step>) returns (st: State)
    requires KeepsWaiting(run, []) && !Orphaned(After(run)) && KeepsWaiting(run, more)
    ensures st == After(run + more) && FrameInv(st) && Waiting(st) && !Orphaned(st)
    ensures Moved(run, more) + Rank(st) <= Rank(After(run)) <= 12
  {
    if more == [] {
      assert run + more == run;
      InvHolds(run);
      st := After(run);
    } else {
      var front, last := more[..|more| - 1], more[|more| - 1];
      var mid := WaitIsBounded(run, front);
      assert (run + more)[..|run + more| - 1] == run + front;
      st := Do(mid, last);
      WaitStep(mid, last);
      FrameStep(mid, last);
    }
  }

  /** And it can always be moved on, by a step that is no spurious wake-up. */
  lemma WaitIsNeverStuck(run: seq<Step>) returns (step: Step)
    requires Waiting(After(run)) && !Orphaned(After(run))
    ensures !step.WakeUp? && Moves(After(run), step)
  {
    InvHolds(run);
    step := WaitCanMove(After(run));
  }

  lemma OrphanStays(st: State, step: Step)
    requires Orphaned(st) && FrameInv(st)
    ensures Orphaned(Do(st, step))
  {
  }

  /** When do_work returns OK or DONE without having handed its request over, the executor waits for ever. */
  lemma {:induction false} OrphanedWaitNeverEnds(run: seq<Step>, more: seq<Step>)
    requires Orphaned(After(run))
    ensures Orphaned(After(run + more)) && FrameInv(After(run + more))
  {
    hide Do; hide Orphaned; hide FrameInv;
    InvHolds(run + more);
    if more == [] {
      assert run + more == run;
    } else {
      var front, last := more[..|more| - 1], more[|more| - 1];
      OrphanedWaitNeverEnds(run, front);
      assert (run + more)[..|run + more| - 1] == run + front;
      OrphanStays(After(run + front), last);
    }
  }

  // ---- Exactly when the wait can end ----

  /** A wait whose request was handed over can be brought to its end. */
  lemma {:induction false} WaitCanEnd(run: seq<Step>) returns (more: seq<Step>)
    requires Waiting(After(run)) && !Orphaned(After(run))
    ensures !Waiting(After(run + more))
    decreases Rank(After(run))
  {
    hide Do; hide Waiting; hide Orphaned; hide FrameInv; hide Rank; hide Moves;
    var step := WaitIsNeverStuck(run);
    InvHolds(run);
    WaitStep(After(run), step);
    assert (run + [step])[..|run + [step]| - 1] == run;
    if Waiting(After(run + [step])) {
      NotOverYet(After(run + [step]));
      var rest := WaitCanEnd(run + [step]);
      assert run + [step] + rest == run + ([step] + rest);
      more := [step] + rest;
    } else {
      more := [step];
    }
  }

  lemma NotOverYet(st: State)
    requires Waiting(st)
    ensures !st.pc.Publishing?
  {
  }

  /** A wait can end if and only if its request was handed over to the client. */
  lemma WaitEndsExactlyWhen(run: seq<Step>)
    requires Waiting(After(run))
    ensures (exists more :: !Waiting(After(run + more))) <==> !Orphaned(After(run))
  {
    hide Do; hide Waiting; hide Orphaned; hide FrameInv;
    if Orphaned(After(run)) {
      forall more
        ensures Waiting(After(run + more))
      {
        OrphanedWaitNeverEnds(run, more);
        OrphansWait(After(run + more));
      }
    } else {
      var more := WaitCanEnd(run);
    }
  }

  lemma OrphansWait(st: State)
    requires Orphaned(st)
    ensures Waiting(st)
  {
  }

  /** One attempt whose do_work returns OK and hands its callback over or not. */
  function Attempt(handsOver: bool): seq<Step> {
    [Executor(OK)] + (if handsOver then [HandOver] else []) + [Executor(OK)]
  }

  /** The endless wait is real: it follows every attempt that returns OK and hands nothing over. */
  lemma AttemptWaits(run: seq<Step>, handsOver: bool)
    requires After(run).pc.Start?
    ensures Waiting(After(run + Attempt(handsOver)))
    ensures Orphaned(After(run + Attempt(handsOver))) <==> !handsOver
  {
    hide After;
    InvHolds(run);
    var installed := run + [Executor(OK)];
    Extend(run, Executor(OK));
    if handsOver {
      Extend(installed, HandOver);
      Extend(installed + [HandOver], Executor(OK));
      assert run + Attempt(true) == installed + [HandOver] + [Executor(OK)];
    } else {
      Extend(installed, Executor(OK));
      assert run + Attempt(false) == installed + [Executor(OK)];
    }
  }

  lemma Extend(run: seq<Step>, step: Step)
    ensures After(run + [step]) == Do(After(run), step)
  {
    assert (run + [step])[..|run + [step]| - 1] == run;
  }

  /** The first attempt of a thread, without a request. */
  lemma WaitCanBeOrphaned()
    ensures Orphaned(After([Executor(OK), Executor(OK)]))
  {
    assert [] + Attempt(false) == [Executor(OK), Executor(OK)];
    AttemptWaits([], false);
  }
}
