/**
 Operations on the worker thread: scripts queue them, the main thread hands them over one at a time
 through a single slot and a signal, and the worker ends each by calling back on the event loop.  The
 calls to the loop, of the worker and of any other threads, take the steps of `LoopCall`.
 */
module WorkerQueue {
  import opened Lists
  import opened Options
  import L = LoopCall

  type Op = nat

  /** Where the main thread is in run_on_worker_loop. */
  datatype Pc = Rest | Fn(op: Op) | Args(op: Op) | Send(op: Op)

  /** The worker: asleep, woken by the signal, at work, or in the last call to the loop (number `call`) and what follows it. */
  datatype Worker = Sleep | Woke | Working(op: Op) | Finishing(op: Op, call: nat)

  /** Thread 0 of `loop` is the worker; `slotFn` and `slotArgs` are the two fields of the slot. */
  datatype State = State(
    loop: L.State,
    queue: seq<Op>,
    running: Option<Op>,
    pc: Pc,
    slotFn: Option<Op>,
    slotArgs: Option<Op>,
    signal: bool,
    worker: Worker,
    pushed: seq<Op>,
    started: seq<Op>,
    done: seq<Op>)

  datatype Event =
    | Push(op: Op) | Process | WriteFn | WriteArgs | SendSignal
    | WorkerWake | WorkerRead | WorkerFinish | WorkerReturn
    | LoopStep(e: L.Event)

  /** Whether the step is one of the main thread, which runs the loop. */
  predicate OnMain(e: L.Event) {
    e.Enter? || e.Run? || e.Post?
  }

  predicate Enabled(s: State, e: Event) {
    |s.loop.threads| > 0 &&
    match e
    case Push(op) => s.pc == Rest && op !in s.pushed
    case Process => s.pc == Rest && s.running.None? && s.queue != []
    case WriteFn => s.pc.Fn?
    case WriteArgs => s.pc.Args?
    case SendSignal => s.pc.Send?
    case WorkerWake => s.worker == Sleep && s.signal
    case WorkerRead => s.worker == Woke && s.slotFn.Some? && s.slotFn == s.slotArgs
    case WorkerFinish => s.worker.Working? && L.Enabled(s.loop, L.Begin(0))
    case WorkerReturn => s.worker.Finishing? && L.At(s.loop, 0, L.Out)
    case LoopStep(l) =>
      && L.Enabled(s.loop, l)
      && (OnMain(l) ==> s.pc == Rest)
      && (l == L.Begin(0) ==> s.worker.Working?)
  }

  /** Whether the function the loop is about to run is the callback that ends the worker's operation. */
  predicate EndsOp(s: State, l: L.Event) {
    l.Run? && s.loop.ctx == L.Entered(0) && s.worker.Finishing? && |s.loop.threads| > 0 && s.loop.threads[0].call == s.worker.call
  }

  function Apply(s: State, e: Event): State
    requires Enabled(s, e)
  {
    match e
    case Push(op) => s.(queue := s.queue + [op], pushed := s.pushed + [op])
    case Process => s.(running := Some(s.queue[0]), queue := s.queue[1..], pc := Fn(s.queue[0]))
    case WriteFn => s.(slotFn := Some(s.pc.op), pc := Args(s.pc.op))
    case WriteArgs => s.(slotArgs := Some(s.pc.op), pc := Send(s.pc.op))
    case SendSignal => s.(signal := true, pc := Rest)
    case WorkerWake => s.(signal := false, worker := Woke)
    case WorkerRead => s.(worker := Working(s.slotFn.value), started := s.started + [s.slotFn.value])
    case WorkerFinish => s.(loop := L.Apply(s.loop, L.Begin(0)), worker := Finishing(s.worker.op, s.loop.next))
    case WorkerReturn => s.(worker := Sleep)
    case LoopStep(l) =>
      var t := s.(loop := L.Apply(s.loop, l));
      if EndsOp(s, l) then t.(running := None, done := s.done + [s.worker.op]) else t
  }

  /** The callback that ends the worker's operation has not run yet. */
  predicate Unfinished(s: State) {
    s.worker.Finishing? && s.worker.call !in s.loop.runs
  }

  /** An operation that was taken from the queue and not yet read from the slot. */
  predicate HandingOver(s: State) {
    s.pc != Rest || s.signal || s.worker == Woke
  }

  /** Where the operation in progress is: on its way through the slot, or with the worker, in one place only. */
  ghost predicate StageOk(s: State) {
    && (s.pc != Rest ==> s.running == Some(s.pc.op) && !s.signal && s.worker != Woke)
    && (s.pc.Args? || s.pc.Send? ==> s.slotFn == s.running)
    && (s.pc.Send? || s.signal || s.worker == Woke ==> s.slotFn == s.running && s.slotArgs == s.running && s.running.Some?)
    && (s.signal ==> s.worker != Woke)
    && (s.worker.Working? || Unfinished(s) ==> s.running == Some(s.worker.op) && !HandingOver(s))
    && (s.running.Some? ==> HandingOver(s) || s.worker.Working? || Unfinished(s))
  }

  ghost predicate WorkerOk(s: State) {
    && |s.loop.threads| > 0
    && (s.worker in {Sleep, Woke} ==> L.At(s.loop, 0, L.Out))
    && (s.worker.Finishing? ==> s.worker.call < s.loop.next)
    && (s.worker.Finishing? && L.At(s.loop, 0, L.Out) ==> s.worker.call in s.loop.runs)
    && (s.worker.Finishing? && !L.At(s.loop, 0, L.Out) ==> s.loop.threads[0].call == s.worker.call)
  }

  /** First in, first out: what started, what is being handed over and what is queued make up what was pushed. */
  ghost predicate OrderOk(s: State) {
    && NoDup(s.pushed)
    && s.pushed == s.started + (if HandingOver(s) && s.running.Some? then [s.running.value] else []) + s.queue
    && s.started == s.done + (if s.worker.Working? || Unfinished(s) then [s.worker.op] else [])
  }

  ghost predicate Inv(s: State) {
    L.Inv(s.loop) && StageOk(s) && WorkerOk(s) && OrderOk(s)
  }

  lemma LoopKeeps(s: State, e: Event)
    requires Inv(s) && Enabled(s, e)
    ensures L.Inv(Apply(s, e).loop)
  {
    hide NoDup, L.Inv, L.Apply;
    match e
    case WorkerFinish => L.ApplyKeeps(s.loop, L.Begin(0));
    case LoopStep(l) => L.ApplyKeeps(s.loop, l);
    case _ =>
  }

  lemma MainKeeps(s: State, e: Event)
    requires Inv(s) && Enabled(s, e) && !e.LoopStep? && !e.WorkerFinish?
    ensures StageOk(Apply(s, e)) && WorkerOk(Apply(s, e))
  {
    hide NoDup, L.Inv;
  }

  lemma MainOrder(s: State, e: Event)
    requires Inv(s) && Enabled(s, e) && !e.LoopStep? && !e.WorkerFinish?
    ensures OrderOk(Apply(s, e))
  {
    hide NoDup, L.Inv;
    match e
    case Push(op) =>
      AppendNoDup(s.pushed, op);
    case Process =>
      assert s.queue == [s.queue[0]] + s.queue[1..];
    case _ =>
  }

  /** How one step of the loop protocol touches the worker's thread and the log of runs. */
  lemma LoopStepFacts(s: L.State, l: L.Event)
    requires L.Inv(s) && L.Enabled(s, l) && |s.threads| > 0
    ensures var t := L.Apply(s, l);
      && |t.threads| == |s.threads| && t.next >= s.next
      && (l.Run? ==> t.runs == s.runs + [s.threads[s.ctx.t].call])
      && (!l.Run? ==> t.runs == s.runs)
      && (L.At(s, 0, L.Out) && l != L.Begin(0) ==> L.At(t, 0, L.Out))
      && (!L.At(s, 0, L.Out) ==> t.threads[0].call == s.threads[0].call)
      && (!L.At(s, 0, L.Out) && L.At(t, 0, L.Out) ==> s.threads[0].call in s.runs && !l.Run?)
      && (s.ctx == L.Entered(0) ==> !L.At(s, 0, L.Out) && s.threads[0].call !in s.runs)
      && (l.Run? && s.ctx != L.Entered(0) && !L.At(s, 0, L.Out) ==> s.threads[s.ctx.t].call != s.threads[0].call)
  {
    hide NoDup;
    assert L.ThreadOk(s, 0);
    if l.Run? {
      assert L.ThreadOk(s, s.ctx.t);
      L.DistinctCalls(s, s.ctx.t, 0);
    }
  }

  lemma LoopStepKeeps(s: State, l: L.Event)
    requires Inv(s) && Enabled(s, LoopStep(l))
    ensures StageOk(Apply(s, LoopStep(l))) && WorkerOk(Apply(s, LoopStep(l)))
    ensures EndsOp(s, l) ==> Unfinished(s) && !Unfinished(Apply(s, LoopStep(l)))
    ensures !EndsOp(s, l) ==> Unfinished(Apply(s, LoopStep(l))) == Unfinished(s)
  {
    hide NoDup, L.Inv, L.Apply, OrderOk;
    LoopStepFacts(s.loop, l);
  }

  lemma LoopStepOrder(s: State, l: L.Event)
    requires Inv(s) && Enabled(s, LoopStep(l))
    ensures OrderOk(Apply(s, LoopStep(l)))
  {
    hide NoDup, L.Inv, L.Apply;
    LoopStepKeeps(s, l);
  }

  lemma FinishKeeps(s: State)
    requires Inv(s) && Enabled(s, WorkerFinish)
    ensures var t := Apply(s, WorkerFinish); StageOk(t) && WorkerOk(t) && OrderOk(t)
  {
    hide NoDup;
    assert s.loop.next !in s.loop.runs;
  }

  lemma ApplyKeeps(s: State, e: Event)
    requires Inv(s) && Enabled(s, e)
    ensures Inv(Apply(s, e))
  {
    hide L.Inv, StageOk, WorkerOk, OrderOk, L.Apply;
    LoopKeeps(s, e);
    match e
    case LoopStep(l) =>
      LoopStepKeeps(s, l);
      LoopStepOrder(s, l);
    case WorkerFinish =>
      FinishKeeps(s);
    case _ =>
      MainKeeps(s, e);
      MainOrder(s, e);
  }

  // ---- Runs ----

  ghost predicate Fresh(s: State) {
    && L.Fresh(s.loop) && |s.loop.threads| > 0
    && s == State(s.loop, [], None, Rest, None, None, false, Sleep, [], [], [])
  }

  ghost predicate IsRun(states: seq<State>, events: seq<Event>) {
    && |states| == |events| + 1 && Fresh(states[0])
    && forall i :: 0 <= i < |events| ==> Enabled(states[i], events[i]) && states[i + 1] == Apply(states[i], events[i])
  }

  lemma {:induction false} RunInv(states: seq<State>, events: seq<Event>, i: nat)
    requires IsRun(states, events) && i < |states|
    ensures Inv(states[i])
  {
    if i > 0 {
      RunInv(states, events, i - 1);
      ApplyKeeps(states[i - 1], events[i - 1]);
    }
  }

  /** Operations start on the worker in the order they were pushed, each once, and end in that order. */
  lemma OpsRunInOrder(states: seq<State>, events: seq<Event>, i: nat)
    requires IsRun(states, events) && i < |states|
    ensures var s := states[i];
      NoDup(s.started) && s.started <= s.pushed && s.done <= s.started && |s.started| <= |s.done| + 1
  {
    hide IsRun, StageOk, WorkerOk, L.Inv;
    RunInv(states, events, i);
    var s := states[i];
    assert s.started == s.pushed[..|s.started|];
  }

  /**
   The slot is written only after what it held was read, and the worker reads both fields of one and
   the same operation.
   */
  lemma SlotIsNotOverwritten(states: seq<State>, events: seq<Event>, i: nat)
    requires IsRun(states, events) && i < |events|
    ensures var s := states[i];
      && (events[i].WriteFn? || events[i].WriteArgs? ==> !s.signal && s.worker != Woke && s.done == s.started)
      && (s.worker == Woke ==> s.running.Some? && s.slotFn == s.slotArgs == s.running)
      && (events[i].WorkerRead? ==> states[i + 1].started == s.started + [s.running.value])
  {
    hide OrderOk, WorkerOk, L.Inv, NoDup;
    RunInv(states, events, i);
    assert Enabled(states[i], events[i]) && states[i + 1] == Apply(states[i], events[i]);
    assert OrderOk(states[i]);
    NothingHeld(states[i]);
  }

  lemma NothingHeld(s: State)
    requires StageOk(s) && OrderOk(s)
    ensures s.pc != Rest ==> s.done == s.started
  {
    hide NoDup;
    if s.pc != Rest {
      assert HandingOver(s);
      assert s.started == s.done + [];
    }
  }

  /** While an operation is unfinished, or any thread is in a call to the loop, some step can be taken. */
  lemma NeverStuck(s: State, t: nat) returns (e: Event)
    requires Inv(s) && t < |s.loop.threads|
    requires s.done != s.pushed || s.loop.threads[t].phase != L.Out
    ensures Enabled(s, e) && !e.Push? && e != LoopStep(L.Begin(t))
    ensures e.LoopStep? ==> !e.e.Begin?
  {
    hide L.Inv, L.Apply, NoDup;
    if s.pc != Rest {
      e := if s.pc.Fn? then WriteFn else if s.pc.Args? then WriteArgs else SendSignal;
    } else if s.loop.threads[t].phase != L.Out {
      var l := L.NeverStuck(s.loop, t);
      e := LoopStep(l);
    } else if s.loop.threads[0].phase != L.Out {
      var l := L.NeverStuck(s.loop, 0);
      e := LoopStep(l);
    } else if s.worker == Woke {
      e := WorkerRead;
    } else if s.worker.Working? {
      e := WorkerFinish;
    } else if s.worker.Finishing? {
      e := WorkerReturn;
    } else if s.signal {
      e := WorkerWake;
    } else {
      IdleMeansQueued(s);
      e := Process;
    }
  }

  lemma IdleMeansQueued(s: State)
    requires StageOk(s) && OrderOk(s) && s.done != s.pushed && s.pc == Rest && !s.signal && s.worker == Sleep
    ensures s.running.None? && s.queue != []
  {
    hide NoDup;
    assert !HandingOver(s) && !Unfinished(s);
    assert s.pushed == s.started + [] + s.queue;
    assert s.started == s.done + [];
    assert s.queue == [] ==> s.pushed == s.done;
  }
}
