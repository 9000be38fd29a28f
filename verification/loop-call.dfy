/**
 Calling a function on the event loop from other threads: a mutex admits one caller at a time, the
 caller publishes its call in a shared slot, signals the loop and waits on a semaphore.  Threads take
 atomic steps in any order; the loop's signal may coalesce.
 */
module LoopCall {
  import opened Lists
  import opened Options

  /** Where a thread is in run_on_default_loop. */
  datatype Phase = Out | Wants | Holds | Published | Waits | Woken

  /** A thread; `call` numbers its current call, `posted` is the semaphore in its call_info_t. */
  datatype Thread = Thread(phase: Phase, call: nat, posted: bool)

  /** Where the loop is in default_loop_entry, and for which thread's call. */
  datatype Ctx = NoCall | Entered(t: nat) | Ran(t: nat)

  /** `data` is the slot of the async handle; `next` numbers calls; `runs` and `returned` record what happened. */
  datatype State = State(
    threads: seq<Thread>,
    lock: Option<nat>,
    data: Option<nat>,
    signal: bool,
    ctx: Ctx,
    next: nat,
    runs: seq<nat>,
    returned: seq<nat>)

  datatype Event =
    | Begin(t: nat) | Lock(t: nat) | Publish(t: nat) | Send(t: nat) | Wake(t: nat) | Unlock(t: nat)
    | Enter | Run | Post

  predicate At(s: State, t: nat, p: Phase) {
    t < |s.threads| && s.threads[t].phase == p
  }

  predicate Enabled(s: State, e: Event) {
    match e
    case Begin(t) => At(s, t, Out)
    case Lock(t) => At(s, t, Wants) && s.lock.None?
    case Publish(t) => At(s, t, Holds)
    case Send(t) => At(s, t, Published)
    case Wake(t) => At(s, t, Waits) && s.threads[t].posted
    case Unlock(t) => At(s, t, Woken)
    case Enter => s.signal && s.ctx == NoCall && s.data.Some? && s.data.value < |s.threads|
    case Run => s.ctx.Entered? && s.ctx.t < |s.threads|
    case Post => s.ctx.Ran? && s.ctx.t < |s.threads|
  }

  function Goes(s: State, t: nat, p: Phase): State
    requires t < |s.threads|
  {
    s.(threads := s.threads[t := s.threads[t].(phase := p)])
  }

  function Apply(s: State, e: Event): State
    requires Enabled(s, e)
  {
    match e
    case Begin(t) => s.(threads := s.threads[t := Thread(Wants, s.next, false)], next := s.next + 1)
    case Lock(t) => Goes(s, t, Holds).(lock := Some(t))
    case Publish(t) => Goes(s, t, Published).(data := Some(t))
    case Send(t) => Goes(s, t, Waits).(signal := true)
    case Wake(t) => s.(threads := s.threads[t := s.threads[t].(phase := Woken, posted := false)])
    case Unlock(t) => Goes(s, t, Out).(lock := None, returned := s.returned + [s.threads[t].call])
    case Enter => s.(signal := false, ctx := Entered(s.data.value))
    case Run => s.(ctx := Ran(s.ctx.t), runs := s.runs + [s.threads[s.ctx.t].call])
    case Post => s.(ctx := NoCall, threads := s.threads[s.ctx.t := s.threads[s.ctx.t].(posted := true)])
  }

  /** What holds of each thread. */
  ghost predicate ThreadOk(s: State, t: nat)
    requires t < |s.threads|
  {
    var r := s.threads[t];
    && (s.lock == Some(t) <==> r.phase in {Holds, Published, Waits, Woken})
    && (r.phase != Out ==> r.call < s.next && r.call !in s.returned)
    && (r.phase in {Wants, Holds, Published} ==> r.call !in s.runs)
    && (r.phase in {Published, Waits} ==> s.data == Some(t))
    && (r.posted ==> r.phase == Waits)
    && (r.phase == Waits ==> (s.signal || s.ctx == Entered(t) || s.ctx == Ran(t) || r.posted))
    && (r.phase == Waits && (s.signal || s.ctx == Entered(t)) ==> r.call !in s.runs)
    && (r.phase == Waits && (s.ctx == Ran(t) || r.posted) ==> r.call in s.runs)
    && (r.phase == Woken ==> r.call in s.runs)
  }

  /** The loop works for the one thread that waits, and for it in one way at a time. */
  ghost predicate LoopOk(s: State) {
    && (s.lock.Some? ==> s.lock.value < |s.threads|)
    && (s.signal ==> s.lock.Some? && At(s, s.lock.value, Waits) && !s.threads[s.lock.value].posted && s.ctx == NoCall)
    && (s.ctx != NoCall ==> s.lock == Some(s.ctx.t) && At(s, s.ctx.t, Waits) && !s.threads[s.ctx.t].posted && !s.signal)
  }

  ghost predicate LogsOk(s: State) {
    && NoDup(s.runs) && NoDup(s.returned)
    && (forall k :: k in s.runs ==> k < s.next)
    && (forall k :: k in s.returned ==> k in s.runs)
  }

  ghost predicate Distinct(s: State) {
    forall t, u :: 0 <= t < u < |s.threads| && s.threads[t].phase != Out && s.threads[u].phase != Out ==>
      s.threads[t].call != s.threads[u].call
  }

  ghost predicate Inv(s: State) {
    && (forall t :: 0 <= t < |s.threads| ==> ThreadOk(s, t))
    && LoopOk(s) && LogsOk(s) && Distinct(s)
  }

  lemma ThreadKept(s: State, e: Event, t: nat)
    requires Inv(s) && Enabled(s, e) && t < |s.threads|
    ensures ThreadOk(Apply(s, e), t)
  {
    hide NoDup;
    assert ThreadOk(s, t);
    if s.lock.Some? {
      assert ThreadOk(s, s.lock.value);
      DistinctCalls(s, t, s.lock.value);
    }
    if e.Unlock? || e.Wake? || e.Publish? || e.Send? {
      assert ThreadOk(s, e.t);
      DistinctCalls(s, t, e.t);
    }
  }

  lemma DistinctCalls(s: State, t: nat, u: nat)
    requires Distinct(s) && t < |s.threads| && u < |s.threads|
    ensures t != u && s.threads[t].phase != Out && s.threads[u].phase != Out ==> s.threads[t].call != s.threads[u].call
  {
    var a, b := if t < u then t else u, if t < u then u else t;
    assert a < b && s.threads[a].phase != Out && s.threads[b].phase != Out ==> s.threads[a].call != s.threads[b].call;
  }

  /** Every step of every thread keeps the protocol's invariant. */
  lemma ApplyKeeps(s: State, e: Event)
    requires Inv(s) && Enabled(s, e)
    ensures Inv(Apply(s, e))
  {
    hide NoDup;
    var s' := Apply(s, e);
    LogsKept(s, e);
    LoopKept(s, e);
    forall t | 0 <= t < |s'.threads|
      ensures ThreadOk(s', t)
    {
      ThreadKept(s, e, t);
    }
    assert Distinct(s') by {
      forall t, u | 0 <= t < u < |s'.threads| && s'.threads[t].phase != Out && s'.threads[u].phase != Out
        ensures s'.threads[t].call != s'.threads[u].call
      {
        assert ThreadOk(s, t) && ThreadOk(s, u);
      }
    }
  }

  lemma LoopKept(s: State, e: Event)
    requires Inv(s) && Enabled(s, e)
    ensures LoopOk(Apply(s, e))
  {
    hide NoDup, Distinct, LogsOk;
    if s.lock.Some? {
      assert ThreadOk(s, s.lock.value);
    }
    match e
    case Begin(t) => assert ThreadOk(s, t);
    case Lock(t) => assert ThreadOk(s, t);
    case Publish(t) => assert ThreadOk(s, t);
    case Send(t) => assert ThreadOk(s, t);
    case Wake(t) => assert ThreadOk(s, t);
    case Unlock(t) => assert ThreadOk(s, t);
    case _ =>
  }

  lemma LogsKept(s: State, e: Event)
    requires Inv(s) && Enabled(s, e)
    ensures LogsOk(Apply(s, e))
  {
    if e.Run? {
      assert ThreadOk(s, s.ctx.t);
      AppendNoDup(s.runs, s.threads[s.ctx.t].call);
    } else if e.Unlock? {
      assert ThreadOk(s, e.t);
      AppendNoDup(s.returned, s.threads[e.t].call);
    }
  }

  // ---- Runs ----

  ghost predicate Fresh(s: State) {
    && (forall t :: 0 <= t < |s.threads| ==> s.threads[t] == Thread(Out, 0, false))
    && s == State(s.threads, None, None, false, NoCall, 0, [], [])
  }

  ghost predicate IsRun(states: seq<State>, events: seq<Event>) {
    && |states| == |events| + 1 && Fresh(states[0])
    && forall i :: 0 <= i < |events| ==> Enabled(states[i], events[i]) && states[i + 1] == Apply(states[i], events[i])
  }

  lemma {:induction false} RunInv(states: seq<State>, events: seq<Event>, i: nat)
    requires IsRun(states, events) && i < |states|
    ensures Inv(states[i])
  {
    if i > 0 {
      RunInv(states, events, i - 1);
      ApplyKeeps(states[i - 1], events[i - 1]);
    }
  }

  /**
   When a call has returned, its function has been run on the loop, and no call is ever run twice.  The
   loop only works for a thread that is still waiting, so what the thread published is still there.
   */
  lemma CallsRunOnce(states: seq<State>, events: seq<Event>, i: nat)
    requires IsRun(states, events) && i < |states|
    ensures var s := states[i];
      && (forall k :: k in s.returned ==> multiset(s.runs)[k] == 1)
      && (forall k :: k in s.runs ==> multiset(s.runs)[k] == 1)
      && (s.ctx != NoCall ==> At(s, s.ctx.t, Waits) && s.data == Some(s.ctx.t))
  {
    hide IsRun, Distinct;
    RunInv(states, events, i);
    var s := states[i];
    forall k | k in s.runs
      ensures multiset(s.runs)[k] == 1
    {
      OnlyOnce(s.runs, k);
    }
    if s.ctx != NoCall {
      assert ThreadOk(s, s.ctx.t);
    }
  }

  lemma {:induction false} OnlyOnce(xs: seq<nat>, k: nat)
    requires NoDup(xs) && k in xs
    ensures multiset(xs)[k] == 1
  {
    assert xs == [xs[0]] + xs[1..];
    if xs[0] == k {
      assert k !in xs[1..];
    } else {
      OnlyOnce(xs[1..], k);
    }
  }

  /** Call `k` has returned or is still some thread's. */
  ghost predicate Accounted(s: State, k: nat) {
    k in s.returned || exists t :: InProgress(s, t, k)
  }

  predicate InProgress(s: State, t: nat, k: nat) {
    t < |s.threads| && s.threads[t].phase != Out && s.threads[t].call == k
  }

  lemma StepAccounts(s: State, e: Event, k: nat)
    requires Enabled(s, e) && k < Apply(s, e).next && (k < s.next ==> Accounted(s, k))
    ensures Accounted(Apply(s, e), k)
  {
    var s' := Apply(s, e);
    if k == s.next {
      assert InProgress(s', e.t, k);
    } else if k in s.returned {
      assert k in s'.returned;
    } else {
      var t :| InProgress(s, t, k);
      if e == Unlock(t) {
        assert s'.returned[|s.returned|] == k;
      } else {
        assert InProgress(s', t, k);
      }
    }
  }

  /** No call is lost: each one that was begun has returned or is still in progress. */
  lemma {:induction false} CallsAreAccounted(states: seq<State>, events: seq<Event>, i: nat, k: nat)
    requires IsRun(states, events) && i < |states| && k < states[i].next
    ensures Accounted(states[i], k)
  {
    hide Accounted, Apply, Enabled;
    if i > 0 {
      var s, e := states[i - 1], events[i - 1];
      assert Enabled(s, e) && states[i] == Apply(s, e);
      if k < s.next {
        CallsAreAccounted(states, events, i - 1, k);
      }
      StepAccounts(s, e, k);
    }
  }

  /** While a call is in progress some thread, or the loop, can take a step. */
  lemma NeverStuck(s: State, t: nat) returns (e: Event)
    requires Inv(s) && t < |s.threads| && s.threads[t].phase != Out
    ensures !e.Begin? && Enabled(s, e)
  {
    hide LogsOk, Distinct;
    assert ThreadOk(s, t);
    if s.lock.None? {
      return Lock(t);
    }
    var u := s.lock.value;
    assert ThreadOk(s, u);
    match s.threads[u].phase
    case Holds => e := Publish(u);
    case Published => e := Send(u);
    case Woken => e := Unlock(u);
    case Waits =>
      e := if s.signal then Enter else if s.ctx.Entered? then Run else if s.ctx.Ran? then Post else Wake(u);
  }

  /** The steps left until the thread's call returns. */
  function Left(s: State, t: nat): nat
    requires t < |s.threads|
  {
    match s.threads[t].phase
    case Out => 0
    case Wants => 8
    case Holds => 7
    case Published => 6
    case Waits => if s.threads[t].posted then 2 else if s.ctx == Ran(t) then 3 else if s.ctx == Entered(t) then 4 else 5
    case Woken => 1
  }

  function Work(s: State, n: nat): nat
    requires n <= |s.threads|
  {
    if n == 0 then 0 else Work(s, n - 1) + Left(s, n - 1)
  }

  function Actor(s: State, e: Event): nat
    requires Enabled(s, e)
  {
    match e
    case Enter => s.data.value
    case Run => s.ctx.t
    case Post => s.ctx.t
    case _ => e.t
  }

  lemma StepIsProgress(s: State, e: Event, t: nat)
    requires Inv(s) && Enabled(s, e) && !e.Begin? && t < |s.threads|
    ensures Left(s, t) == Left(Apply(s, e), t) + if t == Actor(s, e) then 1 else 0
  {
    hide LogsOk, Distinct;
    assert ThreadOk(s, t);
    if s.lock.Some? {
      assert ThreadOk(s, s.lock.value);
    }
  }

  lemma {:induction false} WorkShrinks(s: State, e: Event, n: nat)
    requires Inv(s) && Enabled(s, e) && !e.Begin? && n <= |s.threads|
    ensures Work(s, n) == Work(Apply(s, e), n) + if Actor(s, e) < n then 1 else 0
  {
    hide Inv, Left, Apply;
    ApplyThreads(s, e);
    if n > 0 {
      WorkShrinks(s, e, n - 1);
      StepIsProgress(s, e, n - 1);
    }
  }

  lemma ApplyThreads(s: State, e: Event)
    requires Enabled(s, e)
    ensures |Apply(s, e).threads| == |s.threads|
  {
  }

  lemma {:induction false} WorkGrows(s: State, t: nat, n: nat)
    requires At(s, t, Out) && n <= |s.threads|
    ensures Work(Apply(s, Begin(t)), n) == Work(s, n) + if t < n then 8 else 0
  {
    if n > 0 {
      WorkGrows(s, t, n - 1);
    }
  }

  function Calls(events: seq<Event>): nat {
    if events == [] then 0 else Calls(events[..|events| - 1]) + if events[|events| - 1].Begin? then 1 else 0
  }

  lemma StepBalance(s: State, e: Event)
    requires Inv(s) && Enabled(s, e)
    ensures |Apply(s, e).threads| == |s.threads|
    ensures var n := |s.threads|; Work(Apply(s, e), n) == if e.Begin? then Work(s, n) + 8 else Work(s, n) - 1
  {
    hide Inv, Apply, Work;
    ApplyThreads(s, e);
    ActorBound(s, e);
    if e.Begin? {
      WorkGrows(s, e.t, |s.threads|);
    } else {
      WorkShrinks(s, e, |s.threads|);
    }
  }

  /** Up to any point of any run, the steps taken and the steps left make up eight for each call, whatever the scheduling. */
  lemma {:induction false} CallsTakeEightSteps(states: seq<State>, events: seq<Event>, n: nat)
    requires IsRun(states, events) && n <= |events|
    ensures Work(states[n], |states[n].threads|) + (n - Calls(events[..n])) == 8 * Calls(events[..n])
  {
    hide Inv, Apply, Enabled, Work;
    if n == 0 {
      FreshWork(states[0], |states[0].threads|);
    } else {
      CallsTakeEightSteps(states, events, n - 1);
      RunInv(states, events, n - 1);
      StepBalance(states[n - 1], events[n - 1]);
      assert events[..n][..n - 1] == events[..n - 1];
    }
  }

  lemma ActorBound(s: State, e: Event)
    requires Enabled(s, e)
    ensures Actor(s, e) < |s.threads|
  {
  }

  lemma {:induction false} FreshWork(s: State, n: nat)
    requires Fresh(s) && n <= |s.threads|
    ensures Work(s, n) == 0
  {
    if n > 0 {
      FreshWork(s, n - 1);
    }
  }

  /** How many of the steps from the `i`-th up to the `j`-th the thread's call takes, itself or through the loop. */
  function StepsFor(states: seq<State>, events: seq<Event>, t: nat, i: nat, j: nat): nat
    requires i <= j <= |events| <= |states|
  {
    if i == j then 0
    else
      var s, e := states[j - 1], events[j - 1];
      StepsFor(states, events, t, i, j - 1) + if !e.Begin? && Enabled(s, e) && Actor(s, e) == t then 1 else 0
  }

  lemma BeginLeavesOthers(s: State, u: nat, t: nat)
    requires At(s, u, Out) && t < |s.threads| && t != u
    ensures Left(Apply(s, Begin(u)), t) == Left(s, t)
  {
  }

  /**
   From its beginning on, the steps a call has taken and the steps it has left are eight, so the call
   has returned exactly when it has taken all eight.
   */
  lemma {:induction false} EachCallTakesEightSteps(states: seq<State>, events: seq<Event>, i: nat, j: nat, t: nat)
    requires IsRun(states, events) && i < j <= |events| && events[i] == Begin(t)
    requires forall k :: i < k < j ==> events[k] != Begin(t)
    ensures t < |states[j].threads| && Left(states[j], t) + StepsFor(states, events, t, i + 1, j) == 8
    ensures states[j].threads[t].phase == Out <==> StepsFor(states, events, t, i + 1, j) == 8
  {
    var s, e := states[j - 1], events[j - 1];
    assert Enabled(s, e) && states[j] == Apply(s, e);
    ApplyThreads(s, e);
    if i < j - 1 {
      EachCallTakesEightSteps(states, events, i, j - 1, t);
      hide Left, Actor, Inv;
      if e.Begin? {
        BeginLeavesOthers(s, e.t, t);
      } else {
        RunInv(states, events, j - 1);
        StepIsProgress(s, e, t);
      }
    }
    OutIsDone(states[j], t);
  }

  lemma OutIsDone(s: State, t: nat)
    requires t < |s.threads|
    ensures s.threads[t].phase == Out <==> Left(s, t) == 0
  {
  }
}
