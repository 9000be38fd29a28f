/**
 The FLUSH/FUA sequencer: a request is decomposed into the optional steps PREFLUSH, DATA and
 POSTFLUSH, and device flushes are double buffered over two queues that swap roles by toggling
 two index bits.  Every visible action is recorded in `log`, so that statements about whole runs
 are statements about `log`.
 */
module FlushSequencer {
  import opened Lists

  type Id = nat

  /** `jiffies`, as a function of how much has happened: it may advance at every logged action. */
  type Clock = nat -> int

  const HZ := 100
  const FLUSH_PENDING_TIMEOUT := 5 * HZ

  /** The steps of a sequence; `Done` is REQ_FSEQ_DONE. */
  datatype Step = Pre | Data | Post | Done

  /** The set of finished steps, the source's `flush.seq` bit mask. */
  datatype Steps = Steps(pre: bool, data: bool, post: bool)

  datatype Policy = Policy(pre: bool, data: bool, post: bool)
  {
    predicate Sequenced() { pre || post }
  }

  datatype QueueFlags = QueueFlags(writeCache: bool, fua: bool)

  datatype Command = Command(sectors: nat, preflush: bool, fua: bool)

  datatype Request = Request(policy: Policy, seq_: Steps)

  datatype Event =
    | Inserted(id: Id, policy: Policy)
    | PassedOn(id: Id)
    | FlushIssued
    | FlushDone(ok: bool)
    | DataDispatched(id: Id)
    | DataDone(id: Id, ok: bool)
    | Completed(id: Id, ok: bool)

  function FlushPolicy(q: QueueFlags, c: Command): Policy {
    Policy(q.writeCache && c.preflush, c.sectors != 0, q.writeCache && !q.fua && c.fua)
  }

  /** blk_flush_cur_seq: the lowest step that is not finished yet. */
  function CurSeq(s: Steps): Step {
    if !s.pre then Pre else if !s.data then Data else if !s.post then Post else Done
  }

  function Union(a: Steps, b: Steps): Steps {
    Steps(a.pre || b.pre, a.data || b.data, a.post || b.post)
  }

  function Bit(s: Step): Steps {
    Steps(s == Pre, s == Data, s == Post)
  }

  /** REQ_FSEQ_ACTIONS & ~policy: the steps that need not be done. */
  function Unneeded(p: Policy): Steps {
    Steps(!p.pre, !p.data, !p.post)
  }

  datatype Fields = Fields(
    queue0: seq<Id>,
    queue1: seq<Id>,
    pendingIdx: bool,
    runningIdx: bool,
    inFlight: seq<Id>,
    pendingSince: int,
    rq: map<Id, Request>,
    log: seq<Event>)
  {
    function Queue(i: bool): seq<Id> { if i then queue1 else queue0 }

    predicate Linked(id: Id) { id in queue0 || id in queue1 || id in inFlight }

    /** A request has one `flush.list` node, so it is on at most one list, and there once. */
    predicate ListsOk() {
      && NoDup(queue0) && NoDup(queue1) && NoDup(inFlight)
      && (forall id :: id in queue0 ==> id !in queue1 && id !in inFlight && id in rq)
      && (forall id :: id in queue1 ==> id !in inFlight && id in rq)
      && (forall id :: id in inFlight ==> id in rq)
    }

    function Unlink(id: Id): Fields {
      this.(queue0 := Without(queue0, id), queue1 := Without(queue1, id), inFlight := Without(inFlight, id))
    }

    function Append(i: bool, id: Id): Fields {
      if i then this.(queue1 := queue1 + [id]) else this.(queue0 := queue0 + [id])
    }

    function Log(e: Event): Fields { this.(log := log + [e]) }
  }

  const Init := Fields([], [], false, false, [], 0, map[], [])

  type State = s: Fields | s.ListsOk() witness Init

  /** blk_kick_flush: issue a flush unless one is in flight (C1) or data is (C2), and not for too long (C3). */
  function Kick(c: Clock, s: Fields): Fields {
    if s.pendingIdx != s.runningIdx || s.Queue(s.pendingIdx) == [] then s
    else if s.inFlight != [] && c(|s.log|) < s.pendingSince + FLUSH_PENDING_TIMEOUT then s
    else s.(pendingIdx := !s.pendingIdx).Log(FlushIssued)
  }

  /** The switch of blk_flush_complete_seq: move `id` to where its next step is waited for. */
  function Place(c: Clock, s: Fields, id: Id, step: Step): Fields {
    var u := s.Unlink(id);
    match step
    case Pre =>
      u.(pendingSince := if s.Queue(s.pendingIdx) == [] then c(|s.log|) else s.pendingSince).Append(s.pendingIdx, id)
    case Post =>
      u.(pendingSince := if s.Queue(s.pendingIdx) == [] then c(|s.log|) else s.pendingSince).Append(s.pendingIdx, id)
    case Data =>
      u.(inFlight := u.inFlight + [id]).Log(DataDispatched(id))
    case Done =>
      u
  }

  function CompleteSeq(c: Clock, s: Fields, id: Id, finished: Steps, ok: bool): Fields
    requires id in s.rq
  {
    var r := s.rq[id].(seq_ := Union(s.rq[id].seq_, finished));
    var step := if ok then CurSeq(r.seq_) else Done;
    var placed := Place(c, s.(rq := s.rq[id := r]), id, step);
    Kick(c, if step == Done then placed.Log(Completed(id, ok)) else placed)
  }

  lemma UnlinkOk(s: Fields, id: Id)
    requires s.ListsOk()
    ensures s.Unlink(id).ListsOk() && !s.Unlink(id).Linked(id)
    ensures forall x :: x != id ==> s.Unlink(id).Linked(x) == s.Linked(x)
  {
    WithoutNoDup(s.queue0, id);
    WithoutNoDup(s.queue1, id);
    WithoutNoDup(s.inFlight, id);
    WithoutMember(s.queue0, id);
    WithoutMember(s.queue1, id);
    WithoutMember(s.inFlight, id);
  }

  lemma AppendOk(s: Fields, id: Id)
    requires s.ListsOk() && !s.Linked(id) && id in s.rq
    ensures s.Append(false, id).ListsOk() && s.Append(true, id).ListsOk()
    ensures s.(inFlight := s.inFlight + [id]).ListsOk()
  {
    AppendNoDup(s.queue0, id);
    AppendNoDup(s.queue1, id);
    AppendNoDup(s.inFlight, id);
  }

  lemma CompleteSeqOk(c: Clock, s: Fields, id: Id, finished: Steps, ok: bool)
    requires s.ListsOk() && id in s.rq
    ensures CompleteSeq(c, s, id, finished, ok).ListsOk()
  {
    var s1 := s.(rq := s.rq[id := s.rq[id].(seq_ := Union(s.rq[id].seq_, finished))]);
    forall step ensures Place(c, s1, id, step).ListsOk() {
      PlaceOk(c, s1, id, step);
    }
  }

  lemma PlaceOk(c: Clock, s: Fields, id: Id, step: Step)
    requires s.ListsOk() && id in s.rq
    ensures Place(c, s, id, step).ListsOk()
  {
    UnlinkOk(s, id);
    AppendOk(s.Unlink(id), id);
  }

  // ---- flush_end_io: walking the running queue ----

  function Unfinished(s: Steps): nat {
    (if s.pre then 0 else 1) + (if s.data then 0 else 1) + (if s.post then 0 else 1)
  }

  /** Bounds the visits of the walk: a request may be appended again to the list being walked. */
  function Weight(q: seq<Id>, rq: map<Id, Request>): nat {
    if q == [] then 0
    else 1 + (if q[0] in rq then Unfinished(rq[q[0]].seq_) else 0) + Weight(q[1..], rq)
  }

  lemma {:induction false} WeightFrame(q: seq<Id>, rq: map<Id, Request>, id: Id, r: Request)
    requires id !in q
    ensures Weight(q, rq[id := r]) == Weight(q, rq)
  {
    if q != [] { WeightFrame(q[1..], rq, id, r); }
  }

  lemma {:induction false} WeightAppend(q: seq<Id>, rq: map<Id, Request>, id: Id)
    ensures Weight(q + [id], rq) == Weight(q, rq) + Weight([id], rq)
  {
    if q == [] {
      assert q + [id] == [id];
    } else {
      assert (q + [id])[1..] == q[1..] + [id];
      WeightAppend(q[1..], rq, id);
    }
  }

  /** One visit of the walk: finish the current step of the first request of queue `w`. */
  function Visit(c: Clock, s: Fields, w: bool, ok: bool): Fields
    requires s.Queue(w) != [] && s.Queue(w)[0] in s.rq
  {
    var id := s.Queue(w)[0];
    CompleteSeq(c, s, id, Bit(CurSeq(s.rq[id].seq_)), ok)
  }

  /** blk_flush_complete_seq on the lists: `id` is unlinked and, for a flush step, appended to the pending queue. */
  lemma CompleteSeqLists(c: Clock, s: Fields, id: Id, finished: Steps, ok: bool)
    requires id in s.rq
    ensures var r := s.rq[id].(seq_ := Union(s.rq[id].seq_, finished));
            var s' := CompleteSeq(c, s, id, finished, ok);
            && s'.rq == s.rq[id := r]
            && s'.runningIdx == s.runningIdx
            && forall w :: s'.Queue(w) == Without(s.Queue(w), id)
                 + if w == s.pendingIdx && ok && CurSeq(r.seq_) in {Pre, Post} then [id] else []
  {
  }

  /** What a visit does to the walked queue: its first request leaves it or goes to its tail. */
  lemma VisitQueue(c: Clock, s: Fields, w: bool, ok: bool)
    requires s.ListsOk() && s.Queue(w) != []
    ensures Visit(c, s, w, ok).ListsOk()
    ensures var q, q' := s.Queue(w), Visit(c, s, w, ok).Queue(w);
            q' == q[1..] || q' == q[1..] + [q[0]]
    ensures Weight(Visit(c, s, w, ok).Queue(w), Visit(c, s, w, ok).rq) < Weight(s.Queue(w), s.rq)
  {
    var q, id := s.Queue(w), s.Queue(w)[0];
    CompleteSeqOk(c, s, id, Bit(CurSeq(s.rq[id].seq_)), ok);
    CompleteSeqLists(c, s, id, Bit(CurSeq(s.rq[id].seq_)), ok);
    VisitWeight(q, s.rq, Visit(c, s, w, ok).Queue(w));
  }

  lemma VisitWeight(q: seq<Id>, rq: map<Id, Request>, q': seq<Id>)
    requires q != [] && NoDup(q) && q[0] in rq
    requires q' == Without(q, q[0])
             || (q' == Without(q, q[0]) + [q[0]] && CurSeq(rq[q[0]].seq_) != Done)
    ensures var r := rq[q[0]].(seq_ := Union(rq[q[0]].seq_, Bit(CurSeq(rq[q[0]].seq_))));
            Weight(q', rq[q[0] := r]) < Weight(q, rq)
  {
    var id := q[0];
    var r := rq[id].(seq_ := Union(rq[id].seq_, Bit(CurSeq(rq[id].seq_))));
    WeightFrame(q[1..], rq, id, r);
    WeightAppend(q[1..], rq[id := r], id);
    assert Weight([id], rq[id := r]) == 1 + Unfinished(r.seq_) + Weight([id][1..], rq[id := r]);
  }

  /**
   list_for_each_entry_safe over queue `w`: the successor is read before the visit, so the walk ends
   with the visit that finds no successor, even when that visit appends the request to `w` again.
   */
  function Walk(c: Clock, s: State, w: bool, ok: bool): State
    decreases Weight(s.Queue(w), s.rq)
  {
    if s.Queue(w) == [] then s
    else
      VisitQueue(c, s, w, ok);
      var s' := Visit(c, s, w, ok);
      if |s.Queue(w)| == 1 then s' else Walk(c, s', w, ok)
  }

  // ---- the operations and their runs ----

  datatype Op =
    | Insert(id: Id, flags: QueueFlags, cmd: Command)
    | DataEnd(id: Id, ok: bool)
    | FlushEnd(ok: bool)

  function Arrive(s: Fields, id: Id, p: Policy): Fields {
    s.(rq := s.rq[id := Request(p, Steps(false, false, false))]).Log(Inserted(id, p))
  }

  function InsertFlush(c: Clock, s: Fields, id: Id, p: Policy): Fields {
    var s1 := Arrive(s, id, p);
    if p == Policy(false, false, false) then s1.Log(Completed(id, true))
    else if !p.Sequenced() then s1.Log(PassedOn(id))
    else CompleteSeq(c, s1, id, Unneeded(p), true)
  }

  function DataEndIo(c: Clock, s: Fields, id: Id, ok: bool): Fields
    requires id in s.rq
  {
    CompleteSeq(c, s.Log(DataDone(id, ok)), id, Bit(Data), ok)
  }

  function FlushEndIo(c: Clock, s: State, ok: bool): State {
    Walk(c, s.(runningIdx := !s.runningIdx).Log(FlushDone(ok)), s.runningIdx, ok)
  }

  /** A flush was issued to the device and has not been completed by it. */
  predicate Outstanding(log: seq<Event>) {
    log != [] &&
    match log[|log| - 1]
    case FlushIssued => true
    case FlushDone(_) => false
    case _ => Outstanding(log[..|log| - 1])
  }

  /** Requests are new, and the device completes only what it was given and has not completed. */
  predicate Enabled(s: State, op: Op) {
    match op
    case Insert(id, _, _) => id !in s.rq
    case DataEnd(id, _) => id in s.inFlight
    case FlushEnd(_) => Outstanding(s.log)
  }

  function Apply(c: Clock, s: State, op: Op): State
    requires Enabled(s, op)
  {
    match op
    case Insert(id, f, cmd) =>
      var p := FlushPolicy(f, cmd);
      CompleteSeqOk(c, Arrive(s, id, p), id, Unneeded(p), true);
      InsertFlush(c, s, id, p)
    case DataEnd(id, ok) =>
      CompleteSeqOk(c, s.Log(DataDone(id, ok)), id, Bit(Data), ok);
      DataEndIo(c, s, id, ok)
    case FlushEnd(ok) => FlushEndIo(c, s, ok)
  }

  /** `states` is the run of `ops` from the empty queue. */
  ghost predicate IsRun(c: Clock, ops: seq<Op>, states: seq<State>) {
    && |states| == |ops| + 1
    && states[0] == Init
    && forall i :: 0 <= i < |ops| ==> Enabled(states[i], ops[i]) && states[i + 1] == Apply(c, states[i], ops[i])
  }

  // ---- the flush queue object ----

  /** The fields of `blk_flush_queue`, with the actions taken so far in `log`. */
  class FlushQueue {
    const clock: Clock
    var queue0: seq<Id>
    var queue1: seq<Id>
    var pendingIdx: bool
    var runningIdx: bool
    var inFlight: seq<Id>
    var pendingSince: int
    var rq: map<Id, Request>
    var log: seq<Event>

    ghost function View(): Fields
      reads this
    {
      Fields(queue0, queue1, pendingIdx, runningIdx, inFlight, pendingSince, rq, log)
    }

    function Queue(i: bool): seq<Id>
      reads this
    {
      if i then queue1 else queue0
    }

    constructor (clock: Clock)
      ensures this.clock == clock && View() == Init
    {
      this.clock := clock;
      queue0, queue1, inFlight := [], [], [];
      pendingIdx, runningIdx, pendingSince := false, false, 0;
      rq, log := map[], [];
    }

    /** blk_kick_flush. */
    method KickFlush() returns (kicked: bool)
      modifies this
      ensures View() == Kick(clock, old(View()))
      ensures log == if kicked then old(log) + [FlushIssued] else old(log)
    {
      if pendingIdx != runningIdx || Queue(pendingIdx) == [] {
        return false;
      }
      if inFlight != [] && clock(|log|) < pendingSince + FLUSH_PENDING_TIMEOUT {
        return false;
      }
      pendingIdx := !pendingIdx;
      log := log + [FlushIssued];
      return true;
    }

    /** The switch of blk_flush_complete_seq; `queued` tells whether a request was given to the device. */
    method PlaceRequest(id: Id, step: Step) returns (queued: bool)
      modifies this
      ensures View() == Place(clock, old(View()), id, step)
      ensures queued <==> step == Data
      ensures log == if queued then old(log) + [DataDispatched(id)] else old(log)
    {
      queued := false;
      if step.Pre? || step.Post? {
        if Queue(pendingIdx) == [] {
          pendingSince := clock(|log|);
        }
      }
      queue0, queue1, inFlight := Without(queue0, id), Without(queue1, id), Without(inFlight, id);
      if step.Pre? || step.Post? {
        if pendingIdx {
          queue1 := queue1 + [id];
        } else {
          queue0 := queue0 + [id];
        }
      } else if step.Data? {
        inFlight := inFlight + [id];
        log := log + [DataDispatched(id)];
        queued := true;
      }
    }

    /** blk_flush_complete_seq. */
    method CompleteStep(id: Id, finished: Steps, ok: bool) returns (queued: bool)
      requires id in rq
      modifies this
      ensures View() == CompleteSeq(clock, old(View()), id, finished, ok)
      ensures queued <==> exists k :: |old(log)| <= k < |log| && (log[k].DataDispatched? || log[k].FlushIssued?)
    {
      hide Place, Kick, CurSeq, Union;
      var r := rq[id].(seq_ := Union(rq[id].seq_, finished));
      rq := rq[id := r];
      var step := if ok then CurSeq(r.seq_) else Done;
      queued := PlaceRequest(id, step);
      if step == Done {
        log := log + [Completed(id, ok)];
      }
      assert queued ==> log[|old(log)|].DataDispatched?;
      var kicked := KickFlush();
      assert kicked ==> log[|log| - 1].FlushIssued?;
      queued := kicked || queued;
    }

    /** blk_insert_flush. */
    method Insert(id: Id, flags: QueueFlags, cmd: Command)
      requires id !in rq
      modifies this
      ensures View() == InsertFlush(clock, old(View()), id, FlushPolicy(flags, cmd))
    {
      var policy := FlushPolicy(flags, cmd);
      rq := rq[id := Request(policy, Steps(false, false, false))];
      log := log + [Inserted(id, policy)];
      if policy == Policy(false, false, false) {
        log := log + [Completed(id, true)];
        return;
      }
      if policy.data && !policy.pre && !policy.post {
        log := log + [PassedOn(id)];
        return;
      }
      var _ := CompleteStep(id, Unneeded(policy), true);
    }

    /** flush_data_end_io. */
    method DataEnd(id: Id, ok: bool)
      requires id in rq
      modifies this
      ensures View() == DataEndIo(clock, old(View()), id, ok)
    {
      log := log + [DataDone(id, ok)];
      var _ := CompleteStep(id, Bit(Data), ok);
    }

    /** flush_end_io: the walk over the running queue may issue the next flush before it is over. */
    method FlushEnd(ok: bool)
      requires View().ListsOk()
      modifies this
      ensures View() == FlushEndIo(clock, old(View()), ok)
    {
      var running := runningIdx;
      runningIdx := !runningIdx;
      log := log + [FlushDone(ok)];
      ghost var start := View();
      var more := Queue(running) != [];
      while more
        invariant View().ListsOk()
        invariant more ==> Queue(running) != [] && Walk(clock, View(), running, ok) == Walk(clock, start, running, ok)
        invariant !more ==> View() == Walk(clock, start, running, ok)
        decreases more, Weight(Queue(running), rq)
      {
        ghost var before := View();
        var id := Queue(running)[0];
        more := |Queue(running)| > 1;
        var seq_ := CurSeq(rq[id].seq_);
        var _ := CompleteStep(id, Bit(seq_), ok);
        VisitQueue(clock, before, running, ok);
        assert View() == Visit(clock, before, running, ok);
      }
    }
  }
}
