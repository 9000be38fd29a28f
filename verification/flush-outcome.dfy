/** What the outcome of a device flush means for the requests that waited for it, and when a flush is issued at all. */
module FlushOutcome {
  import opened Lists
  import opened FlushSequencer
  import opened FlushDurability

  // ---- what blk_flush_complete_seq adds to the log ----

  /** What happens to `id` when it goes on to `step`. */
  function Told(id: Id, step: Step, ok: bool): seq<Event> {
    match step
    case Data => [DataDispatched(id)]
    case Done => [Completed(id, ok)]
    case _ => []
  }

  lemma CompleteSeqLog(c: Clock, s: Fields, id: Id, finished: Steps, ok: bool)
    requires id in s.rq
    ensures var s' := CompleteSeq(c, s, id, finished, ok);
            var told := Told(id, if ok then CurSeq(Union(s.rq[id].seq_, finished)) else Done, ok);
            && (s'.pendingIdx == s.pendingIdx ==> s'.log == s.log + told)
            && (s'.pendingIdx != s.pendingIdx ==> s.pendingIdx == s.runningIdx && s'.log == s.log + told + [FlushIssued])
  {
    hide Without, CurSeq, Union;
  }

  // ---- a request fails only for a reason ----

  /** Since the last flush was issued, which is still in flight, nothing happened to `id`. */
  predicate Silent(log: seq<Event>, id: Id) {
    log != [] &&
    match log[|log| - 1]
    case FlushIssued => true
    case FlushDone(_) => false
    case e => !About(e, id) && Silent(log[..|log| - 1], id)
  }

  /** A flush that was issued after everything that happened to `id` has failed. */
  ghost predicate FlushFailedSince(log: seq<Event>, id: Id) {
    exists a, b :: 0 <= a < b < |log| && FailSpans(log, a, b) && forall k :: a <= k < |log| ==> !About(log[k], id)
  }

  /** The flush issued at `a` is the one that failed at `b`. */
  ghost predicate FailSpans(log: seq<Event>, a: int, b: int)
    requires 0 <= a < b < |log|
  {
    log[a] == FlushIssued && log[b] == FlushDone(false) && forall k :: a < k < b ==> !log[k].FlushDone?
  }

  ghost predicate Excuse(log: seq<Event>, id: Id) {
    DataDone(id, false) in log || FlushFailedSince(log, id)
  }

  ghost predicate Excused(log: seq<Event>) {
    forall j, id :: 0 <= j < |log| && log[j] == Completed(id, false) ==> Excuse(log[..j], id)
  }

  lemma ExcusedAppend(log: seq<Event>, e: Event)
    requires Excused(log) && (e.Completed? && !e.ok ==> Excuse(log, e.id))
    ensures Excused(log + [e])
  {
    hide Excuse;
    var log' := log + [e];
    forall j, id | 0 <= j < |log'| && log'[j] == Completed(id, false) ensures Excuse(log'[..j], id) {
      assert log'[..j] == if j < |log| then log[..j] else log;
    }
  }

  lemma {:induction false} SilentPosition(log: seq<Event>, id: Id) returns (a: int)
    requires Silent(log, id)
    ensures 0 <= a < |log| && log[a] == FlushIssued
    ensures forall k :: a <= k < |log| ==> !log[k].FlushDone? && !About(log[k], id)
  {
    var n := |log| - 1;
    if log[n] == FlushIssued {
      a := n;
    } else {
      a := SilentPosition(log[..n], id);
    }
  }

  lemma SilentFails(log: seq<Event>, id: Id)
    requires Silent(log, id)
    ensures FlushFailedSince(log + [FlushDone(false)], id)
  {
    var a := SilentPosition(log, id);
    var log' := log + [FlushDone(false)];
    assert FailSpans(log', a, |log|);
  }

  lemma SilentStep(log: seq<Event>, e: Event, id: Id)
    ensures Silent(log + [e], id) == match e
                                     case FlushIssued => true
                                     case FlushDone(_) => false
                                     case _ => !About(e, id) && Silent(log, id)
  {
    assert (log + [e])[..|log|] == log;
  }

  lemma FailedStep(log: seq<Event>, e: Event, id: Id)
    requires FlushFailedSince(log, id) && !About(e, id)
    ensures FlushFailedSince(log + [e], id)
  {
    var a, b :| 0 <= a < b < |log| && FailSpans(log, a, b) && forall k :: a <= k < |log| ==> !About(log[k], id);
    assert FailSpans(log + [e], a, b);
  }

  /** The requests of the queue that a flush serves have waited since before it was issued. */
  ghost predicate Served(s: Fields) {
    s.pendingIdx != s.runningIdx ==> forall x :: x in s.Queue(s.runningIdx) ==> Silent(s.log, x)
  }

  lemma CompleteSeqServed(c: Clock, s: Fields, id: Id, finished: Steps, ok: bool)
    requires s.ListsOk() && id in s.rq && id !in s.Queue(s.runningIdx) && Served(s)
    ensures Served(CompleteSeq(c, s, id, finished, ok))
  {
    var s' := CompleteSeq(c, s, id, finished, ok);
    CompleteSeqLog(c, s, id, finished, ok);
    CompleteSeqLists(c, s, id, finished, ok);
    WithoutAbsent(s.Queue(s.runningIdx), id);
    hide CompleteSeq, Without;
    if s'.pendingIdx != s'.runningIdx {
      forall x | x in s'.Queue(s'.runningIdx) ensures Silent(s'.log, x) {
        SilentTold(s.log, s'.log, id, if ok then CurSeq(Union(s.rq[id].seq_, finished)) else Done, ok, x);
      }
    }
  }

  lemma SilentTold(log: seq<Event>, log': seq<Event>, id: Id, step: Step, ok: bool, x: Id)
    requires log' == log + Told(id, step, ok) + [FlushIssued] || (log' == log + Told(id, step, ok) && x != id && Silent(log, x))
    ensures Silent(log', x)
  {
    if log' == log + Told(id, step, ok) + [FlushIssued] {
      SilentStep(log + Told(id, step, ok), FlushIssued, x);
    } else if Told(id, step, ok) == [] {
      assert log' == log;
    } else {
      SilentStep(log, Told(id, step, ok)[0], x);
    }
  }

  lemma CompleteSeqExcused(c: Clock, s: Fields, id: Id, finished: Steps, ok: bool)
    requires id in s.rq && Excused(s.log) && (!ok ==> Excuse(s.log, id))
    ensures Excused(CompleteSeq(c, s, id, finished, ok).log)
  {
    CompleteSeqLog(c, s, id, finished, ok);
    hide CompleteSeq, Excused, Excuse, CurSeq;
    var step := if ok then CurSeq(Union(s.rq[id].seq_, finished)) else Done;
    var log := s.log + Told(id, step, ok);
    if Told(id, step, ok) == [] {
      assert log == s.log;
    } else {
      ExcusedAppend(s.log, Told(id, step, ok)[0]);
    }
    ExcusedAppend(log, FlushIssued);
  }

  /** A visit changes nothing for the requests that are still to be visited. */
  lemma FailedVisit(c: Clock, s: Fields, w: bool, x: Id)
    requires s.ListsOk() && s.Queue(w) != [] && x != s.Queue(w)[0] && FlushFailedSince(s.log, x)
    ensures FlushFailedSince(Visit(c, s, w, false).log, x)
  {
    var id := s.Queue(w)[0];
    CompleteSeqLog(c, s, id, Bit(CurSeq(s.rq[id].seq_)), false);
    hide CompleteSeq, FlushFailedSince;
    FailedStep(s.log, Completed(id, false), x);
    FailedStep(s.log + [Completed(id, false)], FlushIssued, x);
  }

  /** The invariant of a walk over queue `w`, beside `Walking`. */
  ghost predicate Blaming(s: Fields, w: bool, ok: bool) {
    && s.ListsOk() && s.runningIdx == !w && Served(s) && Excused(s.log)
    && (!ok ==> forall id :: id in s.Queue(w) ==> FlushFailedSince(s.log, id))
  }

  lemma VisitBlames(c: Clock, s: Fields, w: bool, ok: bool)
    requires Blaming(s, w, ok) && s.Queue(w) != []
    ensures Blaming(Visit(c, s, w, ok), w, ok)
  {
    hide Served, Excused, FlushFailedSince;
    var id := s.Queue(w)[0];
    var s', cur := Visit(c, s, w, ok), CurSeq(s.rq[id].seq_);
    VisitQueue(c, s, w, ok);
    VisitLists(c, s, w, ok);
    assert id !in s.Queue(!w);
    CompleteSeqLists(c, s, id, Bit(cur), ok);
    CompleteSeqServed(c, s, id, Bit(cur), ok);
    CompleteSeqExcused(c, s, id, Bit(cur), ok);
    if !ok {
      forall x | x in s'.Queue(w) ensures FlushFailedSince(s'.log, x) {
        assert x in s.Queue(w)[1..] && x != id;
        FailedVisit(c, s, w, x);
      }
    }
  }

  lemma {:induction false} WalkBlames(c: Clock, s: Fields, w: bool, ok: bool)
    requires Blaming(s, w, ok)
    ensures Served(Walk(c, s, w, ok)) && Excused(Walk(c, s, w, ok).log)
    decreases Weight(s.Queue(w), s.rq)
  {
    if s.Queue(w) != [] {
      VisitBlames(c, s, w, ok);
      VisitQueue(c, s, w, ok);
      if |s.Queue(w)| > 1 {
        WalkBlames(c, Visit(c, s, w, ok), w, ok);
      }
    }
  }

  lemma FlushEndBlames(c: Clock, s: State, ok: bool)
    requires Served(s) && Excused(s.log) && s.pendingIdx != s.runningIdx
    ensures Served(FlushEndIo(c, s, ok)) && Excused(FlushEndIo(c, s, ok).log)
  {
    var s1 := s.(runningIdx := !s.runningIdx).Log(FlushDone(ok));
    ExcusedAppend(s.log, FlushDone(ok));
    if !ok {
      forall id | id in s1.Queue(s.runningIdx) ensures FlushFailedSince(s1.log, id) {
        SilentFails(s.log, id);
      }
    }
    WalkBlames(c, s1, s.runningIdx, ok);
  }

  /** An event about `id`, which waits in no queue. */
  lemma EventServed(s: Fields, e: Event, id: Id)
    requires Served(s) && About(e, id) && id !in s.Queue(s.runningIdx)
    ensures Served(s.Log(e))
  {
    if s.pendingIdx != s.runningIdx {
      forall x | x in s.Queue(s.runningIdx) ensures Silent(s.log + [e], x) {
        SilentStep(s.log, e, x);
      }
    }
  }

  lemma DataEndBlames(c: Clock, s: State, id: Id, ok: bool)
    requires Served(s) && Excused(s.log) && id in s.inFlight
    ensures Served(DataEndIo(c, s, id, ok)) && Excused(DataEndIo(c, s, id, ok).log)
  {
    hide CompleteSeq, Served, Excused;
    var e := DataDone(id, ok);
    EventServed(s, e, id);
    ExcusedAppend(s.log, e);
    CompleteSeqServed(c, s.Log(e), id, Bit(Data), ok);
    CompleteSeqExcused(c, s.Log(e), id, Bit(Data), ok);
  }

  lemma InsertBlames(c: Clock, s: State, id: Id, p: Policy)
    requires Served(s) && Excused(s.log) && id !in s.rq
    ensures Served(InsertFlush(c, s, id, p)) && Excused(InsertFlush(c, s, id, p).log)
  {
    hide CompleteSeq, Excused;
    var s1 := Arrive(s, id, p);
    EventServed(s, Inserted(id, p), id);
    ExcusedAppend(s.log, Inserted(id, p));
    if p.Sequenced() {
      CompleteSeqServed(c, s1, id, Unneeded(p), true);
      CompleteSeqExcused(c, s1, id, Unneeded(p), true);
    } else {
      var e := if p.data then PassedOn(id) else Completed(id, true);
      EventServed(s1, e, id);
      ExcusedAppend(s1.log, e);
    }
  }

  lemma StepBlames(c: Clock, s: State, op: Op)
    requires Inv(s) && Enabled(s, op) && Served(s) && Excused(s.log)
    ensures Served(Apply(c, s, op)) && Excused(Apply(c, s, op).log)
  {
    hide Served, Excused, FlushEndIo, DataEndIo, InsertFlush;
    match op
    case Insert(id, f, cmd) => InsertBlames(c, s, id, FlushPolicy(f, cmd));
    case DataEnd(id, ok) => DataEndBlames(c, s, id, ok);
    case FlushEnd(ok) => FlushEndBlames(c, s, ok);
  }

  lemma {:induction false} RunBlames(c: Clock, ops: seq<Op>, states: seq<State>, n: nat)
    requires IsRun(c, ops, states) && n <= |ops|
    ensures Served(states[n]) && Excused(states[n].log)
  {
    hide Inv, Served, Excused, Apply, Enabled;
    StartBlames();
    if n > 0 {
      RunBlames(c, ops, states, n - 1);
      RunInv(c, ops, states, n - 1);
      StepBlames(c, states[n - 1], ops[n - 1]);
    }
  }

  lemma StartBlames()
    ensures Served(Init) && Excused(Init.log)
  {
  }

  /**
   Over whole runs a request is reported as failed only if its own data failed, or a flush failed that was
   issued after everything that had happened to the request until then.
   */
  lemma FailuresHaveCause(c: Clock, ops: seq<Op>, states: seq<State>, n: nat, id: Id, j: nat)
    requires IsRun(c, ops, states) && n <= |ops| && j < |states[n].log| && states[n].log[j] == Completed(id, false)
    ensures DataDone(id, false) in states[n].log[..j] || FlushFailedSince(states[n].log[..j], id)
  {
    RunBlames(c, ops, states, n);
  }

  // ---- what a flush does for those who waited for it ----

  /** What has to be in the log once the flush that `id` waited for has ended. */
  predicate GoesOn(s: Fields, s': Fields, id: Id, ok: bool)
    requires id in s.rq && |s.log| <= |s'.log|
  {
    var p, added := s.rq[id].policy, s'.log[|s.log|..];
    if !ok then Completed(id, false) in added
    else if CurSeq(s.rq[id].seq_) == Post then Completed(id, true) in added
    else if p.data then DataDispatched(id) in added
    else if !p.post then Completed(id, true) in added
    else Completed(id, true) in added || WaitsForPost(s', id)
  }

  predicate WaitsForPost(s: Fields, id: Id) {
    id in s.rq && (id in s.queue0 || id in s.queue1) && CurSeq(s.rq[id].seq_) == Post
  }

  /** A report or a dispatch is about a request of `q` and carries the outcome `ok`. */
  predicate Fitting(e: Event, q: seq<Id>, ok: bool) {
    match e
    case FlushIssued => true
    case DataDispatched(id) => ok && id in q
    case Completed(id, r) => r == ok && id in q
    case _ => false
  }

  /** The log grows, by events of that kind only. */
  predicate OnlyAbout(log: seq<Event>, log': seq<Event>, q: seq<Id>, ok: bool) {
    log <= log' && forall k :: |log| <= k < |log'| ==> Fitting(log'[k], q, ok)
  }

  lemma OnlyAboutThen(log: seq<Event>, log': seq<Event>, log'': seq<Event>, q: seq<Id>, q': seq<Id>, ok: bool)
    requires OnlyAbout(log, log', q, ok) && OnlyAbout(log', log'', q, ok)
    requires forall x :: x in q ==> x in q'
    ensures OnlyAbout(log, log'', q', ok)
  {
    forall k | |log| <= k < |log''| ensures Fitting(log''[k], q', ok) {
      assert Fitting(log''[k], q, ok);
    }
  }

  lemma VisitLog(c: Clock, s: Fields, w: bool, ok: bool)
    requires s.ListsOk() && s.Queue(w) != []
    ensures var q, s' := s.Queue(w), Visit(c, s, w, ok);
            && q[0] in s'.rq && OnlyAbout(s.log, s'.log, q, ok)
            && Told(q[0], if ok then CurSeq(s'.rq[q[0]].seq_) else Done, ok) <= s'.log[|s.log|..]
  {
    var id := s.Queue(w)[0];
    var step := if ok then CurSeq(Union(s.rq[id].seq_, Bit(CurSeq(s.rq[id].seq_)))) else Done;
    CompleteSeqLog(c, s, id, Bit(CurSeq(s.rq[id].seq_)), ok);
    CompleteSeqLists(c, s, id, Bit(CurSeq(s.rq[id].seq_)), ok);
    hide CompleteSeq, CurSeq, Union, Bit, Without;
    ToldFits(s.log, id, step, ok, s.Queue(w));
    var s' := Visit(c, s, w, ok);
    var told := Told(id, step, ok);
    hide Told, OnlyAbout;
    assert s'.log[|s.log|..] == told || s'.log[|s.log|..] == told + [FlushIssued];
  }

  lemma ToldFits(log: seq<Event>, id: Id, step: Step, ok: bool, q: seq<Id>)
    requires id in q && (!ok ==> step == Done)
    ensures var log' := log + Told(id, step, ok); OnlyAbout(log, log', q, ok) && OnlyAbout(log, log' + [FlushIssued], q, ok)
  {
  }

  /** From the state of a waiting request and what it is told, what that means. */
  lemma ToldGoesOn(s: Fields, s': Fields, id: Id, ok: bool)
    requires id in s.rq && id in s'.rq && s.log <= s'.log
    requires var p, cur := s.rq[id].policy, CurSeq(s.rq[id].seq_);
             && cur in {Pre, Post} && Needs(p, cur) && s.rq[id].seq_ == SeqAt(p, cur)
             && s'.rq[id].seq_ == Union(s.rq[id].seq_, Bit(cur))
    requires var step := if ok then CurSeq(s'.rq[id].seq_) else Done;
             Told(id, step, ok) <= s'.log[|s.log|..] && (step == Post ==> id in s'.queue0 || id in s'.queue1)
    ensures GoesOn(s, s', id, ok)
  {
    var step := if ok then CurSeq(s'.rq[id].seq_) else Done;
    var added := s'.log[|s.log|..];
    assert step == Data ==> added[0] == DataDispatched(id);
    assert step == Done ==> added[0] == Completed(id, ok);
  }

  /** A request that waits for a flush has finished the steps before. */
  lemma WaitsInOrder(s: Fields, w: bool, ok: bool)
    requires Walking(s, w, ok) && s.Queue(w) != []
    ensures var id := s.Queue(w)[0];
            var p, cur := s.rq[id].policy, CurSeq(s.rq[id].seq_);
            cur in {Pre, Post} && Needs(p, cur) && s.rq[id].seq_ == SeqAt(p, cur)
  {
    var id := s.Queue(w)[0];
    assert s.Linked(id) && IdOk(s, id) && id !in s.inFlight;
    hide FlushRank, Script, Durable;
  }

  lemma VisitFirst(c: Clock, s: Fields, w: bool, ok: bool)
    requires s.ListsOk() && s.Queue(w) != []
    ensures var id, s' := s.Queue(w)[0], Visit(c, s, w, ok);
            && id in s'.rq && s'.rq[id].seq_ == Union(s.rq[id].seq_, Bit(CurSeq(s.rq[id].seq_)))
            && (ok && CurSeq(s'.rq[id].seq_) == Post ==> id in s'.queue0 || id in s'.queue1)
  {
    var id := s.Queue(w)[0];
    CompleteSeqLists(c, s, id, Bit(CurSeq(s.rq[id].seq_)), ok);
    hide CompleteSeq, Without, CurSeq, Union, Bit;
    assert Visit(c, s, w, ok).Queue(s.pendingIdx) == Visit(c, s, w, ok).queue0 || Visit(c, s, w, ok).Queue(s.pendingIdx) == Visit(c, s, w, ok).queue1;
  }

  /** The first request of the walked queue is told the outcome. */
  lemma VisitGoesOn(c: Clock, s: Fields, w: bool, ok: bool)
    requires Walking(s, w, ok) && s.Queue(w) != []
    ensures var s' := Visit(c, s, w, ok); s.log <= s'.log && GoesOn(s, s', s.Queue(w)[0], ok)
  {
    VisitLog(c, s, w, ok);
    VisitFirst(c, s, w, ok);
    WaitsInOrder(s, w, ok);
    hide Visit, CurSeq, Union, Bit, Told, Walking, Fitting;
    ToldGoesOn(s, Visit(c, s, w, ok), s.Queue(w)[0], ok);
  }

  /** A visit leaves the requests behind the first as they are. */
  lemma VisitOthers(c: Clock, s: Fields, w: bool, ok: bool, id: Id)
    requires s.ListsOk() && s.Queue(w) != [] && id in s.rq && id != s.Queue(w)[0]
    ensures var s' := Visit(c, s, w, ok);
            && id in s'.rq && s'.rq[id] == s.rq[id]
            && (id in s.queue0 ==> id in s'.queue0) && (id in s.queue1 ==> id in s'.queue1)
  {
    var x := s.Queue(w)[0];
    CompleteSeqLists(c, s, x, Bit(CurSeq(s.rq[x].seq_)), ok);
    WithoutMember(s.queue0, x);
    WithoutMember(s.queue1, x);
    hide CompleteSeq, Without, CurSeq;
    var s' := Visit(c, s, w, ok);
    assert s'.queue0 == s'.Queue(false) && s'.queue1 == s'.Queue(true);
  }

  lemma AddedLater(log: seq<Event>, log': seq<Event>, log'': seq<Event>, e: Event)
    requires log <= log' <= log''
    ensures e in log'[|log|..] || e in log''[|log'|..] ==> e in log''[|log|..]
  {
    assert log''[|log|..] == log'[|log|..] + log''[|log'|..];
  }

  /** A request that waits for POSTFLUSH goes on waiting, or is visited and completes. */
  lemma {:induction false} WalkPost(c: Clock, s: Fields, w: bool, id: Id)
    requires Walking(s, w, true) && WaitsForPost(s, id)
    ensures var s' := Walk(c, s, w, true);
            s.log <= s'.log && (Completed(id, true) in s'.log[|s.log|..] || WaitsForPost(s', id))
    decreases Weight(s.Queue(w), s.rq)
  {
    hide WaitsForPost, IdOk, Durable, GoesOn, Visit;
    if s.Queue(w) != [] {
      var s1 := Visit(c, s, w, true);
      VisitGoesOn(c, s, w, true);
      VisitKeeps(c, s, w, true);
      VisitQueue(c, s, w, true);
      if id == s.Queue(w)[0] {
        PostCompletes(s, s1, id);
      } else {
        PostStays(c, s, w, id);
      }
      if |s.Queue(w)| > 1 {
        if WaitsForPost(s1, id) {
          WalkPost(c, s1, w, id);
        } else {
          WalkExtends(c, s1, w, true);
        }
        AddedLater(s.log, s1.log, Walk(c, s, w, true).log, Completed(id, true));
      }
    }
  }

  lemma PostCompletes(s: Fields, s': Fields, id: Id)
    requires WaitsForPost(s, id) && s.log <= s'.log && GoesOn(s, s', id, true)
    ensures Completed(id, true) in s'.log[|s.log|..]
  {
  }

  lemma PostStays(c: Clock, s: Fields, w: bool, id: Id)
    requires s.ListsOk() && s.Queue(w) != [] && id != s.Queue(w)[0] && WaitsForPost(s, id)
    ensures WaitsForPost(Visit(c, s, w, true), id)
  {
    VisitOthers(c, s, w, true, id);
    hide Visit;
  }

  lemma WalkExtends(c: Clock, s: Fields, w: bool, ok: bool)
    requires s.ListsOk()
    ensures s.log <= Walk(c, s, w, ok).log
  {
    WalkOnlyAbout(c, s, w, ok);
  }

  /** Whoever has been told goes on; the rest of the walk changes nothing about it. */
  lemma WalkKeepsTold(c: Clock, s: Fields, s1: Fields, w: bool, id: Id, ok: bool)
    requires Walking(s1, w, ok) && id in s.rq && s.log <= s1.log && GoesOn(s, s1, id, ok)
    ensures var s' := Walk(c, s1, w, ok); s.log <= s'.log && GoesOn(s, s', id, ok)
  {
    WalkExtends(c, s1, w, ok);
    hide Walk, Walking, WaitsForPost;
    var s' := Walk(c, s1, w, ok);
    AddedLater(s.log, s1.log, s'.log, Completed(id, ok));
    AddedLater(s.log, s1.log, s'.log, DataDispatched(id));
    if ok && WaitsForPost(s1, id) {
      WalkPost(c, s1, w, id);
    }
  }

  /** Telling it later, from an unchanged state of the request, is telling it. */
  lemma ToldLater(s: Fields, s1: Fields, s': Fields, id: Id, ok: bool)
    requires id in s.rq && id in s1.rq && s1.rq[id] == s.rq[id] && s.log <= s1.log <= s'.log && GoesOn(s1, s', id, ok)
    ensures GoesOn(s, s', id, ok)
  {
    hide WaitsForPost;
    AddedLater(s.log, s1.log, s'.log, Completed(id, ok));
    AddedLater(s.log, s1.log, s'.log, DataDispatched(id));
  }

  lemma {:induction false} WalkGoesOn(c: Clock, s: Fields, w: bool, ok: bool, id: Id)
    requires Walking(s, w, ok) && id in s.Queue(w)
    ensures var s' := Walk(c, s, w, ok); s.log <= s'.log && GoesOn(s, s', id, ok)
    decreases Weight(s.Queue(w), s.rq)
  {
    hide GoesOn, Visit, CoreBut;
    assert s.ListsOk() by { WalkingLists(s, w, ok); }
    var s1 := Visit(c, s, w, ok);
    VisitLog(c, s, w, ok);
    VisitKeeps(c, s, w, ok);
    VisitQueue(c, s, w, ok);
    if id == s.Queue(w)[0] {
      VisitGoesOn(c, s, w, ok);
      if |s.Queue(w)| > 1 {
        WalkKeepsTold(c, s, s1, w, id, ok);
      }
    } else {
      VisitOthers(c, s, w, ok, id);
      assert |s.Queue(w)| > 1 && id in s.Queue(w)[1..];
      WalkGoesOn(c, s1, w, ok, id);
      ToldLater(s, s1, Walk(c, s, w, ok), id, ok);
    }
  }

  lemma WalkingLists(s: Fields, w: bool, ok: bool)
    requires Walking(s, w, ok)
    ensures s.ListsOk()
  {
  }

  lemma {:induction false} WalkOnlyAbout(c: Clock, s: Fields, w: bool, ok: bool)
    requires s.ListsOk()
    ensures OnlyAbout(s.log, Walk(c, s, w, ok).log, s.Queue(w), ok)
    decreases Weight(s.Queue(w), s.rq)
  {
    hide OnlyAbout, Visit;
    if s.Queue(w) == [] {
      OnlyAboutSame(s.log, s.Queue(w), ok);
    } else {
      var s1 := Visit(c, s, w, ok);
      VisitLog(c, s, w, ok);
      VisitQueue(c, s, w, ok);
      if |s.Queue(w)| > 1 {
        WalkOnlyAbout(c, s1, w, ok);
        OnlyAboutSame(s1.log, s.Queue(w), ok);
        OnlyAboutThen(s1.log, s1.log, Walk(c, s1, w, ok).log, s1.Queue(w), s.Queue(w), ok) by {
          OnlyAboutSame(s1.log, s1.Queue(w), ok);
        }
        OnlyAboutThen(s.log, s1.log, Walk(c, s, w, ok).log, s.Queue(w), s.Queue(w), ok);
      }
    }
  }

  lemma OnlyAboutSame(log: seq<Event>, q: seq<Id>, ok: bool)
    ensures OnlyAbout(log, log, q, ok)
  {
  }

  /**
   When a flush ends, each request that waited for it is told in the same operation: after a failure it is
   reported as failed; after a success its data is dispatched if it still has data to write, and otherwise it
   is reported as done, or waits for its POSTFLUSH.  Nobody else is told anything.
   */
  lemma FlushTellsWaiters(c: Clock, ops: seq<Op>, states: seq<State>, n: nat)
    requires IsRun(c, ops, states) && n < |ops| && ops[n].FlushEnd?
    ensures var s, s', ok := states[n], states[n + 1], ops[n].ok;
            var q := s.Queue(s.runningIdx);
            && q != [] && OnlyAbout(s.log + [FlushDone(ok)], s'.log, q, ok)
            && forall id :: id in q ==> id in s.rq && GoesOn(s, s', id, ok)
  {
    RunInv(c, ops, states, n);
    var s, ok := states[n], ops[n].ok;
    var s1 := s.(runningIdx := !s.runningIdx).Log(FlushDone(ok));
    FlushEndWalks(s, ok);
    hide Inv, Walk, Walking, GoesOn, OnlyAbout;
    WalkOnlyAbout(c, s1, s.runningIdx, ok);
    forall id | id in s.Queue(s.runningIdx) ensures id in s.rq && GoesOn(s, states[n + 1], id, ok) {
      WalkGoesOn(c, s1, s.runningIdx, ok, id);
      ToldLater(s, s1, states[n + 1], id, ok);
    }
  }

  // ---- what a submitter's flags mean ----

  /** A flush has to come before the data; a flush has to come after the data, since the device cannot write through. */
  predicate FlushBefore(q: QueueFlags, r: Command) { q.writeCache && r.preflush }

  predicate FlushBehind(q: QueueFlags, r: Command) { q.writeCache && r.fua && !q.fua }

  lemma CompleteSeqTells(c: Clock, s: Fields, id: Id, finished: Steps, ok: bool)
    requires id in s.rq
    ensures var s', step := CompleteSeq(c, s, id, finished, ok), if ok then CurSeq(Union(s.rq[id].seq_, finished)) else Done;
            var told := Told(id, step, ok);
            && (s'.log == s.log + told || s'.log == s.log + told + [FlushIssued])
            && (step in {Pre, Post} ==> id in s'.rq && (id in s'.queue0 || id in s'.queue1) && CurSeq(s'.rq[id].seq_) == step)
  {
    CompleteSeqLog(c, s, id, finished, ok);
    CompleteSeqLists(c, s, id, finished, ok);
    hide CompleteSeq, CurSeq, Union, Without;
    var s' := CompleteSeq(c, s, id, finished, ok);
    assert s'.Queue(s.pendingIdx) == s'.queue0 || s'.Queue(s.pendingIdx) == s'.queue1;
  }

  /** A request waits in a queue for a flush. */
  predicate InQueue(s: Fields, id: Id) { id in s.queue0 || id in s.queue1 }

  /** Between the logs, `added` happened, and perhaps a flush was issued. */
  predicate Adds(log: seq<Event>, added: seq<Event>, log': seq<Event>) {
    log' == log + added || log' == log + added + [FlushIssued]
  }

  lemma AddedHas(log: seq<Event>, added: seq<Event>, log': seq<Event>, e: Event)
    requires Adds(log, added, log') && e != FlushIssued
    ensures |log| <= |log'| && (e in log'[|log|..] <==> e in added)
  {
    assert log'[|log|..] == added || log'[|log|..] == added + [FlushIssued];
  }

  /** The step that a request goes on with, after `first` was logged, is told in the same operation. */
  lemma StepTells(c: Clock, s: Fields, first: Event, id: Id, finished: Steps, ok: bool, step: Step)
    requires id in s.rq && step == if ok then CurSeq(Union(s.rq[id].seq_, finished)) else Done
    ensures var s' := CompleteSeq(c, s.Log(first), id, finished, ok);
            Adds(s.log, [first] + Told(id, step, ok), s'.log) && (step in {Pre, Post} ==> InQueue(s', id))
  {
    CompleteSeqTells(c, s.Log(first), id, finished, ok);
    hide CompleteSeq, CurSeq, Union, Told;
    var told := Told(id, step, ok);
    assert s.log + [first] + told == s.log + ([first] + told);
    assert s.log + [first] + told + [FlushIssued] == s.log + ([first] + told) + [FlushIssued];
  }

  lemma ToldHas(log: seq<Event>, first: Event, id: Id, step: Step, ok: bool, log': seq<Event>, e: Event)
    requires Adds(log, [first] + Told(id, step, ok), log') && e != FlushIssued && e != first
    ensures |log| <= |log'|
    ensures e in log'[|log|..] <==> (step == Data && e == DataDispatched(id)) || (step == Done && e == Completed(id, ok))
  {
    hide Adds;
    AddedHas(log, [first] + Told(id, step, ok), log', e);
    var told := Told(id, step, ok);
    assert step == Data ==> told == [DataDispatched(id)];
    assert step == Done ==> told == [Completed(id, ok)];
    assert e in [first] + told <==> e in told;
  }

  /** The step a policy begins with. */
  function FirstStep(p: Policy): Step { if p.pre then Pre else if p.data then Data else if p.post then Post else Done }

  lemma SequencedTells(c: Clock, s: Fields, id: Id, p: Policy)
    requires p.Sequenced()
    ensures var s', step, came := InsertFlush(c, s, id, p), FirstStep(p), Inserted(id, p);
            Adds(s.log, [came] + Told(id, step, true), s'.log) && (step in {Pre, Post} ==> InQueue(s', id))
  {
    var s0 := s.(rq := s.rq[id := Request(p, Steps(false, false, false))]);
    StepTells(c, s0, Inserted(id, p), id, Unneeded(p), true, FirstStep(p));
    hide CompleteSeq;
  }

  lemma BypassTells(c: Clock, s: Fields, id: Id, p: Policy)
    requires !p.Sequenced()
    ensures Adds(s.log, [Inserted(id, p), if p.data then PassedOn(id) else Completed(id, true)], InsertFlush(c, s, id, p).log)
  {
    var e := if p.data then PassedOn(id) else Completed(id, true);
    assert s.log + [Inserted(id, p)] + [e] == s.log + [Inserted(id, p), e];
  }

  /**
   What an insertion does at once, by the flags: without need for a flush the request is passed on, or reported
   if it has no data; with need for one only behind the data, the data is dispatched; otherwise it waits.
   */
  lemma InsertTells(c: Clock, ops: seq<Op>, states: seq<State>, n: nat)
    requires IsRun(c, ops, states) && n < |ops| && ops[n].Insert?
    ensures var s, s', q, r, id := states[n], states[n + 1], ops[n].flags, ops[n].cmd, ops[n].id;
            var before, behind, data := FlushBefore(q, r), FlushBehind(q, r), r.sectors != 0;
            && |s.log| <= |s'.log|
            && var added := s'.log[|s.log|..];
               && (PassedOn(id) in added <==> !before && !behind && data)
               && (Completed(id, true) in added <==> !before && !behind && !data)
               && (DataDispatched(id) in added <==> !before && behind && data)
               && (before || (behind && !data) ==> InQueue(s', id))
  {
    var s, id, p := states[n], ops[n].id, FlushPolicy(ops[n].flags, ops[n].cmd);
    assert states[n + 1] == InsertFlush(c, s, id, p);
    hide InsertFlush, IsRun, Adds, Told, InQueue, Enabled;
    if p.Sequenced() {
      SequencedTells(c, s, id, p);
      ToldHas(s.log, Inserted(id, p), id, FirstStep(p), true, states[n + 1].log, PassedOn(id));
      ToldHas(s.log, Inserted(id, p), id, FirstStep(p), true, states[n + 1].log, Completed(id, true));
      ToldHas(s.log, Inserted(id, p), id, FirstStep(p), true, states[n + 1].log, DataDispatched(id));
    } else {
      BypassTells(c, s, id, p);
      var added := [Inserted(id, p), if p.data then PassedOn(id) else Completed(id, true)];
      AddedHas(s.log, added, states[n + 1].log, PassedOn(id));
      AddedHas(s.log, added, states[n + 1].log, Completed(id, true));
      AddedHas(s.log, added, states[n + 1].log, DataDispatched(id));
    }
  }

  /** The step after the data. */
  function AfterData(p: Policy): Step { if p.post then Post else Done }

  lemma DataSteps(s: Fields, id: Id)
    requires Inv(s) && id in s.inFlight
    ensures id in s.rq && CurSeq(Union(s.rq[id].seq_, Bit(Data))) == AfterData(s.rq[id].policy)
  {
    assert IdOk(s, id);
  }

  /** What the end of the data adds to the log. */
  ghost predicate TellsData(s: Fields, s': Fields, id: Id, ok: bool, behind: bool) {
    && |s.log| <= |s'.log|
    && var added := s'.log[|s.log|..];
       && (Completed(id, false) in added <==> !ok)
       && (Completed(id, true) in added <==> ok && !behind)
       && (ok && behind ==> InQueue(s', id))
  }

  lemma DataEndTells(c: Clock, s: Fields, id: Id, ok: bool)
    requires Inv(s) && id in s.inFlight && id in s.rq
    ensures TellsData(s, DataEndIo(c, s, id, ok), id, ok, s.rq[id].policy.post)
  {
    DataSteps(s, id);
    hide Inv, CompleteSeq, Adds, Told, InQueue, CurSeq, Union, Bit;
    var p, first := s.rq[id].policy, DataDone(id, ok);
    var step := if ok then AfterData(p) else Done;
    StepTells(c, s, first, id, Bit(Data), ok, step);
    ToldHas(s.log, first, id, step, ok, DataEndIo(c, s, id, ok).log, Completed(id, false));
    ToldHas(s.log, first, id, step, ok, DataEndIo(c, s, id, ok).log, Completed(id, true));
  }

  /** When the data of a request ends, the request is reported, unless a flush has to come behind the data. */
  lemma DataTells(c: Clock, ops: seq<Op>, states: seq<State>, k: nat, n: nat)
    requires IsRun(c, ops, states) && k < n < |ops| && ops[k].Insert? && ops[n].DataEnd? && ops[n].id == ops[k].id
    ensures TellsData(states[n], states[n + 1], ops[n].id, ops[n].ok, FlushBehind(ops[k].flags, ops[k].cmd))
  {
    hide Inv, DataEndIo, TellsData;
    var s, id, ok := states[n], ops[n].id, ops[n].ok;
    assert states[n + 1] == DataEndIo(c, s, id, ok) && id in s.inFlight;
    RunInv(c, ops, states, n);
    PolicyStays(c, ops, states, k, n);
    DataEndTells(c, s, id, ok);
  }

  // ---- when a flush is issued ----

  /** All data that was dispatched is done. */
  ghost predicate NoDataInFlight(log: seq<Event>) {
    forall id :: DataDispatched(id) in log ==> DataDone(id, true) in log || DataDone(id, false) in log
  }

  /** The timeout has passed at position `j` since some earlier one. */
  ghost predicate TimedOut(c: Clock, j: nat) {
    exists i: nat :: i <= j && c(j) >= c(i) + FLUSH_PENDING_TIMEOUT
  }

  /** A flush is issued only when none is in flight, and no data is either unless requests have waited for too long. */
  ghost predicate Patient(c: Clock, log: seq<Event>) {
    forall j :: 0 <= j < |log| && log[j] == FlushIssued ==> MayIssue(c, log[..j])
  }

  ghost predicate MayIssue(c: Clock, log: seq<Event>) {
    !Outstanding(log) && (NoDataInFlight(log) || TimedOut(c, |log|))
  }

  /** flush_pending_since is a past moment while requests are pending. */
  ghost predicate Timed(c: Clock, s: Fields) {
    s.Queue(s.pendingIdx) != [] ==> exists i: nat :: i <= |s.log| && s.pendingSince == c(i)
  }

  lemma PatientAppend(c: Clock, log: seq<Event>, e: Event)
    requires Patient(c, log) && (e == FlushIssued ==> MayIssue(c, log))
    ensures Patient(c, log + [e])
  {
    hide MayIssue;
    var log' := log + [e];
    forall j | 0 <= j < |log'| && log'[j] == FlushIssued ensures MayIssue(c, log'[..j]) {
      assert log'[..j] == if j < |log| then log[..j] else log;
    }
  }

  lemma DispatchedIsDone(s: Fields, id: Id)
    requires CoreBut(s, {}) && id !in s.inFlight && DataDispatched(id) in s.log
    ensures DataDone(id, true) in s.log || DataDone(id, false) in s.log
  {
    ScriptHas(s.log, DataDispatched(id), id);
    ScriptHas(s.log, DataDone(id, true), id);
    ScriptHas(s.log, DataDone(id, false), id);
    assert id in s.rq;
    assert IdOk(s, id);
    hide Script, FlushRank, Durable;
    var sc := Script(s.log, id);
    if s.Linked(id) {
      assert sc == Waiting(id, s.rq[id].policy, CurSeq(s.rq[id].seq_));
    }
    assert DataDone(id, true) in sc || DataDone(id, false) in sc by { EndsItsData(sc, id, s.rq[id].policy); }
  }

  lemma EndsItsData(sc: seq<Event>, id: Id, p: Policy)
    requires DataDispatched(id) in sc
    requires sc == Waiting(id, p, Pre) || sc == Waiting(id, p, Post) || Finished(sc, id, p)
    ensures DataDone(id, true) in sc || DataDone(id, false) in sc
  {
    assert |sc| > 2 ==> sc[2].DataDone? && sc[2].id == id && sc[2] in sc;
  }

  lemma KickPatient(c: Clock, s: Fields)
    requires CoreBut(s, {}) && Patient(c, s.log) && Timed(c, s)
    ensures Patient(c, Kick(c, s).log) && Timed(c, Kick(c, s))
  {
    hide Patient, IdOk, Durable, Script, Outstanding;
    var s' := Kick(c, s);
    if s' != s {
      if s.inFlight == [] {
        forall id | DataDispatched(id) in s.log ensures DataDone(id, true) in s.log || DataDone(id, false) in s.log {
          DispatchedIsDone(s, id);
        }
      } else {
        var i: nat :| i <= |s.log| && s.pendingSince == c(i);
        assert TimedOut(c, |s.log|);
      }
      PatientAppend(c, s.log, FlushIssued);
    }
  }

  /** The state in which blk_flush_complete_seq considers a flush. */
  function BeforeKick(c: Clock, s: Fields, id: Id, finished: Steps, ok: bool): Fields
    requires id in s.rq
  {
    var s1 := Finish(s, id, finished);
    var step := if ok then CurSeq(s1.rq[id].seq_) else Done;
    if step == Done then s1.Unlink(id).Log(Completed(id, ok)) else Place(c, s1, id, step)
  }

  lemma BeforeKickKeeps(c: Clock, s: Fields, id: Id, finished: Steps, ok: bool)
    requires id in s.rq && CoreBut(s, {id}) && MayFinish(s, id, finished, ok)
    ensures CoreBut(BeforeKick(c, s, id, finished, ok), {})
  {
    var s1 := Finish(s, id, finished);
    var step := if ok then CurSeq(s1.rq[id].seq_) else Done;
    FinishKeeps(s, id, finished);
    if step == Done {
      UnlinkOk(s1, id);
      UnlinkKeeps(s1, id);
      EndKeeps(s1.Unlink(id), id, ok);
    } else {
      PlaceKeeps(c, s1, id, step);
    }
  }

  lemma BeforeKickTimed(c: Clock, s: Fields, id: Id, finished: Steps, ok: bool)
    requires id in s.rq && Timed(c, s) && Patient(c, s.log)
    ensures var b := BeforeKick(c, s, id, finished, ok); Timed(c, b) && Patient(c, b.log)
  {
    hide Patient, CurSeq, Union;
    var b := BeforeKick(c, s, id, finished, ok);
    var step := if ok then CurSeq(Union(s.rq[id].seq_, finished)) else Done;
    if step in {Data, Done} {
      PatientAppend(c, s.log, Told(id, step, ok)[0]);
    }
    WithoutMember(s.queue0, id);
    WithoutMember(s.queue1, id);
    hide Without;
    if b.Queue(b.pendingIdx) != [] {
      if s.Queue(s.pendingIdx) != [] {
        var i: nat :| i <= |s.log| && s.pendingSince == c(i);
        assert i <= |b.log| && b.pendingSince == c(i);
      } else {
        assert b.pendingSince == c(|s.log|);
      }
    }
  }

  lemma CompleteSeqPatient(c: Clock, s: Fields, id: Id, finished: Steps, ok: bool)
    requires id in s.rq && CoreBut(s, {id}) && MayFinish(s, id, finished, ok) && Timed(c, s) && Patient(c, s.log)
    ensures var s' := CompleteSeq(c, s, id, finished, ok); Timed(c, s') && Patient(c, s'.log)
  {
    BeforeKickIs(c, s, id, finished, ok);
    hide CompleteSeq, BeforeKick, Patient, Timed, CoreBut, MayFinish, Kick;
    BeforeKickKeeps(c, s, id, finished, ok);
    BeforeKickTimed(c, s, id, finished, ok);
    KickPatient(c, BeforeKick(c, s, id, finished, ok));
  }

  lemma BeforeKickIs(c: Clock, s: Fields, id: Id, finished: Steps, ok: bool)
    requires id in s.rq
    ensures CompleteSeq(c, s, id, finished, ok) == Kick(c, BeforeKick(c, s, id, finished, ok))
  {
    hide Kick, CurSeq, Without;
  }

  lemma VisitPatient(c: Clock, s: Fields, w: bool, ok: bool)
    requires Walking(s, w, ok) && s.Queue(w) != [] && Timed(c, s) && Patient(c, s.log)
    ensures s.ListsOk() && Timed(c, Visit(c, s, w, ok)) && Patient(c, Visit(c, s, w, ok).log)
  {
    hide IdOk, Durable, Script, Outstanding, FlushRank, Timed, Patient, MayFinish, CompleteSeq;
    var id := s.Queue(w)[0];
    VisitReady(s, w, ok);
    assert CoreBut(s, {id});
    hide CoreBut;
    CompleteSeqPatient(c, s, id, Bit(CurSeq(s.rq[id].seq_)), ok);
  }

  lemma {:induction false} WalkPatient(c: Clock, s: Fields, w: bool, ok: bool)
    requires s.ListsOk() && Walking(s, w, ok) && Timed(c, s) && Patient(c, s.log)
    ensures Timed(c, Walk(c, s, w, ok)) && Patient(c, Walk(c, s, w, ok).log)
    decreases Weight(s.Queue(w), s.rq)
  {
    hide Walking, Timed, Patient, Visit;
    if s.Queue(w) != [] {
      VisitPatient(c, s, w, ok);
      VisitKeeps(c, s, w, ok);
      VisitQueue(c, s, w, ok);
      if |s.Queue(w)| > 1 {
        WalkPatient(c, Visit(c, s, w, ok), w, ok);
      }
    }
  }

  lemma FlushEndPatient(c: Clock, s: State, ok: bool)
    requires Inv(s) && Outstanding(s.log) && Timed(c, s) && Patient(c, s.log)
    ensures Timed(c, FlushEndIo(c, s, ok)) && Patient(c, FlushEndIo(c, s, ok).log)
  {
    hide Inv, Walk, Walking, Patient, Outstanding;
    FlushEndWalks(s, ok);
    WalkingLists(s.(runningIdx := !s.runningIdx).Log(FlushDone(ok)), s.runningIdx, ok);
    PatientAppend(c, s.log, FlushDone(ok));
    LoggedTimed(c, s, FlushDone(ok));
    WalkPatient(c, s.(runningIdx := !s.runningIdx).Log(FlushDone(ok)), s.runningIdx, ok);
  }

  lemma LoggedTimed(c: Clock, s: Fields, e: Event)
    requires Timed(c, s)
    ensures Timed(c, s.Log(e))
  {
  }

  lemma DataEndPatient(c: Clock, s: State, id: Id, ok: bool)
    requires Inv(s) && id in s.inFlight && Timed(c, s) && Patient(c, s.log)
    ensures Timed(c, DataEndIo(c, s, id, ok)) && Patient(c, DataEndIo(c, s, id, ok).log)
  {
    hide CompleteSeq, IdOk, Patient, Timed, MayFinish;
    var e := DataDone(id, ok);
    PatientAppend(c, s.log, e);
    LoggedTimed(c, s, e);
    EventKeeps(s, id, e);
    DataMayFinish(s, id, ok);
    CompleteSeqPatient(c, s.Log(e), id, Bit(Data), ok);
  }

  lemma InsertPatient(c: Clock, s: State, id: Id, p: Policy)
    requires Inv(s) && id !in s.rq && Timed(c, s) && Patient(c, s.log)
    ensures Timed(c, InsertFlush(c, s, id, p)) && Patient(c, InsertFlush(c, s, id, p).log)
  {
    hide CompleteSeq, Patient, MayFinish, IdOk, Script;
    var s1 := Arrive(s, id, p);
    PatientAppend(c, s.log, Inserted(id, p));
    LoggedTimed(c, s, Inserted(id, p));
    if p.Sequenced() {
      ArriveKeeps(s, id, p);
      ArriveMayFinish(s1, id, p);
      CompleteSeqPatient(c, s1, id, Unneeded(p), true);
    } else {
      var e := if p.data then PassedOn(id) else Completed(id, true);
      PatientAppend(c, s1.log, e);
      LoggedTimed(c, s1, e);
    }
  }

  lemma StepPatient(c: Clock, s: State, op: Op)
    requires Inv(s) && Enabled(s, op) && Timed(c, s) && Patient(c, s.log)
    ensures Timed(c, Apply(c, s, op)) && Patient(c, Apply(c, s, op).log)
  {
    hide Inv, Timed, Patient, FlushEndIo, DataEndIo, InsertFlush;
    match op
    case Insert(id, f, cmd) => InsertPatient(c, s, id, FlushPolicy(f, cmd));
    case DataEnd(id, ok) => DataEndPatient(c, s, id, ok);
    case FlushEnd(ok) => FlushEndPatient(c, s, ok);
  }

  lemma StartPatient(c: Clock)
    ensures Timed(c, Init) && Patient(c, Init.log)
  {
  }

  lemma {:induction false} RunPatient(c: Clock, ops: seq<Op>, states: seq<State>, n: nat)
    requires IsRun(c, ops, states) && n <= |ops|
    ensures Timed(c, states[n]) && Patient(c, states[n].log)
  {
    hide Inv, Timed, Patient, Apply, Enabled;
    StartPatient(c);
    if n > 0 {
      RunPatient(c, ops, states, n - 1);
      RunInv(c, ops, states, n - 1);
      StepPatient(c, states[n - 1], ops[n - 1]);
    }
  }

  /**
   Over whole runs, device flushes follow one another, never two at a time, and each one is issued when no
   data is in flight, or else not before the timeout has passed.
   */
  lemma FlushesWait(c: Clock, ops: seq<Op>, states: seq<State>, n: nat, j: nat)
    requires IsRun(c, ops, states) && n <= |ops| && j < |states[n].log| && states[n].log[j] == FlushIssued
    ensures var before := states[n].log[..j];
            !Outstanding(before) && (NoDataInFlight(before) || TimedOut(c, j))
  {
    RunPatient(c, ops, states, n);
    assert MayIssue(c, states[n].log[..j]);
  }

  // ---- and when it is not held back any longer ----

  /** Nothing of the flush sequences happened since position `j`. */
  predicate OnlyBypassed(log: seq<Event>, j: nat) {
    j <= |log| && forall k :: j <= k < |log| ==> log[k].Inserted? || log[k].PassedOn? || log[k].Completed?
  }

  /** While requests are pending and no flush is in flight, data is, and the timeout had not passed when last looked. */
  ghost predicate HeldBack(c: Clock, s: Fields) {
    s.pendingIdx == s.runningIdx && s.Queue(s.pendingIdx) != [] ==>
      s.inFlight != [] && exists j: nat :: OnlyBypassed(s.log, j) && c(j) < s.pendingSince + FLUSH_PENDING_TIMEOUT
  }

  lemma KickHolds(c: Clock, s: Fields)
    ensures HeldBack(c, Kick(c, s))
  {
    assert OnlyBypassed(s.log, |s.log|);
  }

  lemma CompleteSeqHolds(c: Clock, s: Fields, id: Id, finished: Steps, ok: bool)
    requires id in s.rq
    ensures HeldBack(c, CompleteSeq(c, s, id, finished, ok))
  {
    BeforeKickIs(c, s, id, finished, ok);
    KickHolds(c, BeforeKick(c, s, id, finished, ok));
  }

  lemma {:induction false} WalkHolds(c: Clock, s: Fields, w: bool, ok: bool)
    requires s.ListsOk() && s.Queue(w) != []
    ensures HeldBack(c, Walk(c, s, w, ok))
    decreases Weight(s.Queue(w), s.rq)
  {
    hide HeldBack, CompleteSeq;
    var id := s.Queue(w)[0];
    VisitQueue(c, s, w, ok);
    CompleteSeqHolds(c, s, id, Bit(CurSeq(s.rq[id].seq_)), ok);
    if |s.Queue(w)| > 1 {
      WalkHolds(c, Visit(c, s, w, ok), w, ok);
    }
  }

  lemma BypassHolds(c: Clock, s: Fields, id: Id, p: Policy, e: Event)
    requires HeldBack(c, s) && (e.PassedOn? || e.Completed?)
    ensures HeldBack(c, Arrive(s, id, p).Log(e))
  {
    var s' := Arrive(s, id, p).Log(e);
    if s.pendingIdx == s.runningIdx && s.Queue(s.pendingIdx) != [] {
      var j: nat :| OnlyBypassed(s.log, j) && c(j) < s.pendingSince + FLUSH_PENDING_TIMEOUT;
      assert OnlyBypassed(s'.log, j);
    }
  }

  lemma InsertHolds(c: Clock, s: Fields, id: Id, p: Policy)
    requires HeldBack(c, s)
    ensures HeldBack(c, InsertFlush(c, s, id, p))
  {
    hide HeldBack, CompleteSeq;
    if p.Sequenced() {
      CompleteSeqHolds(c, Arrive(s, id, p), id, Unneeded(p), true);
    } else {
      BypassHolds(c, s, id, p, if p.data then PassedOn(id) else Completed(id, true));
    }
  }

  lemma FlushEndHolds(c: Clock, s: State, ok: bool)
    requires Inv(s) && Outstanding(s.log)
    ensures HeldBack(c, FlushEndIo(c, s, ok))
  {
    FlushEndWalks(s, ok);
    hide HeldBack, Walk, Inv;
    WalkHolds(c, s.(runningIdx := !s.runningIdx).Log(FlushDone(ok)), s.runningIdx, ok);
  }

  lemma StepHolds(c: Clock, s: State, op: Op)
    requires Inv(s) && Enabled(s, op) && HeldBack(c, s)
    ensures HeldBack(c, Apply(c, s, op))
  {
    hide Inv, HeldBack, CompleteSeq, InsertFlush, FlushEndIo;
    match op
    case Insert(id, f, cmd) => InsertHolds(c, s, id, FlushPolicy(f, cmd));
    case DataEnd(id, ok) => CompleteSeqHolds(c, s.Log(DataDone(id, ok)), id, Bit(Data), ok);
    case FlushEnd(ok) => FlushEndHolds(c, s, ok);
  }

  lemma StartHolds(c: Clock)
    ensures HeldBack(c, Init)
  {
  }

  /**
   A flush is not held back for longer than it has to be: in every state of every run, if requests are pending
   and no flush is in flight, then data is in flight, and when a step of a flush sequence last ended the timeout
   had not passed.
   */
  lemma {:induction false} RunHeldBack(c: Clock, ops: seq<Op>, states: seq<State>, n: nat)
    requires IsRun(c, ops, states) && n <= |ops|
    ensures HeldBack(c, states[n])
  {
    hide Inv, HeldBack, Apply, Enabled;
    StartHolds(c);
    if n > 0 {
      RunHeldBack(c, ops, states, n - 1);
      RunInv(c, ops, states, n - 1);
      StepHolds(c, states[n - 1], ops[n - 1]);
    }
  }
}
