/** What the log of every run of the FLUSH/FUA sequencer looks like. */
module FlushDurability {
  import opened Lists
  import opened FlushSequencer

  // ---- reading the log ----

  predicate About(e: Event, id: Id) {
    match e
    case FlushIssued => false
    case FlushDone(_) => false
    case _ => e.id == id
  }

  /** The events of one request, in order. */
  function Script(log: seq<Event>, id: Id): seq<Event> {
    if log == [] then []
    else
      var n := |log| - 1;
      Script(log[..n], id) + if About(log[n], id) then [log[n]] else []
  }

  /**
   How far device flushes have got since `e`: 0 `e` has not happened, 1 it has, 2 a flush issued
   after it is in flight, 3 a flush issued after it has completed without error.
   */
  function FlushRank(log: seq<Event>, e: Event): (r: nat)
    ensures r <= 3
  {
    if log == [] then 0
    else
      var n := |log| - 1;
      RankStep(FlushRank(log[..n], e), log[n], e)
  }

  function RankStep(r: nat, x: Event, e: Event): nat {
    if r == 0 && x == e then 1
    else if r == 1 && x == FlushIssued then 2
    else if r == 2 && x.FlushDone? then if x.ok then 3 else 1
    else r
  }

  lemma LogStep(log: seq<Event>, e: Event)
    ensures (log + [e])[..|log|] == log
    ensures Outstanding(log + [e]) == match e case FlushIssued => true case FlushDone(_) => false case _ => Outstanding(log)
    ensures forall id :: Script(log + [e], id) == Script(log, id) + if About(e, id) then [e] else []
    ensures forall x :: FlushRank(log + [e], x) == RankStep(FlushRank(log, x), e, x)
  {
    assert (log + [e])[..|log|] == log;
  }

  lemma {:induction false} ScriptHas(log: seq<Event>, e: Event, id: Id)
    requires About(e, id)
    ensures e in log <==> e in Script(log, id)
  {
    if log != [] {
      var n := |log| - 1;
      ScriptHas(log[..n], e, id);
      assert log == log[..n] + [log[n]];
    }
  }

  lemma {:induction false} RankHappened(log: seq<Event>, e: Event)
    ensures e in log <==> FlushRank(log, e) > 0
  {
    if log != [] {
      var n := |log| - 1;
      RankHappened(log[..n], e);
      assert log == log[..n] + [log[n]];
    }
  }

  /** Positions: `e`, then a flush issued, then that flush completed without error, all within `log`. */
  ghost predicate FlushedAfter(log: seq<Event>, e: Event) {
    exists i, a, b :: 0 <= i < a < b < |log| && log[i] == e && FlushSpans(log, a, b)
  }

  /** The flush issued at `a` is the one completed, without error, at `b`. */
  ghost predicate FlushSpans(log: seq<Event>, a: int, b: int)
    requires 0 <= a < b < |log|
  {
    log[a] == FlushIssued && log[b] == FlushDone(true) && forall k :: a < k < b ==> !log[k].FlushDone?
  }

  lemma {:induction false} RankPositions(log: seq<Event>, e: Event) returns (i: int, a: int)
    requires FlushRank(log, e) > 0
    ensures 0 <= i < |log| && log[i] == e
    ensures FlushRank(log, e) == 2 ==> i < a < |log| && log[a] == FlushIssued && forall k :: a < k < |log| ==> !log[k].FlushDone?
    ensures FlushRank(log, e) == 3 ==> FlushedAfter(log, e)
  {
    var n := |log| - 1;
    var pre := log[..n];
    i, a := n, n;
    if FlushRank(pre, e) > 0 {
      i, a := RankPositions(pre, e);
      if FlushRank(log, e) == 3 {
        if FlushRank(pre, e) == 3 {
          var i', a', b' :| 0 <= i' < a' < b' < |pre| && pre[i'] == e && FlushSpans(pre, a', b');
          assert FlushSpans(log, a', b');
        } else {
          assert FlushSpans(log, a, n);
        }
      } else if FlushRank(pre, e) == 1 {
        a := n;
      }
    }
  }

  // ---- the invariant ----

  predicate Needs(p: Policy, step: Step) {
    match step case Pre => p.pre case Data => p.data case Post => p.post case Done => false
  }

  /** The finished steps of a request that waits for `step`. */
  function SeqAt(p: Policy, step: Step): Steps {
    match step
    case Pre => Steps(false, !p.data, !p.post)
    case Data => Steps(true, false, !p.post)
    case Post => Steps(true, true, false)
    case Done => Steps(true, true, true)
  }

  /** The script of a request that waits for the end of `step`. */
  function Waiting(id: Id, p: Policy, step: Step): seq<Event> {
    match step
    case Pre => [Inserted(id, p)]
    case Data => [Inserted(id, p), DataDispatched(id)]
    case Post => [Inserted(id, p)] + if p.data then [DataDispatched(id), DataDone(id, true)] else []
    case Done => []
  }

  /** The script of a request that has left the sequencer. */
  predicate Finished(sc: seq<Event>, id: Id, p: Policy) {
    if !p.Sequenced() then
      sc == [Inserted(id, p), if p.data then PassedOn(id) else Completed(id, true)]
    else
      || sc == [Inserted(id, p)] + (if p.data then [DataDispatched(id), DataDone(id, true)] else []) + [Completed(id, true)]
      || sc == [Inserted(id, p), Completed(id, false)]
      || (p.data && sc == [Inserted(id, p), DataDispatched(id), DataDone(id, false), Completed(id, false)])
      || (p.data && sc == [Inserted(id, p), DataDispatched(id), DataDone(id, true), Completed(id, false)])
  }

  predicate IdOk(s: Fields, id: Id)
    requires id in s.rq
  {
    var r := s.rq[id];
    var step := CurSeq(r.seq_);
    if s.Linked(id) then
      && r.policy.Sequenced() && Needs(r.policy, step) && r.seq_ == SeqAt(r.policy, step)
      && Script(s.log, id) == Waiting(id, r.policy, step)
      && (id in s.inFlight <==> step == Data)
      && (r.policy.pre && step != Pre ==> FlushRank(s.log, Inserted(id, r.policy)) == 3)
    else
      Finished(Script(s.log, id), id, r.policy)
  }

  /** What must have happened before `e` may: the durability promise, for one action. */
  ghost predicate Allowed(before: seq<Event>, e: Event) {
    match e
    case DataDispatched(id) =>
      forall p :: Inserted(id, p) in before && p.pre ==> FlushRank(before, Inserted(id, p)) == 3
    case Completed(id, true) =>
      forall p :: Inserted(id, p) in before && p.Sequenced() ==>
        && FlushRank(before, Inserted(id, p)) == 3
        && (p.data && p.post ==> FlushRank(before, DataDone(id, true)) == 3)
    case _ => true
  }

  ghost predicate Durable(log: seq<Event>) {
    forall j :: 0 <= j < |log| ==> Allowed(log[..j], log[j])
  }

  ghost predicate CoreBut(s: Fields, x: set<Id>) {
    && s.ListsOk()
    && (Outstanding(s.log) <==> s.pendingIdx != s.runningIdx)
    && Durable(s.log)
    && (forall id :: id in s.rq && id !in x ==> IdOk(s, id))
    && (forall id :: id !in s.rq ==> Script(s.log, id) == [])
  }

  /** A flush issued since the request started to wait has reached rank `k`. */
  predicate Covered(s: Fields, id: Id, k: nat)
    requires id in s.rq
  {
    var r := s.rq[id];
    && FlushRank(s.log, Inserted(id, r.policy)) >= k
    && (CurSeq(r.seq_) == Post && r.policy.data ==> FlushRank(s.log, DataDone(id, true)) >= k)
  }

  /**
   The invariant of every reachable state: the index bits tell whether a flush is in flight, an in
   flight flush serves a non-empty queue, and waiting without a flush in flight means waiting for data.
   */
  ghost predicate Inv(s: Fields) {
    && CoreBut(s, {})
    && (s.pendingIdx != s.runningIdx ==>
          Serving(s, s.runningIdx))
    && (s.pendingIdx == s.runningIdx ==>
          && s.Queue(!s.pendingIdx) == []
          && (s.Queue(s.pendingIdx) != [] ==> s.inFlight != []))
  }

  // ---- one step keeps it ----

  lemma DurableAppend(log: seq<Event>, e: Event)
    requires Durable(log) && Allowed(log, e)
    ensures Durable(log + [e])
  {
    forall j | 0 <= j < |log + [e]| ensures Allowed((log + [e])[..j], (log + [e])[j]) {
      if j < |log| {
        assert (log + [e])[..j] == log[..j];
      } else {
        assert (log + [e])[..j] == log;
      }
    }
  }

  /** An event that is not about `id` leaves `id` alone. */
  lemma IdOkFrame(s: Fields, s': Fields, e: Event, id: Id)
    requires id in s.rq && id in s'.rq && s'.rq[id] == s.rq[id]
    requires s'.Linked(id) == s.Linked(id) && (id in s'.inFlight <==> id in s.inFlight)
    requires s'.log == s.log + [e] && !About(e, id)
    requires IdOk(s, id)
    ensures IdOk(s', id)
  {
    LogStep(s.log, e);
  }

  /** A request whose script is known was inserted once, with the policy on record. */
  lemma InsertedOnce(s: Fields, id: Id, p: Policy)
    requires id in s.rq && Script(s.log, id) != [] && Script(s.log, id)[0] == Inserted(id, s.rq[id].policy)
    requires forall k :: 0 < k < |Script(s.log, id)| ==> !Script(s.log, id)[k].Inserted?
    requires Inserted(id, p) in s.log
    ensures p == s.rq[id].policy
  {
    ScriptHas(s.log, Inserted(id, p), id);
  }

  /** `id` is about to wait for the end of `step`. */
  predicate ReadyFor(s: Fields, id: Id, step: Step)
    requires id in s.rq
  {
    var p := s.rq[id].policy;
    && step != Done && p.Sequenced() && Needs(p, step) && s.rq[id].seq_ == SeqAt(p, step)
    && Script(s.log, id) == (if step == Data then [Inserted(id, p)] else Waiting(id, p, step))
    && (p.pre && step != Pre ==> FlushRank(s.log, Inserted(id, p)) == 3)
  }

  lemma QueueKeeps(u: Fields, t: int, i: bool, id: Id, step: Step)
    requires id in u.rq && CoreBut(u, {id}) && !u.Linked(id)
    requires step in {Pre, Post} && ReadyFor(u, id, step)
    ensures CoreBut(u.(pendingSince := t).Append(i, id), {})
  {
    var s' := u.(pendingSince := t).Append(i, id);
    AppendOk(u, id);
    assert s'.ListsOk() by {
      AppendOk(u.(pendingSince := t), id);
    }
    forall x | x in s'.rq ensures IdOk(s', x) {
      if x != id { assert IdOk(u, x); }
    }
  }

  lemma DataKeeps(u: Fields, id: Id)
    requires id in u.rq && CoreBut(u, {id}) && !u.Linked(id) && ReadyFor(u, id, Data)
    ensures CoreBut(u.(inFlight := u.inFlight + [id]).Log(DataDispatched(id)), {})
  {
    var s' := u.(inFlight := u.inFlight + [id]).Log(DataDispatched(id));
    AppendOk(u, id);
    LogStep(u.log, DataDispatched(id));
    forall p | Inserted(id, p) in u.log && p.pre ensures FlushRank(u.log, Inserted(id, p)) == 3 {
      InsertedOnce(u, id, p);
    }
    DurableAppend(u.log, DataDispatched(id));
    forall x | x in s'.rq ensures IdOk(s', x) {
      if x != id { IdOkFrame(u, s', DataDispatched(id), x); }
    }
  }

  /** blk_flush_complete_seq sending `id` on to a flush or to its data. */
  lemma PlaceKeeps(c: Clock, s: Fields, id: Id, step: Step)
    requires id in s.rq && CoreBut(s, {id}) && ReadyFor(s, id, step)
    ensures CoreBut(Place(c, s, id, step), {})
  {
    var u := s.Unlink(id);
    UnlinkOk(s, id);
    UnlinkKeeps(s, id);
    if step == Data {
      DataKeeps(u, id);
    } else {
      QueueKeeps(u, if s.Queue(s.pendingIdx) == [] then c(|s.log|) else s.pendingSince, s.pendingIdx, id, step);
    }
  }

  /** blk_flush_complete_seq ending `id`. */
  lemma EndKeeps(s: Fields, id: Id, ok: bool)
    requires id in s.rq && CoreBut(s, {id}) && !s.Linked(id)
    requires Finished(Script(s.log, id) + [Completed(id, ok)], id, s.rq[id].policy)
    requires ok ==> Allowed(s.log, Completed(id, true))
    ensures CoreBut(s.Log(Completed(id, ok)), {})
  {
    hide IdOk, Durable, Script, FlushRank, Outstanding, Finished;
    var e := Completed(id, ok);
    LogStep(s.log, e);
    DurableAppend(s.log, e) by { AllowedEnd(s, id, ok); }
    assert IdOk(s.Log(e), id) by { EndedIdOk(s.Log(e), id); }
    forall x | x in s.rq && x != id ensures IdOk(s.Log(e), x) {
      IdOkFrame(s, s.Log(e), e, x);
    }
  }

  lemma EndedIdOk(s: Fields, id: Id)
    requires id in s.rq && !s.Linked(id) && Finished(Script(s.log, id), id, s.rq[id].policy)
    ensures IdOk(s, id)
  {
  }

  lemma AllowedEnd(s: Fields, id: Id, ok: bool)
    requires ok ==> Allowed(s.log, Completed(id, true))
    ensures Allowed(s.log, Completed(id, ok))
  {
  }

  lemma UnlinkKeeps(s: Fields, id: Id)
    requires CoreBut(s, {id})
    ensures CoreBut(s.Unlink(id), {id})
  {
    UnlinkOk(s, id);
    WithoutMember(s.inFlight, id);
    forall x | x in s.rq && x != id ensures IdOk(s.Unlink(id), x) {
      assert IdOk(s, x);
    }
  }

  lemma KickKeeps(c: Clock, s: Fields)
    requires CoreBut(s, {})
    ensures CoreBut(Kick(c, s), {})
    ensures Kick(c, s).pendingIdx != s.pendingIdx ==> Serving(Kick(c, s), s.pendingIdx)
  {
    hide IdOk, Durable, Script, FlushRank, Outstanding;
    var s' := Kick(c, s);
    if s'.pendingIdx != s.pendingIdx {
      LogStep(s.log, FlushIssued);
      DurableAppend(s.log, FlushIssued);
      forall x | x in s.rq ensures IdOk(s', x) {
        IdOkFrame(s, s', FlushIssued, x);
      }
      forall id | id in s.Queue(s.pendingIdx) ensures Covered(s', id, 2) {
        WaitingHappened(s, id);
      }
    }
  }

  /** A queued request was inserted and, if it has data and waits for POSTFLUSH, its data is done. */
  lemma WaitingHappened(s: Fields, id: Id)
    requires id in s.rq && s.Linked(id) && IdOk(s, id)
    ensures Covered(s, id, 1)
  {
    var p := s.rq[id].policy;
    ScriptHas(s.log, Inserted(id, p), id);
    ScriptHas(s.log, DataDone(id, true), id);
    RankHappened(s.log, Inserted(id, p));
    RankHappened(s.log, DataDone(id, true));
  }

  /** After a kick, waiting without a flush in flight means waiting for data. */
  predicate Kicked(s: Fields) {
    s.pendingIdx == s.runningIdx && s.Queue(s.pendingIdx) != [] ==> s.inFlight != []
  }

  function Finish(s: Fields, id: Id, finished: Steps): Fields
    requires id in s.rq
  {
    s.(rq := s.rq[id := s.rq[id].(seq_ := Union(s.rq[id].seq_, finished))])
  }

  lemma FinishKeeps(s: Fields, id: Id, finished: Steps)
    requires id in s.rq && CoreBut(s, {id})
    ensures CoreBut(Finish(s, id, finished), {id})
  {
    forall x | x in s.rq && x != id ensures IdOk(Finish(s, id, finished), x) {
      assert IdOk(s, x);
    }
  }

  /** The log of an operation extends the log before it, by events that are not flush completions. */
  predicate QuietlyExtends(log: seq<Event>, log': seq<Event>) {
    log <= log' && forall k :: |log| <= k < |log'| ==> !log'[k].FlushDone?
  }

  lemma {:induction false} RankQuiet(log: seq<Event>, log': seq<Event>, e: Event)
    requires QuietlyExtends(log, log')
    ensures FlushRank(log', e) >= FlushRank(log, e)
  {
    if log != log' {
      var n := |log'| - 1;
      assert log <= log'[..n];
      RankQuiet(log, log'[..n], e);
      assert log' == log'[..n] + [log'[n]];
      LogStep(log'[..n], log'[n]);
    }
  }

  lemma CoveredQuiet(s: Fields, s': Fields, id: Id, k: nat)
    requires id in s.rq && id in s'.rq && s'.rq[id] == s.rq[id] && QuietlyExtends(s.log, s'.log)
    requires Covered(s, id, k)
    ensures Covered(s', id, k)
  {
    RankQuiet(s.log, s'.log, Inserted(id, s.rq[id].policy));
    RankQuiet(s.log, s'.log, DataDone(id, true));
  }

  /** What one blk_flush_complete_seq on `id` guarantees, whatever the step. */
  ghost predicate Advanced(s: Fields, s': Fields, id: Id) {
    && s'.runningIdx == s.runningIdx
    && s'.rq.Keys == s.rq.Keys
    && (forall x :: x in s.rq && x != id ==> s'.rq[x] == s.rq[x])
    && QuietlyExtends(s.log, s'.log)
    && CoreBut(s', {})
    && Kicked(s')
    && (s'.pendingIdx != s.pendingIdx ==> s.pendingIdx == s.runningIdx && Serving(s', s.pendingIdx))
  }

  /** Queue `i` is non-empty and a flush issued since its requests wait is under way. */
  ghost predicate Serving(s: Fields, i: bool) {
    s.Queue(i) != [] && forall x :: x in s.Queue(i) ==> x in s.rq && Covered(s, x, 2)
  }

  /** `id` may finish the steps `finished`, with or without an error, and go on to what is next. */
  ghost predicate MayFinish(s: Fields, id: Id, finished: Steps, ok: bool)
    requires id in s.rq
  {
    var s1 := Finish(s, id, finished);
    var step := if ok then CurSeq(s1.rq[id].seq_) else Done;
    if step == Done then
      && Finished(Script(s.log, id) + [Completed(id, ok)], id, s.rq[id].policy)
      && (ok ==> Allowed(s.log, Completed(id, true)))
    else ReadyFor(s1, id, step)
  }

  lemma CompleteSeqKeeps(c: Clock, s: Fields, id: Id, finished: Steps, ok: bool)
    requires id in s.rq && CoreBut(s, {id}) && MayFinish(s, id, finished, ok)
    ensures Advanced(s, CompleteSeq(c, s, id, finished, ok), id)
  {
    CompleteSeqCore(c, s, id, finished, ok);
    CompleteSeqQuiet(c, s, id, finished, ok);
  }

  lemma CompleteSeqQuiet(c: Clock, s: Fields, id: Id, finished: Steps, ok: bool)
    requires id in s.rq
    ensures var s' := CompleteSeq(c, s, id, finished, ok);
            && s'.runningIdx == s.runningIdx
            && s'.rq.Keys == s.rq.Keys
            && (forall x :: x in s.rq && x != id ==> s'.rq[x] == s.rq[x])
            && s'.rq[id].policy == s.rq[id].policy
            && QuietlyExtends(s.log, s'.log)
            && Kicked(s')
            && (s'.pendingIdx != s.pendingIdx ==> s.pendingIdx == s.runningIdx)
  {
    hide Without, CurSeq, Union;
  }

  lemma CompleteSeqCore(c: Clock, s: Fields, id: Id, finished: Steps, ok: bool)
    requires id in s.rq && CoreBut(s, {id}) && MayFinish(s, id, finished, ok)
    ensures var s' := CompleteSeq(c, s, id, finished, ok);
            && CoreBut(s', {})
            && (s'.pendingIdx != s.pendingIdx ==> Serving(s', s.pendingIdx))
  {
    var s1 := Finish(s, id, finished);
    var step := if ok then CurSeq(s1.rq[id].seq_) else Done;
    FinishKeeps(s, id, finished);
    if step == Done {
      UnlinkOk(s1, id);
      UnlinkKeeps(s1, id);
      EndKeeps(s1.Unlink(id), id, ok);
      KickKeeps(c, s1.Unlink(id).Log(Completed(id, ok)));
    } else {
      PlaceKeeps(c, s1, id, step);
      KickKeeps(c, Place(c, s1, id, step));
    }
  }

  // ---- flush_end_io keeps it ----

  /** Between two visits of the walk over queue `w`, after the flush that served it ended with `ok`. */
  ghost predicate Walking(s: Fields, w: bool, ok: bool) {
    && CoreBut(s, {})
    && s.runningIdx == !w
    && (forall id :: id in s.Queue(w) ==> id in s.rq && (ok ==> Covered(s, id, 3)))
    && (s.pendingIdx == w ==> Serving(s, !w))
  }

  /** A failed flush ends a waiting request. */
  lemma FailedMayFinish(s: Fields, id: Id)
    requires id in s.rq && s.Linked(id) && id !in s.inFlight && IdOk(s, id)
    ensures var cur := CurSeq(s.rq[id].seq_); cur in {Pre, Post} && MayFinish(s, id, Bit(cur), false)
  {
    hide FlushRank;
  }

  /** A completed flush takes a waiting request to its next step, or to its end. */
  lemma ServedMayFinish(s: Fields, id: Id)
    requires id in s.rq && s.Linked(id) && id !in s.inFlight && IdOk(s, id) && Covered(s, id, 3)
    ensures MayFinish(s, id, Bit(CurSeq(s.rq[id].seq_)), true)
  {
    hide FlushRank;
    forall p | Inserted(id, p) in s.log ensures p == s.rq[id].policy {
      InsertedOnce(s, id, p);
    }
  }

  /** The preconditions of blk_flush_complete_seq hold at every visit. */
  lemma VisitReady(s: Fields, w: bool, ok: bool)
    requires Walking(s, w, ok) && s.Queue(w) != []
    ensures var id := s.Queue(w)[0];
            var cur := CurSeq(s.rq[id].seq_);
            cur in {Pre, Post} && MayFinish(s, id, Bit(cur), ok)
  {
    hide IdOk, MayFinish, Covered, Durable, Script, Outstanding;
    var id := s.Queue(w)[0];
    assert s.Linked(id) && IdOk(s, id) && id !in s.inFlight;
    FailedMayFinish(s, id);
    if ok {
      ServedMayFinish(s, id);
    }
  }

  lemma ServingStays(s: Fields, s': Fields, i: bool, id: Id)
    requires Serving(s, i) && id !in s.Queue(i) && s'.Queue(i) == s.Queue(i)
    requires QuietlyExtends(s.log, s'.log)
    requires forall x :: x in s.rq && x != id ==> x in s'.rq && s'.rq[x] == s.rq[x]
    ensures Serving(s', i)
  {
    forall x | x in s'.Queue(i) ensures x in s'.rq && Covered(s', x, 2) {
      CoveredQuiet(s, s', x, 2);
    }
  }

  lemma VisitSettles(s: Fields, s': Fields, w: bool, ok: bool)
    requires Walking(s, w, ok) && s.Queue(w) != [] && Advanced(s, s', s.Queue(w)[0])
    requires var q := s.Queue(w);
             s'.Queue(w) == q[1..] || (s'.Queue(w) == q[1..] + [q[0]] && ReadyAgain(s, s', q[0]))
    requires s.pendingIdx == w ==> s'.Queue(!w) == s.Queue(!w)
    ensures Walking(s', w, ok)
  {
    var id := s.Queue(w)[0];
    if ok {
      forall x | x in s'.Queue(w) ensures Covered(s', x, 3) {
        if x != id {
          assert x in s.Queue(w);
          CoveredQuiet(s, s', x, 3);
        } else {
          assert id !in s.Queue(w)[1..];
          RankQuiet(s.log, s'.log, Inserted(id, s.rq[id].policy));
        }
      }
    }
    if s.pendingIdx == w {
      ServingStays(s, s', !w, id);
    }
  }

  /** Only a request without data is appended again to the queue being walked. */
  predicate ReadyAgain(s: Fields, s': Fields, id: Id) {
    id in s.rq && id in s'.rq && s'.rq[id].policy == s.rq[id].policy && !s.rq[id].policy.data
  }

  lemma VisitAdvances(c: Clock, s: Fields, w: bool, ok: bool)
    requires Walking(s, w, ok) && s.Queue(w) != []
    ensures Advanced(s, Visit(c, s, w, ok), s.Queue(w)[0])
    ensures var id := s.Queue(w)[0];
            ok && CurSeq(Visit(c, s, w, ok).rq[id].seq_) in {Pre, Post} ==> ReadyAgain(s, Visit(c, s, w, ok), id)
  {
    var id := s.Queue(w)[0];
    VisitReady(s, w, ok);
    VisitAgain(c, s, w, ok);
    hide CompleteSeq, MayFinish, Advanced, ReadyAgain;
    CompleteSeqKeeps(c, s, id, Bit(CurSeq(s.rq[id].seq_)), ok);
  }

  lemma VisitAgain(c: Clock, s: Fields, w: bool, ok: bool)
    requires Walking(s, w, ok) && s.Queue(w) != []
    ensures var id := s.Queue(w)[0];
            ok && CurSeq(Visit(c, s, w, ok).rq[id].seq_) in {Pre, Post} ==> ReadyAgain(s, Visit(c, s, w, ok), id)
  {
    var id := s.Queue(w)[0];
    assert s.Linked(id) && IdOk(s, id) && id !in s.inFlight;
    CompleteSeqLists(c, s, id, Bit(CurSeq(s.rq[id].seq_)), ok);
    hide CompleteSeq, Script, Waiting;
  }

  lemma VisitKeeps(c: Clock, s: Fields, w: bool, ok: bool)
    requires Walking(s, w, ok) && s.Queue(w) != []
    ensures Walking(Visit(c, s, w, ok), w, ok) && Kicked(Visit(c, s, w, ok))
  {
    var id := s.Queue(w)[0];
    VisitAdvances(c, s, w, ok);
    VisitLists(c, s, w, ok);
    VisitSettles(s, Visit(c, s, w, ok), w, ok);
  }

  lemma VisitLists(c: Clock, s: Fields, w: bool, ok: bool)
    requires s.ListsOk() && s.Queue(w) != []
    ensures var q, s' := s.Queue(w), Visit(c, s, w, ok);
            && q[0] in s'.rq
            && (s'.Queue(w) == q[1..]
                || (s'.Queue(w) == q[1..] + [q[0]] && s.pendingIdx == w && ok && CurSeq(s'.rq[q[0]].seq_) in {Pre, Post}))
            && (s.pendingIdx == w ==> s'.Queue(!w) == s.Queue(!w))
  {
    var id := s.Queue(w)[0];
    CompleteSeqLists(c, s, id, Bit(CurSeq(s.rq[id].seq_)), ok);
    WithoutAbsent(s.Queue(!w), id);
  }

  lemma {:induction false} WalkKeeps(c: Clock, s: Fields, w: bool, ok: bool)
    requires Walking(s, w, ok) && s.Queue(w) != []
    ensures Inv(Walk(c, s, w, ok))
    decreases Weight(s.Queue(w), s.rq)
  {
    var s' := Visit(c, s, w, ok);
    VisitKeeps(c, s, w, ok);
    VisitLists(c, s, w, ok);
    VisitAdvances(c, s, w, ok);
    if |s.Queue(w)| == 1 {
      WalkEnds(s, s', w, ok);
    } else {
      VisitQueue(c, s, w, ok);
      WalkKeeps(c, s', w, ok);
    }
  }

  lemma WalkEnds(s: Fields, s': Fields, w: bool, ok: bool)
    requires Walking(s, w, ok) && |s.Queue(w)| == 1
    requires Walking(s', w, ok) && Kicked(s') && Advanced(s, s', s.Queue(w)[0])
    requires s'.Queue(w) == [] || s.pendingIdx == w
    ensures Inv(s')
  {
  }

  /** The walk over the running queue starts in order. */
  lemma FlushEndWalks(s: Fields, ok: bool)
    requires Inv(s) && Outstanding(s.log)
    ensures var w := s.runningIdx;
            s.Queue(w) != [] && Walking(s.(runningIdx := !w).Log(FlushDone(ok)), w, ok)
  {
    hide IdOk, Durable, Script, Outstanding, FlushRank;
    var e, w := FlushDone(ok), s.runningIdx;
    var s1 := s.(runningIdx := !w).Log(e);
    LogStep(s.log, e);
    DurableAppend(s.log, e);
    forall x | x in s.rq ensures IdOk(s1, x) {
      IdOkFrame(s, s1, e, x);
    }
  }

  lemma FlushEndKeeps(c: Clock, s: Fields, ok: bool)
    requires Inv(s) && Outstanding(s.log)
    ensures Inv(FlushEndIo(c, s, ok))
  {
    FlushEndWalks(s, ok);
    WalkKeeps(c, s.(runningIdx := !s.runningIdx).Log(FlushDone(ok)), s.runningIdx, ok);
  }

  /** An event about `id` leaves every other request alone. */
  lemma EventKeeps(s: Fields, id: Id, e: Event)
    requires id in s.rq && CoreBut(s, {id}) && About(e, id) && Allowed(s.log, e)
    ensures CoreBut(s.Log(e), {id})
  {
    LogStep(s.log, e);
    DurableAppend(s.log, e);
    forall x | x in s.rq && x != id ensures IdOk(s.Log(e), x) {
      IdOkFrame(s, s.Log(e), e, x);
    }
  }

  lemma DataMayFinish(s: Fields, id: Id, ok: bool)
    requires id in s.rq && id in s.inFlight && IdOk(s, id)
    ensures MayFinish(s.Log(DataDone(id, ok)), id, Bit(Data), ok)
  {
    var s1 := s.Log(DataDone(id, ok));
    LogStep(s.log, DataDone(id, ok));
    forall p | Inserted(id, p) in s1.log ensures p == s.rq[id].policy {
      InsertedOnce(s1, id, p);
    }
  }

  lemma DataEndKeeps(c: Clock, s: Fields, id: Id, ok: bool)
    requires Inv(s) && id in s.inFlight
    ensures Inv(DataEndIo(c, s, id, ok))
  {
    var s1 := s.Log(DataDone(id, ok));
    EventKeeps(s, id, DataDone(id, ok));
    DataMayFinish(s, id, ok);
    FinishSettles(c, s, s1, id, Bit(Data), ok);
  }

  /** Finishing a step of a request that was in neither flush queue restores the invariant. */
  lemma FinishSettles(c: Clock, s: Fields, s1: Fields, id: Id, finished: Steps, ok: bool)
    requires Inv(s) && id !in s.queue0 && id !in s.queue1
    requires s1.queue0 == s.queue0 && s1.queue1 == s.queue1
    requires s1.pendingIdx == s.pendingIdx && s1.runningIdx == s.runningIdx
    requires QuietlyExtends(s.log, s1.log)
    requires forall x :: x in s.rq && x != id ==> x in s1.rq && s1.rq[x] == s.rq[x]
    requires id in s1.rq && CoreBut(s1, {id}) && MayFinish(s1, id, finished, ok)
    ensures Inv(CompleteSeq(c, s1, id, finished, ok))
  {
    CompleteSeqKeeps(c, s1, id, finished, ok);
    OutsideQueues(c, s, s1, id, finished, ok);
    Settles(s, CompleteSeq(c, s1, id, finished, ok), s1, id);
  }

  lemma OutsideQueues(c: Clock, s: Fields, s1: Fields, id: Id, finished: Steps, ok: bool)
    requires id in s1.rq && id !in s.queue0 && id !in s.queue1 && s1.queue0 == s.queue0 && s1.queue1 == s.queue1
    ensures CompleteSeq(c, s1, id, finished, ok).Queue(!s1.pendingIdx) == s.Queue(!s1.pendingIdx)
  {
    CompleteSeqLists(c, s1, id, finished, ok);
    WithoutAbsent(s.queue0, id);
    WithoutAbsent(s.queue1, id);
  }

  /** A step of a request that was in neither flush queue restores the invariant. */
  lemma Settles(s: Fields, s': Fields, s1: Fields, id: Id)
    requires Inv(s) && id !in s.queue0 && id !in s.queue1
    requires s1.pendingIdx == s.pendingIdx && s1.runningIdx == s.runningIdx
    requires QuietlyExtends(s.log, s1.log)
    requires forall x :: x in s.rq && x != id ==> x in s1.rq && s1.rq[x] == s.rq[x]
    requires Advanced(s1, s', id) && s'.Queue(!s.pendingIdx) == s.Queue(!s.pendingIdx)
    ensures Inv(s')
  {
    if s.pendingIdx != s.runningIdx {
      ServingStays(s, s', s.runningIdx, id);
    }
  }

  lemma ArriveKeeps(s: Fields, id: Id, p: Policy)
    requires CoreBut(s, {}) && id !in s.rq
    ensures CoreBut(Arrive(s, id, p), {id}) && Script(Arrive(s, id, p).log, id) == [Inserted(id, p)]
  {
    var e := Inserted(id, p);
    var s1 := Arrive(s, id, p);
    LogStep(s.log, e);
    DurableAppend(s.log, e);
    forall x | x in s.rq ensures IdOk(s1, x) {
      IdOkFrame(s, s1, e, x);
    }
  }

  lemma ArriveMayFinish(s: Fields, id: Id, p: Policy)
    requires id in s.rq && s.rq[id] == Request(p, Steps(false, false, false)) && p.Sequenced()
    requires Script(s.log, id) == [Inserted(id, p)]
    ensures MayFinish(s, id, Unneeded(p), true)
  {
  }

  lemma InsertKeeps(c: Clock, s: Fields, id: Id, p: Policy)
    requires Inv(s) && id !in s.rq
    ensures Inv(InsertFlush(c, s, id, p))
  {
    if p.Sequenced() {
      InsertSequencedKeeps(c, s, Arrive(s, id, p), id, p);
    } else {
      InsertBypassKeeps(s, Arrive(s, id, p), id, p);
    }
  }

  lemma InsertSequencedKeeps(c: Clock, s: Fields, s1: Fields, id: Id, p: Policy)
    requires Inv(s) && id !in s.rq && p.Sequenced() && s1 == Arrive(s, id, p)
    ensures Inv(CompleteSeq(c, s1, id, Unneeded(p), true))
  {
    ArriveKeeps(s, id, p);
    ArriveMayFinish(s1, id, p);
    assert !s.Linked(id);
    FinishSettles(c, s, s1, id, Unneeded(p), true);
  }

  lemma InsertBypassKeeps(s: Fields, s1: Fields, id: Id, p: Policy)
    requires Inv(s) && id !in s.rq && !p.Sequenced() && s1 == Arrive(s, id, p)
    ensures Inv(s1.Log(if p.data then PassedOn(id) else Completed(id, true)))
  {
    var e := if p.data then PassedOn(id) else Completed(id, true);
    ArriveKeeps(s, id, p);
    assert !s.Linked(id);
    BypassKeeps(s1, id, p, e);
    BypassSettles(s, s1.Log(e), id, p, e);
  }

  lemma BypassSettles(s: Fields, s': Fields, id: Id, p: Policy, e: Event)
    requires Inv(s) && id !in s.rq && CoreBut(s', {})
    requires !e.FlushDone? && s' == Arrive(s, id, p).Log(e)
    ensures Inv(s')
  {
    assert QuietlyExtends(s.log, s'.log);
    if s.pendingIdx != s.runningIdx {
      ServingStays(s, s', s.runningIdx, id);
    }
  }

  /** Requests that need no flush leave at once. */
  lemma BypassKeeps(s: Fields, id: Id, p: Policy, e: Event)
    requires id in s.rq && CoreBut(s, {id}) && !s.Linked(id)
    requires s.rq[id].policy == p && !p.Sequenced() && Script(s.log, id) == [Inserted(id, p)]
    requires e == if p.data then PassedOn(id) else Completed(id, true)
    ensures CoreBut(s.Log(e), {})
  {
    var s' := s.Log(e);
    LogStep(s.log, e);
    forall q | Inserted(id, q) in s.log ensures q == p {
      InsertedOnce(s, id, q);
    }
    DurableAppend(s.log, e);
    forall x | x in s.rq ensures IdOk(s', x) {
      if x != id { IdOkFrame(s, s', e, x); }
    }
  }

  // ---- every run ----

  /** Every state of every run satisfies the invariant. */
  lemma {:induction false} RunInv(c: Clock, ops: seq<Op>, states: seq<State>, n: nat)
    requires IsRun(c, ops, states) && n <= |ops|
    ensures Inv(states[n])
  {
    if n == 0 {
    } else {
      RunInv(c, ops, states, n - 1);
      match ops[n - 1]
      case Insert(id, f, cmd) => InsertKeeps(c, states[n - 1], id, FlushPolicy(f, cmd));
      case DataEnd(id, ok) => DataEndKeeps(c, states[n - 1], id, ok);
      case FlushEnd(ok) => FlushEndKeeps(c, states[n - 1], ok);
    }
  }

  lemma {:induction false} ScriptPrefix(log: seq<Event>, j: nat, id: Id)
    requires j <= |log|
    ensures Script(log[..j], id) <= Script(log, id)
  {
    if j < |log| {
      var n := |log| - 1;
      ScriptPrefix(log[..n], j, id);
      assert log[..n][..j] == log[..j];
    } else {
      assert log[..j] == log;
    }
  }

  lemma ScriptFirst(s: Fields, id: Id)
    requires id in s.rq && IdOk(s, id)
    ensures Script(s.log, id) != [] && Script(s.log, id)[0] == Inserted(id, s.rq[id].policy)
  {
    hide Script;
  }

  /** Inserted(id, p) precedes every other event of `id`. */
  lemma InsertedFirst(s: Fields, j: nat, id: Id)
    requires CoreBut(s, {}) && id in s.rq && j < |s.log| && About(s.log[j], id) && !s.log[j].Inserted?
    ensures Inserted(id, s.rq[id].policy) in s.log[..j]
  {
    hide Script, IdOk, Durable, Outstanding, FlushRank;
    assert IdOk(s, id);
    ScriptFirst(s, id);
    var pre, e := s.log[..j], s.log[j];
    assert s.log[..j + 1] == pre + [e];
    LogStep(pre, e);
    ScriptPrefix(s.log, j + 1, id);
    assert Script(pre + [e], id) == Script(pre, id) + [e];
    ScriptHas(pre, Inserted(id, s.rq[id].policy), id);
  }

  /**
   Durability over whole runs.  A request that needs PREFLUSH has its data dispatched only after a
   flush issued after its insertion completed; a sequenced request completes without error only after
   such a flush, and if it has data and needs POSTFLUSH, only after a flush issued after its data was done.
   */
  lemma RunsAreDurable(c: Clock, ops: seq<Op>, states: seq<State>, n: nat, id: Id, j: nat)
    requires IsRun(c, ops, states) && n <= |ops| && id in states[n].rq && j < |states[n].log|
    ensures var log, p := states[n].log, states[n].rq[id].policy;
            && (log[j] == DataDispatched(id) && p.pre ==> FlushedAfter(log[..j], Inserted(id, p)))
            && (log[j] == Completed(id, true) && p.Sequenced() ==> FlushedAfter(log[..j], Inserted(id, p)))
            && (log[j] == Completed(id, true) && p.data && p.post ==> FlushedAfter(log[..j], DataDone(id, true)))
  {
    var s := states[n];
    var p, pre, e := s.rq[id].policy, s.log[..j], s.log[j];
    RunInv(c, ops, states, n);
    if e == DataDispatched(id) || e == Completed(id, true) {
      InsertedFirst(s, j, id);
      assert Allowed(pre, e);
      if FlushRank(pre, Inserted(id, p)) == 3 { var _, _ := RankPositions(pre, Inserted(id, p)); }
      if FlushRank(pre, DataDone(id, true)) == 3 { var _, _ := RankPositions(pre, DataDone(id, true)); }
    }
  }

  /** The policy on record is the one derived from the request as it was inserted. */
  lemma {:induction false} PolicyStays(c: Clock, ops: seq<Op>, states: seq<State>, k: nat, n: nat)
    requires IsRun(c, ops, states) && k < n <= |ops| && ops[k].Insert?
    ensures var op := ops[k];
            op.id in states[n].rq && states[n].rq[op.id].policy == FlushPolicy(op.flags, op.cmd)
  {
    hide CompleteSeq, Walk, Kicked, QuietlyExtends;
    if n > k + 1 {
      PolicyStays(c, ops, states, k, n - 1);
      ApplyPolicy(c, states[n - 1], ops[n - 1], ops[k].id);
    } else {
      var op := ops[k];
      var p := FlushPolicy(op.flags, op.cmd);
      if p.Sequenced() {
        CompleteSeqQuiet(c, Arrive(states[k], op.id, p), op.id, Unneeded(p), true);
      }
    }
  }

  lemma VisitPolicy(c: Clock, s: Fields, w: bool, ok: bool, id: Id)
    requires s.Queue(w) != [] && s.Queue(w)[0] in s.rq && id in s.rq
    ensures id in Visit(c, s, w, ok).rq && Visit(c, s, w, ok).rq[id].policy == s.rq[id].policy
  {
  }

  lemma {:induction false} WalkPolicy(c: Clock, s: Fields, w: bool, ok: bool, id: Id)
    requires s.ListsOk() && id in s.rq
    ensures id in Walk(c, s, w, ok).rq && Walk(c, s, w, ok).rq[id].policy == s.rq[id].policy
    decreases Weight(s.Queue(w), s.rq)
  {
    if s.Queue(w) != [] {
      VisitQueue(c, s, w, ok);
      VisitPolicy(c, s, w, ok, id);
      if |s.Queue(w)| > 1 {
        WalkPolicy(c, Visit(c, s, w, ok), w, ok, id);
      }
    }
  }

  lemma ApplyPolicy(c: Clock, s: State, op: Op, id: Id)
    requires Enabled(s, op) && id in s.rq
    ensures id in Apply(c, s, op).rq && Apply(c, s, op).rq[id].policy == s.rq[id].policy
  {
    hide CompleteSeq, Walk, Kicked, QuietlyExtends;
    match op
    case Insert(x, f, cmd) =>
      CompleteSeqQuiet(c, Arrive(s, x, FlushPolicy(f, cmd)), x, Unneeded(FlushPolicy(f, cmd)), true);
    case DataEnd(x, ok) => CompleteSeqQuiet(c, s.Log(DataDone(x, ok)), x, Bit(Data), ok);
    case FlushEnd(ok) => WalkPolicy(c, s.(runningIdx := !s.runningIdx).Log(FlushDone(ok)), s.runningIdx, ok, id);
  }

  /**
   Order and exactly-once: at any point of any run, the events of a request inserted earlier are the
   first steps of its own sequence while it waits, and the whole sequence with one completion afterwards.
   */
  lemma RequestScript(c: Clock, ops: seq<Op>, states: seq<State>, k: nat, n: nat)
    requires IsRun(c, ops, states) && k < n <= |ops| && ops[k].Insert?
    ensures var op, s := ops[k], states[n];
            var p := FlushPolicy(op.flags, op.cmd);
            && op.id in s.rq
            && if s.Linked(op.id) then Script(s.log, op.id) == Waiting(op.id, p, CurSeq(s.rq[op.id].seq_))
               else Finished(Script(s.log, op.id), op.id, p)
  {
    RunInv(c, ops, states, n);
    PolicyStays(c, ops, states, k, n);
    assert IdOk(states[n], ops[k].id);
  }

  /**
   The same in the terms of a submitter.  On a device with a write-back cache, data of a PREFLUSH request
   is written, and the request reported, only after a flush issued after it came; FUA data on a device
   without FUA is reported only after a flush issued after it was written.  Without such a cache, or for
   plain FUA data on a device that has FUA, the request does not wait for any flush.
   */
  lemma DurableByFlags(c: Clock, ops: seq<Op>, states: seq<State>, k: nat, n: nat, j: nat)
    requires IsRun(c, ops, states) && k < n <= |ops| && ops[k].Insert? && j < |states[n].log|
    ensures var q, r, id, log := ops[k].flags, ops[k].cmd, ops[k].id, states[n].log;
            var came := Inserted(id, FlushPolicy(q, r));
            && (q.writeCache && r.preflush && log[j] in {DataDispatched(id), Completed(id, true)} ==>
                  FlushedAfter(log[..j], came))
            && (q.writeCache && !q.fua && r.fua && r.sectors != 0 && log[j] == Completed(id, true) ==>
                  FlushedAfter(log[..j], DataDone(id, true)))
            && (!q.writeCache || (q.fua && !r.preflush) ==>
                  Script(log, id) == [came, if r.sectors != 0 then PassedOn(id) else Completed(id, true)])
  {
    hide FlushedAfter, Script, FlushRank;
    PolicyStays(c, ops, states, k, n);
    RunsAreDurable(c, ops, states, n, ops[k].id, j);
    RunInv(c, ops, states, n);
    assert IdOk(states[n], ops[k].id);
  }

  /**
   The double buffer over whole runs: the two indices differ exactly when a flush is in flight, it then
   serves a non-empty queue, and otherwise only the pending queue is in use; and nothing stalls, because
   with no flush and no data in flight every request has left.
   */
  lemma NothingStalls(c: Clock, ops: seq<Op>, states: seq<State>, n: nat)
    requires IsRun(c, ops, states) && n <= |ops|
    ensures var s := states[n];
            && (s.pendingIdx != s.runningIdx <==> Outstanding(s.log))
            && (Outstanding(s.log) ==> s.Queue(s.runningIdx) != [])
            && (!Outstanding(s.log) ==> s.Queue(!s.pendingIdx) == [])
            && (!Outstanding(s.log) && s.Queue(s.pendingIdx) != [] ==> s.inFlight != [])
            && (!Outstanding(s.log) && s.inFlight == [] ==> forall id :: !s.Linked(id))
  {
    RunInv(c, ops, states, n);
  }

  // ---- how much is left to do ----

  /** Device completions that the linked requests may still need. */
  function Work(s: Fields): nat {
    Weight(s.queue0, s.rq) + Weight(s.queue1, s.rq) + Weight(s.inFlight, s.rq)
  }

  function Left(s: Fields, id: Id): nat
    requires id in s.rq
  {
    1 + Unfinished(s.rq[id].seq_)
  }

  lemma {:induction false} WeightWithout(q: seq<Id>, rq: map<Id, Request>, id: Id)
    requires id in q && id in rq
    ensures Weight(q, rq) == Weight(Without(q, id), rq) + 1 + Unfinished(rq[id].seq_)
  {
    if q[0] != id {
      WeightWithout(q[1..], rq, id);
      assert ([q[0]] + Without(q[1..], id))[1..] == Without(q[1..], id);
    }
  }

  lemma UnlinkWork(s: Fields, id: Id)
    requires s.ListsOk() && id in s.rq
    ensures Work(s.Unlink(id)) + (if s.Linked(id) then Left(s, id) else 0) == Work(s)
  {
    if id in s.queue0 { WeightWithout(s.queue0, s.rq, id); } else { WithoutAbsent(s.queue0, id); }
    if id in s.queue1 { WeightWithout(s.queue1, s.rq, id); } else { WithoutAbsent(s.queue1, id); }
    if id in s.inFlight { WeightWithout(s.inFlight, s.rq, id); } else { WithoutAbsent(s.inFlight, id); }
  }

  lemma FinishWork(s: Fields, id: Id, r: Request)
    requires !s.Linked(id)
    ensures Work(s.(rq := s.rq[id := r])) == Work(s)
  {
    WeightFrame(s.queue0, s.rq, id, r);
    WeightFrame(s.queue1, s.rq, id, r);
    WeightFrame(s.inFlight, s.rq, id, r);
  }

  lemma PlaceWork(c: Clock, s: Fields, id: Id, step: Step)
    requires id in s.rq
    ensures Work(Place(c, s, id, step)) == Work(s.Unlink(id)) + if step == Done then 0 else Left(s, id)
  {
    var u := s.Unlink(id);
    WeightAppend(u.queue0, u.rq, id);
    WeightAppend(u.queue1, u.rq, id);
    WeightAppend(u.inFlight, u.rq, id);
    assert Weight([id], u.rq) == Left(s, id) + Weight([id][1..], u.rq);
  }

  lemma CompleteSeqWork(c: Clock, s: Fields, id: Id, finished: Steps, ok: bool)
    requires s.ListsOk() && id in s.rq
    ensures var s', r := CompleteSeq(c, s, id, finished, ok), Finish(s, id, finished).rq[id];
            Work(s') + (if s.Linked(id) then Left(s, id) else 0)
              == Work(s) + if ok && CurSeq(r.seq_) != Done then 1 + Unfinished(r.seq_) else 0
  {
    var s1 := Finish(s, id, finished);
    UnlinkOk(s, id);
    UnlinkWork(s, id);
    FinishWork(s.Unlink(id), id, s1.rq[id]);
    assert s1.Unlink(id) == s.Unlink(id).(rq := s1.rq);
    PlaceWork(c, s1, id, if ok then CurSeq(s1.rq[id].seq_) else Done);
  }

  lemma {:induction false} WalkWork(c: Clock, s: Fields, w: bool, ok: bool)
    requires s.ListsOk()
    ensures Work(Walk(c, s, w, ok)) <= Work(s)
    ensures s.Queue(w) != [] ==> Work(Walk(c, s, w, ok)) < Work(s)
    decreases Weight(s.Queue(w), s.rq)
  {
    if s.Queue(w) != [] {
      var id := s.Queue(w)[0];
      VisitQueue(c, s, w, ok);
      assert s.Linked(id);
      CompleteSeqWork(c, s, id, Bit(CurSeq(s.rq[id].seq_)), ok);
      if |s.Queue(w)| > 1 {
        WalkWork(c, Visit(c, s, w, ok), w, ok);
      }
    }
  }

  function Inserts(ops: seq<Op>): nat {
    if ops == [] then 0 else Inserts(ops[..|ops| - 1]) + if ops[|ops| - 1].Insert? then 1 else 0
  }

  lemma ApplyWork(c: Clock, s: State, op: Op)
    requires Inv(s) && Enabled(s, op)
    ensures op.Insert? ==> Work(Apply(c, s, op)) <= Work(s) + 4
    ensures !op.Insert? ==> Work(Apply(c, s, op)) < Work(s)
  {
    match op
    case Insert(id, f, cmd) =>
      var p := FlushPolicy(f, cmd);
      var s1 := Arrive(s, id, p);
      assert !s.Linked(id);
      FinishWork(s, id, s1.rq[id]);
      CompleteSeqWork(c, s1, id, Unneeded(p), true);
    case DataEnd(id, ok) =>
      assert s.Linked(id) && IdOk(s, id);
      CompleteSeqWork(c, s.Log(DataDone(id, ok)), id, Bit(Data), ok);
    case FlushEnd(ok) =>
      WalkWork(c, s.(runningIdx := !s.runningIdx).Log(FlushDone(ok)), s.runningIdx, ok);
  }

  /**
   Progress over whole runs: every flush or data completion strictly reduces the work left, so a run has
   at most four completions per insertion, and one that reaches that many has finished every request.
   */
  lemma {:induction false} CompletionsBounded(c: Clock, ops: seq<Op>, states: seq<State>, n: nat)
    requires IsRun(c, ops, states) && n <= |ops|
    ensures Work(states[n]) + (n - Inserts(ops[..n])) <= 4 * Inserts(ops[..n])
  {
    hide Inv, Work, Apply, Enabled, Inserts;
    InsertsNext(ops, n);
    if n == 0 {
      StartWork(states[0]);
    } else {
      CompletionsBounded(c, ops, states, n - 1);
      RunInv(c, ops, states, n - 1);
      ApplyWork(c, states[n - 1], ops[n - 1]);
    }
  }

  lemma InsertsNext(ops: seq<Op>, n: nat)
    requires n <= |ops|
    ensures n == 0 ==> Inserts(ops[..n]) == 0
    ensures n > 0 ==> Inserts(ops[..n]) == Inserts(ops[..n - 1]) + if ops[n - 1].Insert? then 1 else 0
  {
    if n > 0 {
      assert ops[..n][..n - 1] == ops[..n - 1];
    }
  }

  lemma StartWork(s: State)
    requires s.queue0 == [] && s.queue1 == [] && s.inFlight == []
    ensures Work(s) == 0
  {
  }
}
