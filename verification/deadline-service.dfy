/** Whole runs of the deadline scheduler: its invariant, its service bounds, and draining. */
module DeadlineService {
  import opened Lists
  import opened Options
  import opened Deadline

  datatype Event =
    | Added(id: Id, d: Dir, pos: nat, now: int)
    | Dispatched(now: int)
    | FrontMerge(id: Id, pos: nat)
    | Merge(id: Id, gone: Id)

  /** New requests are new, time does not run backwards, and only queued requests are merged. */
  predicate Enabled(s: State, e: Event) {
    match e
    case Added(id, d, _, now) => id !in s.rq && now >= s.clock && forall x :: x in s.Of(d).sort ==> x in s.rq
    case Dispatched(now) => now >= s.clock && HeadsKnown(s)
    case FrontMerge(id, _) => s.Queued(id) && id in s.rq && forall x :: x in s.Of(s.rq[id].dir).sort ==> x in s.rq
    case Merge(id, gone) =>
      s.Queued(id) && s.Queued(gone) && id != gone && id in s.rq && gone in s.rq && s.rq[id].dir == s.rq[gone].dir
  }

  function Apply(t: Tunables, s: State, e: Event): State
    requires Enabled(s, e)
  {
    match e
    case Added(id, d, pos, now) => Add(t, s, id, d, pos, now)
    case Dispatched(now) => Dispatch(t, s, now)
    case FrontMerge(id, pos) => Deadline.FrontMerged(s, id, pos)
    case Merge(id, gone) => MergedRequests(s, id, gone)
  }

  ghost predicate IsRun(t: Tunables, start: int, es: seq<Event>, ss: seq<State>) {
    && |ss| == |es| + 1
    && ss[0] == Init(start)
    && forall i :: 0 <= i < |es| ==> Enabled(ss[i], es[i]) && ss[i + 1] == Apply(t, ss[i], es[i])
  }

  lemma ApplyKeeps(t: Tunables, s: State, e: Event)
    requires Inv(t, s) && Enabled(s, e)
    ensures Inv(t, Apply(t, s, e))
  {
    hide Inv;
    match e
    case Added(id, d, pos, now) => AddKeeps(t, s, id, d, pos, now);
    case Dispatched(now) => DispatchKeeps(t, s, now);
    case FrontMerge(id, pos) => FrontMergedKeeps(t, s, id, pos);
    case Merge(id, gone) => MergedKeeps(t, s, id, gone);
  }

  /**
   In every state of every run both lists of a direction hold the same requests, in sector and in expiry
   order, at most one next_rq is set and it is queued, and what was dispatched is gone, once each.
   */
  lemma {:induction false} RunInv(t: Tunables, start: int, es: seq<Event>, ss: seq<State>, n: nat)
    requires IsRun(t, start, es, ss) && n <= |es|
    ensures Inv(t, ss[n])
  {
    if n > 0 {
      RunInv(t, start, es, ss, n - 1);
      ApplyKeeps(t, ss[n - 1], es[n - 1]);
    }
  }

  // ---- service bounds ----

  /** Request `w` heads the fifo of direction `d` and has expired. */
  predicate Overdue(s: State, w: Id, d: Dir) {
    s.Of(d).fifo != [] && s.Of(d).fifo[0] == w && w in s.rq && s.rq[w].time <= s.clock
  }

  /** Dispatches that the current batch may still take. */
  function Rest(t: Tunables, s: State): nat {
    if Batch(s).Some? && s.batching < t.fifoBatch then t.fifoBatch - s.batching else 0
  }

  /** The dispatches of a full batch: at least the one that starts it. */
  function BatchSize(t: Tunables): nat {
    if t.fifoBatch == 0 then 1 else t.fifoBatch
  }

  /** Dispatches that may come before an overdue request of direction `d`. */
  function Delay(t: Tunables, s: State, d: Dir): int {
    Rest(t, s) + if d == WRITE then (t.writesStarved - s.starved) * BatchSize(t)
                 else if s.starved >= t.writesStarved then BatchSize(t) else 0
  }

  /** How many dispatches an overdue request may have to wait for. */
  function ServiceBound(t: Tunables, d: Dir): nat {
    if d == WRITE then (t.writesStarved + 1) * BatchSize(t) else 2 * BatchSize(t)
  }

  lemma MoveEffect(s: State, d: Dir, id: Id, o: Dir)
    ensures var s' := Move(s, d, id);
            && s'.out == s.out + [id] && s'.starved == s.starved && s'.batching == s.batching && s'.rq == s.rq
            && s'.clock == s.clock && s'.Of(o).fifo == if o == d then Without(s.Of(o).fifo, id) else s.Of(o).fifo
  {
    hide Without, Latter;
  }

  /** Whatever a dispatch moves, an overdue request that is not moved stays where it is. */
  lemma StaysOverdue(s: State, d: Dir, id: Id, w: Id, o: Dir)
    requires Overdue(s, w, o)
    ensures w in Move(s, d, id).out || Overdue(Move(s, d, id), w, o)
  {
    hide Move;
    MoveEffect(s, d, id, o);
  }

  lemma BatchServes(t: Tunables, s: State, w: Id, o: Dir, d: Dir, id: Id, now: int)
    requires Overdue(s, w, o) && now >= s.clock && Batch(s).Some? && s.batching < t.fifoBatch
    ensures var s' := Move(s.(clock := now, batching := s.batching + 1), d, id);
            w in s'.out || (Overdue(s', w, o) && Delay(t, s', o) < Delay(t, s, o))
  {
    hide Move;
    var s1 := s.(clock := now, batching := s.batching + 1);
    StaysOverdue(s1, d, id, w, o);
    MoveEffect(s1, d, id, o);
  }

  /** A batch started in the direction of the overdue request starts with it. */
  lemma StartServes(s: State, w: Id, d: Dir, now: int)
    requires Overdue(s, w, d) && now >= s.clock
    ensures w in Start(s, d, now).out
  {
    hide Move;
    MoveEffect(s.(batching := 1), d, w, d);
  }

  /** A batch started in the other direction costs what the delay allows for. */
  lemma OtherStart(t: Tunables, s: State, w: Id, d: Dir, now: int, n: nat)
    requires Overdue(s, w, d) && now >= s.clock
    requires s.Of(Other(d)).fifo != [] && s.Of(Other(d)).fifo[0] in s.rq
    requires if d == WRITE then n == s.starved + 1 <= t.writesStarved else n == 0 < t.writesStarved <= s.starved
    ensures var s' := Start(s.(clock := now, starved := n), Other(d), now);
            w in s'.out || (Overdue(s', w, d) && Delay(t, s', d) < Delay(t, s, d))
  {
    hide Move;
    var s1 := s.(clock := now, starved := n, batching := 1);
    var l := s.Of(Other(d));
    var id := if now >= s.rq[l.fifo[0]].time || l.next.None? then l.fifo[0] else l.next.value;
    StaysOverdue(s1, Other(d), id, w, d);
    MoveEffect(s1, Other(d), id, d);
    assert Start(s.(clock := now, starved := n), Other(d), now) == Move(s1, Other(d), id);
    if d == WRITE {
      assert (t.writesStarved - s.starved) * BatchSize(t) == (t.writesStarved - n) * BatchSize(t) + BatchSize(t);
    }
  }

  /** A dispatch serves the overdue request, or brings it closer by at least one. */
  lemma DispatchServes(t: Tunables, s: State, w: Id, d: Dir, now: int)
    requires Inv(t, s) && Overdue(s, w, d) && now >= s.clock && HeadsKnown(s)
    requires d == READ ==> t.writesStarved >= 1
    ensures var s' := Dispatch(t, s, now);
            w in s'.out || (Overdue(s', w, d) && Delay(t, s', d) < Delay(t, s, d))
  {
    hide Inv, Core, Move, Start, Delay;
    InvIsCore(t, s);
    CoreBatching(t, s);
    var b := Batch(s);
    var toWrite := s.read.fifo == [] || (s.write.fifo != [] && s.starved >= t.writesStarved);
    if b.Some? && s.batching < t.fifoBatch {
      BatchServes(t, s, w, d, b.value.0, b.value.1, now);
    } else if (d == WRITE) == toWrite {
      StartServes(s.(clock := now, starved := if toWrite then 0 else if s.write.fifo != [] then s.starved + 1 else s.starved), w, d, now);
    } else {
      OtherStart(t, s, w, d, now, if toWrite then 0 else s.starved + 1);
    }
  }

  /** The other events leave the overdue request at the head and do not delay it, unless it is swallowed. */
  lemma EventKeepsOverdue(t: Tunables, s: State, e: Event, w: Id, d: Dir)
    requires Inv(t, s) && Enabled(s, e) && Overdue(s, w, d) && !e.Dispatched? && !(e.Merge? && e.gone == w)
    ensures Overdue(Apply(t, s, e), w, d) && Delay(t, Apply(t, s, e), d) <= Delay(t, s, d)
  {
    hide Inv, InsertSorted, Remove, InsertAfter;
    match e
    case Added(id, o, pos, now) => assert (s.Of(o).fifo + [id])[0] == if s.Of(o).fifo == [] then id else s.Of(o).fifo[0];
    case FrontMerge(id, pos) =>
    case Merge(id, gone) => MergeKeepsOverdue(t, s, id, gone, w, d);
  }

  lemma MergeKeepsOverdue(t: Tunables, s: State, id: Id, gone: Id, w: Id, d: Dir)
    requires Inv(t, s) && Enabled(s, Merge(id, gone)) && Overdue(s, w, d) && gone != w
    ensures Overdue(MergedRequests(s, id, gone), w, d)
    ensures Delay(t, MergedRequests(s, id, gone), d) <= Delay(t, s, d)
  {
    hide LaneGood, Without, InsertAfter;
    MergedBatch(t, s, id, gone);
    QueuedKnown(t, s, id);
    QueuedKnown(t, s, gone);
    if s.rq[id].dir == d {
      HeadIsEarliest(t, s, d, gone);
      MergeHead(s.Of(d).fifo, id, gone, w);
    }
    assert s.Of(d).fifo != [] && MergedRequests(s, id, gone).rq[w].time == s.rq[w].time;
  }

  lemma MergeHead(fifo: seq<Id>, id: Id, gone: Id, w: Id)
    requires fifo != [] && fifo[0] == w && gone != w
    ensures var f := Without(fifo, gone); f != [] && f[0] == w
    ensures id != w ==> var f := Without(InsertAfter(Without(fifo, id), gone, id), gone); f != [] && f[0] == w
  {
    if id != w {
      var f := Without(fifo, id);
      assert f[0] == w;
      assert InsertAfter(f, gone, id)[0] == w;
    }
  }

  lemma HeadIsEarliest(t: Tunables, s: State, d: Dir, x: Id)
    requires LaneOk(t, s, d) && x in s.Of(d).fifo
    ensures s.Of(d).fifo[0] in s.rq && x in s.rq && s.rq[s.Of(d).fifo[0]].time <= s.rq[x].time
  {
    var f := s.Of(d).fifo;
    var k :| 0 <= k < |f| && f[k] == x;
    assert k > 0 ==> s.rq[f[0]].time <= s.rq[f[k]].time;
  }

  function Dispatches(es: seq<Event>): nat {
    if es == [] then 0 else Dispatches(es[..|es| - 1]) + if es[|es| - 1].Dispatched? then 1 else 0
  }

  predicate Swallows(es: seq<Event>, w: Id) {
    exists i :: 0 <= i < |es| && es[i].Merge? && es[i].gone == w
  }

  lemma OutGrows(t: Tunables, s: State, e: Event, w: Id)
    requires Inv(t, s) && Enabled(s, e) && w in s.out
    ensures w in Apply(t, s, e).out
  {
    hide Inv, InsertSorted, Remove, InsertAfter;
    if e.Merge? { MergedBatch(t, s, e.id, e.gone); }
  }

  /** When the overdue head is swallowed by a request that expires later, that one takes its place. */
  lemma SwallowedHeadIsReplaced(t: Tunables, s: State, id: Id, w: Id, d: Dir)
    requires Inv(t, s) && Enabled(s, Merge(id, w)) && Overdue(s, w, d)
    ensures var s' := MergedRequests(s, id, w);
            && Delay(t, s', d) <= Delay(t, s, d)
            && (s.rq[w].time < s.rq[id].time ==> Overdue(s', id, d))
            && (s.rq[w].time == s.rq[id].time ==> s'.Of(d).fifo != [] && Overdue(s', s'.Of(d).fifo[0], d) && id in s'.Of(d).fifo)
  {
    hide LaneGood, Without, InsertAfter;
    MergedBatch(t, s, id, w);
    QueuedKnown(t, s, id);
    QueuedKnown(t, s, w);
    MergedKeeps(t, s, id, w);
    var s', f := MergedRequests(s, id, w), s.Of(d).fifo;
    assert s.rq[w].dir == d by { HeadDirection(t, s, d, w); }
    HeadIsEarliest(t, s, d, id);
    if s.rq[w].time < s.rq[id].time {
      HeadTaken(f, id, w);
    } else {
      MergedMembers(t, s, d, id, w);
      HeadIsEarliest(t, s', d, id);
    }
  }

  lemma HeadDirection(t: Tunables, s: State, d: Dir, w: Id)
    requires LaneOk(t, s, d) && s.Of(d).fifo != [] && s.Of(d).fifo[0] == w
    ensures w in s.rq && s.rq[w].dir == d
  {
    assert w in s.Of(d).fifo;
  }

  lemma HeadTaken(fifo: seq<Id>, id: Id, w: Id)
    requires fifo != [] && fifo[0] == w && id != w
    ensures var f := Without(InsertAfter(Without(fifo, id), w, id), w); f != [] && f[0] == id
  {
    var f := Without(fifo, id);
    assert f[0] == w;
    assert InsertAfter(f, w, id) == [w, id] + f[1..];
  }

  /** The request that carries `w` after the events: `w` itself, or whoever swallowed it. */
  function Carrier(es: seq<Event>, w: Id): Id {
    if es == [] then w
    else
      var c, e := Carrier(es[..|es| - 1], w), es[|es| - 1];
      if e.Merge? && e.gone == c then e.id else c
  }

  /** Whoever swallows the carrier of `w` expires later, and so takes over its place and its expiry. */
  predicate TakenOver(es: seq<Event>, ss: seq<State>, i: nat, j: nat, w: Id)
    requires i <= j <= |es| && |ss| == |es| + 1
  {
    forall k :: i <= k < j && es[k].Merge? && es[k].gone == Carrier(es[i..k], w) ==>
      es[k].gone in ss[k].rq && es[k].id in ss[k].rq && ss[k].rq[es[k].gone].time < ss[k].rq[es[k].id].time
  }

  /** From a state with an overdue request on, every dispatch uses up a part of its delay until it is served. */
  lemma {:induction false} Progress(t: Tunables, start: int, es: seq<Event>, ss: seq<State>, i: nat, j: nat, w: Id, d: Dir)
    requires IsRun(t, start, es, ss) && i <= j <= |es| && Overdue(ss[i], w, d)
    requires (d == READ ==> t.writesStarved >= 1) && TakenOver(es, ss, i, j, w)
    ensures var c := Carrier(es[i..j], w);
            c in ss[j].out || (Overdue(ss[j], c, d) && Delay(t, ss[j], d) + Dispatches(es[i..j]) <= Delay(t, ss[i], d))
  {
    hide Inv, Delay, Apply, Overdue, Enabled, IsRun, TakenOver;
    if j > i {
      var last, c := es[j - 1], Carrier(es[i..j - 1], w);
      assert es[i..j][..j - i - 1] == es[i..j - 1] && es[i..j][j - i - 1] == last;
      RunStep(t, start, es, ss, j - 1);
      TakenOverLast(es, ss, i, j, w);
      Progress(t, start, es, ss, i, j - 1, w, d);
      RunInv(t, start, es, ss, j - 1);
      if c in ss[j - 1].out {
        OutGrows(t, ss[j - 1], last, c);
        OutIsNotQueued(t, ss[j - 1], c);
        MergesQueued(ss[j - 1], last);
      } else {
        OneStep(t, ss[j - 1], last, c, d);
      }
    }
  }

  lemma RunStep(t: Tunables, start: int, es: seq<Event>, ss: seq<State>, k: nat)
    requires IsRun(t, start, es, ss) && k < |es|
    ensures |ss| == |es| + 1 && Enabled(ss[k], es[k]) && ss[k + 1] == Apply(t, ss[k], es[k])
  {
  }

  lemma TakenOverLast(es: seq<Event>, ss: seq<State>, i: nat, j: nat, w: Id)
    requires i < j <= |es| && |ss| == |es| + 1 && TakenOver(es, ss, i, j, w)
    ensures TakenOver(es, ss, i, j - 1, w)
    ensures var e, s := es[j - 1], ss[j - 1];
            e.Merge? && e.gone == Carrier(es[i..j - 1], w) ==> e.gone in s.rq && e.id in s.rq && s.rq[e.gone].time < s.rq[e.id].time
  {
  }

  lemma MergesQueued(s: State, e: Event)
    requires Enabled(s, e)
    ensures e.Merge? ==> s.Queued(e.gone)
  {
  }

  lemma OutIsNotQueued(t: Tunables, s: State, w: Id)
    requires Inv(t, s) && w in s.out
    ensures !s.Queued(w)
  {
  }

  lemma OneStep(t: Tunables, s: State, e: Event, w: Id, d: Dir)
    requires Inv(t, s) && Enabled(s, e) && Overdue(s, w, d)
    requires e.Merge? && e.gone == w ==> s.rq[w].time < s.rq[e.id].time
    requires d == READ ==> t.writesStarved >= 1
    ensures var s', c := Apply(t, s, e), if e.Merge? && e.gone == w then e.id else w;
            c in s'.out || (Overdue(s', c, d) && Delay(t, s', d) + (if e.Dispatched? then 1 else 0) <= Delay(t, s, d))
  {
    hide Inv, Delay, Overdue, Dispatch;
    if e.Dispatched? {
      DispatchServes(t, s, w, d, e.now);
    } else if e.Merge? && e.gone == w {
      SwallowedHeadIsReplaced(t, s, e.id, w, d);
    } else {
      EventKeepsOverdue(t, s, e, w, d);
    }
  }

  lemma DelayBound(t: Tunables, s: State, d: Dir)
    requires Inv(t, s)
    ensures 0 <= Delay(t, s, d) < ServiceBound(t, d)
  {
    hide LaneOk;
    assert 0 <= (t.writesStarved - s.starved) * BatchSize(t) <= t.writesStarved * BatchSize(t);
  }

  /**
   The service bounds: an expired write at the head of its fifo is dispatched within
   (writes_starved + 1) * fifo_batch dispatches, whatever is added or merged meanwhile; if it is itself
   merged into requests that expire later, then the last of these is.  An expired read within
   2 * fifo_batch if writes_starved is at least 1 (`StarvingRun` shows that it must be).
   */
  lemma OverdueIsServed(t: Tunables, start: int, es: seq<Event>, ss: seq<State>, i: nat, j: nat, w: Id, d: Dir)
    requires IsRun(t, start, es, ss) && i <= j <= |es| && Overdue(ss[i], w, d)
    requires (d == READ ==> t.writesStarved >= 1) && TakenOver(es, ss, i, j, w)
    requires Dispatches(es[i..j]) >= ServiceBound(t, d)
    ensures Carrier(es[i..j], w) in ss[j].out
  {
    hide Inv, Delay, TakenOver;
    Progress(t, start, es, ss, i, j, w, d);
    RunInv(t, start, es, ss, i);
    DelayBound(t, ss[i], d);
    RunInv(t, start, es, ss, j);
    DelayBound(t, ss[j], d);
  }

  lemma StarveStep(t: Tunables, s: State, e: Event, w: Id)
    requires Inv(t, s) && Enabled(s, e) && Overdue(s, w, READ) && s.read.next.None? && t.writesStarved == 0
    requires !(e.Merge? && e.gone == w) && (e.Dispatched? ==> s.write.fifo != [])
    ensures var s' := Apply(t, s, e); Overdue(s', w, READ) && s'.read.next.None?
  {
    hide Inv, InsertSorted, InsertAfter, Latter;
    if !e.Dispatched? {
      EventKeepsOverdue(t, s, e, w, READ);
    }
  }

  /**
   With writes_starved at 0 there is no bound for reads: as long as writes keep coming, an expired read is
   passed over by every dispatch, once no batch of reads is in progress.
   */
  lemma {:induction false} ReadsStarve(t: Tunables, start: int, es: seq<Event>, ss: seq<State>, i: nat, j: nat, w: Id)
    requires IsRun(t, start, es, ss) && i <= j <= |es| && Overdue(ss[i], w, READ) && ss[i].read.next.None?
    requires t.writesStarved == 0 && !Swallows(es[i..j], w)
    requires forall k :: i <= k < j && es[k].Dispatched? ==> ss[k].write.fifo != []
    ensures Overdue(ss[j], w, READ) && ss[j].read.next.None? && w !in ss[j].out
  {
    hide Inv, Apply, Overdue;
    RunInv(t, start, es, ss, j);
    if j > i {
      assert es[i..j][..j - i - 1] == es[i..j - 1] && es[i..j][j - i - 1] == es[j - 1];
      ReadsStarve(t, start, es, ss, i, j - 1, w);
      RunInv(t, start, es, ss, j - 1);
      StarveStep(t, ss[j - 1], es[j - 1], w);
    }
    OverdueIsNotOut(t, ss[j], w);
  }

  /** A run with an expired read at the head, all writes numbered below its length, and a write queued at its end. */
  ghost predicate Starving(t: Tunables, start: int, es: seq<Event>, ss: seq<State>, n: nat) {
    && IsRun(t, start, es, ss) && |es| == 2 + 2 * n
    && Overdue(ss[2], 0, READ) && ss[2].read.next.None? && ss[|es|].write.fifo != []
    && (forall x :: x in ss[|es|].rq ==> x < |es|)
    && Alternating(es, ss)
    && Dispatches(es[2..]) == n
  }

  /** From the third event on, only dispatches, each while a write is queued, and additions. */
  ghost predicate Alternating(es: seq<Event>, ss: seq<State>)
    requires |ss| == |es| + 1
  {
    forall k :: 2 <= k < |es| ==> (es[k].Dispatched? && ss[k].write.fifo != []) || es[k].Added?
  }

  lemma AlternatingSnoc(es: seq<Event>, ss: seq<State>, e: Event, s: State)
    requires |ss| == |es| + 1 && Alternating(es, ss)
    requires (e.Dispatched? && ss[|es|].write.fifo != []) || e.Added?
    ensures Alternating(es + [e], ss + [s])
  {
  }

  lemma WriteAdded(t: Tunables, s: State, id: Id)
    requires Enabled(s, Added(id, WRITE, 0, s.clock))
    ensures var s' := Apply(t, s, Added(id, WRITE, 0, s.clock));
            s'.write.fifo != [] && s'.rq.Keys == s.rq.Keys + {id}
  {
    hide InsertSorted;
  }

  lemma IsRunSnoc(t: Tunables, start: int, es: seq<Event>, ss: seq<State>, e: Event)
    requires IsRun(t, start, es, ss) && Enabled(ss[|es|], e)
    ensures IsRun(t, start, es + [e], ss + [Apply(t, ss[|es|], e)])
  {
    var es', ss' := es + [e], ss + [Apply(t, ss[|es|], e)];
    forall i | 0 <= i < |es'|
      ensures Enabled(ss'[i], es'[i]) && ss'[i + 1] == Apply(t, ss'[i], es'[i])
    {
      if i < |es| {
        assert es'[i] == es[i] && ss'[i] == ss[i] && ss'[i + 1] == ss[i + 1];
      }
    }
  }

  lemma DispatchKnows(t: Tunables, s: State, now: int)
    requires HeadsKnown(s)
    ensures Dispatch(t, s, now).rq == s.rq
  {
    hide Remove, Latter;
  }

  lemma StarvingStart(t: Tunables, start: int) returns (es: seq<Event>, ss: seq<State>)
    ensures Starving(t, start, es, ss, 0)
  {
    var e0, e1 := Added(0, READ, 0, start), Added(1, WRITE, 0, start + t.readExpire);
    var s0 := Init(start);
    var s1 := Apply(t, s0, e0);
    var s2 := Apply(t, s1, e1);
    es, ss := [e0, e1], [s0, s1, s2];
    assert s2.read.fifo == [0] && s2.write.fifo == [1];
    assert IsRun(t, start, es, ss);
    assert es[2..] == [];
  }

  lemma StarvingMore(t: Tunables, start: int, es: seq<Event>, ss: seq<State>, n: nat)
    returns (es': seq<Event>, ss': seq<State>)
    requires Starving(t, start, es, ss, n)
    ensures Starving(t, start, es', ss', n + 1)
  {
    hide Inv, Apply, IsRun, Alternating, Overdue, Dispatches;
    var m := |es|;
    var s1 := StarvingDispatch(t, start, es, ss);
    var e0 := Dispatched(ss[m].clock);
    AlternatingSnoc(es, ss, e0, s1);
    var es1, ss1 := es + [e0], ss + [s1];
    var e1 := Added(m, WRITE, 0, s1.clock);
    NextIsKnown(t, start, es1, ss1);
    assert ss1[|es1|] == s1 && m !in s1.rq;
    WriteAdded(t, s1, m);
    var s2 := Apply(t, s1, e1);
    IsRunSnoc(t, start, es1, ss1, e1);
    AlternatingSnoc(es1, ss1, e1, s2);
    es', ss' := es1 + [e1], ss1 + [s2];
    assert es'[2..] == es[2..] + [e0] + [e1];
    DispatchesSnoc(es[2..], e0);
    DispatchesSnoc(es[2..] + [e0], e1);
  }

  lemma NextIsKnown(t: Tunables, start: int, es: seq<Event>, ss: seq<State>)
    requires IsRun(t, start, es, ss)
    ensures |ss| == |es| + 1
    ensures forall x :: x in ss[|es|].read.sort || x in ss[|es|].write.sort ==> x in ss[|es|].rq
  {
    RunInv(t, start, es, ss, |es|);
    SortedAreKnown(t, ss[|es|]);
  }

  lemma StarvingDispatch(t: Tunables, start: int, es: seq<Event>, ss: seq<State>) returns (s1: State)
    requires IsRun(t, start, es, ss)
    ensures |ss| == |es| + 1 && s1.rq == ss[|es|].rq
    ensures IsRun(t, start, es + [Dispatched(ss[|es|].clock)], ss + [s1])
  {
    hide Inv, Dispatch;
    var s := ss[|es|];
    RunInv(t, start, es, ss, |es|);
    InvIsCore(t, s);
    DispatchKnows(t, s, s.clock);
    IsRunSnoc(t, start, es, ss, Dispatched(s.clock));
    s1 := Apply(t, s, Dispatched(s.clock));
  }

  lemma DispatchesSnoc(es: seq<Event>, e: Event)
    ensures Dispatches(es + [e]) == Dispatches(es) + if e.Dispatched? then 1 else 0
  {
    assert (es + [e])[..|es|] == es;
  }

  /** With writes_starved at 0, for every number of dispatches there is a run in which they all pass an expired read over. */
  lemma {:induction false} StarvingRun(t: Tunables, start: int, n: nat) returns (es: seq<Event>, ss: seq<State>)
    requires t.writesStarved == 0
    ensures IsRun(t, start, es, ss) && |es| >= 2 && Overdue(ss[2], 0, READ)
    ensures Dispatches(es[2..]) == n && 0 !in ss[|es|].out
  {
    es, ss := StarvingRuns(t, start, n);
    forall k | 0 <= k < |es[2..]|
      ensures !es[2..][k].Merge?
    {
      assert es[2..][k] == es[k + 2];
    }
    assert es[2..|es|] == es[2..];
    ReadsStarve(t, start, es, ss, 2, |es|, 0);
  }

  lemma {:induction false} StarvingRuns(t: Tunables, start: int, n: nat) returns (es: seq<Event>, ss: seq<State>)
    ensures Starving(t, start, es, ss, n)
  {
    if n == 0 {
      es, ss := StarvingStart(t, start);
    } else {
      var es0, ss0 := StarvingRuns(t, start, n - 1);
      es, ss := StarvingMore(t, start, es0, ss0, n - 1);
    }
  }

  lemma OverdueIsNotOut(t: Tunables, s: State, w: Id)
    requires Inv(t, s) && Overdue(s, w, READ)
    ensures w !in s.out
  {
    assert w in s.read.fifo;
  }

  // ---- elv_drain_elevator ----

  function Waiting(s: State): multiset<Id> {
    multiset(s.read.fifo) + multiset(s.write.fifo)
  }

  lemma MoveOne(t: Tunables, s: State, d: Dir, id: Id)
    requires id in s.Of(d).fifo
    ensures multiset(Move(s, d, id).out) == multiset(s.out) + multiset{id}
    ensures Waiting(s) == Waiting(Move(s, d, id)) + multiset{id}
  {
    hide Move;
    MoveEffect(s, d, id, READ);
    MoveEffect(s, d, id, WRITE);
    WithoutMultiset(s.Of(d).fifo, id);
  }

  /** Which request a dispatch moves, and the state in which it does. */
  lemma Chosen(t: Tunables, s: State, now: int) returns (s1: State, d: Dir, id: Id)
    requires Inv(t, s) && HeadsKnown(s) && Waiting(s) != multiset{}
    ensures s1 == s.(clock := now, starved := s1.starved, batching := s1.batching)
    ensures id in s.Of(d).fifo && Dispatch(t, s, now) == Move(s1, d, id)
  {
    hide Inv, Move;
    var b := Batch(s);
    if b.Some? && s.batching < t.fifoBatch {
      BatchQueued(t, s);
      d, id, s1 := b.value.0, b.value.1, s.(clock := now, batching := s.batching + 1);
    } else {
      var toWrite := s.read.fifo == [] || (s.write.fifo != [] && s.starved >= t.writesStarved);
      var n := if toWrite then 0 else if s.write.fifo != [] then s.starved + 1 else s.starved;
      d := if toWrite then WRITE else READ;
      id := if now >= s.rq[s.Of(d).fifo[0]].time || s.Of(d).next.None? then s.Of(d).fifo[0] else s.Of(d).next.value;
      NextQueued(t, s, d);
      s1 := s.(clock := now, starved := n, batching := 1);
    }
  }

  lemma NextQueued(t: Tunables, s: State, d: Dir)
    requires Inv(t, s)
    ensures s.Of(d).next.Some? ==> s.Of(d).next.value in s.Of(d).fifo
  {
  }

  /** Readings of jiffies, one per dispatch. */
  ghost predicate Monotone(now: nat -> int) {
    forall i: nat :: now(i) <= now(i + 1)
  }

  lemma DispatchShrinks(t: Tunables, s: State, now: int)
    requires Inv(t, s) && now >= s.clock && Waiting(s) != multiset{}
    ensures HeadsKnown(s) && Inv(t, Dispatch(t, s, now)) && |Waiting(Dispatch(t, s, now))| < |Waiting(s)|
    ensures Dispatch(t, s, now).clock == now
    ensures multiset(Dispatch(t, s, now).out) + Waiting(Dispatch(t, s, now)) == multiset(s.out) + Waiting(s)
  {
    hide Inv, Move, Dispatch;
    DispatchKeeps(t, s, now);
    var s1, d, id := Chosen(t, s, now);
    MoveOne(t, s1, d, id);
    MoveEffect(s1, d, id, d);
    assert Waiting(s1) == Waiting(s);
  }

  /** elv_drain_elevator: dispatch until nothing is queued. */
  ghost function Drain(t: Tunables, s: State, now: nat -> int, k: nat): State
    requires Inv(t, s) && Monotone(now) && now(k) >= s.clock
    decreases |Waiting(s)|
  {
    if Waiting(s) == multiset{} then s
    else
      DispatchShrinks(t, s, now(k));
      Drain(t, Dispatch(t, s, now(k)), now, k + 1)
  }

  /** Draining ends with both directions empty, having dispatched each queued request exactly once. */
  lemma {:induction false} DrainDispatchesAll(t: Tunables, s: State, now: nat -> int, k: nat)
    requires Inv(t, s) && Monotone(now) && now(k) >= s.clock
    ensures var s' := Drain(t, s, now, k);
            && Inv(t, s') && s'.read.fifo == [] && s'.write.fifo == []
            && multiset(s'.out) == multiset(s.out) + multiset(s.read.fifo) + multiset(s.write.fifo)
    decreases |Waiting(s)|
  {
    hide Inv, Dispatch;
    if Waiting(s) != multiset{} {
      DispatchShrinks(t, s, now(k));
      DrainDispatchesAll(t, Dispatch(t, s, now(k)), now, k + 1);
      var s1 := Dispatch(t, s, now(k));
      assert multiset(s1.out) + Waiting(s1) == multiset(s1.out) + multiset(s1.read.fifo) + multiset(s1.write.fifo);
      assert multiset(s.out) + Waiting(s) == multiset(s.out) + multiset(s.read.fifo) + multiset(s.write.fifo);
    } else {
      assert |Waiting(s)| == |s.read.fifo| + |s.write.fifo|;
    }
  }

  lemma IdleDispatch(t: Tunables, s: State, now: int)
    requires Inv(t, s) && HeadsKnown(s) && s.read.fifo == [] && s.write.fifo == []
    ensures Dispatch(t, s, now) == s.(clock := now) && Waiting(s) == multiset{}
  {
  }

  lemma SortedAreKnown(t: Tunables, s: State)
    requires Inv(t, s)
    ensures forall x :: x in s.read.sort || x in s.write.sort ==> x in s.rq
  {
  }

  lemma QueuedIsKnown(t: Tunables, s: State, id: Id)
    requires Inv(t, s) && s.Queued(id)
    ensures id in s.rq && forall x :: x in s.Of(s.rq[id].dir).sort ==> x in s.rq
  {
  }

  // ---- the scheduler object ----

  /** `deadline_data`, with the dispatch queue it feeds. */
  class DeadlineData {
    const t: Tunables
    var read: Lane
    var write: Lane
    var rq: map<Id, Rq>
    var batching: nat
    var starved: nat
    var out: seq<Id>
    var clock: int

    ghost function View(): State
      reads this
    {
      State(read, write, rq, batching, starved, out, clock)
    }

    ghost predicate Valid()
      reads this
    {
      Inv(t, View())
    }

    constructor (t: Tunables, now: int)
      ensures Valid() && View() == Init(now) && this.t == t
    {
      this.t := t;
      read, write := Lane([], [], None), Lane([], [], None);
      rq, batching, starved, out, clock := map[], 0, 0, [], now;
    }

    /** deadline_add_request. */
    method AddRequest(id: Id, d: Dir, pos: nat, now: int)
      requires Valid() && id !in rq && now >= clock
      modifies this
      ensures Valid() && View() == Add(t, old(View()), id, d, pos, now)
    {
      hide Inv, InsertSorted;
      AddKeeps(t, View(), id, d, pos, now);
      SortedAreKnown(t, View());
      rq := rq[id := Rq(d, pos, now + t.Expire(d))];
      clock := now;
      if d == READ {
        read := Lane(InsertSorted(read.sort, rq, id), read.fifo + [id], read.next);
      } else {
        write := Lane(InsertSorted(write.sort, rq, id), write.fifo + [id], write.next);
      }
    }

    /** deadline_move_request. */
    method MoveRequest(d: Dir, id: Id)
      modifies `read, `write, `out
      ensures View() == Move(old(View()), d, id)
    {
      var next := Latter((if d == READ then read else write).sort, id);
      read, write := read.(next := None), write.(next := None);
      if d == READ {
        read := Remove(read.(next := next), id);
      } else {
        write := Remove(write.(next := next), id);
      }
      out := out + [id];
    }

    /** deadline_dispatch_requests: 0 exactly if nothing is queued. */
    method DispatchRequests(now: int) returns (n: nat)
      requires Valid() && now >= clock
      modifies this
      ensures Valid() && HeadsKnown(old(View())) && View() == Dispatch(t, old(View()), now)
      ensures n == if old(read.fifo) == [] && old(write.fifo) == [] then 0 else 1
    {
      hide Inv, Move, Remove;
      ghost var s := View();
      DispatchKeeps(t, s, now);
      clock := now;
      var anyRead, anyWrite := read.fifo != [], write.fifo != [];
      var d, id;
      if write.next.Some? && batching < t.fifoBatch {
        BatchQueued(t, s);
        d, id := WRITE, write.next.value;
      } else if write.next.None? && read.next.Some? && batching < t.fifoBatch {
        BatchQueued(t, s);
        d, id := READ, read.next.value;
      } else {
        if anyRead && !(anyWrite && starved >= t.writesStarved) {
          if anyWrite {
            starved := starved + 1;
          }
          d := READ;
        } else if anyWrite {
          starved := 0;
          d := WRITE;
        } else {
          return 0;
        }
        var l := if d == READ then read else write;
        if now >= rq[l.fifo[0]].time || l.next.None? {
          id := l.fifo[0];
        } else {
          id := l.next.value;
        }
        batching := 0;
      }
      batching := batching + 1;
      MoveRequest(d, id);
      n := 1;
    }

    /** deadline_merged_request after a front merge. */
    method MergedRequest(id: Id, pos: nat)
      requires Valid() && View().Queued(id)
      modifies this
      ensures Valid() && id in old(rq) && View() == Deadline.FrontMerged(old(View()), id, pos)
    {
      hide Inv, InsertSorted;
      ghost var s := View();
      QueuedIsKnown(t, s, id);
      FrontMergedKeeps(t, s, id, pos);
      rq := rq[id := rq[id].(pos := pos)];
      if rq[id].dir == READ {
        WithoutMember(read.sort, id);
        read := read.(sort := InsertSorted(Without(read.sort, id), rq, id));
      } else {
        WithoutMember(write.sort, id);
        write := write.(sort := InsertSorted(Without(write.sort, id), rq, id));
      }
    }

    /** deadline_merged_requests. */
    method SwallowRequest(id: Id, gone: Id)
      requires Valid() && View().Queued(id) && View().Queued(gone) && id != gone
      requires id in rq && gone in rq && rq[id].dir == rq[gone].dir
      modifies this
      ensures Valid() && View() == MergedRequests(old(View()), id, gone)
    {
      hide Inv, Remove, InsertAfter;
      MergedKeeps(t, View(), id, gone);
      var d := rq[id].dir;
      var l := if d == READ then read else write;
      if rq[gone].time < rq[id].time {
        l := l.(fifo := InsertAfter(Without(l.fifo, id), gone, id));
        rq := rq[id := rq[id].(time := rq[gone].time)];
      }
      l := Remove(l, gone);
      if d == READ {
        read := l;
      } else {
        write := l;
      }
    }

    /** elv_drain_elevator. */
    method DrainElevator(now: nat -> int)
      requires Valid() && Monotone(now) && now(0) >= clock
      modifies this
      ensures Valid() && read.fifo == [] && write.fifo == []
      ensures out == Drain(t, old(View()), now, 0).out
    {
      hide Inv, Dispatch;
      ghost var s := View();
      var k: nat := 0;
      var more := 1;
      while more != 0
        invariant Valid() && now(k) >= clock && more >= 0
        invariant Drain(t, View(), now, k).out == Drain(t, s, now, 0).out
        invariant more == 0 ==> read.fifo == [] && write.fifo == []
        decreases more, |Waiting(View())|
      {
        ghost var before := View();
        more := DispatchRequests(now(k));
        if more != 0 {
          assert |Waiting(before)| == |before.read.fifo| + |before.write.fifo|;
          DispatchShrinks(t, before, now(k));
          k := k + 1;
        } else {
          IdleDispatch(t, before, now(k));
        }
      }
    }
  }
}
