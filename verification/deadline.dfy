/**
 The deadline I/O scheduler: every queued request is in a sector-sorted list and in a fifo of its
 direction, requests are dispatched in batches, and reads may starve writes only so often.
 */
module Deadline {
  import opened Lists
  import opened Options

  type Id = nat

  datatype Dir = READ | WRITE

  /** What the scheduler knows of a request: direction, start sector and expiry time. */
  datatype Rq = Rq(dir: Dir, pos: nat, time: int)

  /** The three entry points to the requests of one direction: sort_list, fifo_list and next_rq. */
  datatype Lane = Lane(sort: seq<Id>, fifo: seq<Id>, next: Option<Id>)

  datatype Tunables = Tunables(readExpire: nat, writeExpire: nat, fifoBatch: nat, writesStarved: nat)
  {
    function Expire(d: Dir): nat { if d == READ then readExpire else writeExpire }
  }

  /** `out` is the dispatch queue and `clock` the latest jiffies seen. */
  datatype State = State(read: Lane, write: Lane, rq: map<Id, Rq>, batching: nat, starved: nat, out: seq<Id>, clock: int)
  {
    function Of(d: Dir): Lane { if d == READ then read else write }
    function With(d: Dir, l: Lane): State { if d == READ then this.(read := l) else this.(write := l) }
    predicate Queued(id: Id) { id in read.fifo || id in write.fifo }
  }

  function Init(now: int): State {
    State(Lane([], [], None), Lane([], [], None), map[], 0, 0, [], now)
  }

  // ---- the sorted list ----

  /** elv_rb_add: behind every request that does not start later. */
  function InsertSorted(sort: seq<Id>, rq: map<Id, Rq>, id: Id): seq<Id>
    requires id in rq && forall x :: x in sort ==> x in rq
  {
    if sort == [] || rq[id].pos < rq[sort[0]].pos then [id] + sort
    else [sort[0]] + InsertSorted(sort[1..], rq, id)
  }

  /** deadline_latter_request. */
  function Latter(sort: seq<Id>, id: Id): Option<Id> {
    if |sort| < 2 then None
    else if sort[0] == id then Some(sort[1])
    else Latter(sort[1..], id)
  }

  /** deadline_remove_request. */
  function Remove(l: Lane, id: Id): Lane {
    Lane(Without(l.sort, id), Without(l.fifo, id), if l.next == Some(id) then Latter(l.sort, id) else l.next)
  }

  // ---- the operations ----

  /** deadline_add_request. */
  function Add(t: Tunables, s: State, id: Id, d: Dir, pos: nat, now: int): State
    requires forall x :: x in s.Of(d).sort ==> x in s.rq
  {
    var rq := s.rq[id := Rq(d, pos, now + t.Expire(d))];
    var l := s.Of(d);
    s.(rq := rq, clock := now).With(d, Lane(InsertSorted(l.sort, rq, id), l.fifo + [id], l.next))
  }

  /** deadline_move_request: the batch goes on with the next request in sector order. */
  function Move(s: State, d: Dir, id: Id): State {
    var l := s.Of(d);
    var cleared := s.(read := s.read.(next := None), write := s.write.(next := None));
    cleared.With(d, Remove(Lane(l.sort, l.fifo, Latter(l.sort, id)), id)).(out := s.out + [id])
  }

  /** The request that continues the current batch. */
  function Batch(s: State): Option<(Dir, Id)> {
    if s.write.next.Some? then Some((WRITE, s.write.next.value))
    else if s.read.next.Some? then Some((READ, s.read.next.value))
    else None
  }

  /** Start a batch in direction `d`. */
  function Start(s: State, d: Dir, now: int): State
    requires s.Of(d).fifo != [] && s.Of(d).fifo[0] in s.rq
  {
    var l := s.Of(d);
    var id := if now >= s.rq[l.fifo[0]].time || l.next.None? then l.fifo[0] else l.next.value;
    Move(s.(batching := 1), d, id)
  }

  predicate HeadsKnown(s: State) {
    (s.read.fifo != [] ==> s.read.fifo[0] in s.rq) && (s.write.fifo != [] ==> s.write.fifo[0] in s.rq)
  }

  /** deadline_dispatch_requests; without a queued request nothing happens. */
  function Dispatch(t: Tunables, s0: State, now: int): State
    requires HeadsKnown(s0)
  {
    var s := s0.(clock := now);
    var b := Batch(s);
    if b.Some? && s.batching < t.fifoBatch then Move(s.(batching := s.batching + 1), b.value.0, b.value.1)
    else if s.read.fifo != [] then
      if s.write.fifo != [] && s.starved >= t.writesStarved then Start(s.(starved := 0), WRITE, now)
      else Start(s.(starved := if s.write.fifo != [] then s.starved + 1 else s.starved), READ, now)
    else if s.write.fifo != [] then Start(s.(starved := 0), WRITE, now)
    else s
  }

  /** deadline_merged_request after a front merge: `id` now starts at `pos`. */
  function FrontMerged(s: State, id: Id, pos: nat): State
    requires id in s.rq && forall x :: x in s.Of(s.rq[id].dir).sort ==> x in s.rq
  {
    var rq := s.rq[id := s.rq[id].(pos := pos)];
    var l := s.Of(s.rq[id].dir);
    WithoutMember(l.sort, id);
    s.(rq := rq).With(s.rq[id].dir, l.(sort := InsertSorted(Without(l.sort, id), rq, id)))
  }

  /** list_move: `id` right behind `at`. */
  function InsertAfter(s: seq<Id>, at: Id, id: Id): seq<Id> {
    if s == [] then [] else if s[0] == at then [at, id] + s[1..] else [s[0]] + InsertAfter(s[1..], at, id)
  }

  /** deadline_merged_requests: `id` swallows `gone`, and its place in the fifo if that expires earlier. */
  function MergedRequests(s: State, id: Id, gone: Id): State
    requires id in s.rq && gone in s.rq
  {
    var d := s.rq[id].dir;
    var l := s.Of(d);
    if s.rq[gone].time < s.rq[id].time then
      s.(rq := s.rq[id := s.rq[id].(time := s.rq[gone].time)])
       .With(d, Remove(l.(fifo := InsertAfter(Without(l.fifo, id), gone, id)), gone))
    else s.With(d, Remove(l, gone))
  }

  // ---- the invariant ----

  predicate Sorted(sort: seq<Id>, rq: map<Id, Rq>)
    requires forall x :: x in sort ==> x in rq
  {
    forall i, j :: 0 <= i < j < |sort| ==> rq[sort[i]].pos <= rq[sort[j]].pos
  }

  predicate Ordered(fifo: seq<Id>, rq: map<Id, Rq>)
    requires forall x :: x in fifo ==> x in rq
  {
    forall i, j :: 0 <= i < j < |fifo| ==> rq[fifo[i]].time <= rq[fifo[j]].time
  }

  /** Both lists of a direction hold the same requests, in their orders, and next_rq is one of them. */
  ghost predicate LaneGood(l: Lane, rq: map<Id, Rq>, d: Dir, latest: int) {
    && NoDup(l.sort) && NoDup(l.fifo)
    && (forall x :: x in l.sort <==> x in l.fifo)
    && (forall x :: x in l.fifo ==> x in rq && rq[x].dir == d && rq[x].time <= latest)
    && (forall x :: x in l.sort ==> x in rq)
    && Sorted(l.sort, rq) && Ordered(l.fifo, rq)
    && (l.next.Some? ==> l.next.value in l.sort)
  }

  ghost predicate LaneOk(t: Tunables, s: State, d: Dir) {
    LaneGood(s.Of(d), s.rq, d, s.clock + t.Expire(d))
  }

  ghost predicate Inv(t: Tunables, s: State) {
    && LaneOk(t, s, READ) && LaneOk(t, s, WRITE)
    && (s.read.next.None? || s.write.next.None?)
    && (Batch(s).Some? ==> 1 <= s.batching)
    && s.batching <= (if t.fifoBatch == 0 then 1 else t.fifoBatch)
    && s.starved <= t.writesStarved
    && NoDup(s.out) && (forall x :: x in s.out ==> x in s.rq && !s.Queued(x))
  }

  // ---- lists keep their orders ----

  lemma {:induction false} InsertSortedMembers(sort: seq<Id>, rq: map<Id, Rq>, id: Id)
    requires id in rq && (forall x :: x in sort ==> x in rq) && id !in sort && NoDup(sort)
    ensures var r := InsertSorted(sort, rq, id);
            NoDup(r) && (forall x :: x in r <==> x in sort || x == id)
  {
    if sort != [] && rq[id].pos >= rq[sort[0]].pos {
      InsertSortedMembers(sort[1..], rq, id);
      assert sort[0] !in InsertSorted(sort[1..], rq, id);
    }
  }

  lemma SortedHead(sort: seq<Id>, rq: map<Id, Rq>, x: Id)
    requires (forall y :: y in sort ==> y in rq) && Sorted(sort, rq) && x in sort
    ensures rq[sort[0]].pos <= rq[x].pos
  {
    var k :| 0 <= k < |sort| && sort[k] == x;
  }

  lemma {:induction false} InsertSortedOk(sort: seq<Id>, rq: map<Id, Rq>, id: Id)
    requires id in rq && (forall x :: x in sort ==> x in rq) && id !in sort && NoDup(sort) && Sorted(sort, rq)
    ensures var r := InsertSorted(sort, rq, id);
            && NoDup(r) && (forall x :: x in r <==> x in sort || x == id)
            && (forall x :: x in r ==> x in rq) && Sorted(r, rq)
  {
    hide NoDup;
    InsertSortedMembers(sort, rq, id);
    if sort != [] && rq[id].pos >= rq[sort[0]].pos {
      assert NoDup(sort[1..]) by {
        TailNoDup(sort);
      }
      InsertSortedOk(sort[1..], rq, id);
      forall x | x in InsertSorted(sort[1..], rq, id)
        ensures rq[sort[0]].pos <= rq[x].pos
      {
        if x != id {
          SortedHead(sort, rq, x);
        }
      }
    }
  }

  lemma TailNoDup(sort: seq<Id>)
    requires NoDup(sort) && sort != []
    ensures NoDup(sort[1..])
  {
  }

  lemma {:induction false} LatterIn(sort: seq<Id>, id: Id)
    requires NoDup(sort)
    ensures Latter(sort, id).Some? ==> Latter(sort, id).value in sort && Latter(sort, id).value != id
  {
    if |sort| >= 2 && sort[0] != id {
      LatterIn(sort[1..], id);
    }
  }

  lemma {:induction false} WithoutSorted(sort: seq<Id>, rq: map<Id, Rq>, id: Id)
    requires (forall x :: x in sort ==> x in rq) && Sorted(sort, rq)
    ensures (forall x :: x in Without(sort, id) ==> x in rq) && Sorted(Without(sort, id), rq)
  {
    WithoutMember(sort, id);
    if sort != [] && sort[0] != id {
      WithoutSorted(sort[1..], rq, id);
      WithoutMember(sort[1..], id);
      forall x | x in Without(sort[1..], id) ensures rq[sort[0]].pos <= rq[x].pos {
        var k :| 0 <= k < |sort[1..]| && sort[1..][k] == x;
        assert sort[k + 1] == x;
      }
    }
  }

  lemma {:induction false} WithoutOrdered(fifo: seq<Id>, rq: map<Id, Rq>, id: Id)
    requires (forall x :: x in fifo ==> x in rq) && Ordered(fifo, rq)
    ensures (forall x :: x in Without(fifo, id) ==> x in rq) && Ordered(Without(fifo, id), rq)
  {
    WithoutMember(fifo, id);
    if fifo != [] && fifo[0] != id {
      WithoutOrdered(fifo[1..], rq, id);
      WithoutMember(fifo[1..], id);
      forall x | x in Without(fifo[1..], id) ensures rq[fifo[0]].time <= rq[x].time {
        var k :| 0 <= k < |fifo[1..]| && fifo[1..][k] == x;
        assert fifo[k + 1] == x;
      }
    }
  }

  // ---- lanes ----

  /** A lane is not affected by what happens to other requests. */
  lemma LaneFrame(t: Tunables, s: State, s': State, d: Dir)
    requires LaneOk(t, s, d) && s'.Of(d) == s.Of(d) && s'.clock >= s.clock
    requires forall x :: x in s.Of(d).fifo && x in s.rq ==> x in s'.rq && s'.rq[x] == s.rq[x]
    ensures LaneOk(t, s', d)
  {
  }

  lemma RemoveOk(t: Tunables, s: State, d: Dir, id: Id)
    requires LaneOk(t, s, d)
    ensures LaneOk(t, s.With(d, Remove(s.Of(d), id)), d)
    ensures id !in Remove(s.Of(d), id).fifo
    ensures forall x :: x in Remove(s.Of(d), id).fifo <==> x in s.Of(d).fifo && x != id
  {
    var l := s.Of(d);
    WithoutNoDup(l.sort, id);
    WithoutNoDup(l.fifo, id);
    WithoutMember(l.sort, id);
    WithoutMember(l.fifo, id);
    WithoutSorted(l.sort, s.rq, id);
    WithoutOrdered(l.fifo, s.rq, id);
    LatterIn(l.sort, id);
  }

  lemma AddOk(t: Tunables, s: State, id: Id, d: Dir, pos: nat, now: int)
    requires LaneOk(t, s, d) && id !in s.rq && now >= s.clock
    ensures LaneOk(t, Add(t, s, id, d, pos, now), d)
  {
    var l, rq := s.Of(d), s.rq[id := Rq(d, pos, now + t.Expire(d))];
    assert Sorted(l.sort, rq) && Ordered(l.fifo, rq);
    InsertSortedOk(l.sort, rq, id);
    AppendNoDup(l.fifo, id);
  }

  function Other(d: Dir): Dir { if d == READ then WRITE else READ }

  /** The part of the invariant that holds even while a dispatch is choosing. */
  ghost predicate Core(t: Tunables, s: State) {
    && LaneOk(t, s, READ) && LaneOk(t, s, WRITE)
    && s.batching <= (if t.fifoBatch == 0 then 1 else t.fifoBatch)
    && s.starved <= t.writesStarved
    && NoDup(s.out) && (forall x :: x in s.out ==> x in s.rq && !s.Queued(x))
  }

  lemma MoveLanes(t: Tunables, s: State, d: Dir, id: Id)
    requires LaneOk(t, s, READ) && LaneOk(t, s, WRITE) && id in s.Of(d).fifo
    ensures LaneOk(t, Move(s, d, id), READ) && LaneOk(t, Move(s, d, id), WRITE)
    ensures forall x :: Move(s, d, id).Queued(x) <==> s.Queued(x) && x != id
  {
    var l, o, s' := s.Of(d), Other(d), Move(s, d, id);
    var s1 := s.With(o, s.Of(o).(next := None)).With(d, Lane(l.sort, l.fifo, Latter(l.sort, id)));
    LatterIn(l.sort, id);
    assert LaneOk(t, s1, d) && LaneOk(t, s1, o);
    RemoveOk(t, s1, d, id);
    var s2 := s1.With(d, Remove(s1.Of(d), id));
    assert s' == s2.(out := s'.out);
    assert id !in s.Of(o).fifo by {
      assert s.rq[id].dir == d;
    }
    LaneFrame(t, s2, s', d);
    LaneFrame(t, s1, s', o);
  }

  lemma MoveKeeps(t: Tunables, s: State, d: Dir, id: Id)
    requires Core(t, s) && id in s.Of(d).fifo && s.batching >= 1
    ensures Inv(t, Move(s, d, id))
  {
    MoveLanes(t, s, d, id);
    assert id in s.rq;
    hide LaneOk, Remove, Latter;
    AppendNoDup(s.out, id);
  }

  lemma StartKeeps(t: Tunables, s: State, d: Dir, now: int)
    requires Core(t, s) && s.Of(d).fifo != []
    ensures s.Of(d).fifo[0] in s.rq && Inv(t, Start(s, d, now))
  {
    var l := s.Of(d);
    var id := if now >= s.rq[l.fifo[0]].time || l.next.None? then l.fifo[0] else l.next.value;
    var s1 := s.(batching := 1);
    LaneFrame(t, s, s1, READ);
    LaneFrame(t, s, s1, WRITE);
    MoveKeeps(t, s1, d, id);
  }

  lemma CoreFrame(t: Tunables, s: State, batching: nat, starved: nat, clock: int)
    requires Core(t, s) && clock >= s.clock && starved <= t.writesStarved
    requires batching <= (if t.fifoBatch == 0 then 1 else t.fifoBatch)
    ensures Core(t, s.(batching := batching, starved := starved, clock := clock))
  {
    var s' := s.(batching := batching, starved := starved, clock := clock);
    LaneFrame(t, s, s', READ);
    LaneFrame(t, s, s', WRITE);
  }

  lemma InvIsCore(t: Tunables, s: State)
    requires Inv(t, s)
    ensures Core(t, s) && HeadsKnown(s)
  {
  }

  lemma BatchQueued(t: Tunables, s: State)
    requires Inv(t, s) && Batch(s).Some?
    ensures Batch(s).value.1 in s.Of(Batch(s).value.0).fifo
  {
  }

  lemma DispatchKeeps(t: Tunables, s: State, now: int)
    requires Inv(t, s) && now >= s.clock
    ensures HeadsKnown(s) && Inv(t, Dispatch(t, s, now))
  {
    hide Inv, Core, Move, Start;
    InvIsCore(t, s);
    CoreBatching(t, s);
    var s1 := s.(clock := now);
    var b := Batch(s1);
    if b.Some? { BatchQueued(t, s); }
    if b.Some? && s.batching < t.fifoBatch {
      CoreFrame(t, s, s.batching + 1, s.starved, now);
      MoveKeeps(t, s1.(batching := s.batching + 1), b.value.0, b.value.1);
    } else if s.read.fifo == [] && s.write.fifo == [] {
      IdleKeeps(t, s, now);
    } else {
      DispatchStarts(t, s, now);
    }
  }

  lemma IdleKeeps(t: Tunables, s: State, now: int)
    requires Inv(t, s) && now >= s.clock
    ensures Inv(t, s.(clock := now))
  {
    LaneFrame(t, s, s.(clock := now), READ);
    LaneFrame(t, s, s.(clock := now), WRITE);
  }

  /** The choice of a direction for a new batch. */
  lemma DispatchStarts(t: Tunables, s: State, now: int)
    requires Core(t, s) && HeadsKnown(s) && now >= s.clock && (s.read.fifo != [] || s.write.fifo != [])
    requires Batch(s).None? || s.batching >= t.fifoBatch
    ensures Inv(t, Dispatch(t, s, now))
  {
    hide Core, Inv, Start, Move;
    var s1 := s.(clock := now);
    var n := if s.write.fifo != [] then s.starved + 1 else s.starved;
    CoreBatching(t, s);
    if s.read.fifo != [] && !(s.write.fifo != [] && s.starved >= t.writesStarved) {
      CoreFrame(t, s, s.batching, n, now);
      StartKeeps(t, s1.(starved := n), READ, now);
    } else {
      CoreFrame(t, s, s.batching, 0, now);
      StartKeeps(t, s1.(starved := 0), WRITE, now);
    }
  }

  lemma CoreBatching(t: Tunables, s: State)
    requires Core(t, s)
    ensures s.batching <= (if t.fifoBatch == 0 then 1 else t.fifoBatch) && s.starved <= t.writesStarved
  {
  }

  lemma AddKeeps(t: Tunables, s: State, id: Id, d: Dir, pos: nat, now: int)
    requires Inv(t, s) && id !in s.rq && now >= s.clock
    ensures Inv(t, Add(t, s, id, d, pos, now))
  {
    AddOk(t, s, id, d, pos, now);
    LaneFrame(t, s, Add(t, s, id, d, pos, now), Other(d));
  }

  lemma FrontMergedLane(t: Tunables, s: State, id: Id, pos: nat)
    requires id in s.rq && LaneOk(t, s, s.rq[id].dir) && id in s.Of(s.rq[id].dir).fifo
    ensures LaneOk(t, FrontMerged(s, id, pos), s.rq[id].dir)
  {
    var d := s.rq[id].dir;
    var l, rq := s.Of(d), s.rq[id := s.rq[id].(pos := pos)];
    var rest := Without(l.sort, id);
    WithoutNoDup(l.sort, id);
    WithoutMember(l.sort, id);
    WithoutSorted(l.sort, s.rq, id);
    assert Sorted(rest, rq);
    InsertSortedOk(rest, rq, id);
    assert Ordered(l.fifo, rq);
  }

  lemma FrontMergedKeeps(t: Tunables, s: State, id: Id, pos: nat)
    requires Inv(t, s) && s.Queued(id)
    ensures id in s.rq && Inv(t, FrontMerged(s, id, pos))
  {
    var d := s.rq[id].dir;
    FrontMergedLane(t, s, id, pos);
    LaneFrame(t, s, FrontMerged(s, id, pos), Other(d));
    hide LaneOk, InsertSorted, Without;
  }

  /** `b` in the place of `a`. */
  function Replace(s: seq<Id>, a: Id, b: Id): seq<Id> {
    seq(|s|, i requires 0 <= i < |s| => if s[i] == a then b else s[i])
  }

  /** Moving `id` behind `gone` and unlinking `gone` puts `id` in its place. */
  lemma {:induction false} TakesPlace(fifo: seq<Id>, gone: Id, id: Id)
    requires NoDup(fifo) && gone in fifo && id !in fifo
    ensures Without(InsertAfter(fifo, gone, id), gone) == Replace(fifo, gone, id)
  {
    if fifo[0] == gone {
      assert InsertAfter(fifo, gone, id) == [gone] + ([id] + fifo[1..]);
      assert Replace(fifo, gone, id) == [id] + fifo[1..];
    } else {
      TakesPlace(fifo[1..], gone, id);
      assert Replace(fifo, gone, id) == [fifo[0]] + Replace(fifo[1..], gone, id);
    }
  }

  lemma ReplaceOk(fifo: seq<Id>, rq: map<Id, Rq>, gone: Id, id: Id)
    requires NoDup(fifo) && (forall x :: x in fifo ==> x in rq) && gone in fifo && id !in fifo && id in rq && Ordered(fifo, rq)
    ensures var r, rq' := Replace(fifo, gone, id), rq[id := rq[id].(time := rq[gone].time)];
            && NoDup(r) && (forall x :: x in r ==> x in rq') && Ordered(r, rq')
            && (forall x :: x in r <==> x == id || (x in fifo && x != gone))
  {
    var r, rq' := Replace(fifo, gone, id), rq[id := rq[id].(time := rq[gone].time)];
    forall i | 0 <= i < |r| ensures r[i] in rq' && rq'[r[i]].time == rq[fifo[i]].time {}
    forall x | x in fifo && x != gone ensures x in r {
      var k :| 0 <= k < |fifo| && fifo[k] == x;
      assert r[k] == x;
    }
    var k :| 0 <= k < |fifo| && fifo[k] == gone;
    assert r[k] == id;
  }

  /** The fifo after `id` took the place of `gone`. */
  lemma MergedFifo(fifo: seq<Id>, rq: map<Id, Rq>, id: Id, gone: Id)
    requires NoDup(fifo) && (forall x :: x in fifo ==> x in rq) && Ordered(fifo, rq)
    requires id in fifo && gone in fifo && id != gone
    ensures var f, rq' := Without(InsertAfter(Without(fifo, id), gone, id), gone), rq[id := rq[id].(time := rq[gone].time)];
            && NoDup(f) && (forall x :: x in f ==> x in rq') && Ordered(f, rq')
            && (forall x :: x in f <==> x in fifo && x != gone)
  {
    hide InsertAfter, Replace, Ordered, Without;
    var rest := Without(fifo, id);
    WithoutNoDup(fifo, id);
    WithoutMember(fifo, id);
    WithoutOrdered(fifo, rq, id);
    TakesPlace(rest, gone, id);
    ReplaceOk(rest, rq, gone, id);
  }

  /** The sorted list after `gone` left it; expiry times do not matter there. */
  lemma MergedSort(sort: seq<Id>, rq: map<Id, Rq>, id: Id, gone: Id, time: int)
    requires NoDup(sort) && (forall x :: x in sort ==> x in rq) && Sorted(sort, rq) && id in rq
    ensures var r, rq' := Without(sort, gone), rq[id := rq[id].(time := time)];
            && NoDup(r) && (forall x :: x in r ==> x in rq') && Sorted(r, rq')
            && (forall x :: x in r <==> x in sort && x != gone)
  {
    WithoutNoDup(sort, gone);
    WithoutMember(sort, gone);
    WithoutSorted(sort, rq, gone);
  }

  lemma MergedLane(l: Lane, rq: map<Id, Rq>, d: Dir, latest: int, id: Id, gone: Id)
    requires LaneGood(l, rq, d, latest) && id in l.fifo && gone in l.fifo && id != gone
    ensures var rq' := rq[id := rq[id].(time := rq[gone].time)];
            LaneGood(Remove(l.(fifo := InsertAfter(Without(l.fifo, id), gone, id)), gone), rq', d, latest)
  {
    hide Without, InsertAfter, Latter, Sorted, Ordered;
    MergedFifo(l.fifo, rq, id, gone);
    MergedSort(l.sort, rq, id, gone, rq[gone].time);
    LatterIn(l.sort, gone);
  }

  lemma QueuedKnown(t: Tunables, s: State, id: Id)
    requires LaneOk(t, s, READ) && LaneOk(t, s, WRITE) && s.Queued(id)
    ensures id in s.rq && id in s.Of(s.rq[id].dir).fifo && id !in s.Of(Other(s.rq[id].dir)).fifo
  {
  }

  lemma MergedMembers(t: Tunables, s: State, d: Dir, id: Id, gone: Id)
    requires id in s.rq && gone in s.rq && s.rq[id].dir == d && LaneOk(t, s, d)
    requires id in s.Of(d).fifo && gone in s.Of(d).fifo && id != gone
    ensures forall x :: x in MergedRequests(s, id, gone).Of(d).fifo <==> x in s.Of(d).fifo && x != gone
    ensures MergedRequests(s, id, gone).Of(Other(d)) == s.Of(Other(d))
  {
    hide Ordered, Sorted, InsertAfter, Without, Latter;
    MergedFifo(s.Of(d).fifo, s.rq, id, gone);
    WithoutMember(s.Of(d).fifo, gone);
    WithoutNoDup(s.Of(d).fifo, gone);
  }

  lemma MergedKeeps(t: Tunables, s: State, id: Id, gone: Id)
    requires Inv(t, s) && s.Queued(id) && s.Queued(gone) && id != gone && id in s.rq && gone in s.rq
    requires s.rq[id].dir == s.rq[gone].dir
    ensures Inv(t, MergedRequests(s, id, gone))
    ensures forall x :: MergedRequests(s, id, gone).Queued(x) <==> s.Queued(x) && x != gone
  {
    hide LaneGood, Remove, InsertAfter;
    var d, s' := s.rq[id].dir, MergedRequests(s, id, gone);
    QueuedKnown(t, s, id);
    QueuedKnown(t, s, gone);
    MergedLaneOk(t, s, d, id, gone);
    MergedBatch(t, s, id, gone);
  }

  lemma MergedLaneOk(t: Tunables, s: State, d: Dir, id: Id, gone: Id)
    requires LaneOk(t, s, READ) && LaneOk(t, s, WRITE) && id in s.Of(d).fifo && gone in s.Of(d).fifo && id != gone
    requires id !in s.Of(Other(d)).fifo && id in s.rq && gone in s.rq && s.rq[id].dir == d
    ensures var s' := MergedRequests(s, id, gone);
            && LaneOk(t, s', READ) && LaneOk(t, s', WRITE)
            && (forall x :: x in s'.Of(d).fifo <==> x in s.Of(d).fifo && x != gone)
            && s'.Of(Other(d)) == s.Of(Other(d))
  {
    hide LaneGood, Remove, InsertAfter, Without, Latter;
    var s' := MergedRequests(s, id, gone);
    MergedMembers(t, s, d, id, gone);
    if s.rq[gone].time < s.rq[id].time {
      MergedLane(s.Of(d), s.rq, d, s.clock + t.Expire(d), id, gone);
    } else {
      RemoveOk(t, s, d, gone);
    }
    LaneFrame(t, s, s', Other(d));
  }

  lemma MergedBatch(t: Tunables, s: State, id: Id, gone: Id)
    requires Inv(t, s) && id in s.rq && gone in s.rq
    ensures var s' := MergedRequests(s, id, gone);
            && (s'.read.next.None? || s'.write.next.None?)
            && (Batch(s').Some? ==> Batch(s).Some?)
            && s' == State(s'.read, s'.write, s'.rq, s.batching, s.starved, s.out, s.clock)
            && s'.rq.Keys == s.rq.Keys
  {
    hide LaneGood, InsertAfter, Without, Latter;
  }
}
