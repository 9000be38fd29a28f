/** Sector order within the batches of the deadline scheduler. */
module DeadlineOrder {
  import opened Lists
  import opened Options
  import opened Deadline
  import opened DeadlineService

  // ---- the request after another in sector order ----

  /** `y` comes right behind `x`. */
  ghost predicate Next(sort: seq<Id>, x: Id, y: Id) {
    exists i :: 0 <= i < |sort| - 1 && sort[i] == x && sort[i + 1] == y
  }

  lemma NextTail(sort: seq<Id>, x: Id, y: Id)
    requires NoDup(sort) && |sort| >= 2 && sort[0] != x
    ensures Next(sort, x, y) <==> Next(sort[1..], x, y)
  {
    var rest := sort[1..];
    if Next(sort, x, y) {
      var i :| 0 <= i < |sort| - 1 && sort[i] == x && sort[i + 1] == y;
      assert rest[i - 1] == x && rest[i - 1 + 1] == y;
    }
    if Next(rest, x, y) {
      var i :| 0 <= i < |rest| - 1 && rest[i] == x && rest[i + 1] == y;
      assert sort[i + 1] == x && sort[i + 1 + 1] == y;
    }
  }

  /** deadline_latter_request finds the request right behind, and none exactly behind the last one. */
  lemma {:induction false} LatterIsNext(sort: seq<Id>, id: Id)
    requires NoDup(sort)
    ensures forall y: Id :: Latter(sort, id) == Some(y) <==> Next(sort, id, y)
    ensures Latter(sort, id) == None <==> id !in sort || sort[|sort| - 1] == id
  {
    if |sort| >= 2 {
      if sort[0] == id {
        assert sort[0] == id && sort[0 + 1] == sort[1];
        assert sort[|sort| - 1] != id;
      } else {
        LatterIsNext(sort[1..], id);
        forall y ensures Next(sort, id, y) <==> Next(sort[1..], id, y) {
          NextTail(sort, id, y);
        }
        assert sort == [sort[0]] + sort[1..];
      }
    }
  }

  /** Of the requests `q`, none lies strictly between the sectors `lo` and `hi`. */
  predicate NoneBetween(q: seq<Id>, rq: map<Id, Rq>, lo: nat, hi: nat) {
    forall x :: x in q && x in rq ==> rq[x].pos <= lo || hi <= rq[x].pos
  }

  /** None of them lies beyond `lo`. */
  predicate NoneBeyond(q: seq<Id>, rq: map<Id, Rq>, lo: nat) {
    forall x :: x in q && x in rq ==> rq[x].pos <= lo
  }

  lemma LatterIsNearest(sort: seq<Id>, rq: map<Id, Rq>, id: Id)
    requires NoDup(sort) && (forall x :: x in sort ==> x in rq) && Sorted(sort, rq) && id in sort
    ensures Latter(sort, id).Some? ==>
              var y := Latter(sort, id).value;
              y in sort && y != id && rq[id].pos <= rq[y].pos && NoneBetween(sort, rq, rq[id].pos, rq[y].pos)
    ensures Latter(sort, id).None? ==> NoneBeyond(sort, rq, rq[id].pos)
  {
    LatterIsNext(sort, id);
    if Latter(sort, id).Some? {
      var y := Latter(sort, id).value;
      assert Next(sort, id, y);
      var i :| 0 <= i < |sort| - 1 && sort[i] == id && sort[i + 1] == y;
      forall x | x in sort ensures rq[x].pos <= rq[id].pos || rq[y].pos <= rq[x].pos {
        var k :| 0 <= k < |sort| && sort[k] == x;
        assert k < i ==> rq[sort[k]].pos <= rq[sort[i]].pos;
        assert k > i + 1 ==> rq[sort[i + 1]].pos <= rq[sort[k]].pos;
      }
    } else {
      var n := |sort| - 1;
      forall x | x in sort ensures rq[x].pos <= rq[id].pos {
        var k :| 0 <= k < |sort| && sort[k] == x;
        assert k < n ==> rq[sort[k]].pos <= rq[sort[n]].pos;
      }
    }
  }

  // ---- one dispatch ----

  /** After request `a` was dispatched from `q`, the batch goes on upwards with the nearest request left, if there is one. */
  predicate GoesUp(q: seq<Id>, rq: map<Id, Rq>, a: Id, next: Option<Id>) {
    && a in rq
    && match next
       case Some(n) => n in q && n in rq && n != a && rq[a].pos <= rq[n].pos && NoneBetween(q, rq, rq[a].pos, rq[n].pos)
       case None => NoneBeyond(q, rq, rq[a].pos)
  }

  lemma MoveGoesUp(t: Tunables, s: State, d: Dir, a: Id)
    requires LaneOk(t, s, d) && a in s.Of(d).fifo
    ensures var s' := Move(s, d, a);
            GoesUp(s.Of(d).fifo, s.rq, a, s'.Of(d).next) && s'.Of(Other(d)).next == None && s'.rq == s.rq
  {
    LatterIsNearest(s.Of(d).sort, s.rq, a);
    hide Latter, Without;
  }

  /** What a dispatch takes: the next request of the batch while the batch lasts, otherwise the oldest request of a direction, unless that has not expired and the direction has a next request. */
  predicate Chosen(t: Tunables, s: State, now: int, d: Dir, a: Id) {
    && a in s.Of(d).fifo
    && if Batch(s).Some? && s.batching < t.fifoBatch then Batch(s) == Some((d, a))
       else
         var head := s.Of(d).fifo[0];
         head in s.rq && if now < s.rq[head].time && s.Of(d).next.Some? then s.Of(d).next == Some(a) else a == head
  }

  lemma DispatchGoesUp(t: Tunables, s: State, now: int) returns (d: Dir, a: Id)
    requires Inv(t, s) && now >= s.clock && HeadsKnown(s) && (s.read.fifo != [] || s.write.fifo != [])
    ensures var s' := Dispatch(t, s, now);
            && Chosen(t, s, now, d, a) && s'.out == s.out + [a] && s'.rq == s.rq
            && GoesUp(s.Of(d).fifo, s.rq, a, s'.Of(d).next) && s'.Of(Other(d)).next == None
  {
    hide LaneGood, Move;
    var b := Batch(s);
    if b.Some? && s.batching < t.fifoBatch {
      d, a := b.value.0, b.value.1;
      BatchQueued(t, s);
      Moved(t, s, s.(clock := now, batching := s.batching + 1), d, a);
    } else {
      var toWrite := s.read.fifo == [] || (s.write.fifo != [] && s.starved >= t.writesStarved);
      d := if toWrite then WRITE else READ;
      var l := s.Of(d);
      a := if now >= s.rq[l.fifo[0]].time || l.next.None? then l.fifo[0] else l.next.value;
      NextQueued(t, s, d);
      var n := if toWrite then 0 else if s.write.fifo != [] then s.starved + 1 else s.starved;
      Moved(t, s, s.(clock := now, starved := n, batching := 1), d, a);
    }
  }

  lemma NextQueued(t: Tunables, s: State, d: Dir)
    requires LaneOk(t, s, d)
    ensures s.Of(d).next.Some? ==> s.Of(d).next.value in s.Of(d).fifo
  {
  }

  lemma Moved(t: Tunables, s: State, s1: State, d: Dir, a: Id)
    requires LaneOk(t, s, d) && a in s.Of(d).fifo && s1.Of(d) == s.Of(d) && s1.rq == s.rq && s1.clock >= s.clock && s1.out == s.out
    ensures var s' := Move(s1, d, a);
            && s'.out == s.out + [a] && s'.rq == s.rq
            && GoesUp(s.Of(d).fifo, s.rq, a, s'.Of(d).next) && s'.Of(Other(d)).next == None
  {
    LaneFrame(t, s, s1, d);
    MoveGoesUp(t, s1, d, a);
    MoveEffect(s1, d, a, d);
  }

  // ---- between two dispatches ----

  /** The event moves the next request `n` of direction `d`, or takes it away. */
  predicate Disturbs(e: Event, n: Id) {
    match e
    case Dispatched(_) => true
    case FrontMerge(id, _) => id == n
    case Merge(_, gone) => gone == n
    case Added(_, _, _, _) => false
  }

  lemma UndisturbedKeepsNext(t: Tunables, s: State, e: Event, d: Dir, n: Id)
    requires Inv(t, s) && Enabled(s, e) && s.Of(d).next == Some(n) && n in s.rq && !Disturbs(e, n)
    ensures var s' := Apply(t, s, e);
            s'.Of(d).next == Some(n) && s'.batching == s.batching && n in s'.rq && s'.rq[n].pos == s.rq[n].pos && s'.out == s.out
  {
    hide Inv, InsertSorted, InsertAfter, Without, Latter;
  }

  lemma {:induction false} NextLasts(t: Tunables, start: int, es: seq<Event>, ss: seq<State>, i: nat, j: nat, d: Dir, n: Id)
    requires IsRun(t, start, es, ss) && i <= j <= |es| && ss[i].Of(d).next == Some(n) && n in ss[i].rq
    requires forall k :: i <= k < j ==> !Disturbs(es[k], n)
    ensures ss[j].Of(d).next == Some(n) && ss[j].batching == ss[i].batching && ss[j].out == ss[i].out
    ensures n in ss[j].rq && ss[j].rq[n].pos == ss[i].rq[n].pos
  {
    hide Inv, Apply, Enabled, Disturbs;
    if j > i {
      NextLasts(t, start, es, ss, i, j - 1, d, n);
      RunInv(t, start, es, ss, j - 1);
      UndisturbedKeepsNext(t, ss[j - 1], es[j - 1], d, n);
    }
  }

  /**
   A batch runs upwards: when request `a` was dispatched at `i` and the batch still lasts at the next dispatch,
   `j`, this takes the request that was nearest above `a` when `a` was dispatched, unless that one was moved
   or taken away by a merge in between.
   */
  lemma BatchGoesUp(t: Tunables, start: int, es: seq<Event>, ss: seq<State>, i: nat, j: nat) returns (d: Dir, a: Id, n: Id)
    requires IsRun(t, start, es, ss) && i < j < |es| && es[i].Dispatched? && es[j].Dispatched?
    requires (ss[i].read.fifo != [] || ss[i].write.fifo != []) && Batch(ss[i + 1]).Some? && ss[i + 1].batching < t.fifoBatch
    requires forall k :: i < k < j ==> !Disturbs(es[k], Batch(ss[i + 1]).value.1)
    ensures ss[i + 1].out == ss[i].out + [a] && ss[j + 1].out == ss[j].out + [n] && ss[j].out == ss[i + 1].out
    ensures GoesUp(ss[i].Of(d).fifo, ss[i].rq, a, Some(n)) && n in ss[j].rq && ss[j].rq[n].pos == ss[i].rq[n].pos
  {
    hide Inv, GoesUp, Disturbs;
    RunInv(t, start, es, ss, i);
    d, a := DispatchGoesUp(t, ss[i], es[i].now);
    var s := ss[i + 1];
    assert s == Dispatch(t, ss[i], es[i].now);
    hide Dispatch, Chosen;
    n := Batch(s).value.1;
    assert s.Of(d).next == Some(n);
    assert n in s.rq by { RunInv(t, start, es, ss, i + 1); BatchKnown(t, s); }
    NextLasts(t, start, es, ss, i + 1, j, d, n);
    assert Batch(ss[j]) == Some((d, n)) by { RunInv(t, start, es, ss, j); OneNext(t, ss[j], d); }
    assert ss[j].read.fifo != [] || ss[j].write.fifo != [] by { RunInv(t, start, es, ss, j); BatchQueued(t, ss[j]); }
    RunInv(t, start, es, ss, j);
    var d', b := DispatchGoesUp(t, ss[j], es[j].now);
    assert b == n by { ChosenInBatch(t, ss[j], es[j].now, d', b); }
    assert GoesUp(ss[i].Of(d).fifo, ss[i].rq, a, Some(n));
  }

  lemma ChosenInBatch(t: Tunables, s: State, now: int, d: Dir, a: Id)
    requires Chosen(t, s, now, d, a) && Batch(s).Some? && s.batching < t.fifoBatch
    ensures Batch(s) == Some((d, a))
  {
  }

  lemma BatchKnown(t: Tunables, s: State)
    requires Inv(t, s) && Batch(s).Some?
    ensures Batch(s).value.1 in s.rq
  {
  }

  lemma OneNext(t: Tunables, s: State, d: Dir)
    requires Inv(t, s) && s.Of(d).next.Some?
    ensures Batch(s) == Some((d, s.Of(d).next.value))
  {
  }

  // ---- merges in between ----

  /** The next request of direction `d`, if there is one, is at sector `p` or above. */
  predicate Above(s: State, d: Dir, p: nat) {
    s.Of(d).next.Some? ==> s.Of(d).next.value in s.rq && p <= s.rq[s.Of(d).next.value].pos
  }

  lemma MergeStaysAbove(t: Tunables, s: State, id: Id, gone: Id, d: Dir, p: nat)
    requires LaneOk(t, s, d) && Enabled(s, Merge(id, gone)) && Above(s, d, p)
    ensures Above(MergedRequests(s, id, gone), d, p)
  {
    if s.Of(d).next == Some(gone) {
      LatterIsNearest(s.Of(d).sort, s.rq, gone);
    }
    hide InsertAfter, Without, Latter;
  }

  lemma StaysAbove(t: Tunables, s: State, e: Event, d: Dir, p: nat)
    requires Inv(t, s) && Enabled(s, e) && Above(s, d, p)
    requires !e.Dispatched? && !(e.FrontMerge? && s.Of(d).next == Some(e.id) && e.pos < p)
    ensures Above(Apply(t, s, e), d, p)
  {
    if e.Merge? {
      MergeStaysAbove(t, s, e.id, e.gone, d, p);
    }
    hide Inv, InsertSorted, InsertAfter, Without, Latter;
  }

  lemma {:induction false} NextStaysAbove(t: Tunables, start: int, es: seq<Event>, ss: seq<State>, i: nat, j: nat, d: Dir, p: nat)
    requires IsRun(t, start, es, ss) && i <= j <= |es| && Above(ss[i], d, p)
    requires forall k :: i <= k < j ==> !es[k].Dispatched? && !(es[k].FrontMerge? && ss[k].Of(d).next == Some(es[k].id) && es[k].pos < p)
    ensures Above(ss[j], d, p)
  {
    hide Inv, Apply, Enabled, Above;
    if j > i {
      NextStaysAbove(t, start, es, ss, i, j - 1, d, p);
      RunInv(t, start, es, ss, j - 1);
      StaysAbove(t, ss[j - 1], es[j - 1], d, p);
    }
  }

  /** The event moves the request that the batch would go on with. */
  predicate MovesNext(s: State, e: Event) {
    e.FrontMerge? && Batch(s).Some? && Batch(s).value.1 == e.id
  }

  /**
   Whatever arrives or merges in between, two dispatches of one batch do not go down in sectors, as long as no
   front merge moves the request that the batch would go on with.
   */
  lemma BatchNeverGoesDown(t: Tunables, start: int, es: seq<Event>, ss: seq<State>, i: nat, j: nat) returns (a: Id, b: Id)
    requires IsRun(t, start, es, ss) && i < j < |es| && es[i].Dispatched? && es[j].Dispatched?
    requires (ss[i].read.fifo != [] || ss[i].write.fifo != []) && Batch(ss[j]).Some? && ss[j].batching < t.fifoBatch
    requires forall k :: i < k < j ==> !es[k].Dispatched? && !MovesNext(ss[k], es[k])
    ensures ss[i + 1].out == ss[i].out + [a] && ss[j + 1].out == ss[j].out + [b]
    ensures a in ss[i].rq && b in ss[j].rq && ss[i].rq[a].dir == ss[j].rq[b].dir && ss[i].rq[a].pos <= ss[j].rq[b].pos
  {
    hide Inv;
    RunInv(t, start, es, ss, i);
    var d: Dir;
    d, a := DispatchGoesUp(t, ss[i], es[i].now);
    QueuedIn(t, ss[i], d, a);
    assert ss[i + 1] == Dispatch(t, ss[i], es[i].now);
    hide Dispatch;
    forall k | i < k < j ensures !(es[k].FrontMerge? && ss[k].Of(d).next == Some(es[k].id)) {
      RunInv(t, start, es, ss, k);
      if ss[k].Of(d).next.Some? {
        OneNext(t, ss[k], d);
      }
    }
    NextStaysAbove(t, start, es, ss, i + 1, j, d, ss[i].rq[a].pos);
    OtherStaysEmpty(t, start, es, ss, i + 1, j, Other(d));
    RunInv(t, start, es, ss, j);
    BatchQueued(t, ss[j]);
    var e, c := DispatchGoesUp(t, ss[j], es[j].now);
    b := c;
    QueuedIn(t, ss[j], e, b);
  }

  lemma QueuedIn(t: Tunables, s: State, d: Dir, a: Id)
    requires Inv(t, s) && a in s.Of(d).fifo
    ensures a in s.rq && s.rq[a].dir == d
  {
  }

  lemma {:induction false} OtherStaysEmpty(t: Tunables, start: int, es: seq<Event>, ss: seq<State>, i: nat, j: nat, d: Dir)
    requires IsRun(t, start, es, ss) && i <= j <= |es| && ss[i].Of(d).next == None
    requires forall k :: i <= k < j ==> !es[k].Dispatched?
    ensures ss[j].Of(d).next == None
  {
    hide InsertSorted, InsertAfter, Without, Latter;
    if j > i {
      OtherStaysEmpty(t, start, es, ss, i, j - 1, d);
    }
  }

  // ---- whose turn it is ----

  /** The step dispatches a request of direction `d` that begins a batch. */
  predicate Begins(s: State, s': State, d: Dir) {
    && |s'.out| > |s.out| && s'.batching == 1
    && s'.out[|s'.out| - 1] in s.rq && s.rq[s'.out[|s'.out| - 1]].dir == d
  }

  /** The batches of reads that have begun since the last batch of writes did, while writes were waiting. */
  ghost function Preferred(ss: seq<State>, n: nat): nat
    requires n < |ss|
  {
    if n == 0 then 0
    else if Begins(ss[n - 1], ss[n], WRITE) then 0
    else Preferred(ss, n - 1) + if Begins(ss[n - 1], ss[n], READ) && ss[n - 1].write.fifo != [] then 1 else 0
  }

  lemma DispatchTurns(t: Tunables, s: State, now: int)
    requires Inv(t, s) && now >= s.clock && HeadsKnown(s)
    ensures var s' := Dispatch(t, s, now);
            && s'.starved == (if Begins(s, s', WRITE) then 0
                              else s.starved + if Begins(s, s', READ) && s.write.fifo != [] then 1 else 0)
            && (Begins(s, s', WRITE) && s.read.fifo != [] ==> s.starved >= t.writesStarved)
            && (Begins(s, s', READ) && s.write.fifo != [] ==> s.starved < t.writesStarved)
  {
    if s.read.fifo != [] || s.write.fifo != [] {
      var d, a := DispatchGoesUp(t, s, now);
      QueuedIn(t, s, d, a);
      DispatchCounts(t, s, now, d, a);
    }
  }

  lemma DispatchCounts(t: Tunables, s: State, now: int, d: Dir, a: Id)
    requires Inv(t, s) && now >= s.clock && HeadsKnown(s) && (s.read.fifo != [] || s.write.fifo != [])
    requires a in s.rq && s.rq[a].dir == d && Dispatch(t, s, now).out == s.out + [a]
    ensures var s' := Dispatch(t, s, now);
            if Batch(s).Some? && s.batching < t.fifoBatch then s'.batching > 1 && s'.starved == s.starved
            else
              && s'.batching == 1
              && d == (if s.read.fifo == [] || (s.write.fifo != [] && s.starved >= t.writesStarved) then WRITE else READ)
              && s'.starved == if d == WRITE then 0 else if s.write.fifo != [] then s.starved + 1 else s.starved
  {
    hide LaneGood, Latter, Without;
    if !(Batch(s).Some? && s.batching < t.fifoBatch) {
      var o := if s.read.fifo == [] || (s.write.fifo != [] && s.starved >= t.writesStarved) then WRITE else READ;
      var b := if now >= s.rq[s.Of(o).fifo[0]].time || s.Of(o).next.None? then s.Of(o).fifo[0] else s.Of(o).next.value;
      NextQueued(t, s, o);
      QueuedIn(t, s, o, b);
      assert Dispatch(t, s, now).out == s.out + [b];
      assert (s.out + [a])[|s.out|] == a && (s.out + [b])[|s.out|] == b;
    }
  }

  lemma OthersTakeNoTurn(t: Tunables, s: State, e: Event)
    requires Inv(t, s) && Enabled(s, e) && !e.Dispatched?
    ensures Apply(t, s, e).starved == s.starved && Apply(t, s, e).out == s.out
  {
    hide Inv, InsertSorted, InsertAfter, Without, Latter;
  }

  /**
   While both are waiting, a batch of writes begins only after writes_starved batches of reads, and a batch of
   reads only as long as fewer have begun since the last batch of writes; over every run.
   */
  lemma {:induction false} ReadsArePreferred(t: Tunables, start: int, es: seq<Event>, ss: seq<State>, n: nat)
    requires IsRun(t, start, es, ss) && n < |ss|
    ensures ss[n].starved == Preferred(ss, n)
    ensures n > 0 && Begins(ss[n - 1], ss[n], WRITE) && ss[n - 1].read.fifo != [] ==> Preferred(ss, n - 1) == t.writesStarved
    ensures n > 0 && Begins(ss[n - 1], ss[n], READ) && ss[n - 1].write.fifo != [] ==> Preferred(ss, n - 1) < t.writesStarved
  {
    hide Inv, Begins, Dispatch;
    if n > 0 {
      ReadsArePreferred(t, start, es, ss, n - 1);
      RunInv(t, start, es, ss, n - 1);
      var s, e := ss[n - 1], es[n - 1];
      assert Enabled(s, e) && ss[n] == Apply(t, s, e);
      StarvedBound(t, s);
      if e.Dispatched? {
        DispatchTurns(t, s, e.now);
      } else {
        OthersTakeNoTurn(t, s, e);
        NothingBegins(s, ss[n]);
      }
    }
  }

  lemma StarvedBound(t: Tunables, s: State)
    requires Inv(t, s)
    ensures s.starved <= t.writesStarved
  {
  }

  lemma NothingBegins(s: State, s': State)
    requires s'.out == s.out
    ensures !Begins(s, s', READ) && !Begins(s, s', WRITE)
  {
  }

  // ---- when requests expire ----

  /** Event `k` added a request of direction `d` that expires at `time`. */
  predicate AddedWith(t: Tunables, es: seq<Event>, k: int, d: Dir, time: int) {
    0 <= k < |es| && es[k].Added? && es[k].d == d && es[k].now + t.Expire(d) == time
  }

  /** No request was merged into `x`. */
  predicate Unmerged(es: seq<Event>, x: Id) {
    forall k :: 0 <= k < |es| ==> !(es[k].Merge? && es[k].id == x)
  }

  /** The expiry of `x` is that of a request of its direction that was added; its own, unless it took one over. */
  ghost predicate Expires(t: Tunables, es: seq<Event>, x: Id, r: Rq) {
    exists k :: AddedWith(t, es, k, r.dir, r.time) && (Unmerged(es, x) ==> es[k].id == x)
  }

  lemma ExpiresLater(t: Tunables, es: seq<Event>, e: Event, x: Id, r: Rq)
    requires Expires(t, es, x, r)
    ensures Expires(t, es + [e], x, r)
  {
    var k :| AddedWith(t, es, k, r.dir, r.time) && (Unmerged(es, x) ==> es[k].id == x);
    assert AddedWith(t, es + [e], k, r.dir, r.time);
    if Unmerged(es + [e], x) {
      forall i | 0 <= i < |es| ensures !(es[i].Merge? && es[i].id == x) {
        assert (es + [e])[i] == es[i];
      }
    }
  }

  lemma TakesOver(t: Tunables, es: seq<Event>, id: Id, gone: Id, r: Rq, r': Rq)
    requires Expires(t, es, gone, r') && r'.dir == r.dir
    ensures Expires(t, es + [Merge(id, gone)], id, r.(time := r'.time))
  {
    var k :| AddedWith(t, es, k, r'.dir, r'.time);
    var es' := es + [Merge(id, gone)];
    assert AddedWith(t, es', k, r.dir, r'.time);
    assert es'[|es|] == Merge(id, gone);
  }

  lemma StepExpires(t: Tunables, es: seq<Event>, s: State, e: Event, x: Id)
    requires Enabled(s, e) && x in Apply(t, s, e).rq && forall y :: y in s.rq ==> Expires(t, es, y, s.rq[y])
    ensures Expires(t, es + [e], x, Apply(t, s, e).rq[x])
  {
    hide Expires, InsertSorted, InsertAfter, Without, Latter;
    var r := Apply(t, s, e).rq[x];
    if e.Added? && e.id == x {
      assert Expires(t, es + [e], x, r) by { NewExpires(t, es, e, r); }
    } else if e.Merge? && e.id == x && s.rq[e.gone].time < s.rq[x].time {
      TakesOver(t, es, x, e.gone, s.rq[x], s.rq[e.gone]);
    } else {
      ExpiresLater(t, es, e, x, s.rq[x]);
      assert r == s.rq[x] || (e.FrontMerge? && r == s.rq[x].(pos := r.pos));
      SameExpiry(t, es + [e], x, s.rq[x], r);
    }
  }

  lemma SameExpiry(t: Tunables, es: seq<Event>, x: Id, r: Rq, r': Rq)
    requires Expires(t, es, x, r) && r'.dir == r.dir && r'.time == r.time
    ensures Expires(t, es, x, r')
  {
    var k :| AddedWith(t, es, k, r.dir, r.time) && (Unmerged(es, x) ==> es[k].id == x);
    assert AddedWith(t, es, k, r'.dir, r'.time);
  }

  lemma NewExpires(t: Tunables, es: seq<Event>, e: Event, r: Rq)
    requires e.Added? && r.dir == e.d && r.time == e.now + t.Expire(e.d)
    ensures Expires(t, es + [e], e.id, r)
  {
    assert AddedWith(t, es + [e], |es|, r.dir, r.time);
  }

  /**
   In every run a request expires read_expire or write_expire after it was added, or, if requests were merged
   into it, so long after one of these was.
   */
  lemma {:induction false} RunExpires(t: Tunables, start: int, es: seq<Event>, ss: seq<State>, n: nat, x: Id)
    requires IsRun(t, start, es, ss) && n < |ss| && x in ss[n].rq
    ensures Expires(t, es[..n], x, ss[n].rq[x])
  {
    hide Expires, Apply, Enabled;
    if n > 0 {
      var s, e := ss[n - 1], es[n - 1];
      forall y | y in s.rq ensures Expires(t, es[..n - 1], y, s.rq[y]) {
        RunExpires(t, start, es, ss, n - 1, y);
      }
      assert Enabled(s, e) && ss[n] == Apply(t, s, e);
      StepExpires(t, es[..n - 1], s, e, x);
      assert es[..n] == es[..n - 1] + [e];
    }
  }
}
