/**
 The bios of a discard, chained by next_bio: each one completes into the next, and the owner of the last
 hears of the whole range once.
 */
module DiscardChain {
  import opened Options
  import opened BioChain
  import D = Discard

  // ---- next_bio ----

  /** The `c`-th step of issuing `n` pieces: a bio is allocated for each, and then the bio before it is chained to it. */
  function IssueStep(n: nat, c: nat): Event {
    if c == 0 then Alloc(0, n == 1)
    else if c % 2 == 1 then Alloc((c + 1) / 2, (c + 1) / 2 + 1 == n)
    else Chain(c / 2 - 1, c / 2)
  }

  /** How many bios are allocated and how many are chained after `c` steps. */
  function Allocated(c: nat): nat { if c == 0 then 0 else c / 2 + 1 }

  function LinkCount(c: nat): nat { if c == 0 then 0 else (c - 1) / 2 }

  function Issued(events: seq<Event>): nat {
    if events == [] then 0
    else Issued(events[..|events| - 1]) + if events[|events| - 1].Report? then 0 else 1
  }

  /** Apart from completions, which may come at any time, the events of the run issue `n` pieces in order. */
  ghost predicate Issues(events: seq<Event>, n: nat) {
    forall i :: 0 <= i < |events| && !events[i].Report? ==> events[i] == IssueStep(n, Issued(events[..i]))
  }

  /** The first `a` bios exist and the first `l` of them are chained, each to the next. */
  ghost predicate Links(s: State, n: nat, a: nat, l: nat) {
    && (forall b: Id :: b in s.bios <==> b < a)
    && forall b :: b in s.bios ==>
         && s.bios[b].endIo == (b + 1 == n)
         && s.bios[b].parent == if b < l then Some(b + 1) else None
  }

  /** The bios after `c` steps. */
  ghost predicate Shape(s: State, n: nat, c: nat) {
    Links(s, n, Allocated(c), LinkCount(c))
  }

  // ---- completions leave the shape alone ----

  ghost predicate SameLinks(s: State, t: State) {
    && t.bios.Keys == s.bios.Keys
    && forall b :: b in s.bios ==> t.bios[b].parent == s.bios[b].parent && t.bios[b].endIo == s.bios[b].endIo
  }

  lemma {:induction false} EndIoLinks(s: State, b: Id)
    ensures SameLinks(s, EndIo(s, b))
    decreases Live(s)
  {
    hide Live;
    if b in s.bios && s.bios[b].end == 0 && !(s.bios[b].chain && s.bios[b].remaining != 1) {
      EndedShrinksLive(s, b);
      assert SameLinks(s, Ended(s, b));
      if s.bios[b].parent.Some? {
        hide Ended;
        EndIoLinks(Ended(s, b), s.bios[b].parent.value);
      }
    }
  }

  lemma ReportKeepsLinks(s: State, n: nat, a: nat, l: nat, b: Id, error: int)
    requires Links(s, n, a, l) && b in s.bios
    ensures Links(Complete(s, b, error), n, a, l)
  {
    hide EndIo;
    var r := Reported(s, b, error);
    assert SameLinks(s, r);
    EndIoLinks(r, b);
  }

  lemma AllocKeepsLinks(s: State, n: nat, a: nat, l: nat)
    requires Links(s, n, a, l) && l <= a
    ensures Links(s.(bios := s.bios[a := NewBio(a + 1 == n)]), n, a + 1, l)
  {
  }

  lemma ChainKeepsLinks(s: State, n: nat, l: nat)
    requires Links(s, n, l + 2, l)
    ensures l in s.bios && l + 1 in s.bios && Links(Chained(s, l, l + 1), n, l + 2, l + 1)
  {
  }

  lemma IssueKeepsShape(s: State, n: nat, c: nat)
    requires Shape(s, n, c) && Enabled(s, IssueStep(n, c))
    ensures Shape(Apply(s, IssueStep(n, c)), n, c + 1)
  {
    hide Links;
    if c == 0 || c % 2 == 1 {
      AllocKeepsLinks(s, n, Allocated(c), LinkCount(c));
    } else {
      ChainKeepsLinks(s, n, LinkCount(c));
    }
  }

  lemma IssuedNext(events: seq<Event>, i: nat)
    requires 0 < i <= |events|
    ensures Issued(events[..i]) == Issued(events[..i - 1]) + if events[i - 1].Report? then 0 else 1
  {
    assert events[..i][..i - 1] == events[..i - 1];
  }

  lemma {:induction false} RunShape(states: seq<State>, events: seq<Event>, n: nat, i: nat)
    requires IsRun(states, events) && Issues(events, n) && i < |states|
    ensures Shape(states[i], n, Issued(events[..i]))
  {
    if i > 0 {
      hide Shape, IssueStep, Issued;
      var s, e, c := states[i - 1], events[i - 1], Issued(events[..i - 1]);
      RunShape(states, events, n, i - 1);
      IssuedNext(events, i);
      assert Enabled(s, e) && states[i] == Apply(s, e);
      if e.Report? {
        ReportKeepsShape(s, n, c, e);
      } else {
        IssueKeepsShape(s, n, c);
      }
    }
  }

  lemma ReportKeepsShape(s: State, n: nat, c: nat, e: Event)
    requires Shape(s, n, c) && e.Report? && Enabled(s, e)
    ensures Shape(Apply(s, e), n, c)
  {
    hide Links, Complete;
    ReportKeepsLinks(s, n, Allocated(c), LinkCount(c), e.b, e.error);
  }

  // ---- issuing by itself ----

  /** No bio has ended. */
  ghost predicate Pending(s: State) {
    forall b :: b in s.bios ==> s.bios[b].end == 0
  }

  lemma StepEnabled(s: State, n: nat, c: nat)
    requires Shape(s, n, c) && c < 2 * n - 1 && Pending(s)
    ensures var e := IssueStep(n, c); Enabled(s, e) && !e.Report? && Pending(Apply(s, e))
  {
  }

  lemma IssuesMore(events: seq<Event>, n: nat)
    requires Issues(events, n)
    ensures Issues(events + [IssueStep(n, Issued(events))], n)
    ensures Issued(events + [IssueStep(n, Issued(events))]) == Issued(events) + 1
  {
    var e := IssueStep(n, Issued(events));
    var es := events + [e];
    hide IssueStep;
    forall i | 0 <= i < |es| && !es[i].Report? ensures es[i] == IssueStep(n, Issued(es[..i])) {
      assert es[..i] == if i < |events| then events[..i] else events;
    }
    assert es[..|events|] == events;
    StepIssues(n, Issued(events));
  }

  lemma StepIssues(n: nat, c: nat)
    ensures !IssueStep(n, c).Report?
  {
  }

  lemma RunMore(states: seq<State>, events: seq<Event>, e: Event)
    requires IsRun(states, events) && Enabled(states[|events|], e)
    ensures IsRun(states + [Apply(states[|events|], e)], events + [e])
  {
    hide Apply, Enabled;
  }

  /** Any number of pieces can be issued. */
  lemma {:induction false} IssueRun(n: nat, c: nat) returns (states: seq<State>, events: seq<Event>)
    requires n >= 1 && c <= 2 * n - 1
    ensures IsRun(states, events) && Issues(events, n) && Issued(events) == |events| == c && Pending(states[c])
  {
    hide IssueStep, Apply, Enabled, Issues;
    if c == 0 {
      states, events := [State(map[], 0, [])], [];
      assert Issues([], n) by { EmptyIssues(n); }
    } else {
      var ss, es := IssueRun(n, c - 1);
      var s, e := ss[c - 1], IssueStep(n, c - 1);
      assert es[..c - 1] == es;
      RunShape(ss, es, n, c - 1);
      hide IsRun, Issued, Shape, Pending;
      StepEnabled(s, n, c - 1);
      RunMore(ss, es, e);
      IssuesMore(es, n);
      states, events := ss + [Apply(s, e)], es + [e];
    }
  }

  lemma EmptyIssues(n: nat)
    ensures Issues([], n)
  {
  }

  // ---- the whole chain ----

  /** All `n` pieces are issued: each bio but the last is chained to the next one. */
  ghost predicate Whole(s: State, n: nat) {
    && (forall b: Id :: b in s.bios <==> b < n)
    && forall b: Id :: b < n ==>
         && s.bios[b].endIo == (b + 1 == n)
         && s.bios[b].parent == if b + 1 < n then Some(b + 1) else None
  }

  lemma IssuedIsWhole(s: State, n: nat)
    requires n >= 1 && Shape(s, n, 2 * n - 1)
    ensures Whole(s, n)
  {
    assert Links(s, n, n, n - 1) by { HalfOf(n); }
  }

  lemma HalfOf(n: nat)
    requires n >= 1
    ensures Allocated(2 * n - 1) == n && LinkCount(2 * n - 1) == n - 1
  {
    assert Allocated(2 * n - 1) == n && LinkCount(2 * n - 1) == n - 1;
  }

  /** The way from a piece to the last one. */
  function Way(b: nat, n: nat): seq<Id>
    requires b < n
  {
    seq(n - b, i requires 0 <= i < n - b => b + i)
  }

  lemma WayIsPath(s: State, b: nat, n: nat)
    requires b < n && Whole(s, n)
    ensures PathTo(s, Way(b, n), n - 1) && Way(b, n)[0] == b
  {
  }

  ghost predicate AllReported(s: State, n: nat)
    requires Whole(s, n)
  {
    forall b: Id :: b < n ==> s.bios[b].own
  }

  ghost predicate SomeFailed(s: State, n: nat)
    requires Whole(s, n)
  {
    exists b: Id :: b < n && s.bios[b].failed
  }

  lemma PathsReported(s: State, n: nat)
    requires n >= 1 && Whole(s, n)
    ensures (forall ps :: PathTo(s, ps, n - 1) ==> s.bios[ps[0]].own) <==> AllReported(s, n)
  {
    hide PathTo;
    if AllReported(s, n) {
      forall ps | PathTo(s, ps, n - 1) ensures |ps| > 0 && ps[0] in s.bios && s.bios[ps[0]].own {
        PathStarts(s, ps, n - 1);
      }
    } else {
      var b: Id :| b < n && !s.bios[b].own;
      WayIsPath(s, b, n);
    }
  }

  lemma PathsFailed(s: State, n: nat)
    requires n >= 1 && Whole(s, n)
    ensures (exists ps :: PathTo(s, ps, n - 1) && s.bios[ps[0]].failed) <==> SomeFailed(s, n)
  {
    hide PathTo;
    if SomeFailed(s, n) {
      var b: Id :| b < n && s.bios[b].failed;
      WayIsPath(s, b, n);
    }
    forall ps | PathTo(s, ps, n - 1) ensures |ps| > 0 && ps[0] in s.bios {
      PathStarts(s, ps, n - 1);
    }
  }

  lemma PathStarts(s: State, ps: seq<Id>, b: Id)
    requires PathTo(s, ps, b)
    ensures |ps| > 0 && ps[0] in s.bios
  {
  }

  lemma OwnerOfWhole(states: seq<State>, events: seq<Event>, n: nat, i: nat)
    requires n >= 1 && IsRun(states, events) && i < |states| && Whole(states[i], n)
    ensures var s := states[i];
            && CallsOf(s.calls, n - 1) == (if AllReported(s, n) then 1 else 0)
            && (AllReported(s, n) ==> (n - 1, s.bios[n - 1].error) in s.calls)
  {
    var s := states[i];
    PathsReported(s, n);
    var rank := RankOf(s, n);
    assert n - 1 in s.bios && s.bios[n - 1].endIo;
    hide Whole, AllReported, PathTo, Ranked, IsRun;
    OwnerCalledOnce(states, events, i, n - 1, rank);
  }

  lemma ErrorOfWhole(s: State, n: nat)
    requires n >= 1 && Inv(s) && Whole(s, n) && n - 1 in s.bios && (n - 1, s.bios[n - 1].error) in s.calls
    ensures s.bios[n - 1].error != 0 <==> SomeFailed(s, n)
  {
    hide Inv, PathTo, Whole, SomeFailed;
    CalledHasEnded(s, n - 1);
    PathsFailed(s, n);
    ErrorMeansFailure(s, n - 1);
  }

  /**
   The owner of the last piece is called exactly once, exactly when all pieces have been reported, and then
   with an error exactly when some piece failed.
   */
  lemma ChainCompletesOnce(states: seq<State>, events: seq<Event>, n: nat, i: nat)
    requires n >= 1 && IsRun(states, events) && Issues(events, n) && i < |states| && Issued(events[..i]) == 2 * n - 1
    ensures var s := states[i];
            && Whole(s, n)
            && CallsOf(s.calls, n - 1) == (if AllReported(s, n) then 1 else 0)
            && (AllReported(s, n) ==> (n - 1, s.bios[n - 1].error) in s.calls && (s.bios[n - 1].error != 0 <==> SomeFailed(s, n)))
  {
    hide IsRun, Issues, Inv, Shape, Whole, AllReported, SomeFailed;
    var s := states[i];
    RunShape(states, events, n, i);
    IssuedIsWhole(s, n);
    OwnerOfWhole(states, events, n, i);
    RunInv(states, events, i);
    if AllReported(s, n) {
      ErrorOfWhole(s, n);
    }
  }

  lemma RankOf(s: State, n: nat) returns (rank: map<Id, nat>)
    requires Whole(s, n)
    ensures Ranked(s, rank)
  {
    rank := map b | b in s.bios :: b;
  }

  lemma CalledHasEnded(s: State, b: Id)
    requires Inv(s) && b in s.bios && (b, s.bios[b].error) in s.calls
    ensures s.bios[b].end > 0
  {
    var k :| 0 <= k < |s.calls| && s.calls[k] == (b, s.bios[b].error);
    assert CallOk(s, s.calls[k]);
  }

  /**
   When the owner of a discard is told, every sector of the range was in a piece that has been reported,
   and when it is told of success, in a piece that did not fail.
   */
  lemma DiscardIsDone(states: seq<State>, events: seq<Event>, i: nat, sector: nat, nr: nat, g: nat, al: nat)
    requires al < g <= D.MAX_SECTORS && nr > 0
    requires var n := |D.Pieces(sector, nr, g, al)|;
             IsRun(states, events) && Issues(events, n) && i < |states| && Issued(events[..i]) == 2 * n - 1
    ensures var s, ps := states[i], D.Pieces(sector, nr, g, al);
            var owner := |ps| - 1;
            && owner >= 0 && Whole(s, |ps|)
            && (CallsOf(s.calls, owner) == 1 <==> forall x :: sector <= x < sector + nr ==> SectorReported(s, ps, x))
            && (CallsOf(s.calls, owner) == 1 ==>
                  (s.bios[owner].error == 0 <==> forall x :: sector <= x < sector + nr ==> SectorDone(s, ps, x)))
  {
    var s, ps := states[i], D.Pieces(sector, nr, g, al);
    D.PiecesAreSound(sector, nr, g, al);
    ChainCompletesOnce(states, events, |ps|, i);
    hide IsRun, Issues, D.Pieces;
    hide Whole, AllReported, SomeFailed, SectorReported, SectorDone;
    ReportedCover(s, ps, sector, nr);
    if AllReported(s, |ps|) {
      DoneCover(s, ps, sector, nr);
    }
  }

  predicate SectorReported(s: State, ps: seq<D.Piece>, x: nat) {
    exists k :: 0 <= k < |ps| && D.In(ps[k], x) && k in s.bios && s.bios[k].own
  }

  predicate SectorDone(s: State, ps: seq<D.Piece>, x: nat) {
    exists k :: 0 <= k < |ps| && D.In(ps[k], x) && k in s.bios && s.bios[k].own && !s.bios[k].failed
  }

  lemma ReportedCover(s: State, ps: seq<D.Piece>, sector: nat, nr: nat)
    requires D.Tiles(ps, sector, nr) && Whole(s, |ps|)
    ensures AllReported(s, |ps|) <==> forall x :: sector <= x < sector + nr ==> SectorReported(s, ps, x)
  {
    if AllReported(s, |ps|) {
      forall x | sector <= x < sector + nr ensures SectorReported(s, ps, x) {
        D.TilesOnce(ps, sector, nr, x);
      }
    } else {
      var b: Id :| b < |ps| && !s.bios[b].own;
      PieceStarts(ps, sector, nr, b);
      assert !SectorReported(s, ps, ps[b].start);
    }
  }

  lemma DoneCover(s: State, ps: seq<D.Piece>, sector: nat, nr: nat)
    requires D.Tiles(ps, sector, nr) && Whole(s, |ps|) && AllReported(s, |ps|)
    ensures !SomeFailed(s, |ps|) <==> forall x :: sector <= x < sector + nr ==> SectorDone(s, ps, x)
  {
    if SomeFailed(s, |ps|) {
      var b: Id :| b < |ps| && s.bios[b].failed;
      PieceStarts(ps, sector, nr, b);
      assert !SectorDone(s, ps, ps[b].start);
    } else {
      forall x | sector <= x < sector + nr ensures SectorDone(s, ps, x) {
        D.TilesOnce(ps, sector, nr, x);
      }
    }
  }

  predicate OnlyIn(ps: seq<D.Piece>, x: nat, k: nat) {
    k < |ps| && D.In(ps[k], x) && forall j :: 0 <= j < |ps| && D.In(ps[j], x) ==> j == k
  }

  lemma {:induction false} PieceInside(ps: seq<D.Piece>, start: nat, len: nat, k: nat)
    requires D.Tiles(ps, start, len) && k < |ps|
    ensures start <= ps[k].start && ps[k].len > 0 && ps[k].start + ps[k].len <= start + len
  {
    if k > 0 {
      PieceInside(ps[1..], start + ps[0].len, len - ps[0].len, k - 1);
    }
  }

  lemma PieceStarts(ps: seq<D.Piece>, start: nat, len: nat, k: nat)
    requires D.Tiles(ps, start, len) && k < |ps|
    ensures start <= ps[k].start < start + len && OnlyIn(ps, ps[k].start, k)
  {
    var x := ps[k].start;
    PieceInside(ps, start, len, k);
    D.TilesOnce(ps, start, len, x);
    forall j | 0 <= j < |ps| && D.In(ps[j], x) ensures j == k {
      assert D.In(ps[k], x);
    }
  }
}
