/**
 Chained bios: a bio that is chained to a parent completes into it, and the owner of the topmost bio
 hears of the whole tree once.  Every order of chaining and of completions is covered.
 */
module BioChain {
  import opened Options

  type Id = nat

  /**
   `parent` is bi_private of a chained bio and `endIo` says that an owner's bi_end_io is set.  `own`,
   `failed` and `end` record what has happened: its own I/O was reported, with an error, and the bio
   was the `end`-th one to end (0: not yet).
   */
  datatype Bio = Bio(
    parent: Option<Id>,
    endIo: bool,
    remaining: int,
    chain: bool,
    error: int,
    own: bool,
    failed: bool,
    end: nat)

  /** `calls` are the calls of an owner's bi_end_io, with the error the owner sees. */
  datatype State = State(bios: map<Id, Bio>, clock: nat, calls: seq<(Id, int)>)

  function Waiting(s: State, p: Id): set<Id> {
    set c | c in s.bios && s.bios[c].parent == Some(p) && s.bios[c].end == 0
  }

  /** What a bio that has not ended still waits for; `pending` has one report not yet counted down. */
  ghost predicate Counted(s: State, b: Id, pending: Option<Id>)
    requires b in s.bios
  {
    var r := s.bios[b];
    r.end == 0 ==>
      && r.remaining == (if r.own then 0 else 1) + |Waiting(s, b)| + (if pending == Some(b) then 1 else 0)
      && r.remaining >= 1
      && (!r.chain ==> r.remaining == 1 && Waiting(s, b) == {})
  }

  ghost predicate Linked(s: State, b: Id)
    requires b in s.bios
  {
    var r := s.bios[b];
    && r.end <= s.clock
    && (r.end > 0 ==> r.own)
    && (r.failed ==> r.own)
    && (r.parent.Some? ==>
      && !r.endIo && r.parent.value in s.bios
      && (s.bios[r.parent.value].end > 0 ==> 0 < r.end < s.bios[r.parent.value].end))
  }

  ghost predicate Blames(s: State, b: Id, c: Id) {
    b in s.bios && c in s.bios && s.bios[c].parent == Some(b) && s.bios[c].end > 0 && s.bios[c].error != 0
  }

  /** A bio carries an error exactly when its own I/O failed or a child ended with an error. */
  ghost predicate Blamed(s: State, b: Id)
    requires b in s.bios
  {
    s.bios[b].error != 0 <==> s.bios[b].failed || exists c :: Blames(s, b, c)
  }

  ghost predicate CallOk(s: State, call: (Id, int)) {
    call.0 in s.bios && s.bios[call.0].end > 0 && s.bios[call.0].endIo && call.1 == s.bios[call.0].error
  }

  /** An owner is called once for each of its bios that ended, with the bio's error. */
  ghost predicate CallsOk(s: State) {
    && (forall i :: 0 <= i < |s.calls| ==> CallOk(s, s.calls[i]))
    && (forall i, j :: 0 <= i < j < |s.calls| ==> s.calls[i].0 != s.calls[j].0)
    && (forall b :: b in s.bios && s.bios[b].end > 0 && s.bios[b].endIo ==> (b, s.bios[b].error) in s.calls)
  }

  ghost predicate InvBut(s: State, pending: Option<Id>) {
    && (forall b :: b in s.bios ==> Counted(s, b, pending) && Linked(s, b) && Blamed(s, b))
    && CallsOk(s)
  }

  ghost predicate Inv(s: State) {
    InvBut(s, None)
  }

  // ---- Operations ----

  /** bio_init, and an owner that sets bi_end_io or leaves it for `Chained`. */
  function NewBio(endIo: bool): Bio {
    Bio(None, endIo, 1, false, 0, false, false, 0)
  }

  /** bio_chain. */
  function Chained(s: State, b: Id, p: Id): State
    requires b in s.bios && p in s.bios
  {
    var bios := s.bios[b := s.bios[b].(parent := Some(p))];
    s.(bios := bios[p := bios[p].(chain := true, remaining := bios[p].remaining + 1)])
  }

  function WithRemaining(s: State, b: Id, n: int): State
    requires b in s.bios
  {
    s.(bios := s.bios[b := s.bios[b].(remaining := n)])
  }

  /** The bio ends: a chained one hands its error to the parent, an owned one is reported. */
  function Ended(s: State, b: Id): State
    requires b in s.bios
  {
    var r := s.bios[b];
    var r' := r.(end := s.clock + 1, chain := false, remaining := if r.chain then r.remaining - 1 else r.remaining);
    var bios := s.bios[b := r'];
    match r.parent
    case Some(p) =>
      State(if p in bios && bios[p].error == 0 then bios[p := bios[p].(error := r.error)] else bios, s.clock + 1, s.calls)
    case None =>
      State(bios, s.clock + 1, if r.endIo then s.calls + [(b, r.error)] else s.calls)
  }

  function Live(s: State): set<Id> {
    set b | b in s.bios && s.bios[b].end == 0
  }

  lemma EndedShrinksLive(s: State, b: Id)
    requires b in s.bios && s.bios[b].end == 0
    ensures Live(Ended(s, b)) == Live(s) - {b} && b in Live(s)
  {
  }

  /** The loop of bio_endio; a report for a bio that has ended does not happen (`EndIoKeeps`). */
  function EndIo(s: State, b: Id): State
    decreases Live(s)
  {
    if b !in s.bios || s.bios[b].end > 0 then s
    else if s.bios[b].chain && s.bios[b].remaining != 1 then WithRemaining(s, b, s.bios[b].remaining - 1)
    else
      EndedShrinksLive(s, b);
      if s.bios[b].parent.None? then Ended(s, b) else EndIo(Ended(s, b), s.bios[b].parent.value)
  }

  /** A driver reports the bio's own I/O: an error is noted, then bio_endio. */
  function Reported(s: State, b: Id, error: int): State
    requires b in s.bios
  {
    var r := s.bios[b];
    s.(bios := s.bios[b := r.(own := true, failed := error != 0, error := if error != 0 then error else r.error)])
  }

  function Complete(s: State, b: Id, error: int): State
    requires b in s.bios
  {
    EndIo(Reported(s, b, error), b)
  }

  // ---- Preservation ----

  lemma DoneOneKeepsWaiting(s: State, b: Id, q: Id)
    requires b in s.bios && s.bios[b].end == 0
    ensures Waiting(Ended(s, b), q) == if s.bios[b].parent == Some(q) then Waiting(s, q) - {b} else Waiting(s, q)
    ensures s.bios[b].parent == Some(q) ==> b in Waiting(s, q)
  {
  }

  /** The bio that ends has nothing left to wait for. */
  lemma EndingIsDone(s: State, b: Id)
    requires InvBut(s, Some(b)) && b in s.bios && s.bios[b].end == 0
    requires !s.bios[b].chain || s.bios[b].remaining == 1
    ensures s.bios[b].own && Waiting(s, b) == {}
  {
    assert Counted(s, b, Some(b));
  }

  lemma EndedCounted(s: State, b: Id, q: Id)
    requires InvBut(s, Some(b)) && b in s.bios && s.bios[b].end == 0 && q in s.bios
    requires !s.bios[b].chain || s.bios[b].remaining == 1
    ensures Counted(Ended(s, b), q, s.bios[b].parent)
  {
    hide Waiting, Linked, Blamed, CallsOk;
    assert Counted(s, q, Some(b));
    DoneOneKeepsWaiting(s, b, q);
  }

  lemma EndedLinked(s: State, b: Id, q: Id)
    requires InvBut(s, Some(b)) && b in s.bios && s.bios[b].end == 0 && q in s.bios
    requires !s.bios[b].chain || s.bios[b].remaining == 1
    ensures Linked(Ended(s, b), q)
  {
    hide Counted, Blamed, CallsOk;
    EndingIsDone(s, b);
    assert Linked(s, q) && Linked(s, b);
    assert q in Waiting(s, b) <==> s.bios[q].parent == Some(b) && s.bios[q].end == 0;
  }

  lemma EndedBlamed(s: State, b: Id, q: Id)
    requires InvBut(s, Some(b)) && b in s.bios && s.bios[b].end == 0 && q in s.bios
    ensures Blamed(Ended(s, b), q)
  {
    hide Counted, CallsOk, Waiting;
    var t := Ended(s, b);
    assert Linked(s, b) && Blamed(s, q);
    forall c | Blames(s, q, c)
      ensures Blames(t, q, c)
    {
    }
    if s.bios[b].parent == Some(q) && s.bios[b].error != 0 && q != b {
      assert Blames(t, q, b);
    }
    forall c | Blames(t, q, c)
      ensures t.bios[q].error != 0
    {
      if c != b {
        assert Linked(s, c);
        assert Blames(s, q, c);
      }
    }
  }

  lemma EndedCalls(s: State, b: Id)
    requires CallsOk(s) && b in s.bios && s.bios[b].end == 0 && Linked(s, b)
    ensures CallsOk(Ended(s, b))
  {
    var t := Ended(s, b);
    forall i | 0 <= i < |t.calls|
      ensures CallOk(t, t.calls[i])
    {
      if i < |s.calls| {
        assert CallOk(s, s.calls[i]);
      }
    }
    forall q | q in t.bios && t.bios[q].end > 0 && t.bios[q].endIo
      ensures (q, t.bios[q].error) in t.calls
    {
      if q == b {
        assert t.calls[|s.calls|] == (b, s.bios[b].error);
      } else {
        assert (q, s.bios[q].error) in s.calls;
      }
    }
  }

  lemma EndedKeeps(s: State, b: Id)
    requires InvBut(s, Some(b)) && b in s.bios && s.bios[b].end == 0
    requires !s.bios[b].chain || s.bios[b].remaining == 1
    ensures InvBut(Ended(s, b), s.bios[b].parent)
  {
    hide Counted, Linked, Blamed, CallsOk;
    var t := Ended(s, b);
    forall q | q in t.bios
      ensures Counted(t, q, s.bios[b].parent) && Linked(t, q) && Blamed(t, q)
    {
      EndedCounted(s, b, q);
      EndedLinked(s, b, q);
      EndedBlamed(s, b, q);
    }
    EndedCalls(s, b);
  }

  lemma CountDownCounted(s: State, b: Id, q: Id)
    requires b in s.bios && s.bios[b].chain && s.bios[b].remaining > 1
    requires q in s.bios && Counted(s, q, Some(b))
    ensures Counted(WithRemaining(s, b, s.bios[b].remaining - 1), q, None)
  {
    var t := WithRemaining(s, b, s.bios[b].remaining - 1);
    assert Waiting(t, q) == Waiting(s, q);
  }

  lemma CountDownKeeps(s: State, b: Id)
    requires InvBut(s, Some(b)) && b in s.bios && s.bios[b].end == 0
    requires s.bios[b].chain && s.bios[b].remaining != 1
    ensures Inv(WithRemaining(s, b, s.bios[b].remaining - 1))
  {
    hide Waiting, Blamed, CallsOk;
    var t := WithRemaining(s, b, s.bios[b].remaining - 1);
    assert Counted(s, b, Some(b));
    forall q | q in t.bios
      ensures Counted(t, q, None) && Linked(t, q) && Blamed(t, q)
    {
      assert Counted(s, q, Some(b)) && Linked(s, q) && Blamed(s, q);
      CountDownCounted(s, b, q);
      SameBlame(s, t, q);
    }
    SameCalls(s, t);
  }

  /** States that differ only in counters. */
  ghost predicate SameHistory(s: State, t: State) {
    && t.bios.Keys == s.bios.Keys && t.calls == s.calls
    && forall q :: q in s.bios ==>
      t.bios[q] == s.bios[q].(remaining := t.bios[q].remaining, chain := t.bios[q].chain)
  }

  lemma SameBlame(s: State, t: State, q: Id)
    requires SameHistory(s, t) && q in s.bios && Blamed(s, q)
    ensures Blamed(t, q)
  {
    forall c
      ensures Blames(s, q, c) <==> Blames(t, q, c)
    {
    }
  }

  lemma SameCalls(s: State, t: State)
    requires SameHistory(s, t) && CallsOk(s)
    ensures CallsOk(t)
  {
    forall i | 0 <= i < |t.calls|
      ensures CallOk(t, t.calls[i])
    {
      assert CallOk(s, s.calls[i]);
    }
  }

  /** The walk up the chain only meets bios that have not ended, and restores the invariant. */
  lemma {:induction false} EndIoKeeps(s: State, b: Id)
    requires InvBut(s, Some(b)) && b in s.bios && s.bios[b].end == 0
    ensures Inv(EndIo(s, b)) && EndIo(s, b).bios.Keys == s.bios.Keys
    decreases Live(s)
  {
    hide Counted, Blamed, CallsOk, Live;
    if s.bios[b].chain && s.bios[b].remaining != 1 {
      CountDownKeeps(s, b);
    } else {
      EndedKeeps(s, b);
      EndedShrinksLive(s, b);
      if s.bios[b].parent.Some? {
        assert Linked(s, b);
        EndIoKeeps(Ended(s, b), s.bios[b].parent.value);
      }
    }
  }

  lemma ReportedOne(s: State, b: Id, error: int, q: Id)
    requires b in s.bios && !s.bios[b].own && s.bios[b].end == 0 && q in s.bios
    requires Counted(s, q, None) && Linked(s, q) && Blamed(s, q)
    ensures var t := Reported(s, b, error); Counted(t, q, Some(b)) && Linked(t, q) && Blamed(t, q)
  {
    var t := Reported(s, b, error);
    assert Waiting(t, q) == Waiting(s, q);
    forall c
      ensures Blames(s, q, c) <==> Blames(t, q, c)
    {
    }
  }

  lemma ReportedKeeps(s: State, b: Id, error: int)
    requires Inv(s) && b in s.bios && !s.bios[b].own
    ensures InvBut(Reported(s, b, error), Some(b)) && s.bios[b].end == 0
  {
    hide Counted, Blamed, CallsOk;
    var t := Reported(s, b, error);
    assert Linked(s, b);
    forall q | q in t.bios
      ensures Counted(t, q, Some(b)) && Linked(t, q) && Blamed(t, q)
    {
      ReportedOne(s, b, error, q);
    }
    ReportedCalls(s, b, error);
  }

  lemma ReportedCalls(s: State, b: Id, error: int)
    requires CallsOk(s) && b in s.bios && s.bios[b].end == 0
    ensures CallsOk(Reported(s, b, error))
  {
    var t := Reported(s, b, error);
    forall i | 0 <= i < |t.calls|
      ensures CallOk(t, t.calls[i])
    {
      assert CallOk(s, s.calls[i]);
    }
  }

  lemma ChainedCounted(s: State, b: Id, p: Id, q: Id)
    requires b in s.bios && p in s.bios && q in s.bios && s.bios[b].end == 0 && s.bios[b].parent.None?
    requires Counted(s, q, None)
    ensures Counted(Chained(s, b, p), q, None)
  {
    var t := Chained(s, b, p);
    assert b !in Waiting(s, q);
    assert Waiting(t, q) == if q == p then Waiting(s, p) + {b} else Waiting(s, q);
  }

  lemma ChainedOthers(s: State, b: Id, p: Id, q: Id)
    requires b in s.bios && p in s.bios && q in s.bios && s.bios[b].end == 0 && s.bios[p].end == 0
    requires s.bios[b].parent.None? && !s.bios[b].endIo
    requires Linked(s, q) && Blamed(s, q)
    ensures Linked(Chained(s, b, p), q) && Blamed(Chained(s, b, p), q)
  {
    forall c
      ensures Blames(s, q, c) <==> Blames(Chained(s, b, p), q, c)
    {
    }
  }

  lemma ChainedCalls(s: State, b: Id, p: Id)
    requires b in s.bios && p in s.bios && CallsOk(s)
    ensures CallsOk(Chained(s, b, p))
  {
    var t := Chained(s, b, p);
    forall i | 0 <= i < |t.calls|
      ensures CallOk(t, t.calls[i])
    {
      assert CallOk(s, s.calls[i]);
    }
  }

  lemma ChainedKeeps(s: State, b: Id, p: Id)
    requires Inv(s) && b in s.bios && p in s.bios
    requires s.bios[b].parent.None? && !s.bios[b].endIo && s.bios[b].end == 0 && s.bios[p].end == 0
    ensures Inv(Chained(s, b, p))
  {
    hide Counted, Linked, Blamed, CallsOk;
    var t := Chained(s, b, p);
    forall q | q in t.bios
      ensures Counted(t, q, None) && Linked(t, q) && Blamed(t, q)
    {
      ChainedCounted(s, b, p, q);
      ChainedOthers(s, b, p, q);
    }
    ChainedCalls(s, b, p);
  }

  lemma AllocKeeps(s: State, b: Id, endIo: bool)
    requires Inv(s) && b !in s.bios
    ensures Inv(s.(bios := s.bios[b := NewBio(endIo)]))
  {
    var t := s.(bios := s.bios[b := NewBio(endIo)]);
    forall q | q in s.bios
      ensures s.bios[q].parent != Some(b)
    {
      assert Linked(s, q);
    }
    forall q | q in t.bios
      ensures Counted(t, q, None) && Linked(t, q) && Blamed(t, q)
    {
      assert Waiting(t, q) == if q == b then {} else Waiting(s, q);
      if q != b {
        assert Counted(s, q, None) && Linked(s, q) && Blamed(s, q);
      }
      forall c
        ensures Blames(t, q, c) <==> q != b && Blames(s, q, c)
      {
      }
    }
    forall i | 0 <= i < |t.calls|
      ensures CallOk(t, t.calls[i])
    {
      assert CallOk(s, s.calls[i]);
    }
  }

  // ---- Runs ----

  datatype Event = Alloc(b: Id, endIo: bool) | Chain(b: Id, p: Id) | Report(b: Id, error: int)

  /** The callers' side: bios are chained before they end and are reported once; the child is bare, as bio_chain insists. */
  predicate Enabled(s: State, e: Event) {
    match e
    case Alloc(b, _) => b !in s.bios
    case Chain(b, p) =>
      && b in s.bios && p in s.bios && s.bios[b].end == 0 && s.bios[p].end == 0
      && s.bios[b].parent.None? && !s.bios[b].endIo
    case Report(b, _) => b in s.bios && !s.bios[b].own
  }

  function Apply(s: State, e: Event): State
    requires Enabled(s, e)
  {
    match e
    case Alloc(b, endIo) => s.(bios := s.bios[b := NewBio(endIo)])
    case Chain(b, p) => Chained(s, b, p)
    case Report(b, error) => Complete(s, b, error)
  }

  ghost predicate IsRun(states: seq<State>, events: seq<Event>) {
    && |states| == |events| + 1
    && states[0] == State(map[], 0, [])
    && forall i :: 0 <= i < |events| ==> Enabled(states[i], events[i]) && states[i + 1] == Apply(states[i], events[i])
  }

  lemma {:induction false} RunInv(states: seq<State>, events: seq<Event>, i: nat)
    requires IsRun(states, events) && i < |states|
    ensures Inv(states[i])
  {
    hide Inv, EndIo, Chained, Reported;
    if i == 0 {
      EmptyInv();
    } else {
      var s, e := states[i - 1], events[i - 1];
      RunInv(states, events, i - 1);
      match e
      case Alloc(b, endIo) =>
        AllocKeeps(s, b, endIo);
      case Chain(b, p) =>
        ChainedKeeps(s, b, p);
      case Report(b, error) =>
        ReportedKeeps(s, b, error);
        ReportedFields(s, b, error);
        EndIoKeeps(Reported(s, b, error), b);
    }
  }

  lemma EmptyInv()
    ensures Inv(State(map[], 0, []))
  {
  }

  lemma ReportedFields(s: State, b: Id, error: int)
    requires b in s.bios
    ensures b in Reported(s, b, error).bios && Reported(s, b, error).bios[b].end == s.bios[b].end
  {
  }

  // ---- What the owner learns ----

  /** A way up the chain of parents that arrives at `b`. */
  ghost predicate PathTo(s: State, ps: seq<Id>, b: Id) {
    && |ps| > 0 && ps[|ps| - 1] == b
    && (forall i :: 0 <= i < |ps| ==> ps[i] in s.bios)
    && forall i :: 0 <= i < |ps| - 1 ==> s.bios[ps[i]].parent == Some(ps[i + 1])
  }

  lemma PathTail(s: State, ps: seq<Id>, b: Id)
    requires PathTo(s, ps, b) && |ps| > 1
    ensures PathTo(s, ps[1..], b) && s.bios[ps[0]].parent == Some(ps[1])
  {
    var qs := ps[1..];
    forall i | 0 <= i < |qs| - 1
      ensures s.bios[qs[i]].parent == Some(qs[i + 1])
    {
      assert s.bios[ps[i + 1]].parent == Some(ps[i + 2]);
    }
    assert s.bios[ps[0]].parent == Some(ps[1]);
  }

  /** Nothing in the tree below a bio ends after it, and an error anywhere in the tree reaches it. */
  lemma {:induction false} TreeEndsFirst(s: State, ps: seq<Id>, b: Id)
    requires Inv(s) && PathTo(s, ps, b) && s.bios[b].end > 0
    ensures s.bios[ps[0]].own && 0 < s.bios[ps[0]].end <= s.bios[b].end
    ensures s.bios[ps[0]].error != 0 ==> s.bios[b].error != 0
  {
    assert Linked(s, ps[0]);
    if |ps| > 1 {
      PathTail(s, ps, b);
      TreeEndsFirst(s, ps[1..], b);
      assert Blamed(s, ps[1]);
      assert s.bios[ps[0]].error != 0 ==> Blames(s, ps[1], ps[0]);
    }
  }

  /** An error has a cause: a bio in the tree whose own I/O failed. */
  lemma {:induction false} ErrorHasCause(s: State, b: Id) returns (ps: seq<Id>)
    requires Inv(s) && b in s.bios && s.bios[b].error != 0
    ensures PathTo(s, ps, b) && s.bios[ps[0]].failed
    decreases if s.bios[b].end == 0 then s.clock + 1 else s.bios[b].end
  {
    if s.bios[b].failed {
      ps := [b];
    } else {
      assert Blamed(s, b);
      var c :| Blames(s, b, c);
      assert Linked(s, c);
      var qs := ErrorHasCause(s, c);
      ps := qs + [b];
      forall i | 0 <= i < |ps| - 1
        ensures s.bios[ps[i]].parent == Some(ps[i + 1])
      {
        if i < |qs| - 1 {
          assert s.bios[qs[i]].parent == Some(qs[i + 1]);
        }
      }
    }
  }

  lemma FailureIsError(s: State, b: Id)
    requires Inv(s) && b in s.bios && s.bios[b].failed
    ensures s.bios[b].error != 0
  {
    assert Blamed(s, b);
  }

  /** The error of a bio that ended is non-zero exactly when some I/O in its tree failed. */
  lemma ErrorMeansFailure(s: State, b: Id)
    requires Inv(s) && b in s.bios && s.bios[b].end > 0
    ensures s.bios[b].error != 0 <==> exists ps :: PathTo(s, ps, b) && s.bios[ps[0]].failed
  {
    hide Inv;
    if s.bios[b].error != 0 {
      var ps := ErrorHasCause(s, b);
    }
    forall ps | PathTo(s, ps, b) && s.bios[ps[0]].failed
      ensures s.bios[b].error != 0
    {
      FailureIsError(s, ps[0]);
      TreeEndsFirst(s, ps, b);
    }
  }

  /** Bios are not chained in a circle. */
  ghost predicate Ranked(s: State, rank: map<Id, nat>) {
    && rank.Keys == s.bios.Keys
    && forall b :: b in s.bios && s.bios[b].parent.Some? && s.bios[b].parent.value in rank ==> rank[b] < rank[s.bios[b].parent.value]
  }

  lemma {:induction false} DoneTreeEnds(s: State, b: Id, rank: map<Id, nat>)
    requires Inv(s) && Ranked(s, rank) && b in s.bios
    requires forall ps :: PathTo(s, ps, b) ==> s.bios[ps[0]].own
    ensures s.bios[b].end > 0
    decreases rank[b]
  {
    assert PathTo(s, [b], b);
    assert s.bios[b].own;
    forall c | c in s.bios && s.bios[c].parent == Some(b)
      ensures s.bios[c].end > 0
    {
      forall ps | PathTo(s, ps, c)
        ensures s.bios[ps[0]].own
      {
        PathGrows(s, ps, c, b);
        assert (ps + [b])[0] == ps[0];
      }
      DoneTreeEnds(s, c, rank);
    }
    assert Waiting(s, b) == {};
    assert Counted(s, b, None);
  }

  lemma PathGrows(s: State, ps: seq<Id>, c: Id, b: Id)
    requires PathTo(s, ps, c) && b in s.bios && s.bios[c].parent == Some(b)
    ensures PathTo(s, ps + [b], b)
  {
    var qs := ps + [b];
    forall i | 0 <= i < |qs| - 1
      ensures s.bios[qs[i]].parent == Some(qs[i + 1])
    {
      if i < |ps| - 1 {
        assert s.bios[ps[i]].parent == Some(ps[i + 1]);
      }
    }
  }

  function CallsOf(calls: seq<(Id, int)>, b: Id): nat {
    if calls == [] then 0 else (if calls[0].0 == b then 1 else 0) + CallsOf(calls[1..], b)
  }

  lemma {:induction false} CallsCount(calls: seq<(Id, int)>, b: Id)
    requires forall i, j :: 0 <= i < j < |calls| ==> calls[i].0 != calls[j].0
    ensures CallsOf(calls, b) == if exists i :: 0 <= i < |calls| && calls[i].0 == b then 1 else 0
  {
    if calls != [] {
      CallsCount(calls[1..], b);
      var rest := calls[1..];
      assert forall i :: 0 <= i < |rest| ==> rest[i] == calls[i + 1];
      if exists i :: 0 <= i < |calls| && calls[i].0 == b {
        var i :| 0 <= i < |calls| && calls[i].0 == b;
        if i > 0 {
          assert rest[i - 1].0 == b;
        }
      }
    }
  }

  /**
   The owner of a tree of bios is called exactly once, exactly when all of the tree has been reported,
   whatever the order of the reports.
   */
  lemma OwnerCalledOnce(states: seq<State>, events: seq<Event>, i: nat, b: Id, rank: map<Id, nat>)
    requires IsRun(states, events) && i < |states| && b in states[i].bios && states[i].bios[b].endIo
    requires Ranked(states[i], rank)
    ensures var s := states[i];
      var done := forall ps :: PathTo(s, ps, b) ==> s.bios[ps[0]].own;
      CallsOf(s.calls, b) == (if done then 1 else 0) && (done ==> (b, s.bios[b].error) in s.calls)
  {
    hide IsRun, Counted, Blamed, Linked;
    var s := states[i];
    RunInv(states, events, i);
    if forall ps :: PathTo(s, ps, b) ==> s.bios[ps[0]].own {
      DoneTreeEnds(s, b, rank);
    }
    if s.bios[b].end > 0 {
      forall ps | PathTo(s, ps, b)
        ensures s.bios[ps[0]].own
      {
        TreeEndsFirst(s, ps, b);
      }
    }
    CallsCount(s.calls, b);
    assert forall k :: 0 <= k < |s.calls| ==> CallOk(s, s.calls[k]);
  }

  /** The bios in memory, changed in place. */
  class Bios {
    var bios: map<Id, Bio>
    var clock: nat
    var calls: seq<(Id, int)>

    ghost function View(): State
      reads this
    {
      State(bios, clock, calls)
    }

    constructor ()
      ensures View() == State(map[], 0, []) && Inv(View())
    {
      bios, clock, calls := map[], 0, [];
      new;
      EmptyInv();
    }

    /** bio_init. */
    method Init(b: Id, endIo: bool)
      requires Inv(View()) && b !in bios
      modifies this
      ensures Inv(View()) && View() == Apply(old(View()), Alloc(b, endIo))
    {
      hide Inv;
      AllocKeeps(View(), b, endIo);
      bios := bios[b := NewBio(endIo)];
    }

    /** bio_chain. */
    method ChainTo(b: Id, p: Id)
      requires Inv(View()) && Enabled(View(), Chain(b, p))
      modifies this
      ensures Inv(View()) && View() == Apply(old(View()), Chain(b, p))
    {
      hide Inv;
      ChainedKeeps(View(), b, p);
      bios := bios[b := bios[b].(parent := Some(p))];
      bios := bios[p := bios[p].(chain := true, remaining := bios[p].remaining + 1)];
    }

    /** bio_remaining_done; the counter it counts down is positive. */
    method RemainingDone(b: Id) returns (done: bool)
      requires InvBut(View(), Some(b)) && b in bios && bios[b].end == 0
      modifies this`bios
      ensures done <==> !old(bios[b].chain) || old(bios[b].remaining) == 1
      ensures !old(bios[b].chain) ==> bios == old(bios)
      ensures old(bios[b].chain) ==> bios == old(bios)[b := old(bios[b]).(remaining := old(bios[b].remaining) - 1, chain := !done)]
    {
      assert Counted(View(), b, Some(b));
      if !bios[b].chain {
        return true;
      }
      assert bios[b].remaining > 0;
      bios := bios[b := bios[b].(remaining := bios[b].remaining - 1)];
      done := bios[b].remaining == 0;
      if done {
        bios := bios[b := bios[b].(chain := false)];
      }
    }

    /** One pass of the loop of bio_endio: count down and, at zero, end the bio and name the bio to go on with. */
    method EndPass(b: Id) returns (next: Option<Id>)
      requires InvBut(View(), Some(b)) && b in bios && bios[b].end == 0
      modifies this
      ensures old(bios[b].chain && bios[b].remaining != 1) ==>
        next == None && View() == WithRemaining(old(View()), b, old(bios[b].remaining) - 1)
      ensures !old(bios[b].chain && bios[b].remaining != 1) ==> next == old(bios[b].parent) && View() == Ended(old(View()), b)
    {
      hide InvBut, EndIo, Live;
      EndIoStep(View(), b);
      var done := RemainingDone(b);
      if !done {
        return None;
      }
      bios := bios[b := bios[b].(end := clock + 1)];
      clock := clock + 1;
      next := bios[b].parent;
      if next.Some? {
        var parent := next.value;
        if bios[parent].error == 0 {
          bios := bios[parent := bios[parent].(error := bios[b].error)];
        }
      } else if bios[b].endIo {
        calls := calls + [(b, bios[b].error)];
      }
    }

    /** bio_endio. */
    method EndBio(first: Id)
      requires InvBut(View(), Some(first)) && first in bios && bios[first].end == 0
      modifies this
      ensures Inv(View()) && View() == EndIo(old(View()), first)
    {
      hide Inv, InvBut, EndIo, Ended, WithRemaining, Live;
      ghost var result := EndIo(View(), first);
      EndIoKeeps(View(), first);
      var b := Some(first);
      while b.Some?
        invariant b.Some? ==>
          b.value in bios && bios[b.value].end == 0 && InvBut(View(), b) && EndIo(View(), b.value) == result
        invariant b.None? ==> View() == result
        decreases b.Some?, Live(View())
      {
        EndIoStep(View(), b.value);
        b := EndPass(b.value);
      }
    }

    /** The completion of a bio's own I/O, as req_bio_endio does it. */
    method ReportBio(b: Id, error: int)
      requires Inv(View()) && b in bios && !bios[b].own
      modifies this
      ensures Inv(View()) && View() == Apply(old(View()), Report(b, error))
    {
      hide Inv, InvBut, EndIo;
      ReportedKeeps(View(), b, error);
      if error != 0 {
        bios := bios[b := bios[b].(error := error)];
      }
      bios := bios[b := bios[b].(own := true, failed := error != 0)];
      assert View() == Reported(old(View()), b, error);
      EndBio(b);
    }
  }

  lemma EndIoStep(s: State, b: Id)
    requires InvBut(s, Some(b)) && b in s.bios && s.bios[b].end == 0
    ensures s.bios[b].chain && s.bios[b].remaining != 1 ==> EndIo(s, b) == WithRemaining(s, b, s.bios[b].remaining - 1)
    ensures (!s.bios[b].chain || s.bios[b].remaining == 1) && s.bios[b].parent.None? ==> EndIo(s, b) == Ended(s, b)
    ensures (!s.bios[b].chain || s.bios[b].remaining == 1) && s.bios[b].parent.Some? ==>
      var p := s.bios[b].parent.value;
      && p in s.bios && p != b && InvBut(Ended(s, b), Some(p)) && s.bios[p].end == 0 && p in Ended(s, b).bios
      && Ended(s, b).bios[p].end == 0 && EndIo(s, b) == EndIo(Ended(s, b), p)
      && Live(Ended(s, b)) < Live(s)
  {
    hide Counted, Blamed, CallsOk;
    assert Linked(s, b);
    if !s.bios[b].chain || s.bios[b].remaining == 1 {
      EndedKeeps(s, b);
      EndedShrinksLive(s, b);
      EndingIsDone(s, b);
      assert b in Waiting(s, b) <==> s.bios[b].parent == Some(b);
    }
  }
}
