/** Where the error comes from that the owner of a tree of chained bios is told. */
module BioErrors {
  import opened Options
  import opened BioChain

  /** `b` has its error from the child `c`, which has ended. */
  ghost predicate From(s: State, b: Id, c: Id) {
    Blames(s, b, c) && s.bios[c].error == s.bios[b].error
  }

  /** The error of `b` was reported for its own I/O, or is that of a child. */
  ghost predicate Sourced(s: State, events: set<Event>, b: Id)
    requires b in s.bios
  {
    s.bios[b].error != 0 ==> Report(b, s.bios[b].error) in events || exists c :: From(s, b, c)
  }

  ghost predicate AllSourced(s: State, events: set<Event>) {
    forall b :: b in s.bios ==> Sourced(s, events, b)
  }

  /** Errors, parents and ends are as before, but for bios that had no error or are new. */
  lemma SourcedFrame(s: State, t: State, events: set<Event>, events': set<Event>)
    requires AllSourced(s, events) && events <= events'
    requires forall b :: b in s.bios ==> b in t.bios && (s.bios[b].end > 0 ==> t.bios[b] == s.bios[b])
    requires forall b :: b in t.bios && t.bios[b].error != 0 ==>
               (b in s.bios && t.bios[b].error == s.bios[b].error) || Report(b, t.bios[b].error) in events'
    ensures AllSourced(t, events')
  {
    forall b | b in t.bios && t.bios[b].error != 0 && Report(b, t.bios[b].error) !in events'
      ensures exists c :: From(t, b, c)
    {
      assert Sourced(s, events, b);
      var c :| From(s, b, c);
      assert From(t, b, c);
    }
  }

  lemma EndedSourced(s: State, events: set<Event>, b: Id)
    requires b in s.bios && s.bios[b].end == 0 && Linked(s, b) && AllSourced(s, events)
    ensures AllSourced(Ended(s, b), events)
  {
    var t := Ended(s, b);
    forall x | x in t.bios && t.bios[x].error != 0 && Report(x, t.bios[x].error) !in events
      ensures exists c :: From(t, x, c)
    {
      if s.bios[x].error != 0 {
        assert Sourced(s, events, x);
        var c :| From(s, x, c);
        assert From(t, x, c);
      } else {
        assert From(t, x, b);
      }
    }
  }

  lemma {:induction false} EndIoSourced(s: State, events: set<Event>, b: Id)
    requires InvBut(s, Some(b)) && b in s.bios && s.bios[b].end == 0 && AllSourced(s, events)
    ensures AllSourced(EndIo(s, b), events)
    decreases Live(s)
  {
    hide Counted, Blamed, CallsOk, Live, AllSourced;
    assert Linked(s, b);
    if s.bios[b].chain && s.bios[b].remaining != 1 {
      CountDownSourced(s, events, b);
    } else {
      EndedKeeps(s, b);
      EndedSourced(s, events, b);
      EndedShrinksLive(s, b);
      if s.bios[b].parent.Some? {
        EndIoSourced(Ended(s, b), events, s.bios[b].parent.value);
      }
    }
  }

  lemma CountDownSourced(s: State, events: set<Event>, b: Id)
    requires b in s.bios && AllSourced(s, events)
    ensures AllSourced(WithRemaining(s, b, s.bios[b].remaining - 1), events)
  {
    var t := WithRemaining(s, b, s.bios[b].remaining - 1);
    forall x | x in t.bios && t.bios[x].error != 0 && Report(x, t.bios[x].error) !in events
      ensures exists c :: From(t, x, c)
    {
      assert Sourced(s, events, x);
      var c :| From(s, x, c);
      assert From(t, x, c);
    }
  }

  lemma ReportSourced(s: State, events: set<Event>, b: Id, error: int)
    requires Inv(s) && b in s.bios && !s.bios[b].own && AllSourced(s, events)
    ensures AllSourced(Complete(s, b, error), events + {Report(b, error)})
  {
    hide Counted, Blamed, CallsOk, EndIo;
    ReportedKeeps(s, b, error);
    var r := Reported(s, b, error);
    SourcedFrame(s, r, events, events + {Report(b, error)});
    EndIoSourced(r, events + {Report(b, error)}, b);
  }

  function Happened(events: seq<Event>): set<Event> {
    set e | e in events
  }

  lemma {:induction false} RunSourced(states: seq<State>, events: seq<Event>, i: nat)
    requires IsRun(states, events) && i < |states|
    ensures AllSourced(states[i], Happened(events[..i]))
  {
    hide Inv, Apply, Sourced;
    if i > 0 {
      var s, e, now := states[i - 1], events[i - 1], Happened(events[..i - 1]);
      RunSourced(states, events, i - 1);
      RunInv(states, events, i - 1);
      assert events[..i] == events[..i - 1] + [e];
      assert Happened(events[..i]) == now + {e};
      assert Enabled(s, e) && states[i] == Apply(s, e);
      StepSourced(s, e, now);
    }
  }

  lemma StepSourced(s: State, e: Event, now: set<Event>)
    requires Inv(s) && Enabled(s, e) && AllSourced(s, now)
    ensures AllSourced(Apply(s, e), now + {e})
  {
    hide Inv, EndIo;
    match e
    case Alloc(b, endIo) => SourcedFrame(s, Apply(s, e), now, now + {e});
    case Chain(b, p) => SourcedFrame(s, Apply(s, e), now, now + {e});
    case Report(b, error) => ReportSourced(s, now, b, error);
  }

  /** An error is that of a bio further down, for whose own I/O it was reported. */
  lemma {:induction false} ErrorHasReport(s: State, events: set<Event>, b: Id) returns (ps: seq<Id>)
    requires Inv(s) && AllSourced(s, events) && b in s.bios && s.bios[b].error != 0
    ensures PathTo(s, ps, b) && Report(ps[0], s.bios[b].error) in events
    decreases if s.bios[b].end == 0 then s.clock + 1 else s.bios[b].end
  {
    hide Counted, Blamed, CallsOk;
    if Report(b, s.bios[b].error) in events {
      ps := [b];
    } else {
      assert Sourced(s, events, b);
      var c :| From(s, b, c);
      assert Linked(s, c) && Linked(s, b);
      var qs := ErrorHasReport(s, events, c);
      ps := qs + [b];
      PathGrows(s, qs, c, b);
    }
  }

  /**
   In every run, an error that a bio carries, and that its owner is told, is one that was reported for a bio of
   its tree.
   */
  lemma ErrorWasReported(states: seq<State>, events: seq<Event>, i: nat, b: Id) returns (ps: seq<Id>, k: nat)
    requires IsRun(states, events) && i < |states| && b in states[i].bios && states[i].bios[b].error != 0
    ensures PathTo(states[i], ps, b) && k < i && events[k] == Report(ps[0], states[i].bios[b].error)
  {
    hide IsRun, Inv;
    RunLength(states, events);
    RunInv(states, events, i);
    RunSourced(states, events, i);
    ps := ErrorHasReport(states[i], Happened(events[..i]), b);
    var e := Report(ps[0], states[i].bios[b].error);
    assert e in events[..i];
    k :| 0 <= k < i && events[k] == e;
  }

  lemma RunLength(states: seq<State>, events: seq<Event>)
    requires IsRun(states, events)
    ensures |states| == |events| + 1
  {
  }

  // ---- the first error stays ----

  lemma {:induction false} EndIoSticks(s: State, b: Id, x: Id)
    requires x in s.bios && s.bios[x].error != 0
    ensures x in EndIo(s, b).bios && EndIo(s, b).bios[x].error == s.bios[x].error
    decreases Live(s)
  {
    hide Live;
    if b in s.bios && s.bios[b].end == 0 && !(s.bios[b].chain && s.bios[b].remaining != 1) {
      EndedShrinksLive(s, b);
      if s.bios[b].parent.Some? {
        EndIoSticks(Ended(s, b), s.bios[b].parent.value, x);
      }
    }
  }

  /** Once a bio carries an error, only a failure of its own I/O replaces it. */
  lemma ErrorsStay(s: State, e: Event, x: Id)
    requires Enabled(s, e) && x in s.bios && s.bios[x].error != 0 && !(e.Report? && e.b == x && e.error != 0)
    ensures x in Apply(s, e).bios && Apply(s, e).bios[x].error == s.bios[x].error
  {
    if e.Report? {
      EndIoSticks(Reported(s, e.b, e.error), e.b, x);
    }
  }
}
