/** The acknowledged flags that badblocks_set leaves. */
module BadBlockFlags {
  import opened Arithmetic
  import opened BadBlockRanges

  // ---- what a flag may say ----

  /** `r` has a sector that was unacknowledged before, or is recorded as such now. */
  ghost predicate HasUnacked(t: Table, r: Range, s: int, e: int, ack: bool) {
    exists y :: r.Has(y) && (BadAs(t, y, false) || (s <= y < e && !ack))
  }

  /**
   The flag of a range after s..e was recorded with `ack`.  All sectors of an acknowledged range were
   acknowledged before, or are now; and none of them is in an unacknowledged s..e, unless the range was full
   before and stays as it was.  A range that is not acknowledged has a sector that is not.
   */
  ghost predicate FairFlag(t: Table, r: Range, s: int, e: int, ack: bool) {
    && (r.ack ==> forall x :: r.Has(x) ==> BadAs(t, x, true) || (ack && s <= x < e))
    && (r.ack && !ack && r.start < e && s < r.End() ==> r in t && r.len == BB_MAX_LEN)
    && (!r.ack ==> HasUnacked(t, r, s, e, ack))
  }

  ghost predicate FairFlags(t: Table, t': Table, s: int, e: int, ack: bool) {
    forall i :: 0 <= i < |t'| ==> FairFlag(t, t'[i], s, e, ack)
  }

  // ---- what a caller can check ----

  /**
   The range after the new one reaches beyond it and is too long to be merged with whole, and its tail, which
   is recorded anew, was flagged otherwise.
   */
  predicate Spills(t: Table, s: nat, n: int, ack: bool) {
    var k, e := StartsBefore(t, s + 1), s + n;
    var b := RestStart(t, s, k);
    && b < e && Meets(t, e, k) && t[k].End() > e && t[k].End() > b + BB_MAX_LEN
    && if ack then !t[k].ack else t[k].ack && e <= b + BB_MAX_LEN
  }

  /** An acknowledged range, not a full one, that meets s..e. */
  predicate Stale(r: Range, s: int, e: int, ack: bool) {
    !ack && r.ack && r.start < e && s < r.End() && r.len != BB_MAX_LEN
  }

  predicate NoneStale(t: Table, from: nat, s: int, e: int, ack: bool) {
    forall l :: from <= l < |t| ==> !Stale(t[l], s, e, ack)
  }

  /** A later acknowledged range that is passed over although it meets s..e. */
  predicate PassesOver(t: Table, s: nat, n: int, ack: bool) {
    var k, e := StartsBefore(t, s + 1), s + n;
    !NoneStale(t, if RestStart(t, s, k) < e then k + 2 else k + 1, s, e, ack)
  }

  // ---- one range ----

  lemma FlagIsUnique(t: Table, k: nat, x: int, ack: bool)
    requires WellFormed(t) && k < |t| && t[k].Has(x)
    ensures BadAs(t, x, ack) <==> t[k].ack == ack
  {
    if BadAs(t, x, ack) {
      var i :| 0 <= i < |t| && t[i].Has(x) && t[i].ack == ack;
      assert i < k ==> t[i].End() <= t[k].start;
      assert k < i ==> t[k].End() <= t[i].start;
    }
  }

  /** A range that is left alone. */
  lemma KeptIsFair(t: Table, i: nat, s: int, e: int, ack: bool)
    requires WellFormed(t) && i < |t|
    ensures FairFlag(t, t[i], s, e, ack) <==> !Stale(t[i], s, e, ack)
  {
    var r := t[i];
    if !r.ack {
      assert r.Has(r.start);
      assert BadAs(t, r.start, false);
    } else {
      forall x | r.Has(x) ensures BadAs(t, x, true) {
      }
    }
  }

  /** Range `l` of the table has a sector in `r`. */
  predicate Overlaps(t: Table, l: nat, r: Range) {
    l < |t| && r.start < t[l].End() && t[l].start < r.End()
  }

  /**
   A range made of sectors of s..e and of other sectors that were bad: acknowledged only if `ack` is set and
   so were all of these, unacknowledged only if `ack` is not set or it meets a range that was not acknowledged.
   */
  lemma PieceIsFair(t: Table, r: Range, s: int, e: int, ack: bool, l: nat)
    requires WellFormed(t) && 1 <= r.len && s < e && r.start < e && s < r.End()
    requires r.ack ==> ack && forall x :: r.Has(x) && !(s <= x < e) ==> BadAs(t, x, true)
    requires !r.ack && ack ==> Overlaps(t, l, r) && !t[l].ack
    ensures FairFlag(t, r, s, e, ack)
  {
    if !r.ack && !ack {
      var y := Max(r.start, s);
      assert r.Has(y) && s <= y < e;
    } else if !r.ack {
      var y := Max(r.start, t[l].start);
      assert r.Has(y) && t[l].Has(y) && BadAs(t, y, false);
    }
  }

  /** Ranges before index `i` and from index `j` on are left alone. */
  lemma FairParts(t: Table, t': Table, m: Table, i: nat, j: nat, s: int, e: int, ack: bool)
    requires WellFormed(t) && i <= j <= |t| && t' == t[..i] + m + t[j..]
    requires forall l :: 0 <= l < i ==> t[l].End() <= s
    ensures FairFlags(t, t', s, e, ack) <==> FairFlags(t, m, s, e, ack) && NoneStale(t, j, s, e, ack)
  {
    hide FairFlag;
    forall l | 0 <= l < |t| ensures FairFlag(t, t[l], s, e, ack) <==> !Stale(t[l], s, e, ack) {
      KeptIsFair(t, l, s, e, ack);
    }
    if FairFlags(t, t', s, e, ack) {
      forall l | 0 <= l < |m| ensures FairFlag(t, m[l], s, e, ack) {
        assert t'[i + l] == m[l];
      }
      forall l | j <= l < |t| ensures FairFlag(t, t[l], s, e, ack) {
        assert t'[i + |m| + (l - j)] == t[l];
      }
    }
    if FairFlags(t, m, s, e, ack) && NoneStale(t, j, s, e, ack) {
      forall l | 0 <= l < |t'| ensures FairFlag(t, t'[l], s, e, ack) {
        assert t'[l] == if l < i then t[l] else if l < i + |m| then m[l - i] else t[j + (l - i - |m|)];
      }
    }
  }

  lemma FairConcat(t: Table, a: Table, b: Table, s: int, e: int, ack: bool)
    ensures FairFlags(t, a + b, s, e, ack) <==> FairFlags(t, a, s, e, ack) && FairFlags(t, b, s, e, ack)
  {
    hide FairFlag;
    assert forall i :: 0 <= i < |a| ==> (a + b)[i] == a[i];
    if FairFlags(t, a + b, s, e, ack) {
      forall i | 0 <= i < |b| ensures FairFlag(t, b[i], s, e, ack) {
        assert (a + b)[|a| + i] == b[i];
      }
    }
  }

  lemma FairOne(t: Table, r: Range, s: int, e: int, ack: bool)
    ensures FairFlags(t, [r], s, e, ack) <==> FairFlag(t, r, s, e, ack)
  {
    assert [r][0] == r;
  }

  // ---- the last range that is written, and the one joined with it ----

  /** Whether the range `p`, written before the old range `h`, is joined with it. */
  predicate Joins(t: Table, p: Range, h: nat) {
    h < |t| && t[h].start <= p.End() && t[h].End() - p.start < BB_MAX_LEN
  }

  /** The range that stands for `p` in the end, and the index of the next one. */
  function Ending(t: Table, p: Range, h: nat): Range {
    if Joins(t, p, h) then Make(p.start, t[h].End() - p.start, p.ack && t[h].ack) else p
  }

  function After(t: Table, p: Range, h: nat): nat {
    if Joins(t, p, h) then h + 1 else h
  }

  lemma CombineShape(t: Table, x: Table, p: Range, h: nat)
    requires h <= |t|
    ensures var c := Cursor(x + [p] + t[h..], p.End(), 0, |x|, |x| + 1);
            Combine(c).n == 0 && 0 <= Combine(c).hi && After(t, p, h) <= |t| &&
            Combine(c).t == x + [Ending(t, p, h)] + t[After(t, p, h)..]
  {
    var z := t[h..];
    var c := Cursor(x + [p] + z, p.End(), 0, |x|, |x| + 1);
    if h < |t| {
      assert z[0] == t[h] && z[1..] == t[h + 1..];
      assert c.t[c.lo] == p && c.t[c.hi] == z[0];
      if Joins(t, p, h) {
        assert x + [p] + z == x + [p] + [z[0]] + z[1..];
        CombinedTable(x, p, z[0], z[1..], c);
      }
    }
  }

  /** `p` holds sectors of s..e and of the old range `l`, if there is one, and is flagged by these. */
  ghost predicate MadeOf(t: Table, p: Range, l: nat, s: int, e: int, ack: bool) {
    && 1 <= p.len && s < e && p.start < e && s < p.End()
    && (p.ack ==> ack && forall x :: p.Has(x) && !(s <= x < e) ==> BadAs(t, x, true))
    && (!p.ack && ack ==> Overlaps(t, l, p) && !t[l].ack)
  }

  lemma EndingIsFair(t: Table, p: Range, l: nat, h: nat, s: int, e: int, ack: bool)
    requires WellFormed(t) && h <= |t| && MadeOf(t, p, l, s, e, ack) && e <= p.End() && (l < |t| ==> l < h)
    requires NextOk(t, p.start, p.End(), h) && (h < |t| ==> t[h].start > s)
    ensures FairFlag(t, Ending(t, p, h), s, e, ack)
    ensures NoneStale(t, After(t, p, h), s, e, ack) <==> NoneStale(t, h + 1, s, e, ack)
  {
    hide FairFlag;
    if Joins(t, p, h) {
      JoinedIsFair(t, p, Ending(t, p, h), l, h, s, e, ack);
    } else {
      PieceIsFair(t, p, s, e, ack, l);
      assert h < |t| ==> t[h].start >= e;
    }
  }

  lemma JoinedIsFair(t: Table, p: Range, r: Range, l: nat, h: nat, s: int, e: int, ack: bool)
    requires WellFormed(t) && h < |t| && MadeOf(t, p, l, s, e, ack) && e <= p.End() && (l < |t| ==> l < h)
    requires r == Range(p.start, t[h].End() - p.start, p.ack && t[h].ack) && r.len >= 1
    requires t[h].start <= p.End() && t[h].start > s
    ensures FairFlag(t, r, s, e, ack)
  {
    hide FairFlag;
    if r.ack {
      forall x | r.Has(x) && !(s <= x < e) ensures BadAs(t, x, true) {
        if !p.Has(x) {
          assert t[h].Has(x);
        }
      }
    }
    if !p.ack && ack {
      assert t[l].End() <= t[h].start;
      PieceIsFair(t, r, s, e, ack, l);
    } else {
      PieceIsFair(t, r, s, e, ack, h);
    }
  }

  // ---- the range before the new one ----

  /** The range before the new one, merged with it up to `len` sectors. */
  function Grown(q: Range, s: int, e: int, len: int, ack: bool): Range {
    Range(q.start, len, if s == q.start && e >= q.End() then ack else q.ack && ack)
  }

  lemma GrownIsMade(t: Table, s: nat, e: int, k: nat, len: int, ack: bool)
    requires WellFormed(t) && s < e && 0 < k <= |t| && t[k - 1].start <= s <= t[k - 1].End()
    requires t[k - 1].start + len <= Max(t[k - 1].End(), e) && s < t[k - 1].start + len && 1 <= len
    ensures MadeOf(t, Grown(t[k - 1], s, e, len, ack), k - 1, s, e, ack)
  {
    var q, p := t[k - 1], Grown(t[k - 1], s, e, len, ack);
    if p.ack {
      forall x | p.Has(x) && !(s <= x < e) ensures BadAs(t, x, true) {
        assert t[k - 1].Has(x);
      }
    }
  }

  /** Where the ranges around `s` are. */
  lemma Around(t: Table, s: nat, k: nat)
    requires WellFormed(t) && k == StartsBefore(t, s + 1)
    ensures k > 0 ==> t[k - 1].start <= s && 1 <= t[k - 1].len <= BB_MAX_LEN
    ensures k < |t| ==> t[k].start > s
    ensures k + 1 < |t| ==> t[k + 1].start > s
    ensures forall l :: 0 <= l < k - 1 ==> t[l].End() <= s
  {
    StartsBeforeSplits(t, s + 1);
    forall l | 0 <= l < k - 1 ensures t[l].End() <= s {
      assert t[l].End() <= t[k - 1].start;
    }
  }

  lemma FitsShape(t: Table, s: nat, n: int, k: nat, ack: bool, p: Range)
    requires WellFormed(t) && n >= 1 && 0 < k == StartsBefore(t, s + 1) && t[k - 1].End() >= s
    requires p == Grown(t[k - 1], s, s + n, Max(t[k - 1].End(), s + n) - t[k - 1].start, ack) && 1 <= p.len <= BB_MAX_LEN
    ensures After(t, p, k) <= |t| && Set(t, s, n, ack).t == t[..k - 1] + [Ending(t, p, k)] + t[After(t, p, k)..]
  {
    hide Make, Joins, Combine;
    var x, z := t[..k - 1], t[k..];
    FitsCursor(t, s, n, k, ack, p);
    assert t[k - 1 := p] == x + [p] + z;
    CombineShape(t, x, p, k);
  }

  lemma FitsCursor(t: Table, s: nat, n: int, k: nat, ack: bool, p: Range)
    requires WellFormed(t) && n >= 1 && 0 < k == StartsBefore(t, s + 1) && t[k - 1].End() >= s
    requires p == Grown(t[k - 1], s, s + n, Max(t[k - 1].End(), s + n) - t[k - 1].start, ack) && 1 <= p.len <= BB_MAX_LEN
    ensures MergePrev(Locate(t, s, n), ack) == Cursor(t[k - 1 := p], p.End(), 0, k - 1, k)
  {
  }

  /** The new range and the one before it fit into one. */
  lemma FitsFair(t: Table, s: nat, n: int, k: nat, ack: bool)
    requires WellFormed(t) && n >= 1 && Mergeable(t, s, n)
    requires 0 < k == StartsBefore(t, s + 1) && t[k - 1].End() >= s
    requires Max(t[k - 1].End(), s + n) - t[k - 1].start <= BB_MAX_LEN
    ensures FairFlags(t, Set(t, s, n, ack).t, s, s + n, ack) <==> !Spills(t, s, n, ack) && !PassesOver(t, s, n, ack)
  {
    hide WellFormed, Set, FairFlags, Mergeable, MadeOf, Ending, FairFlag, NextOk, RestOk, NoneStale;
    Around(t, s, k);
    MergeableCases(t, s, n);
    var e, q := s + n, t[k - 1];
    var p := Grown(q, s, e, Max(q.End(), e) - q.start, ack);
    FitsShape(t, s, n, k, ack, p);
    GrownIsMade(t, s, e, k, p.len, ack);
    EndingIsFair(t, p, k - 1, k, s, e, ack);
    FairOne(t, Ending(t, p, k), s, e, ack);
    FairParts(t, Set(t, s, n, ack).t, [Ending(t, p, k)], k - 1, After(t, p, k), s, e, ack);
  }

  // ---- what no earlier range can take ----

  /** The sectors b..e and the range after them, merged up to `len` sectors. */
  function Led(q: Range, b: nat, e: int, len: int, ack: bool): Range {
    Range(b, len, if q.End() <= e then ack else q.ack && ack)
  }

  /** What b..e becomes before the old range `k`, and the index of the range after it. */
  function Rest(t: Table, b: nat, e: int, k: nat, ack: bool): (Table, nat)
    requires k <= |t|
  {
    if !Meets(t, e, k) then ([Range(b, e - b, ack)], k)
    else
      var q, e' := t[k], Max(t[k].End(), e);
      if e' - b <= BB_MAX_LEN then
        var p := Led(q, b, e, e' - b, ack);
        ([Ending(t, p, k + 1)], After(t, p, k + 1))
      else
        ([Led(q, b, e, BB_MAX_LEN, ack), Range(b + BB_MAX_LEN, e' - b - BB_MAX_LEN, ack)], k + 1)
  }

  lemma RestShape(t: Table, x: Table, c: Cursor, b: nat, e: int, k: nat, ack: bool)
    requires k <= |t| && c.t == x + t[k..] && c.hi == |x| && c.s == b < e && c.n == e - b
    requires RestOk(t, b, e, k) && !FromNext(c, ack).full
    ensures var r := Rest(t, b, e, k, ack);
            r.1 <= |t| && FromNext(c, ack).t == x + r.0 + t[r.1..]
  {
    hide NextOk;
    if !Meets(t, e, k) {
      assert MergeNext(c, ack) == c && Combine(c) == c;
      hide MergeNext, Combine, InsertRest;
      AddOne(t, x, c, k, ack);
    } else if Max(t[k].End(), e) - b <= BB_MAX_LEN {
      ShortMeets(t, x, c, b, e, k, ack);
    } else {
      LongMeets(t, x, c, b, e, k, ack);
    }
  }

  lemma ShortMeets(t: Table, x: Table, c: Cursor, b: nat, e: int, k: nat, ack: bool)
    requires k < |t| && c.t == x + t[k..] && c.hi == |x| && c.s == b < e && c.n == e - b
    requires Meets(t, e, k) && Max(t[k].End(), e) - b <= BB_MAX_LEN
    ensures var r := Rest(t, b, e, k, ack);
            r.1 <= |t| && FromNext(c, ack).t == x + r.0 + t[r.1..]
  {
    var p := Led(t[k], b, e, Max(t[k].End(), e) - b, ack);
    LedCursor(t, x, c, k, p, ack);
    hide MergeNext, Combine, Led, Ending, After;
    CombineShape(t, x, p, k + 1);
  }

  lemma LongMeets(t: Table, x: Table, c: Cursor, b: nat, e: int, k: nat, ack: bool)
    requires k < |t| && c.t == x + t[k..] && c.hi == |x| && c.s == b < e && c.n == e - b
    requires Meets(t, e, k) && BB_MAX_LEN < Max(t[k].End(), e) - b <= 2 * BB_MAX_LEN && !FromNext(c, ack).full
    ensures var r := Rest(t, b, e, k, ack);
            r.1 <= |t| && FromNext(c, ack).t == x + r.0 + t[r.1..]
  {
    var p := Led(t[k], b, e, BB_MAX_LEN, ack);
    LedCursor(t, x, c, k, p, ack);
    hide MergeNext, Combine, InsertRest;
    LongShape(t, x, p, MergeNext(c, ack), Max(t[k].End(), e), k, ack);
  }

  lemma LongShape(t: Table, x: Table, p: Range, c: Cursor, e: int, k: nat, ack: bool)
    requires k < |t| && c.t == x + [p] + t[k + 1..] && c.hi == |x| + 1 && c.s == p.End() >= 0 && c.n == e - p.End()
    requires 0 < c.n <= BB_MAX_LEN && !InsertRest(Combine(c), ack).full
    ensures InsertRest(Combine(c), ack).t == x + [p, Range(p.End(), c.n, ack)] + t[k + 1..]
  {
    assert Combine(c) == c;
    hide Combine, InsertRest;
    AddOne(t, x + [p], c, k + 1, ack);
    assert x + [p] + [Range(p.End(), c.n, ack)] == x + [p, Range(p.End(), c.n, ack)];
  }

  lemma LedCursor(t: Table, x: Table, c: Cursor, k: nat, p: Range, ack: bool)
    requires k < |t| && c.t == x + t[k..] && c.hi == |x| && c.s >= 0 && c.n > 0 && t[k].start <= c.s + c.n
    requires var e := c.s + c.n; p == Led(t[k], c.s, e, Min(Max(t[k].End(), e) - c.s, BB_MAX_LEN), ack)
    ensures MergeNext(c, ack) ==
            Cursor(x + [p] + t[k + 1..], p.End(), Max(t[k].End(), c.s + c.n) - p.End(), |x|, |x| + 1)
  {
    assert c.t[c.hi] == t[k];
    assert c.t[c.hi := p] == x + [p] + t[k + 1..];
  }

  lemma AddOne(t: Table, x: Table, c: Cursor, k: nat, ack: bool)
    requires k <= |t| && c.t == x + t[k..] && c.hi == |x| && c.s >= 0 && 0 < c.n <= BB_MAX_LEN && !InsertRest(c, ack).full
    ensures InsertRest(c, ack).t == x + [Range(c.s, c.n, ack)] + t[k..]
  {
    assert c.t[..c.hi] == x && c.t[c.hi..] == t[k..];
  }

  lemma LedIsMade(t: Table, s: nat, b: nat, e: int, k: nat, len: int, ack: bool)
    requires WellFormed(t) && k < |t| && s <= b < e && t[k].start <= e && 1 <= len && b + len <= Max(t[k].End(), e)
    requires !ack || t[k].ack || t[k].End() <= e || t[k].start < b + len
    ensures MadeOf(t, Led(t[k], b, e, len, ack), k, s, e, ack)
  {
    var p := Led(t[k], b, e, len, ack);
    if p.ack {
      forall x | p.Has(x) && !(s <= x < e) ensures BadAs(t, x, true) {
        assert t[k].Has(x);
      }
    }
  }

  /** The tail of a long range, which is recorded anew. */
  lemma TailFlag(t: Table, s: nat, b: nat, e: int, k: nat, ack: bool)
    requires WellFormed(t) && k < |t| && s <= b < e && t[k].start <= e && Max(t[k].End(), e) > b + BB_MAX_LEN
    ensures var r := Range(b + BB_MAX_LEN, Max(t[k].End(), e) - b - BB_MAX_LEN, ack);
            FairFlag(t, r, s, e, ack) <==> !TailTurns(t, b, e, k, ack)
  {
    var q, r := t[k], Range(b + BB_MAX_LEN, Max(t[k].End(), e) - b - BB_MAX_LEN, ack);
    forall x | q.Has(x) ensures (BadAs(t, x, true) <==> q.ack) && (BadAs(t, x, false) <==> !q.ack) {
      FlagIsUnique(t, k, x, true);
      FlagIsUnique(t, k, x, false);
    }
    if ack {
      if q.End() > e {
        assert q.Has(q.End() - 1) && r.Has(q.End() - 1);
      }
    } else {
      assert r.Has(r.start);
    }
  }

  predicate TailTurns(t: Table, b: nat, e: int, k: nat, ack: bool)
    requires k < |t|
  {
    t[k].End() > e && if ack then !t[k].ack else t[k].ack && e <= b + BB_MAX_LEN
  }

  lemma RestFair(t: Table, s: nat, b: nat, e: int, k: nat, ack: bool)
    requires WellFormed(t) && k <= |t| && s <= b < e && (k < |t| ==> t[k].start > s) && (k + 1 < |t| ==> t[k + 1].start > s)
    requires RestOk(t, b, e, k)
    ensures var r := Rest(t, b, e, k, ack);
            FairFlags(t, r.0, s, e, ack) && NoneStale(t, r.1, s, e, ack) <==>
            !(Meets(t, e, k) && t[k].End() > b + BB_MAX_LEN && TailTurns(t, b, e, k, ack)) && NoneStale(t, k + 2, s, e, ack)
  {
    hide FairFlag, FairFlags, MadeOf, HasUnacked;
    if !Meets(t, e, k) {
      var r := Range(b, e - b, ack);
      PieceIsFair(t, r, s, e, ack, 0);
      FairOne(t, r, s, e, ack);
    } else {
      var q, e' := t[k], Max(t[k].End(), e);
      if e' - b <= BB_MAX_LEN {
        var p := Led(q, b, e, e' - b, ack);
        LedIsMade(t, s, b, e, k, e' - b, ack);
        EndingIsFair(t, p, k, k + 1, s, e, ack);
        FairOne(t, Ending(t, p, k + 1), s, e, ack);
      } else {
        LongFair(t, s, b, e, k, ack);
      }
    }
  }

  lemma LongFair(t: Table, s: nat, b: nat, e: int, k: nat, ack: bool)
    requires WellFormed(t) && k < |t| && s <= b < e && t[k].start > s && Meets(t, e, k)
    requires RestOk(t, b, e, k) && Max(t[k].End(), e) - b > BB_MAX_LEN
    ensures var r := Rest(t, b, e, k, ack);
            FairFlags(t, r.0, s, e, ack) <==> !TailTurns(t, b, e, k, ack)
    ensures NoneStale(t, k + 1, s, e, ack) && NoneStale(t, k + 2, s, e, ack)
  {
    hide FairFlag, FairFlags, HasUnacked;
    var p, r := Led(t[k], b, e, BB_MAX_LEN, ack), Range(b + BB_MAX_LEN, Max(t[k].End(), e) - b - BB_MAX_LEN, ack);
    assert forall l :: k < l < |t| ==> t[l].start >= e;
    TailFlag(t, s, b, e, k, ack);
    FairOne(t, p, s, e, ack);
    FairOne(t, r, s, e, ack);
    FairConcat(t, [p], [r], s, e, ack);
    assert [p] + [r] == [p, r];
    if !TailTurns(t, b, e, k, ack) {
      LedIsMade(t, s, b, e, k, BB_MAX_LEN, ack);
      PieceIsFair(t, p, s, e, ack, k);
    }
  }

  // ---- all ways together ----

  lemma ApartShape(t: Table, s: nat, n: int, k: nat, ack: bool)
    requires WellFormed(t) && n >= 1 && !Set(t, s, n, ack).full && RestOk(t, s, s + n, k)
    requires k == StartsBefore(t, s + 1) && (k > 0 ==> t[k - 1].End() < s)
    ensures var r := Rest(t, s, s + n, k, ack);
            k <= r.1 <= |t| && Set(t, s, n, ack).t == t[..k] + r.0 + t[r.1..]
  {
    hide WellFormed, RestOk, FromNext, Rest;
    var c := Locate(t, s, n);
    assert MergePrev(c, ack) == c;
    assert t == t[..k] + t[k..];
    hide MergePrev;
    RestShape(t, t[..k], c, s, s + n, k, ack);
    RestIndex(t, s, s + n, k, ack);
  }

  lemma RestConditions(t: Table, s: nat, n: int, k: nat, b: nat, ack: bool)
    requires k == StartsBefore(t, s + 1) && b == RestStart(t, s, k) < s + n
    ensures !Spills(t, s, n, ack) && !PassesOver(t, s, n, ack) <==>
            !(Meets(t, s + n, k) && t[k].End() > b + BB_MAX_LEN && TailTurns(t, b, s + n, k, ack)) && NoneStale(t, k + 2, s, s + n, ack)
  {
    hide NoneStale;
  }

  /** The new range touches no range before it. */
  lemma ApartFair(t: Table, s: nat, n: int, k: nat, ack: bool)
    requires WellFormed(t) && n >= 1 && Mergeable(t, s, n) && !Set(t, s, n, ack).full
    requires k == StartsBefore(t, s + 1) && (k > 0 ==> t[k - 1].End() < s)
    ensures FairFlags(t, Set(t, s, n, ack).t, s, s + n, ack) <==> !Spills(t, s, n, ack) && !PassesOver(t, s, n, ack)
  {
    hide WellFormed, FairFlags, Mergeable, RestOk, NoneStale, Set, Rest, Spills, PassesOver, TailTurns, Meets;
    Around(t, s, k);
    MergeableCases(t, s, n);
    ApartShape(t, s, n, k, ack);
    RestFair(t, s, s, s + n, k, ack);
    RestConditions(t, s, n, k, s, ack);
    var r := Rest(t, s, s + n, k, ack);
    ApartEnds(t, s, k);
    FairParts(t, Set(t, s, n, ack).t, r.0, k, r.1, s, s + n, ack);
  }

  lemma ApartEnds(t: Table, s: nat, k: nat)
    requires WellFormed(t) && k == StartsBefore(t, s + 1) && (k > 0 ==> t[k - 1].End() < s)
    ensures forall l :: 0 <= l < k ==> t[l].End() <= s
  {
    Around(t, s, k);
  }

  lemma RestIndex(t: Table, b: nat, e: int, k: nat, ack: bool)
    requires k <= |t|
    ensures Rest(t, b, e, k, ack).1 >= k
  {
  }

  /** The range before the new one, grown to its full length. */
  function Filled(q: Range, s: int, e: int, ack: bool): Range {
    if q.len == BB_MAX_LEN then q else Grown(q, s, e, BB_MAX_LEN, ack)
  }

  lemma FilledIsFair(t: Table, s: nat, e: int, k: nat, ack: bool)
    requires WellFormed(t) && s < e && 0 < k <= |t| && t[k - 1].start <= s <= t[k - 1].End() && e > t[k - 1].start + BB_MAX_LEN
    ensures FairFlag(t, Filled(t[k - 1], s, e, ack), s, e, ack)
  {
    hide FairFlag;
    if t[k - 1].len == BB_MAX_LEN {
      KeptIsFair(t, k - 1, s, e, ack);
    } else {
      GrownIsMade(t, s, e, k, BB_MAX_LEN, ack);
      PieceIsFair(t, Grown(t[k - 1], s, e, BB_MAX_LEN, ack), s, e, ack, k - 1);
    }
  }

  lemma OverflowShape(t: Table, s: nat, n: int, k: nat, ack: bool)
    requires WellFormed(t) && n >= 1 && !Set(t, s, n, ack).full
    requires 0 < k == StartsBefore(t, s + 1) && t[k - 1].End() >= s && 1 <= t[k - 1].len <= BB_MAX_LEN
    requires Max(t[k - 1].End(), s + n) - t[k - 1].start > BB_MAX_LEN && RestOk(t, t[k - 1].start + BB_MAX_LEN, s + n, k)
    ensures var r := Rest(t, t[k - 1].start + BB_MAX_LEN, s + n, k, ack);
            k <= r.1 <= |t| && Set(t, s, n, ack).t == t[..k - 1] + ([Filled(t[k - 1], s, s + n, ack)] + r.0) + t[r.1..]
  {
    hide WellFormed, RestOk, FromNext, Rest;
    var e, q, x := s + n, t[k - 1], t[..k - 1];
    var b, p := q.start + BB_MAX_LEN, Filled(q, s, e, ack);
    OverflowCursor(t, s, n, k, p, ack);
    var c := Cursor(t[k - 1 := p], p.End(), e - p.End(), k - 1, k);
    assert Set(t, s, n, ack) == FromNext(c, ack);
    hide MergePrev, Locate, Set;
    assert c.t == x + [p] + t[k..];
    RestShape(t, x + [p], c, b, e, k, ack);
    RestIndex(t, b, e, k, ack);
    var r := Rest(t, b, e, k, ack);
    assert x + [p] + r.0 == x + ([p] + r.0);
  }

  /** The new range and the one before it are too long for one range. */
  lemma OverflowFair(t: Table, s: nat, n: int, k: nat, ack: bool)
    requires WellFormed(t) && n >= 1 && Mergeable(t, s, n) && !Set(t, s, n, ack).full
    requires 0 < k == StartsBefore(t, s + 1) && t[k - 1].End() >= s
    requires Max(t[k - 1].End(), s + n) - t[k - 1].start > BB_MAX_LEN
    ensures FairFlags(t, Set(t, s, n, ack).t, s, s + n, ack) <==> !Spills(t, s, n, ack) && !PassesOver(t, s, n, ack)
  {
    hide WellFormed, FairFlags, FairFlag, Mergeable, RestOk, NoneStale, Set, Rest, Spills, PassesOver, TailTurns, Meets;
    Around(t, s, k);
    MergeableCases(t, s, n);
    var e, b := s + n, t[k - 1].start + BB_MAX_LEN;
    var p, r := Filled(t[k - 1], s, e, ack), Rest(t, b, e, k, ack);
    OverflowShape(t, s, n, k, ack);
    RestFair(t, s, b, e, k, ack);
    RestConditions(t, s, n, k, b, ack);
    FilledIsFair(t, s, e, k, ack);
    FairOne(t, p, s, e, ack);
    FairConcat(t, [p], r.0, s, e, ack);
    FairParts(t, Set(t, s, n, ack).t, [p] + r.0, k - 1, r.1, s, e, ack);
  }

  /**
   badblocks_set, where it records exactly the sectors it was asked to, leaves fair flags if and only if it
   neither spills over the end of a long range that was flagged otherwise, nor passes over an acknowledged one.
   */
  lemma SetFlagsAreFair(t: Table, s: nat, n: int, ack: bool)
    requires WellFormed(t) && n >= 1 && s + n <= MAX_SECTOR && Mergeable(t, s, n) && !Set(t, s, n, ack).full
    ensures FairFlags(t, Set(t, s, n, ack).t, s, s + n, ack) <==> !Spills(t, s, n, ack) && !PassesOver(t, s, n, ack)
  {
    hide WellFormed, FairFlags, Mergeable, Set, Spills, PassesOver;
    var k := StartsBefore(t, s + 1);
    if k == 0 || t[k - 1].End() < s {
      ApartFair(t, s, n, k, ack);
    } else if Max(t[k - 1].End(), s + n) - t[k - 1].start <= BB_MAX_LEN {
      FitsFair(t, s, n, k, ack);
    } else {
      OverflowFair(t, s, n, k, ack);
    }
  }

  // ---- what that means for a sector ----

  /**
   With fair flags, a sector outside s..e is acknowledged only if it was; a sector of an unacknowledged s..e is
   not, unless a full acknowledged range held it; and a sector loses its acknowledgement only by sharing a
   range with one that has none.
   */
  lemma FairSectors(t: Table, t': Table, s: int, e: int, ack: bool, x: int)
    requires WellFormed(t) && Exact(t, t', s, e) && FairFlags(t, t', s, e, ack)
    ensures BadAs(t', x, true) && !(s <= x < e && ack) ==> BadAs(t, x, true)
    ensures s <= x < e && !ack && !BadAs(t', x, false) ==> exists r :: r in t && r in t' && r.Has(x) && r.ack && r.len == BB_MAX_LEN
    ensures BadAs(t', x, false) ==> exists r :: r in t' && r.Has(x) && HasUnacked(t, r, s, e, ack)
  {
    hide HasUnacked;
    if BadAs(t', x, true) {
      var i :| 0 <= i < |t'| && t'[i].Has(x) && t'[i].ack == true;
      assert FairFlag(t, t'[i], s, e, ack);
    }
    if s <= x < e && !ack && !BadAs(t', x, false) {
      assert Bad(t', x);
      var i :| 0 <= i < |t'| && t'[i].Has(x);
      assert FairFlag(t, t'[i], s, e, ack);
      assert t'[i].ack;
    }
    if BadAs(t', x, false) {
      var i :| 0 <= i < |t'| && t'[i].Has(x) && t'[i].ack == false;
      assert FairFlag(t, t'[i], s, e, ack);
    }
  }

  /** Recording 0..150 as acknowledged before an unacknowledged range of 512 sectors acknowledges that range's last sectors. */
  lemma SpillAcknowledges(t: Table)
    requires t == [Range(100, 512, false)]
    ensures WellFormed(t) && Mergeable(t, 0, 150) && Spills(t, 0, 150, true)
    ensures Set(t, 0, 150, true) == SetResult([Range(0, 512, false), Range(512, 100, true)], false)
    ensures BadAs(t, 600, false) && BadAs(Set(t, 0, 150, true).t, 600, true)
  {
    assert StartsBefore(t, 1) == 0;
    MergeableCases(t, 0, 150);
    var p, r := Range(0, 512, false), Range(512, 100, true);
    assert MergePrev(Locate(t, 0, 150), true) == Cursor(t, 0, 150, 0, 0);
    assert t[0 := p] == [p];
    assert MergeNext(Cursor(t, 0, 150, 0, 0), true) == Cursor([p], 512, 100, 0, 1);
    var c := Cursor([p], 512, 100, 0, 1);
    assert Combine(c) == c;
    assert c.t[..1] + [r] + c.t[1..] == [p, r];
    assert InsertRest(c.(t := [p, r], n := 0, s := 612), true) == SetResult([p, r], false);
    assert Make(512, 100, true) == r;
    assert InsertRest(c, true) == SetResult([p, r], false);
    assert t[0].Has(600) && [p, r][1].Has(600);
  }

  /** Recording 5..25 as unacknowledged leaves a range that lies within it acknowledged. */
  lemma PassedOverStaysAcknowledged(t: Table)
    requires t == [Range(0, 5, true), Range(10, 2, true), Range(12, 18, true)]
    ensures WellFormed(t) && Mergeable(t, 5, 20) && PassesOver(t, 5, 20, false)
    ensures Set(t, 5, 20, false) == SetResult([Range(0, 12, false), Range(12, 18, true)], false)
    ensures BadAs(Set(t, 5, 20, false).t, 15, true)
  {
    var q, z := t[1], t[2];
    assert t[1..] == [q, z];
    assert StartsBefore(t, 6) == 1;
    MergeableCases(t, 5, 20);
    forall x | 12 <= x < 25 ensures Bad(t, x) {
      assert t[2].Has(x);
    }
    var p := Range(0, 25, false);
    assert MergePrev(Locate(t, 5, 20), false) == Cursor([p, q, z], 25, 0, 0, 1);
    var r := Range(0, 12, false);
    assert [p, q, z][0 := r] == [r, q, z];
    assert [r, q, z][..1] + [r, q, z][2..] == [r, z];
    assert Stale(t[2], 5, 25, false);
    assert [r, z][1].Has(15);
  }
}
