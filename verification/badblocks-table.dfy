/** badblocks_clear on tables, and the `badblocks` object that edits one page of ranges in place. */
module BadBlockTable {
  import opened Arithmetic
  import opened BadBlockRanges
  import Flags = BadBlockFlags

  // ---- badblocks_clear ----

  /** What is left of one range when s..e is taken out. */
  function Trim(r: Range, s: int, e: int): Table {
    (if r.start < Min(r.End(), s) then [Range(r.start, Min(r.End(), s) - r.start, r.ack)] else [])
    + (if Max(r.start, e) < r.End() then [Range(Max(r.start, e), r.End() - Max(r.start, e), r.ack)] else [])
  }

  /** What is left of a table when s..e is taken out of every range. */
  function Clear(t: Table, s: int, e: int): Table {
    if t == [] then [] else Trim(t[0], s, e) + Clear(t[1..], s, e)
  }

  /** Some range reaches beyond both ends of s..e and leaves two pieces. */
  ghost predicate NeedsSplit(t: Table, s: int, e: int) {
    exists i :: 0 <= i < |t| && t[i].start < s && e < t[i].End()
  }

  lemma BadAsConcat(a: Table, b: Table, x: int, ack: bool)
    ensures BadAs(a + b, x, ack) <==> BadAs(a, x, ack) || BadAs(b, x, ack)
  {
    var t := a + b;
    if BadAs(t, x, ack) {
      var i :| 0 <= i < |t| && t[i].Has(x) && t[i].ack == ack;
      if i < |a| { assert a[i].Has(x); } else { assert b[i - |a|].Has(x); }
    }
    if BadAs(a, x, ack) {
      var i :| 0 <= i < |a| && a[i].Has(x) && a[i].ack == ack;
      assert t[i].Has(x);
    }
    if BadAs(b, x, ack) {
      var i :| 0 <= i < |b| && b[i].Has(x) && b[i].ack == ack;
      assert t[|a| + i].Has(x);
    }
  }

  lemma TrimCovers(r: Range, s: int, e: int, x: int, ack: bool)
    requires s <= e
    ensures BadAs(Trim(r, s, e), x, ack) <==> r.Has(x) && r.ack == ack && !(s <= x < e)
  {
    var t := Trim(r, s, e);
    if r.Has(x) && r.ack == ack && x < s {
      assert t[0].Has(x);
    } else if r.Has(x) && r.ack == ack && x >= e {
      assert t[|t| - 1].Has(x);
    }
  }

  /** Clearing takes out exactly s..e; every other bad sector stays bad, with its acknowledged flag. */
  lemma {:induction false} ClearCovers(t: Table, s: int, e: int, x: int, ack: bool)
    requires s <= e
    ensures BadAs(Clear(t, s, e), x, ack) <==> BadAs(t, x, ack) && !(s <= x < e)
  {
    if t != [] {
      ClearCovers(t[1..], s, e, x, ack);
      TrimCovers(t[0], s, e, x, ack);
      BadAsConcat(Trim(t[0], s, e), Clear(t[1..], s, e), x, ack);
      BadAsConcat([t[0]], t[1..], x, ack);
      assert t == [t[0]] + t[1..];
      assert BadAs([t[0]], x, ack) <==> [t[0]][0].Has(x) && [t[0]][0].ack == ack;
    }
  }

  lemma WellFormedTail(t: Table)
    requires WellFormed(t) && t != []
    ensures WellFormed([t[0]]) && WellFormed(t[1..])
    ensures |t| > 1 ==> t[0].End() <= t[1].start
  {
  }

  lemma TrimWellFormed(r: Range, s: nat, e: int)
    requires WellFormed([r]) && s <= e
    ensures WellFormed(Trim(r, s, e))
    ensures var a := Trim(r, s, e); a != [] ==> r.start <= a[0].start && a[|a| - 1].End() <= r.End()
  {
    assert [r][0] == r;
    var a := Trim(r, s, e);
    var x, y := Range(r.start, Min(r.End(), s) - r.start, r.ack), Range(Max(r.start, e), r.End() - Max(r.start, e), r.ack);
    if r.start < Min(r.End(), s) && Max(r.start, e) < r.End() {
      assert a == [x, y];
    } else {
      assert a == if r.start < Min(r.End(), s) then [x] else if Max(r.start, e) < r.End() then [y] else [];
    }
  }

  lemma {:induction false} ClearWellFormed(t: Table, s: nat, e: int)
    requires WellFormed(t) && s <= e
    ensures WellFormed(Clear(t, s, e))
    ensures Clear(t, s, e) != [] ==> t != [] && t[0].start <= Clear(t, s, e)[0].start
  {
    hide WellFormed, Trim;
    if t == [] {
      assert Clear(t, s, e) == t;
    } else {
      WellFormedTail(t);
      ClearWellFormed(t[1..], s, e);
      TrimWellFormed(t[0], s, e);
      var a, b := Trim(t[0], s, e), Clear(t[1..], s, e);
      WellFormedConcat(a, b);
      StartsInOrder(t);
      assert a + b == Clear(t, s, e);
    }
  }

  lemma StartsInOrder(t: Table)
    requires WellFormed(t)
    ensures |t| > 1 ==> t[0].start <= t[1].start
  {
  }

  lemma {:induction false} ClearConcat(a: Table, b: Table, s: int, e: int)
    ensures Clear(a + b, s, e) == Clear(a, s, e) + Clear(b, s, e)
  {
    if a == [] {
      assert a + b == b;
    } else {
      assert (a + b)[1..] == a[1..] + b;
      ClearConcat(a[1..], b, s, e);
    }
  }

  /** Ranges that do not meet s..e are left alone. */
  lemma {:induction false} ClearApart(t: Table, s: int, e: int)
    requires s <= e && forall i :: 0 <= i < |t| ==> t[i].len >= 1 && (t[i].End() <= s || t[i].start >= e)
    ensures Clear(t, s, e) == t
  {
    if t != [] {
      ClearApart(t[1..], s, e);
      assert Trim(t[0], s, e) == [t[0]];
    }
  }

  lemma {:induction false} ClearInside(t: Table, s: int, e: int)
    requires s <= e && forall i :: 0 <= i < |t| ==> s <= t[i].start && t[i].End() <= e
    ensures Clear(t, s, e) == []
  {
    if t != [] {
      ClearInside(t[1..], s, e);
    }
  }

  lemma ClearOne(r: Range, s: int, e: int)
    ensures Clear([r], s, e) == Trim(r, s, e)
  {
    assert [r][1..] == [];
  }

  /** Replacing a range by one or two with the same remains does not change the outcome. */
  lemma ClearReplace(x: Table, r: Range, y: Table, z: Table, s: int, e: int)
    requires Clear(y, s, e) == Trim(r, s, e)
    ensures Clear(x + [r] + z, s, e) == Clear(x + y + z, s, e)
  {
    hide Trim, Clear;
    ClearOne(r, s, e);
    ClearConcat(x, [r], s, e);
    ClearConcat(x + [r], z, s, e);
    ClearConcat(x, y, s, e);
    ClearConcat(x + y, z, s, e);
  }

  // ---- acknowledged flags ----

  predicate AllAcked(t: Table) {
    forall i :: 0 <= i < |t| ==> t[i].ack
  }

  lemma {:induction false} InsertRestAcked(c: Cursor)
    requires 0 <= c.hi <= |c.t| && c.s >= 0 && c.n >= 0 && AllAcked(c.t)
    ensures AllAcked(InsertRest(c, true).t)
    decreases c.n
  {
    if c.n > 0 && |c.t| < MAX_BADBLOCKS {
      var k := Min(c.n, BB_MAX_LEN);
      InsertRestAcked(c.(t := c.t[..c.hi] + [Make(c.s, k, true)] + c.t[c.hi..], n := c.n - k, s := c.s + k));
    }
  }

  lemma MergesAcked(c: Cursor)
    requires AllAcked(c.t) && 0 <= c.lo <= c.hi <= |c.t| && c.s >= 0
    ensures AllAcked(MergePrev(c, true).t) && AllAcked(MergeNext(c, true).t)
  {
  }

  lemma CombineAcked(c: Cursor)
    requires AllAcked(c.t) && 0 <= c.hi <= |c.t| && (c.n == 0 && c.hi < |c.t| ==> 0 <= c.lo <= c.hi)
    ensures AllAcked(Combine(c).t)
  {
  }

  /** Acknowledged ranges and an acknowledged addition leave nothing unacknowledged. */
  lemma SetAcked(t: Table, s: nat, n: int)
    requires n >= 0 && AllAcked(t)
    ensures AllAcked(Set(t, s, n, true).t)
  {
    hide AllAcked, InsertRest;
    var c := MergePrev(Locate(t, s, n), true);
    MergesAcked(Locate(t, s, n));
    MergesAcked(c);
    CombineAcked(MergeNext(c, true));
    InsertRestAcked(Combine(MergeNext(c, true)));
  }

  lemma {:induction false} ClearAcked(t: Table, s: int, e: int)
    requires AllAcked(t)
    ensures AllAcked(Clear(t, s, e))
  {
    if t != [] {
      ClearAcked(t[1..], s, e);
    }
  }

  // ---- the object ----

  /** The entries from `hi` up to `from` have been moved down to `lo`, and those from `from` on are untouched. */
  ghost predicate MovedDown(was: Table, now: Table, lo: nat, hi: nat, from: nat) {
    && |now| == |was| && lo <= hi <= from <= |was|
    && now[..lo + from - hi] == was[..lo] + was[hi..from]
    && now[from..] == was[from..]
  }

  lemma MoveOneDown(was: Table, now: Table, lo: nat, hi: nat, from: nat)
    requires MovedDown(was, now, lo, hi, from) && from < |was|
    ensures MovedDown(was, now[lo + from - hi := now[from]], lo, hi, from + 1)
  {
    var to := lo + from - hi;
    var next := now[to := now[from]];
    assert now[from] == now[from..][0] == was[from];
    assert next[..to + 1] == now[..to] + [was[from]];
    assert was[hi..from + 1] == was[hi..from] + [was[from]];
    assert next[from + 1..] == now[from..][1..] && was[from..][1..] == was[from + 1..];
  }

  class BadBlocks {
    const page: array<Range>
    var count: nat
    var unackedExist: bool
    var changed: bool
    const shift: int

    ghost function View(): Table
      requires count <= page.Length
      reads this, page
    {
      page[..count]
    }

    /** The page has room, a disabled table is empty, and unacknowledged ranges are noticed. */
    ghost predicate Sane()
      reads this, page
    {
      && page.Length == MAX_BADBLOCKS && count <= MAX_BADBLOCKS
      && (shift == 0 || (shift == -1 && count == 0))
      && (!unackedExist ==> AllAcked(View()))
    }

    ghost predicate Valid()
      reads this, page
    {
      Sane() && WellFormed(View())
    }

    constructor (enable: bool)
      ensures Valid() && View() == [] && fresh(page) && (shift == 0 <==> enable) && !changed && !unackedExist
    {
      page := new Range[MAX_BADBLOCKS];
      count, unackedExist, changed := 0, false, false;
      shift := if enable then 0 else -1;
    }

    /** The binary search shared by all operations: the last range that starts before `bound`. */
    method Search(bound: int) returns (lo: nat, hi: nat)
      requires page.Length == MAX_BADBLOCKS && count <= MAX_BADBLOCKS && WellFormed(View())
      ensures count == 0 ==> lo == hi == 0
      ensures count > 0 ==> hi == lo + 1 <= count
      ensures lo > 0 ==> page[lo].start < bound
      ensures forall i :: hi <= i < count ==> page[i].start >= bound
    {
      lo, hi := 0, count;
      while hi - lo > 1
        invariant 0 <= lo <= hi <= count && (count > 0 ==> lo < hi)
        invariant lo > 0 ==> page[lo].start < bound
        invariant forall i :: hi <= i < count ==> page[i].start >= bound
      {
        var mid := (lo + hi) / 2;
        if page[mid].start < bound {
          lo := mid;
        } else {
          assert forall i :: mid < i < count ==> View()[mid].End() <= View()[i].start;
          hi := mid;
        }
      }
    }

    /** badblocks_check: 0, 1 or -1, with the lowest range that overlaps s..s+sectors. */
    method Check(s: nat, sectors: nat) returns (rv: int, firstBad: int, badSectors: int)
      requires Valid()
      ensures rv == 0 <==> NoneFrom(View(), s, s + sectors, 0)
      ensures rv == -1 <==> UnackedFrom(View(), s, s + sectors, 0)
      ensures rv in {-1, 0, 1}
      ensures rv != 0 ==> exists i :: Lowest(View(), s, s + sectors, i) && View()[i].start == firstBad && View()[i].len == badSectors
    {
      hide NoneFrom, UnackedFrom;
      var target := s + sectors;
      ghost var t := View();
      rv, firstBad, badSectors := 0, 0, 0;
      var found, hi := Search(target);
      var lo: int := found;
      ghost var first := 0;
      StartScan(t, s, target, hi);
      if hi > lo {
        while lo >= 0 && page[lo].End() > s
          invariant -1 <= lo < count && count == |t|
          invariant rv in {-1, 0, 1}
          invariant rv == 0 <==> NoneFrom(t, s, target, lo + 1)
          invariant rv == -1 <==> UnackedFrom(t, s, target, lo + 1)
          invariant rv != 0 ==> LowestFrom(t, s, target, lo + 1, first)
          invariant rv != 0 ==> t[first].start == firstBad && t[first].len == badSectors
        {
          assert t[lo] == page[lo];
          ScanStep(t, s, target, lo, first);
          if page[lo].start < target {
            if rv != -1 && page[lo].ack {
              rv := 1;
            } else {
              rv := -1;
            }
            firstBad, badSectors := page[lo].start, page[lo].len;
            first := lo;
          }
          lo := lo - 1;
        }
        if lo >= 0 {
          assert t[lo] == page[lo];
        }
        EndScan(t, s, target, lo, first);
      }
    }

    /** badblocks_update_acked. */
    method UpdateAcked()
      requires page.Length == MAX_BADBLOCKS && count <= MAX_BADBLOCKS && (!unackedExist ==> AllAcked(View()))
      modifies this`unackedExist
      ensures unackedExist <==> old(unackedExist) && !AllAcked(View())
    {
      if !unackedExist {
        return;
      }
      var unacked := false;
      var i := 0;
      while i < count && !unacked
        invariant i <= count
        invariant if unacked then 0 < i && !page[i - 1].ack else forall j :: 0 <= j < i ==> page[j].ack
        decreases count - i
      {
        unacked := !page[i].ack;
        i := i + 1;
      }
      if unacked {
        assert !View()[i - 1].ack;
      } else {
        unackedExist := false;
      }
    }

    /** memmove one slot up and store. */
    method InsertAt(i: nat, r: Range)
      requires page.Length == MAX_BADBLOCKS && i <= count < MAX_BADBLOCKS
      modifies page, this`count
      ensures count == old(count) + 1
      ensures View() == old(View())[..i] + [r] + old(View())[i..]
    {
      ghost var was := page[..count];
      var j := count;
      while j > i
        invariant i <= j <= count == old(count)
        invariant page[..j] == was[..j]
        invariant page[j + 1..count + 1] == was[j..]
      {
        assert page[j - 1] == page[..j][j - 1] == was[j - 1];
        ghost var below, above := page[..j - 1], page[j + 1..count + 1];
        assert below == was[..j - 1];
        page[j] := page[j - 1];
        assert page[j..count + 1] == [was[j - 1]] + above;
        assert was[j - 1..] == [was[j - 1]] + was[j..];
        j := j - 1;
        assert page[..j] == below;
      }
      ghost var below, above := page[..i], page[i + 1..count + 1];
      page[i] := r;
      count := count + 1;
      assert page[..count] == page[..i] + [page[i]] + page[i + 1..count];
    }

    /** memmove down over the slots lo..hi. */
    method CutOut(lo: nat, hi: nat)
      requires page.Length == MAX_BADBLOCKS && lo <= hi <= count <= MAX_BADBLOCKS
      modifies page, this`count
      ensures count == old(count) - (hi - lo)
      ensures View() == old(View())[..lo] + old(View())[hi..]
    {
      ghost var was := page[..count];
      var to, from := lo, hi;
      assert was[hi..hi] == [];
      while from < count
        invariant hi <= from <= count == old(count) && to - lo == from - hi
        invariant MovedDown(was, page[..count], lo, hi, from)
      {
        ghost var before := page[..count];
        page[to] := page[from];
        assert page[..count] == before[to := before[from]];
        MoveOneDown(was, before, lo, hi, from);
        to, from := to + 1, from + 1;
      }
      assert was[hi..from] == was[hi..] && page[..to] == page[..count][..to];
      count := to;
    }

    ghost predicate Paged()
      reads this
    {
      page.Length == MAX_BADBLOCKS && count <= MAX_BADBLOCKS
    }

    /** badblocks_set: merge with the start of the new range. */
    method MergeBefore(s: nat, n: int, lo: nat, hi: nat, ack: bool) returns (s': nat, n': int)
      requires Paged() && lo <= hi <= count && n >= 0
      requires forall i :: 0 <= i < count ==> View()[i].len <= BB_MAX_LEN
      modifies page
      ensures Cursor(View(), s', n', lo, hi) == MergePrev(Cursor(old(View()), s, n, lo, hi), ack)
    {
      s', n' := s, n;
      ghost var t := View();
      if hi > lo {
        var a, e, flag := page[lo].start, page[lo].End(), page[lo].ack;
        assert t[lo] == page[lo];
        if e >= s {
          if s == a && s + n >= e {
            flag := ack;
          } else {
            flag := flag && ack;
          }
          if e < s + n {
            e := s + n;
          }
          if e - a <= BB_MAX_LEN {
            page[lo] := Make(a, e - a, flag);
            assert View() == t[lo := Make(a, e - a, flag)];
            s' := e;
          } else {
            if page[lo].len != BB_MAX_LEN {
              page[lo] := Make(a, BB_MAX_LEN, flag);
              assert View() == t[lo := Make(a, BB_MAX_LEN, flag)];
            }
            s' := a + BB_MAX_LEN;
          }
          n' := e - s';
        }
      }
    }

    /** badblocks_set: merge with the range after the new one. */
    method MergeAfter(s: nat, n: int, lo: nat, hi: nat, ack: bool) returns (s': nat, n': int, lo': nat, hi': nat)
      requires Paged() && hi <= count && n >= 0
      modifies page
      ensures Cursor(View(), s', n', lo', hi') == MergeNext(Cursor(old(View()), s, n, lo, hi), ack)
    {
      s', n', lo', hi' := s, n, lo, hi;
      ghost var t := View();
      if n != 0 && hi < count {
        var a, e, flag := page[hi].start, page[hi].End(), page[hi].ack;
        assert t[hi] == page[hi];
        if a <= s + n {
          if e <= s + n {
            e := s + n;
            flag := ack;
          } else {
            flag := flag && ack;
          }
          if e - s <= BB_MAX_LEN {
            page[hi] := Make(s, e - s, flag);
            assert View() == t[hi := Make(s, e - s, flag)];
            s' := e;
          } else {
            page[hi] := Make(s, BB_MAX_LEN, flag);
            assert View() == t[hi := Make(s, BB_MAX_LEN, flag)];
            s' := s + BB_MAX_LEN;
          }
          n' := e - s';
          lo', hi' := hi, hi + 1;
        }
      }
    }

    /** badblocks_set: combine the ranges on both sides. */
    method CombineAround(s: nat, n: int, lo: nat, hi: nat)
      requires Paged() && hi <= count && (n == 0 && hi < count ==> lo <= hi)
      modifies page, this`count
      ensures Paged() && hi <= count
      ensures View() == Combine(Cursor(old(View()), s, n, lo, hi)).t
    {
      if n == 0 && hi < count {
        ghost var t := View();
        var a, loLen, hiLen := page[hi].start, page[lo].len, page[hi].len;
        var newLen := loLen + hiLen - (s - a);
        assert t[hi] == page[hi] && t[lo] == page[lo];
        if s >= a && newLen < BB_MAX_LEN {
          var flag := page[lo].ack && page[hi].ack;
          page[lo] := Make(page[lo].start, newLen, flag);
          assert View() == t[lo := Make(t[lo].start, newLen, flag)];
          CutOut(hi, hi + 1);
        }
      }
    }

    /** badblocks_set: record what is left. */
    method InsertLeft(s: nat, n: int, hi: nat, ack: bool) returns (rv: int)
      requires Paged() && hi <= count && n >= 0
      modifies page, this`count
      ensures Paged()
      ensures forall lo :: SetResult(View(), rv == 1) == InsertRest(Cursor(old(View()), s, n, lo, hi), ack)
      ensures rv in {0, 1}
    {
      rv := 0;
      var s', n' := s, n;
      ghost var t := View();
      ghost var target := InsertRest(Cursor(t, s, n, 0, hi), ack);
      while n' != 0
        invariant Paged() && hi <= count && n' >= 0 && s' >= 0
        invariant InsertRest(Cursor(View(), s', n', 0, hi), ack) == target && rv == 0
        decreases n'
      {
        if count >= MAX_BADBLOCKS {
          rv := 1;
          break;
        }
        var k := if n' > BB_MAX_LEN then BB_MAX_LEN else n';
        InsertAt(hi, Make(s', k, ack));
        n', s' := n' - k, s' + k;
      }
      forall lo ensures InsertRest(Cursor(t, s, n, lo, hi), ack) == target {
        LowIrrelevant(Cursor(t, s, n, lo, hi), ack);
      }
    }

    /** badblocks_set. */
    method SetRange(s: nat, sectors: int, acknowledged: bool) returns (rv: int)
      requires Valid() && sectors >= 0
      modifies this, page
      ensures Sane()
      ensures shift < 0 ==> rv == 0 && View() == old(View()) && changed == old(changed) && unackedExist == old(unackedExist)
      ensures shift == 0 ==> changed && (unackedExist <==> !acknowledged || (old(unackedExist) && !AllAcked(View())))
      ensures shift == 0 ==>
                && View() == Set(old(View()), s, sectors, acknowledged).t
                && rv == (if Set(old(View()), s, sectors, acknowledged).full then 1 else 0)
      ensures shift == 0 && s + sectors <= MAX_SECTOR && (sectors > 0 ==> Mergeable(old(View()), s, sectors)) ==>
                Valid() && (rv == 0 ==> Exact(old(View()), View(), s, s + sectors))
      ensures shift == 0 && s + sectors <= MAX_SECTOR && sectors > 0 && rv == 0 && Mergeable(old(View()), s, sectors) ==>
                (Flags.FairFlags(old(View()), View(), s, s + sectors, acknowledged) <==>
                 !Flags.Spills(old(View()), s, sectors, acknowledged) && !Flags.PassesOver(old(View()), s, sectors, acknowledged))
    {
      if shift < 0 {
        return 0;
      }
      ghost var t := View();
      rv := RecordRange(s, sectors, acknowledged);
      changed := true;
      if !acknowledged {
        unackedExist := true;
      } else {
        if !unackedExist {
          SetAcked(t, s, sectors);
        }
        UpdateAcked();
      }
      if sectors == 0 {
        SetOfNothing(t, s, acknowledged);
      } else if s + sectors <= MAX_SECTOR && Mergeable(t, s, sectors) {
        if rv == 0 {
          SetIsExact(t, s, sectors, acknowledged);
          Flags.SetFlagsAreFair(t, s, sectors, acknowledged);
        } else {
          FailedMergeable(t, s, sectors, acknowledged);
        }
      }
    }

    /** The table edits of badblocks_set. */
    method RecordRange(s: nat, n: int, ack: bool) returns (rv: int)
      requires Paged() && WellFormed(View()) && n >= 0
      modifies page, this`count
      ensures Paged()
      ensures SetResult(View(), rv == 1) == Set(old(View()), s, n, ack) && rv in {0, 1}
    {
      hide Combine, InsertRest, MergePrev, MergeNext;
      ghost var t := View();
      var lo, hi := Search(s + 1);
      if hi > lo && page[lo].start > s {
        hi := lo;
      }
      assert Cursor(t, s, n, lo, hi) == Locate(t, s, n) by {
        LocatedAt(t, s, n, lo, hi);
      }
      PrevBounds(Locate(t, s, n), ack);
      var s1, n1 := MergeBefore(s, n, lo, hi, ack);
      ghost var c1 := Cursor(View(), s1, n1, lo, hi);
      NextBounds(c1, ack);
      var s2, n2, lo2, hi2 := MergeAfter(s1, n1, lo, hi, ack);
      ghost var c2 := Cursor(View(), s2, n2, lo2, hi2);
      CombineAround(s2, n2, lo2, hi2);
      CombineKeeps(c2);
      rv := InsertLeft(s2, n2, hi2, ack);
    }

    /** badblocks_clear: deal with the last range that starts before the end of s..e, if it ends beyond it. */
    method ClearLast(s: nat, e: int, lo: nat) returns (rv: int, lo': int, hi': nat)
      requires Paged() && WellFormed(View()) && s <= e && lo < count && page[lo].start < e < page[lo].End()
      requires forall i :: lo < i < count ==> page[i].start >= e
      modifies page, this`count
      ensures Paged()
      ensures rv == -28 <==> old(page[lo]).start < s && old(count) >= MAX_BADBLOCKS
      ensures rv in {0, -28}
      ensures rv != 0 ==> View() == old(View())
      ensures rv == 0 ==> Upto(View(), old(View()), s, e, lo', hi')
    {
      hide Clear, Trim, WellFormed, Upto;
      rv, lo', hi' := 0, lo, lo + 1;
      ghost var t := View();
      var a, end, ack := page[lo].start, page[lo].End(), page[lo].ack;
      assert t[lo] == page[lo];
      if a < s {
        if count >= MAX_BADBLOCKS {
          return -28, lo', hi';
        }
        InsertAt(lo, Make(a, s - a, ack));
        page[lo + 1] := Make(e, end - e, ack);
        assert View() == t[..lo] + [Make(a, s - a, ack), Make(e, end - e, ack)] + t[lo + 1..];
        SplitUpto(t, s, e, lo);
      } else {
        page[lo] := Make(e, end - e, ack);
        assert View() == t[..lo] + [Make(e, end - e, ack)] + t[lo + 1..];
        lo', hi' := lo - 1, lo;
        TailUpto(t, s, e, lo);
      }
    }

    /** badblocks_clear: trim or drop the ranges that reach into s..e, and close the gap. */
    method ClearUpto(s: nat, e: int, last: int, hi: nat, ghost t: Table)
      requires Paged() && s <= e && Upto(View(), t, s, e, last, hi)
      modifies page, this`count
      ensures Paged() && View() == Clear(t, s, e)
    {
      hide Clear, Trim, Upto;
      var lo := last;
      var trimmed := false;
      UptoBounds(View(), t, s, e, lo, hi);
      while lo >= 0 && page[lo].End() > s && page[lo].start < e && !trimmed
        invariant Paged() && -1 <= lo < hi <= count == old(count)
        invariant Upto(View(), t, s, e, lo, hi)
        invariant trimmed ==> lo >= 0 && page[lo].End() == s
        decreases !trimmed, lo
      {
        ghost var v := View();
        assert page[lo] == v[lo];
        if page[lo].start < s {
          page[lo] := Make(page[lo].start, s - page[lo].start, page[lo].ack);
          assert View() == v[lo := Make(v[lo].start, s - v[lo].start, v[lo].ack)];
          TrimUpto(v, View(), t, s, e, lo, hi);
          trimmed := true;
        } else {
          UptoSkip(v, t, s, e, lo, hi);
          lo := lo - 1;
        }
      }
      UptoDone(View(), t, s, e, lo, hi);
      if hi - lo > 1 {
        CutOut(lo + 1, hi);
      } else {
        assert View()[..lo + 1] + View()[hi..] == View();
      }
    }

    /** badblocks_clear: sectors s..s+sectors are no longer bad, unless that needs a slot and there is none. */
    method ClearRange(s: nat, sectors: nat) returns (rv: int)
      requires Valid()
      modifies this, page
      ensures Valid()
      ensures rv in {0, -28}
      ensures rv != 0 <==> NeedsSplit(old(View()), s, s + sectors) && |old(View())| >= MAX_BADBLOCKS
      ensures rv == 0 ==> View() == Clear(old(View()), s, s + sectors) && changed && (unackedExist <==> old(unackedExist) && !AllAcked(View()))
      ensures rv != 0 ==> View() == old(View()) && changed == old(changed) && unackedExist == old(unackedExist)
    {
      hide Clear, Upto, NeedsSplit;
      var target := s + sectors;
      ghost var t := View();
      var lo, hi := Search(target);
      rv := 0;
      if hi == lo {
        EmptyClear(s, target);
      } else {
        var lo': int, hi' := lo, hi;
        if page[lo].End() > target && page[lo].start < target {
          SplitHere(t, s, target, lo);
          rv, lo', hi' := ClearLast(s, target, lo);
          if rv != 0 {
            return;
          }
        } else {
          NoSplitHere(t, s, target, lo);
        }
        ClearUpto(s, target, lo', hi', t);
      }
      ClearWellFormed(t, s, target);
      if !unackedExist {
        ClearAcked(t, s, target);
      }
      UpdateAcked();
      changed := true;
    }

    /** ack_all_badblocks: acknowledge everything, if nothing changed since the flag was last cleared. */
    method AckAll()
      requires Valid()
      modifies this`unackedExist, page
      ensures Valid() && |View()| == |old(View())|
      ensures forall i :: 0 <= i < count ==>
                View()[i] == if changed then old(View())[i] else old(View())[i].(ack := true)
      ensures !changed ==> !unackedExist && AllAcked(View())
    {
      hide WellFormed;
      if changed {
        return;
      }
      if unackedExist {
        var i := 0;
        while i < count
          invariant i <= count
          invariant forall k :: 0 <= k < count ==> page[k] == if k < i then old(page[k]).(ack := true) else old(page[k])
        {
          assert page[i] == old(View())[i];
          MakeAgain(old(View()), i);
          if !page[i].ack {
            page[i] := Make(page[i].start, page[i].len, true);
          }
          i := i + 1;
        }
        unackedExist := false;
        SameRanges(old(View()), View());
      } else {
        assert forall k :: 0 <= k < count ==> View()[k].ack;
      }
    }
  }

  lemma PrevBounds(c: Cursor, ack: bool)
    requires 0 <= c.lo <= c.hi <= |c.t| && c.s >= 0 && c.n >= 0
    ensures var c' := MergePrev(c, ack); c'.lo == c.lo && c'.hi == c.hi && |c'.t| == |c.t| && c'.n >= 0 && c'.s >= 0
  {
  }

  lemma NextBounds(c: Cursor, ack: bool)
    requires 0 <= c.lo <= c.hi <= |c.t| && c.s >= 0 && c.n >= 0
    ensures var c' := MergeNext(c, ack); 0 <= c'.lo <= c'.hi <= |c'.t| == |c.t| && c'.n >= 0 && c'.s >= 0
  {
  }

  lemma MakeAgain(t: Table, i: nat)
    requires WellFormed(t) && i < |t|
    ensures Make(t[i].start, t[i].len, true) == t[i].(ack := true)
  {
  }

  lemma SameRanges(t: Table, t': Table)
    requires WellFormed(t) && |t'| == |t| && forall i :: 0 <= i < |t| ==> t'[i].start == t[i].start && t'[i].len == t[i].len
    ensures WellFormed(t')
  {
  }

  /**
   While badblocks_clear works on `v`, which was `t`: the ranges from `hi` on are behind s..e, those up to
   `lo` do not reach beyond it, those between lie inside it, and clearing the rest gives the same result.
   */
  ghost predicate Upto(v: Table, t: Table, s: int, e: int, lo: int, hi: int) {
    && -1 <= lo < hi <= |v|
    && Clear(v, s, e) == Clear(t, s, e)
    && (forall i :: hi <= i < |v| ==> v[i].start >= e && v[i].len >= 1)
    && (forall i :: lo < i < hi ==> s <= v[i].start && v[i].End() <= e)
    && (forall i :: 0 <= i <= lo ==> v[i].len >= 1 && (v[i].End() <= e || (lo == 0 && v[i].start >= e)))
    && SortedTo(v, lo)
  }

  predicate SortedTo(v: Table, lo: int)
    requires lo < |v|
  {
    forall i, j :: 0 <= i < j <= lo ==> v[i].End() <= v[j].start
  }

  lemma SortedAt(v: Table, lo: int, i: int)
    requires 0 <= i < lo < |v| && SortedTo(v, lo)
    ensures v[i].End() <= v[lo].start
  {
  }

  lemma PiecesClear(t: Table, lo: nat, y: Table, s: int, e: int)
    requires lo < |t| && t[lo].len >= 1 && s <= e && y == Trim(t[lo], s, e)
    ensures Clear(t[..lo] + y + t[lo + 1..], s, e) == Clear(t, s, e)
  {
    assert t == t[..lo] + [t[lo]] + t[lo + 1..];
    ClearApart(y, s, e);
    ClearReplace(t[..lo], t[lo], y, t[lo + 1..], s, e);
  }

  lemma SplitUpto(t: Table, s: nat, e: int, lo: nat)
    requires WellFormed(t) && s <= e && lo < |t| && t[lo].start < s && e < t[lo].End()
    requires forall i :: lo < i < |t| ==> t[i].start >= e
    ensures var r := t[lo];
            Upto(t[..lo] + [Make(r.start, s - r.start, r.ack), Make(e, r.End() - e, r.ack)] + t[lo + 1..], t, s, e, lo, lo + 1)
  {
    var r := t[lo];
    var y := [Make(r.start, s - r.start, r.ack), Make(e, r.End() - e, r.ack)];
    assert Trim(r, s, e) == y;
    PiecesClear(t, lo, y, s, e);
    PiecesOrder(t, t[..lo] + y + t[lo + 1..], s, e, lo, lo);
  }

  lemma TailUpto(t: Table, s: nat, e: int, lo: nat)
    requires WellFormed(t) && s <= e && lo < |t| && s <= t[lo].start < e < t[lo].End()
    requires forall i :: lo < i < |t| ==> t[i].start >= e
    ensures var r := t[lo];
            Upto(t[..lo] + [Make(e, r.End() - e, r.ack)] + t[lo + 1..], t, s, e, lo - 1, lo)
  {
    var r := t[lo];
    var y := [Make(e, r.End() - e, r.ack)];
    assert Trim(r, s, e) == y;
    PiecesClear(t, lo, y, s, e);
    PiecesOrder(t, t[..lo] + y + t[lo + 1..], s, e, lo, lo - 1);
  }

  lemma PiecesOrder(t: Table, v: Table, s: nat, e: int, lo: nat, lo': int)
    requires WellFormed(t) && s <= e && lo < |t| && t[lo].start < e && Clear(v, s, e) == Clear(t, s, e)
    requires lo - 1 <= lo' <= lo < |v| == |t| + (lo' - (lo - 1))
    requires forall i :: 0 <= i < lo ==> v[i] == t[i]
    requires forall i :: lo' + 2 <= i < |v| ==> v[i].start >= e && v[i].len >= 1
    requires v[lo' + 1].start >= e && v[lo' + 1].len >= 1
    requires lo' == lo ==> v[lo].start == t[lo].start && v[lo].len >= 1 && v[lo].End() <= e
    ensures Upto(v, t, s, e, lo', lo' + 1)
  {
    hide Clear, SortedTo, WellFormed;
    PiecesSorted(t, v, lo, lo');
    forall i | 0 <= i < lo
      ensures v[i].len >= 1 && v[i].End() <= e
    {
      InOrder(t, i, lo);
    }
  }

  lemma InOrder(t: Table, i: nat, j: nat)
    requires WellFormed(t) && i < j < |t|
    ensures t[i].len >= 1 && t[i].End() <= t[j].start
  {
  }

  lemma PiecesSorted(t: Table, v: Table, lo: nat, lo': int)
    requires WellFormed(t) && lo < |t| && lo' <= lo < |v| && forall i :: 0 <= i < lo ==> v[i] == t[i]
    requires lo' == lo ==> v[lo].start == t[lo].start
    ensures SortedTo(v, lo')
  {
    hide WellFormed;
    forall i, j | 0 <= i < j <= lo'
      ensures v[i].End() <= v[j].start
    {
      InOrder(t, i, j);
    }
  }

  lemma TrimUpto(v: Table, v': Table, t: Table, s: int, e: int, lo: int, hi: int)
    requires Upto(v, t, s, e, lo, hi) && s <= e && lo >= 0 && 0 <= v[lo].start < s < v[lo].End() && v[lo].start < e
    requires v' == v[lo := Make(v[lo].start, s - v[lo].start, v[lo].ack)]
    ensures Upto(v', t, s, e, lo, hi) && v'[lo].End() == s
  {
    var y := [v'[lo]];
    assert Trim(v[lo], s, e) == y;
    assert v' == v[..lo] + y + v[lo + 1..];
    PiecesClear(v, lo, y, s, e);
  }

  lemma UptoBounds(v: Table, t: Table, s: int, e: int, lo: int, hi: int)
    requires Upto(v, t, s, e, lo, hi)
    ensures -1 <= lo < hi <= |v|
  {
  }

  lemma UptoSkip(v: Table, t: Table, s: int, e: int, lo: int, hi: int)
    requires Upto(v, t, s, e, lo, hi) && lo >= 0 && s <= v[lo].start < e
    ensures Upto(v, t, s, e, lo - 1, hi)
  {
    hide Clear;
  }

  predicate Apart(t: Table, s: int, e: int) {
    forall i :: 0 <= i < |t| ==> t[i].len >= 1 && (t[i].End() <= s || t[i].start >= e)
  }

  predicate Inside(t: Table, s: int, e: int) {
    forall i :: 0 <= i < |t| ==> s <= t[i].start && t[i].End() <= e
  }

  lemma ApartSlice(v: Table, i: int, j: int, s: int, e: int)
    requires 0 <= i <= j <= |v|
    requires forall k :: i <= k < j ==> v[k].len >= 1 && (v[k].End() <= s || v[k].start >= e)
    ensures Apart(v[i..j], s, e)
  {
  }

  lemma InsideSlice(v: Table, i: int, j: int, s: int, e: int)
    requires 0 <= i <= j <= |v|
    requires forall k :: i <= k < j ==> s <= v[k].start && v[k].End() <= e
    ensures Inside(v[i..j], s, e)
  {
  }

  lemma UptoParts(v: Table, t: Table, s: int, e: int, lo: int, hi: int)
    requires Upto(v, t, s, e, lo, hi) && s <= e
    requires lo >= 0 ==> v[lo].End() <= s || v[lo].start >= e
    ensures Apart(v[0..lo + 1], s, e) && Inside(v[lo + 1..hi], s, e) && Apart(v[hi..|v|], s, e)
  {
    hide Clear, SortedTo, Apart, Inside;
    forall i | 0 <= i < lo + 1 ensures v[i].len >= 1 && (v[i].End() <= s || v[i].start >= e) {
      if i < lo { SortedAt(v, lo, i); }
    }
    ApartSlice(v, 0, lo + 1, s, e);
    InsideSlice(v, lo + 1, hi, s, e);
    ApartSlice(v, hi, |v|, s, e);
  }

  lemma ClearParts(a: Table, b: Table, c: Table, s: int, e: int)
    requires s <= e && Apart(a, s, e) && Inside(b, s, e) && Apart(c, s, e)
    ensures Clear(a + b + c, s, e) == a + c
  {
    hide Clear;
    calc {
      Clear(a + b + c, s, e);
    ==  { ClearConcat(a + b, c, s, e); ClearConcat(a, b, s, e); }
      Clear(a, s, e) + Clear(b, s, e) + Clear(c, s, e);
    ==  { ClearApart(a, s, e); ClearInside(b, s, e); ClearApart(c, s, e); }
      a + [] + c;
    ==  { assert a + [] == a; }
      a + c;
    }
  }

  /** When no range up to `lo` reaches into s..e, dropping those between finishes the job. */
  lemma UptoDone(v: Table, t: Table, s: int, e: int, lo: int, hi: int)
    requires Upto(v, t, s, e, lo, hi) && s <= e
    requires lo >= 0 ==> v[lo].End() <= s || v[lo].start >= e
    ensures v[..lo + 1] + v[hi..] == Clear(t, s, e)
  {
    hide Clear, SortedTo, Apart, Inside;
    UptoParts(v, t, s, e, lo, hi);
    var a, b, c := v[0..lo + 1], v[lo + 1..hi], v[hi..|v|];
    ClearParts(a, b, c, s, e);
    assert v == a + b + c;
    assert v[..lo + 1] == a && v[hi..] == c;
  }

  lemma EmptyClear(s: int, e: int)
    ensures Clear([], s, e) == [] && !NeedsSplit([], s, e)
  {
  }

  lemma SplitHere(t: Table, s: int, e: int, lo: nat)
    requires WellFormed(t) && lo < |t| && t[lo].start < e < t[lo].End() && s <= e
    ensures NeedsSplit(t, s, e) <==> t[lo].start < s
  {
    assert forall i :: 0 <= i < |t| && t[i].start < s && e < t[i].End() ==> i == lo;
  }

  lemma NoSplitHere(t: Table, s: nat, e: int, lo: nat)
    requires WellFormed(t) && lo < |t| && (t[lo].End() <= e || t[lo].start >= e) && s <= e
    requires (lo > 0 ==> t[lo].start < e) && forall i :: lo < i < |t| ==> t[i].start >= e
    ensures !NeedsSplit(t, s, e) && Upto(t, t, s, e, lo, lo + 1)
  {
    forall i | 0 <= i < lo ensures t[i].End() <= e {
      assert t[i].End() <= t[lo].start;
    }
  }

  lemma LocatedAt(t: Table, s: nat, n: int, lo: nat, hi: nat)
    requires WellFormed(t) && lo <= hi <= |t| && (hi == lo ==> lo == 0) && (hi > lo ==> hi == lo + 1 && t[lo].start <= s)
    requires forall i :: hi <= i < |t| ==> t[i].start > s
    ensures Cursor(t, s, n, lo, hi) == Locate(t, s, n)
  {
    forall i | 0 <= i < hi ensures t[i].start < s + 1 {
      assert i < lo ==> t[i].End() <= t[lo].start;
    }
    StartsBeforeIs(t, s + 1, hi);
  }

  lemma CombineKeeps(c: Cursor)
    requires 0 <= c.hi <= |c.t| && (c.n == 0 && c.hi < |c.t| ==> 0 <= c.lo <= c.hi)
    ensures Combine(c) == c.(t := Combine(c).t)
  {
  }

  lemma {:induction false} LowIrrelevant(c: Cursor, ack: bool)
    requires 0 <= c.hi <= |c.t| && c.s >= 0 && c.n >= 0
    ensures InsertRest(c, ack) == InsertRest(c.(lo := 0), ack)
    decreases c.n
  {
    if c.n > 0 && |c.t| < MAX_BADBLOCKS {
      var k := Min(c.n, BB_MAX_LEN);
      LowIrrelevant(c.(t := c.t[..c.hi] + [Make(c.s, k, ack)] + c.t[c.hi..], n := c.n - k, s := c.s + k), ack);
    }
  }

  /** No range from index `k` on overlaps s..e. */
  predicate NoneFrom(t: Table, s: int, e: int, k: nat) {
    forall i :: k <= i < |t| ==> !Overlaps(t[i], s, e)
  }

  /** Some unacknowledged range from index `k` on overlaps s..e. */
  predicate UnackedFrom(t: Table, s: int, e: int, k: nat) {
    exists i :: k <= i < |t| && Overlaps(t[i], s, e) && !t[i].ack
  }

  /** An unacknowledged range that was recorded is reported as such by badblocks_check, unless a full acknowledged one held its start. */
  lemma UnackedIsReported(t: Table, t': Table, s: int, e: int)
    requires WellFormed(t) && s < e && Exact(t, t', s, e) && Flags.FairFlags(t, t', s, e, false)
    requires forall r :: r in t && r.Has(s) ==> !r.ack || r.len != BB_MAX_LEN
    ensures UnackedFrom(t', s, e, 0)
  {
    Flags.FairSectors(t, t', s, e, false, s);
    var i :| 0 <= i < |t'| && t'[i].Has(s) && t'[i].ack == false;
    assert Overlaps(t'[i], s, e);
  }

  predicate LowestFrom(t: Table, s: int, e: int, k: nat, i: int) {
    k <= i < |t| && Overlaps(t[i], s, e) && forall j :: k <= j < i ==> !Overlaps(t[j], s, e)
  }

  /** Range `i` is the lowest one that overlaps s..e. */
  predicate Lowest(t: Table, s: int, e: int, i: int) {
    LowestFrom(t, s, e, 0, i)
  }

  lemma StartScan(t: Table, s: int, e: int, hi: nat)
    requires forall i :: hi <= i < |t| ==> t[i].start >= e
    ensures NoneFrom(t, s, e, hi) && !UnackedFrom(t, s, e, hi)
  {
  }

  lemma ScanStep(t: Table, s: int, e: int, lo: nat, first: int)
    requires lo < |t|
    ensures NoneFrom(t, s, e, lo) <==> NoneFrom(t, s, e, lo + 1) && !Overlaps(t[lo], s, e)
    ensures UnackedFrom(t, s, e, lo) <==> UnackedFrom(t, s, e, lo + 1) || (Overlaps(t[lo], s, e) && !t[lo].ack)
    ensures Overlaps(t[lo], s, e) ==> LowestFrom(t, s, e, lo, lo)
    ensures !Overlaps(t[lo], s, e) && LowestFrom(t, s, e, lo + 1, first) ==> LowestFrom(t, s, e, lo, first)
  {
  }

  /** Once a range ends before `s`, so do all the ranges before it. */
  lemma EndScan(t: Table, s: int, e: int, lo: int, first: int)
    requires WellFormed(t) && -1 <= lo < |t| && (lo >= 0 ==> t[lo].End() <= s)
    ensures NoneFrom(t, s, e, 0) <==> NoneFrom(t, s, e, lo + 1)
    ensures UnackedFrom(t, s, e, 0) <==> UnackedFrom(t, s, e, lo + 1)
    ensures LowestFrom(t, s, e, lo + 1, first) ==> Lowest(t, s, e, first)
  {
    forall i | 0 <= i <= lo ensures !Overlaps(t[i], s, e) {
      assert i < lo ==> t[i].End() <= t[lo].start;
    }
  }

  /** A range starts before the end of s..e and ends after its start. */
  predicate Overlaps(r: Range, s: int, e: int) {
    r.start < e && r.End() > s
  }
}
