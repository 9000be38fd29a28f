/**
 The bad-block table: a sorted, bounded array of ranges of at most 512 sectors, each with an
 'acknowledged' flag, that stands for a set of bad sectors.
 */
module BadBlockRanges {
  import opened Arithmetic

  const BB_MAX_LEN := 512
  const MAX_BADBLOCKS := 512

  /** The 54-bit start field holds sectors up to this one; tables describe sectors below it. */
  const MAX_SECTOR := 0x3FFFFFFFFFFFFF

  datatype Range = Range(start: nat, len: int, ack: bool)
  {
    function End(): int { start + len }
    predicate Has(x: int) { start <= x < End() }
  }

  type Table = seq<Range>

  /** BB_MAKE for a length of at most 512: one below 1 sets every bit of the start and the flag. */
  function Make(a: nat, len: int, ack: bool): Range {
    if len >= 1 then Range(a, len, ack) else Range(MAX_SECTOR, (len - 1) % 512 + 1, true)
  }

  /** Lengths in 1..512, ranges sorted and disjoint. */
  ghost predicate WellFormed(t: Table) {
    && (forall i :: 0 <= i < |t| ==> 1 <= t[i].len <= BB_MAX_LEN && t[i].End() <= MAX_SECTOR)
    && (forall i, j :: 0 <= i < j < |t| ==> t[i].End() <= t[j].start)
  }

  ghost predicate Bad(t: Table, x: int) {
    exists i :: 0 <= i < |t| && t[i].Has(x)
  }

  /** Sector `x` is recorded as bad, with this acknowledged flag. */
  ghost predicate BadAs(t: Table, x: int, ack: bool) {
    exists i :: 0 <= i < |t| && t[i].Has(x) && t[i].ack == ack
  }

  /** How many ranges start before `bound`. */
  function StartsBefore(t: Table, bound: int): (k: nat)
    ensures k <= |t|
  {
    if t == [] || t[0].start >= bound then 0 else 1 + StartsBefore(t[1..], bound)
  }

  lemma {:induction false} StartsBeforeIs(t: Table, bound: int, k: nat)
    requires k <= |t|
    requires forall i :: 0 <= i < k ==> t[i].start < bound
    requires k < |t| ==> t[k].start >= bound
    ensures StartsBefore(t, bound) == k
  {
    if k > 0 {
      StartsBeforeIs(t[1..], bound, k - 1);
    }
  }

  lemma {:induction false} StartsBeforeSplits(t: Table, bound: int)
    requires WellFormed(t)
    ensures var k := StartsBefore(t, bound);
            && (forall i :: 0 <= i < k ==> t[i].start < bound)
            && (forall i :: k <= i < |t| ==> t[i].start >= bound)
  {
    if t != [] {
      if t[0].start < bound {
        StartsBeforeSplits(t[1..], bound);
      } else {
        forall i | 0 < i < |t| ensures t[i].start >= bound {
          assert t[0].End() <= t[i].start;
        }
      }
    }
  }

  // ---- badblocks_set ----

  /** The local variables of badblocks_set: `n` sectors from `s` are still to be recorded. */
  datatype Cursor = Cursor(t: Table, s: int, n: int, lo: int, hi: int)

  function Locate(t: Table, s: int, n: int): Cursor {
    var k := StartsBefore(t, s + 1);
    if k == 0 then Cursor(t, s, n, 0, 0) else Cursor(t, s, n, k - 1, k)
  }

  /** Merge with a range that starts at or before `s`. */
  function MergePrev(c: Cursor, ack: bool): Cursor
    requires 0 <= c.lo <= c.hi <= |c.t|
  {
    if c.hi > c.lo && c.t[c.lo].End() >= c.s then
      var p := c.t[c.lo];
      var flag := if c.s == p.start && c.s + c.n >= p.End() then ack else p.ack && ack;
      var e := Max(p.End(), c.s + c.n);
      if e - p.start <= BB_MAX_LEN then
        c.(t := c.t[c.lo := Make(p.start, e - p.start, flag)], s := e, n := 0)
      else
        var t' := if p.len != BB_MAX_LEN then c.t[c.lo := Make(p.start, BB_MAX_LEN, flag)] else c.t;
        c.(t := t', s := p.start + BB_MAX_LEN, n := e - (p.start + BB_MAX_LEN))
    else c
  }

  /** Merge with the first range that starts after `s`. */
  function MergeNext(c: Cursor, ack: bool): Cursor
    requires 0 <= c.hi <= |c.t| && c.s >= 0
  {
    if c.n != 0 && c.hi < |c.t| && c.t[c.hi].start <= c.s + c.n then
      var p := c.t[c.hi];
      var e, flag := Max(p.End(), c.s + c.n), if p.End() <= c.s + c.n then ack else p.ack && ack;
      var len := Min(e - c.s, BB_MAX_LEN);
      Cursor(c.t[c.hi := Make(c.s, len, flag)], c.s + len, e - (c.s + len), c.hi, c.hi + 1)
    else c
  }

  /** Join the two ranges around the cursor when they touch. */
  function Combine(c: Cursor): Cursor
    requires 0 <= c.hi <= |c.t| && (c.n == 0 && c.hi < |c.t| ==> 0 <= c.lo <= c.hi)
  {
    if c.n == 0 && c.hi < |c.t| then
      var p, q := c.t[c.lo], c.t[c.hi];
      var newLen := p.len + q.len - (c.s - q.start);
      if c.s >= q.start && newLen < BB_MAX_LEN then
        var t' := c.t[c.lo := Make(p.start, newLen, p.ack && q.ack)];
        c.(t := t'[..c.hi] + t'[c.hi + 1..])
      else c
    else c
  }

  datatype SetResult = SetResult(t: Table, full: bool)

  /** Record what is left, one range of at most 512 sectors after the other, each just before `hi`. */
  function InsertRest(c: Cursor, ack: bool): SetResult
    requires 0 <= c.hi <= |c.t| && c.s >= 0 && c.n >= 0
    decreases c.n
  {
    if c.n == 0 then SetResult(c.t, false)
    else if |c.t| >= MAX_BADBLOCKS then SetResult(c.t, true)
    else
      var k := Min(c.n, BB_MAX_LEN);
      InsertRest(c.(t := c.t[..c.hi] + [Make(c.s, k, ack)] + c.t[c.hi..], n := c.n - k, s := c.s + k), ack)
  }

  /** badblocks_set from the point where the ranges that start at or before `s` are dealt with. */
  function FromNext(c: Cursor, ack: bool): SetResult
    requires 0 <= c.hi <= |c.t| && c.s >= 0 && c.n >= 0 && (c.n == 0 ==> 0 <= c.lo <= c.hi)
  {
    InsertRest(Combine(MergeNext(c, ack)), ack)
  }

  /** badblocks_set on the table. */
  function Set(t: Table, s: nat, n: int, ack: bool): SetResult
    requires n >= 0
  {
    FromNext(MergePrev(Locate(t, s, n), ack), ack)
  }

  // ---- tables as concatenations ----

  lemma BadConcat(a: Table, b: Table, x: int)
    ensures Bad(a + b, x) <==> Bad(a, x) || Bad(b, x)
  {
    var t := a + b;
    if Bad(t, x) {
      var i :| 0 <= i < |t| && t[i].Has(x);
      if i < |a| { assert a[i].Has(x); } else { assert b[i - |a|].Has(x); }
    }
    if Bad(a, x) {
      var i :| 0 <= i < |a| && a[i].Has(x);
      assert t[i].Has(x);
    }
    if Bad(b, x) {
      var i :| 0 <= i < |b| && b[i].Has(x);
      assert t[|a| + i].Has(x);
    }
  }

  lemma WellFormedConcat(a: Table, b: Table)
    requires WellFormed(a) && WellFormed(b)
    requires a != [] && b != [] ==> a[|a| - 1].End() <= b[0].start
    ensures WellFormed(a + b)
  {
    var t := a + b;
    forall i, j | 0 <= i < j < |t| ensures t[i].End() <= t[j].start {
      if i < |a| <= j {
        assert i < |a| - 1 ==> a[i].End() <= a[|a| - 1].start;
        assert j > |a| ==> b[0].End() <= b[j - |a|].start;
      }
    }
  }

  lemma WellFormedSlice(t: Table, i: int, j: int)
    requires WellFormed(t) && 0 <= i <= j <= |t|
    ensures WellFormed(t[i..j])
  {
  }

  /** `m` covers exactly [a, b), without holes. */
  predicate Chain(m: Table, a: int, b: int) {
    if m == [] then a == b
    else m[0].start == a && 1 <= m[0].len <= BB_MAX_LEN && Chain(m[1..], m[0].End(), b)
  }

  lemma {:induction false} ChainCovers(m: Table, a: int, b: int)
    requires Chain(m, a, b) && b <= MAX_SECTOR
    ensures a <= b && WellFormed(m)
    ensures m != [] ==> m[0].start == a && m[|m| - 1].End() == b
    ensures forall x :: Bad(m, x) <==> a <= x < b
  {
    if m != [] {
      ChainCovers(m[1..], m[0].End(), b);
      assert m == [m[0]] + m[1..];
      assert WellFormed([m[0]]);
      WellFormedConcat([m[0]], m[1..]);
      forall x ensures Bad(m, x) <==> a <= x < b {
        BadConcat([m[0]], m[1..], x);
        assert Bad([m[0]], x) <==> m[0].Has(x);
      }
    }
  }

  /** A table with some ranges replaced by a chain from `a` to `b` that fits between their neighbours. */
  lemma Splice(pre: Table, m: Table, post: Table, a: int, b: int)
    requires WellFormed(pre) && WellFormed(post) && Chain(m, a, b) && a < b <= MAX_SECTOR
    requires pre != [] ==> pre[|pre| - 1].End() <= a
    requires post != [] ==> b <= post[0].start
    ensures WellFormed(pre + m + post)
    ensures forall x :: Bad(pre + m + post, x) <==> Bad(pre, x) || a <= x < b || Bad(post, x)
  {
    ChainCovers(m, a, b);
    WellFormedConcat(pre, m);
    WellFormedConcat(pre + m, post);
    forall x ensures Bad(pre + m + post, x) <==> Bad(pre, x) || a <= x < b || Bad(post, x) {
      BadConcat(pre, m, x);
      BadConcat(pre + m, post, x);
    }
  }

  lemma Thirds(pre: Table, u: Table, post: Table)
    requires WellFormed(pre + u + post)
    ensures WellFormed(pre) && WellFormed(u) && WellFormed(post)
    ensures forall x :: Bad(pre + u + post, x) <==> Bad(pre, x) || Bad(u, x) || Bad(post, x)
  {
    var t := pre + u + post;
    WellFormedSlice(t, 0, |pre|);
    WellFormedSlice(t, |pre|, |pre + u|);
    WellFormedSlice(t, |pre + u|, |t|);
    assert t[0..|pre|] == pre && t[|pre|..|pre + u|] == u && t[|pre + u|..|t|] == post;
    forall x ensures Bad(t, x) <==> Bad(pre, x) || Bad(u, x) || Bad(post, x) {
      BadConcat(pre, u, x);
      BadConcat(pre + u, post, x);
    }
  }

  // ---- when badblocks_set is exact ----

  /** The new table is well formed and its bad sectors are the old ones and s..e. */
  ghost predicate Exact(t: Table, t': Table, s: int, e: int) {
    WellFormed(t') && forall x :: Bad(t', x) <==> Bad(t, x) || s <= x < e
  }

  ghost predicate AllBad(t: Table, a: int, b: int) {
    forall x :: a <= x < b ==> Bad(t, x)
  }

  /** A merged range a..e may stand before range `h`: no overlap, or `h` can be absorbed without loss. */
  ghost predicate NextOk(t: Table, a: int, e: int, h: int)
    requires 0 <= h
  {
    h >= |t| || t[h].start >= e || (1 <= t[h].End() - a < BB_MAX_LEN && AllBad(t, t[h].End(), e))
  }

  /** What a caller can check: badblocks_set(s, n) records exactly what it was asked to. */
  ghost predicate Mergeable(t: Table, s: nat, n: int)
    requires n >= 1
  {
    var k, e := StartsBefore(t, s + 1), s + n;
    var touch := k > 0 && t[k - 1].End() >= s;
    if touch && Max(t[k - 1].End(), e) - t[k - 1].start <= BB_MAX_LEN then
      NextOk(t, t[k - 1].start, Max(t[k - 1].End(), e), k)
    else
      RestOk(t, if touch then t[k - 1].start + BB_MAX_LEN else s, e, k)
  }

  /** The sectors s..e, which no earlier range can take, fit before or into range `k`. */
  ghost predicate RestOk(t: Table, s: int, e: int, k: nat) {
    if k < |t| && t[k].start <= e then
      var e' := Max(t[k].End(), e);
      if e' - s <= BB_MAX_LEN then NextOk(t, s, e', k + 1)
      else e' - s <= 2 * BB_MAX_LEN && (k + 1 >= |t| || t[k + 1].start >= e')
    else e - s <= BB_MAX_LEN
  }

  /** The ranges of `u` and the sectors s..e together make up a..b. */
  ghost predicate Hull(u: Table, s: int, e: int, a: int, b: int) {
    forall x :: a <= x < b <==> s <= x < e || Bad(u, x)
  }

  /**
   Between the merges and the end of badblocks_set: the table was pre + u + post, `u` is being replaced by
   the ranges of `m`, which reach from `a` to the cursor, and with what is left to record they span a..b.
   */
  ghost predicate Merging(pre: Table, u: Table, post: Table, s: int, e: int, m: Table, a: int, c: int, b: int) {
    && WellFormed(pre + u + post)
    && Chain(m, a, c) && a <= c <= b && a < b <= MAX_SECTOR
    && (pre != [] ==> pre[|pre| - 1].End() <= a)
    && (post != [] ==> a <= post[0].start)
    && Hull(u, s, e, a, b)
  }

  lemma {:induction false} ChainAppend(m: Table, a: int, b: int, r: Range)
    requires Chain(m, a, b) && r.start == b && 1 <= r.len <= BB_MAX_LEN
    ensures Chain(m + [r], a, r.End())
  {
    if m != [] {
      ChainAppend(m[1..], m[0].End(), b, r);
      assert (m + [r])[1..] == m[1..] + [r];
    }
  }

  /** Replacing `u` by a chain that spans exactly `u` and s..e, and fits, is exact. */
  lemma SpliceExact(pre: Table, u: Table, post: Table, s: int, e: int, m: Table, a: int, b: int)
    requires Merging(pre, u, post, s, e, m, a, b, b)
    requires post != [] ==> b <= post[0].start
    ensures Exact(pre + u + post, pre + m + post, s, e)
  {
    Thirds(pre, u, post);
    Splice(pre, m, post, a, b);
  }

  /** A second range is put before the first one: the table is no longer sorted. */
  lemma {:induction false} InsertedInReverse(c: Cursor, ack: bool)
    requires 0 <= c.hi < |c.t| && c.s >= 0 && c.n > 0 && c.t[c.hi].start < c.s
    requires !InsertRest(c, ack).full
    ensures !WellFormed(InsertRest(c, ack).t)
    decreases c.n
  {
    var k := Min(c.n, BB_MAX_LEN);
    var t' := c.t[..c.hi] + [Make(c.s, k, ack)] + c.t[c.hi..];
    var c' := c.(t := t', n := c.n - k, s := c.s + k);
    if c'.n == 0 {
      assert t'[c.hi].End() > t'[c.hi + 1].start;
    } else {
      InsertedInReverse(c', ack);
    }
  }

  /** The end of badblocks_set when `n` sectors are left to record. */
  lemma FinishInserting(pre: Table, u: Table, post: Table, s: int, e: int, m: Table, a: int, c: Cursor, ack: bool)
    requires c.t == pre + m + post && c.hi == |pre + m| && c.n > 0 && c.s >= 0
    requires Merging(pre, u, post, s, e, m, a, c.s, c.s + c.n)
    requires !InsertRest(c, ack).full
    ensures Exact(pre + u + post, InsertRest(c, ack).t, s, e)
            <==> c.n <= BB_MAX_LEN && (post == [] || post[0].start >= c.s + c.n)
  {
    var k := Min(c.n, BB_MAX_LEN);
    var r := Make(c.s, k, ack);
    var t' := c.t[..c.hi] + [r] + c.t[c.hi..];
    var c' := c.(t := t', n := c.n - k, s := c.s + k);
    assert InsertRest(c, ack) == InsertRest(c', ack);
    if c.n > BB_MAX_LEN {
      InsertedInReverse(c', ack);
    } else {
      assert c.t[..c.hi] == pre + m && c.t[c.hi..] == post;
      assert t' == pre + (m + [r]) + post;
      if post != [] && post[0].start < c.s + c.n {
        assert t'[c.hi] == r && t'[c.hi + 1] == post[0];
        assert t'[c.hi].End() > t'[c.hi + 1].start;
      } else {
        ChainAppend(m, a, c.s, r);
        SpliceExact(pre, u, post, s, e, m + [r], a, c.s + c.n);
      }
    }
  }

  /** The end of badblocks_set when everything is recorded, `p` being the last range of the chain. */
  lemma FinishCombining(pre: Table, u: Table, post: Table, s: int, e: int, m: Table, p: Range, a: int, c: Cursor)
    requires c == Cursor(pre + m + [p] + post, p.End(), 0, |pre + m|, |pre + m| + 1)
    requires Merging(pre, u, post, s, e, m, a, p.start, p.End()) && 1 <= p.len <= BB_MAX_LEN && s < e
    ensures Exact(pre + u + post, Combine(c).t, s, e) <==> NextOk(pre + u + post, p.start, p.End(), |pre + u|)
  {
    var t := pre + u + post;
    if post == [] || c.s < post[0].start || post[0].End() - p.start >= BB_MAX_LEN {
      assert post != [] ==> c.t[c.hi] == post[0] && t[|pre + u|] == post[0];
      assert Combine(c) == c;
      if post != [] && post[0].start < c.s {
        assert c.t[c.hi - 1] == p;
        assert c.t[c.hi - 1].End() > c.t[c.hi].start;
      } else {
        ChainAppend(m, a, p.start, p);
        assert c.t == pre + (m + [p]) + post;
        SpliceExact(pre, u, post, s, e, m + [p], a, p.End());
      }
    } else {
      Joining(pre, u, post, s, e, m, p, a, c);
    }
  }

  lemma ReplaceTwo(x: Table, p: Range, q: Range, z: Table, r: Range)
    ensures var t, k := x + [p] + [q] + z, |x|;
            t[k := r][..k + 1] + t[k := r][k + 2..] == x + [r] + z
  {
    var t, k := x + [p] + [q] + z, |x|;
    assert t[k := r] == x + [r] + [q] + z;
    assert t[k := r][..k + 1] == x + [r];
    assert t[k := r][k + 2..] == z;
  }

  /** The last range of the chain and the range after it are joined. */
  lemma Joining(pre: Table, u: Table, post: Table, s: int, e: int, m: Table, p: Range, a: int, c: Cursor)
    requires c == Cursor(pre + m + [p] + post, p.End(), 0, |pre + m|, |pre + m| + 1)
    requires Merging(pre, u, post, s, e, m, a, p.start, p.End()) && 1 <= p.len <= BB_MAX_LEN && s < e
    requires post != [] && post[0].start <= p.End() && post[0].End() - p.start < BB_MAX_LEN
    ensures Exact(pre + u + post, Combine(c).t, s, e) <==> NextOk(pre + u + post, p.start, p.End(), |pre + u|)
  {
    hide Exact, AllBad, Combine, Hull, Chain;
    var q, z := post[0], post[1..];
    var r := Make(p.start, q.End() - p.start, p.ack && q.ack);
    assert pre + m + [p] + post == pre + m + [p] + [q] + z;
    CombinedTable(pre + m, p, q, z, c);
    assert (pre + u + post)[|pre + u|] == q;
    if q.End() - p.start < 1 {
      HullEnds(u, s, e, a, p.End());
      Garbage(pre + u + post, pre + m, r, z, s, e);
    } else {
      ChainAppend(m, a, p.start, r);
      assert (pre + m) + [r] + z == pre + (m + [r]) + z;
      Joined(pre, u, post, s, e, m + [r], a, p.End());
    }
  }

  lemma CombinedTable(x: Table, p: Range, q: Range, z: Table, c: Cursor)
    requires c == Cursor(x + [p] + [q] + z, p.End(), 0, |x|, |x| + 1)
    requires q.start <= p.End() && q.End() - p.start < BB_MAX_LEN
    ensures Combine(c).t == x + [Make(p.start, q.End() - p.start, p.ack && q.ack)] + z
  {
    hide Make;
    assert c.t[c.lo] == p && c.t[c.hi] == q;
    ReplaceTwo(x, p, q, z, Make(p.start, q.End() - p.start, p.ack && q.ack));
  }

  /** A length below one is packed as a range at the very end of the address space. */
  lemma Garbage(t: Table, x: Table, r: Range, z: Table, s: int, e: int)
    requires WellFormed(t) && r.Has(MAX_SECTOR) && e <= MAX_SECTOR
    ensures !Exact(t, x + [r] + z, s, e)
  {
    var t' := x + [r] + z;
    assert t'[|x|] == r;
    assert Bad(t', MAX_SECTOR) && !Bad(t, MAX_SECTOR);
  }

  /** With `post[0]` swallowed, the sectors from its end to `b` stay bad only if later ranges have them. */
  lemma Joined(pre: Table, u: Table, post: Table, s: int, e: int, m: Table, a: int, b: int)
    requires WellFormed(pre + u + post) && Hull(u, s, e, a, b) && post != []
    requires pre != [] ==> pre[|pre| - 1].End() <= a
    requires Chain(m, a, post[0].End()) && a <= post[0].start <= b
    ensures Exact(pre + u + post, pre + m + post[1..], s, e)
            <==> post[0].start == b || AllBad(pre + u + post, post[0].End(), b)
  {
    var t, q, z := pre + u + post, post[0], post[1..];
    Thirds(pre, u, post);
    assert post == [] + [q] + z;
    Thirds([], [q], z);
    Splice(pre, m, z, a, q.End());
    forall x ensures Bad(t, x) <==> Bad(pre, x) || Bad(u, x) || q.Has(x) || Bad(z, x) {
      assert Bad([q], x) <==> [q][0].Has(x);
    }
    forall x | Bad(pre, x) ensures x < a { Below(pre, a, x); }
    forall x | Bad(u, x) ensures x < q.start {
      assert u != [] && t[|pre + u| - 1] == u[|u| - 1] && t[|pre + u|] == q;
      Below(u, q.start, x);
    }
    JoinLogic(t, pre + m + z, pre, u, q, z, s, e, a, b);
  }

  lemma JoinLogic(t: Table, t': Table, pre: Table, u: Table, q: Range, z: Table, s: int, e: int, a: int, b: int)
    requires WellFormed(t') && Hull(u, s, e, a, b) && a <= q.start <= b && q.len >= 1
    requires forall x :: Bad(t, x) <==> Bad(pre, x) || Bad(u, x) || q.Has(x) || Bad(z, x)
    requires forall x :: Bad(t', x) <==> Bad(pre, x) || a <= x < q.End() || Bad(z, x)
    requires forall x :: Bad(pre, x) ==> x < a
    requires forall x :: Bad(u, x) ==> x < q.start
    ensures Exact(t, t', s, e) <==> q.start == b || AllBad(t, q.End(), b)
  {
    if q.start == b || AllBad(t, q.End(), b) {
      forall x ensures Bad(t', x) <==> Bad(t, x) || s <= x < e {
        assert Bad(u, x) || s <= x < e <==> a <= x < b;
      }
    }
    if Exact(t, t', s, e) && q.start < b {
      forall x | q.End() <= x < b ensures Bad(t, x) {
        assert Bad(u, x) || s <= x < e;
        assert Bad(t', x);
      }
    }
  }

  lemma Below(t: Table, a: int, x: int)
    requires WellFormed(t) && Bad(t, x) && t[|t| - 1].End() <= a
    ensures x < a
  {
    var k :| 0 <= k < |t| && t[k].Has(x);
    assert k < |t| - 1 ==> t[k].End() <= t[|t| - 1].start;
  }

  lemma HullEnds(u: Table, s: int, e: int, a: int, b: int)
    requires Hull(u, s, e, a, b) && s < e
    ensures a <= s && e <= b
  {
    var last := e - 1;
    assert Bad(u, s) || !Bad(u, s);
    assert Bad(u, last) || !Bad(u, last);
  }

  lemma RestIsExact(pre: Table, u: Table, post: Table, s: int, e: int, m: Table, a: int, c: Cursor, ack: bool)
    requires c.t == pre + m + post && c.hi == |pre + m| && c.n > 0 && c.s >= 0 && c.s + c.n == e && s < e
    requires Merging(pre, u, post, s, e, m, a, c.s, e)
    requires !FromNext(c, ack).full
    ensures Exact(pre + u + post, FromNext(c, ack).t, s, e) <==> RestOk(pre + u + post, c.s, e, |pre + u|)
  {
    assert post != [] ==> c.t[c.hi] == post[0] && (pre + u + post)[|pre + u|] == post[0];
    if post == [] || post[0].start > e {
      assert MergeNext(c, ack) == c && Combine(c) == c;
      FinishInserting(pre, u, post, s, e, m, a, c, ack);
    } else {
      var q, e' := post[0], Max(post[0].End(), e);
      var p := Make(c.s, Min(e' - c.s, BB_MAX_LEN), if q.End() <= e then ack else q.ack && ack);
      MergeNextCursor(pre, m, post, p, c, ack);
      NextMerging(pre, u, post, s, e, m, a, c.s);
      AfterMergingNext(pre, u, post, s, e, m, a, c.s, p, MergeNext(c, ack), ack);
    }
  }

  lemma MergeNextCursor(pre: Table, m: Table, post: Table, p: Range, c: Cursor, ack: bool)
    requires c.t == pre + m + post && c.hi == |pre + m| && c.n > 0 && c.s >= 0
    requires post != [] && post[0].start <= c.s + c.n
    requires var e := c.s + c.n;
             p == Make(c.s, Min(Max(post[0].End(), e) - c.s, BB_MAX_LEN), if post[0].End() <= e then ack else post[0].ack && ack)
    ensures MergeNext(c, ack) ==
            Cursor(pre + m + [p] + post[1..], p.End(), Max(post[0].End(), c.s + c.n) - p.End(), |pre + m|, |pre + m| + 1)
  {
    assert c.t[c.hi] == post[0];
    assert c.t[c.hi := p] == pre + m + [p] + post[1..];
  }

  lemma AfterMergingNext(pre: Table, u: Table, post: Table, s: int, e: int, m: Table, a: int, b: int, p: Range, c: Cursor, ack: bool)
    requires post != [] && post[0].start <= e && s < e && b < e
    requires var e' := Max(post[0].End(), e);
             && Merging(pre, u + [post[0]], post[1..], s, e, m, a, b, e')
             && p.start == b && p.len == Min(e' - b, BB_MAX_LEN)
             && c == Cursor(pre + m + [p] + post[1..], p.End(), e' - p.End(), |pre + m|, |pre + m| + 1)
    requires !InsertRest(Combine(c), ack).full
    ensures Exact(pre + u + post, InsertRest(Combine(c), ack).t, s, e) <==> RestOk(pre + u + post, b, e, |pre + u|)
  {
    var t, q, z, e' := pre + u + post, post[0], post[1..], Max(post[0].End(), e);
    assert t == pre + (u + [q]) + z && |pre + (u + [q])| == |pre + u| + 1;
    assert t[|pre + u|] == q && (z != [] ==> t[|pre + u| + 1] == z[0]);
    if e' - b <= BB_MAX_LEN {
      FinishCombining(pre, u + [q], z, s, e, m, p, a, c);
    } else {
      ChainAppend(m, a, b, p);
      assert pre + m + [p] == pre + (m + [p]);
      FinishInserting(pre, u + [q], z, s, e, m + [p], a, c, ack);
    }
  }

  lemma NextMerging(pre: Table, u: Table, post: Table, s: int, e: int, m: Table, a: int, c: int)
    requires Merging(pre, u, post, s, e, m, a, c, e) && post != [] && post[0].start <= e
    ensures Merging(pre, u + [post[0]], post[1..], s, e, m, a, c, Max(post[0].End(), e))
  {
    var t, q, z, e' := pre + u + post, post[0], post[1..], Max(post[0].End(), e);
    assert t == pre + (u + [q]) + z;
    Thirds(pre, u, post);
    assert z != [] ==> z[0] == post[1];
    forall x ensures Bad(u + [q], x) <==> Bad(u, x) || q.Has(x) {
      BadConcat(u, [q], x);
      assert Bad([q], x) <==> [q][0].Has(x);
    }
    assert Hull(u + [q], s, e, a, e');
  }

  /**
   badblocks_set returns success with a well-formed table of exactly the old and the new bad sectors if and
   only if the ranges around the new one satisfy `Mergeable`.
   */
  lemma SetIsExact(t: Table, s: nat, n: int, ack: bool)
    requires WellFormed(t) && n >= 1 && s + n <= MAX_SECTOR
    requires !Set(t, s, n, ack).full
    ensures Exact(t, Set(t, s, n, ack).t, s, s + n) <==> Mergeable(t, s, n)
  {
    hide FromNext, MergePrev, Locate, Mergeable, RestOk, NextOk, Exact;
    var k := StartsBefore(t, s + 1);
    StartsBeforeSplits(t, s + 1);
    if k == 0 || t[k - 1].End() < s {
      SetApart(t, s, n, k, ack);
      MergeableCases(t, s, n);
    } else if Max(t[k - 1].End(), s + n) - t[k - 1].start <= BB_MAX_LEN {
      SetFits(t, s, n, k, ack);
      MergeableCases(t, s, n);
    } else {
      SetOverflows(t, s, n, k, ack);
      MergeableCases(t, s, n);
    }
  }

  lemma MergeableCases(t: Table, s: nat, n: int)
    requires n >= 1
    ensures var k, e := StartsBefore(t, s + 1), s + n;
            Mergeable(t, s, n) ==
            if k == 0 || t[k - 1].End() < s then RestOk(t, s, e, k)
            else if Max(t[k - 1].End(), e) - t[k - 1].start <= BB_MAX_LEN
            then NextOk(t, t[k - 1].start, Max(t[k - 1].End(), e), k)
            else RestOk(t, t[k - 1].start + BB_MAX_LEN, e, k)
  {
  }

  lemma SetApart(t: Table, s: nat, n: int, k: nat, ack: bool)
    requires WellFormed(t) && n >= 1 && s + n <= MAX_SECTOR && !Set(t, s, n, ack).full
    requires k == StartsBefore(t, s + 1) && (k < |t| ==> t[k].start > s) && (k > 0 ==> t[k - 1].End() < s)
    ensures Exact(t, Set(t, s, n, ack).t, s, s + n) <==> RestOk(t, s, s + n, k)
  {
    hide InsertRest, Combine, MergeNext, RestOk, Exact;
    var c := Locate(t, s, n);
    assert MergePrev(c, ack) == c;
    NoTouch(t, s, s + n, k, c, ack);
  }

  lemma SetFits(t: Table, s: nat, n: int, k: nat, ack: bool)
    requires WellFormed(t) && n >= 1 && s + n <= MAX_SECTOR
    requires 0 < k == StartsBefore(t, s + 1) && t[k - 1].start <= s <= t[k - 1].End() && (k < |t| ==> t[k].start > s)
    requires Max(t[k - 1].End(), s + n) - t[k - 1].start <= BB_MAX_LEN
    ensures Exact(t, Set(t, s, n, ack).t, s, s + n) <==> NextOk(t, t[k - 1].start, Max(t[k - 1].End(), s + n), k)
  {
    hide FromNext, NextOk, Exact;
    var q, e' := t[k - 1], Max(t[k - 1].End(), s + n);
    var p := Range(q.start, e' - q.start, if s == q.start && s + n >= q.End() then ack else q.ack && ack);
    var c := MergePrev(Locate(t, s, n), ack);
    assert c == Cursor(t[k - 1 := p], e', 0, k - 1, k);
    TouchFits(t, s, s + n, k, p, c, ack);
  }

  lemma SetOverflows(t: Table, s: nat, n: int, k: nat, ack: bool)
    requires WellFormed(t) && n >= 1 && s + n <= MAX_SECTOR && !Set(t, s, n, ack).full
    requires 0 < k == StartsBefore(t, s + 1) && t[k - 1].start <= s <= t[k - 1].End() && (k < |t| ==> t[k].start > s)
    requires Max(t[k - 1].End(), s + n) - t[k - 1].start > BB_MAX_LEN
    ensures Exact(t, Set(t, s, n, ack).t, s, s + n) <==> RestOk(t, t[k - 1].start + BB_MAX_LEN, s + n, k)
  {
    hide FromNext, RestOk, Exact, MergePrev;
    var q := t[k - 1];
    var flag := if s == q.start && s + n >= q.End() then ack else q.ack && ack;
    var p := Range(q.start, BB_MAX_LEN, if q.len == BB_MAX_LEN then q.ack else flag);
    OverflowCursor(t, s, n, k, p, ack);
    TouchOverflows(t, s, s + n, k, p, MergePrev(Locate(t, s, n), ack), ack);
  }

  lemma OverflowCursor(t: Table, s: nat, n: int, k: nat, p: Range, ack: bool)
    requires n >= 1 && 0 < k == StartsBefore(t, s + 1) && t[k - 1].End() >= s
    requires Max(t[k - 1].End(), s + n) - t[k - 1].start > BB_MAX_LEN >= t[k - 1].len
    requires var q := t[k - 1];
             p == Range(q.start, BB_MAX_LEN,
                        if q.len == BB_MAX_LEN then q.ack else if s == q.start && s + n >= q.End() then ack else q.ack && ack)
    ensures MergePrev(Locate(t, s, n), ack) == Cursor(t[k - 1 := p], p.End(), s + n - p.End(), k - 1, k)
  {
    assert p.len == t[k - 1].len ==> t[k - 1 := p] == t;
  }

  lemma NoTouch(t: Table, s: nat, e: int, k: nat, c: Cursor, ack: bool)
    requires WellFormed(t) && s < e <= MAX_SECTOR && k <= |t| && (k < |t| ==> t[k].start > s)
    requires k > 0 ==> t[k - 1].End() < s
    requires c.t == t && c.s == s && c.n == e - s && c.hi == k && !FromNext(c, ack).full
    ensures Exact(t, FromNext(c, ack).t, s, e) <==> RestOk(t, s, e, k)
  {
    var pre, post := t[..k], t[k..];
    NoTouchMerging(t, s, e, k, pre, post);
    RestIsExact(pre, [], post, s, e, [], s, c, ack);
  }

  lemma NoTouchMerging(t: Table, s: nat, e: int, k: nat, pre: Table, post: Table)
    requires WellFormed(t) && s < e <= MAX_SECTOR && k <= |t| && (k < |t| ==> t[k].start > s)
    requires (k > 0 ==> t[k - 1].End() < s) && pre == t[..k] && post == t[k..]
    ensures pre + [] + post == t && |pre + []| == k && Merging(pre, [], post, s, e, [], s, s, e)
  {
    assert pre + [] == pre && t == pre + post;
    assert Hull([], s, e, s, e);
  }

  lemma Singleton(q: Range, s: int, e: int)
    requires q.start <= s <= q.End() && s < e
    ensures Hull([q], s, e, q.start, Max(q.End(), e))
  {
    forall x ensures Bad([q], x) <==> q.Has(x) { assert Bad([q], x) <==> [q][0].Has(x); }
  }

  lemma TouchFits(t: Table, s: nat, e: int, k: nat, p: Range, c: Cursor, ack: bool)
    requires WellFormed(t) && s < e <= MAX_SECTOR && 0 < k <= |t| && (k < |t| ==> t[k].start > s)
    requires t[k - 1].start <= s <= t[k - 1].End()
    requires p.start == t[k - 1].start && p.End() == Max(t[k - 1].End(), e) && p.len <= BB_MAX_LEN
    requires c == Cursor(t[k - 1 := p], p.End(), 0, k - 1, k)
    ensures Exact(t, FromNext(c, ack).t, s, e) <==> NextOk(t, p.start, p.End(), k)
  {
    var q, pre, post := t[k - 1], t[..k - 1], t[k..];
    assert t == pre + [q] + post && |pre + [q]| == k && pre + [] == pre;
    assert c.t == pre + [p] + post;
    Singleton(q, s, e);
    FinishCombining(pre, [q], post, s, e, [], p, q.start, c);
  }

  lemma TouchOverflows(t: Table, s: nat, e: int, k: nat, p: Range, c: Cursor, ack: bool)
    requires WellFormed(t) && s < e <= MAX_SECTOR && 0 < k <= |t| && (k < |t| ==> t[k].start > s)
    requires t[k - 1].start <= s <= t[k - 1].End() && Max(t[k - 1].End(), e) - t[k - 1].start > BB_MAX_LEN
    requires p.start == t[k - 1].start && p.len == BB_MAX_LEN
    requires c == Cursor(t[k - 1 := p], p.End(), e - p.End(), c.lo, k) && !FromNext(c, ack).full
    ensures Exact(t, FromNext(c, ack).t, s, e) <==> RestOk(t, c.s, e, k)
  {
    var q, pre, post := t[k - 1], t[..k - 1], t[k..];
    assert t == pre + [q] + post && |pre + [q]| == k;
    assert c.t == pre + [p] + post;
    ChainAppend([], q.start, q.start, p);
    assert [] + [p] == [p];
    Singleton(q, s, e);
    RestIsExact(pre, [q], post, s, e, [p], q.start, c, ack);
  }

  /** A range of at most 512 sectors that overlaps no recorded range starting after it is always recorded exactly. */
  lemma PlainRangeIsMergeable(t: Table, s: nat, n: int)
    requires WellFormed(t) && 1 <= n <= BB_MAX_LEN
    requires forall i :: 0 <= i < |t| && t[i].start > s ==> t[i].start >= s + n
    ensures Mergeable(t, s, n)
  {
    var k := StartsBefore(t, s + 1);
    StartsBeforeSplits(t, s + 1);
    MergeableCases(t, s, n);
    if k + 1 < |t| {
      assert t[k].End() <= t[k + 1].start;
    }
  }

  /** badblocks_set is not exact for every range: this one swallows a later range and then forgets sectors. */
  lemma SetCanLoseSectors()
    ensures var t := [Range(0, 5, true), Range(10, 2, true)];
            && WellFormed(t) && Set(t, 5, 20, true) == SetResult([Range(0, 12, true)], false)
            && !Mergeable(t, 5, 20) && !Bad(Set(t, 5, 20, true).t, 20)
  {
    var p, q := Range(0, 5, true), Range(10, 2, true);
    var t := [p, q];
    assert t[1..] == [q];
    assert StartsBefore(t, 6) == 1;
    assert MergePrev(Locate(t, 5, 20), true) == Cursor([Range(0, 25, true), q], 25, 0, 0, 1);
    assert [Range(0, 12, true), q][..1] + [Range(0, 12, true), q][2..] == [Range(0, 12, true)];
    MergeableCases(t, 5, 20);
    assert t[1].End() == 12 && !Bad(t, 20);
  }

  /** Recording no sectors at all may clear a flag and join two ranges, and changes no sector. */
  lemma SetOfNothing(t: Table, s: nat, ack: bool)
    requires WellFormed(t)
    ensures !Set(t, s, 0, ack).full && Exact(t, Set(t, s, 0, ack).t, s, s)
  {
    hide Bad, Set, Combine, WellFormed;
    var k := StartsBefore(t, s + 1);
    StartsBeforeSplits(t, s + 1);
    if k > 0 && t[k - 1].End() >= s {
      var p := t[k - 1];
      var p' := p.(ack := if s == p.start && s >= p.End() then ack else p.ack && ack);
      var c := TouchNothing(t, s, k, ack, p');
      assert t == t[..k - 1] + [p] + t[k..];
      assert c.t == t[..k - 1] + [p'] + t[k..];
      JoinNothing(t[..k - 1], p, p', t[k..], c);
    } else {
      ApartFromNothing(t, s, k, ack);
    }
  }

  lemma ApartFromNothing(t: Table, s: nat, k: nat, ack: bool)
    requires k == StartsBefore(t, s + 1) && (k < |t| ==> t[k].start > s) && (k > 0 ==> t[k - 1].End() < s)
    ensures Set(t, s, 0, ack) == SetResult(t, false)
  {
  }

  lemma TouchNothing(t: Table, s: nat, k: nat, ack: bool, p': Range) returns (c: Cursor)
    requires WellFormed(t) && 0 < k == StartsBefore(t, s + 1) && t[k - 1].start <= s <= t[k - 1].End()
    requires var p := t[k - 1]; p' == p.(ack := if s == p.start && s >= p.End() then ack else p.ack && ack)
    ensures c == Cursor(t[k - 1 := p'], p'.End(), 0, k - 1, k) && Set(t, s, 0, ack) == SetResult(Combine(c).t, false)
  {
    hide Combine;
    c := MergePrev(Locate(t, s, 0), ack);
    assert MergeNext(c, ack) == c;
    CombineRest(c);
  }

  lemma CombineRest(c: Cursor)
    requires 0 <= c.hi <= |c.t| && (c.n == 0 && c.hi < |c.t| ==> 0 <= c.lo <= c.hi)
    ensures Combine(c).n == c.n && Combine(c).s == c.s && Combine(c).hi == c.hi <= |Combine(c).t|
  {
  }

  lemma SameSectors(pre: Table, u: Table, v: Table, post: Table)
    requires WellFormed(pre + u + post) && u != []
    requires Chain(u, u[0].start, u[|u| - 1].End()) && Chain(v, u[0].start, u[|u| - 1].End())
    ensures WellFormed(pre + v + post) && forall x :: Bad(pre + v + post, x) <==> Bad(pre + u + post, x)
  {
    var t, n := pre + u + post, |pre|;
    assert t[n] == u[0] && t[n + |u| - 1] == u[|u| - 1];
    assert pre != [] ==> t[n - 1] == pre[n - 1];
    assert post != [] ==> t[n + |u|] == post[0];
    Thirds(pre, u, post);
    ChainCovers(u, u[0].start, u[|u| - 1].End());
    Splice(pre, u, post, u[0].start, u[|u| - 1].End());
    Splice(pre, v, post, u[0].start, u[|u| - 1].End());
  }

  lemma JoinNothing(pre: Table, p: Range, p': Range, post: Table, c: Cursor)
    requires WellFormed(pre + [p] + post) && p' == p.(ack := p'.ack)
    requires c == Cursor(pre + [p'] + post, p.End(), 0, |pre|, |pre| + 1)
    ensures var r := Combine(c).t; WellFormed(r) && forall x :: Bad(r, x) <==> Bad(pre + [p] + post, x)
  {
    hide Bad, WellFormed;
    InTheMiddle(pre, p, post);
    SameSectors(pre, [p], [p'], post);
    if post != [] {
      var q, z := post[0], post[1..];
      assert c.t[|pre|] == p' && c.t[|pre| + 1] == q;
      if p.End() >= q.start && p.len + q.len < BB_MAX_LEN {
        var r := Range(p.start, p.len + q.len, p'.ack && q.ack);
        assert Combine(c).t == pre + [r] + z;
        assert pre + [p] + post == pre + [p, q] + z;
        assert [p, q][1..] == [q] && [q][1..] == [];
        SameSectors(pre, [p, q], [r], z);
      }
    }
  }

  lemma InTheMiddle(pre: Table, p: Range, post: Table)
    requires WellFormed(pre + [p] + post)
    ensures 1 <= p.len <= BB_MAX_LEN && (post != [] ==> p.End() <= post[0].start && 1 <= post[0].len <= BB_MAX_LEN)
  {
    var t := pre + [p] + post;
    assert t[|pre|] == p && (post != [] ==> t[|pre| + 1] == post[0]);
  }

  // ---- when the table fills up ----

  /** How many more ranges the table can take. */
  function Room(t: Table): nat { if |t| < MAX_BADBLOCKS then MAX_BADBLOCKS - |t| else 0 }

  /** `j` ranges of 512 sectors from `s` on, as the loop leaves them: the last one first. */
  function Blocks(s: nat, j: nat, ack: bool): Table
    decreases j
  {
    if j == 0 then [] else Blocks(s + BB_MAX_LEN, j - 1, ack) + [Range(s, BB_MAX_LEN, ack)]
  }

  /** A loop that runs out of room has put in as many full ranges as there was room for. */
  lemma {:induction false} InsertUntilFull(c: Cursor, ack: bool)
    requires 0 <= c.hi <= |c.t| && c.s >= 0 && c.n >= 0 && InsertRest(c, ack).full
    ensures InsertRest(c, ack).t == c.t[..c.hi] + Blocks(c.s, Room(c.t), ack) + c.t[c.hi..]
    ensures c.n > BB_MAX_LEN * Room(c.t)
    decreases c.n
  {
    hide InsertRest;
    var x, y := c.t[..c.hi], c.t[c.hi..];
    if Room(c.t) == 0 {
      NoRoom(c, ack);
      assert c.t == x + [] + y;
    } else {
      var r := Range(c.s, BB_MAX_LEN, ack);
      var c' := c.(t := x + [r] + y, n := c.n - BB_MAX_LEN, s := c.s + BB_MAX_LEN);
      InsertOne(c, c', ack);
      InsertUntilFull(c', ack);
      var z := Blocks(c'.s, Room(c'.t), ack);
      assert c'.t[..c.hi] == x && c'.t[c.hi..] == [r] + y;
      assert x + z + ([r] + y) == x + (z + [r]) + y;
    }
  }

  lemma NoRoom(c: Cursor, ack: bool)
    requires 0 <= c.hi <= |c.t| && c.s >= 0 && c.n >= 0 && InsertRest(c, ack).full && Room(c.t) == 0
    ensures InsertRest(c, ack).t == c.t && c.n > 0
  {
  }

  lemma InsertOne(c: Cursor, c': Cursor, ack: bool)
    requires 0 <= c.hi <= |c.t| && c.s >= 0 && c.n >= 0 && InsertRest(c, ack).full && Room(c.t) > 0
    requires c' == c.(t := c.t[..c.hi] + [Range(c.s, BB_MAX_LEN, ack)] + c.t[c.hi..], n := c.n - BB_MAX_LEN, s := c.s + BB_MAX_LEN)
    ensures c'.n > 0 && InsertRest(c, ack) == InsertRest(c', ack) && Room(c'.t) == Room(c.t) - 1
  {
  }

  lemma {:induction false} BlocksCover(s: nat, j: nat, ack: bool, x: int)
    ensures |Blocks(s, j, ack)| == j
    ensures Bad(Blocks(s, j, ack), x) <==> s <= x < s + BB_MAX_LEN * j
    decreases j
  {
    if j > 0 {
      var r := Range(s, BB_MAX_LEN, ack);
      BlocksCover(s + BB_MAX_LEN, j - 1, ack, x);
      BadConcat(Blocks(s + BB_MAX_LEN, j - 1, ack), [r], x);
      assert Bad([r], x) <==> [r][0].Has(x);
    }
  }

  /** Where the sectors begin that no range starting at or before `s` can take. */
  function RestStart(t: Table, s: nat, k: nat): int
    requires k <= |t|
  {
    if k > 0 && t[k - 1].End() >= s then t[k - 1].start + BB_MAX_LEN else s
  }

  /** The range after the new one is merged with. */
  predicate Meets(t: Table, e: int, k: nat) {
    k < |t| && t[k].start <= e
  }

  /**
   The table after the merges of a set that fails: the range before the new one has grown to 512 sectors
   if they touch, and the one after it now is the 512 sectors that follow.
   */
  ghost predicate Stretched(t: Table, b: Table, s: nat, e: int, k: nat)
    requires k <= |t|
  {
    && |b| == |t| && RestStart(t, s, k) >= 0
    && (forall i :: 0 <= i < |t| && i != k - 1 && i != k ==> b[i] == t[i])
    && (k > 0 ==> if t[k - 1].End() >= s then b[k - 1].start == t[k - 1].start && b[k - 1].len == BB_MAX_LEN else b[k - 1] == t[k - 1])
    && (k < |t| ==> if Meets(t, e, k) then b[k].start == RestStart(t, s, k) && b[k].len == BB_MAX_LEN else b[k] == t[k])
  }

  lemma FullAfterMerges(t: Table, b: Table, s: nat, e: int, k: nat, c: Cursor, ack: bool) returns (b': Table)
    requires WellFormed(t) && s < e && k <= |t| && c.t == b && |b| == |t| && c.hi == k
    requires c.s == RestStart(t, s, k) && c.s + c.n == e && c.n > 0 && c.s >= 0
    requires forall i :: 0 <= i < |t| && i != k - 1 ==> b[i] == t[i]
    requires k > 0 ==> if t[k - 1].End() >= s then b[k - 1].start == t[k - 1].start && b[k - 1].len == BB_MAX_LEN else b[k - 1] == t[k - 1]
    requires FromNext(c, ack).full
    ensures Stretched(t, b', s, e, k)
    ensures var hi, from := if Meets(t, e, k) then k + 1 else k, c.s + if Meets(t, e, k) then BB_MAX_LEN else 0;
            && FromNext(c, ack).t == b'[..hi] + Blocks(from, Room(t), ack) + b'[hi..]
            && from + BB_MAX_LEN * Room(t) < if Meets(t, e, k) then Max(t[k].End(), e) else e
  {
    hide InsertRest, Blocks, WellFormed;
    var c1 := MergeNext(c, ack);
    assert c1.n != 0 by {
      if c1.n == 0 { NothingLeft(Combine(c1), ack); }
    }
    assert Combine(c1) == c1;
    InsertUntilFull(c1, ack);
    b' := c1.t;
  }

  lemma NothingLeft(c: Cursor, ack: bool)
    requires 0 <= c.hi <= |c.t| && c.s >= 0 && c.n == 0
    ensures !InsertRest(c, ack).full
  {
  }

  lemma FullShape(t: Table, s: nat, n: int, ack: bool) returns (b: Table)
    requires WellFormed(t) && n >= 1 && Set(t, s, n, ack).full
    ensures var k, e := StartsBefore(t, s + 1), s + n;
            var hi := if Meets(t, e, k) then k + 1 else k;
            var from := RestStart(t, s, k) + if Meets(t, e, k) then BB_MAX_LEN else 0;
            && Stretched(t, b, s, e, k) && from >= 0
            && Set(t, s, n, ack).t == b[..hi] + Blocks(from, Room(t), ack) + b[hi..]
            && from + BB_MAX_LEN * Room(t) < if Meets(t, e, k) then Max(t[k].End(), e) else e
  {
    hide FromNext, Blocks, Stretched;
    var k, e := StartsBefore(t, s + 1), s + n;
    StartsBeforeSplits(t, s + 1);
    if k == 0 || t[k - 1].End() < s {
      b := FullAfterMerges(t, t, s, e, k, Locate(t, s, n), ack);
    } else if Max(t[k - 1].End(), e) - t[k - 1].start <= BB_MAX_LEN {
      FittingIsNeverFull(t, s, n, k, ack);
      assert false;
    } else {
      var q := t[k - 1];
      var flag := if s == q.start && s + n >= q.End() then ack else q.ack && ack;
      var p := Range(q.start, BB_MAX_LEN, if q.len == BB_MAX_LEN then q.ack else flag);
      OverflowCursor(t, s, n, k, p, ack);
      b := FullAfterMerges(t, t[k - 1 := p], s, e, k, MergePrev(Locate(t, s, n), ack), ack);
    }
  }

  lemma FittingIsNeverFull(t: Table, s: nat, n: int, k: nat, ack: bool)
    requires n >= 1 && 0 < k == StartsBefore(t, s + 1) && t[k - 1].End() >= s
    requires Max(t[k - 1].End(), s + n) - t[k - 1].start <= BB_MAX_LEN
    ensures !Set(t, s, n, ack).full
  {
    assert MergePrev(Locate(t, s, n), ack).n == 0;
  }

  ghost predicate KeepsBad(t: Table, t': Table) {
    forall x :: Bad(t, x) ==> Bad(t', x)
  }

  /** The range after the new one is merged with, and reaches beyond what there is room for. */
  predicate Truncates(t: Table, a: int, e: int, k: nat) {
    Meets(t, e, k) && t[k].End() > a + BB_MAX_LEN * (1 + Room(t))
  }

  lemma FullCovers(t: Table, b: Table, r: Table, hi: nat, from: nat, ack: bool, x: int)
    requires hi <= |b| && r == b[..hi] + Blocks(from, Room(t), ack) + b[hi..]
    ensures Bad(r, x) <==> Bad(b, x) || from <= x < from + BB_MAX_LEN * Room(t)
  {
    hide Bad, Blocks;
    BadConcat(b[..hi], Blocks(from, Room(t), ack), x);
    BadConcat(b[..hi] + Blocks(from, Room(t), ack), b[hi..], x);
    BadConcat(b[..hi], b[hi..], x);
    assert b == b[..hi] + b[hi..];
    BlocksCover(from, Room(t), ack, x);
  }

  /** What stretching may lose: the end of the range that was merged with. */
  lemma StretchedCovers(t: Table, b: Table, s: nat, e: int, k: nat, x: int)
    requires WellFormed(t) && k == StartsBefore(t, s + 1) && Stretched(t, b, s, e, k)
    ensures Bad(t, x) ==> Bad(b, x) || (Meets(t, e, k) && t[k].Has(x) && x >= RestStart(t, s, k) + BB_MAX_LEN)
    ensures Meets(t, e, k) && t[k].Has(x) && x >= RestStart(t, s, k) + BB_MAX_LEN ==> !Bad(b, x)
  {
    StartsBeforeSplits(t, s + 1);
    if Bad(t, x) {
      var i :| 0 <= i < |t| && t[i].Has(x);
      if i != k || !Meets(t, e, k) {
        assert b[i].Has(x);
      } else if x < RestStart(t, s, k) {
        assert b[k - 1].Has(x);
      } else if x < RestStart(t, s, k) + BB_MAX_LEN {
        assert b[k].Has(x);
      }
    }
    if Meets(t, e, k) && t[k].Has(x) && x >= RestStart(t, s, k) + BB_MAX_LEN {
      forall i | 0 <= i < |b|
        ensures !b[i].Has(x)
      {
        assert i < k ==> t[i].End() <= t[k].start;
        assert i > k ==> t[k].End() <= t[i].start;
      }
    }
  }

  /**
   A badblocks_set that fails for lack of room keeps every sector that was bad before if and only if it
   did not cut the range it merged with.
   */
  lemma FailedSetKeepsOld(t: Table, s: nat, n: int, ack: bool)
    requires WellFormed(t) && n >= 1 && s + n <= MAX_SECTOR && Set(t, s, n, ack).full
    ensures var k := StartsBefore(t, s + 1);
            KeepsBad(t, Set(t, s, n, ack).t) <==> !Truncates(t, RestStart(t, s, k), s + n, k)
  {
    hide Set, Blocks, Stretched, WellFormed;
    var k, e, r := StartsBefore(t, s + 1), s + n, Set(t, s, n, ack).t;
    var b := FullShape(t, s, n, ack);
    var meets := Meets(t, e, k);
    var hi, from: nat := if meets then k + 1 else k, RestStart(t, s, k) + if meets then BB_MAX_LEN else 0;
    StretchedFields(t, b, s, e, k);
    forall x
      ensures Bad(t, x) && !Bad(r, x) <==> meets && t[k].Has(x) && x >= from + BB_MAX_LEN * Room(t)
    {
      FullCovers(t, b, r, hi, from, ack, x);
      StretchedCovers(t, b, s, e, k, x);
    }
    if Truncates(t, RestStart(t, s, k), e, k) {
      LastSector(t, k);
      assert Bad(t, t[k].End() - 1) && !Bad(r, t[k].End() - 1);
    }
  }

  lemma LastSector(t: Table, k: nat)
    requires WellFormed(t) && k < |t|
    ensures t[k].Has(t[k].End() - 1) && Bad(t, t[k].End() - 1)
  {
    assert t[k].Has(t[k].End() - 1);
  }

  /** A full table of which a set next to the first range forgets that range's last sectors. */
  lemma FullSetForgets(t: Table)
    requires t == seq(MAX_BADBLOCKS, (i: nat) => Range(2000 * i + 1000, 512, true))
    ensures WellFormed(t) && Mergeable(t, 990, 10) && Set(t, 990, 10, true).full
    ensures Bad(t, 1511) && !Bad(Set(t, 990, 10, true).t, 1511)
  {
    assert t[0] == Range(1000, 512, true) && t[1] == Range(3000, 512, true);
    assert StartsBefore(t, 991) == 0;
    assert MergePrev(Locate(t, 990, 10), true) == Cursor(t, 990, 10, 0, 0);
    var t' := t[0 := Range(990, 512, true)];
    assert MergeNext(Cursor(t, 990, 10, 0, 0), true) == Cursor(t', 1502, 10, 0, 1);
    assert Set(t, 990, 10, true) == SetResult(t', true);
    assert t[0].Has(1511);
    forall i | 0 <= i < |t'|
      ensures !t'[i].Has(1511)
    {
      assert i > 0 ==> t'[i] == t[i];
    }
  }

  lemma StretchedBefore(t: Table, b: Table, s: nat, e: int, k: nat)
    requires WellFormed(t) && k == StartsBefore(t, s + 1) && Stretched(t, b, s, e, k) && RestStart(t, s, k) <= MAX_SECTOR
    ensures WellFormed(b[..k]) && (k > 0 ==> b[k - 1].End() <= RestStart(t, s, k))
  {
    if k > 0 {
      StartsBeforeSplits(t, s + 1);
      var p := b[k - 1];
      assert 1 <= t[k - 1].len <= BB_MAX_LEN && t[k - 1].End() <= MAX_SECTOR;
      assert WellFormed([p]);
      WellFormedSlice(t, 0, k - 1);
      assert k > 1 ==> t[k - 2].End() <= t[k - 1].start;
      WellFormedConcat(t[..k - 1], [p]);
      assert b[..k] == t[..k - 1] + [p];
    }
  }

  lemma StretchedPrefix(t: Table, b: Table, s: nat, e: int, k: nat)
    requires WellFormed(t) && k == StartsBefore(t, s + 1) && Stretched(t, b, s, e, k)
    requires RestStart(t, s, k) + (if Meets(t, e, k) then BB_MAX_LEN else 0) <= MAX_SECTOR
    ensures var hi := if Meets(t, e, k) then k + 1 else k;
            && WellFormed(b[..hi]) && WellFormed(b[hi..]) && b[hi..] == t[hi..]
            && (hi > 0 ==> b[hi - 1].End() <= RestStart(t, s, k) + if Meets(t, e, k) then BB_MAX_LEN else 0)
            && (Meets(t, e, k) ==> b[k].End() == RestStart(t, s, k) + BB_MAX_LEN)
  {
    hide WellFormed, Stretched;
    StretchedBefore(t, b, s, e, k);
    StretchedFields(t, b, s, e, k);
    var hi := if Meets(t, e, k) then k + 1 else k;
    if Meets(t, e, k) {
      SingleWellFormed(b[k]);
      WellFormedConcat(b[..k], [b[k]]);
      assert b[..hi] == b[..k] + [b[k]];
    }
    WellFormedSlice(t, hi, |t|);
    assert t[hi..] == t[hi..|t|];
  }

  lemma SingleWellFormed(p: Range)
    requires 1 <= p.len <= BB_MAX_LEN && p.End() <= MAX_SECTOR
    ensures WellFormed([p])
  {
  }

  lemma StretchedFields(t: Table, b: Table, s: nat, e: int, k: nat)
    requires k <= |t| && Stretched(t, b, s, e, k)
    ensures |b| == |t|
    ensures Meets(t, e, k) ==> b[k].start == RestStart(t, s, k) && b[k].len == BB_MAX_LEN
    ensures var hi := if Meets(t, e, k) then k + 1 else k; b[hi..] == t[hi..]
  {
  }

  /** A set that fails leaves a sorted table if and only if it put in at most one range and did not run into the range behind. */
  lemma FailedSetIsSorted(t: Table, s: nat, n: int, ack: bool)
    requires WellFormed(t) && n >= 1 && s + n <= MAX_SECTOR && Set(t, s, n, ack).full
    ensures var k := StartsBefore(t, s + 1);
            WellFormed(Set(t, s, n, ack).t) <==>
            && Room(t) <= 1
            && (Meets(t, s + n, k) && k + 1 < |t| ==> t[k + 1].start >= RestStart(t, s, k) + BB_MAX_LEN * (1 + Room(t)))
  {
    hide Set, WellFormed, Stretched, Blocks;
    var k, e, j := StartsBefore(t, s + 1), s + n, Room(t);
    var b := FullShape(t, s, n, ack);
    var hi, from: nat := if Meets(t, e, k) then k + 1 else k, RestStart(t, s, k) + if Meets(t, e, k) then BB_MAX_LEN else 0;
    InTable(t, k);
    StretchedFields(t, b, s, e, k);
    StretchedPrefix(t, b, s, e, k);
    if j >= 2 {
      ReversedBlocks(b[..hi], from, j, ack, b[hi..]);
    } else {
      OneBlock(from, j, ack);
      if hi < |t| {
        assert b[hi] == b[hi..][0] == t[hi..][0] == t[hi];
      }
      FewBlocks(b, hi, from, j, ack, Meets(t, e, k));
    }
  }

  /** At most one range goes in behind `hi`: the table stays sorted unless it runs into the range there. */
  lemma FewBlocks(b: Table, hi: nat, from: nat, j: nat, ack: bool, meets: bool)
    requires hi <= |b| && j <= 1 && WellFormed(b[..hi]) && WellFormed(b[hi..]) && WellFormed(Blocks(from, j, ack))
    requires |Blocks(from, j, ack)| == j && (j == 1 ==> Blocks(from, j, ack)[0] == Range(from, BB_MAX_LEN, ack))
    requires hi > 0 ==> b[hi - 1].End() <= from
    requires if meets then hi > 0 && b[hi - 1].End() == from else hi < |b| ==> b[hi].start >= from + BB_MAX_LEN * j
    ensures WellFormed(b[..hi] + Blocks(from, j, ack) + b[hi..]) <==> (hi < |b| ==> b[hi].start >= from + BB_MAX_LEN * j)
  {
    hide WellFormed, Blocks;
    var blocks := Blocks(from, j, ack);
    var x := b[..hi] + blocks;
    WellFormedConcat(b[..hi], blocks);
    if hi < |b| && b[hi].start < from + BB_MAX_LEN * j {
      RunsInto(x + b[hi..], b, hi, from, j, blocks);
    } else {
      assert x != [] ==> x[|x| - 1].End() <= from + BB_MAX_LEN * j;
      WellFormedConcat(x, b[hi..]);
    }
  }

  lemma InTable(t: Table, k: nat)
    requires WellFormed(t)
    ensures k < |t| ==> t[k].End() <= MAX_SECTOR
  {
  }

  lemma OneBlock(from: nat, j: nat, ack: bool)
    requires j <= 1 && from + BB_MAX_LEN * j <= MAX_SECTOR
    ensures WellFormed(Blocks(from, j, ack)) && |Blocks(from, j, ack)| == j
    ensures j == 1 ==> Blocks(from, j, ack)[0] == Range(from, BB_MAX_LEN, ack)
  {
    assert j == 1 ==> Blocks(from, j, ack) == [] + [Range(from, BB_MAX_LEN, ack)];
  }

  lemma ReversedBlocks(x: Table, from: nat, j: nat, ack: bool, y: Table)
    requires j >= 2
    ensures !WellFormed(x + Blocks(from, j, ack) + y)
  {
    var u := Blocks(from + 2 * BB_MAX_LEN, j - 2, ack);
    var p, q := Range(from + BB_MAX_LEN, BB_MAX_LEN, ack), Range(from, BB_MAX_LEN, ack);
    assert Blocks(from, j, ack) == u + [p] + [q];
    var r := x + Blocks(from, j, ack) + y;
    assert r[|x + u|] == p && r[|x + u| + 1] == q;
    assert r[|x + u|].End() > r[|x + u| + 1].start;
  }

  lemma RunsInto(r: Table, b: Table, hi: nat, from: nat, j: nat, blocks: Table)
    requires hi < |b| && r == b[..hi] + blocks + b[hi..] && |blocks| == j <= 1
    requires j == 1 ==> blocks[0].End() == from + BB_MAX_LEN
    requires j == 0 ==> hi > 0 && b[hi - 1].End() == from
    requires b[hi].start < from + BB_MAX_LEN * j
    ensures !WellFormed(r)
  {
    var i := hi + j;
    assert r[i] == b[hi] && r[i - 1].End() == from + BB_MAX_LEN * j;
    assert r[i - 1].End() > r[i].start;
  }

  /** In particular for every range that would have been recorded exactly. */
  lemma FailedMergeable(t: Table, s: nat, n: int, ack: bool)
    requires WellFormed(t) && n >= 1 && s + n <= MAX_SECTOR && Mergeable(t, s, n) && Set(t, s, n, ack).full
    ensures WellFormed(Set(t, s, n, ack).t)
  {
    hide Set, Stretched, Blocks;
    FailedSetIsSorted(t, s, n, ack);
    MergeableCases(t, s, n);
    StartsBeforeSplits(t, s + 1);
    var b := FullShape(t, s, n, ack);
    var k := StartsBefore(t, s + 1);
    if k > 0 && t[k - 1].End() >= s && Max(t[k - 1].End(), s + n) - t[k - 1].start <= BB_MAX_LEN {
      FittingIsNeverFull(t, s, n, k, ack);
    }
  }
}
