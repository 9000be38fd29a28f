/** Splitting bios so that each piece respects the limits of the queue. */
module BioSplitting {
  import opened Arithmetic
  import opened Segments
  import opened Scatterlist
  import opened RequestMerging

  const SECTOR := 512
  const BIO_MAX_PAGES := 256

  /** max_sectors, chunk_sectors (0 for none) and the logical block size, all in sectors. */
  datatype IoLimits = IoLimits(maxSectors: nat, chunk: nat, block: nat)
  {
    predicate Ok() { block >= 1 }
  }

  /** get_max_io_size at a start sector. */
  function MaxIo(l: IoLimits, sector: nat): nat
    requires l.Ok()
  {
    var x := if l.chunk == 0 then l.maxSectors else l.chunk - sector % l.chunk;
    x - x % l.block
  }

  /** get_max_io_size is whole blocks and as long as it can be, within max_sectors or up to the end of the chunk. */
  lemma MaxIoIsLargest(l: IoLimits, sector: nat)
    requires l.Ok()
    ensures var max, room := MaxIo(l, sector), if l.chunk == 0 then l.maxSectors else l.chunk - sector % l.chunk;
            max % l.block == 0 && max <= room < max + l.block
    ensures l.chunk > 0 && MaxIo(l, sector) > 0 ==> (sector + MaxIo(l, sector) - 1) / l.chunk == sector / l.chunk
  {
    var max := MaxIo(l, sector);
    var room := if l.chunk == 0 then l.maxSectors else l.chunk - sector % l.chunk;
    WholeBlocks(room, l.block);
    if l.chunk > 0 && max > 0 {
      SameChunk(sector, max, l.chunk);
    }
  }

  lemma WholeBlocks(x: nat, b: nat)
    requires b >= 1
    ensures (x - x % b) % b == 0 && x - x % b <= x < x - x % b + b
  {
    var k := x / b;
    assert x - x % b == k * b;
    DivMod(k * b, k, b, 0);
  }

  /** From `sector`, no more than what is left of its chunk. */
  lemma SameChunk(sector: nat, n: nat, chunk: nat)
    requires chunk > 0 && 0 < n <= chunk - sector % chunk
    ensures (sector + n - 1) / chunk == sector / chunk
  {
    var k := sector / chunk;
    assert sector == k * chunk + sector % chunk;
    assert (k + 1) * chunk == k * chunk + chunk;
    DivMono(k * chunk, sector + n - 1, chunk);
    assert sector + n - 1 < (k + 1) * chunk;
    var p := (sector + n - 1) / chunk;
    assert p * chunk <= sector + n - 1;
    CancelLess(p, k + 1, chunk);
    DivMono(sector, sector + n - 1, chunk);
  }

  /** Vectors hold a positive number of whole sectors. */
  predicate Whole(bvs: seq<Bvec>) {
    forall i :: 0 <= i < |bvs| ==> bvs[i].len > 0 && bvs[i].len % SECTOR == 0
  }

  /** bi_size: the bytes of the vectors. */
  function Size(bvs: seq<Bvec>): nat {
    if bvs == [] then 0 else bvs[0].len + Size(bvs[1..])
  }

  /** bio_sectors. */
  function Sectors(bvs: seq<Bvec>): nat { Size(bvs) / SECTOR }

  lemma {:induction false} SizeConcat(a: seq<Bvec>, b: seq<Bvec>)
    ensures Size(a + b) == Size(a) + Size(b)
  {
    if a == [] {
      assert a + b == b;
    } else {
      assert (a + b)[1..] == a[1..] + b;
      SizeConcat(a[1..], b);
    }
  }

  lemma {:induction false} WholeSize(bvs: seq<Bvec>)
    requires Whole(bvs)
    ensures Size(bvs) % SECTOR == 0 && Size(bvs) == SECTOR * Sectors(bvs)
    ensures bvs != [] ==> Size(bvs) > 0
  {
    if bvs != [] {
      WholeSize(bvs[1..]);
    }
  }

  lemma SizeOne(b: Bvec)
    ensures Size([b]) == b.len
  {
    assert [b][1..] == [];
  }

  /** The sectors that the scan counts: each vector's bytes are rounded down. */
  function FloorSectors(bvs: seq<Bvec>): nat {
    if bvs == [] then 0 else bvs[0].len / SECTOR + FloorSectors(bvs[1..])
  }

  lemma {:induction false} FloorConcat(a: seq<Bvec>, b: seq<Bvec>)
    ensures FloorSectors(a + b) == FloorSectors(a) + FloorSectors(b)
  {
    if a == [] {
      assert a + b == b;
    } else {
      assert (a + b)[1..] == a[1..] + b;
      FloorConcat(a[1..], b);
    }
  }

  lemma {:induction false} FloorIsLess(bvs: seq<Bvec>)
    ensures SECTOR * FloorSectors(bvs) <= Size(bvs) && FloorSectors(bvs) <= Sectors(bvs)
    ensures Whole(bvs) ==> FloorSectors(bvs) == Sectors(bvs) && SECTOR * FloorSectors(bvs) == Size(bvs)
  {
    if bvs != [] {
      FloorIsLess(bvs[1..]);
    }
  }

  lemma FloorNext(bvs: seq<Bvec>, i: nat)
    requires i < |bvs|
    ensures FloorSectors(bvs[..i + 1]) == FloorSectors(bvs[..i]) + bvs[i].len / SECTOR
  {
    assert bvs[..i + 1] == bvs[..i] + [bvs[i]] && [bvs[i]][1..] == [];
    FloorConcat(bvs[..i], [bvs[i]]);
  }

  lemma FloorUpto(bvs: seq<Bvec>, i: nat, j: nat)
    requires i <= j <= |bvs|
    ensures FloorSectors(bvs[..i]) <= FloorSectors(bvs[..j]) <= FloorSectors(bvs)
    ensures i > 0 ==> FloorSectors(bvs[..i]) >= bvs[0].len / SECTOR
  {
    assert bvs[..j] == bvs[..i] + bvs[i..j] && bvs == bvs[..j] + bvs[j..];
    FloorConcat(bvs[..i], bvs[i..j]);
    FloorConcat(bvs[..j], bvs[j..]);
  }

  // ---- the greedy count, one vector at a time ----

  /** Size of the segment that the greedy loop has open after the vectors. */
  function OpenSize(q: Queue, bvs: seq<Bvec>): nat
    requires q.Ok() && bvs != []
  {
    Tail(bvs, GreedyGroups(q, bvs))
  }

  /** Size that the first segment of the greedy loop reaches. */
  function HeadSize(q: Queue, bvs: seq<Bvec>): nat
    requires q.Ok() && bvs != []
  {
    Head(bvs, GreedyGroups(q, bvs))
  }

  lemma {:induction false} GreedySnoc(q: Queue, prev: Bvec, size: nat, bvs: seq<Bvec>, b: Bvec)
    requires q.Ok()
    ensures var j := GreedyJoins(q, prev, size, bvs);
            GreedyJoins(q, prev, size, bvs + [b]) == j + [CanJoin(q, LastSize(size, bvs, j), Last(prev, bvs), b)]
    decreases |bvs|
  {
    if bvs == [] {
      assert bvs + [b] == [b] && [b][1..] == [];
    } else {
      var join := CanJoin(q, size, prev, bvs[0]);
      var size' := if join then size + bvs[0].len else bvs[0].len;
      var j := GreedyJoins(q, bvs[0], size', bvs[1..]);
      assert (bvs + [b])[1..] == bvs[1..] + [b] && ([join] + j)[1..] == j;
      GreedySnoc(q, bvs[0], size', bvs[1..], b);
      assert [join] + (j + [CanJoin(q, LastSize(size', bvs[1..], j), Last(bvs[0], bvs[1..]), b)])
          == ([join] + j) + [CanJoin(q, LastSize(size', bvs[1..], j), Last(bvs[0], bvs[1..]), b)];
    }
  }

  lemma SegmentSnoc(q: Queue, bvs: seq<Bvec>, b: Bvec)
    requires q.Ok() && bvs != []
    ensures var join := CanJoin(q, OpenSize(q, bvs), bvs[|bvs| - 1], b);
            && SegmentCount(q, bvs + [b]) == SegmentCount(q, bvs) + (if join then 0 else 1)
            && OpenSize(q, bvs + [b]) == (if join then OpenSize(q, bvs) + b.len else b.len)
            && HeadSize(q, bvs + [b]) == (if SegmentCount(q, bvs) == 1 && join then HeadSize(q, bvs) + b.len else HeadSize(q, bvs))
            && (SegmentCount(q, bvs) == 1 ==> HeadSize(q, bvs) == OpenSize(q, bvs))
  {
    var v, size := bvs[1..], bvs[0].len;
    var j := GreedyJoins(q, bvs[0], size, v);
    var join := CanJoin(q, LastSize(size, v, j), Last(bvs[0], v), b);
    GreedySnoc(q, bvs[0], size, v, b);
    hide CanJoin, GreedyJoins;
    assert (bvs + [b])[1..] == v + [b] && ([false] + j)[1..] == j && ([false] + (j + [join]))[1..] == j + [join];
    OpensPositive(q, bvs, [false] + j);
    assert [b][1..] == [] && [join][1..] == [];
    GroupingConcat(q, bvs[0], size, v, j, [b], [join]);
  }

  // ---- blk_bio_segment_split ----

  /** Where to cut, if at all, and the segment count and sizes that the front piece is given. */
  datatype Cut = Cut(split: bool, sectors: nat, nsegs: nat, front: nat, back: nat)

  /** The local variables of the loop over the vectors. */
  datatype Scan = Scan(segSize: nat, nsegs: nat, sectors: nat, front: nat)
  {
    /** The bio's bi_seg_back_size is raised to the size of the open segment. */
    function Stop(split: bool, back: nat): Cut { Cut(split, sectors, nsegs, front, Max(back, segSize)) }

    function Add(join: bool, b: Bvec): Scan {
      var size := if join then segSize + b.len else b.len;
      var n := if join then nsegs else nsegs + 1;
      Scan(size, n, sectors + b.len / SECTOR, if n == 1 then Max(front, size) else front)
    }
  }

  /** The loop over the vectors from the i-th on. */
  function ScanFrom(q: Queue, max: nat, bvs: seq<Bvec>, i: nat, c: Scan, back: nat): Cut
    requires q.Ok() && i <= |bvs|
    decreases |bvs| - i
  {
    if i == |bvs| then c.Stop(false, back)
    else if i >= BIO_MAX_PAGES then c.Stop(true, back)
    else if i > 0 && Gap(q, bvs[i - 1], bvs[i]) then c.Stop(true, back)
    else
      var n := bvs[i].len / SECTOR;
      if c.sectors + n > max && c.nsegs < q.maxSegs && c.sectors < max then
        c.(sectors := max, nsegs := c.nsegs + 1).Stop(true, back)
      else if c.sectors + n > max && c.sectors > 0 then c.Stop(true, back)
      else
        var join := i > 0 && CanJoin(q, c.segSize, bvs[i - 1], bvs[i]);
        if !join && c.nsegs == q.maxSegs then c.Stop(true, back)
        else ScanFrom(q, max, bvs, i + 1, c.Add(join, bvs[i]), back)
  }

  /** `front` and `back` are the segment sizes recorded with the bio before. */
  function FindCut(q: Queue, max: nat, bvs: seq<Bvec>, front: nat, back: nat): Cut
    requires q.Ok()
  {
    ScanFrom(q, max, bvs, 0, Scan(0, 0, 0, front), back)
  }

  /** blk_bio_segment_split up to the call of bio_split. */
  method SegmentSplit(q: Queue, max: nat, bvs: seq<Bvec>, front: nat, back: nat) returns (cut: Cut)
    requires q.Ok()
    ensures cut == FindCut(q, max, bvs, front, back)
  {
    hide CanJoin, Gap;
    var c, i, split := Scan(0, 0, 0, front), 0, false;
    while i < |bvs| && !split
      invariant 0 <= i <= |bvs|
      invariant (if split then c.Stop(true, back) else ScanFrom(q, max, bvs, i, c, back)) == FindCut(q, max, bvs, front, back)
      decreases |bvs| - i, !split
    {
      var bv := bvs[i];
      var over := c.sectors + bv.len / SECTOR > max;
      var join := i > 0 && CanJoin(q, c.segSize, bvs[i - 1], bv);
      if i >= BIO_MAX_PAGES || (i > 0 && Gap(q, bvs[i - 1], bv)) {
        split := true;
      } else if over && c.nsegs < q.maxSegs && c.sectors < max {
        c, split := c.(sectors := max, nsegs := c.nsegs + 1), true;
      } else if over && c.sectors > 0 {
        split := true;
      } else if !join && c.nsegs == q.maxSegs {
        split := true;
      } else {
        c, i := c.Add(join, bv), i + 1;
      }
    }
    cut := c.Stop(split, back);
  }

  // ---- bio_split: the front `k` bytes and the rest ----

  function Take(bvs: seq<Bvec>, k: nat): seq<Bvec> {
    if bvs == [] || k == 0 then []
    else if bvs[0].len <= k then [bvs[0]] + Take(bvs[1..], k - bvs[0].len)
    else [bvs[0].(len := k)]
  }

  /** bio_advance. */
  function Drop(bvs: seq<Bvec>, k: nat): seq<Bvec> {
    if bvs == [] || k == 0 then bvs
    else if bvs[0].len <= k then Drop(bvs[1..], k - bvs[0].len)
    else [Bvec(bvs[0].page, bvs[0].offset + k, bvs[0].len - k)] + bvs[1..]
  }

  /** The two parts describe the bytes of the whole, in order. */
  lemma {:induction false} SplitKeepsBytes(bvs: seq<Bvec>, k: nat)
    ensures Bytes(Take(bvs, k)) + Bytes(Drop(bvs, k)) == Bytes(bvs)
  {
    if bvs == [] || k == 0 {
    } else if bvs[0].len <= k {
      SplitKeepsBytes(bvs[1..], k - bvs[0].len);
      var t := Take(bvs[1..], k - bvs[0].len);
      assert ([bvs[0]] + t)[1..] == t;
    } else {
      var b := bvs[0];
      var c := Bvec(b.page, b.offset + k, b.len - k);
      assert ([c] + bvs[1..])[1..] == bvs[1..];
      BytesOne(b.(len := k));
      SpanSplit(b.Phys(), k, b.len - k);
    }
  }

  /** The first `k` bytes are taken from the first `i` vectors when these hold as many. */
  lemma {:induction false} TakeFrom(bvs: seq<Bvec>, i: nat, k: nat)
    requires i <= |bvs| && k <= Size(bvs[..i])
    ensures Take(bvs, k) == Take(bvs[..i], k)
  {
    if i > 0 && k > 0 {
      var v := bvs[..i];
      assert v[0] == bvs[0] && v[1..] == bvs[1..][..i - 1];
      if bvs[0].len <= k {
        TakeFrom(bvs[1..], i - 1, k - bvs[0].len);
      }
    }
  }

  lemma {:induction false} TakeSize(bvs: seq<Bvec>, k: nat)
    requires k <= Size(bvs) && Filled(bvs)
    ensures Size(Take(bvs, k)) == k && Filled(Take(bvs, k)) && |Take(bvs, k)| <= |bvs|
  {
    if k > 0 {
      if bvs[0].len <= k {
        var t := Take(bvs[1..], k - bvs[0].len);
        TakeSize(bvs[1..], k - bvs[0].len);
        assert ([bvs[0]] + t)[1..] == t;
      } else {
        SizeOne(bvs[0].(len := k));
      }
    }
  }

  lemma {:induction false} TakeWhole(bvs: seq<Bvec>, k: nat)
    requires Whole(bvs) && k % SECTOR == 0
    ensures Whole(Take(bvs, k))
  {
    if bvs != [] && k > 0 && bvs[0].len <= k {
      assert bvs[0].len % SECTOR == 0;
      TakeWhole(bvs[1..], k - bvs[0].len);
    }
  }

  /** Whatever is cut off at the end, the vectors before it stay as they are. */
  lemma {:induction false} TakeShape(bvs: seq<Bvec>, k: nat, i: nat)
    requires i < |Take(bvs, k)|
    ensures i < |bvs| && Take(bvs, k)[i] == bvs[i].(len := Take(bvs, k)[i].len)
    ensures i + 1 < |Take(bvs, k)| ==> Take(bvs, k)[i] == bvs[i]
  {
    if bvs[0].len <= k && i > 0 {
      TakeShape(bvs[1..], k - bvs[0].len, i - 1);
    }
  }

  lemma TakeGapFree(q: Queue, bvs: seq<Bvec>, k: nat)
    requires GapFree(q, bvs)
    ensures GapFree(q, Take(bvs, k))
  {
    hide Take;
    var t := Take(bvs, k);
    forall i | 0 <= i < |t| - 1
      ensures !Gap(q, t[i], t[i + 1])
    {
      TakeShape(bvs, k, i);
      TakeShape(bvs, k, i + 1);
      assert !Gap(q, bvs[i], bvs[i + 1]);
    }
  }

  lemma ShorterJoins(q: Queue, size: nat, a: Bvec, b: Bvec, k: nat)
    requires q.Ok() && CanJoin(q, size, a, b) && 0 < k <= b.len
    ensures CanJoin(q, size, a, b.(len := k))
  {
    var lo, hi := a.Phys(), b.Phys() + b.len - 1;
    DivMono(lo, b.Phys() + k - 1, q.window);
    DivMono(b.Phys() + k - 1, hi, q.window);
  }

  lemma {:induction false} MoreTake(q: Queue, prev: Bvec, size: nat, bvs: seq<Bvec>, k: nat)
    requires q.Ok()
    ensures More(q, prev, size, Take(bvs, k)) <= More(q, prev, size, bvs)
    decreases |bvs|
  {
    if bvs != [] && k > 0 {
      var b := bvs[0];
      if b.len <= k {
        var t := Take(bvs[1..], k - b.len);
        assert ([b] + t)[1..] == t;
        MoreTake(q, b, if CanJoin(q, size, prev, b) then size + b.len else b.len, bvs[1..], k - b.len);
      } else {
        assert [b.(len := k)][1..] == [];
        if CanJoin(q, size, prev, b) {
          ShorterJoins(q, size, prev, b, k);
        }
      }
    }
  }

  lemma SegmentTake(q: Queue, bvs: seq<Bvec>, k: nat)
    requires q.Ok()
    ensures SegmentCount(q, Take(bvs, k)) <= SegmentCount(q, bvs)
  {
    if bvs != [] && k > 0 {
      var b := bvs[0];
      if b.len <= k {
        var t := Take(bvs[1..], k - b.len);
        assert ([b] + t)[1..] == t;
        MoreTake(q, b, b.len, bvs[1..], k - b.len);
      } else {
        assert [b.(len := k)][1..] == [];
      }
    }
  }

  lemma {:induction false} DropRest(bvs: seq<Bvec>, k: nat)
    requires Filled(bvs) && k < Size(bvs)
    ensures Filled(Drop(bvs, k)) && Size(Drop(bvs, k)) == Size(bvs) - k && Drop(bvs, k) != []
  {
    if k > 0 {
      if bvs[0].len <= k {
        DropRest(bvs[1..], k - bvs[0].len);
      } else {
        assert ([Bvec(bvs[0].page, bvs[0].offset + k, bvs[0].len - k)] + bvs[1..])[1..] == bvs[1..];
      }
    }
  }

  lemma {:induction false} DropWhole(bvs: seq<Bvec>, k: nat)
    requires Whole(bvs) && k % SECTOR == 0
    ensures Whole(Drop(bvs, k))
  {
    if bvs != [] && k > 0 {
      assert bvs[0].len % SECTOR == 0;
      if bvs[0].len <= k {
        DropWhole(bvs[1..], k - bvs[0].len);
      }
    }
  }

  // ---- where the scan cuts ----

  /** The state of the scan after `i` vectors; `front` is the recorded size before. */
  ghost predicate Scanned(q: Queue, bvs: seq<Bvec>, i: nat, c: Scan, front: nat)
    requires q.Ok()
  {
    && i <= |bvs| && i <= BIO_MAX_PAGES
    && c.sectors == FloorSectors(bvs[..i])
    && GapFree(q, bvs[..i])
    && c.nsegs == SegmentCount(q, bvs[..i]) <= q.maxSegs
    && (i > 0 ==> c.segSize == OpenSize(q, bvs[..i]) && c.front == Max(front, HeadSize(q, bvs[..i])))
    && (i == 0 ==> c.front == front)
  }

  /** The next vector cannot be taken: it is one too many, leaves a gap, needs a segment too many, or is too long with no room for a part of it. */
  ghost predicate NoRoom(q: Queue, max: nat, bvs: seq<Bvec>, i: nat)
    requires q.Ok() && 0 < i < |bvs|
  {
    || i == BIO_MAX_PAGES
    || Gap(q, bvs[i - 1], bvs[i])
    || SegmentCount(q, bvs[..i + 1]) > q.maxSegs
    || (FloorSectors(bvs[..i + 1]) > max && (FloorSectors(bvs[..i]) >= max || SegmentCount(q, bvs[..i]) == q.maxSegs))
  }

  /** The cut falls behind the first `i` vectors, where there is no room for more. */
  ghost predicate CutAfter(q: Queue, max: nat, bvs: seq<Bvec>, i: nat, c: Cut)
    requires q.Ok()
  {
    && 0 < i < |bvs| && i <= BIO_MAX_PAGES && GapFree(q, bvs[..i]) && NoRoom(q, max, bvs, i)
    && c.sectors == FloorSectors(bvs[..i]) && c.nsegs == SegmentCount(q, bvs[..i]) <= q.maxSegs
  }

  /** The cut falls inside the vector behind the first `i`, where the maximum size is reached. */
  ghost predicate CutWithin(q: Queue, max: nat, bvs: seq<Bvec>, i: nat, c: Cut)
    requires q.Ok()
  {
    && i < |bvs| && i < BIO_MAX_PAGES && GapFree(q, bvs[..i + 1])
    && FloorSectors(bvs[..i]) < max == c.sectors < FloorSectors(bvs[..i + 1])
    && SegmentCount(q, bvs[..i + 1]) <= c.nsegs <= q.maxSegs
  }

  /** Nothing is cut off, and the counters are exact. */
  ghost predicate Uncut(q: Queue, bvs: seq<Bvec>, front: nat, back: nat, c: Cut)
    requires q.Ok() && bvs != []
  {
    && |bvs| <= BIO_MAX_PAGES && GapFree(q, bvs)
    && c.sectors == FloorSectors(bvs) && c.nsegs == SegmentCount(q, bvs) <= q.maxSegs
    && c.front == Max(front, HeadSize(q, bvs)) && c.back == Max(back, OpenSize(q, bvs))
  }

  ghost predicate Outcome(q: Queue, max: nat, bvs: seq<Bvec>, front: nat, back: nat, c: Cut)
    requires q.Ok() && bvs != []
  {
    if c.split then exists i: nat :: CutAfter(q, max, bvs, i, c) || CutWithin(q, max, bvs, i, c) else Uncut(q, bvs, front, back, c)
  }

  lemma GapFreeSnoc(q: Queue, bvs: seq<Bvec>, b: Bvec)
    requires GapFree(q, bvs) && (bvs != [] ==> !Gap(q, bvs[|bvs| - 1], b))
    ensures GapFree(q, bvs + [b])
  {
  }

  lemma GapFreeNext(q: Queue, bvs: seq<Bvec>, i: nat)
    requires i < |bvs| && GapFree(q, bvs[..i]) && (i > 0 ==> !Gap(q, bvs[i - 1], bvs[i]))
    ensures GapFree(q, bvs[..i + 1])
  {
    assert bvs[..i + 1] == bvs[..i] + [bvs[i]];
    GapFreeSnoc(q, bvs[..i], bvs[i]);
  }

  lemma SegmentPart(q: Queue, pre: seq<Bvec>, b: Bvec)
    requires q.Ok()
    ensures SegmentCount(q, pre) <= SegmentCount(q, pre + [b]) <= SegmentCount(q, pre) + 1
  {
    if pre == [] {
      assert pre + [b] == [b] && [b][1..] == [];
    } else {
      SegmentSnoc(q, pre, b);
    }
  }

  lemma SegmentNext(q: Queue, bvs: seq<Bvec>, i: nat)
    requires q.Ok() && i < |bvs|
    ensures SegmentCount(q, bvs[..i]) <= SegmentCount(q, bvs[..i + 1]) <= SegmentCount(q, bvs[..i]) + 1
  {
    assert bvs[..i + 1] == bvs[..i] + [bvs[i]];
    SegmentPart(q, bvs[..i], bvs[i]);
  }

  lemma ScannedNext(q: Queue, bvs: seq<Bvec>, i: nat, c: Scan, front: nat)
    requires q.Ok() && Scanned(q, bvs, i, c, front) && i < |bvs| && i < BIO_MAX_PAGES
    requires i > 0 ==> !Gap(q, bvs[i - 1], bvs[i])
    ensures var join := i > 0 && CanJoin(q, c.segSize, bvs[i - 1], bvs[i]);
            && SegmentCount(q, bvs[..i + 1]) == c.nsegs + (if join then 0 else 1)
            && (join || c.nsegs < q.maxSegs ==> Scanned(q, bvs, i + 1, c.Add(join, bvs[i]), front))
  {
    hide GapFree, Gap;
    var pre, b := bvs[..i], bvs[i];
    assert bvs[..i + 1] == pre + [b];
    FloorNext(bvs, i);
    GapFreeNext(q, bvs, i);
    if i == 0 {
      assert pre + [b] == [b] && [b][1..] == [];
      assert SegmentCount(q, [b]) == 1 && OpenSize(q, [b]) == b.len && HeadSize(q, [b]) == b.len;
    } else {
      SegmentSnoc(q, pre, b);
      SomeSegment(q, pre);
      hide SegmentCount, OpenSize, HeadSize, CanJoin;
    }
  }

  lemma SomeSegment(q: Queue, bvs: seq<Bvec>)
    requires q.Ok() && bvs != []
    ensures SegmentCount(q, bvs) >= 1
  {
  }

  lemma {:induction false} ScanOutcome(q: Queue, max: nat, bvs: seq<Bvec>, i: nat, c: Scan, front: nat, back: nat)
    requires q.Ok() && bvs != [] && Scanned(q, bvs, i, c, front)
    ensures Outcome(q, max, bvs, front, back, ScanFrom(q, max, bvs, i, c, back))
    decreases |bvs| - i
  {
    hide GapFree, SegmentCount, OpenSize, HeadSize, FloorSectors;
    if i == |bvs| {
      assert bvs[..i] == bvs;
    } else {
      var n := bvs[i].len / SECTOR;
      var cut := c.Stop(true, back);
      NoSegments(q, bvs, i);
      if i >= BIO_MAX_PAGES || (i > 0 && Gap(q, bvs[i - 1], bvs[i])) {
        assert CutAfter(q, max, bvs, i, cut);
      } else if c.sectors + n > max && c.nsegs < q.maxSegs && c.sectors < max {
        FloorNext(bvs, i);
        GapFreeNext(q, bvs, i);
        SegmentNext(q, bvs, i);
        assert CutWithin(q, max, bvs, i, c.(sectors := max, nsegs := c.nsegs + 1).Stop(true, back));
      } else if c.sectors + n > max && c.sectors > 0 {
        FloorNext(bvs, i);
        assert CutAfter(q, max, bvs, i, cut);
      } else {
        var join := i > 0 && CanJoin(q, c.segSize, bvs[i - 1], bvs[i]);
        if !join && c.nsegs == q.maxSegs {
          ScannedNext(q, bvs, i, c, front);
          assert CutAfter(q, max, bvs, i, cut);
        } else {
          ScannedNext(q, bvs, i, c, front);
          ScanOutcome(q, max, bvs, i + 1, c.Add(join, bvs[i]), front, back);
        }
      }
    }
  }

  lemma NoSegments(q: Queue, bvs: seq<Bvec>, i: nat)
    requires q.Ok() && i <= |bvs|
    ensures i == 0 ==> SegmentCount(q, bvs[..i]) == 0 && FloorSectors(bvs[..i]) == 0
  {
  }

  /** blk_bio_segment_split cuts behind a vector, inside one, or not at all, as described. */
  lemma CutOutcome(q: Queue, max: nat, bvs: seq<Bvec>, front: nat, back: nat)
    requires q.Ok() && bvs != []
    ensures Outcome(q, max, bvs, front, back, FindCut(q, max, bvs, front, back))
  {
    assert bvs[..0] == [];
    ScanOutcome(q, max, bvs, 0, Scan(0, 0, 0, front), front, back);
  }

  // ---- what bio_split demands ----

  /** bio_split refuses an empty front piece and an empty rest. */
  predicate Legal(bvs: seq<Bvec>, c: Cut) {
    c.split ==> 0 < c.sectors < Sectors(bvs)
  }

  /** The last place where the scan may cut behind a vector. */
  function LastPlace(bvs: seq<Bvec>): int {
    Min(|bvs| - 1, BIO_MAX_PAGES)
  }

  /** Counting the sectors vector by vector loses none that matters to a cut. */
  predicate Countable(bvs: seq<Bvec>) {
    |bvs| == 1 || (|bvs| > 1 && bvs[0].len >= SECTOR && FloorSectors(bvs[..LastPlace(bvs)]) < Sectors(bvs))
  }

  lemma CountableCutIsLegal(q: Queue, max: nat, bvs: seq<Bvec>, front: nat, back: nat)
    requires q.Ok() && bvs != [] && Countable(bvs)
    ensures Legal(bvs, FindCut(q, max, bvs, front, back))
  {
    hide FloorSectors, FindCut, GapFree;
    var c := FindCut(q, max, bvs, front, back);
    CutOutcome(q, max, bvs, front, back);
    if c.split {
      var i: nat :| CutAfter(q, max, bvs, i, c) || CutWithin(q, max, bvs, i, c);
      FloorIsLess(bvs);
      if CutAfter(q, max, bvs, i, c) {
        FloorUpto(bvs, i, LastPlace(bvs));
      } else {
        FloorUpto(bvs, i, i + 1);
      }
    }
  }

  /** A scan that meets no limit in the first `i` vectors arrives behind them. */
  lemma {:induction false} ScanArrives(q: Queue, max: nat, bvs: seq<Bvec>, j: nat, c: Scan, front: nat, back: nat, i: nat)
    returns (c': Scan)
    requires q.Ok() && q.virt == 0 && j <= i <= |bvs| && i <= BIO_MAX_PAGES && Scanned(q, bvs, j, c, front)
    requires FloorSectors(bvs[..i]) <= max && SegmentCount(q, bvs[..i]) <= q.maxSegs
    ensures Scanned(q, bvs, i, c', front) && ScanFrom(q, max, bvs, j, c, back) == ScanFrom(q, max, bvs, i, c', back)
    decreases i - j
  {
    hide GapFree, SegmentCount, OpenSize, HeadSize, FloorSectors;
    if j == i {
      c' := c;
    } else {
      var join := j > 0 && CanJoin(q, c.segSize, bvs[j - 1], bvs[j]);
      FloorNext(bvs, j);
      FloorUpto(bvs, j + 1, i);
      ScannedNext(q, bvs, j, c, front);
      SegmentUpto(q, bvs, j + 1, i);
      c' := ScanArrives(q, max, bvs, j + 1, c.Add(join, bvs[j]), front, back, i);
    }
  }

  lemma {:induction false} SegmentUpto(q: Queue, bvs: seq<Bvec>, j: nat, i: nat)
    requires q.Ok() && j <= i <= |bvs|
    ensures SegmentCount(q, bvs[..j]) <= SegmentCount(q, bvs[..i])
    decreases i - j
  {
    if j < i {
      SegmentNext(q, bvs, j);
      SegmentUpto(q, bvs, j + 1, i);
    }
  }

  lemma {:induction false} Unclustered(q: Queue, bvs: seq<Bvec>, prev: Bvec, size: nat)
    requires q.Ok() && !q.cluster
    ensures More(q, prev, size, bvs) == |bvs| && SegmentCount(q, bvs) == |bvs|
    decreases |bvs|
  {
    if bvs != [] {
      Unclustered(q, bvs[1..], bvs[0], bvs[0].len);
    }
  }

  /** A queue that does not cluster and allows `m` segments cuts behind the first `m` vectors. */
  lemma ForcedCut(bvs: seq<Bvec>, m: nat) returns (q: Queue, max: nat)
    requires 0 < m < |bvs| && m <= BIO_MAX_PAGES
    ensures q.Ok() && FindCut(q, max, bvs, 0, 0).split && FindCut(q, max, bvs, 0, 0).sectors == FloorSectors(bvs[..m])
  {
    hide GapFree, OpenSize, HeadSize, FloorSectors;
    q, max := Queue(false, 0, m, 1, 0), FloorSectors(bvs);
    assert bvs[..0] == [] && FloorSectors([]) == 0 by { NoSegments(q, bvs, 0); }
    FloorUpto(bvs, m, m + 1);
    FloorNext(bvs, m);
    Unclustered(q, bvs[..m], bvs[0], 0);
    assert Scanned(q, bvs, 0, Scan(0, 0, 0, 0), 0) by { StartScanned(q, bvs); }
    var c := ScanArrives(q, max, bvs, 0, Scan(0, 0, 0, 0), 0, 0, m);
  }

  lemma StartScanned(q: Queue, bvs: seq<Bvec>)
    requires q.Ok()
    ensures Scanned(q, bvs, 0, Scan(0, 0, 0, 0), 0)
  {
    assert bvs[..0] == [];
  }

  /**
   Every cut of a bio, on every queue and for every maximum, is one that bio_split accepts, if and only if
   the bio is a single vector, or its first vector holds a sector and rounding down before the last place
   for a cut does not use up the bio.
   */
  lemma CutIsLegalExactly(bvs: seq<Bvec>)
    requires bvs != []
    ensures (forall q: Queue, max: nat, front: nat, back: nat :: q.Ok() ==> Legal(bvs, FindCut(q, max, bvs, front, back)))
            <==> Countable(bvs)
  {
    hide FindCut, FloorSectors;
    if Countable(bvs) {
      forall q: Queue, max: nat, front: nat, back: nat | q.Ok()
        ensures Legal(bvs, FindCut(q, max, bvs, front, back))
      {
        CountableCutIsLegal(q, max, bvs, front, back);
      }
    } else {
      var m := if bvs[0].len < SECTOR then 1 else LastPlace(bvs);
      var q, max := ForcedCut(bvs, m);
      if bvs[0].len < SECTOR {
        assert bvs[..1] == [bvs[0]];
        FloorOne(bvs[0]);
      }
      assert !Legal(bvs, FindCut(q, max, bvs, 0, 0));
    }
  }

  lemma FloorOne(b: Bvec)
    ensures FloorSectors([b]) == b.len / SECTOR
  {
    assert [b][1..] == [];
  }

  /** Two half sectors apart in memory: the scan asks for an empty front piece. */
  lemma PartialSectorsCutNothing(q: Queue, a: Bvec, b: Bvec)
    requires q == Queue(true, 4096, 1, 65536, 0) && a == Bvec(0, 0, 256) && b == Bvec(8, 0, 256)
    ensures FindCut(q, 8, [a, b], 0, 0) == Cut(true, 0, 1, 256, 256)
  {
    assert !CanJoin(q, 256, a, b);
    assert ScanFrom(q, 8, [a, b], 1, Scan(256, 1, 0, 256), 0) == Cut(true, 0, 1, 256, 256);
  }

  /** A sector and half a sector apart in memory: the scan asks for all the sectors the bio has, which leaves none. */
  lemma PartialSectorsCutAll(q: Queue, a: Bvec, b: Bvec)
    requires q == Queue(true, 4096, 1, 65536, 0) && a == Bvec(0, 0, 512) && b == Bvec(8, 0, 256)
    ensures FindCut(q, 8, [a, b], 0, 0) == Cut(true, 1, 1, 512, 512) && Sectors([a, b]) == 1
  {
    assert !CanJoin(q, 512, a, b);
    assert ScanFrom(q, 8, [a, b], 1, Scan(512, 1, 1, 512), 0) == Cut(true, 1, 1, 512, 512);
    assert [a, b] == [a] + [b];
    SizeConcat([a], [b]);
    SizeOne(a);
    SizeOne(b);
  }

  // ---- the maximum size ----

  /** Less than a sector has been counted when a vector of two sectors or more joins the segment before it. */
  predicate Leaks(bvs: seq<Bvec>, i: nat) {
    && 0 < i < |bvs| && i < BIO_MAX_PAGES && FloorSectors(bvs[..i]) == 0 && bvs[i].len / SECTOR >= 2
    && bvs[i - 1].Phys() + bvs[i - 1].len == bvs[i].Phys()
  }

  lemma {:induction false} ScanIsSmall(q: Queue, max: nat, bvs: seq<Bvec>, i: nat, c: Scan, front: nat, back: nat)
    requires q.Ok() && Scanned(q, bvs, i, c, front) && c.sectors <= max && max > 0
    requires forall k: nat :: !Leaks(bvs, k)
    ensures ScanFrom(q, max, bvs, i, c, back).sectors <= max
    decreases |bvs| - i
  {
    hide GapFree, SegmentCount, OpenSize, HeadSize, FloorSectors;
    if i < |bvs| && i < BIO_MAX_PAGES && !(i > 0 && Gap(q, bvs[i - 1], bvs[i])) {
      var n, join := bvs[i].len / SECTOR, i > 0 && CanJoin(q, c.segSize, bvs[i - 1], bvs[i]);
      NoSegments(q, bvs, i);
      assert !Leaks(bvs, i);
      if c.sectors + n <= max && (join || c.nsegs < q.maxSegs) {
        ScannedNext(q, bvs, i, c, front);
        ScanIsSmall(q, max, bvs, i + 1, c.Add(join, bvs[i]), front, back);
      }
    }
  }

  /** A queue whose single cut goes beyond a maximum of one sector. */
  lemma LeakingCut(bvs: seq<Bvec>, i: nat) returns (q: Queue)
    requires Filled(bvs) && Leaks(bvs, i)
    ensures q.Ok() && FindCut(q, 1, bvs, 0, 0).sectors > 1
  {
    hide GapFree, OpenSize, HeadSize, FloorSectors, SegmentCount;
    var a, b := bvs[i - 1], bvs[i];
    var q0 := Queue(true, Size(bvs), 1, b.Phys() + b.len, 0);
    SomeSegment(q0, bvs[..i]);
    q := q0.(maxSegs := SegmentCount(q0, bvs[..i]));
    LimitIrrelevant(q0, q, bvs[..i]);
    StartScanned(q, bvs);
    var c := ScanArrives(q, 1, bvs, 0, Scan(0, 0, 0, 0), 0, 0, i);
    OpenFits(q, bvs, i);
    DivSmall(a.Phys(), q.window);
    DivSmall(b.Phys() + b.len - 1, q.window);
    assert CanJoin(q, c.segSize, a, b);
    var c' := c.Add(true, b);
    assert FindCut(q, 1, bvs, 0, 0) == ScanFrom(q, 1, bvs, i + 1, c', 0);
    assert c'.sectors > 1 && ScanFrom(q, 1, bvs, i + 1, c', 0).sectors == c'.sectors;
  }

  lemma DivSmall(x: nat, w: nat)
    requires x < w
    ensures x / w == 0
  {
  }

  lemma {:induction false} LimitIrrelevantMore(q: Queue, q': Queue, prev: Bvec, size: nat, bvs: seq<Bvec>)
    requires q.Ok() && q'.Ok() && q' == q.(maxSegs := q'.maxSegs)
    ensures More(q', prev, size, bvs) == More(q, prev, size, bvs)
    decreases |bvs|
  {
    if bvs != [] {
      LimitIrrelevantMore(q, q', bvs[0], if CanJoin(q, size, prev, bvs[0]) then size + bvs[0].len else bvs[0].len, bvs[1..]);
    }
  }

  /** How many segments are allowed does not matter to how many there are. */
  lemma LimitIrrelevant(q: Queue, q': Queue, bvs: seq<Bvec>)
    requires q.Ok() && q'.Ok() && q' == q.(maxSegs := q'.maxSegs)
    ensures SegmentCount(q', bvs) == SegmentCount(q, bvs)
  {
    if bvs != [] {
      LimitIrrelevantMore(q, q', bvs[0], bvs[0].len, bvs[1..]);
    }
  }

  lemma {:induction false} LastSizeFits(size: nat, bvs: seq<Bvec>, joins: seq<bool>)
    requires |joins| == |bvs|
    ensures LastSize(size, bvs, joins) <= size + Size(bvs)
    decreases |bvs|
  {
    if bvs != [] {
      LastSizeFits(if joins[0] then size + bvs[0].len else bvs[0].len, bvs[1..], joins[1..]);
    }
  }

  lemma OpenFits(q: Queue, bvs: seq<Bvec>, i: nat)
    requires q.Ok() && 0 < i < |bvs|
    ensures OpenSize(q, bvs[..i]) + bvs[i].len <= Size(bvs)
  {
    hide GreedyGroups, LastSize;
    var v := bvs[..i];
    LastSizeFits(v[0].len, v[1..], GreedyGroups(q, v)[1..]);
    assert bvs == v + [bvs[i]] + bvs[i + 1..];
    SizeConcat(v + [bvs[i]], bvs[i + 1..]);
    SizeConcat(v, [bvs[i]]);
    SizeOne(bvs[i]);
  }

  /** No cut, on any queue and for any positive maximum, exceeds the maximum, if and only if no vector leaks. */
  lemma CutIsSmallExactly(bvs: seq<Bvec>)
    requires bvs != [] && Filled(bvs)
    ensures (forall q: Queue, max: nat, front: nat, back: nat :: q.Ok() && max > 0 ==> FindCut(q, max, bvs, front, back).sectors <= max)
            <==> forall i: nat :: !Leaks(bvs, i)
  {
    hide FloorSectors, ScanFrom;
    if i: nat :| Leaks(bvs, i) {
      var q := LeakingCut(bvs, i);
    } else {
      forall q: Queue, max: nat, front: nat, back: nat | q.Ok() && max > 0
        ensures FindCut(q, max, bvs, front, back).sectors <= max
      {
        SmallCut(q, max, bvs, front, back);
      }
    }
  }

  lemma SmallCut(q: Queue, max: nat, bvs: seq<Bvec>, front: nat, back: nat)
    requires q.Ok() && max > 0 && forall i: nat :: !Leaks(bvs, i)
    ensures FindCut(q, max, bvs, front, back).sectors <= max
  {
    assert bvs[..0] == [];
    ScanIsSmall(q, max, bvs, 0, Scan(0, 0, 0, front), front, back);
  }

  // ---- what a piece may look like ----

  /** A piece within the limits on vectors, gaps and segments, `nsegs` being the segment count it is given. */
  ghost predicate FrontOk(q: Queue, bvs: seq<Bvec>, nsegs: nat)
    requires q.Ok()
  {
    |bvs| <= BIO_MAX_PAGES && GapFree(q, bvs) && SegmentCount(q, bvs) <= nsegs <= q.maxSegs
  }

  /** A piece of whole sectors within all limits. */
  ghost predicate PieceOk(q: Queue, max: nat, bvs: seq<Bvec>, nsegs: nat)
    requires q.Ok()
  {
    && bvs != [] && Whole(bvs)
    && FrontOk(q, bvs, nsegs)
    && (Sectors(bvs) <= max <==> max > 0)
  }

  /** What the scan promises for whole sectors: a legal cut, or a whole bio with exact counters. */
  ghost predicate GoodCut(q: Queue, max: nat, bvs: seq<Bvec>, front: nat, back: nat, c: Cut)
    requires q.Ok() && bvs != []
  {
    if c.split then 0 < c.sectors < Sectors(bvs) && PieceOk(q, max, Take(bvs, SECTOR * c.sectors), c.nsegs)
    else
      && c.sectors == Sectors(bvs) && PieceOk(q, max, bvs, c.nsegs)
      && c.nsegs == SegmentCount(q, bvs) && c.front == Max(front, HeadSize(q, bvs)) && c.back == Max(back, OpenSize(q, bvs))
  }

  lemma FrontOfPrefix(q: Queue, bvs: seq<Bvec>, p: nat, k: nat, nsegs: nat)
    requires q.Ok() && p <= |bvs| && p <= BIO_MAX_PAGES && Filled(bvs) && k <= Size(bvs[..p])
    requires GapFree(q, bvs[..p]) && SegmentCount(q, bvs[..p]) <= nsegs <= q.maxSegs
    ensures FrontOk(q, Take(bvs, k), nsegs) && k <= Size(bvs)
  {
    hide Take, GapFree, SegmentCount;
    assert bvs == bvs[..p] + bvs[p..];
    SizeConcat(bvs[..p], bvs[p..]);
    TakeFrom(bvs, p, k);
    TakeSize(bvs[..p], k);
    TakeGapFree(q, bvs[..p], k);
    SegmentTake(q, bvs[..p], k);
  }

  lemma WholeIsCountable(bvs: seq<Bvec>)
    requires bvs != [] && Whole(bvs)
    ensures Countable(bvs) && Filled(bvs) && forall i: nat :: !Leaks(bvs, i)
  {
    hide FloorSectors;
    assert bvs[0].len > 0 && bvs[0].len % SECTOR == 0;
    forall i: nat
      ensures !Leaks(bvs, i)
    {
      if 0 < i < |bvs| {
        FloorUpto(bvs, i, i);
      }
    }
    if |bvs| > 1 {
      var m := LastPlace(bvs);
      FloorNext(bvs, m);
      FloorUpto(bvs, m, m + 1);
      FloorIsLess(bvs);
    }
  }

  /**
   blk_bio_segment_split on any bio: the front piece, or the bio that is not cut, is within the limits on
   vectors, gaps and segments.  If the vectors are whole sectors, the cut is strictly inside the bio, as
   bio_split demands, and within the maximum size exactly when that is not zero.
   */
  lemma CutRespectsLimits(q: Queue, max: nat, bvs: seq<Bvec>, front: nat, back: nat)
    requires q.Ok() && bvs != [] && Filled(bvs)
    ensures var c := FindCut(q, max, bvs, front, back);
            && SECTOR * c.sectors <= Size(bvs)
            && FrontOk(q, if c.split then Take(bvs, SECTOR * c.sectors) else bvs, c.nsegs)
            && (Whole(bvs) ==> GoodCut(q, max, bvs, front, back, c))
  {
    hide FindCut, GapFree, FloorSectors, Take, SegmentCount, OpenSize, HeadSize;
    var c := FindCut(q, max, bvs, front, back);
    CutOutcome(q, max, bvs, front, back);
    FloorIsLess(bvs);
    if c.split {
      var i: nat :| CutAfter(q, max, bvs, i, c) || CutWithin(q, max, bvs, i, c);
      var p := if CutAfter(q, max, bvs, i, c) then i else i + 1;
      FloorIsLess(bvs[..p]);
      FrontOfPrefix(q, bvs, p, SECTOR * c.sectors, c.nsegs);
    }
    if Whole(bvs) {
      WholeIsCountable(bvs);
      CountableCutIsLegal(q, max, bvs, front, back);
      if max > 0 { SmallCut(q, max, bvs, front, back); }
      WholeCut(q, max, bvs, front, back, c);
    }
  }

  lemma WholeCut(q: Queue, max: nat, bvs: seq<Bvec>, front: nat, back: nat, c: Cut)
    requires q.Ok() && bvs != [] && Whole(bvs) && Filled(bvs) && Outcome(q, max, bvs, front, back, c)
    requires Legal(bvs, c) && (max > 0 ==> c.sectors <= max) && SECTOR * c.sectors <= Size(bvs)
    requires FrontOk(q, if c.split then Take(bvs, SECTOR * c.sectors) else bvs, c.nsegs)
    ensures GoodCut(q, max, bvs, front, back, c)
  {
    hide Take, FrontOk, CutAfter, CutWithin, Whole, SegmentCount, HeadSize, OpenSize, GapFree;
    FloorIsLess(bvs);
    WholeSize(bvs);
    if c.split {
      var k := SECTOR * c.sectors;
      TakeSize(bvs, k);
      TakeWhole(bvs, k);
      assert Size(Take(bvs, k)) / SECTOR == c.sectors && Take(bvs, k) != [];
    }
  }

  /** A bio that need not be split leaves with counters that every later merge can rely on. */
  lemma UnsplitBioIsCounted(q: Queue, max: nat, bvs: seq<Bvec>, front: nat, back: nat)
    requires q.Ok() && bvs != [] && !FindCut(q, max, bvs, front, back).split
    ensures var c := FindCut(q, max, bvs, front, back);
            BioCounted(q, Bio(bvs, c.nsegs, c.front, c.back)) && c.nsegs <= q.maxSegs && GapFree(q, bvs)
  {
    var c := FindCut(q, max, bvs, front, back);
    CutOutcome(q, max, bvs, front, back);
    RecountIsCounted(q, bvs, c.front, c.back);
  }

  // ---- blk_queue_split, over and over ----

  /** A piece as it is submitted: its start sector and its vectors. */
  datatype Piece = Piece(sector: nat, bvs: seq<Bvec>, nsegs: nat)

  /** The pieces, and whether bio_split accepted every cut; if not, the last piece is what it refused to cut. */
  datatype Pieces = Pieces(ps: seq<Piece>, ok: bool)

  /** Each split submits the front piece and sends the rest through the queue again. */
  function SplitAll(q: Queue, l: IoLimits, sector: nat, bvs: seq<Bvec>): Pieces
    requires q.Ok() && l.Ok() && Filled(bvs)
    decreases Size(bvs)
  {
    var cut := FindCut(q, MaxIo(l, sector), bvs, 0, 0);
    if !cut.split || !Legal(bvs, cut) then Pieces([Piece(sector, bvs, cut.nsegs)], !cut.split)
    else
      LegalIsInside(bvs, cut);
      DropRest(bvs, SECTOR * cut.sectors);
      var more := SplitAll(q, l, sector + cut.sectors, Drop(bvs, SECTOR * cut.sectors));
      Pieces([Piece(sector, Take(bvs, SECTOR * cut.sectors), cut.nsegs)] + more.ps, more.ok)
  }

  lemma LegalIsInside(bvs: seq<Bvec>, c: Cut)
    requires c.split && Legal(bvs, c)
    ensures 0 < SECTOR * c.sectors < Size(bvs)
  {
  }

  function AllVectors(ps: seq<Piece>): seq<Bvec> {
    if ps == [] then [] else ps[0].bvs + AllVectors(ps[1..])
  }

  /** The pieces follow each other on disk from `sector` on. */
  predicate Consecutive(ps: seq<Piece>, sector: nat) {
    ps != [] ==> ps[0].sector == sector && Consecutive(ps[1..], sector + Sectors(ps[0].bvs))
  }

  /** The pieces that were submitted are within the limits, `whole` adding those on sectors. */
  ghost predicate WithinLimits(q: Queue, l: IoLimits, r: Pieces, whole: bool)
    requires q.Ok() && l.Ok()
  {
    forall i :: 0 <= i < |r.ps| && (r.ok || i < |r.ps| - 1) ==>
      && FrontOk(q, r.ps[i].bvs, r.ps[i].nsegs)
      && (whole ==> PieceOk(q, MaxIo(l, r.ps[i].sector), r.ps[i].bvs, r.ps[i].nsegs))
  }

  /**
   Repeated splitting ends; the pieces cover the bio's bytes in order and its sectors without holes, and
   each is within the limits on vectors, gaps and segments.  Of a bio in whole sectors no cut is refused,
   and each piece is non-empty and within the maximum computed for its own start sector.
   */
  lemma {:induction false} SplitAllIsFaithful(q: Queue, l: IoLimits, sector: nat, bvs: seq<Bvec>)
    requires q.Ok() && l.Ok() && bvs != [] && Filled(bvs)
    ensures var r := SplitAll(q, l, sector, bvs);
            && r.ps != [] && Bytes(AllVectors(r.ps)) == Bytes(bvs)
            && Consecutive(r.ps, sector)
            && WithinLimits(q, l, r, Whole(bvs))
            && (Whole(bvs) ==> r.ok)
    decreases Size(bvs)
  {
    hide FindCut, MaxIo, PieceOk, FrontOk, Take, Drop, Whole, Filled, SegmentCount, HeadSize, OpenSize;
    var max := MaxIo(l, sector);
    var cut := FindCut(q, max, bvs, 0, 0);
    CutRespectsLimits(q, max, bvs, 0, 0);
    var r := SplitAll(q, l, sector, bvs);
    if !cut.split || !Legal(bvs, cut) {
      assert r.ps[1..] == [] && bvs + [] == bvs;
    } else {
      var k := SECTOR * cut.sectors;
      LegalIsInside(bvs, cut);
      DropRest(bvs, k);
      if Whole(bvs) { DropWhole(bvs, k); }
      TakeSize(bvs, k);
      var more := SplitAll(q, l, sector + cut.sectors, Drop(bvs, k));
      SplitAllIsFaithful(q, l, sector + cut.sectors, Drop(bvs, k));
      var p := Piece(sector, Take(bvs, k), cut.nsegs);
      assert Sectors(p.bvs) == cut.sectors;
      PrependPiece(bvs, k, p, more.ps);
      PrependLimits(q, l, p, more, Whole(bvs), r);
    }
  }

  lemma PrependLimits(q: Queue, l: IoLimits, p: Piece, more: Pieces, whole: bool, r: Pieces)
    requires q.Ok() && l.Ok() && WithinLimits(q, l, more, whole) && r == Pieces([p] + more.ps, more.ok)
    requires FrontOk(q, p.bvs, p.nsegs) && (whole ==> PieceOk(q, MaxIo(l, p.sector), p.bvs, p.nsegs))
    ensures WithinLimits(q, l, r, whole)
  {
    hide PieceOk, FrontOk, MaxIo;
  }

  lemma PrependPiece(bvs: seq<Bvec>, k: nat, p: Piece, ps: seq<Piece>)
    requires p.bvs == Take(bvs, k) && Bytes(AllVectors(ps)) == Bytes(Drop(bvs, k))
    requires Consecutive(ps, p.sector + Sectors(p.bvs))
    ensures Bytes(AllVectors([p] + ps)) == Bytes(bvs) && Consecutive([p] + ps, p.sector)
  {
    SplitKeepsBytes(bvs, k);
    BytesConcat(p.bvs, AllVectors(ps));
    assert ([p] + ps)[1..] == ps;
  }

  /** On a device with chunks, no piece of a bio in whole sectors crosses one, unless the chunk has no room for a block. */
  lemma PiecesStayInChunks(q: Queue, l: IoLimits, sector: nat, bvs: seq<Bvec>, i: nat)
    requires q.Ok() && l.Ok() && l.chunk > 0 && bvs != [] && Whole(bvs) && Filled(bvs)
    requires i < |SplitAll(q, l, sector, bvs).ps| && MaxIo(l, SplitAll(q, l, sector, bvs).ps[i].sector) > 0
    ensures var p := SplitAll(q, l, sector, bvs).ps[i];
            (p.sector + Sectors(p.bvs) - 1) / l.chunk == p.sector / l.chunk && Sectors(p.bvs) > 0
  {
    hide SplitAll, MaxIo, Whole, FrontOk;
    SplitAllIsFaithful(q, l, sector, bvs);
    var p := SplitAll(q, l, sector, bvs).ps[i];
    assert PieceOk(q, MaxIo(l, p.sector), p.bvs, p.nsegs);
    WholeSize(p.bvs);
    MaxIoIsLargest(l, p.sector);
    SameChunk(p.sector, Sectors(p.bvs), l.chunk);
  }

  lemma SplitStep(q: Queue, l: IoLimits, sector: nat, bvs: seq<Bvec>)
    requires q.Ok() && l.Ok() && Filled(bvs)
    ensures var cut := FindCut(q, MaxIo(l, sector), bvs, 0, 0);
            var k := SECTOR * cut.sectors;
            if cut.split && Legal(bvs, cut) then
              Filled(Drop(bvs, k)) &&
              var more := SplitAll(q, l, sector + cut.sectors, Drop(bvs, k));
              SplitAll(q, l, sector, bvs) == Pieces([Piece(sector, Take(bvs, k), cut.nsegs)] + more.ps, more.ok)
            else SplitAll(q, l, sector, bvs) == Pieces([Piece(sector, bvs, cut.nsegs)], !cut.split)
  {
    hide FindCut, MaxIo, Take, Drop, Size;
    var cut := FindCut(q, MaxIo(l, sector), bvs, 0, 0);
    if cut.split && Legal(bvs, cut) {
      LegalIsInside(bvs, cut);
      DropRest(bvs, SECTOR * cut.sectors);
    }
  }

  /** blk_queue_split and generic_make_request as a loop. */
  method SubmitPieces(q: Queue, l: IoLimits, sector: nat, bvs: seq<Bvec>) returns (r: Pieces)
    requires q.Ok() && l.Ok() && Filled(bvs)
    ensures r == SplitAll(q, l, sector, bvs)
  {
    hide FindCut, Filled, MaxIo, Take, Drop, Size, SplitAll;
    var ps := [];
    var s: nat, rest := sector, bvs;
    var cut := SegmentSplit(q, MaxIo(l, s), rest, 0, 0);
    while cut.split && Legal(rest, cut)
      invariant Filled(rest) && cut == FindCut(q, MaxIo(l, s), rest, 0, 0)
      invariant var more := SplitAll(q, l, s, rest); Pieces(ps + more.ps, more.ok) == SplitAll(q, l, sector, bvs)
      decreases Size(rest)
    {
      LegalIsInside(rest, cut);
      var k := SECTOR * cut.sectors;
      DropRest(rest, k);
      SplitStep(q, l, s, rest);
      var p := Piece(s, Take(rest, k), cut.nsegs);
      assert ps + ([p] + SplitAll(q, l, s + cut.sectors, Drop(rest, k)).ps)
          == (ps + [p]) + SplitAll(q, l, s + cut.sectors, Drop(rest, k)).ps;
      ps := ps + [p];
      s, rest := s + cut.sectors, Drop(rest, k);
      cut := SegmentSplit(q, MaxIo(l, s), rest, 0, 0);
    }
    SplitStep(q, l, s, rest);
    r := Pieces(ps + [Piece(s, rest, cut.nsegs)], !cut.split);
  }
}
