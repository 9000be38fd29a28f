/**
 Discarding a range of sectors: the range is cut into bios whose size fits 32 bits, and a bio is cut
 again at the device's limit; all cuts fall on the device's discard granularity.
 */
module Discard {
  import opened Arithmetic
  import opened Options

  /** UINT_MAX >> 9: the most sectors whose size in bytes fits an unsigned int. */
  const MAX_SECTORS := 8388607

  const ENXIO := 6
  const EINVAL := 22
  const EOPNOTSUPP := 95

  datatype Piece = Piece(start: nat, len: nat)

  /** Where one cut may fall: the last sector not past `end` that is `al` modulo `g`. */
  function AlignDown(end: nat, g: nat, al: nat): nat
    requires al < g && al <= end
  {
    (end - al) / g * g + al
  }

  lemma AlignDownSpec(end: nat, g: nat, al: nat)
    requires al < g && al <= end
    ensures AlignDown(end, g, al) <= end < AlignDown(end, g, al) + g
    ensures AlignDown(end, g, al) % g == al
  {
    var q := (end - al) / g;
    assert end - al == q * g + (end - al) % g;
    DivMod(q * g + al, q, g, al);
  }

  /** Only one sector in a stretch of `g` is `al` modulo `g`. */
  lemma AlignDownUnique(end: nat, g: nat, al: nat, c: nat)
    requires al < g && al <= end && c <= end < c + g && c % g == al
    ensures AlignDown(end, g, al) == c
  {
    var p := c / g;
    assert c == p * g + al;
    DivMod(end - al, p, g, end - c);
  }

  /** The pieces follow each other from `start` and make up `len` sectors. */
  predicate Tiles(ps: seq<Piece>, start: nat, len: nat) {
    if ps == [] then len == 0
    else ps[0].start == start && 0 < ps[0].len <= len && Tiles(ps[1..], start + ps[0].len, len - ps[0].len)
  }

  lemma {:induction false} TilesMore(ps: seq<Piece>, p: Piece, start: nat, len: nat)
    requires Tiles(ps, start, len) && p.start == start + len && p.len > 0
    ensures Tiles(ps + [p], start, len + p.len)
  {
    if ps == [] {
      assert [p][1..] == [];
    } else {
      TilesMore(ps[1..], p, start + ps[0].len, len - ps[0].len);
      assert (ps + [p])[1..] == ps[1..] + [p];
    }
  }

  /** Every sector of the range is in exactly one piece: the pieces that hold it are all the same one. */
  lemma {:induction false} TilesOnce(ps: seq<Piece>, start: nat, len: nat, x: nat)
    requires Tiles(ps, start, len)
    ensures start <= x < start + len <==> exists i :: 0 <= i < |ps| && In(ps[i], x)
    ensures forall i, j :: 0 <= i < j < |ps| ==> !(In(ps[i], x) && In(ps[j], x))
  {
    if ps != [] {
      var rest := ps[1..];
      TilesOnce(rest, start + ps[0].len, len - ps[0].len, x);
      assert forall i :: 0 < i < |ps| ==> ps[i] == rest[i - 1];
      assert forall i :: 0 <= i < |rest| ==> rest[i] == ps[i + 1];
      if exists i :: 0 <= i < |rest| && In(rest[i], x) {
        var i :| 0 <= i < |rest| && In(rest[i], x);
        assert In(ps[i + 1], x);
      }
      if In(ps[0], x) {
        assert 0 <= 0 < |ps|;
      }
    }
  }

  predicate In(p: Piece, x: nat) {
    p.start <= x < p.start + p.len
  }

  /** All cuts inside the range are on the granularity. */
  predicate CutsAligned(ps: seq<Piece>, g: nat, al: nat)
    requires g > 0
  {
    forall i :: 0 < i < |ps| ==> ps[i].start % g == al
  }

  predicate FitsSize(ps: seq<Piece>, max: nat) {
    forall i :: 0 <= i < |ps| ==> ps[i].len <= max
  }

  /** Every piece but the last is less than a granule short of `max`. */
  predicate NearlyFull(ps: seq<Piece>, max: nat, g: nat) {
    forall i :: 0 <= i < |ps| - 1 ==> ps[i].len + g > max
  }

  // ---- Issuing ----

  /** Where the first piece of a range too long for one bio ends. */
  function FirstCut(sector: nat, g: nat, al: nat): nat
    requires al < g <= MAX_SECTORS
  {
    AlignDown(sector + MAX_SECTORS, g, al)
  }

  lemma CutAdvances(sector: nat, g: nat, al: nat)
    requires al < g <= MAX_SECTORS
    ensures sector < FirstCut(sector, g, al) <= sector + MAX_SECTORS && FirstCut(sector, g, al) % g == al
    ensures FirstCut(sector, g, al) + g > sector + MAX_SECTORS
  {
    AlignDownSpec(sector + MAX_SECTORS, g, al);
  }

  /** The pieces of a range: full bios up to the last aligned sector, then the rest. */
  function Pieces(sector: nat, nr: nat, g: nat, al: nat): seq<Piece>
    requires al < g <= MAX_SECTORS
    decreases nr
  {
    if nr == 0 then []
    else if nr <= MAX_SECTORS then [Piece(sector, nr)]
    else
      CutAdvances(sector, g, al);
      var c := FirstCut(sector, g, al);
      [Piece(sector, c - sector)] + Pieces(c, nr - (c - sector), g, al)
  }

  /** The pieces make up the range, are cut on the granularity, and are as long as that and a size of 32 bits allow. */
  lemma {:induction false} PiecesAreSound(sector: nat, nr: nat, g: nat, al: nat)
    requires al < g <= MAX_SECTORS
    ensures var ps := Pieces(sector, nr, g, al);
            && Tiles(ps, sector, nr) && CutsAligned(ps, g, al) && (ps == [] <==> nr == 0)
            && FitsSize(ps, MAX_SECTORS) && NearlyFull(ps, MAX_SECTORS, g)
    decreases nr
  {
    hide FirstCut;
    var ps := Pieces(sector, nr, g, al);
    if 0 < nr <= MAX_SECTORS {
      assert ps[1..] == [];
    } else if nr > 0 {
      CutAdvances(sector, g, al);
      var c := FirstCut(sector, g, al);
      var rest := Pieces(c, nr - (c - sector), g, al);
      PiecesAreSound(c, nr - (c - sector), g, al);
      assert ps[1..] == rest;
      forall i | 0 < i < |ps| ensures ps[i].start % g == al && ps[i].len <= MAX_SECTORS && (i < |ps| - 1 ==> ps[i].len + g > MAX_SECTORS) {
        assert ps[i] == rest[i - 1];
      }
    }
  }

  /** The loop of __blkdev_issue_discard. */
  method IssueLoop(sector: nat, nr: nat, g: nat, al: nat) returns (ps: seq<Piece>)
    requires al < g <= MAX_SECTORS
    ensures ps == Pieces(sector, nr, g, al)
    ensures Tiles(ps, sector, nr) && CutsAligned(ps, g, al) && FitsSize(ps, MAX_SECTORS) && NearlyFull(ps, MAX_SECTORS, g)
    ensures forall i :: 0 <= i < |ps| ==> ps[i].len * 512 < 0x1_0000_0000
  {
    hide AlignDown, Pieces, Tiles, CutsAligned;
    ps := [];
    var s, left := sector, nr;
    while left > 0
      invariant left >= 0 && s >= 0
      invariant Pieces(sector, nr, g, al) == ps + Pieces(s, left, g, al)
    {
      var req := if left < MAX_SECTORS then left else MAX_SECTORS;
      var end := s + req;
      CutAdvances(s, g, al);
      if req < left && end % g != al {
        end := AlignDown(end, g, al);
        req := end - s;
      } else if req < left {
        AlignDownUnique(end, g, al, end);
      }
      NextPiece(ps, s, left, req, g, al);
      ps := ps + [Piece(s, req)];
      left, s := left - req, end;
    }
    NoPieces(s, g, al);
    assert ps + [] == ps;
    PiecesAreSound(sector, nr, g, al);
  }

  lemma NoPieces(s: nat, g: nat, al: nat)
    requires al < g <= MAX_SECTORS
    ensures Pieces(s, 0, g, al) == []
  {
  }

  lemma NextPiece(ps: seq<Piece>, s: nat, left: nat, req: nat, g: nat, al: nat)
    requires al < g <= MAX_SECTORS && left > 0
    requires req == if left <= MAX_SECTORS then left else FirstCut(s, g, al) - s
    ensures req <= left && ps + Pieces(s, left, g, al) == ps + [Piece(s, req)] + Pieces(s + req, left - req, g, al)
  {
    hide FirstCut;
    CutAdvances(s, g, al);
    if left <= MAX_SECTORS {
      assert Pieces(s + req, 0, g, al) == [];
    }
  }

  /** The limits of a queue that matter here; sizes in bytes are unsigned ints. */
  datatype Queue = Queue(discard: bool, secureErase: bool, zeroesData: bool, blockSectors: nat, granularity: nat, alignment: nat)

  datatype Result = Ok(pieces: seq<Piece>) | Err(errno: nat)

  function Granularity(q: Queue): nat {
    if q.granularity / 512 == 0 then 1 else q.granularity / 512
  }

  predicate Supported(q: Queue, secure: bool, zero: bool) {
    if secure then !zero && q.secureErase else q.discard && (zero ==> q.zeroesData)
  }

  /** __blkdev_issue_discard. */
  method IssueDiscard(q: Option<Queue>, sector: nat, nr: nat, secure: bool, zero: bool) returns (r: Result)
    requires q.Some? ==> 0 < q.value.blockSectors && q.value.granularity < 0x1_0000_0000
    ensures r.Ok? <==> q.Some? && Supported(q.value, secure, zero) && sector % q.value.blockSectors == 0 && nr % q.value.blockSectors == 0
    ensures r.Err? ==> r.errno == if q.None? then ENXIO else if Supported(q.value, secure, zero) then EINVAL else EOPNOTSUPP
    ensures r.Ok? ==>
      var g, ps := Granularity(q.value), r.pieces;
      var al := q.value.alignment / 512 % g;
      ps == Pieces(sector, nr, g, al) && Tiles(ps, sector, nr) && CutsAligned(ps, g, al) && FitsSize(ps, MAX_SECTORS)
  {
    if q.None? {
      return Err(ENXIO);
    }
    var d := q.value;
    if secure {
      if zero {
        return Err(EOPNOTSUPP);
      }
      if !d.secureErase {
        return Err(EOPNOTSUPP);
      }
    } else {
      if !d.discard {
        return Err(EOPNOTSUPP);
      }
      if zero && !d.zeroesData {
        return Err(EOPNOTSUPP);
      }
    }
    if sector % d.blockSectors != 0 || nr % d.blockSectors != 0 {
      return Err(EINVAL);
    }
    var g := Granularity(d);
    var ps := IssueLoop(sector, nr, g, d.alignment / 512 % g);
    return Ok(ps);
  }

  // ---- Logical blocks ----

  lemma MultipleOf(q: nat, g: nat, bs: nat)
    requires bs > 0 && g % bs == 0
    ensures q * g % bs == 0
  {
    var k := g / bs;
    assert g == k * bs;
    assert q * g == (q * k) * bs;
    DivMod(q * g, q * k, bs, 0);
  }

  lemma SumMod(x: nat, y: nat, bs: nat)
    requires bs > 0 && x % bs == 0
    ensures (x + y) % bs == y % bs
  {
    assert x + y == (x / bs + y / bs) * bs + y % bs by {
      assert (x / bs + y / bs) * bs == x / bs * bs + y / bs * bs;
    }
    DivMod(x + y, x / bs + y / bs, bs, y % bs);
  }

  /** On a granularity and alignment in whole logical blocks, every cut is. */
  lemma CutsKeepBlocks(ps: seq<Piece>, g: nat, al: nat, bs: nat, i: nat)
    requires bs > 0 && al < g && g % bs == 0 && al % bs == 0 && CutsAligned(ps, g, al) && 0 < i < |ps|
    ensures ps[i].start % bs == 0
  {
    var c := ps[i].start;
    assert c == c / g * g + al;
    MultipleOf(c / g, g, bs);
    SumMod(c / g * g, al, bs);
  }

  /** A range of whole blocks whose first cut is inside a block. */
  lemma BlockSplitBy(g: nat, al: nat, bs: nat) returns (s: nat)
    requires 0 < bs && (MAX_SECTORS + 1) % bs == 0 && al < g <= MAX_SECTORS
    requires g % bs != 0 || al % bs != 0
    ensures s % bs == 0 && FirstCut(s, g, al) % bs != 0
  {
    hide AlignDown;
    if g < bs {
      s := 0;
      SmallGranule(g, al, bs);
    } else {
      var c := UnalignedCut(g, al, bs);
      var low := c - MAX_SECTORS;
      s := low + (bs - 1 - (low + bs - 1) % bs);
      RoundUp(low, bs);
      AlignDownUnique(s + MAX_SECTORS, g, al, c);
    }
  }

  lemma RoundUp(x: nat, bs: nat)
    requires bs > 0
    ensures (x + bs - 1 - (x + bs - 1) % bs) % bs == 0
  {
    var y := x + bs - 1;
    assert y - y % bs == y / bs * bs;
    DivMod(y - y % bs, y / bs, bs, 0);
  }

  /** A granularity below the block size: the piece would end one sector short of a block. */
  lemma SmallGranule(g: nat, al: nat, bs: nat)
    requires 0 < bs && (MAX_SECTORS + 1) % bs == 0 && al < g < bs && g <= MAX_SECTORS
    ensures FirstCut(0, g, al) % bs != 0
  {
    hide AlignDown;
    AlignDownSpec(MAX_SECTORS, g, al);
    var d := MAX_SECTORS + 1 - FirstCut(0, g, al);
    assert 0 < d < bs;
    SumMod(MAX_SECTORS + 1, 0, bs);
    if FirstCut(0, g, al) % bs == 0 {
      SumMod(FirstCut(0, g, al), d, bs);
      DivMod(d, 0, bs, d);
      assert false;
    }
  }

  /** Two neighbouring multiples of the granularity cannot both be on blocks. */
  lemma UnalignedCut(g: nat, al: nat, bs: nat) returns (c: nat)
    requires 0 < bs && al < g && (g % bs != 0 || al % bs != 0)
    ensures c % g == al && c % bs != 0 && c >= MAX_SECTORS
  {
    var k := MAX_SECTORS * bs;
    c := k * g + al;
    DivMod(c, k, g, al);
    assert k * g == (MAX_SECTORS * g) * bs;
    DivMod(k * g, MAX_SECTORS * g, bs, 0);
    SumMod(k * g, al, bs);
    MulLe(MAX_SECTORS, k, 1);
    MulLe(1, g, k);
    if al % bs == 0 {
      c := (k + 1) * g + al;
      assert (k + 1) * g == k * g + g;
      DivMod(c, k + 1, g, al);
      SumMod(k * g, g + al, bs);
      SumMod(al, g, bs);
    }
  }

  /** All cuts are between logical blocks. */
  predicate CutsBetweenBlocks(ps: seq<Piece>, bs: nat)
    requires bs > 0
  {
    forall i :: 0 < i < |ps| ==> ps[i].start % bs == 0
  }

  /**
   For all ranges of whole blocks, all cuts fall between logical blocks exactly when the device's
   granularity and alignment are whole blocks.
   */
  lemma BlocksKeptExactly(g: nat, al: nat, bs: nat)
    requires 0 < bs && (MAX_SECTORS + 1) % bs == 0 && al < g <= MAX_SECTORS
    ensures (g % bs == 0 && al % bs == 0) <==>
            forall s: nat, nr: nat :: s % bs == 0 && nr % bs == 0 ==> CutsBetweenBlocks(Pieces(s, nr, g, al), bs)
  {
    hide FirstCut, Pieces;
    if g % bs == 0 && al % bs == 0 {
      forall s: nat, nr: nat | s % bs == 0 && nr % bs == 0 ensures CutsBetweenBlocks(Pieces(s, nr, g, al), bs) {
        PiecesAreSound(s, nr, g, al);
        var ps := Pieces(s, nr, g, al);
        forall i | 0 < i < |ps| ensures ps[i].start % bs == 0 {
          CutsKeepBlocks(ps, g, al, bs, i);
        }
      }
    } else {
      var s := BlockSplitBy(g, al, bs);
      SecondPiece(s, g, al);
      assert !CutsBetweenBlocks(Pieces(s, MAX_SECTORS + 1, g, al), bs);
    }
  }

  /** A range one sector too long for a bio is cut once, at the first place. */
  lemma SecondPiece(s: nat, g: nat, al: nat)
    requires al < g <= MAX_SECTORS
    ensures var ps := Pieces(s, MAX_SECTORS + 1, g, al);
            |ps| > 1 && ps[1].start == FirstCut(s, g, al)
  {
    hide FirstCut;
    CutAdvances(s, g, al);
    var c := FirstCut(s, g, al);
    PiecesAreSound(c, MAX_SECTORS + 1 - (c - s), g, al);
  }

  // ---- Splitting a discard bio ----

  /** blk_bio_discard_split's limit: whole granules. */
  function MaxDiscard(limit: nat, g: nat): nat
    requires g > 0
  {
    var max := if limit < MAX_SECTORS then limit else MAX_SECTORS;
    max - max % g
  }

  /** blk_bio_discard_split: how many sectors to split off, if any; `bio_split`'s bounds hold. */
  method DiscardSplit(sector: nat, sectors: nat, limit: nat, g: nat, al: nat) returns (split: Option<nat>)
    requires al < g
    ensures split.Some? <==> 0 < MaxDiscard(limit, g) < sectors
    ensures split.Some? ==> 0 < split.value < sectors && split.value <= MaxDiscard(limit, g) && (sector + split.value) % g == al
    ensures split.Some? ==> split.value + g > MaxDiscard(limit, g)
  {
    var max := if limit < MAX_SECTORS then limit else MAX_SECTORS;
    max := max - max % g;
    if max == 0 || sectors <= max {
      return None;
    }
    AtLeastOneGranule(limit, g);
    var n := max;
    var tmp := (sector + n - al) % g;
    if n > tmp {
      n := n - tmp;
    }
    SplitIsAligned(sector + max, g, al);
    return Some(n);
  }

  lemma AtLeastOneGranule(limit: nat, g: nat)
    requires g > 0 && MaxDiscard(limit, g) > 0
    ensures MaxDiscard(limit, g) >= g
  {
    var max := if limit < MAX_SECTORS then limit else MAX_SECTORS;
    assert max - max % g == max / g * g;
    Steps(0, max / g, g);
  }

  lemma SplitIsAligned(x: nat, g: nat, al: nat)
    requires al < g && g <= x
    ensures (x - (x - al) % g) % g == al
  {
    assert x - al == (x - al) / g * g + (x - al) % g;
    DivMod(x - (x - al) % g, (x - al) / g, g, al);
  }

  /** Splitting until nothing more is split off. */
  method SplitAll(sector: nat, sectors: nat, limit: nat, g: nat, al: nat) returns (ps: seq<Piece>)
    requires al < g && sectors > 0
    ensures Tiles(ps, sector, sectors) && CutsAligned(ps, g, al)
    ensures MaxDiscard(limit, g) > 0 ==> FitsSize(ps, MaxDiscard(limit, g)) && NearlyFull(ps, MaxDiscard(limit, g), g)
    ensures MaxDiscard(limit, g) == 0 ==> ps == [Piece(sector, sectors)]
  {
    hide MaxDiscard;
    ps := [];
    var s, left := sector, sectors;
    while true
      invariant s + left == sector + sectors && left > 0 && s >= sector
      invariant Tiles(ps, sector, s - sector) && CutsAligned(ps, g, al)
      invariant FitsSize(ps, MaxDiscard(limit, g)) && forall i :: 0 <= i < |ps| ==> ps[i].len + g > MaxDiscard(limit, g)
      invariant ps != [] ==> s % g == al && MaxDiscard(limit, g) > 0
      invariant ps == [] ==> s == sector
      decreases left
    {
      var split := DiscardSplit(s, left, limit, g, al);
      var n := if split.Some? then split.value else left;
      TilesMore(ps, Piece(s, n), sector, s - sector);
      ps := ps + [Piece(s, n)];
      if split.None? {
        return;
      }
      s, left := s + n, left - n;
    }
  }
}
