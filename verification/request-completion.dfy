/**
 Partial completion of a request: a driver reports some bytes at a time, and the bios the request
 carries end in order as the bytes that cover them are reported.
 */
module RequestCompletion {

  /** A bio in a request: `size` bytes are left of it. */
  datatype Bio = Bio(id: nat, size: nat, error: int)

  function Bytes(bios: seq<Bio>): nat {
    if bios == [] then 0 else bios[0].size + Bytes(bios[1..])
  }

  /** The bytes in front of the `i`-th bio. */
  function Offset(bios: seq<Bio>, i: nat): nat
    requires i <= |bios|
  {
    if i == 0 then 0 else bios[0].size + Offset(bios[1..], i - 1)
  }

  function Ids(bios: seq<Bio>): seq<nat> {
    seq(|bios|, i requires 0 <= i < |bios| => bios[i].id)
  }

  /** req_bio_endio on `n` bytes of the bio. */
  function Advanced(b: Bio, n: nat, error: int): Bio
    requires n <= b.size
  {
    Bio(b.id, b.size - n, if error != 0 then error else b.error)
  }

  /** The loop of blk_update_request: the bios left, and the bios that ended in the order they did. */
  function Consume(bios: seq<Bio>, error: int, n: nat): (seq<Bio>, seq<Bio>) {
    if bios == [] then ([], [])
    else if n < bios[0].size then ([Advanced(bios[0], n, error)] + bios[1..], [])
    else
      var end := Advanced(bios[0], bios[0].size, error);
      if n == bios[0].size then (bios[1..], [end])
      else
        var (rest, ended) := Consume(bios[1..], error, n - bios[0].size);
        (rest, [end] + ended)
  }

  lemma {:induction false} ConsumeBytes(bios: seq<Bio>, error: int, n: nat)
    ensures Bytes(Consume(bios, error, n).0) == if n <= Bytes(bios) then Bytes(bios) - n else 0
    ensures Consume(bios, error, n).0 != [] ==> n <= Bytes(bios)
  {
    if bios != [] && n >= bios[0].size {
      ConsumeBytes(bios[1..], error, n - bios[0].size);
    }
  }

  lemma {:induction false} ConsumeIds(bios: seq<Bio>, error: int, n: nat)
    ensures Ids(Consume(bios, error, n).1 + Consume(bios, error, n).0) == Ids(bios)
    ensures forall b :: b in Consume(bios, error, n).1 ==> b.size == 0
  {
    if bios != [] && n > bios[0].size {
      ConsumeIds(bios[1..], error, n - bios[0].size);
      var (rest, ended) := Consume(bios[1..], error, n - bios[0].size);
      var (rest', ended') := Consume(bios, error, n);
      assert ended' + rest' == [ended'[0]] + (ended + rest);
      assert Ids(ended' + rest') == [bios[0].id] + Ids(bios[1..]);
      assert Ids(bios) == [bios[0].id] + Ids(bios[1..]);
    }
  }

  /** Reporting `j` bytes and then `k` more is reporting `j + k` bytes. */
  lemma {:induction false} ConsumeAgain(bios: seq<Bio>, error: int, j: nat, k: nat)
    requires k > 0
    ensures var (rest, ended) := Consume(bios, error, j);
      var (rest', ended') := Consume(rest, error, k);
      Consume(bios, error, j + k) == (rest', ended + ended')
  {
    var (rest, ended) := Consume(bios, error, j);
    var ended' := Consume(rest, error, k).1;
    if bios == [] || j < bios[0].size {
      assert bios != [] ==> rest[1..] == bios[1..];
      assert ended + ended' == ended';
    } else if j > bios[0].size {
      ConsumeAgain(bios[1..], error, j - bios[0].size, k);
      assert ended + ended' == [ended[0]] + (ended[1..] + ended');
    }
  }

  lemma {:induction false} OffsetStep(bios: seq<Bio>, i: nat)
    requires i < |bios|
    ensures Offset(bios, i + 1) == Offset(bios, i) + bios[i].size
  {
    if i > 0 {
      OffsetStep(bios[1..], i - 1);
    }
  }

  /** No bio of the request is empty. */
  ghost predicate Solid(bios: seq<Bio>) {
    forall i :: 0 <= i < |bios| ==> bios[i].size > 0
  }

  /** A report of `n` bytes, counted from `lo` bytes before a bio: one of no bytes still goes to the first bio. */
  predicate Reaches(n: nat, lo: int) {
    lo < n || (n == 0 && lo <= 0)
  }

  /** What one report of `n` bytes does to the bio that covers bytes `lo` up to `hi`. */
  ghost predicate Consumed(bios: seq<Bio>, error: int, n: nat, i: nat, rest: seq<Bio>, ended: seq<Bio>)
    requires i < |bios|
  {
    var lo, hi := Offset(bios, i), Offset(bios, i + 1);
    && |ended| + |rest| == |bios|
    && (i < |ended| <==> lo < n && hi <= n)
    && (ended + rest)[i].id == bios[i].id
    && (ended + rest)[i].error == (if Reaches(n, lo) && error != 0 then error else bios[i].error)
    && (i >= |ended| ==>
      && Offset(rest, i - |ended|) == (if lo < n then 0 else lo - n)
      && Offset(rest, i - |ended| + 1) == hi - n)
  }

  lemma {:induction false} ConsumeSome(bios: seq<Bio>, error: int, n: nat, i: nat)
    requires n > 0 && i < |bios|
    ensures Consumed(bios, error, n, i, Consume(bios, error, n).0, Consume(bios, error, n).1)
  {
    var b := bios[0];
    var (rest, ended) := Consume(bios, error, n);
    if n < b.size {
      assert rest[1..] == bios[1..];
    } else if n == b.size {
      if i > 0 { OffsetStep(bios[1..], i - 1); }
    } else {
      var (rest', ended') := Consume(bios[1..], error, n - b.size);
      assert ended + rest == [ended[0]] + (ended' + rest');
      if i == 0 {
        if |bios| > 1 { ConsumeSome(bios[1..], error, n - b.size, 0); }
      } else {
        ConsumeSome(bios[1..], error, n - b.size, i - 1);
      }
    }
  }

  /** A report of no bytes marks the first bio, if it fails, and ends none. */
  lemma ConsumeNone(bios: seq<Bio>, error: int, i: nat)
    requires Solid(bios) && i < |bios|
    ensures Consumed(bios, error, 0, i, Consume(bios, error, 0).0, Consume(bios, error, 0).1)
  {
    var (rest, ended) := Consume(bios, error, 0);
    assert bios[0].size > 0 && rest[1..] == bios[1..] && ended + rest == rest;
  }

  lemma ConsumeOne(bios: seq<Bio>, error: int, n: nat, i: nat)
    requires (n > 0 || Solid(bios)) && i < |bios|
    ensures Consumed(bios, error, n, i, Consume(bios, error, n).0, Consume(bios, error, n).1)
  {
    hide Consumed;
    if n > 0 {
      ConsumeSome(bios, error, n, i);
    } else {
      ConsumeNone(bios, error, i);
    }
  }

  lemma {:induction false} ConsumeSolid(bios: seq<Bio>, error: int, n: nat)
    requires Solid(bios)
    ensures Solid(Consume(bios, error, n).0)
  {
    if bios != [] && n > bios[0].size {
      ConsumeSolid(bios[1..], error, n - bios[0].size);
    }
  }

  // ---- Runs of reports ----

  datatype Report = Report(error: int, bytes: nat)

  /** The bios left and the bios that ended, in order, after a driver's reports. */
  function Play(bios: seq<Bio>, reports: seq<Report>): (seq<Bio>, seq<Bio>)
    decreases |reports|
  {
    if reports == [] then (bios, [])
    else
      var (rest, ended) := Consume(bios, reports[0].error, reports[0].bytes);
      var (rest', ended') := Play(rest, reports[1..]);
      (rest', ended + ended')
  }

  function Total(reports: seq<Report>): nat {
    if reports == [] then 0 else reports[0].bytes + Total(reports[1..])
  }

  ghost predicate Positive(reports: seq<Report>) {
    forall i :: 0 <= i < |reports| ==> reports[i].bytes > 0
  }

  /**
   Whether a failed report overlaps bytes `lo` up to `hi`, counted from where the reports begin.  An
   empty bio is overlapped by the report that goes past its place.
   */
  predicate Hit(reports: seq<Report>, lo: int, hi: int) {
    reports != [] && (
      || (reports[0].error != 0 && (hi > 0 || lo >= 0) && Reaches(reports[0].bytes, lo))
      || Hit(reports[1..], lo - reports[0].bytes, hi - reports[0].bytes))
  }

  lemma {:induction false} HitPast(reports: seq<Report>, lo: int, hi: int)
    requires lo < 0 && hi <= 0
    ensures !Hit(reports, lo, hi)
  {
    if reports != [] {
      HitPast(reports[1..], lo - reports[0].bytes, hi - reports[0].bytes);
    }
  }

  lemma {:induction false} HitFrom(reports: seq<Report>, lo: int, lo': int, hi: int)
    requires lo <= 0 && lo' <= 0 && hi > 0
    ensures Hit(reports, lo, hi) == Hit(reports, lo', hi)
  {
    if reports != [] {
      var n := reports[0].bytes;
      if hi > n {
        HitFrom(reports[1..], lo - n, lo' - n, hi - n);
      } else {
        HitPast(reports[1..], lo - n, hi - n);
        HitPast(reports[1..], lo' - n, hi - n);
      }
    }
  }

  /** What a driver's reports do to the `i`-th bio of a request. */
  ghost predicate Played(bios: seq<Bio>, reports: seq<Report>, i: nat, rest: seq<Bio>, ended: seq<Bio>)
    requires i < |bios|
  {
    var lo, hi := Offset(bios, i), Offset(bios, i + 1);
    && |ended| + |rest| == |bios|
    && (i < |ended| <==> lo < Total(reports) && hi <= Total(reports))
    && (ended + rest)[i].id == bios[i].id
    && ((ended + rest)[i].error != 0 <==> bios[i].error != 0 || Hit(reports, lo, hi))
  }

  /** The bio ends with the first report. */
  lemma PlayedFirst(bios: seq<Bio>, reports: seq<Report>, i: nat, rest: seq<Bio>, ended: seq<Bio>, rest': seq<Bio>, ended': seq<Bio>)
    requires i < |bios| && reports != [] && Consumed(bios, reports[0].error, reports[0].bytes, i, rest, ended)
    requires i < |ended| && |ended'| + |rest'| == |rest|
    ensures Played(bios, reports, i, rest', ended + ended')
  {
    var lo: int, hi: int, n := Offset(bios, i), Offset(bios, i + 1), reports[0].bytes;
    OffsetStep(bios, i);
    hide Offset;
    HitPast(reports[1..], lo - n, hi - n);
  }

  /** The bio is still there after the first report, at another place. */
  lemma PlayedLater(bios: seq<Bio>, reports: seq<Report>, i: nat, rest: seq<Bio>, ended: seq<Bio>, rest': seq<Bio>, ended': seq<Bio>)
    requires i < |bios| && reports != [] && Consumed(bios, reports[0].error, reports[0].bytes, i, rest, ended)
    requires |ended| <= i && Played(rest, reports[1..], i - |ended|, rest', ended')
    ensures Played(bios, reports, i, rest', ended + ended')
  {
    var lo: int, hi: int, n := Offset(bios, i), Offset(bios, i + 1), reports[0].bytes;
    OffsetStep(bios, i);
    hide Offset;
    var k := i - |ended|;
    assert (ended + rest)[i] == rest[k];
    assert (ended + ended' + rest')[i] == (ended' + rest')[k];
    if lo < n {
      HitFrom(reports[1..], lo - n, 0, hi - n);
    }
  }

  /**
   After any reports: every bio is accounted for once, in its place; it has ended exactly when its
   bytes have all been reported; it carries an error exactly when it had one or a failed report
   overlapped it.  Reports may be of no bytes, unless the request has empty bios (`EmptyRequestEnds`).
   */
  lemma {:induction false} PlayOne(bios: seq<Bio>, reports: seq<Report>, i: nat)
    requires (Positive(reports) || Solid(bios)) && i < |bios|
    ensures Played(bios, reports, i, Play(bios, reports).0, Play(bios, reports).1)
    decreases |reports|
  {
    hide Consume, Bytes, Consumed, Solid, Positive;
    if reports == [] {
      PlayedNone(bios, i);
    } else {
      var e, n, more := reports[0].error, reports[0].bytes, reports[1..];
      PositiveRest(reports);
      if Solid(bios) { ConsumeSolid(bios, e, n); }
      var (rest, ended) := Consume(bios, e, n);
      var (rest', ended') := Play(rest, more);
      ConsumeOne(bios, e, n, i);
      ConsumedLength(bios, e, n, i, rest, ended);
      if i < |ended| {
        if rest != [] {
          PlayOne(rest, more, 0);
        } else {
          PlayEmpty(more);
        }
        PlayedFirst(bios, reports, i, rest, ended, rest', ended');
      } else {
        PlayOne(rest, more, i - |ended|);
        PlayedLater(bios, reports, i, rest, ended, rest', ended');
      }
    }
  }

  lemma PlayedNone(bios: seq<Bio>, i: nat)
    requires i < |bios|
    ensures Played(bios, [], i, bios, [])
  {
    assert [] + bios == bios;
  }

  lemma PositiveRest(reports: seq<Report>)
    requires reports != []
    ensures Positive(reports) ==> reports[0].bytes > 0 && Positive(reports[1..])
  {
  }

  lemma ConsumedLength(bios: seq<Bio>, error: int, n: nat, i: nat, rest: seq<Bio>, ended: seq<Bio>)
    requires i < |bios| && Consumed(bios, error, n, i, rest, ended)
    ensures |ended| + |rest| == |bios|
  {
  }

  /** A request without data, which is one empty bio, ends with the first report of whatever size. */
  lemma EmptyRequestEnds(b: Bio, reports: seq<Report>)
    requires b.size == 0 && reports != []
    ensures Play([b], reports) == ([], [Bio(b.id, 0, if reports[0].error != 0 then reports[0].error else b.error)])
  {
    PlayEmpty(reports[1..]);
    var end := Advanced(b, 0, reports[0].error);
    assert [b][1..] == [] && [end] + [] == [end];
    assert Consume([b], reports[0].error, reports[0].bytes) == ([], [end]);
  }

  lemma {:induction false} PlayEmpty(reports: seq<Report>)
    ensures Play([], reports) == ([], [])
  {
    if reports != [] {
      PlayEmpty(reports[1..]);
      var none: seq<Bio> := [];
      assert none + none == none;
    }
  }

  lemma {:induction false} PlayBytes(bios: seq<Bio>, reports: seq<Report>)
    ensures Bytes(Play(bios, reports).0) == if Total(reports) <= Bytes(bios) then Bytes(bios) - Total(reports) else 0
    decreases |reports|
  {
    if reports != [] {
      ConsumeBytes(bios, reports[0].error, reports[0].bytes);
      PlayBytes(Consume(bios, reports[0].error, reports[0].bytes).0, reports[1..]);
    }
  }

  // ---- The start sector ----

  /** The start sector after a report of `n` bytes that leaves `rest`: moved only while data is left, and only for fs requests. */
  function Moved(fs: bool, rest: seq<Bio>, sector: nat, n: nat): nat {
    if fs && rest != [] then sector + n / 512 else sector
  }

  /** The bios and the start sector of a request after a driver's reports, as `Request.Update` leaves them. */
  function Carry(fs: bool, bios: seq<Bio>, sector: nat, reports: seq<Report>): (seq<Bio>, nat)
    decreases |reports|
  {
    if reports == [] then (bios, sector)
    else
      var rest := Consume(bios, reports[0].error, reports[0].bytes).0;
      Carry(fs, rest, Moved(fs, rest, sector, reports[0].bytes), reports[1..])
  }

  /** The whole sectors of each report, added up. */
  function SectorsAdvanced(reports: seq<Report>): nat {
    if reports == [] then 0 else reports[0].bytes / 512 + SectorsAdvanced(reports[1..])
  }

  predicate WholeSectors(reports: seq<Report>) {
    reports == [] || (reports[0].bytes % 512 == 0 && WholeSectors(reports[1..]))
  }

  lemma {:induction false} WholeMeansAll(reports: seq<Report>)
    ensures WholeSectors(reports) <==> forall i :: 0 <= i < |reports| ==> reports[i].bytes % 512 == 0
  {
    if reports != [] {
      var more := reports[1..];
      WholeMeansAll(more);
      if WholeSectors(reports) {
        forall i | 0 <= i < |reports|
          ensures reports[i].bytes % 512 == 0
        {
          assert i > 0 ==> reports[i] == more[i - 1];
        }
      } else if reports[0].bytes % 512 == 0 {
        var k :| 0 <= k < |more| && more[k].bytes % 512 != 0;
        assert reports[k + 1] == more[k];
      }
    }
  }

  lemma {:induction false} FloorsAddUp(reports: seq<Report>)
    ensures 512 * SectorsAdvanced(reports) <= Total(reports)
    ensures 512 * SectorsAdvanced(reports) == Total(reports) <==> WholeSectors(reports)
  {
    if reports != [] {
      FloorsAddUp(reports[1..]);
    }
  }

  /** While bios are left, the bios are those of `Play` and the start sector has moved by the whole sectors of each report. */
  lemma {:induction false} CarryIsPlay(bios: seq<Bio>, sector: nat, reports: seq<Report>)
    ensures Carry(true, bios, sector, reports).0 == Play(bios, reports).0
    ensures Play(bios, reports).0 != [] ==>
      Total(reports) <= Bytes(bios) && Carry(true, bios, sector, reports).1 == sector + SectorsAdvanced(reports)
    decreases |reports|
  {
    if reports != [] {
      var rest := Consume(bios, reports[0].error, reports[0].bytes).0;
      ConsumeBytes(bios, reports[0].error, reports[0].bytes);
      CarryIsPlay(rest, Moved(true, rest, sector, reports[0].bytes), reports[1..]);
      if rest == [] {
        PlayEmpty(reports[1..]);
      }
    }
  }

  /**
   While bios are left, the start sector and the bytes left make up the request, that is, the sector has
   moved by exactly the bytes done, if and only if every report was of whole sectors.
   */
  lemma SectorIsExact(bios: seq<Bio>, sector: nat, reports: seq<Report>)
    requires Play(bios, reports).0 != []
    ensures var (rest, sector') := Carry(true, bios, sector, reports);
      && sector' >= sector && 512 * (sector' - sector) + Bytes(rest) <= Bytes(bios)
      && (512 * (sector' - sector) + Bytes(rest) == Bytes(bios) <==>
          forall i :: 0 <= i < |reports| ==> reports[i].bytes % 512 == 0)
  {
    CarryIsPlay(bios, sector, reports);
    PlayBytes(bios, reports);
    FloorsAddUp(reports);
    WholeMeansAll(reports);
  }

  /** Half a sector twice, of a request of two sectors: one sector is left, and the start sector is still the first. */
  lemma OddReportsLagBehind(sector: nat)
    ensures Carry(true, [Bio(0, 1024, 0)], sector, [Report(0, 256), Report(0, 256)]) == ([Bio(0, 512, 0)], sector)
  {
    var a, b, c := Bio(0, 1024, 0), Bio(0, 768, 0), Bio(0, 512, 0);
    assert Consume([a], 0, 256).0 == [b] && Consume([b], 0, 256).0 == [c];
    assert [Report(0, 256), Report(0, 256)][1..] == [Report(0, 256)];
    assert Carry(true, [b], sector, [Report(0, 256)]) == Carry(true, [c], sector, []);
  }

  /** A request being completed. */
  class Request {
    var bios: seq<Bio>
    var dataLen: int
    var sector: nat
    var ended: seq<Bio>
    const fs: bool
    const flushSeq: bool

    ghost predicate Valid()
      reads this
    {
      dataLen == Bytes(bios)
    }

    constructor (bios: seq<Bio>, sector: nat, fs: bool, flushSeq: bool)
      ensures Valid() && this.bios == bios && this.sector == sector && this.fs == fs && this.flushSeq == flushSeq && ended == []
    {
      this.bios, this.sector, this.fs, this.flushSeq := bios, sector, fs, flushSeq;
      dataLen, ended := Bytes(bios), [];
    }

    /** req_bio_endio: a bio with nothing left ends, unless the request is part of a flush sequence. */
    method EndBioBytes(b: Bio, n: nat, error: int) returns (b': Bio)
      requires n <= b.size
      modifies this`ended
      ensures b' == Advanced(b, n, error)
      ensures ended == old(ended) + if n == b.size && !flushSeq then [b'] else []
    {
      b' := b;
      if error != 0 {
        b' := b'.(error := error);
      }
      b' := b'.(size := b'.size - n);
      if b'.size == 0 && !flushSeq {
        ended := ended + [b'];
      }
    }

    /** The loop of blk_update_request. */
    method EndBios(error: int, n: nat) returns (total: nat)
      modifies this`bios, this`ended
      ensures bios == Consume(old(bios), error, n).0
      ensures ended == old(ended) + if flushSeq then [] else Consume(old(bios), error, n).1
      ensures total + Bytes(bios) == Bytes(old(bios))
      ensures bios != [] ==> total == n
    {
      hide Consume, Bytes, Advanced;
      total := 0;
      var left := n;
      while bios != []
        invariant total + left == n && left >= 0
        invariant total + Bytes(bios) == Bytes(old(bios))
        invariant Consume(bios, error, left).0 == Consume(old(bios), error, n).0
        invariant old(ended) + Ending(Consume(old(bios), error, n).1) == ended + Ending(Consume(bios, error, left).1)
        decreases |bios|
      {
        ConsumeStep(bios, error, left);
        var b := bios[0];
        var bytes := if b.size < left then b.size else left;
        var b' := EndBioBytes(b, bytes, error);
        bios := if bytes == b.size then bios[1..] else [b'] + bios[1..];
        total, left := total + bytes, left - bytes;
        if left == 0 {
          return;
        }
      }
      ConsumeNothing(error, left);
    }

    ghost function Ending(bs: seq<Bio>): seq<Bio> {
      if flushSeq then [] else bs
    }

    /** blk_update_request; `cur` gives the bytes in the current vector of a bio. */
    method Update(error: int, n: nat, cur: Bio -> nat) returns (more: bool, botched: bool)
      requires Valid() && forall b :: cur(b) <= b.size
      modifies this
      ensures Valid() && !botched
      ensures bios == Consume(old(bios), error, n).0
      ensures ended == old(ended) + if flushSeq then [] else Consume(old(bios), error, n).1
      ensures more <==> bios != []
      ensures sector == Moved(fs, bios, old(sector), n)
      ensures (bios, sector) == Carry(fs, old(bios), old(sector), [Report(error, n)])
      ensures dataLen == if n <= old(dataLen) then old(dataLen) - n else 0
    {
      hide Consume;
      ConsumeBytes(bios, error, n);
      ConsumeNothing(error, n);
      if bios == [] {
        return false, false;
      }
      var total := EndBios(error, n);
      if bios == [] {
        dataLen := 0;
        return false, false;
      }
      dataLen := dataLen - total;
      if fs {
        sector := sector + total / 512;
      }
      var curBytes: int := cur(bios[0]);
      more, botched := true, dataLen < curBytes;
      dataLen := if botched then curBytes else dataLen;
    }
  }

  lemma ConsumeNothing(error: int, n: nat)
    ensures Consume([], error, n) == ([], []) && Bytes([]) == 0
  {
  }

  /** One pass of the loop. */
  lemma ConsumeStep(bios: seq<Bio>, error: int, left: nat)
    requires bios != []
    ensures var b := bios[0];
      var bytes := if b.size < left then b.size else left;
      var rest := if bytes == b.size then bios[1..] else [Advanced(b, bytes, error)] + bios[1..];
      var ends := if bytes == b.size then [Advanced(b, bytes, error)] else [];
      && Bytes(bios) == bytes + Bytes(rest)
      && (left == bytes ==> Consume(bios, error, left) == (rest, ends))
      && (left > bytes ==>
        Consume(bios, error, left) == (Consume(rest, error, left - bytes).0, ends + Consume(rest, error, left - bytes).1))
  {
  }
}
