/** Requests that grow by merging bios and other requests, and the segment counter they carry. */
module RequestMerging {
  import opened Arithmetic
  import opened Segments
  import opened Scatterlist

  ghost predicate BioCounted(q: Queue, bio: Bio)
    requires q.Ok()
  {
    Counted(q, bio.bvs, bio.phys, bio.front, bio.back)
  }

  /** bvec_gap_to_prev: the driver cannot have `b` right after `a` in one scatterlist. */
  predicate Gap(q: Queue, a: Bvec, b: Bvec) {
    q.virt != 0 && (b.offset != 0 || (a.offset + a.len) % q.virt != 0)
  }

  predicate GapFree(q: Queue, bvs: seq<Bvec>) {
    forall i :: 0 <= i < |bvs| - 1 ==> !Gap(q, bvs[i], bvs[i + 1])
  }

  lemma GapFreeConcat(q: Queue, a: seq<Bvec>, b: seq<Bvec>)
    requires GapFree(q, a) && GapFree(q, b) && a != [] && b != [] && !Gap(q, a[|a| - 1], b[0])
    ensures GapFree(q, a + b)
  {
    var c := a + b;
    forall i | 0 <= i < |c| - 1 ensures !Gap(q, c[i], c[i + 1]) {
      if i < |a| - 1 {
        assert c[i] == a[i] && c[i + 1] == a[i + 1];
      } else if i >= |a| {
        assert c[i] == b[i - |a|] && c[i + 1] == b[i - |a| + 1];
      }
    }
  }

  /** blk_phys_contig_segment, given the recorded sizes of the segments at the seam. */
  predicate Contiguous(q: Queue, back: nat, front: nat, a: Bvec, b: Bvec)
    requires q.Ok()
  {
    back + front <= q.maxSegSize && Joinable(q, a, b)
  }

  // ---- every way of building a request ----

  /**
   How a request came about: from a bio, by a back or front merge of a bio, or by merging two requests.
   A merge of two requests that is refused for having too many segments has already recorded the size of
   the seam: Before is the request `r` after such an attempt, After is `next` after it.
   */
  datatype Built =
    | One(bio: Bio)
    | Back(r: Built, bio: Bio)
    | Front(bio: Bio, r: Built)
    | Joined(r: Built, next: Built)
    | Before(r: Built, next: Built)
    | After(r: Built, next: Built)
  {
    function Bvs(): seq<Bvec> {
      match this
      case One(b) => b.bvs
      case Back(r, b) => r.Bvs() + b.bvs
      case Front(b, r) => b.bvs + r.Bvs()
      case Joined(r, n) => r.Bvs() + n.Bvs()
      case Before(r, _) => r.Bvs()
      case After(_, n) => n.Bvs()
    }

    predicate NonEmpty() {
      match this
      case One(b) => b.bvs != []
      case Back(r, b) => r.NonEmpty() && b.bvs != []
      case Front(b, r) => b.bvs != [] && r.NonEmpty()
      case Joined(r, n) => r.NonEmpty() && n.NonEmpty()
      case Before(r, n) => r.NonEmpty() && n.NonEmpty()
      case After(r, n) => r.NonEmpty() && n.NonEmpty()
    }

    lemma BvsNonEmpty()
      requires NonEmpty()
      ensures Bvs() != []
    {
    }

    /** ll_merge_requests_fn takes one segment off when the two requests touch in memory. */
    predicate Touch(q: Queue)
      requires q.Ok() && NonEmpty() && (Joined? || Before? || After?)
      decreases this, 0
    {
      r.BvsNonEmpty();
      next.BvsNonEmpty();
      Contiguous(q, r.BackSize(q), next.FrontSize(q), r.Bvs()[|r.Bvs()| - 1], next.Bvs()[0])
    }

    /** nr_phys_segments, as the merge functions maintain it. */
    function Nr(q: Queue): int
      requires q.Ok() && NonEmpty()
      decreases this, 1
    {
      match this
      case One(b) => b.phys
      case Back(r, b) => r.Nr(q) + b.phys
      case Front(b, r) => r.Nr(q) + b.phys
      case Joined(r, n) => r.Nr(q) + n.Nr(q) - if Touch(q) then 1 else 0
      case Before(r, _) => r.Nr(q)
      case After(_, n) => n.Nr(q)
    }

    /** bi_seg_front_size of the first bio. */
    function FrontSize(q: Queue): nat
      requires q.Ok() && NonEmpty()
      decreases this, 1
    {
      match this
      case One(b) => b.front
      case Back(r, _) => r.FrontSize(q)
      case Front(b, _) => b.front
      case Joined(r, n) => if Touch(q) && r.Nr(q) == 1 then r.BackSize(q) + n.FrontSize(q) else r.FrontSize(q)
      case Before(r, n) => if Touch(q) && r.Nr(q) == 1 then r.BackSize(q) + n.FrontSize(q) else r.FrontSize(q)
      case After(_, n) => n.FrontSize(q)
    }

    /** bi_seg_back_size of the last bio. */
    function BackSize(q: Queue): nat
      requires q.Ok() && NonEmpty()
      decreases this, 1
    {
      match this
      case One(b) => b.back
      case Back(_, b) => b.back
      case Front(_, r) => r.BackSize(q)
      case Joined(r, n) => if Touch(q) && n.Nr(q) == 1 then r.BackSize(q) + n.FrontSize(q) else n.BackSize(q)
      case Before(r, _) => r.BackSize(q)
      case After(r, n) => if Touch(q) && n.Nr(q) == 1 then r.BackSize(q) + n.FrontSize(q) else n.BackSize(q)
    }

    ghost predicate WellCounted(q: Queue)
      requires q.Ok()
    {
      match this
      case One(b) => BioCounted(q, b)
      case Back(r, b) => r.WellCounted(q) && BioCounted(q, b)
      case Front(b, r) => BioCounted(q, b) && r.WellCounted(q)
      case Joined(r, n) => r.WellCounted(q) && n.WellCounted(q)
      case Before(r, n) => r.WellCounted(q) && n.WellCounted(q)
      case After(r, n) => r.WellCounted(q) && n.WellCounted(q)
    }
  }

  lemma {:induction false} WellCountedNonEmpty(q: Queue, b: Built)
    requires q.Ok() && b.WellCounted(q)
    ensures b.NonEmpty()
  {
    match b
    case One(_) =>
    case Back(r, _) => WellCountedNonEmpty(q, r);
    case Front(_, r) => WellCountedNonEmpty(q, r);
    case Joined(r, n) => WellCountedNonEmpty(q, r); WellCountedNonEmpty(q, n);
    case Before(r, n) => WellCountedNonEmpty(q, r); WellCountedNonEmpty(q, n);
    case After(r, n) => WellCountedNonEmpty(q, r); WellCountedNonEmpty(q, n);
  }

  lemma {:induction false} BuiltIsCounted(q: Queue, b: Built)
    requires q.Ok() && b.WellCounted(q) && b.NonEmpty()
    ensures b.Nr(q) >= 1 && Counted(q, b.Bvs(), b.Nr(q), b.FrontSize(q), b.BackSize(q))
  {
    hide Counted;
    match b
    case One(o) => CountedPositive(q, o.bvs, o.phys, o.front, o.back);
    case Back(r, o) =>
      BuiltIsCounted(q, r);
      CountedConcat(q, r.Bvs(), r.Nr(q), r.FrontSize(q), r.BackSize(q), o.bvs, o.phys, o.front, o.back);
    case Front(o, r) =>
      BuiltIsCounted(q, r);
      CountedConcat(q, o.bvs, o.phys, o.front, o.back, r.Bvs(), r.Nr(q), r.FrontSize(q), r.BackSize(q));
    case Joined(r, n) =>
      BuiltIsCounted(q, r);
      BuiltIsCounted(q, n);
      JoinedIsCounted(q, r, n);
    case Before(r, n) =>
      BuiltIsCounted(q, r);
      if r.Nr(q) == 1 {
        OuterSizes(q, r.Bvs(), r.FrontSize(q), r.BackSize(q), n.FrontSize(q));
      }
    case After(r, n) =>
      BuiltIsCounted(q, n);
      if n.Nr(q) == 1 {
        OuterSizes(q, n.Bvs(), n.FrontSize(q), n.BackSize(q), r.BackSize(q));
      }
  }

  lemma JoinedIsCounted(q: Queue, r: Built, n: Built)
    requires q.Ok() && r.NonEmpty() && n.NonEmpty() && r.Nr(q) >= 1 && n.Nr(q) >= 1
    requires Counted(q, r.Bvs(), r.Nr(q), r.FrontSize(q), r.BackSize(q))
    requires Counted(q, n.Bvs(), n.Nr(q), n.FrontSize(q), n.BackSize(q))
    ensures var b := Joined(r, n);
            b.Nr(q) >= 1 && Counted(q, b.Bvs(), b.Nr(q), b.FrontSize(q), b.BackSize(q))
  {
    hide Counted;
    r.BvsNonEmpty();
    n.BvsNonEmpty();
    if Joined(r, n).Touch(q) {
      CountedJoin(q, r.Bvs(), r.Nr(q), r.FrontSize(q), r.BackSize(q), n.Bvs(), n.Nr(q), n.FrontSize(q), n.BackSize(q));
    } else {
      CountedConcat(q, r.Bvs(), r.Nr(q), r.FrontSize(q), r.BackSize(q), n.Bvs(), n.Nr(q), n.FrontSize(q), n.BackSize(q));
    }
  }

  /** A single segment is the first and the last one, so either size bounds it. */
  lemma OuterSizes(q: Queue, bvs: seq<Bvec>, front: nat, back: nat, more: nat)
    requires q.Ok() && Counted(q, bvs, 1, front, back)
    ensures Counted(q, bvs, 1, back + more, back) && Counted(q, bvs, 1, front, front + more)
  {
    var joins :| Groups(q, bvs, joins) && Opens(joins) == 1 && Head(bvs, joins) <= front && Tail(bvs, joins) <= back;
    OpensPositive(q, bvs, joins);
  }

  lemma CountedPositive(q: Queue, bvs: seq<Bvec>, nr: nat, front: nat, back: nat)
    requires q.Ok() && Counted(q, bvs, nr, front, back)
    ensures nr >= 1
  {
    var joins :| Groups(q, bvs, joins) && Opens(joins) == nr;
  }

  /** For a request built in any way, the scatterlist never has more entries than nr_phys_segments. */
  lemma CounterBoundsScatterlist(q: Queue, b: Built)
    requires q.Ok() && b.WellCounted(q)
    ensures b.NonEmpty() && SegmentCount(q, b.Bvs()) <= b.Nr(q)
  {
    WellCountedNonEmpty(q, b);
    BuiltIsCounted(q, b);
    CountedBounds(q, b.Bvs(), b.Nr(q), b.FrontSize(q), b.BackSize(q));
  }

  // ---- the request object ----

  /** bio_will_gap: only bios with data can leave a gap. */
  predicate WillGap(q: Queue, a: Bio, b: Bio) {
    a.bvs != [] && b.bvs != [] && Gap(q, a.bvs[|a.bvs| - 1], b.bvs[0])
  }

  /** The bios of a request hold data without gaps, and `nr` and their outer sizes bound its scatterlist. */
  ghost predicate Sound(q: Queue, bios: seq<Bio>, nr: nat)
    requires q.Ok()
  {
    && bios != []
    && (forall i :: 0 <= i < |bios| ==> bios[i].bvs != [])
    && Counted(q, Vectors(bios), nr, bios[0].front, bios[|bios| - 1].back)
    && GapFree(q, Vectors(bios))
  }

  lemma BackKeeps(q: Queue, bios: seq<Bio>, nr: nat, bio: Bio)
    requires q.Ok() && Sound(q, bios, nr) && BioCounted(q, bio) && GapFree(q, bio.bvs)
    requires !WillGap(q, bios[|bios| - 1], bio)
    ensures Sound(q, bios + [bio], nr + bio.phys)
  {
    assert bio.bvs != [];
    hide Counted, GapFree;
    SeamBack(q, bios);
    VectorsConcat(bios, [bio]);
    VectorsOne(bio);
    CountedConcat(q, Vectors(bios), nr, bios[0].front, bios[|bios| - 1].back, bio.bvs, bio.phys, bio.front, bio.back);
    GapFreeConcat(q, Vectors(bios), bio.bvs);
  }

  lemma FrontKeeps(q: Queue, bios: seq<Bio>, nr: nat, bio: Bio)
    requires q.Ok() && Sound(q, bios, nr) && BioCounted(q, bio) && GapFree(q, bio.bvs)
    requires !WillGap(q, bio, bios[0])
    ensures Sound(q, [bio] + bios, nr + bio.phys)
  {
    assert bio.bvs != [];
    hide Counted, GapFree;
    SeamFront(q, bios);
    VectorsConcat([bio], bios);
    VectorsOne(bio);
    CountedConcat(q, bio.bvs, bio.phys, bio.front, bio.back, Vectors(bios), nr, bios[0].front, bios[|bios| - 1].back);
    GapFreeConcat(q, bio.bvs, Vectors(bios));
  }

  class Request {
    var bios: seq<Bio>
    var nrSegs: nat
    var pos: nat
    var sectors: nat
    var noMerge: bool

    /** The counter bounds the scatterlist and the queue's limit bounds the counter; there is no gap. */
    ghost predicate Valid(q: Queue)
      reads this
    {
      q.Ok() && Sound(q, bios, nrSegs) && 1 <= nrSegs <= q.maxSegs
    }

    constructor (q: Queue, bio: Bio, pos: nat, sectors: nat)
      ensures bios == [bio] && nrSegs == bio.phys && this.pos == pos && this.sectors == sectors && !noMerge
      ensures q.Ok() && BioCounted(q, bio) && bio.phys <= q.maxSegs && GapFree(q, bio.bvs) ==> Valid(q)
    {
      bios, nrSegs, this.pos, this.sectors, noMerge := [bio], bio.phys, pos, sectors, false;
      new;
      VectorsOne(bio);
      if q.Ok() && BioCounted(q, bio) {
        CountedPositive(q, bio.bvs, bio.phys, bio.front, bio.back);
      }
    }

    /** bio_attempt_back_merge with ll_back_merge_fn; `limit` is blk_rq_get_max_sectors. */
    method BackMerge(q: Queue, bio: Bio, bioSectors: nat, limit: nat) returns (ok: bool)
      requires bios != []
      modifies this
      ensures ok <==> !WillGap(q, old(bios[|bios| - 1]), bio) && old(sectors) + bioSectors <= limit
                      && old(nrSegs) + bio.phys <= q.maxSegs
      ensures ok ==> bios == old(bios) + [bio] && nrSegs == old(nrSegs) + bio.phys
                     && sectors == old(sectors) + bioSectors && pos == old(pos) && noMerge == old(noMerge)
      ensures !ok ==> unchanged(`bios, `nrSegs, `pos, `sectors)
                      && (noMerge <==> old(noMerge) || !WillGap(q, old(bios[|bios| - 1]), bio))
      ensures old(Valid(q)) && BioCounted(q, bio) && GapFree(q, bio.bvs) ==> Valid(q)
    {
      if WillGap(q, bios[|bios| - 1], bio) {
        return false;
      }
      if sectors + bioSectors > limit || nrSegs + bio.phys > q.maxSegs {
        noMerge := true;
        return false;
      }
      if Valid(q) && BioCounted(q, bio) && GapFree(q, bio.bvs) {
        BackKeeps(q, bios, nrSegs, bio);
      }
      nrSegs := nrSegs + bio.phys;
      bios := bios + [bio];
      sectors := sectors + bioSectors;
      return true;
    }

    /** bio_attempt_front_merge with ll_front_merge_fn. */
    method FrontMerge(q: Queue, bio: Bio, bioPos: nat, bioSectors: nat, limit: nat) returns (ok: bool)
      requires bios != []
      modifies this
      ensures ok <==> !WillGap(q, bio, old(bios[0])) && old(sectors) + bioSectors <= limit
                      && old(nrSegs) + bio.phys <= q.maxSegs
      ensures ok ==> bios == [bio] + old(bios) && nrSegs == old(nrSegs) + bio.phys
                     && sectors == old(sectors) + bioSectors && pos == bioPos && noMerge == old(noMerge)
      ensures !ok ==> unchanged(`bios, `nrSegs, `pos, `sectors)
                      && (noMerge <==> old(noMerge) || !WillGap(q, bio, old(bios[0])))
      ensures old(Valid(q)) && BioCounted(q, bio) && GapFree(q, bio.bvs) ==> Valid(q)
    {
      if WillGap(q, bio, bios[0]) {
        return false;
      }
      if sectors + bioSectors > limit || nrSegs + bio.phys > q.maxSegs {
        noMerge := true;
        return false;
      }
      if Valid(q) && BioCounted(q, bio) && GapFree(q, bio.bvs) {
        FrontKeeps(q, bios, nrSegs, bio);
      }
      nrSegs := nrSegs + bio.phys;
      bios := [bio] + bios;
      pos := bioPos;
      sectors := sectors + bioSectors;
      return true;
    }

    /** blk_rq_map_sg: the warning about too many entries never fires, and the entries fit the queue. */
    method Map(q: Queue) returns (sgs: seq<Bvec>)
      requires Valid(q)
      ensures |sgs| <= nrSegs <= q.maxSegs
      ensures Bytes(sgs) == Bytes(Vectors(bios)) && LegalEntries(q, Vectors(bios), sgs)
    {
      sgs := MapSg(q, bios);
      CountedBounds(q, Vectors(bios), nrSegs, bios[0].front, bios[|bios| - 1].back);
    }
  }

  lemma VectorsOne(bio: Bio)
    ensures Vectors([bio]) == bio.bvs
  {
    assert [bio][1..] == [];
  }

  lemma SeamBack(q: Queue, bios: seq<Bio>)
    requires bios != [] && forall i :: 0 <= i < |bios| ==> bios[i].bvs != []
    ensures var v, t := Vectors(bios), bios[|bios| - 1].bvs;
            v != [] && v[|v| - 1] == t[|t| - 1]
  {
    var n := |bios| - 1;
    assert bios == bios[..n] + [bios[n]];
    VectorsConcat(bios[..n], [bios[n]]);
    VectorsOne(bios[n]);
  }

  lemma {:induction false} SeamFront(q: Queue, bios: seq<Bio>)
    requires bios != [] && bios[0].bvs != []
    ensures Vectors(bios) != [] && Vectors(bios)[0] == bios[0].bvs[0]
  {
    assert Vectors(bios) == bios[0].bvs + Vectors(bios[1..]);
  }
}
