// The table of chunk sizes, and the class an item of a given size is stored in.
module SlabSizes {
  import opened Geometry

  const POWER_SMALLEST: nat := 1
  const MAX_NUMBER_OF_SLAB_CLASSES: nat := 64
  const CHUNK_ALIGN_BYTES: nat := 8

  function Aligned(size: nat): (r: nat)
    ensures size <= r < size + CHUNK_ALIGN_BYTES && r % CHUNK_ALIGN_BYTES == 0
  {
    if size % CHUNK_ALIGN_BYTES == 0 then size else size + (CHUNK_ALIGN_BYTES - size % CHUNK_ALIGN_BYTES)
  }

  // Alignment never passes a multiple of eight.
  lemma AlignedWithin(size: nat, max: nat)
    requires size <= max && max % CHUNK_ALIGN_BYTES == 0
    ensures Aligned(size) <= max
  {
  }

  lemma Grows(size: nat, factor: real)
    requires factor > 1.0
    ensures (size as real * factor).Floor >= size
  {
    assert size as real * factor >= size as real * 1.0;
  }

  lemma AtMost(size: nat, max: nat, factor: real)
    requires factor > 1.0 && size as real <= max as real / factor
    ensures size <= max
  {
    var q := max as real / factor;
    assert q * factor == max as real;
    Product(q, factor);
  }

  lemma Product(x: real, factor: real)
    requires factor > 1.0 && x >= 0.0
    ensures x * factor >= x
  {
  }

  lemma PageHolds(max: nat, size: nat)
    requires 0 < size <= max
    ensures 1 <= max / size && (max / size) * size <= max < (max / size) * size + size
  {
    assert max == (max / size) * size + max % size;
    assert max / size != 0;
  }

  predicate Goes(size: nat, max: nat, factor: real)
    requires factor > 1.0
  {
    size as real <= max as real / factor
  }

  // size *= factor, truncated
  function Scaled(size: nat, factor: real): (r: nat)
    requires factor > 1.0
    ensures r >= size
  {
    Grows(size, factor);
    (size as real * factor).Floor
  }

  // One turn of the loop of slabs_init.
  lemma NextClass(next: nat, max: nat, factor: real)
    requires 0 < next && max % CHUNK_ALIGN_BYTES == 0 && factor > 1.0 && Goes(next, max, factor)
    ensures var size := Aligned(next); size > 0 && ClassOk(size, max / size, max)
  {
    AtMost(next, max, factor);
    AlignedWithin(next, max);
    PageHolds(max, Aligned(next));
  }

  // Sizes below class n never shrink, and each is as it should be.
  ghost predicate ClassesOk(size: seq<nat>, perslab: seq<nat>, n: nat, max: nat) {
    && n <= |size| == |perslab|
    && (forall j :: POWER_SMALLEST <= j < n ==> ClassOk(size[j], perslab[j], max))
    && forall j, k :: POWER_SMALLEST <= j <= k < n ==> size[j] <= size[k]
  }

  lemma NoClasses(size: seq<nat>, perslab: seq<nat>, max: nat)
    requires POWER_SMALLEST <= |size| == |perslab|
    ensures ClassesOk(size, perslab, POWER_SMALLEST, max)
  {
  }

  lemma OneClass(size: seq<nat>, perslab: seq<nat>, i: nat, max: nat, n: nat, m: nat)
    requires POWER_SMALLEST <= i < |size| && ClassesOk(size, perslab, i, max)
    requires ClassOk(n, m, max) && (i > POWER_SMALLEST ==> size[i - 1] <= n)
    ensures ClassesOk(size[i := n], perslab[i := m], i + 1, max)
  {
    hide ClassOk;
  }

  lemma LastClass(size: seq<nat>, perslab: seq<nat>, i: nat, max: nat)
    requires POWER_SMALLEST <= i < |size| && ClassesOk(size, perslab, i, max) && 0 < max && max % CHUNK_ALIGN_BYTES == 0
    ensures ClassesOk(size[i := max], perslab[i := 1], i + 1, max)
  {
    hide ClassesOk;
    WholePage(max);
    if i > POWER_SMALLEST { ClassAtMost(size, perslab, i, max); }
    OneClass(size, perslab, i, max, max, 1);
  }

  lemma ClassAtMost(size: seq<nat>, perslab: seq<nat>, i: nat, max: nat)
    requires POWER_SMALLEST < i <= |size| && ClassesOk(size, perslab, i, max)
    ensures size[i - 1] <= max
  {
  }

  lemma WholePage(max: nat)
    requires 0 < max && max % CHUNK_ALIGN_BYTES == 0
    ensures ClassOk(max, 1, max)
  {
  }

  class SlabTable {
    var size: array<nat>
    var perslab: array<nat>
    var largest: nat

    // What slabs_init leaves behind for pages of max bytes: aligned sizes that never shrink, the last of them the
    // whole page, and for each as many chunks as a page holds.
    ghost predicate Valid(max: nat)
      reads this, size, perslab
    {
      && size != perslab && size.Length == perslab.Length == MAX_NUMBER_OF_SLAB_CLASSES
      && POWER_SMALLEST <= largest < MAX_NUMBER_OF_SLAB_CLASSES
      && size[largest] == max && perslab[largest] == 1
      && ClassesOk(size[..], perslab[..], largest + 1, max)
    }

    constructor ()
      ensures size.Length == perslab.Length == MAX_NUMBER_OF_SLAB_CLASSES && size != perslab
      ensures fresh(size) && fresh(perslab)
    {
      size, perslab := new nat[MAX_NUMBER_OF_SLAB_CLASSES], new nat[MAX_NUMBER_OF_SLAB_CLASSES];
      largest := 0;
    }

    // slabs_init: smallest is sizeof(item) + settings.chunk_size, max is settings.item_size_max
    method SlabsInit(smallest: nat, max: nat, factor: real)
      requires size.Length == perslab.Length == MAX_NUMBER_OF_SLAB_CLASSES && size != perslab
      requires 0 < smallest && 0 < max && max % CHUNK_ALIGN_BYTES == 0 && factor > 1.0
      modifies this`largest, size, perslab
      ensures Valid(max)
      ensures Goes(smallest, max, factor) ==> size[POWER_SMALLEST] == Aligned(smallest)
    {
      hide ClassesOk, Aligned, ClassOk, Goes, Scaled;
      var i: nat := POWER_SMALLEST;
      var next: nat := smallest;
      NoClasses(size[..], perslab[..], max);
      while i < MAX_NUMBER_OF_SLAB_CLASSES - 1 && Goes(next, max, factor)
        invariant POWER_SMALLEST <= i < MAX_NUMBER_OF_SLAB_CLASSES && 0 < next
        invariant if i == POWER_SMALLEST then next == smallest
            else size[POWER_SMALLEST] == Aligned(smallest) && size[i - 1] <= next
        invariant ClassesOk(size[..], perslab[..], i, max)
      {
        NextClass(next, max, factor);
        OneClass(size[..], perslab[..], i, max, Aligned(next), max / Aligned(next));
        SetClass(i, Aligned(next), max / Aligned(next));
        next := Scaled(size[i], factor);
        i := i + 1;
      }
      largest := i;
      LastClass(size[..], perslab[..], i, max);
      SetClass(i, max, 1);
    }

    method SetClass(i: nat, n: nat, m: nat)
      requires i < size.Length == perslab.Length && size != perslab
      modifies size, perslab
      ensures size[..] == old(size[..])[i := n] && perslab[..] == old(perslab[..])[i := m]
    {
      size[i] := n;
      perslab[i] := m;
    }

    // slabs_clsid: the smallest class whose chunks are large enough, and 0 exactly for sizes no class takes.
    method SlabsClsid(n: nat, max: nat) returns (res: nat)
      requires Valid(max)
      ensures res == 0 <==> n == 0 || n > max
      ensures res != 0 ==> POWER_SMALLEST <= res <= largest && size[res] >= n
      ensures res != 0 ==> forall j :: POWER_SMALLEST <= j <= largest && size[j] >= n ==> res <= j
    {
      res := POWER_SMALLEST;
      if n == 0 { return 0; }
      while n > size[res]
        invariant POWER_SMALLEST <= res <= largest
        invariant forall j :: POWER_SMALLEST <= j < res ==> size[j] < n
        decreases largest - res
      {
        if res == largest { return 0; }
        res := res + 1;
      }
    }
  }

  // A class of chunks for pages of max bytes; the rest of a page is less than a chunk.
  ghost predicate ClassOk(size: nat, perslab: nat, max: nat) {
    0 < size <= max && size % CHUNK_ALIGN_BYTES == 0 && 1 <= perslab && perslab * size <= max < perslab * size + size
  }

  // In a page cut by such a class every chunk is inside the page, and its chunks do not overlap.
  lemma ChunksFit(size: nat, perslab: nat, max: nat, base: nat, j: nat, k: nat)
    requires ClassOk(size, perslab, max) && j < k < perslab
    ensures Address(base, size, j) + size <= Address(base, size, k) && Address(base, size, k) + size <= base + max
  {
    InsidePage(size, perslab, max, k);
    Steps(size, j, k);
  }
}
