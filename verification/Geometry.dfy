// Chunk pointers as addresses: why a page and a chunk number name a pointer, and the range test of the mover.
module Geometry {

  // ptr after k times ptr += p->size
  function Address(base: nat, size: nat, k: nat): nat { base + k * size }

  // Blocks that malloc has handed out do not overlap.
  predicate Disjoint(a: nat, b: nat, bytes: nat) { a + bytes <= b || b + bytes <= a }

  lemma {:induction false} Steps(size: nat, j: nat, k: nat)
    requires j < k
    ensures j * size + size <= k * size
  {
    var i: nat := k - 1;
    assert (i + 1) * size == i * size + size;
    if j < i { Steps(size, j, i); }
  }

  // A chunk lies inside its page.
  lemma InsidePage(size: nat, perslab: nat, bytes: nat, k: nat)
    requires perslab * size <= bytes && k < perslab
    ensures k * size + size <= bytes
  {
    Steps(size, k, perslab);
  }

  // Chunks of different pages do not overlap.
  lemma PagesApart(a: nat, b: nat, bytes: nat, size1: nat, perslab1: nat, j: nat, size2: nat, perslab2: nat, k: nat)
    requires Disjoint(a, b, bytes)
    requires perslab1 * size1 <= bytes && perslab2 * size2 <= bytes && j < perslab1 && k < perslab2
    ensures Address(a, size1, j) + size1 <= Address(b, size2, k) || Address(b, size2, k) + size2 <= Address(a, size1, j)
  {
    InsidePage(size1, perslab1, bytes, j);
    InsidePage(size2, perslab2, bytes, k);
    Across(a, b, bytes, j * size1, size1, k * size2, size2);
  }

  lemma Across(a: nat, b: nat, bytes: nat, m: nat, x: nat, n: nat, y: nat)
    requires Disjoint(a, b, bytes) && m + x <= bytes && n + y <= bytes
    ensures a + m + x <= b + n || b + n + y <= a + m
  {
  }

  // new_it >= slab_start && new_it < slab_end holds exactly for the chunks of the page being moved.
  lemma RangeTestIsPageTest(start: nat, page: nat, bytes: nat, size: nat, perslab: nat, k: nat)
    requires page != start ==> Disjoint(start, page, bytes)
    requires 0 < size && perslab * size <= bytes && k < perslab
    ensures start <= Address(page, size, k) < Address(start, size, perslab) <==> page == start
  {
    InsidePage(size, perslab, bytes, k);
    Steps(size, k, perslab);
  }

  // slab_pos += size; slab_pos >= slab_end is the test that the last chunk has been passed.
  lemma EndTestIsLastChunk(start: nat, size: nat, perslab: nat, k: nat)
    requires 0 < size && k < perslab
    ensures Address(start, size, k) + size == Address(start, size, k + 1)
    ensures Address(start, size, k + 1) >= Address(start, size, perslab) <==> k + 1 == perslab
  {
    if k + 1 < perslab { Steps(size, k + 1, perslab); }
  }
}
