/** The first-fit pool (kernel/pool.c): a table of blocks that is split, shifted and coalesced in place. The live
    entries end at the first entry of size 0. */
module Pool {
  const WORD32: nat := 0x1_0000_0000
  const PAGE: nat := 4096

  datatype Flag = FREE | ALLOC

  datatype Block = Block(base: nat, size: nat, flag: Flag)

  const Zero := Block(0, 0, FREE)

  /** (x + ~MEM_ALIGN) & MEM_ALIGN on 32-bit words. */
  function RoundUp(x: nat): (r: nat)
    requires x < WORD32
    ensures r % PAGE == 0
  {
    (x + (PAGE - 1)) % WORD32 / PAGE * PAGE
  }

  /** A request is rounded to the next page, except that 0 and requests in the last page of the address space become 0.
      */
  lemma RoundUpExact(x: nat)
    requires x < WORD32
    ensures 1 <= x <= WORD32 - PAGE ==> x <= RoundUp(x) < x + PAGE
    ensures RoundUp(x) == 0 <==> x == 0 || x > WORD32 - PAGE
  {}

  // ----- Operations on the live entries -----

  predicate Fits(b: Block, need: nat) { b.flag == FREE && b.size >= need }

  function FirstFit(l: seq<Block>, need: nat): (i: nat)
    ensures i <= |l| && (forall k :: 0 <= k < i ==> !Fits(l[k], need)) && (i < |l| ==> Fits(l[i], need))
  {
    if l == [] || Fits(l[0], need) then 0 else 1 + FirstFit(l[1..], need)
  }

  function AllocAt(l: seq<Block>, i: nat, need: nat): seq<Block>
    requires i < |l| && Fits(l[i], need)
  {
    if l[i].size > need then
      l[..i] + [Block(l[i].base, need, ALLOC), Block(l[i].base + need, l[i].size - need, FREE)] + l[i + 1..]
    else
      l[i := l[i].(flag := ALLOC)]
  }

  lemma AllocAtIndex(l: seq<Block>, i: nat, need: nat)
    requires i < |l| && Fits(l[i], need) && l[i].size > need
    ensures var r := AllocAt(l, i, need);
            && |r| == |l| + 1 && r[i] == Block(l[i].base, need, ALLOC)
            && r[i + 1] == Block(l[i].base + need, l[i].size - need, FREE)
            && (forall k :: 0 <= k < i ==> r[k] == l[k])
            && (forall k :: i + 2 <= k < |r| ==> r[k] == l[k - 1])
  {}

  function Alloc(l: seq<Block>, need: nat): seq<Block> {
    var i := FirstFit(l, need);
    if i < |l| then AllocAt(l, i, need) else l
  }

  function Find(l: seq<Block>, base: nat): (i: nat)
    ensures i <= |l| && (forall k :: 0 <= k < i ==> l[k].base != base) && (i < |l| ==> l[i].base == base)
  {
    if l == [] || l[0].base == base then 0 else 1 + Find(l[1..], base)
  }

  /** pool_rem at entry k; at the end of the live entries it does nothing. */
  function Removed(l: seq<Block>, k: nat): seq<Block> {
    if k < |l| then l[..k] + l[k + 1..] else l
  }

  lemma RemovedIndex(l: seq<Block>, k: nat)
    requires k <= |l|
    ensures var r := Removed(l, k);
            && |r| == (if k < |l| then |l| - 1 else |l|)
            && (forall j :: 0 <= j < k ==> r[j] == l[j])
            && (forall j :: k <= j < |r| ==> r[j] == l[j + 1])
  {}

  /** Merge entry i with a free successor. */
  function MergeNext(l: seq<Block>, i: nat): seq<Block>
    requires i < |l|
  {
    if i + 1 < |l| && l[i + 1].flag == FREE then Removed(l[i := l[i].(size := l[i].size + l[i + 1].size)], i + 1) else l
  }

  /** The predecessor of the freed entry i is free. */
  predicate FreeBefore(l: seq<Block>, i: nat) { 0 < i < |l| && l[i - 1].flag == FREE }

  /** pool_free of entry i, when entry k is removed after a merge with a free predecessor. */
  function FreeAt(l: seq<Block>, i: nat, k: nat): seq<Block>
    requires i < |l| && k < |l|
  {
    var m := l[i := l[i].(flag := FREE)];
    if FreeBefore(l, i) then
      MergeNext(Removed(m[i - 1 := m[i - 1].(size := m[i - 1].size + m[i].size)], k), i - 1)
    else MergeNext(m, i)
  }

  /** pool_free as written removes entry 1 after such a merge; corrected, it removes entry i. */
  function Free(l: seq<Block>, base: nat, corrected: bool): seq<Block> {
    var i := Find(l, base);
    if i < |l| then FreeAt(l, i, if corrected || !FreeBefore(l, i) then i else 1) else l
  }

  // ----- Invariants -----

  /** Non-empty whole pages. */
  predicate Whole(size: nat) { size > 0 && size % PAGE == 0 }

  lemma WholeSum(a: nat, b: nat)
    requires Whole(a)
    ensures Whole(b) ==> Whole(a + b)
    ensures b > 0 && Whole(a + b) ==> Whole(b)
  {}

  /** The entries partition [lo, hi) into non-empty whole pages. */
  ghost predicate Tiles(l: seq<Block>, lo: nat, hi: nat) {
    && (if l == [] then lo == hi else l[0].base == lo && l[|l| - 1].base + l[|l| - 1].size == hi)
    && (forall i :: 0 <= i < |l| ==> Whole(l[i].size))
    && (forall i :: 0 <= i < |l| - 1 ==> l[i + 1].base == l[i].base + l[i].size)
  }

  /** No two neighbours are both free. */
  ghost predicate Coalesced(l: seq<Block>) {
    forall i :: 0 <= i < |l| - 1 ==> !(l[i].flag == FREE && l[i + 1].flag == FREE)
  }

  function TotalSize(l: seq<Block>): nat {
    if l == [] then 0 else l[0].size + TotalSize(l[1..])
  }

  ghost function Allocated(l: seq<Block>): set<Block> {
    set b | b in l && b.flag == ALLOC
  }

  lemma {:induction false} TilesInOrder(l: seq<Block>, lo: nat, hi: nat, i: nat, j: nat)
    requires Tiles(l, lo, hi) && i < j < |l|
    ensures lo <= l[i].base && l[i].base + l[i].size <= l[j].base && l[j].base + l[j].size <= hi
    decreases j
  {
    if i + 1 < j {
      TilesInOrder(l, lo, hi, i, j - 1);
    }
    TilesBounds(l, lo, hi, i);
    TilesBounds(l, lo, hi, j);
  }

  lemma {:induction false} TilesBounds(l: seq<Block>, lo: nat, hi: nat, i: nat)
    requires Tiles(l, lo, hi) && i < |l|
    ensures lo <= l[i].base && l[i].base + l[i].size <= hi
  {
    TilesAbove(l, lo, hi, i);
    TilesBelow(l, lo, hi, i);
  }

  lemma {:induction false} TilesAbove(l: seq<Block>, lo: nat, hi: nat, i: nat)
    requires Tiles(l, lo, hi) && i < |l|
    ensures lo <= l[i].base
  {
    if i > 0 { TilesAbove(l, lo, hi, i - 1); }
  }

  lemma {:induction false} TilesBelow(l: seq<Block>, lo: nat, hi: nat, i: nat)
    requires Tiles(l, lo, hi) && i < |l|
    ensures l[i].base + l[i].size <= hi
    decreases |l| - i
  {
    if i + 1 < |l| { TilesBelow(l, lo, hi, i + 1); }
  }

  /** Different entries do not overlap, and their sizes add up to the whole range. */
  lemma TilesDisjoint(l: seq<Block>, lo: nat, hi: nat)
    requires Tiles(l, lo, hi)
    ensures forall i, j :: 0 <= i < j < |l| ==> l[i].base + l[i].size <= l[j].base
    ensures TotalSize(l) == hi - lo
  {
    forall i, j | 0 <= i < j < |l| ensures l[i].base + l[i].size <= l[j].base {
      TilesInOrder(l, lo, hi, i, j);
    }
    TilesTotal(l, lo, hi);
  }

  lemma {:induction false} TilesTotal(l: seq<Block>, lo: nat, hi: nat)
    requires Tiles(l, lo, hi)
    ensures hi >= lo && TotalSize(l) == hi - lo
  {
    if l != [] {
      assert Tiles(l[1..], lo + l[0].size, hi);
      TilesTotal(l[1..], lo + l[0].size, hi);
    }
  }

  /** Entries are found by their base. */
  lemma FindEntry(l: seq<Block>, lo: nat, hi: nat, i: nat)
    requires Tiles(l, lo, hi) && i < |l|
    ensures Find(l, l[i].base) == i
  {
    TilesDisjoint(l, lo, hi);
  }

  /** Entry i becomes x and y, or entries i and i + 1 become x. */
  function Split(l: seq<Block>, i: nat, x: Block, y: Block): seq<Block>
    requires i < |l|
  {
    l[..i] + [x, y] + l[i + 1..]
  }

  function Join(l: seq<Block>, i: nat, x: Block): seq<Block>
    requires i + 1 < |l|
  {
    l[..i] + [x] + l[i + 2..]
  }

  lemma SplitIndex(l: seq<Block>, i: nat, x: Block, y: Block)
    requires i < |l|
    ensures var m := Split(l, i, x, y);
            && |m| == |l| + 1
            && m[i] == x && m[i + 1] == y
            && (forall k :: 0 <= k < i ==> m[k] == l[k])
            && (forall k :: i + 2 <= k < |m| ==> m[k] == l[k - 1])
  {}

  lemma SplitKeeps(l: seq<Block>, lo: nat, hi: nat, i: nat, x: Block, y: Block)
    requires Tiles(l, lo, hi) && i < |l| && x.base == l[i].base && y.base == x.base + x.size
      && x.size + y.size == l[i].size
    requires Whole(x.size) && Whole(y.size)
    ensures Tiles(Split(l, i, x, y), lo, hi)
  {
    hide Whole, Split;
    var m := Split(l, i, x, y);
    SplitIndex(l, i, x, y);
    forall k | 0 <= k < |m| - 1 ensures m[k + 1].base == m[k].base + m[k].size {
      if k + 1 < i {
        assert l[k + 1].base == l[k].base + l[k].size;
      } else if k + 1 == i {
        assert l[i].base == l[k].base + l[k].size;
      } else if k > i {
        assert l[k].base == l[k - 1].base + l[k - 1].size;
      }
    }
  }

  lemma JoinKeeps(l: seq<Block>, lo: nat, hi: nat, i: nat, x: Block)
    requires Tiles(l, lo, hi) && i + 1 < |l| && x.base == l[i].base && x.size == l[i].size + l[i + 1].size
    ensures Tiles(Join(l, i, x), lo, hi)
  {
    hide Whole;
    WholeSum(l[i].size, l[i + 1].size);
    var m := Join(l, i, x);
    forall k | 0 <= k < |m| ensures m[k] == if k < i then l[k] else if k == i then x else l[k + 1] {}
    forall k | 0 <= k < |m| - 1 ensures m[k + 1].base == m[k].base + m[k].size {
      if k + 1 < i {
        assert l[k + 1].base == l[k].base + l[k].size;
      } else if k + 1 == i {
        assert l[i].base == l[k].base + l[k].size;
      } else {
        assert l[k + 2].base == l[k + 1].base + l[k + 1].size;
      }
    }
  }

  lemma RemovedIsJoin(l: seq<Block>, i: nat, x: Block)
    requires i + 1 < |l|
    ensures Removed(l[i := x], i + 1) == Join(l, i, x)
  {}

  lemma RecolourKeeps(l: seq<Block>, lo: nat, hi: nat, i: nat, f: Flag)
    requires Tiles(l, lo, hi) && i < |l|
    ensures Tiles(l[i := l[i].(flag := f)], lo, hi)
  {
    hide Whole;
  }

  // ----- Allocation -----

  lemma AllocKeeps(l: seq<Block>, lo: nat, hi: nat, need: nat)
    requires Tiles(l, lo, hi) && Coalesced(l) && Whole(need)
    ensures Tiles(Alloc(l, need), lo, hi) && Coalesced(Alloc(l, need))
  {
    hide Tiles, Coalesced, Whole;
    var i := FirstFit(l, need);
    if i < |l| {
      var x, y := Block(l[i].base, need, ALLOC), Block(l[i].base + need, l[i].size - need, FREE);
      SizesAreWhole(l, lo, hi, i);
      if l[i].size > need {
        WholeSum(need, l[i].size - need);
        SplitKeeps(l, lo, hi, i, x, y);
        SplitCoalesced(l, i, x, y);
      } else {
        RecolourKeeps(l, lo, hi, i, ALLOC);
        AllocCoalesced(l, i);
      }
    }
  }

  lemma SizesAreWhole(l: seq<Block>, lo: nat, hi: nat, i: nat)
    requires Tiles(l, lo, hi) && i < |l|
    ensures Whole(l[i].size)
  {}

  lemma SplitCoalesced(l: seq<Block>, i: nat, x: Block, y: Block)
    requires Coalesced(l) && i < |l| && l[i].flag == FREE && x.flag == ALLOC
    ensures Coalesced(Split(l, i, x, y))
  {
    var m := Split(l, i, x, y);
    forall k | 0 <= k < |m|
      ensures m[k] == if k < i then l[k] else if k == i then x else if k == i + 1 then y else l[k - 1]
    {}
    forall k | 0 <= k < |m| - 1 ensures !(m[k].flag == FREE && m[k + 1].flag == FREE) {
      if k + 1 < i {
        assert !(l[k].flag == FREE && l[k + 1].flag == FREE);
      } else if k > i {
        assert !(l[k - 1].flag == FREE && l[k].flag == FREE);
      }
    }
  }

  lemma AllocCoalesced(l: seq<Block>, i: nat)
    requires Coalesced(l) && i < |l|
    ensures Coalesced(l[i := l[i].(flag := ALLOC)])
  {}

  /** A successful allocation adds exactly one allocated block, of the rounded size; all other allocated blocks stay. */
  lemma AllocAdds(l: seq<Block>, lo: nat, hi: nat, need: nat)
    requires Tiles(l, lo, hi) && Whole(need) && FirstFit(l, need) < |l|
    ensures var b := Block(l[FirstFit(l, need)].base, need, ALLOC);
            b !in Allocated(l) && Allocated(Alloc(l, need)) == Allocated(l) + {b}
  {
    hide Tiles, Whole;
    var i := FirstFit(l, need);
    var p, q := l[..i], l[i + 1..];
    assert l == p + [l[i]] + q;
    if l[i].size == need {
      assert Alloc(l, need) == p + [l[i].(flag := ALLOC)] + q;
    }
    NotThere(l, lo, hi, i, Block(l[i].base, need, ALLOC));
  }

  lemma NotThere(l: seq<Block>, lo: nat, hi: nat, i: nat, b: Block)
    requires Tiles(l, lo, hi) && i < |l| && b.base == l[i].base && b != l[i]
    ensures b !in l
  {
    hide Whole;
    if b in l {
      var k :| 0 <= k < |l| && l[k] == b;
      FindEntry(l, lo, hi, i);
      FindEntry(l, lo, hi, k);
    }
  }

  /** Allocation fails exactly when no free block is large enough. */
  lemma AllocFailsIff(l: seq<Block>, need: nat)
    ensures FirstFit(l, need) == |l| <==> forall b :: b in l && b.flag == FREE ==> b.size < need
  {
    if FirstFit(l, need) < |l| {
      assert l[FirstFit(l, need)] in l;
    }
  }

  /** Block b is free, large enough for need, and lies below every other such block. */
  ghost predicate LowestFit(l: seq<Block>, need: nat, b: Block) {
    && b in l && b.flag == FREE && b.size >= need
    && forall c :: c in l && c.flag == FREE && c.size >= need ==> b.base <= c.base
  }

  /** The block handed out begins where the lowest free block that is large enough began. */
  lemma AllocLowest(l: seq<Block>, lo: nat, hi: nat, need: nat)
    requires Tiles(l, lo, hi) && Whole(need) && exists b :: b in l && b.flag == FREE && b.size >= need
    ensures exists b ::
              LowestFit(l, need, b) && Allocated(Alloc(l, need)) == Allocated(l) + {Block(b.base, need, ALLOC)}
  {
    hide Tiles, Whole, Alloc;
    AllocFailsIff(l, need);
    var i := FirstFit(l, need);
    AllocAdds(l, lo, hi, need);
    forall c | c in l && c.flag == FREE && c.size >= need ensures l[i].base <= c.base {
      var j :| 0 <= j < |l| && l[j] == c;
      if i < j { TilesInOrder(l, lo, hi, i, j); }
    }
    assert LowestFit(l, need, l[i]);
  }

  /** The entries before the first one of size 0. */
  function Live(t: seq<Block>): seq<Block> {
    if t == [] || t[0].size == 0 then [] else [t[0]] + Live(t[1..])
  }

  lemma {:induction false} LivePrefix(p: seq<Block>, z: Block, rest: seq<Block>)
    requires z.size == 0 && forall i :: 0 <= i < |p| ==> p[i].size > 0
    ensures Live(p + [z] + rest) == p
  {
    var t := p + [z] + rest;
    if p != [] {
      LivePrefix(p[1..], z, rest);
      assert t[1..] == p[1..] + [z] + rest;
    }
  }

  /** A request that is rounded to 0 cuts the table off at the first free block; so the live entries still partition the
      range afterwards exactly when the rounded request is positive or nothing is free. */
  lemma AllocKeepsIff(l: seq<Block>, lo: nat, hi: nat, need: nat)
    requires Tiles(l, lo, hi) && Coalesced(l) && need % PAGE == 0
    ensures Tiles(Live(Alloc(l, need) + [Zero]), lo, hi) <==> need > 0 || forall b :: b in l ==> b.flag == ALLOC
  {
    hide Tiles, Coalesced, Alloc, FirstFit, Live;
    if need > 0 {
      AllocKeeps(l, lo, hi, need);
      AllLive(Alloc(l, need), lo, hi);
    } else {
      NoneFits(l);
      if FirstFit(l, 0) == |l| {
        AllocNone(l, 0);
        AllLive(l, lo, hi);
      } else {
        ZeroCutsOff(l, lo, hi);
      }
    }
  }

  lemma AllocNone(l: seq<Block>, need: nat)
    ensures FirstFit(l, need) == |l| ==> Alloc(l, need) == l
  {}

  lemma AllLive(l: seq<Block>, lo: nat, hi: nat)
    requires Tiles(l, lo, hi)
    ensures Live(l + [Zero]) == l
  {
    LivePrefix(l, Zero, []);
    assert l + [Zero] + [] == l + [Zero];
  }

  /** Nothing fits a request for 0 bytes exactly when nothing is free. */
  lemma NoneFits(l: seq<Block>)
    ensures FirstFit(l, 0) == |l| <==> forall b :: b in l ==> b.flag == ALLOC
  {
    var i := FirstFit(l, 0);
    if i == |l| {
      forall b | b in l ensures b.flag == ALLOC {
        var k :| 0 <= k < |l| && l[k] == b;
        assert !Fits(l[k], 0);
      }
    } else {
      assert l[i] in l;
    }
  }

  lemma ZeroCutsOff(l: seq<Block>, lo: nat, hi: nat)
    requires Tiles(l, lo, hi) && FirstFit(l, 0) < |l|
    ensures !Tiles(Live(Alloc(l, 0) + [Zero]), lo, hi)
  {
    hide Tiles, Alloc, FirstFit, Live;
    var i, m := FirstFit(l, 0), Alloc(l, 0);
    forall k | 0 <= k < |l| ensures l[k].size > 0 { SizesAreWhole(l, lo, hi, k); }
    ZeroAt(l, i);
    var z := Block(l[i].base, 0, ALLOC);
    LivePrefix(l[..i], z, m[i + 1..] + [Zero]);
    assert m + [Zero] == l[..i] + [z] + (m[i + 1..] + [Zero]);
    PrefixIsShort(l, lo, hi, i);
  }

  lemma ZeroAt(l: seq<Block>, i: nat)
    requires i == FirstFit(l, 0) < |l| && l[i].size > 0
    ensures var m := Alloc(l, 0);
            i < |m| && m[..i] == l[..i] && m[i] == Block(l[i].base, 0, ALLOC) && m == l[..i] + [m[i]] + m[i + 1..]
  {
    hide AllocAt;
    AllocAtIndex(l, i, 0);
    var m := Alloc(l, 0);
    assert m[..i] == l[..i];
    assert m == m[..i] + [m[i]] + m[i + 1..];
  }

  /** Without its tail a partition does not reach the end of the range. */
  lemma PrefixIsShort(l: seq<Block>, lo: nat, hi: nat, i: nat)
    requires Tiles(l, lo, hi) && i < |l|
    ensures !Tiles(l[..i], lo, hi)
  {
    TilesBounds(l, lo, hi, i);
    if i > 0 { TilesInOrder(l, lo, hi, i - 1, i); }
  }

  // ----- Release -----

  /** No two neighbours are both free, except perhaps entry i and its successor. */
  ghost predicate CoalescedBut(l: seq<Block>, i: nat) {
    forall k :: 0 <= k < |l| - 1 && k != i ==> !(l[k].flag == FREE && l[k + 1].flag == FREE)
  }

  lemma JoinCoalesced(l: seq<Block>, i: nat, x: Block)
    requires CoalescedBut(l, i) && i + 1 < |l| && l[i].flag == x.flag == FREE && l[i + 1].flag == FREE
    ensures Coalesced(Join(l, i, x))
  {
    var m := Join(l, i, x);
    forall k | 0 <= k < |m| ensures m[k] == if k < i then l[k] else if k == i then x else l[k + 1] {}
    forall k | 0 <= k < |m| - 1 ensures !(m[k].flag == FREE && m[k + 1].flag == FREE) {
      if k < i {
        assert !(l[k].flag == FREE && l[k + 1].flag == FREE);
      } else {
        assert !(l[k + 1].flag == FREE && l[k + 2].flag == FREE);
      }
    }
  }

  lemma MergeNextKeeps(l: seq<Block>, lo: nat, hi: nat, i: nat)
    requires Tiles(l, lo, hi) && i < |l| && CoalescedBut(l, i) && l[i].flag == FREE
    ensures Tiles(MergeNext(l, i), lo, hi) && Coalesced(MergeNext(l, i))
  {
    hide Tiles, CoalescedBut;
    if i + 1 < |l| && l[i + 1].flag == FREE {
      var x := l[i].(size := l[i].size + l[i + 1].size);
      RemovedIsJoin(l, i, x);
      JoinKeeps(l, lo, hi, i, x);
      JoinCoalesced(l, i, x);
    } else {
      NotBut(l, i);
    }
  }

  lemma NotBut(l: seq<Block>, i: nat)
    requires CoalescedBut(l, i) && i < |l| && (i + 1 < |l| ==> l[i + 1].flag == ALLOC)
    ensures Coalesced(l)
  {}

  /** Joining entry i - 1 with entry i keeps everything but the pair that follows. */
  lemma JoinPrevious(l: seq<Block>, i: nat, x: Block)
    requires Coalesced(l) && FreeBefore(l, i) && x.flag == FREE
    ensures CoalescedBut(Join(l, i - 1, x), i - 1)
  {
    var m := Join(l, i - 1, x);
    forall k | 0 <= k < |m| ensures m[k] == if k < i - 1 then l[k] else if k == i - 1 then x else l[k + 1] {}
    forall k | 0 <= k < |m| - 1 && k != i - 1 ensures !(m[k].flag == FREE && m[k + 1].flag == FREE) {
      if k < i - 1 {
        assert l[k + 1].flag == FREE ==> l[k].flag == ALLOC;
      } else {
        assert l[k + 2].flag == FREE ==> l[k + 1].flag == ALLOC;
      }
    }
  }

  /** The two merges of a release, as joins. */
  lemma FreeAtIsJoins(l: seq<Block>, i: nat)
    requires i < |l|
    ensures FreeAt(l, i, i)
         == if FreeBefore(l, i) then
              MergeNext(Join(l, i - 1, l[i - 1].(size := l[i - 1].size + l[i].size)), i - 1)
            else MergeNext(l[i := l[i].(flag := FREE)], i)
  {
    hide MergeNext, Join, Removed;
    if FreeBefore(l, i) {
      JoinIsRemoved(l, i, l[i].(flag := FREE), l[i - 1].(size := l[i - 1].size + l[i].size));
    }
  }

  lemma JoinIsRemoved(l: seq<Block>, i: nat, y: Block, x: Block)
    requires 0 < i < |l|
    ensures Removed(l[i := y][i - 1 := x], i) == Join(l, i - 1, x)
  {
    var m := l[i := y][i - 1 := x];
    assert m[..i] == l[..i - 1] + [x];
    assert m[i + 1..] == l[i + 1..];
  }

  lemma FreedCoalescedBut(l: seq<Block>, i: nat)
    requires Coalesced(l) && i < |l| && !FreeBefore(l, i)
    ensures CoalescedBut(l[i := l[i].(flag := FREE)], i)
  {}

  /** The corrected release keeps the partition and leaves no two free neighbours. */
  lemma FreeKeeps(l: seq<Block>, lo: nat, hi: nat, base: nat)
    requires Tiles(l, lo, hi) && Coalesced(l)
    ensures Tiles(Free(l, base, true), lo, hi) && Coalesced(Free(l, base, true))
  {
    hide Tiles, Coalesced, CoalescedBut, FreeAt, MergeNext;
    var i := Find(l, base);
    if i < |l| {
      FreeAtIsJoins(l, i);
      if FreeBefore(l, i) {
        var x := l[i - 1].(size := l[i - 1].size + l[i].size);
        JoinKeeps(l, lo, hi, i - 1, x);
        JoinPrevious(l, i, x);
        MergeNextKeeps(Join(l, i - 1, x), lo, hi, i - 1);
      } else {
        RecolourKeeps(l, lo, hi, i, FREE);
        FreedCoalescedBut(l, i);
        MergeNextKeeps(l[i := l[i].(flag := FREE)], lo, hi, i);
      }
    }
  }

  lemma AllocatedJoin(l: seq<Block>, lo: nat, hi: nat, i: nat, x: Block)
    requires Tiles(l, lo, hi) && i + 1 < |l| && x.flag == FREE
    ensures Allocated(Join(l, i, x)) == Allocated(l) - {l[i], l[i + 1]}
  {
    hide Tiles;
    Distinct(l, lo, hi, i);
    Distinct(l, lo, hi, i + 1);
    var p, q := l[..i], l[i + 2..];
    assert l[..i + 1] == p + [l[i]] && l[i + 1..] == [l[i + 1]] + q;
    assert l == p + [l[i], l[i + 1]] + q;
  }

  lemma Distinct(l: seq<Block>, lo: nat, hi: nat, i: nat)
    requires Tiles(l, lo, hi) && i < |l|
    ensures l[i] !in l[..i] && l[i] !in l[i + 1..]
  {
    TilesDisjoint(l, lo, hi);
  }

  lemma AllocatedFreed(l: seq<Block>, lo: nat, hi: nat, i: nat)
    requires Tiles(l, lo, hi) && i < |l|
    ensures Allocated(l[i := l[i].(flag := FREE)]) == Allocated(l) - {l[i]}
  {
    hide Tiles;
    Distinct(l, lo, hi, i);
    var p, q := l[..i], l[i + 1..];
    assert l == p + [l[i]] + q;
    assert l[i := l[i].(flag := FREE)] == p + [l[i].(flag := FREE)] + q;
  }

  lemma AllocatedMergeNext(l: seq<Block>, lo: nat, hi: nat, i: nat)
    requires Tiles(l, lo, hi) && i < |l| && l[i].flag == FREE
    ensures Allocated(MergeNext(l, i)) == Allocated(l)
  {
    if i + 1 < |l| && l[i + 1].flag == FREE {
      var x := l[i].(size := l[i].size + l[i + 1].size);
      RemovedIsJoin(l, i, x);
      AllocatedJoin(l, lo, hi, i, x);
    }
  }

  /** The corrected release takes exactly the named block from the allocated ones. */
  lemma FreeTakes(l: seq<Block>, lo: nat, hi: nat, base: nat)
    requires Tiles(l, lo, hi)
    ensures Allocated(Free(l, base, true))
            == if Find(l, base) < |l| then Allocated(l) - {l[Find(l, base)]} else Allocated(l)
  {
    hide Tiles, FreeAt, MergeNext;
    var i := Find(l, base);
    if i < |l| {
      FreeAtIsJoins(l, i);
      if FreeBefore(l, i) {
        var x := l[i - 1].(size := l[i - 1].size + l[i].size);
        JoinKeeps(l, lo, hi, i - 1, x);
        AllocatedJoin(l, lo, hi, i - 1, x);
        AllocatedMergeNext(Join(l, i - 1, x), lo, hi, i - 1);
      } else {
        RecolourKeeps(l, lo, hi, i, FREE);
        AllocatedFreed(l, lo, hi, i);
        AllocatedMergeNext(l[i := l[i].(flag := FREE)], lo, hi, i);
      }
    }
  }

  lemma PositiveSize(b: Block)
    requires Whole(b.size)
    ensures b.size > 0
  {}

  lemma MergeNextLater(l: seq<Block>, i: nat)
    requires 1 <= i < |l|
    ensures var m := MergeNext(l, i); |m| > 1 && m[0] == l[0] && m[1].base == l[1].base
  {}

  /** The release as written keeps the partition, and agrees with the corrected one, exactly when the block is not
      beyond entry 1 with a free predecessor. */
  lemma WrittenFreeIff(l: seq<Block>, lo: nat, hi: nat, base: nat)
    requires Tiles(l, lo, hi) && Coalesced(l)
    ensures var i := Find(l, base);
            && (Free(l, base, false) == Free(l, base, true) <==> !(FreeBefore(l, i) && i >= 2))
            && (Tiles(Free(l, base, false), lo, hi) <==> !(FreeBefore(l, i) && i >= 2))
  {
    var i := Find(l, base);
    FreeKeeps(l, lo, hi, base);
    if FreeBefore(l, i) && i >= 2 {
      WrittenFreeBreaks(l, lo, hi, i);
      assert Free(l, base, true) == FreeAt(l, i, i);
    }
  }

  lemma WrittenFreeBreaks(l: seq<Block>, lo: nat, hi: nat, i: nat)
    requires Tiles(l, lo, hi) && FreeBefore(l, i) && i >= 2
    ensures !Tiles(FreeAt(l, i, 1), lo, hi)
  {
    hide MergeNext, Whole;
    var m := l[i := l[i].(flag := FREE)];
    var q := m[i - 1 := m[i - 1].(size := m[i - 1].size + m[i].size)];
    var p := Removed(q, 1);
    assert p[0] == l[0] && p[1].base == l[2].base;
    MergeNextLater(p, i - 1);
    SizesAreWhole(l, lo, hi, 1);
    PositiveSize(l[1]);
    assert FreeAt(l, i, 1) == MergeNext(p, i - 1);
    assert l[1].base == l[0].base + l[0].size && l[2].base == l[1].base + l[1].size;
  }

  /** Releasing a block that was just allocated restores the live entries, through split, merge and removal; for the
      code as written and as corrected. */
  lemma AllocThenFree(l: seq<Block>, lo: nat, hi: nat, need: nat, corrected: bool)
    requires Tiles(l, lo, hi) && Coalesced(l) && Whole(need) && FirstFit(l, need) < |l|
    ensures Free(Alloc(l, need), l[FirstFit(l, need)].base, corrected) == l
  {
    hide Tiles, Coalesced, FreeAt;
    var i, m := FirstFit(l, need), Alloc(l, need);
    AllocKeeps(l, lo, hi, need);
    FindEntry(m, lo, hi, i);
    NotFreeAround(l, i);
    UndoAlloc(l, i, need);
  }

  lemma NotFreeAround(l: seq<Block>, i: nat)
    requires Coalesced(l) && i < |l| && l[i].flag == FREE
    ensures (i > 0 ==> l[i - 1].flag == ALLOC) && (i + 1 < |l| ==> l[i + 1].flag == ALLOC)
  {
    if i > 0 { assert l[i].flag == FREE ==> l[i - 1].flag == ALLOC; }
    if i + 1 < |l| { assert l[i].flag == FREE ==> l[i + 1].flag == ALLOC; }
  }

  lemma UndoAlloc(l: seq<Block>, i: nat, need: nat)
    requires i < |l| && Fits(l[i], need)
    requires (i > 0 ==> l[i - 1].flag == ALLOC) && (i + 1 < |l| ==> l[i + 1].flag == ALLOC)
    ensures var m := AllocAt(l, i, need); !FreeBefore(m, i) && FreeAt(m, i, i) == l
  {
    hide Removed;
    var m := AllocAt(l, i, need);
    if l[i].size > need {
      var f := m[i := m[i].(flag := FREE)];
      RemovedIsJoin(f, i, l[i]);
      assert f[..i] == l[..i] && f[i + 2..] == l[i + 1..];
      assert Join(f, i, l[i]) == l;
    } else {
      assert m[i := m[i].(flag := FREE)] == l;
    }
  }

  // ----- Runs -----

  datatype Op = Get(size: nat) | Put(base: nat)

  function Step(l: seq<Block>, op: Op, corrected: bool): seq<Block> {
    match op
    case Get(size) => if size < WORD32 then Alloc(l, RoundUp(size)) else l
    case Put(base) => Free(l, base, corrected)
  }

  function Run(l: seq<Block>, ops: seq<Op>, corrected: bool): seq<Block>
    decreases |ops|
  {
    if ops == [] then l else Run(Step(l, ops[0], corrected), ops[1..], corrected)
  }

  /** The release removes the right entry: it is corrected, or the block is not beyond entry 1 with a free predecessor.
      */
  predicate RightEntry(l: seq<Block>, base: nat, corrected: bool) {
    corrected || !(FreeBefore(l, Find(l, base)) && Find(l, base) >= 2)
  }

  /** Requests are not rounded to 0, and releases remove the right entry. */
  predicate Sound(l: seq<Block>, op: Op, corrected: bool) {
    match op
    case Get(size) => 1 <= size <= WORD32 - PAGE
    case Put(base) => RightEntry(l, base, corrected)
  }

  predicate SoundRun(l: seq<Block>, ops: seq<Op>, corrected: bool)
    decreases |ops|
  {
    ops == [] || (Sound(l, ops[0], corrected) && SoundRun(Step(l, ops[0], corrected), ops[1..], corrected))
  }

  lemma RightEntryAgrees(l: seq<Block>, lo: nat, hi: nat, base: nat, corrected: bool)
    requires Tiles(l, lo, hi) && Coalesced(l) && RightEntry(l, base, corrected)
    ensures Free(l, base, corrected) == Free(l, base, true)
  {
    if !corrected { WrittenFreeIff(l, lo, hi, base); }
  }

  /** Over any run of allocations and releases, as written where they remove the right entry or corrected, the entries
      partition the original range, with no two free neighbours, and blocks of different entries never overlap. */
  lemma {:induction false} RunKeepsTiling(l: seq<Block>, lo: nat, hi: nat, ops: seq<Op>, corrected: bool)
    requires Tiles(l, lo, hi) && Coalesced(l) && SoundRun(l, ops, corrected)
    ensures var m := Run(l, ops, corrected);
            && Tiles(m, lo, hi) && Coalesced(m) && TotalSize(m) == hi - lo
            && forall i, j :: 0 <= i < j < |m| ==> m[i].base + m[i].size <= m[j].base
    decreases |ops|
  {
    hide Tiles, Coalesced, Step, Sound, TotalSize;
    if ops == [] {
      TilesDisjoint(l, lo, hi);
    } else {
      StepKeeps(l, lo, hi, ops[0], corrected);
      RunKeepsTiling(Step(l, ops[0], corrected), lo, hi, ops[1..], corrected);
    }
  }

  lemma StepKeeps(l: seq<Block>, lo: nat, hi: nat, op: Op, corrected: bool)
    requires Tiles(l, lo, hi) && Coalesced(l) && Sound(l, op, corrected)
    ensures Tiles(Step(l, op, corrected), lo, hi) && Coalesced(Step(l, op, corrected))
  {
    hide Tiles, Coalesced, Alloc, Free, RoundUp, RightEntry;
    match op
    case Get(size) =>
      RoundUpExact(size);
      AllocKeeps(l, lo, hi, RoundUp(size));
    case Put(base) =>
      RightEntryAgrees(l, lo, hi, base, corrected);
      FreeKeeps(l, lo, hi, base);
  }

  // ----- Witnesses -----

  /** Four pages, three taken one by one and the second given back: giving back the third loses a page. */
  lemma WrittenFreeWitness()
    ensures var l := Run([Block(4096, 16384, FREE)], [Get(4096), Get(4096), Get(4096), Put(8192)], false);
            && SoundRun([Block(4096, 16384, FREE)], [Get(4096), Get(4096), Get(4096), Put(8192)], false)
            && Tiles(l, 4096, 20480) && !Tiles(Free(l, 12288, false), 4096, 20480)
  {
    var l0 := [Block(4096, 16384, FREE)];
    var l1 := [Block(4096, 4096, ALLOC), Block(8192, 12288, FREE)];
    var l2 := [Block(4096, 4096, ALLOC), Block(8192, 4096, ALLOC), Block(12288, 8192, FREE)];
    var l3 := [Block(4096, 4096, ALLOC), Block(8192, 4096, ALLOC), Block(12288, 4096, ALLOC), Block(16384, 4096, FREE)];
    var l4 := [Block(4096, 4096, ALLOC), Block(8192, 4096, FREE), Block(12288, 4096, ALLOC), Block(16384, 4096, FREE)];
    var o := [Get(4096), Get(4096), Get(4096), Put(8192)];
    hide Step, Sound, Tiles, Free, Run, SoundRun;
    FirstTwo(l0, l1, l2);
    Third(l2, l3);
    Fourth(l3, l4);
    RunOfFour(l0, l1, l2, l3, l4, o);
    Found(l4);
    WrittenFreeIff(l4, 4096, 20480, 12288);
  }

  lemma RunOfFour(l0: seq<Block>, l1: seq<Block>, l2: seq<Block>, l3: seq<Block>, l4: seq<Block>, o: seq<Op>)
    requires |o| == 4
    requires Step(l0, o[0], false) == l1 && Step(l1, o[1], false) == l2
    requires Step(l2, o[2], false) == l3 && Step(l3, o[3], false) == l4
    requires Sound(l0, o[0], false) && Sound(l1, o[1], false) && Sound(l2, o[2], false) && Sound(l3, o[3], false)
    ensures Run(l0, o, false) == l4 && SoundRun(l0, o, false)
  {
    hide Step, Sound, Run, SoundRun;
    RunNext(l0, o, l1);
    RunNext(l1, o[1..], l2);
    RunNext(l2, o[1..][1..], l3);
    RunNext(l3, o[1..][1..][1..], l4);
    RunNone(l4, o[1..][1..][1..][1..]);
  }

  lemma RunNext(l: seq<Block>, o: seq<Op>, m: seq<Block>)
    requires o != [] && Step(l, o[0], false) == m && Sound(l, o[0], false)
    ensures Run(l, o, false) == Run(m, o[1..], false) && (SoundRun(l, o, false) <==> SoundRun(m, o[1..], false))
  {
    hide Step, Sound;
  }

  lemma RunNone(l: seq<Block>, o: seq<Op>)
    requires o == []
    ensures Run(l, o, false) == l && SoundRun(l, o, false)
  {}

  lemma FirstTwo(l0: seq<Block>, l1: seq<Block>, l2: seq<Block>)
    requires l0 == [Block(4096, 16384, FREE)] && l1 == [Block(4096, 4096, ALLOC), Block(8192, 12288, FREE)]
    requires l2 == [Block(4096, 4096, ALLOC), Block(8192, 4096, ALLOC), Block(12288, 8192, FREE)]
    ensures Step(l0, Get(4096), false) == l1 && Step(l1, Get(4096), false) == l2
    ensures Sound(l0, Get(4096), false) && Sound(l1, Get(4096), false)
  {
    assert FirstFit(l0, 4096) == 0;
    assert FirstFit(l1, 4096) == 1 by { assert l1[1..] == [l1[1]]; }
  }

  lemma Third(l2: seq<Block>, l3: seq<Block>)
    requires l2 == [Block(4096, 4096, ALLOC), Block(8192, 4096, ALLOC), Block(12288, 8192, FREE)]
    requires l3 == [Block(4096, 4096, ALLOC), Block(8192, 4096, ALLOC), Block(12288, 4096, ALLOC),
      Block(16384, 4096, FREE)]
    ensures Step(l2, Get(4096), false) == l3 && Sound(l2, Get(4096), false)
  {
    var i := FirstFit(l2, 4096);
    assert Fits(l2[2], 4096) && !Fits(l2[0], 4096) && !Fits(l2[1], 4096);
    assert i == 2;
  }

  lemma Fourth(l3: seq<Block>, l4: seq<Block>)
    requires l3 == [Block(4096, 4096, ALLOC), Block(8192, 4096, ALLOC), Block(12288, 4096, ALLOC),
      Block(16384, 4096, FREE)]
    requires l4 == [Block(4096, 4096, ALLOC), Block(8192, 4096, FREE), Block(12288, 4096, ALLOC),
      Block(16384, 4096, FREE)]
    ensures Step(l3, Put(8192), false) == l4 && Sound(l3, Put(8192), false)
  {
    var i := Find(l3, 8192);
    assert l3[1].base == 8192 && l3[0].base != 8192;
    assert i == 1;
  }

  lemma Found(l4: seq<Block>)
    requires l4 == [Block(4096, 4096, ALLOC), Block(8192, 4096, FREE), Block(12288, 4096, ALLOC),
      Block(16384, 4096, FREE)]
    ensures Find(l4, 12288) == 2 && FreeBefore(l4, 2) && Tiles(l4, 4096, 20480) && Coalesced(l4)
  {
    assert l4[2].base == 12288 && l4[1].base != 12288 && l4[0].base != 12288;
  }

  /** A request for nothing, or for more than fits below the last page, empties a pool of one free page. */
  lemma ZeroRequestWitness()
    ensures RoundUp(0) == 0 && RoundUp(WORD32 - 1) == 0
    ensures Live(Alloc([Block(4096, 4096, FREE)], 0) + [Zero]) == []
  {
    var l := [Block(4096, 4096, FREE)];
    assert FirstFit(l, 0) == 0;
    assert AllocAt(l, 0, 0)[0] == Block(4096, 0, ALLOC);
  }

  // ----- Creating a pool -----

  /** The first entry pool_init stores for the range from start to end; its size is computed modulo 2^32. */
  function InitBlock(start: nat, end: nat): Block
    requires start < WORD32 && end < WORD32
  {
    var s, e := RoundUp(start), end / PAGE * PAGE;
    Block(s, (e - s) % WORD32, FREE)
  }

  function InitLive(start: nat, end: nat): seq<Block>
    requires start < WORD32 && end < WORD32
  {
    var b := InitBlock(start, end);
    if b.size == 0 then [] else [b]
  }

  /** The new pool lies inside the given range exactly when the range holds a page boundary that its start can be
      rounded up to; otherwise the size wraps, or the start does. */
  lemma InitInsideIff(start: nat, end: nat)
    requires start <= end < WORD32
    ensures var b := InitBlock(start, end);
            && ((start <= b.base && b.base + b.size <= end) <==>
                start <= WORD32 - PAGE && RoundUp(start) <= end / PAGE * PAGE)
            && ((start <= b.base && b.base + b.size <= end) ==> Tiles(InitLive(start, end), b.base, end / PAGE * PAGE))
  {
    RoundUpExact(start);
  }

  /** A range of 1000 bytes without a page boundary becomes a pool of almost 4 gigabytes. */
  lemma InitWitness()
    ensures InitBlock(4097, 5097) == Block(8192, WORD32 - 4096, FREE)
  {}

  // ----- The table -----

  class Table {
    const a: array<Block>
    ghost var live: seq<Block>

    /** The live entries are followed by at least one entry; all those have size 0 and count as free. */
    ghost predicate Valid()
      reads this, a
    {
      && |live| < a.Length
      && (forall i :: 0 <= i < |live| ==> live[i].size > 0)
      && (forall i :: 0 <= i < |live| ==> a[i] == live[i])
      && (forall i :: |live| <= i < a.Length ==> a[i].size == 0 && a[i].flag == FREE)
    }

    /** pool_init, on a table that was zero. */
    constructor (n: nat, start: nat, end: nat)
      requires n >= 2 && start < WORD32 && end < WORD32
      ensures Valid() && fresh(a) && a.Length == n && Coalesced(live) && live == InitLive(start, end)
    {
      var s := RoundUp(start);
      var e := end / PAGE * PAGE;
      a := new Block[n](i => Zero);
      live := InitLive(start, end);
      new;
      a[0] := Block(s, (e - s) % WORD32, FREE);
      a[1] := a[1].(size := 0);
    }

    /** pool_ins at entry k: everything from k on moves up one place. */
    method PoolIns(k: nat)
      requires Valid() && k <= |live| && |live| + 1 < a.Length
      modifies a
      ensures forall j :: 0 <= j < a.Length && j <= k ==> a[j] == old(a[j])
      ensures forall j :: k < j <= |live| ==> a[j] == old(a[j - 1])
      ensures forall j :: |live| < j < a.Length ==> a[j] == old(a[j])
    {
      var i := 0;
      while a[k + i].size != 0
        invariant k + i <= |live|
        decreases |live| - (k + i)
      {
        i := i + 1;
      }
      assert k + i == |live|;
      while i >= 1
        invariant 0 <= i && k + i <= |live|
        invariant forall j :: 0 <= j < a.Length && !(k + i < j <= |live|) ==> a[j] == old(a[j])
        invariant forall j :: k + i < j <= |live| ==> a[j] == old(a[j - 1])
      {
        a[k + i] := a[k + i - 1];
        i := i - 1;
      }
    }

    /** pool_rem at entry k: everything behind k moves down one place. */
    method PoolRem(k: nat)
      requires Valid() && k <= |live|
      modifies `live, a
      ensures Valid() && live == Removed(old(live), k)
    {
      hide Removed;
      var i := 0;
      while a[k + i].size != 0
        invariant k + i <= |live| && live == old(live)
        invariant forall j :: 0 <= j < a.Length && !(k <= j < k + i) ==> a[j] == old(a[j])
        invariant forall j :: k <= j < k + i ==> a[j] == old(a[j + 1])
        decreases |live| - (k + i)
      {
        a[k + i] := a[k + i + 1];
        i := i + 1;
      }
      RemovedIndex(live, k);
      live := Removed(live, k);
    }

    /** The split branch of pool_alloc. */
    method TakePart(i: nat, need: nat)
      requires Valid() && i < |live| && |live| + 1 < a.Length && a[i].flag == FREE && a[i].size > need > 0
      modifies `live, a
      ensures Valid() && live == AllocAt(old(live), i, need)
    {
      hide AllocAt;
      AllocAtIndex(live, i, need);
      PoolIns(i + 1);
      a[i + 1] := Block(a[i].base + need, a[i].size - need, FREE);
      a[i] := Block(a[i].base, need, ALLOC);
      live := AllocAt(live, i, need);
    }

    method Recolour(i: nat, f: Flag)
      requires Valid() && i < |live|
      modifies `live, a
      ensures Valid() && live == old(live)[i := old(live)[i].(flag := f)]
    {
      a[i] := a[i].(flag := f);
      live := live[i := a[i]];
    }

    /** pool_alloc.  A split needs a spare entry. */
    method PoolAlloc(size: nat) returns (base: nat, found: bool)
      requires Valid() && 1 <= size <= WORD32 - PAGE && |live| + 1 < a.Length
      modifies `live, a
      ensures Valid() && live == Alloc(old(live), RoundUp(size))
      ensures found <==> FirstFit(old(live), RoundUp(size)) < |old(live)|
      ensures base == if found then old(live)[FirstFit(old(live), RoundUp(size))].base else 0
    {
      hide AllocAt;
      var need := RoundUp(size);
      RoundUpExact(size);
      var i := 0;
      while a[i].size != 0
        invariant i <= |live| && forall k :: 0 <= k < i ==> !Fits(live[k], need)
        invariant live == old(live) && Valid()
        decreases |live| - i
      {
        base := a[i].base;
        if a[i].flag == FREE {
          if a[i].size > need {
            assert FirstFit(live, need) == i;
            TakePart(i, need);
            return base, true;
          } else if a[i].size == need {
            assert FirstFit(live, need) == i;
            ExactFit(live, i, need);
            Recolour(i, ALLOC);
            return base, true;
          }
        }
        i := i + 1;
        if i >= a.Length {
          break;
        }
      }
      base, found := 0, false;
    }

    /** The size of entry i grows by that of entry i + 1, then entry k is removed. */
    method Absorb(i: nat, k: nat)
      requires Valid() && i < |live| && i + 1 < a.Length && k <= |live|
      modifies `live, a
      ensures Valid() && live == Removed(old(live)[i := old(a[i]).(size := old(a[i]).size + old(a[i + 1]).size)], k)
    {
      a[i] := a[i].(size := a[i].size + a[i + 1].size);
      live := live[i := a[i]];
      PoolRem(k);
    }

    /** pool_free; as written, corrected is false. */
    method PoolFree(base: nat, corrected: bool)
      requires Valid()
      modifies `live, a
      ensures Valid() && live == Free(old(live), base, corrected)
    {
      hide Removed;
      var i := 0;
      while a[i].size != 0
        invariant i <= |live| && forall k :: 0 <= k < i ==> live[k].base != base
        invariant live == old(live) && Valid()
        decreases |live| - i
      {
        if a[i].base == base {
          assert Find(live, base) == i;
          FreeEntry(i, if corrected then i else 1);
          return;
        }
        i := i + 1;
      }
    }

    /** The body of pool_free's loop for the entry that was found. */
    method FreeEntry(found: nat, k: nat)
      requires Valid() && found < |live| && (FreeBefore(live, found) ==> k < |live|)
      modifies `live, a
      ensures Valid() && live == FreeAt(old(live), found, if FreeBefore(old(live), found) then k else found)
    {
      hide Removed;
      var i := found;
      Recolour(i, FREE);
      if i > 0 && a[i - 1].flag == FREE {
        RemovedLength(live[i - 1 := live[i - 1].(size := live[i - 1].size + live[i].size)], k);
        Absorb(i - 1, k);
        i := i - 1;
      }
      MergeWithNext(i);
    }

    method MergeWithNext(i: nat)
      requires Valid() && i < |live|
      modifies `live, a
      ensures Valid() && live == MergeNext(old(live), i)
    {
      if a[i + 1].flag == FREE {
        Absorb(i, i + 1);
      }
    }
  }

  lemma ExactFit(l: seq<Block>, i: nat, need: nat)
    requires i < |l| && Fits(l[i], need) && l[i].size == need
    ensures AllocAt(l, i, need) == l[i := l[i].(flag := ALLOC)]
  {}

  lemma RemovedLength(l: seq<Block>, k: nat)
    requires k < |l|
    ensures |Removed(l, k)| == |l| - 1
  {}
}
