/** The converter from ELF to a flat binary (i386/elf.c): loadable segments are sorted by load address and written one
    after the other, with gaps filled. */
module ElfImage {
  type Byte = x: int | 0 <= x < 256

  const PT_LOAD := 1
  const MAX_PHNUM := 32
  const BUF_SIZE := 640000

  datatype Phdr = Phdr(ptype: int, paddr: nat, offset: nat, filesz: nat)

  predicate IsLoad(h: Phdr) { h.ptype == PT_LOAD && h.filesz > 0 }

  /** The indices of the loadable segments, in table order. */
  function Loads(ph: seq<Phdr>): (r: seq<nat>)
    ensures |r| <= |ph| && forall k :: 0 <= k < |r| ==> r[k] < |ph| && IsLoad(ph[r[k]])
  {
    if ph == [] then []
    else Loads(ph[..|ph| - 1]) + (if IsLoad(ph[|ph| - 1]) then [|ph| - 1] else [])
  }

  /** Nothing loadable is left out, nothing else is taken in, and the table order is kept. */
  lemma {:induction false} LoadsComplete(ph: seq<Phdr>)
    ensures forall i :: 0 <= i < |ph| ==> (IsLoad(ph[i]) <==> i in Loads(ph))
    ensures forall j, k :: 0 <= j < k < |Loads(ph)| ==> Loads(ph)[j] < Loads(ph)[k]
  {
    hide IsLoad;
    if ph != [] {
      var p := ph[..|ph| - 1];
      LoadsComplete(p);
      forall i | 0 <= i < |ph| ensures IsLoad(ph[i]) <==> i in Loads(ph) {
        if i < |p| { assert ph[i] == p[i]; }
      }
    }
  }

  // ----- Sorting -----

  predicate InTable(ph: seq<Phdr>, s: seq<nat>) { forall k :: 0 <= k < |s| ==> s[k] < |ph| }

  ghost predicate Ordered(ph: seq<Phdr>, s: seq<nat>)
    requires InTable(ph, s)
  {
    forall i, j :: 0 <= i < j < |s| ==> ph[s[i]].paddr <= ph[s[j]].paddr
  }

  /** How many trailing elements lie above the key. */
  function Above(ph: seq<Phdr>, s: seq<nat>, key: nat): (n: nat)
    requires InTable(ph, s) && key < |ph|
    ensures n <= |s| && (forall k :: |s| - n <= k < |s| ==> ph[s[k]].paddr > ph[key].paddr)
    ensures n < |s| ==> ph[s[|s| - n - 1]].paddr <= ph[key].paddr
  {
    if s == [] || ph[s[|s| - 1]].paddr <= ph[key].paddr then 0 else 1 + Above(ph, s[..|s| - 1], key)
  }

  function Inserted(ph: seq<Phdr>, s: seq<nat>, key: nat): (r: seq<nat>)
    requires InTable(ph, s) && key < |ph|
    ensures InTable(ph, r) && |r| == |s| + 1
  {
    var p := |s| - Above(ph, s, key);
    s[..p] + [key] + s[p..]
  }

  function SortedBy(ph: seq<Phdr>, s: seq<nat>): (r: seq<nat>)
    requires InTable(ph, s)
    ensures InTable(ph, r) && |r| == |s|
  {
    if s == [] then [] else Inserted(ph, SortedBy(ph, s[..|s| - 1]), s[|s| - 1])
  }

  lemma InsertedOrdered(ph: seq<Phdr>, s: seq<nat>, key: nat)
    requires InTable(ph, s) && key < |ph| && Ordered(ph, s)
    ensures Ordered(ph, Inserted(ph, s, key))
  {
    var p, r := |s| - Above(ph, s, key), Inserted(ph, s, key);
    forall k | 0 <= k < |r| ensures r[k] == if k < p then s[k] else if k == p then key else s[k - 1] {}
    forall k | 0 <= k < p ensures ph[s[k]].paddr <= ph[key].paddr {
      assert ph[s[p - 1]].paddr <= ph[key].paddr;
    }
    forall i, j | 0 <= i < j < |r| ensures ph[r[i]].paddr <= ph[r[j]].paddr {
      var x, y := if i < p then i else i - 1, if j < p then j else j - 1;
      if i != p && j != p {
        assert ph[s[x]].paddr <= ph[s[y]].paddr;
      }
    }
  }

  lemma InsertedPermutes(ph: seq<Phdr>, s: seq<nat>, key: nat)
    requires InTable(ph, s) && key < |ph|
    ensures multiset(Inserted(ph, s, key)) == multiset(s) + multiset{key}
  {
    hide Above;
    var p := |s| - Above(ph, s, key);
    assert s == s[..p] + s[p..];
  }

  lemma EmptyOrdered(ph: seq<Phdr>)
    ensures Ordered(ph, [])
  {}

  /** The order is a permutation of the indices, ascending in load address. */
  lemma {:induction false} SortedIsOrderedPermutation(ph: seq<Phdr>, s: seq<nat>)
    requires InTable(ph, s)
    ensures Ordered(ph, SortedBy(ph, s)) && multiset(SortedBy(ph, s)) == multiset(s)
  {
    hide Ordered, Inserted;
    if s == [] {
      EmptyOrdered(ph);
    } else {
      var t := s[..|s| - 1];
      SortedIsOrderedPermutation(ph, t);
      InsertedOrdered(ph, SortedBy(ph, t), s[|s| - 1]);
      InsertedPermutes(ph, SortedBy(ph, t), s[|s| - 1]);
      assert s == t + [s[|s| - 1]];
    }
  }

  // ----- Placement -----

  datatype Segment = Segment(paddr: nat, bytes: seq<Byte>)

  function Zeros(n: nat): (z: seq<Byte>)
    ensures |z| == n && forall i :: 0 <= i < n ==> z[i] == 0
  {
    seq(n, i => 0)
  }

  function Gap(base: nat, written: nat, s: Segment): nat
    requires base <= s.paddr
  {
    if s.paddr - base > written then s.paddr - base - written else 0
  }

  ghost predicate FromBase(ss: seq<Segment>) {
    ss != [] && forall i :: 0 <= i < |ss| ==> ss[0].paddr <= ss[i].paddr
  }

  /** bytes_written after the segments. */
  function Written(ss: seq<Segment>): nat
    requires FromBase(ss)
  {
    ss[|ss| - 1].paddr - ss[0].paddr + |ss[|ss| - 1].bytes|
  }

  /** What the output holds after the segments. */
  function Output(ss: seq<Segment>): seq<Byte>
    requires FromBase(ss)
  {
    if |ss| == 1 then ss[0].bytes
    else
      var p, s := ss[..|ss| - 1], ss[|ss| - 1];
      Output(p) + Zeros(Gap(ss[0].paddr, Written(p), s)) + s.bytes
  }

  /** Where segment i begins in the output. */
  function Landing(ss: seq<Segment>, i: nat): nat
    requires FromBase(ss) && i < |ss|
  {
    if i == 0 then 0 else |Output(ss[..i])| + Gap(ss[0].paddr, Written(ss[..i]), ss[i])
  }

  /** No segment reaches into the next one. */
  ghost predicate Separate(ss: seq<Segment>) {
    forall i :: 0 <= i < |ss| - 1 ==> ss[i].paddr + |ss[i].bytes| <= ss[i + 1].paddr
  }

  ghost predicate Ascending(ss: seq<Segment>) {
    ss != [] && forall i, j :: 0 <= i < j < |ss| ==> ss[i].paddr <= ss[j].paddr
  }

  lemma PrefixSeparate(ss: seq<Segment>, n: nat)
    requires Separate(ss) && n <= |ss|
    ensures Separate(ss[..n])
  {}

  lemma {:induction false} OutputLength(ss: seq<Segment>)
    requires Ascending(ss) && Separate(ss)
    ensures |Output(ss)| == Written(ss)
  {
    if |ss| > 1 {
      PrefixSeparate(ss, |ss| - 1);
      OutputLength(ss[..|ss| - 1]);
      assert ss[|ss| - 2].paddr + |ss[|ss| - 2].bytes| <= ss[|ss| - 2 + 1].paddr;
    }
  }

  /** Every segment begins at its load address, counted from the lowest one, exactly when none reaches into the next. */
  lemma LandsIff(ss: seq<Segment>)
    requires Ascending(ss)
    ensures (forall i :: 0 <= i < |ss| ==> Landing(ss, i) == ss[i].paddr - ss[0].paddr) <==> Separate(ss)
  {
    if Separate(ss) {
      forall i | 0 <= i < |ss| ensures Landing(ss, i) == ss[i].paddr - ss[0].paddr {
        if i > 0 {
          PrefixSeparate(ss, i);
          OutputLength(ss[..i]);
          assert ss[i - 1].paddr + |ss[i - 1].bytes| <= ss[i - 1 + 1].paddr;
        }
      }
    } else {
      var i := FirstOverlap(ss);
      PrefixOutputLength(ss, i + 1);
      assert Landing(ss, i + 1) != ss[i + 1].paddr - ss[0].paddr;
    }
  }

  lemma PrefixOutputLength(ss: seq<Segment>, n: nat)
    requires Ascending(ss) && 0 < n <= |ss| && Separate(ss[..n])
    ensures Ascending(ss[..n]) && |Output(ss[..n])| == ss[n - 1].paddr - ss[0].paddr + |ss[n - 1].bytes|
  {
    OutputLength(ss[..n]);
  }

  lemma {:induction false} FirstOverlap(ss: seq<Segment>) returns (i: nat)
    requires Ascending(ss) && !Separate(ss)
    ensures i < |ss| - 1 && ss[i].paddr + |ss[i].bytes| > ss[i + 1].paddr && Separate(ss[..i + 1])
    decreases |ss|
  {
    var n := |ss| - 1;
    if Separate(ss[..n]) {
      i := n - 1;
      forall k | 0 <= k < n - 1 ensures ss[k].paddr + |ss[k].bytes| <= ss[k + 1].paddr {
        assert ss[..n][k].paddr + |ss[..n][k].bytes| <= ss[..n][k + 1].paddr;
      }
    } else {
      i := FirstOverlap(ss[..n]);
      assert ss[..n][..i + 1] == ss[..i + 1];
    }
  }

  /** Place x of the image lies in segment i. */
  predicate InSegment(ss: seq<Segment>, i: nat, x: nat)
    requires ss != [] && i < |ss|
  {
    ss[i].paddr <= ss[0].paddr + x < ss[i].paddr + |ss[i].bytes|
  }

  /** The flat image: it ends with the last segment, holds each segment at its place, and is zero everywhere else. */
  ghost predicate IsImage(data: seq<Byte>, ss: seq<Segment>)
    requires ss != []
  {
    && ss[0].paddr + |data| == ss[|ss| - 1].paddr + |ss[|ss| - 1].bytes|
    && (forall i, x :: 0 <= i < |ss| && 0 <= x < |data| && InSegment(ss, i, x) ==>
          data[x] == ss[i].bytes[ss[0].paddr + x - ss[i].paddr])
    && (forall x :: 0 <= x < |data| ==> data[x] == 0 || exists i :: 0 <= i < |ss| && InSegment(ss, i, x))
  }

  lemma {:induction false} OutputIsImage(ss: seq<Segment>)
    requires Ascending(ss) && Separate(ss)
    ensures IsImage(Output(ss), ss)
  {
    var n := |ss| - 1;
    if n == 0 {
      forall x | 0 <= x < |Output(ss)| ensures Output(ss)[x] == 0 || exists i :: 0 <= i < |ss| && InSegment(ss, i, x) {
        assert InSegment(ss, 0, x);
      }
    } else {
      PrefixSeparate(ss, n);
      OutputIsImage(ss[..n]);
      OutputLength(ss[..n]);
      OutputLength(ss);
      ExtendImage(Output(ss[..n]), ss);
    }
  }

  lemma ExtendImage(d: seq<Byte>, ss: seq<Segment>)
    requires Ascending(ss) && Separate(ss) && |ss| > 1 && IsImage(d, ss[..|ss| - 1])
    ensures IsImage(d + Zeros(Gap(ss[0].paddr, |d|, ss[|ss| - 1])) + ss[|ss| - 1].bytes, ss)
  {
    var n := |ss| - 1;
    var p, s := ss[..n], ss[n];
    var g := Gap(ss[0].paddr, |d|, s);
    var e := d + Zeros(g) + s.bytes;
    assert ss[n - 1].paddr + |ss[n - 1].bytes| <= ss[n - 1 + 1].paddr;
    assert |d| + g == s.paddr - ss[0].paddr;
    forall i, x | 0 <= i < |ss| && 0 <= x < |e| && InSegment(ss, i, x)
      ensures e[x] == ss[i].bytes[ss[0].paddr + x - ss[i].paddr]
    {
      if i < n {
        EndsBefore(ss, i, n);
        EndsWithin(p, i);
        assert InSegment(p, i, x);
      }
    }
    forall x | 0 <= x < |e| ensures e[x] == 0 || exists i :: 0 <= i < |ss| && InSegment(ss, i, x) {
      if x < |d| && d[x] != 0 {
        var i :| 0 <= i < n && InSegment(p, i, x);
        assert InSegment(ss, i, x);
      } else if x >= |d| + g {
        assert InSegment(ss, n, x);
      }
    }
  }

  lemma {:induction false} EndsBefore(ss: seq<Segment>, i: nat, j: nat)
    requires Ascending(ss) && Separate(ss) && i < j < |ss|
    ensures ss[i].paddr + |ss[i].bytes| <= ss[j].paddr
  {
    assert ss[i].paddr + |ss[i].bytes| <= ss[i + 1].paddr;
  }

  lemma EndsWithin(ss: seq<Segment>, i: nat)
    requires Ascending(ss) && Separate(ss) && i < |ss|
    ensures ss[i].paddr + |ss[i].bytes| <= ss[|ss| - 1].paddr + |ss[|ss| - 1].bytes|
  {
    if i < |ss| - 1 { EndsBefore(ss, i, |ss| - 1); }
  }

  // ----- The converter -----

  /** A file being written; a write may be partial, but is never empty. */
  class OutFile {
    var data: seq<Byte>
    var pos: nat
    var calls: nat
    const partial: nat -> nat

    constructor (partial: nat -> nat)
      ensures data == [] && pos == 0
    {
      data, pos, calls := [], 0, 0;
      this.partial := partial;
    }

    /** write: at the file position, which may lie beyond the end; the gap reads as zeros. */
    method Write(bs: seq<Byte>) returns (n: nat)
      requires bs != [] && pos >= |data|
      modifies this
      ensures 0 < n <= |bs| && pos == old(pos) + n
      ensures data == old(data) + Zeros(old(pos) - |old(data)|) + bs[..n]
    {
      n := 1 + partial(calls) % |bs|;
      calls := calls + 1;
      data := data + Zeros(pos - |data|) + bs[..n];
      pos := pos + n;
    }

    method Writen(bs: seq<Byte>) returns (total: nat)
      requires pos >= |data|
      modifies this
      ensures total == |bs| && pos == old(pos) + |bs|
      ensures bs == [] ==> data == old(data)
      ensures bs != [] ==> data == old(data) + Zeros(old(pos) - |old(data)|) + bs
    {
      var len := |bs|;
      total := 0;
      while len > 0
        invariant total <= |bs| && total + len == |bs| && pos == old(pos) + total && pos >= |data|
        invariant data == if total == 0 then old(data) else old(data) + Zeros(old(pos) - |old(data)|) + bs[..total]
        invariant total > 0 ==> pos == |data|
      {
        var ret := Write(bs[total..]);
        assert bs[..total] + bs[total..][..ret] == bs[..total + ret];
        assert bs[total..][..ret] == bs[total..total + ret];
        len := len - ret;
        total := total + ret;
      }
      assert bs[..total] == bs;
    }

    /** Seek over the gap but one byte, and write that. */
    method WriteSpace(len: nat)
      requires len > 0 && pos == |data|
      modifies this
      ensures data == old(data) + Zeros(len) && pos == |data|
    {
      pos := pos + (len - 1);
      var n := Writen([0]);
      assert Zeros(len - 1) + [0] == Zeros(len);
      assert old(data) + Zeros(len - 1) + [0] == old(data) + (Zeros(len - 1) + [0]);
    }
  }

  /** read and readn: partial reads, never empty while bytes are left. */
  method Readn(src: seq<Byte>, at: nat, len: nat, partial: nat -> nat) returns (buf: seq<Byte>)
    requires at + len <= |src|
    ensures buf == src[at..at + len]
  {
    var left, calls := len, 0;
    buf := [];
    while left > 0
      invariant 0 <= left <= len && |buf| == len - left && buf == src[at..at + len - left]
    {
      var ret := 1 + partial(calls) % left;
      calls := calls + 1;
      assert src[at..at + |buf|] + src[at + |buf|..at + |buf| + ret] == src[at..at + |buf| + ret];
      buf := buf + src[at + |buf|..at + |buf| + ret];
      left := left - ret;
    }
  }

  /** The loop that collects the loadable segments. */
  method Collect(ph: seq<Phdr>, order: array<nat>) returns (nload: nat)
    requires |ph| <= order.Length
    modifies order
    ensures nload <= |ph| && order[..nload] == Loads(ph)
  {
    var i := 0;
    nload := 0;
    while i < |ph|
      invariant i <= |ph| && nload <= i && order[..nload] == Loads(ph[..i])
    {
      assert ph[..i + 1][..i] == ph[..i];
      if ph[i].ptype == PT_LOAD && ph[i].filesz > 0 {
        order[nload] := i;
        nload := nload + 1;
      }
      i := i + 1;
    }
    assert ph[..i] == ph;
  }

  /** The insertion sort. */
  method Sort(ph: seq<Phdr>, order: array<nat>, nload: nat)
    requires nload <= order.Length && InTable(ph, order[..nload])
    modifies order
    ensures order[..nload] == SortedBy(ph, old(order[..nload]))
  {
    hide SortedBy, Inserted;
    ghost var s := order[..nload];
    SortedShort(ph, s[..if nload > 0 then 1 else 0]);
    var i := 1;
    while i < nload
      invariant nload > 0 ==> 1 <= i <= nload && order[..i] == SortedBy(ph, s[..i])
      invariant forall k :: i <= k < nload ==> order[k] == s[k]
    {
      SortedStep(ph, s, i);
      InsertKey(ph, order, i);
      i := i + 1;
    }
    assert s[..nload] == s;
  }

  lemma SortedShort(ph: seq<Phdr>, s: seq<nat>)
    requires InTable(ph, s) && |s| <= 1
    ensures SortedBy(ph, s) == s
  {
    if s != [] {
      assert s[..0] == [] && s == [s[0]];
    }
  }

  lemma SortedStep(ph: seq<Phdr>, s: seq<nat>, i: nat)
    requires InTable(ph, s) && i < |s|
    ensures SortedBy(ph, s[..i + 1]) == Inserted(ph, SortedBy(ph, s[..i]), s[i])
  {
    assert s[..i + 1][..i] == s[..i];
  }

  /** One round of the sort: the key at i moves down past everything above it. */
  method InsertKey(ph: seq<Phdr>, order: array<nat>, i: nat)
    requires i < order.Length && InTable(ph, order[..i]) && order[i] < |ph|
    modifies order
    ensures order[..i + 1] == Inserted(ph, old(order[..i]), old(order[i]))
    ensures forall k :: i < k < order.Length ==> order[k] == old(order[k])
  {
    hide Inserted, Above;
    ghost var s := order[..i];
    var key := order[i];
    var j: int := i - 1;
    while j >= 0 && ph[order[j]].paddr > ph[key].paddr
      invariant -1 <= j < i && forall k :: j < k < i ==> ph[s[k]].paddr > ph[key].paddr
      invariant forall k :: 0 <= k <= j ==> order[k] == s[k]
      invariant forall k :: j + 2 <= k <= i ==> order[k] == s[k - 1]
      invariant forall k :: i < k < order.Length ==> order[k] == old(order[k])
    {
      order[j + 1] := order[j];
      j := j - 1;
    }
    order[j + 1] := key;
    InsertedShape(ph, s, key, order[..i + 1], j + 1);
  }

  lemma InsertedShape(ph: seq<Phdr>, s: seq<nat>, key: nat, r: seq<nat>, p: nat)
    requires InTable(ph, s) && key < |ph| && p <= |s| && |r| == |s| + 1
    requires forall k :: p <= k < |s| ==> ph[s[k]].paddr > ph[key].paddr
    requires p > 0 ==> ph[s[p - 1]].paddr <= ph[key].paddr
    requires (forall k :: 0 <= k < p ==> r[k] == s[k]) && r[p] == key && forall k :: p < k < |r| ==> r[k] == s[k - 1]
    ensures r == Inserted(ph, s, key)
  {
    AboveIs(ph, s, key, |s| - p);
    assert r == s[..p] + [key] + s[p..];
  }

  lemma AboveIs(ph: seq<Phdr>, s: seq<nat>, key: nat, n: nat)
    requires InTable(ph, s) && key < |ph| && n <= |s|
    requires forall k :: |s| - n <= k < |s| ==> ph[s[k]].paddr > ph[key].paddr
    requires n < |s| ==> ph[s[|s| - n - 1]].paddr <= ph[key].paddr
    ensures Above(ph, s, key) == n
  {}

  /** The part of the file a program header describes. */
  function SegmentOf(src: seq<Byte>, h: Phdr): Segment {
    Segment(h.paddr, if h.offset + h.filesz <= |src| then src[h.offset..h.offset + h.filesz] else [])
  }

  function Segments(src: seq<Byte>, ph: seq<Phdr>, order: seq<nat>): (ss: seq<Segment>)
    requires InTable(ph, order)
    ensures |ss| == |order| && forall k :: 0 <= k < |ss| ==> ss[k] == SegmentOf(src, ph[order[k]])
  {
    seq(|order|, k requires 0 <= k < |order| => SegmentOf(src, ph[order[k]]))
  }

  lemma SegmentsAscending(src: seq<Byte>, ph: seq<Phdr>, order: seq<nat>)
    requires InTable(ph, order) && Ordered(ph, order) && order != []
    ensures Ascending(Segments(src, ph, order))
  {}

  // ----- The image in terms of the program headers -----

  /** No two loadable segments share an address. */
  ghost predicate Disjoint(ph: seq<Phdr>) {
    forall i, j :: 0 <= i < |ph| && 0 <= j < |ph| && i != j && IsLoad(ph[i]) && IsLoad(ph[j]) ==>
      ph[i].paddr + ph[i].filesz <= ph[j].paddr || ph[j].paddr + ph[j].filesz <= ph[i].paddr
  }

  /** Place x of the image belongs to segment i. */
  predicate At(ph: seq<Phdr>, i: nat, base: nat, x: nat)
    requires i < |ph|
  {
    IsLoad(ph[i]) && ph[i].paddr <= base + x < ph[i].paddr + ph[i].filesz
  }

  /** data holds, from the lowest load address on and up to the last end, the file bytes of every loadable segment at
      its load address, and zeros elsewhere. */
  ghost predicate FlatImage(src: seq<Byte>, ph: seq<Phdr>, data: seq<Byte>, base: nat) {
    && (forall i :: 0 <= i < |ph| && IsLoad(ph[i]) ==>
          base <= ph[i].paddr && ph[i].paddr + ph[i].filesz <= base + |data| && ph[i].offset + ph[i].filesz <= |src|)
    && (exists i :: 0 <= i < |ph| && IsLoad(ph[i]) && ph[i].paddr == base)
    && (exists i :: 0 <= i < |ph| && IsLoad(ph[i]) && ph[i].paddr + ph[i].filesz == base + |data|)
    && (forall i, x {:trigger At(ph, i, base, x)} :: 0 <= i < |ph| && 0 <= x < |data| && At(ph, i, base, x) ==>
          data[x] == src[ph[i].offset + (base + x - ph[i].paddr)])
    && (forall x :: 0 <= x < |data| ==> data[x] == 0 || exists i :: 0 <= i < |ph| && At(ph, i, base, x))
  }

  /** o is an order of all loadable segments, each once, ascending in load address. */
  ghost predicate LoadOrder(ph: seq<Phdr>, o: seq<nat>) {
    && InTable(ph, o) && Ordered(ph, o)
    && (forall i :: 0 <= i < |ph| ==> (IsLoad(ph[i]) <==> i in o))
    && (forall j, k :: 0 <= j < k < |o| ==> o[j] != o[k])
  }

  lemma {:induction false} AscendingOnce(s: seq<nat>, x: nat)
    requires forall j, k :: 0 <= j < k < |s| ==> s[j] < s[k]
    ensures multiset(s)[x] <= 1
  {
    if s != [] {
      AscendingOnce(s[1..], x);
      assert s == [s[0]] + s[1..];
      forall k | 0 <= k < |s[1..]| ensures s[0] < s[1..][k] {}
    }
  }

  lemma TwiceInBag(o: seq<nat>, i: nat, j: nat)
    requires i < j < |o| && o[i] == o[j]
    ensures multiset(o)[o[i]] >= 2
  {
    assert o == o[..i] + [o[i]] + o[i + 1..j] + [o[j]] + o[j + 1..];
  }

  lemma SortedIsLoadOrder(ph: seq<Phdr>)
    ensures LoadOrder(ph, SortedBy(ph, Loads(ph)))
  {
    hide SortedBy, Ordered, Loads, IsLoad;
    var l, o := Loads(ph), SortedBy(ph, Loads(ph));
    LoadsComplete(ph);
    SortedIsOrderedPermutation(ph, l);
    forall i | 0 <= i < |ph| ensures IsLoad(ph[i]) <==> i in o {
      assert i in o <==> i in multiset(o);
      assert i in l <==> i in multiset(l);
    }
    forall j, k | 0 <= j < k < |o| ensures o[j] != o[k] {
      AscendingOnce(l, o[j]);
      if o[j] == o[k] { TwiceInBag(o, j, k); }
    }
  }

  /** In load order no segment reaches into the next exactly when no two share an address. */
  lemma SeparateIff(src: seq<Byte>, ph: seq<Phdr>, o: seq<nat>)
    requires LoadOrder(ph, o) && forall k :: 0 <= k < |ph| && IsLoad(ph[k]) ==> InFile(src, ph[k])
    ensures Separate(Segments(src, ph, o)) <==> Disjoint(ph)
  {
    hide InFile;
    var ss := Segments(src, ph, o);
    OrderSizes(src, ph, o);
    if Disjoint(ph) {
      forall k | 0 <= k < |ss| - 1 ensures ss[k].paddr + |ss[k].bytes| <= ss[k + 1].paddr {
        assert o[k] in o && o[k + 1] in o;
        assert ph[o[k]].paddr <= ph[o[k + 1]].paddr;
      }
    }
    if Separate(ss) {
      forall i, j | 0 <= i < |ph| && 0 <= j < |ph| && i != j && IsLoad(ph[i]) && IsLoad(ph[j])
        ensures ph[i].paddr + ph[i].filesz <= ph[j].paddr || ph[j].paddr + ph[j].filesz <= ph[i].paddr
      {
        var x :| 0 <= x < |o| && o[x] == i;
        var y :| 0 <= y < |o| && o[y] == j;
        SegmentsAscending(src, ph, o);
        if x < y { EndsBefore(ss, x, y); } else { EndsBefore(ss, y, x); }
      }
    }
  }

  lemma OrderSizes(src: seq<Byte>, ph: seq<Phdr>, o: seq<nat>)
    requires LoadOrder(ph, o) && forall k :: 0 <= k < |ph| && IsLoad(ph[k]) ==> InFile(src, ph[k])
    ensures var ss := Segments(src, ph, o);
            forall k {:trigger ss[k]} :: 0 <= k < |ss| ==>
              && IsLoad(ph[o[k]]) && InFile(src, ph[o[k]])
              && |ss[k].bytes| == ph[o[k]].filesz && ss[k].paddr == ph[o[k]].paddr
  {
    hide Ordered, InFile, IsLoad;
    var ss := Segments(src, ph, o);
    forall k {:trigger ss[k]} | 0 <= k < |ss|
      ensures IsLoad(ph[o[k]]) && InFile(src, ph[o[k]])
      ensures |ss[k].bytes| == ph[o[k]].filesz && ss[k].paddr == ph[o[k]].paddr
    {
      assert o[k] in o;
      SegmentSize(src, ph[o[k]]);
    }
  }

  lemma PlaceInOrder(ph: seq<Phdr>, o: seq<nat>, i: nat) returns (k: nat)
    requires LoadOrder(ph, o) && i < |ph| && IsLoad(ph[i])
    ensures k < |o| && o[k] == i
  {
    hide Ordered, IsLoad;
    k :| 0 <= k < |o| && o[k] == i;
  }

  /** The image begins at the lowest load address and ends at the highest end. */
  lemma ImageBounds(src: seq<Byte>, ph: seq<Phdr>, o: seq<nat>, data: seq<Byte>, i: nat)
    requires InTable(ph, o) && LoadOrder(ph, o) && o != []
    requires forall k :: 0 <= k < |ph| && IsLoad(ph[k]) ==> InFile(src, ph[k])
    requires Separate(Segments(src, ph, o)) && IsImage(data, Segments(src, ph, o)) && i < |ph| && IsLoad(ph[i])
    ensures var base := ph[o[0]].paddr;
            && base <= ph[i].paddr && ph[i].paddr + ph[i].filesz <= base + |data|
            && ph[i].offset + ph[i].filesz <= |src|
  {
    hide LoadOrder, IsLoad, Separate, SegmentOf, Ascending;
    assert InFile(src, ph[i]);
    var ss := Segments(src, ph, o);
    OrderSizes(src, ph, o);
    OrderAscends(src, ph, o);
    var k := PlaceInOrder(ph, o, i);
    assert ss[k].paddr == ph[i].paddr && ss[0].paddr == ph[o[0]].paddr;
    EndsWithin(ss, k);
  }

  lemma OrderAscends(src: seq<Byte>, ph: seq<Phdr>, o: seq<nat>)
    requires InTable(ph, o) && LoadOrder(ph, o) && o != []
    ensures Ascending(Segments(src, ph, o))
  {
    SegmentsAscending(src, ph, o);
  }

  lemma ImageByte(src: seq<Byte>, ph: seq<Phdr>, o: seq<nat>, data: seq<Byte>, i: nat, x: nat)
    requires InTable(ph, o) && LoadOrder(ph, o) && o != []
    requires forall k :: 0 <= k < |ph| && IsLoad(ph[k]) ==> InFile(src, ph[k])
    requires IsImage(data, Segments(src, ph, o))
    requires i < |ph| && x < |data| && At(ph, i, ph[o[0]].paddr, x)
    ensures ph[i].offset + (ph[o[0]].paddr + x - ph[i].paddr) < |src|
    ensures data[x] == src[ph[i].offset + (ph[o[0]].paddr + x - ph[i].paddr)]
  {
    hide LoadOrder, IsLoad, SegmentOf, InFile;
    var ss := Segments(src, ph, o);
    OrderSizes(src, ph, o);
    var k := PlaceInOrder(ph, o, i);
    assert ss[0].paddr == ph[o[0]].paddr;
    assert ss[k] == SegmentOf(src, ph[i]) && InSegment(ss, k, x);
    SegmentByte(src, ph[i], ph[o[0]].paddr + x - ph[i].paddr);
  }

  lemma SegmentByte(src: seq<Byte>, h: Phdr, y: nat)
    requires InFile(src, h) && y < h.filesz
    ensures h.offset + y < |src| && |SegmentOf(src, h).bytes| == h.filesz
    ensures SegmentOf(src, h).bytes[y] == src[h.offset + y]
  {}

  lemma ImageGap(src: seq<Byte>, ph: seq<Phdr>, o: seq<nat>, data: seq<Byte>, x: nat)
    requires InTable(ph, o) && LoadOrder(ph, o) && o != []
    requires forall k :: 0 <= k < |ph| && IsLoad(ph[k]) ==> InFile(src, ph[k])
    requires IsImage(data, Segments(src, ph, o)) && x < |data| && data[x] != 0
    ensures exists i :: 0 <= i < |ph| && At(ph, i, ph[o[0]].paddr, x)
  {
    hide LoadOrder, IsLoad;
    var ss := Segments(src, ph, o);
    OrderSizes(src, ph, o);
    var k :| 0 <= k < |ss| && InSegment(ss, k, x);
    assert ss[0].paddr == ph[o[0]].paddr && ss[k].paddr == ph[o[k]].paddr;
    assert At(ph, o[k], ph[o[0]].paddr, x);
  }

  /** The flat image of the ordered segments is that of the program headers. */
  lemma FlatFromOrdered(src: seq<Byte>, ph: seq<Phdr>, o: seq<nat>, data: seq<Byte>)
    requires InTable(ph, o) && LoadOrder(ph, o) && o != []
    requires forall k :: 0 <= k < |ph| && IsLoad(ph[k]) ==> InFile(src, ph[k])
    requires Separate(Segments(src, ph, o)) && IsImage(data, Segments(src, ph, o))
    ensures FlatImage(src, ph, data, ph[o[0]].paddr)
  {
    hide IsLoad, LoadOrder, Separate, InFile;
    var ss, base, n := Segments(src, ph, o), ph[o[0]].paddr, |o| - 1;
    OrderSizes(src, ph, o);
    assert ss[n].paddr == ph[o[n]].paddr && ss[0].paddr == base;
    forall i | 0 <= i < |ph| && IsLoad(ph[i])
      ensures base <= ph[i].paddr && ph[i].paddr + ph[i].filesz <= base + |data|
      ensures ph[i].offset + ph[i].filesz <= |src|
    {
      ImageBounds(src, ph, o, data, i);
    }
    forall i, x {:trigger At(ph, i, base, x)} | 0 <= i < |ph| && 0 <= x < |data| && At(ph, i, base, x)
      ensures ph[i].offset + (base + x - ph[i].paddr) < |src|
              && data[x] == src[ph[i].offset + (base + x - ph[i].paddr)]
    {
      ImageByte(src, ph, o, data, i, x);
    }
    forall x | 0 <= x < |data| && data[x] != 0 ensures exists i :: 0 <= i < |ph| && At(ph, i, base, x) {
      ImageGap(src, ph, o, data, x);
    }
  }

  /** The segment data lies in the file and fits the copy buffer, and addresses stay in the positive range of an int. */
  predicate InFile(src: seq<Byte>, h: Phdr) {
    h.offset + h.filesz <= |src| && h.filesz <= BUF_SIZE && h.paddr + h.filesz < 0x8000_0000
  }

  lemma LoadsNone(ph: seq<Phdr>)
    ensures Loads(ph) != [] <==> exists i :: 0 <= i < |ph| && IsLoad(ph[i])
  {
    hide IsLoad, Loads;
    LoadsComplete(ph);
    if Loads(ph) != [] { assert Loads(ph)[0] in Loads(ph); }
  }

  /** The order computed is fit for placing the segments. */
  lemma OrderReady(src: seq<Byte>, ph: seq<Phdr>)
    requires Loads(ph) != [] && forall k :: 0 <= k < |ph| && IsLoad(ph[k]) ==> InFile(src, ph[k])
    ensures var o := SortedBy(ph, Loads(ph));
            Ascending(Segments(src, ph, o)) && forall k :: 0 <= k < |o| ==> InFile(src, ph[o[k]])
  {
    hide InFile, SortedBy, IsLoad, Loads, Ascending, Ordered;
    var o := SortedBy(ph, Loads(ph));
    SortedIsLoadOrder(ph);
    OrderAscends(src, ph, o);
    forall k | 0 <= k < |o| ensures InFile(src, ph[o[k]]) { assert o[k] in o; }
  }

  /** data is the output of the loadable segments in load order. */
  ghost predicate Converted(src: seq<Byte>, ph: seq<Phdr>, data: seq<Byte>) {
    var ss := Segments(src, ph, SortedBy(ph, Loads(ph)));
    Ascending(ss) && data == Output(ss)
  }

  lemma ConvertedIsFlat(src: seq<Byte>, ph: seq<Phdr>, data: seq<Byte>)
    requires forall k :: 0 <= k < |ph| && IsLoad(ph[k]) ==> InFile(src, ph[k])
    requires Loads(ph) != [] && Converted(src, ph, data)
    ensures Disjoint(ph) ==> exists base :: FlatImage(src, ph, data, base)
  {
    hide Ascending, Output, SortedBy, InFile, IsLoad, Loads, Separate, IsImage, LoadOrder, Disjoint, FlatImage;
    var o := SortedBy(ph, Loads(ph));
    var ss := Segments(src, ph, o);
    SortedIsLoadOrder(ph);
    SeparateIff(src, ph, o);
    if Separate(ss) {
      OutputIsImage(ss);
      FlatFromOrdered(src, ph, o, data);
    }
  }

  /** main, from the program headers on: fails exactly when nothing is loadable; otherwise the output is that of the
      loadable segments in ascending order, however reads and writes are cut up, and is the flat image of the program
      headers if no two loadable segments share an address. */
  method Convert(src: seq<Byte>, ph: seq<Phdr>, partial: nat -> nat) returns (ok: bool, data: seq<Byte>)
    requires |ph| <= MAX_PHNUM && forall k :: 0 <= k < |ph| && IsLoad(ph[k]) ==> InFile(src, ph[k])
    ensures ok ==> Converted(src, ph, data)
    ensures ok <==> exists i :: 0 <= i < |ph| && IsLoad(ph[i])
    ensures ok && Disjoint(ph) ==> exists base :: FlatImage(src, ph, data, base)
  {
    hide Ascending, Output, SortedBy, InFile, IsLoad, Loads, Disjoint, FlatImage, Segments;
    var order := new nat[MAX_PHNUM];
    var nload := Collect(ph, order);
    Sort(ph, order, nload);
    LoadsNone(ph);
    if nload == 0 {
      return false, [];
    }
    OrderReady(src, ph);
    data := Place(src, ph, order, nload, partial);
    ConvertedIsFlat(src, ph, data);
    ok := true;
  }

  /** The loop that writes the segments. */
  method Place(src: seq<Byte>, ph: seq<Phdr>, order: array<nat>, nload: nat, partial: nat -> nat)
      returns (data: seq<Byte>)
    requires 0 < nload <= order.Length && InTable(ph, order[..nload])
    requires forall k :: 0 <= k < nload ==> InFile(src, ph[order[k]])
    requires Ascending(Segments(src, ph, order[..nload]))
    ensures data == Output(Segments(src, ph, order[..nload]))
  {
    hide Ascending, Output, InFile, SegmentOf, Gap, Zeros, Written, FromBase;
    ghost var o := order[..nload];
    ghost var ss := Segments(src, ph, o);
    var base := ph[order[0]].paddr;
    assert ss[0] == SegmentOf(src, ph[o[0]]);
    SegmentSize(src, ph[order[0]]);
    var out := new OutFile(partial);
    var written := 0;
    var i := 0;
    while i < nload
      invariant i <= nload && order[..nload] == o && out.pos == |out.data|
      invariant i == 0 ==> out.data == [] && written == 0
      invariant i > 0 ==> FromBase(ss[..i]) && out.data == Output(ss[..i]) && written == Written(ss[..i])
    {
      var h := ph[order[i]];
      PrefixFromBase(ss, i + 1);
      OutputStep(ss, i);
      SegmentSize(src, h);
      assert ss[i] == SegmentOf(src, h) && ss[0].paddr == base;
      PutSegment(out, src, h, base, written, partial);
      written := (h.paddr - base) + h.filesz;
      i := i + 1;
    }
    assert ss[..nload] == ss;
    return out.data;
  }

  method PutSegment(out: OutFile, src: seq<Byte>, h: Phdr, base: nat, written: nat, partial: nat -> nat)
    requires base <= h.paddr && InFile(src, h) && out.pos == |out.data|
    modifies out
    ensures out.pos == |out.data|
    ensures out.data == old(out.data) + Zeros(Gap(base, written, SegmentOf(src, h))) + SegmentOf(src, h).bytes
  {
    var gap := (h.paddr - base) - written;
    if gap > 0 {
      out.WriteSpace(gap);
    }
    var buf := Readn(src, h.offset, h.filesz, partial);
    var n := out.Writen(buf);
  }

  /** Two segments of two bytes and one byte, the second loaded at the second byte of the first: it lands one byte too
      far. */
  lemma OverlapWitness()
    ensures var src, ph := [7, 8, 9], [Phdr(PT_LOAD, 4096, 0, 2), Phdr(PT_LOAD, 4097, 2, 1)];
            var ss := Segments(src, ph, SortedBy(ph, Loads(ph)));
            && (forall k :: 0 <= k < |ph| ==> IsLoad(ph[k]) && InFile(src, ph[k]))
            && ss == [Segment(4096, [7, 8]), Segment(4097, [9])]
            && Landing(ss, 1) == 2 != ss[1].paddr - ss[0].paddr
            && Output(ss) == [7, 8, 9]
  {
    hide Loads, SortedBy, Output, Landing, Ascending, FromBase;
    var ph := [Phdr(PT_LOAD, 4096, 0, 2), Phdr(PT_LOAD, 4097, 2, 1)];
    TwoLoads(ph);
    TwoSorted(ph);
    var src: seq<Byte> := [7, 8, 9];
    var ss := Segments(src, ph, [0, 1]);
    assert src[0..2] == [7, 8] && src[2..3] == [9];
    assert ss[0] == SegmentOf(src, ph[0]) && ss[1] == SegmentOf(src, ph[1]);
    assert ss == [ss[0], ss[1]];
    TwoLanding(Segment(4096, [7, 8]), Segment(4097, [9]));
  }

  lemma TwoLoads(ph: seq<Phdr>)
    requires |ph| == 2 && IsLoad(ph[0]) && IsLoad(ph[1])
    ensures Loads(ph) == [0, 1]
  {
    assert ph[..1][..0] == [];
    assert Loads(ph[..1]) == [0];
  }

  lemma TwoSorted(ph: seq<Phdr>)
    requires |ph| == 2 && ph[0].paddr <= ph[1].paddr
    ensures SortedBy(ph, [0, 1]) == [0, 1]
  {
    assert SortedBy(ph, [0]) == [0];
    assert [0, 1][..1] == [0];
    assert Above(ph, [0], 1) == 0;
  }

  lemma TwoLanding(a: Segment, b: Segment)
    requires a.paddr <= b.paddr < a.paddr + |a.bytes|
    ensures FromBase([a, b]) && Landing([a, b], 1) == |a.bytes| && Output([a, b]) == a.bytes + b.bytes
  {
    assert [a, b][..1] == [a];
  }

  lemma SegmentSize(src: seq<Byte>, h: Phdr)
    requires InFile(src, h)
    ensures |SegmentOf(src, h).bytes| == h.filesz && SegmentOf(src, h).paddr == h.paddr
  {}

  lemma PrefixFromBase(ss: seq<Segment>, n: nat)
    requires Ascending(ss) && 0 < n <= |ss|
    ensures FromBase(ss[..n]) && ss[0].paddr <= ss[n - 1].paddr
  {}

  lemma OutputStep(ss: seq<Segment>, i: nat)
    requires i < |ss| && FromBase(ss[..i + 1]) && ss[0].paddr <= ss[i].paddr
    ensures Written(ss[..i + 1]) == ss[i].paddr - ss[0].paddr + |ss[i].bytes|
    ensures i == 0 ==> Output(ss[..1]) == [] + Zeros(Gap(ss[0].paddr, 0, ss[0])) + ss[0].bytes
    ensures i > 0 ==> FromBase(ss[..i])
    ensures i > 0 ==>
              Output(ss[..i + 1]) == Output(ss[..i]) + Zeros(Gap(ss[0].paddr, Written(ss[..i]), ss[i])) + ss[i].bytes
  {
    assert ss[..i + 1][..i] == ss[..i];
  }
}
