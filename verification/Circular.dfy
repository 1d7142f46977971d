/** Circular buffers with a read index r and a write index w, empty when they are equal: the layout shared by message
    buffers (kernel/sys_mbf.c) and data queues (kernel/sys_dtq.c). */
module Circular {
  /** The index i places after r in a ring of n places. */
  function Slot(n: nat, r: nat, i: nat): (s: nat)
    requires r < n && i <= n
    ensures s < n
  {
    if r + i < n then r + i else r + i - n
  }

  function Used(n: nat, r: nat, w: nat): (u: nat)
    requires r < n && w < n
    ensures u < n && Slot(n, r, u) == w
  {
    if r <= w then w - r else n - r + w
  }

  /** The contents, oldest first. */
  ghost function Stored<T>(buf: seq<T>, r: nat, w: nat): seq<T>
    requires r < |buf| && w < |buf|
  {
    if r <= w then buf[r..w] else buf[r..] + buf[..w]
  }

  lemma StoredAt<T>(buf: seq<T>, r: nat, w: nat, i: nat)
    requires r < |buf| && w < |buf| && i < Used(|buf|, r, w)
    ensures |Stored(buf, r, w)| == Used(|buf|, r, w) && Stored(buf, r, w)[i] == buf[Slot(|buf|, r, i)]
  {}

  lemma StoredLength<T>(buf: seq<T>, r: nat, w: nat)
    requires r < |buf| && w < |buf|
    ensures |Stored(buf, r, w)| == Used(|buf|, r, w)
  {}

  /** Writing bs into the places behind w, and nothing into the occupied ones, appends bs. */
  lemma Append<T>(buf: seq<T>, buf': seq<T>, r: nat, w: nat, bs: seq<T>)
    requires r < |buf| == |buf'| && w < |buf| && Used(|buf|, r, w) + |bs| < |buf|
    requires forall i :: 0 <= i < |bs| ==> buf'[Slot(|buf|, w, i)] == bs[i]
    requires forall i :: 0 <= i < Used(|buf|, r, w) ==> buf'[Slot(|buf|, r, i)] == buf[Slot(|buf|, r, i)]
    ensures Stored(buf', r, Slot(|buf|, w, |bs|)) == Stored(buf, r, w) + bs
  {
    var n, u, w' := |buf|, Used(|buf|, r, w), Slot(|buf|, w, |bs|);
    assert Used(n, r, w') == u + |bs|;
    forall i | 0 <= i < u + |bs| ensures Stored(buf', r, w')[i] == (Stored(buf, r, w) + bs)[i] {
      StoredAt(buf', r, w', i);
      if i < u {
        StoredAt(buf, r, w, i);
      } else {
        assert Slot(n, r, i) == Slot(n, w, i - u);
      }
    }
  }

  /** Advancing r by k takes the k oldest. */
  lemma Take<T>(buf: seq<T>, r: nat, w: nat, k: nat)
    requires r < |buf| && w < |buf| && k <= Used(|buf|, r, w)
    ensures |Stored(buf, r, w)| == Used(|buf|, r, w)
    ensures Stored(buf, Slot(|buf|, r, k), w) == Stored(buf, r, w)[k..]
  {
    hide Stored;
    var n, r' := |buf|, Slot(|buf|, r, k);
    assert Used(n, r', w) == Used(n, r, w) - k;
    StoredLength(buf, r, w);
    StoredLength(buf, r', w);
    forall i | 0 <= i < Used(n, r', w) ensures Stored(buf, r', w)[i] == Stored(buf, r, w)[k..][i] {
      StoredAt(buf, r', w, i);
      StoredAt(buf, r, w, k + i);
    }
  }

  /** The k oldest, as one or two pieces of the ring. */
  lemma Oldest<T>(buf: seq<T>, r: nat, w: nat, k: nat)
    requires r < |buf| && w < |buf| && k <= Used(|buf|, r, w)
    ensures |Stored(buf, r, w)| == Used(|buf|, r, w)
    ensures Stored(buf, r, w)[..k] ==
            if r + k <= |buf| then buf[r..r + k] else buf[r..|buf|] + buf[0..r + k - |buf|]
    ensures r < w ==> r + k <= w
  {}

  /** The place behind w is r exactly when n - 1 places are used. */
  lemma FullIff(n: nat, r: nat, w: nat)
    requires r < n && w < n
    ensures Slot(n, w, 1) == r <==> Used(n, r, w) == n - 1
  {}

  lemma AppendOne<T>(buf: seq<T>, r: nat, w: nat, x: T)
    requires r < |buf| && w < |buf| && Used(|buf|, r, w) + 1 < |buf|
    ensures Stored(buf[w := x], r, Slot(|buf|, w, 1)) == Stored(buf, r, w) + [x]
  {
    Append(buf, buf[w := x], r, w, [x]);
  }

  /** Writing one more into a full ring, with r moved on first, drops the oldest; so it does in a ring of one place. */
  lemma Overwrite<T>(buf: seq<T>, r: nat, w: nat, x: T)
    requires r < |buf| && w < |buf| && Used(|buf|, r, w) == |buf| - 1
    ensures Stored(buf[w := x], Slot(|buf|, r, 1), Slot(|buf|, w, 1)) == (Stored(buf, r, w) + [x])[1..]
  {
    hide Stored;
    var n := |buf|;
    StoredLength(buf, r, w);
    if n == 1 {
      StoredLength(buf[w := x], 0, 0);
    } else {
      Take(buf, r, w, 1);
      SlotTwice(n, r, w, 0, 0);
      AppendOne(buf, Slot(n, r, 1), w, x);
    }
  }

  /** Moving on by a places and then by b. */
  lemma SlotTwice(n: nat, r: nat, w: nat, a: nat, b: nat)
    requires r < n && w < n && Used(n, r, w) + a + b < n
    ensures Used(n, r, Slot(n, w, a)) == Used(n, r, w) + a
    ensures Slot(n, Slot(n, w, a), b) == Slot(n, w, a + b)
  {}
}
