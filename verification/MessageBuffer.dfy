/** Message buffers (kernel/sys_mbf.c): variable-size messages with a four-byte length in a wrapping byte ring.

    Addresses are offsets from mbf, so mbf is 0 and mbf_end is |ring| - 1. */
module MessageBuffer {
  import opened Circular
  import opened Channel
  import opened WaitQueue

  type Byte = x: int | 0 <= x < 256

  const E_OK := 0
  const E_TMOUT := -50

  const WORD32 := 0x1_0000_0000

  /** An unsigned long as it lies in memory, lowest byte first. */
  function Bytes4(v: nat): (b: seq<Byte>)
    requires v < WORD32
    ensures |b| == 4
  {
    var a := v / 256;
    var b := a / 256;
    var c := b / 256;
    [v % 256, a % 256, b % 256, c]
  }

  function Value4(b: seq<Byte>): nat
    requires |b| == 4
  {
    (b[0] as int) + 256 * ((b[1] as int) + 256 * ((b[2] as int) + 256 * (b[3] as int)))
  }

  lemma Bytes4Value4(v: nat)
    requires v < WORD32
    ensures Value4(Bytes4(v)) == v
  {}

  type Message = m: seq<Byte> | |m| < WORD32 witness []

  function Framed(m: Message): seq<Byte> { Bytes4(|m|) + m }

  /** The bytes a queue of messages occupies. */
  function Encode(q: seq<Message>): seq<Byte> {
    if q == [] then [] else Framed(q[0]) + Encode(q[1..])
  }

  lemma {:induction false} EncodeAppend(q: seq<Message>, m: Message)
    ensures Encode(q + [m]) == Encode(q) + Framed(m)
  {
    if q == [] {
      assert [m][1..] == [] && q + [m] == [m];
    } else {
      EncodeAppend(q[1..], m);
      assert (q + [m])[1..] == q[1..] + [m];
      assert Framed(q[0]) + (Encode(q[1..]) + Framed(m)) == (Framed(q[0]) + Encode(q[1..])) + Framed(m);
    }
  }

  /** Different queues of messages have different encodings, so the ring determines its messages. */
  lemma {:induction false} EncodeInjective(p: seq<Message>, q: seq<Message>)
    requires Encode(p) == Encode(q)
    ensures p == q
  {
    if p != [] && q != [] {
      FirstMessage(p);
      FirstMessage(q);
      EncodeInjective(p[1..], q[1..]);
      assert p == [p[0]] + p[1..] && q == [q[0]] + q[1..];
    }
  }

  lemma SplitFrame(h: seq<Byte>, m: seq<Byte>, rest: seq<Byte>)
    requires |h| == 4
    ensures var b := (h + m) + rest; b[..4] == h && b[4..][..|m|] == m && b[4..][|m|..] == rest
  {
    assert ((h + m) + rest)[4..] == m + rest;
  }

  /** Reading a length and then that many bytes yields the oldest message and leaves the rest. */
  lemma FirstMessage(q: seq<Message>)
    requires q != []
    ensures var b := Encode(q);
            && |b| >= 4 + |q[0]| && Value4(b[..4]) == |q[0]| && b[4..][..|q[0]|] == q[0]
            && b[4..][|q[0]|..] == Encode(q[1..])
  {
    hide Bytes4, Value4;
    Bytes4Value4(|q[0]|);
    SplitFrame(Bytes4(|q[0]|), q[0], Encode(q[1..]));
  }

  // ----- Space -----

  /** The byte count mbf_rest computes before it subtracts the size of a header. */
  function RawRest(n: nat, r: nat, w: nat): nat
    requires r < n && w < n
  {
    if w < r then r - w else n - 1 - w + r
  }

  /** mbf_rest: the subtraction is unsigned. */
  function Rest(n: nat, r: nat, w: nat): nat
    requires r < n && w < n
  {
    (RawRest(n, r, w) - 4) % WORD32
  }

  predicate Admits(n: nat, r: nat, w: nat, size: nat)
    requires r < n && w < n
  {
    size < Rest(n, r, w)
  }

  /** The message and its header leave at least one byte of the ring unused. */
  predicate Fits(n: nat, r: nat, w: nat, size: nat)
    requires r < n && w < n
  {
    Used(n, r, w) + 4 + size < n
  }

  /** The admission test keeps every accepted message, with its header, inside the ring exactly when at least a header's
      worth of bytes is left; with fewer, mbf_rest wraps, nothing fits, and messages are accepted all the same. A caller
      can tell: the free size ref_mbf reports is then larger than the ring. */
  lemma AdmissionSafeIff(n: nat, r: nat, w: nat)
    requires r < n <= 0x8000_0000 && w < n
    ensures (forall size: nat :: Admits(n, r, w, size) ==> Fits(n, r, w, size)) <==> RawRest(n, r, w) >= 4
    ensures RawRest(n, r, w) >= 4 <==> Rest(n, r, w) < n
    ensures RawRest(n, r, w) < 4 ==> forall size: nat :: !Fits(n, r, w, size)
  {
    if RawRest(n, r, w) < 4 {
      assert Admits(n, r, w, 1) && !Fits(n, r, w, 1);
    }
  }

  /** The unsafe state is reached by one admitted message (13 bytes, empty, a message of 5); a second one is accepted
      then, and of the 14 bytes stored the ring holds 1. */
  lemma AdmissionWraps()
    ensures Admits(13, 0, 0, 5) && Fits(13, 0, 0, 5) && RawRest(13, 0, Slot(13, 0, 9)) == 3
    ensures Admits(13, 0, 9, 1) && !Fits(13, 0, 9, 1) && Used(13, 0, Slot(13, 9, 5)) == 1
  {}

  /** An admitted message leaves less than a header's worth of space exactly when its size is one of the three largest
      that are admitted, or one of the two largest if it reaches the end of the ring. */
  lemma BecomesUnsafeIff(n: nat, r: nat, w: nat, size: nat)
    requires r < n < WORD32 && w < n && RawRest(n, r, w) >= 4 && size < Rest(n, r, w)
    ensures var w' := Slot(n, w, 4 + size);
            RawRest(n, r, w') < 4 <==>
            if w < r || w + 4 + size < n then RawRest(n, r, w) < size + 8 else RawRest(n, r, w) < size + 7
  {}

  // ----- Geometry -----

  datatype Geometry = Geometry(base: nat, end: int)

  /** sys_cre_mbf: the start is rounded up and the last address down to a multiple of 4. */
  function RingGeometry(base: nat, size: nat): Geometry
    requires size > 0
  {
    var b := if base % 4 != 0 then base + (4 - base % 4) else base;
    var e := b + size - 1;
    Geometry(b, if e % 4 != 0 then e - e % 4 else e)
  }

  /** The ring has 4k + 1 bytes, and stays inside the buffer that was given exactly when rounding the start costs no
      more than rounding the end gives back. */
  lemma RingInsideIff(base: nat, size: nat)
    requires size > 0
    ensures var g := RingGeometry(base, size);
            && g.base % 4 == 0 && base <= g.base <= g.end && (g.end - g.base + 1) % 4 == 1
            && (g.end < base + size <==> (4 - base % 4) % 4 <= (size - 1) % 4)
  {}

  /** One byte at address 1 is rounded to address 4, outside the buffer. */
  lemma RingOutsideWitness()
    ensures RingGeometry(1, 1) == Geometry(4, 4)
  {}

  class Mbf {
    const ring: array<Byte>
    var r: nat
    var w: nat
    var smsgcnt: nat
    var waiters: seq<Receiver>
    var inbox: map<nat, Message>
    var result: map<nat, int>
    ghost var messages: seq<Message>
    ghost var out: seq<Exit<Message>>

    ghost predicate Valid()
      reads this, ring
    {
      && 0 < ring.Length <= 0x8000_0000 && r < ring.Length && w < ring.Length
      && Stored(ring[..], r, w) == Encode(messages)
      && smsgcnt == |messages|
    }

    ghost function View(): Chan<Message>
      reads this
    {
      Chan(messages, waiters, out)
    }

    constructor (base: nat, size: nat)
      requires 0 < size <= 0x8000_0000
      ensures Valid() && View() == Chan([], [], []) && fresh(ring)
      ensures ring.Length == RingGeometry(base, size).end - RingGeometry(base, size).base + 1
    {
      var b := base;
      if b % 4 != 0 {
        b := b + (4 - b % 4);
      }
      var e := b + size - 1;
      if e % 4 != 0 {
        e := e - e % 4;
      }
      ring := new Byte[e - b + 1];
      r, w, smsgcnt, waiters, inbox, result := 0, 0, 0, [], map[], map[];
      messages, out := [], [];
    }

    method MbfRest() returns (len: nat)
      requires Valid()
      ensures len == Rest(ring.Length, r, w)
    {
      var l: int;
      if w < r {
        l := r - w;
      } else {
        l := ring.Length - 1 - w;
        l := l + r;
      }
      len := (l - 4) % WORD32;
    }

    /** mbf_check is 0 exactly when there is no message. */
    method MbfCheck() returns (some: bool)
      requires Valid()
      ensures some <==> messages != []
    {
      some := !(w == r);
      if messages != [] {
        FirstMessage(messages);
      }
    }

    /** bcopy of n bytes of src, from offset from on, to ring offset at. */
    method CopyIn(src: seq<Byte>, from: nat, at: nat, n: nat)
      requires from + n <= |src| && at + n <= ring.Length
      modifies ring
      ensures forall j :: at <= j < at + n ==> ring[j] == src[from + j - at]
      ensures forall i :: 0 <= i < ring.Length && !(at <= i < at + n) ==> ring[i] == old(ring[i])
    {
      var k := 0;
      while k < n
        invariant k <= n
        invariant forall j :: at <= j < at + k ==> ring[j] == src[from + j - at]
        invariant forall i :: 0 <= i < ring.Length && !(at <= i < at + k) ==> ring[i] == old(ring[i])
      {
        ring[at + k] := src[from + k];
        k := k + 1;
      }
    }

    method CopyOut(at: nat, n: nat) returns (dst: seq<Byte>)
      requires at + n <= ring.Length
      ensures dst == ring[..][at..at + n]
    {
      dst := [];
      var k := 0;
      while k < n
        invariant k <= n && dst == ring[..][at..at + k]
      {
        dst := dst + [ring[at + k]];
        k := k + 1;
      }
    }

    /** mbf_do_put, with its three cases: contiguous free space, fits before the end, split across the end. */
    method MbfDoPut(bs: seq<Byte>)
      requires r < ring.Length && w < ring.Length && Used(ring.Length, r, w) + |bs| < ring.Length
      modifies `w, ring
      ensures w == Slot(ring.Length, old(w), |bs|)
      ensures Stored(ring[..], r, w) == old(Stored(ring[..], r, w)) + bs
    {
      if w < r {
        CopyIn(bs, 0, w, |bs|);
        w := w + |bs|;
      } else {
        if w + |bs| - 1 <= ring.Length - 1 {
          CopyIn(bs, 0, w, |bs|);
          w := w + |bs|;
        } else {
          var delta := (ring.Length - 1 - w) + 1;
          CopyIn(bs, 0, w, delta);
          w := 0;
          CopyIn(bs, delta, w, |bs| - delta);
          w := w + (|bs| - delta);
        }
      }
      if w > ring.Length - 1 {
        w := 0;
      }
      Append(old(ring[..]), ring[..], r, old(w), bs);
    }

    method MbfDoGet(n: nat) returns (bs: seq<Byte>)
      requires r < ring.Length && w < ring.Length && n <= Used(ring.Length, r, w)
      modifies `r
      ensures r == Slot(ring.Length, old(r), n)
      ensures n <= |old(Stored(ring[..], r, w))| && bs == old(Stored(ring[..], r, w))[..n]
      ensures Stored(ring[..], r, w) == old(Stored(ring[..], r, w))[n..]
    {
      hide Stored, Used;
      ghost var buf := ring[..];
      Take(buf, r, w, n);
      Oldest(buf, r, w, n);
      assert r < w ==> r + n <= w;
      if r < w {
        bs := CopyOut(r, n);
        r := r + n;
      } else {
        if r + n - 1 <= ring.Length - 1 {
          bs := CopyOut(r, n);
          r := r + n;
        } else {
          var delta := (ring.Length - 1 - r) + 1;
          bs := CopyOut(r, delta);
          r := 0;
          var more := CopyOut(r, n - delta);
          bs := bs + more;
          r := r + (n - delta);
        }
      }
      if r > ring.Length - 1 {
        r := 0;
      }
    }

    method MbfPut(m: Message)
      requires Valid() && Used(ring.Length, r, w) + 4 + |m| < ring.Length
      modifies `w, `smsgcnt, `messages, ring
      ensures Valid() && messages == old(messages) + [m] && w == Slot(ring.Length, old(w), 4 + |m|)
    {
      hide Stored, Used, Slot, Encode;
      EncodeAppend(messages, m);
      SlotTwice(ring.Length, r, w, 4, |m|);
      MbfDoPut(Bytes4(|m|));
      MbfDoPut(m);
      smsgcnt := smsgcnt + 1;
      messages := messages + [m];
    }

    method MbfGet() returns (m: Message)
      requires Valid() && messages != []
      modifies `r, `smsgcnt, `messages
      ensures Valid() && m == old(messages)[0] && messages == old(messages)[1..]
    {
      FirstMessage(messages);
      var header := MbfDoGet(4);
      var size := Value4(header);
      m := MbfDoGet(size);
      smsgcnt := smsgcnt - 1;
      messages := messages[1..];
    }

    /** psnd_mbf: to a waiting receiver if there is one, else into the ring if there is room. */
    method PsndMbf(m: Message) returns (er: int)
      requires Valid() && (waiters == [] ==> RawRest(ring.Length, r, w) >= 4)
      modifies this, ring
      ensures Valid()
      ensures View() == Step(old(View()), Send(m, |m| < Rest(ring.Length, old(r), old(w))))
      ensures er == if Accepted(old(View()), Send(m, |m| < Rest(ring.Length, old(r), old(w)))) == [m]
                    then E_OK else E_TMOUT
      ensures waiters == if old(waiters) != [] then old(waiters)[1..] else []
      ensures if old(waiters) != [] then
                inbox == old(inbox)[old(waiters)[0].id := m] && result == old(result)[old(waiters)[0].id := |m|]
              else inbox == old(inbox) && result == old(result)
    {
      if waiters != [] {
        var t := waiters[0];
        inbox := inbox[t.id := m];
        result := result[t.id := |m|];
        waiters := waiters[1..];
        out := out + [Exit(To(t.id), m)];
        return E_OK;
      }
      var rest := MbfRest();
      if |m| < rest {
        MbfPut(m);
        return E_OK;
      }
      er := E_TMOUT;
    }

    /** trcv_mbf: the oldest message, or E_TMOUT when polling, or a place in the receivers' queue. The attribute test in
        the source is never true, so the queue is always in priority order. */
    method TrcvMbf(who: Receiver, poll: bool) returns (er: int, m: Message)
      requires Valid()
      modifies this
      ensures Valid() && View() == Step(old(View()), Receive(who, poll, false))
      ensures if old(messages) != [] then m == old(messages)[0] && er == |m| else er == if poll then E_TMOUT else E_OK
    {
      m := [];
      var some := MbfCheck();
      if some {
        m := MbfGet();
        out := out + [Exit(To(who.id), m)];
        return |m|, m;
      }
      if poll {
        return E_TMOUT, m;
      }
      waiters := Insert(waiters, who, false);
      er := E_OK;
    }

    /** A receiver's wait ends by timeout. */
    method ReceiverTimeout(id: nat)
      requires Valid()
      modifies `waiters
      ensures Valid() && View() == Step(old(View()), Leave(id))
    {
      waiters := Delete(waiters, id);
    }

    /** ref_mbf.  No task ever waits to send here, so stskid is TSK_NONE. */
    method RefMbf() returns (stskid: nat, rtskid: nat, count: nat, free: nat)
      requires Valid()
      ensures stskid == 0 && rtskid == (if waiters == [] then 0 else waiters[0].id) && count == |messages|
      ensures free == Rest(ring.Length, r, w)
    {
      stskid := 0;
      rtskid := if waiters != [] then waiters[0].id else 0;
      count := smsgcnt;
      free := MbfRest();
    }
  }
}
