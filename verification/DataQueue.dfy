/** Data queues (kernel/sys_dtq.c): a ring of dtqcnt words that is full with one word unused, forced sends that
    overwrite the oldest word, and direct hand-off to waiting receivers. Word addresses are offsets from dtq. */
module DataQueue {
  import opened Circular
  import opened Channel
  import opened WaitQueue

  type Word = x: int | 0 <= x < 0x1_0000_0000

  const E_OK := 0
  const E_TMOUT := -50

  const TA_TFIFO := 0

  class Dtq {
    const ring: array<Word>
    const dtqatr: int
    var r: nat
    var w: nat
    var waiters: seq<Receiver>
    var data: map<nat, Word>
    ghost var out: seq<Exit<Word>>

    /** The words a data queue can hold: one fewer than it has. */
    ghost function Capacity(): nat
      requires 0 < ring.Length
    {
      ring.Length - 1
    }

    ghost predicate Valid()
      reads this, ring
    {
      0 < ring.Length && r < ring.Length && w < ring.Length
    }

    ghost function View(): (c: Chan<Word>)
      requires Valid()
      reads this, ring
      ensures |c.items| <= Capacity()
    {
      Chan(Stored(ring[..], r, w), waiters, out)
    }

    constructor (dtqcnt: nat, atr: int)
      requires dtqcnt > 0
      ensures Valid() && fresh(ring) && ring.Length == dtqcnt && dtqatr == atr && View() == Chan([], [], [])
    {
      ring := new Word[dtqcnt];
      dtqatr := atr;
      r, w, waiters, data := 0, 0, [], map[];
      out := [];
    }

    method Advance(p: nat) returns (next: nat)
      requires p < ring.Length
      ensures next == Slot(ring.Length, p, 1)
    {
      next := p + 1;
      if next >= ring.Length {
        next := 0;
      }
    }

    /** The word goes straight to the first waiting receiver. */
    method HandTo(x: Word)
      requires Valid() && waiters != []
      modifies `waiters, `data, `out
      ensures Valid() && View() == HandOff(old(View()), x) && data == old(data)[old(waiters)[0].id := x]
    {
      data := data[waiters[0].id := x];
      out := out + [Exit(To(waiters[0].id), x)];
      waiters := waiters[1..];
    }

    method Store(x: Word, nextW: nat)
      requires Valid() && nextW == Slot(ring.Length, w, 1) && Used(ring.Length, r, w) + 1 < ring.Length
      modifies `w, ring
      ensures Valid() && View() == old(View()).(items := old(View()).items + [x])
    {
      hide Stored, Used, Slot;
      AppendOne(ring[..], r, w, x);
      ghost var buf := ring[..];
      ring[w] := x;
      assert ring[..] == buf[w := x];
      w := nextW;
    }

    /** psnd_dtq, and tsnd_dtq when it polls: fails exactly when nobody waits and dtqcnt - 1 words are stored. */
    method PsndDtq(x: Word) returns (er: int)
      requires Valid()
      modifies this, ring
      ensures Valid() && View() == Step(old(View()), Send(x, |old(View()).items| < Capacity()))
      ensures waiters == if old(waiters) != [] then old(waiters)[1..] else []
      ensures er == if old(waiters) == [] && |old(View()).items| == Capacity() then E_TMOUT else E_OK
      ensures data == if old(waiters) != [] then old(data)[old(waiters)[0].id := x] else old(data)
    {
      Take(ring[..], r, w, 0);
      var nextW := Advance(w);
      if waiters != [] {
        HandTo(x);
        return E_OK;
      }
      if nextW == r {
        return E_TMOUT;
      }
      Store(x, nextW);
      er := E_OK;
    }

    /** fsnd_dtq: on a full queue the oldest word is dropped to make room. */
    method FsndDtq(x: Word) returns (er: int)
      requires Valid()
      modifies this, ring
      ensures Valid() && er == E_OK && View() == Step(old(View()), Force(x, Capacity()))
      ensures waiters == if old(waiters) != [] then old(waiters)[1..] else []
      ensures data == if old(waiters) != [] then old(data)[old(waiters)[0].id := x] else old(data)
    {
      hide Stored, Used, Slot;
      ghost var c, buf := View(), ring[..];
      StoredLength(buf, r, w);
      FullIff(ring.Length, r, w);
      var nextW := Advance(w);
      if waiters != [] {
        HandTo(x);
        return E_OK;
      }
      if nextW == r {
        Overwrite(buf, r, w, x);
        out := out + [Exit(Dropped, (c.items + [x])[0])];
        r := Advance(r);
      } else {
        AppendOne(buf, r, w, x);
      }
      ring[w] := x;
      assert ring[..] == buf[w := x];
      w := nextW;
      er := E_OK;
    }

    /** prcv_dtq and trcv_dtq: the oldest word, or E_TMOUT when polling, or a place in the receivers' queue. */
    method TrcvDtq(who: Receiver, poll: bool) returns (er: int, x: Word)
      requires Valid()
      modifies this
      ensures Valid() && View() == Step(old(View()), Receive(who, poll, dtqatr == TA_TFIFO))
      ensures if old(View()).items != [] then er == E_OK && x == old(View()).items[0]
              else er == if poll then E_TMOUT else E_OK
    {
      Take(ring[..], r, w, 0);
      x := 0;
      if w != r {
        Take(ring[..], r, w, 1);
        x := ring[r];
        out := out + [Exit(To(who.id), x)];
        r := Advance(r);
        return E_OK, x;
      }
      if poll {
        return E_TMOUT, x;
      }
      waiters := Insert(waiters, who, dtqatr == TA_TFIFO);
      er := E_OK;
    }

    /** A receiver's wait ends by timeout. */
    method ReceiverTimeout(id: nat)
      requires Valid()
      modifies `waiters
      ensures Valid() && View() == Step(old(View()), Leave(id))
    {
      waiters := Delete(waiters, id);
    }

    /** ref_dtq.  No task ever waits to send here, so stskid is TSK_NONE. */
    method RefDtq() returns (stskid: nat, rtskid: nat, count: int)
      requires Valid()
      ensures stskid == 0 && rtskid == (if waiters == [] then 0 else waiters[0].id) && count == |View().items|
    {
      Take(ring[..], r, w, 0);
      stskid := 0;
      rtskid := if waiters != [] then waiters[0].id else 0;
      if w >= r {
        count := w - r;
      } else {
        count := ring.Length - (r - w);
      }
    }
  }
}
