/** Queues of waiting tasks in arrival or priority order (ins_fifo and ins_pri, kernel/sys_sem.c), with what each task
    waits for. */
module WaitQueue {
  datatype Waiter<T> = Waiter(id: nat, pri: nat, want: T)

  /** ins_pri, over the priorities of the waiters: behind every one that is the same or higher (a smaller number). */
  function Place(pris: seq<nat>, pri: nat): (i: nat)
    ensures i <= |pris|
    ensures forall k :: 0 <= k < i ==> pris[k] <= pri
    ensures i < |pris| ==> pri < pris[i]
  {
    if pris == [] || pri < pris[0] then 0
    else 1 + Place(pris[1..], pri)
  }

  function Pris<T>(ws: seq<Waiter<T>>): (p: seq<nat>)
    ensures |p| == |ws| && forall k :: 0 <= k < |ws| ==> p[k] == ws[k].pri
  {
    seq(|ws|, k requires 0 <= k < |ws| => ws[k].pri)
  }

  function Enqueue<T>(ws: seq<Waiter<T>>, who: Waiter<T>, fifo: bool): seq<Waiter<T>> {
    var i := if fifo then |ws| else Place(Pris(ws), who.pri);
    ws[..i] + [who] + ws[i..]
  }

  /** r is ws with who added: behind everybody, or behind those of the same or a higher priority and before all that
      follow a first one of a lower priority. */
  ghost predicate Joined<T(!new)>(ws: seq<Waiter<T>>, r: seq<Waiter<T>>, who: Waiter<T>, fifo: bool) {
    exists i :: 0 <= i <= |ws| && r == ws[..i] + [who] + ws[i..] && JoinsAt(ws, who, fifo, i)
  }

  predicate JoinsAt<T>(ws: seq<Waiter<T>>, who: Waiter<T>, fifo: bool, i: nat)
    requires i <= |ws|
  {
    if fifo then i == |ws|
    else (forall k :: 0 <= k < i ==> ws[k].pri <= who.pri) && (i < |ws| ==> who.pri < ws[i].pri)
  }

  lemma EnqueueJoins<T(!new)>(ws: seq<Waiter<T>>, who: Waiter<T>, fifo: bool)
    ensures Joined(ws, Enqueue(ws, who, fifo), who, fifo)
  {
    hide Place;
    var i := if fifo then |ws| else Place(Pris(ws), who.pri);
    forall k | !fifo && 0 <= k < i ensures ws[k].pri <= who.pri {
      assert Pris(ws)[k] <= who.pri;
    }
    assert JoinsAt(ws, who, fifo, i);
  }

  lemma JoinedBag<T(!new)>(ws: seq<Waiter<T>>, r: seq<Waiter<T>>, who: Waiter<T>, fifo: bool)
    requires Joined(ws, r, who, fifo)
    ensures multiset(r) == multiset(ws) + multiset{who}
  {
    hide JoinsAt;
    var i :| 0 <= i <= |ws| && r == ws[..i] + [who] + ws[i..] && JoinsAt(ws, who, fifo, i);
    OneMore(ws[..i], who, ws[i..]);
    assert ws[..i] + ws[i..] == ws;
  }

  lemma OneMore<T>(a: seq<T>, x: T, b: seq<T>)
    ensures multiset(a + [x] + b) == multiset(a + b) + multiset{x}
  {}

  ghost predicate ByPriority<T>(ws: seq<Waiter<T>>) {
    forall i, j :: 0 <= i < j < |ws| ==> ws[i].pri <= ws[j].pri
  }

  lemma EnqueueKeepsOrder<T>(ws: seq<Waiter<T>>, who: Waiter<T>)
    requires ByPriority(ws)
    ensures ByPriority(Enqueue(ws, who, false))
  {
    hide Place;
    var i, r := Place(Pris(ws), who.pri), Enqueue(ws, who, false);
    forall k | i <= k < |ws| ensures who.pri < ws[k].pri {
      assert Pris(ws)[i] <= Pris(ws)[k];
    }
    forall k | 0 <= k < i ensures ws[k].pri <= who.pri {
      assert Pris(ws)[k] <= who.pri;
    }
    forall a, b | 0 <= a < b < |r| ensures r[a].pri <= r[b].pri {
      assert r[a] == if a < i then ws[a] else if a == i then who else ws[a - 1];
      assert r[b] == if b < i then ws[b] else if b == i then who else ws[b - 1];
    }
  }

  /** The walks of ins_fifo and ins_pri. */
  method Insert<T>(ws: seq<Waiter<T>>, who: Waiter<T>, fifo: bool) returns (r: seq<Waiter<T>>)
    ensures r == Enqueue(ws, who, fifo)
  {
    var i := 0;
    while i < |ws| && (fifo || ws[i].pri <= who.pri)
      invariant i <= |ws| && (!fifo ==> forall k :: 0 <= k < i ==> ws[k].pri <= who.pri)
    {
      i := i + 1;
    }
    r := ws[..i] + [who] + ws[i..];
  }
}
