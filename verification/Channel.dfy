/** Buffered channels with waiting receivers and direct hand-off: what message buffers and data queues have in common.
    Senders never wait here; receivers may. */
module Channel {
  import opened WaitQueue

  type Receiver = Waiter<()>

  /** Where an item that left the channel went. */
  datatype Fate = To(id: nat) | Dropped

  datatype Exit<T> = Exit(fate: Fate, item: T)

  /** out lists everything that has left, in order. */
  datatype Chan<T> = Chan(items: seq<T>, waiters: seq<Receiver>, out: seq<Exit<T>>)

  datatype Op<T> =
    | Send(item: T, room: bool)
    | Force(item: T, capacity: nat)
    | Receive(who: Receiver, poll: bool, fifo: bool)
    | Leave(id: nat)

  function RemoveId(ws: seq<Receiver>, id: nat): seq<Receiver> {
    if ws == [] then []
    else if ws[0].id == id then ws[1..]
    else [ws[0]] + RemoveId(ws[1..], id)
  }

  function Step<T>(c: Chan<T>, op: Op<T>): Chan<T> {
    match op
    case Send(x, room) =>
      if c.waiters != [] then HandOff(c, x)
      else if room then c.(items := c.items + [x])
      else c
    case Force(x, capacity) =>
      if c.waiters != [] then HandOff(c, x)
      else if |c.items| < capacity then c.(items := c.items + [x])
      else
        var all := c.items + [x];
        c.(items := all[1..], out := c.out + [Exit(Dropped, all[0])])
    case Receive(who, poll, fifo) =>
      if c.items != [] then c.(items := c.items[1..], out := c.out + [Exit(To(who.id), c.items[0])])
      else if poll then c
      else c.(waiters := Enqueue(c.waiters, who, fifo))
    case Leave(id) => c.(waiters := RemoveId(c.waiters, id))
  }

  function HandOff<T>(c: Chan<T>, x: T): Chan<T>
    requires c.waiters != []
  {
    c.(waiters := c.waiters[1..], out := c.out + [Exit(To(c.waiters[0].id), x)])
  }

  /** What the operation puts into the channel. */
  function Accepted<T>(c: Chan<T>, op: Op<T>): seq<T> {
    match op
    case Send(x, room) => if c.waiters != [] || room then [x] else []
    case Force(x, capacity) => [x]
    case _ => []
  }

  function Items<T>(out: seq<Exit<T>>): (r: seq<T>)
    ensures |r| == |out| && forall i :: 0 <= i < |r| ==> r[i] == out[i].item
  {
    seq(|out|, i requires 0 <= i < |out| => out[i].item)
  }

  /** Unlinking the receiver with the given id, if it waits. */
  method Delete(ws: seq<Receiver>, id: nat) returns (r: seq<Receiver>)
    ensures r == RemoveId(ws, id)
  {
    var i := 0;
    while i < |ws| && ws[i].id != id
      invariant i <= |ws| && forall k :: 0 <= k < i ==> ws[k].id != id
    {
      i := i + 1;
    }
    r := if i < |ws| then ws[..i] + ws[i + 1..] else ws;
    RemoveIdAt(ws, id, i);
  }

  /** Only the first receiver with the id leaves. */
  lemma {:induction false} RemoveIdAt(ws: seq<Receiver>, id: nat, i: nat)
    requires i <= |ws| && (forall k :: 0 <= k < i ==> ws[k].id != id) && (i < |ws| ==> ws[i].id == id)
    ensures RemoveId(ws, id) == if i < |ws| then ws[..i] + ws[i + 1..] else ws
  {
    if i > 0 {
      RemoveIdAt(ws[1..], id, i - 1);
      assert ws == [ws[0]] + ws[1..];
      if i < |ws| {
        assert [ws[0]] + (ws[1..][..i - 1] + ws[1..][i..]) == ws[..i] + ws[i + 1..];
      }
    }
  }

  // ----- Runs -----

  function RunFrom<T>(c: Chan<T>, ops: seq<Op<T>>): Chan<T> {
    if ops == [] then c else Step(RunFrom(c, ops[..|ops| - 1]), ops[|ops| - 1])
  }

  function AcceptedIn<T>(c: Chan<T>, ops: seq<Op<T>>): seq<T> {
    if ops == [] then []
    else AcceptedIn(c, ops[..|ops| - 1]) + Accepted(RunFrom(c, ops[..|ops| - 1]), ops[|ops| - 1])
  }

  /** A waiting receiver means an empty channel. */
  ghost predicate NoWaitWhileFull<T>(c: Chan<T>) {
    c.waiters != [] ==> c.items == []
  }

  /** After any run from an empty channel, what was accepted is what has left followed by what is stored, in order: the
      k-th accepted item is the k-th to leave, through the buffer or straight to a receiver. */
  lemma {:induction false} OrderPreserved<T>(ops: seq<Op<T>>)
    ensures var c := RunFrom(Chan([], [], []), ops);
            NoWaitWhileFull(c) && AcceptedIn(Chan([], [], []), ops) == Items(c.out) + c.items
  {
    if ops != [] {
      OrderPreserved(ops[..|ops| - 1]);
      StepPreservesOrder(RunFrom(Chan([], [], []), ops[..|ops| - 1]), AcceptedIn(Chan([], [], []), ops[..|ops| - 1]),
                         ops[|ops| - 1]);
    }
  }

  lemma StepPreservesOrder<T>(c: Chan<T>, accepted: seq<T>, op: Op<T>)
    requires NoWaitWhileFull(c) && accepted == Items(c.out) + c.items
    ensures NoWaitWhileFull(Step(c, op)) && accepted + Accepted(c, op) == Items(Step(c, op).out) + Step(c, op).items
  {
    if op.Force? && c.waiters == [] && |c.items| >= op.capacity {
      var all := c.items + [op.item];
      assert all == [all[0]] + all[1..];
      assert Items(c.out) + all == Items(c.out + [Exit(Dropped, all[0])]) + all[1..];
    }
  }

  /** Without forced sends nothing is dropped: every accepted item goes to a receiver or is still stored. */
  lemma {:induction false} NothingDropped<T>(ops: seq<Op<T>>)
    requires forall i :: 0 <= i < |ops| ==> !ops[i].Force?
    ensures forall k :: 0 <= k < |RunFrom(Chan([], [], []), ops).out| ==> RunFrom(Chan([], [], []), ops).out[k].fate.To?
  {
    if ops != [] {
      NothingDropped(ops[..|ops| - 1]);
      assert !ops[|ops| - 1].Force?;
    }
  }

  lemma {:induction false} RemoveKeepsOrder(ws: seq<Receiver>, id: nat)
    requires ByPriority(ws)
    ensures ByPriority(RemoveId(ws, id))
    ensures forall x :: x in RemoveId(ws, id) ==> x in ws
  {
    if ws != [] && ws[0].id != id {
      RemoveKeepsOrder(ws[1..], id);
      var t := RemoveId(ws[1..], id);
      forall x | x in t ensures ws[0].pri <= x.pri {
        assert x in ws[1..];
      }
      forall i | 0 <= i < |t| ensures ws[0].pri <= t[i].pri {
        assert t[i] in t;
      }
    }
  }

  /** With priority queueing, a hand-off goes to a waiter of the highest priority. */
  lemma {:induction false} WaitersByPriority<T>(ops: seq<Op<T>>)
    requires forall i :: 0 <= i < |ops| && ops[i].Receive? ==> !ops[i].fifo
    ensures ByPriority(RunFrom(Chan([], [], []), ops).waiters)
  {
    if ops != [] {
      var c := RunFrom(Chan([], [], []), ops[..|ops| - 1]);
      WaitersByPriority(ops[..|ops| - 1]);
      var op := ops[|ops| - 1];
      if op.Leave? {
        RemoveKeepsOrder(c.waiters, op.id);
      } else if op.Receive? {
        EnqueueKeepsOrder(c.waiters, op.who);
      }
    }
  }

  /** A forced send stores its item as the newest exactly when the channel has any capacity. */
  lemma ForceStoresIff<T>(c: Chan<T>, x: T, capacity: nat)
    requires c.waiters == [] && |c.items| <= capacity
    ensures var i := Step(c, Force(x, capacity)).items; (i != [] && i[|i| - 1] == x) <==> capacity >= 1
  {}

  // ----- Who is served -----

  /** A send, forced or not, that finds receivers waiting goes to the first of them: that one is served and leaves the
      queue, the others keep their places, and nothing is stored. */
  lemma HandOffServesFirst<T>(c: Chan<T>, op: Op<T>)
    requires (op.Send? || op.Force?) && c.waiters != []
    ensures var r := Step(c, op);
            r.waiters == c.waiters[1..] && r.items == c.items && r.out == c.out + [Exit(To(c.waiters[0].id), op.item)]
  {}

  /** Receiving: the oldest item goes to the caller; on an empty channel a poll changes nothing, and any other caller
      waits behind all others, or behind those of its own or a higher priority, with nobody else moved. */
  lemma ReceiveTakesOldest<T>(c: Chan<T>, who: Receiver, poll: bool, fifo: bool)
    ensures var r := Step(c, Receive(who, poll, fifo));
            if c.items != [] then
              r.waiters == c.waiters && [c.items[0]] + r.items == c.items
              && r.out == c.out + [Exit(To(who.id), c.items[0])]
            else if poll then r == c
            else r.items == [] && r.out == c.out && Joined(c.waiters, r.waiters, who, fifo)
  {
    EnqueueJoins(c.waiters, who, fifo);
  }

  function Ids(ws: seq<Receiver>): (r: seq<nat>)
    ensures |r| == |ws| && forall i :: 0 <= i < |ws| ==> r[i] == ws[i].id
  {
    seq(|ws|, i requires 0 <= i < |ws| => ws[i].id)
  }

  /** Waits that begin: a receiver finds nothing and does not poll. */
  function Begun<T>(c: Chan<T>, op: Op<T>): multiset<nat> {
    if op.Receive? && c.items == [] && !op.poll then multiset{op.who.id} else multiset{}
  }

  /** Whom a send, forced or not, has served, as the record of what left says. */
  function ServedBy<T>(c: Chan<T>, op: Op<T>): multiset<nat> {
    var r := Step(c, op);
    if !op.Receive? && |r.out| > |c.out| && r.out[|c.out|].fate.To? then multiset{r.out[|c.out|].fate.id}
    else multiset{}
  }

  /** Waits that end by timeout. */
  function Ended<T>(c: Chan<T>, op: Op<T>): multiset<nat> {
    if op.Leave? && op.id in Ids(c.waiters) then multiset{op.id} else multiset{}
  }

  function TotalBegun<T>(c: Chan<T>, ops: seq<Op<T>>): multiset<nat> {
    if ops == [] then multiset{}
    else TotalBegun(c, ops[..|ops| - 1]) + Begun(RunFrom(c, ops[..|ops| - 1]), ops[|ops| - 1])
  }

  function TotalServed<T>(c: Chan<T>, ops: seq<Op<T>>): multiset<nat> {
    if ops == [] then multiset{}
    else TotalServed(c, ops[..|ops| - 1]) + ServedBy(RunFrom(c, ops[..|ops| - 1]), ops[|ops| - 1])
  }

  function TotalEnded<T>(c: Chan<T>, ops: seq<Op<T>>): multiset<nat> {
    if ops == [] then multiset{}
    else TotalEnded(c, ops[..|ops| - 1]) + Ended(RunFrom(c, ops[..|ops| - 1]), ops[|ops| - 1])
  }

  /** Over every run, the waits begun are those served by a hand-off, those ended by a timeout, and those still queued:
      no wait is lost, and none is served twice. */
  lemma {:induction false} WaitsConserved<T>(c: Chan<T>, ops: seq<Op<T>>)
    ensures multiset(Ids(c.waiters)) + TotalBegun(c, ops)
         == TotalServed(c, ops) + TotalEnded(c, ops) + multiset(Ids(RunFrom(c, ops).waiters))
  {
    hide Ids, Begun, ServedBy, Ended, Step;
    if ops != [] {
      var pre, op := ops[..|ops| - 1], ops[|ops| - 1];
      var m := RunFrom(c, pre);
      WaitsConserved(c, pre);
      StepConservesWaits(m, op);
      AddStep(multiset(Ids(c.waiters)), TotalBegun(c, pre), TotalServed(c, pre), TotalEnded(c, pre),
              multiset(Ids(m.waiters)), Begun(m, op), ServedBy(m, op), Ended(m, op),
              multiset(Ids(Step(m, op).waiters)));
    }
  }

  lemma AddStep(w0: multiset<nat>, b: multiset<nat>, s: multiset<nat>, e: multiset<nat>, w1: multiset<nat>,
                b': multiset<nat>, s': multiset<nat>, e': multiset<nat>, w2: multiset<nat>)
    requires w0 + b == s + e + w1 && w1 + b' == s' + e' + w2
    ensures w0 + (b + b') == (s + s') + (e + e') + w2
  {
    assert w0 + (b + b') == (w0 + b) + b';
    assert (s + e + w1) + b' == (s + e) + (w1 + b');
    assert (s + e) + (s' + e' + w2) == (s + s') + (e + e') + w2;
  }

  lemma StepConservesWaits<T>(c: Chan<T>, op: Op<T>)
    ensures multiset(Ids(c.waiters)) + Begun(c, op)
         == ServedBy(c, op) + Ended(c, op) + multiset(Ids(Step(c, op).waiters))
  {
    hide Enqueue, Ids, RemoveId;
    match op
    case Leave(id) => RemoveIdIds(c.waiters, id);
    case Receive(who, _, fifo) => EnqueueIds(c.waiters, who, fifo);
    case _ => SendConservesWaits(c, op);
  }

  lemma SendConservesWaits<T>(c: Chan<T>, op: Op<T>)
    requires op.Send? || op.Force?
    ensures multiset(Ids(c.waiters)) == ServedBy(c, op) + multiset(Ids(Step(c, op).waiters))
  {
    hide Ids;
    if c.waiters != [] {
      HandOffServesFirst(c, op);
      FirstIdOut(c.waiters);
    }
  }

  lemma FirstIdOut(ws: seq<Receiver>)
    requires ws != []
    ensures multiset(Ids(ws)) == multiset{ws[0].id} + multiset(Ids(ws[1..]))
  {
    hide Ids;
    IdsTakeOut(ws, 0);
    assert ws[..0] + ws[1..] == ws[1..];
  }

  lemma IdsTakeOut(ws: seq<Receiver>, i: nat)
    requires i < |ws|
    ensures multiset(Ids(ws)) == multiset(Ids(ws[..i] + ws[i + 1..])) + multiset{ws[i].id}
  {
    var s := Ids(ws);
    assert s == s[..i] + [s[i]] + s[i + 1..];
    assert Ids(ws[..i] + ws[i + 1..]) == s[..i] + s[i + 1..];
  }

  lemma EnqueueIds(ws: seq<Receiver>, who: Receiver, fifo: bool)
    ensures multiset(Ids(Enqueue(ws, who, fifo))) == multiset(Ids(ws)) + multiset{who.id}
  {
    hide Enqueue, Ids;
    EnqueueJoins(ws, who, fifo);
    var r := Enqueue(ws, who, fifo);
    var i :| 0 <= i <= |ws| && r == ws[..i] + [who] + ws[i..] && JoinsAt(ws, who, fifo, i);
    IdsTakeOut(r, i);
    assert r[..i] + r[i + 1..] == ws;
  }

  lemma RemoveIdIds(ws: seq<Receiver>, id: nat)
    ensures multiset(Ids(ws)) == multiset(Ids(RemoveId(ws, id))) + (if id in Ids(ws) then multiset{id} else multiset{})
  {
    hide RemoveId;
    if id in Ids(ws) {
      var i := FirstId(ws, id);
      RemoveIdAt(ws, id, i);
      IdsTakeOut(ws, i);
    } else {
      forall k | 0 <= k < |ws| ensures ws[k].id != id { assert Ids(ws)[k] != id; }
      RemoveIdAt(ws, id, |ws|);
    }
  }

  lemma FirstId(ws: seq<Receiver>, id: nat) returns (i: nat)
    requires id in Ids(ws)
    ensures i < |ws| && ws[i].id == id && forall k :: 0 <= k < i ==> ws[k].id != id
  {
    var n :| 0 <= n < |ws| && Ids(ws)[n] == id;
    i := 0;
    while ws[i].id != id
      invariant i <= n && ws[n].id == id && forall k :: 0 <= k < i ==> ws[k].id != id
      decreases n - i
    {
      i := i + 1;
    }
  }
}
