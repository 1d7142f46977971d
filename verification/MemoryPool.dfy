/** Variable-sized memory pools (kernel/sys_mpl.c): tasks that wait for a block are served from the first-fit pool. */
module MemoryPool {
  import opened Pool
  import opened WaitQueue

  const E_OK := 0
  const E_TMOUT := -50

  /** A task and the block size it asks for. */
  type Request = Waiter<nat>

  datatype Grant = Grant(id: nat, blksz: nat)

  /** held maps the address of every block that was handed out to the request it was handed out for. */
  datatype State = State(live: seq<Block>, waiters: seq<Request>, held: map<nat, Grant>)

  predicate Good(w: Request) { 1 <= w.want <= WORD32 - PAGE }

  function Need(blksz: nat): nat { if blksz < WORD32 then RoundUp(blksz) else 0 }

  /** A block for w is available. */
  predicate Served(live: seq<Block>, w: Request) { FirstFit(live, Need(w.want)) < |live| }

  /** The address of the block w gets. */
  function Fit(live: seq<Block>, w: Request): nat
    requires Served(live, w)
  {
    live[FirstFit(live, Need(w.want))].base
  }

  function Hand(s: State, w: Request): State
    requires Served(s.live, w)
  {
    State(Alloc(s.live, Need(w.want)), s.waiters, s.held[Fit(s.live, w) := Grant(w.id, w.want)])
  }

  function Tget(s: State, w: Request, poll: bool): State {
    if Served(s.live, w) then Hand(s, w)
    else if poll then s
    else s.(waiters := Enqueue(s.waiters, w, false))
  }

  /** The loop of rel_mpl: serve waiters from the front until one does not fit. */
  function Serve(s: State): State
    decreases |s.waiters|
  {
    if s.waiters == [] || !Served(s.live, s.waiters[0]) then s
    else Serve(Hand(s, s.waiters[0]).(waiters := s.waiters[1..]))
  }

  function Released(s: State, base: nat, corrected: bool): State {
    s.(live := Free(s.live, base, corrected), held := s.held - {base})
  }

  function Rel(s: State, base: nat, corrected: bool): State { Serve(Released(s, base, corrected)) }

  // ----- The waiters -----

  ghost predicate HeadStuck(s: State) {
    s.waiters != [] ==> !Served(s.live, s.waiters[0])
  }

  /** What does not fit before an allocation does not fit after it. */
  lemma AllocShrinks(l: seq<Block>, need: nat, want: nat)
    requires FirstFit(l, want) == |l|
    ensures FirstFit(Alloc(l, need), want) == |Alloc(l, need)|
  {
    var m, i := Alloc(l, need), FirstFit(l, need);
    AllocFailsIff(l, want);
    forall b | b in m && b.flag == FREE ensures b.size < want {
      if b !in l {
        assert l[i] in l;
        assert b == Block(l[i].base + need, l[i].size - need, FREE);
      }
    }
    AllocFailsIff(m, want);
  }

  lemma {:induction false} ServeStuck(s: State)
    ensures HeadStuck(Serve(s))
    decreases |s.waiters|
  {
    if s.waiters != [] && Served(s.live, s.waiters[0]) {
      ServeStuck(Hand(s, s.waiters[0]).(waiters := s.waiters[1..]));
    }
  }

  // ----- The blocks -----

  /** The allocated blocks are exactly those held, each as large as its request rounded up. */
  ghost predicate HeldExactly(s: State) {
    && (forall b :: b in s.held ==> Block(b, Need(s.held[b].blksz), ALLOC) in Allocated(s.live))
    && (forall x :: x in Allocated(s.live) ==> x.base in s.held && x.size == Need(s.held[x.base].blksz))
  }

  ghost predicate BlocksOk(s: State, lo: nat, hi: nat) {
    && 0 < lo && Tiles(s.live, lo, hi) && Coalesced(s.live) && HeldExactly(s)
    && forall w :: w in s.waiters ==> Good(w)
  }

  lemma HandKeeps(s: State, lo: nat, hi: nat, w: Request)
    requires BlocksOk(s, lo, hi) && Good(w) && Served(s.live, w)
    ensures BlocksOk(Hand(s, w), lo, hi)
    ensures Fit(s.live, w) !in s.held
  {
    hide Tiles, Coalesced, RoundUp, Allocated, Alloc;
    var need := Need(w.want);
    RoundUpExact(w.want);
    AllocKeeps(s.live, lo, hi, need);
    AllocAdds(s.live, lo, hi, need);
    var i := FirstFit(s.live, need);
    var b := s.live[i].base;
    if b in s.held {
      AllocatedIn(s.live, Block(b, Need(s.held[b].blksz), ALLOC));
      NotThere(s.live, lo, hi, i, Block(b, Need(s.held[b].blksz), ALLOC));
    }
  }

  lemma AllocatedIn(l: seq<Block>, b: Block)
    ensures b in Allocated(l) <==> b in l && b.flag == ALLOC
  {}

  lemma {:induction false} ServeKeeps(s: State, lo: nat, hi: nat)
    requires BlocksOk(s, lo, hi)
    ensures BlocksOk(Serve(s), lo, hi)
    decreases |s.waiters|
  {
    hide Tiles, Coalesced, HeldExactly;
    if s.waiters != [] && Served(s.live, s.waiters[0]) {
      var h := Hand(s, s.waiters[0]);
      HandKeeps(s, lo, hi, s.waiters[0]);
      SameHeld(h, h.(waiters := s.waiters[1..]));
      ServeKeeps(h.(waiters := s.waiters[1..]), lo, hi);
    }
  }

  lemma SameHeld(s: State, t: State)
    requires HeldExactly(s) && t.live == s.live && t.held == s.held
    ensures HeldExactly(t)
  {}

  lemma ReleasedKeeps(s: State, lo: nat, hi: nat, base: nat, corrected: bool)
    requires BlocksOk(s, lo, hi) && RightEntry(s.live, base, corrected)
    ensures BlocksOk(Released(s, base, corrected), lo, hi)
  {
    hide Tiles, Coalesced, Free, Allocated, RightEntry;
    RightEntryAgrees(s.live, lo, hi, base, corrected);
    FreeKeeps(s.live, lo, hi, base);
    FreeTakes(s.live, lo, hi, base);
    var i := Find(s.live, base);
    forall x | x in Allocated(s.live) && x.base == base ensures i < |s.live| && x == s.live[i] {
      AllocatedIn(s.live, x);
      var k :| 0 <= k < |s.live| && s.live[k] == x;
      FindEntry(s.live, lo, hi, k);
    }
  }

  /** Every waiter a release serves holds a block of its own, which nobody held before. */
  lemma {:induction false} ServeGrants(s: State, lo: nat, hi: nat, k: nat)
    requires BlocksOk(s, lo, hi) && k < |s.waiters| - |Serve(s).waiters|
    ensures |Serve(s).waiters| <= |s.waiters| && Serve(s).waiters == s.waiters[|s.waiters| - |Serve(s).waiters|..]
    ensures exists b :: b in Serve(s).held && b !in s.held &&
              Serve(s).held[b] == Grant(s.waiters[k].id, s.waiters[k].want)
    decreases |s.waiters|
  {
    hide Tiles, Coalesced, Allocated, Alloc, RoundUp;
    var h := Hand(s, s.waiters[0]).(waiters := s.waiters[1..]);
    HandKeeps(s, lo, hi, s.waiters[0]);
    ServeSuffix(s);
    if k == 0 {
      ServeKeepsHeld(h, lo, hi);
      assert Fit(s.live, s.waiters[0]) in Serve(h).held;
    } else {
      ServeGrants(h, lo, hi, k - 1);
    }
  }

  lemma {:induction false} ServeSuffix(s: State)
    ensures |Serve(s).waiters| <= |s.waiters| && Serve(s).waiters == s.waiters[|s.waiters| - |Serve(s).waiters|..]
    decreases |s.waiters|
  {
    if s.waiters != [] && Served(s.live, s.waiters[0]) {
      ServeSuffix(Hand(s, s.waiters[0]).(waiters := s.waiters[1..]));
    }
  }

  lemma {:induction false} ServeKeepsHeld(s: State, lo: nat, hi: nat)
    requires BlocksOk(s, lo, hi)
    ensures forall b :: b in s.held ==> b in Serve(s).held && Serve(s).held[b] == s.held[b]
    decreases |s.waiters|
  {
    hide Tiles, Coalesced, Allocated, Alloc, RoundUp;
    if s.waiters != [] && Served(s.live, s.waiters[0]) {
      HandKeeps(s, lo, hi, s.waiters[0]);
      ServeKeepsHeld(Hand(s, s.waiters[0]).(waiters := s.waiters[1..]), lo, hi);
    }
  }

  /** Blocks held for different requests do not overlap, and each is as large as asked for. */
  lemma HeldDisjoint(s: State, lo: nat, hi: nat, a: nat, b: nat)
    requires BlocksOk(s, lo, hi) && a in s.held && b in s.held && a < b
    requires 1 <= s.held[a].blksz <= WORD32 - PAGE
    ensures a + s.held[a].blksz <= b
  {
    var x, y := Block(a, Need(s.held[a].blksz), ALLOC), Block(b, Need(s.held[b].blksz), ALLOC);
    assert x in s.live && y in s.live;
    var i :| 0 <= i < |s.live| && s.live[i] == x;
    var j :| 0 <= j < |s.live| && s.live[j] == y;
    RoundUpExact(s.held[a].blksz);
    if i < j {
      TilesInOrder(s.live, lo, hi, i, j);
    } else {
      TilesInOrder(s.live, lo, hi, j, i);
    }
  }

  // ----- Runs -----

  datatype Op = GetBlock(w: Request, poll: bool) | ReleaseBlock(base: nat)

  function Apply(s: State, op: Op, corrected: bool): State {
    match op
    case GetBlock(w, poll) => Tget(s, w, poll)
    case ReleaseBlock(base) => Rel(s, base, corrected)
  }

  function RunOps(s: State, ops: seq<Op>, corrected: bool): State
    decreases |ops|
  {
    if ops == [] then s else RunOps(Apply(s, ops[0], corrected), ops[1..], corrected)
  }

  /** After every operation of a run, with the release as written or corrected, the request of the first waiter does not
      fit into any free block. */
  lemma {:induction false} RunStuck(s: State, ops: seq<Op>, corrected: bool)
    requires HeadStuck(s)
    ensures HeadStuck(RunOps(s, ops, corrected))
    decreases |ops|
  {
    if ops != [] {
      match ops[0] {
        case GetBlock(w, poll) =>
          if Served(s.live, w) && s.waiters != [] {
            AllocShrinks(s.live, Need(w.want), Need(s.waiters[0].want));
          }
        case ReleaseBlock(base) =>
          ServeStuck(Released(s, base, corrected));
      }
      RunStuck(Apply(s, ops[0], corrected), ops[1..], corrected);
    }
  }

  /** Requests are not rounded to 0, and releases remove the right table entry. */
  predicate SoundOp(s: State, op: Op, corrected: bool) {
    match op
    case GetBlock(w, poll) => Good(w)
    case ReleaseBlock(base) => RightEntry(s.live, base, corrected)
  }

  predicate SoundOps(s: State, ops: seq<Op>, corrected: bool)
    decreases |ops|
  {
    ops == [] || (SoundOp(s, ops[0], corrected) && SoundOps(Apply(s, ops[0], corrected), ops[1..], corrected))
  }

  /** Over every run, with releases as written where they remove the right entry or corrected, the blocks held are
      exactly the allocated ones. */
  lemma {:induction false} RunBlocks(s: State, lo: nat, hi: nat, ops: seq<Op>, corrected: bool)
    requires BlocksOk(s, lo, hi) && SoundOps(s, ops, corrected)
    ensures BlocksOk(RunOps(s, ops, corrected), lo, hi)
    decreases |ops|
  {
    hide BlocksOk, Apply, SoundOp;
    if ops != [] {
      ApplyKeeps(s, lo, hi, ops[0], corrected);
      RunBlocks(Apply(s, ops[0], corrected), lo, hi, ops[1..], corrected);
    }
  }

  lemma ApplyKeeps(s: State, lo: nat, hi: nat, op: Op, corrected: bool)
    requires BlocksOk(s, lo, hi) && SoundOp(s, op, corrected)
    ensures BlocksOk(Apply(s, op, corrected), lo, hi)
  {
    hide Tiles, Coalesced, HeldExactly, Free, Alloc, RightEntry;
    match op
    case GetBlock(w, poll) =>
      if Served(s.live, w) {
        HandKeeps(s, lo, hi, w);
      } else {
        SameHeld(s, Tget(s, w, poll));
      }
    case ReleaseBlock(base) =>
      ReleasedKeeps(s, lo, hi, base, corrected);
      ServeKeeps(Released(s, base, corrected), lo, hi);
  }

  // ----- Who gets a block, and who waits -----

  /** No free block is as large as the request of w, rounded up. */
  ghost predicate NoRoom(live: seq<Block>, w: Request) {
    forall b :: b in live && b.flag == FREE ==> b.size < Need(w.want)
  }

  /** A request that fits no free block changes nothing if it polls; otherwise it waits behind every request of the same
      or a higher priority, with all others in place. */
  lemma RequestWaits(s: State, w: Request, poll: bool, corrected: bool)
    requires NoRoom(s.live, w)
    ensures var r := Apply(s, GetBlock(w, poll), corrected);
            if poll then r == s
            else r.live == s.live && r.held == s.held && Joined(s.waiters, r.waiters, w, false)
  {
    AllocFailsIff(s.live, Need(w.want));
    EnqueueJoins(s.waiters, w, false);
  }

  /** A request that fits some free block is granted a block nobody held, of its size rounded up, whoever else waits. */
  lemma RequestGranted(s: State, lo: nat, hi: nat, w: Request, poll: bool, corrected: bool)
    requires BlocksOk(s, lo, hi) && Good(w) && !NoRoom(s.live, w)
    ensures var r := Apply(s, GetBlock(w, poll), corrected);
            r.waiters == s.waiters && exists b :: Granted(s, r, w, b)
  {
    hide BlocksOk, Need, Alloc, RoundUp, Allocated;
    AllocFailsIff(s.live, Need(w.want));
    HandKeeps(s, lo, hi, w);
    HandAdds(s, lo, hi, w);
    assert Granted(s, Hand(s, w), w, Fit(s.live, w));
  }

  /** Block b, which nobody held, is now held for w. */
  ghost predicate Granted(s: State, r: State, w: Request, b: nat) {
    && b !in s.held && r.held == s.held[b := Grant(w.id, w.want)]
    && Allocated(r.live) == Allocated(s.live) + {Block(b, Need(w.want), ALLOC)}
  }

  lemma HandAdds(s: State, lo: nat, hi: nat, w: Request)
    requires BlocksOk(s, lo, hi) && Good(w) && Served(s.live, w)
    ensures Allocated(Hand(s, w).live) == Allocated(s.live) + {Block(Fit(s.live, w), Need(w.want), ALLOC)}
  {
    hide Tiles, Coalesced, HeldExactly, Alloc, Allocated, RoundUp;
    RoundUpExact(w.want);
    AllocAdds(s.live, lo, hi, Need(w.want));
  }

  /** bs are different blocks nobody held, the k-th now held for the k-th waiter; all other blocks are held as before.
      */
  ghost predicate ServedWith(s: State, r: State, bs: seq<nat>) {
    && |bs| <= |s.waiters| && r.waiters == s.waiters[|bs|..]
    && (forall i, j :: 0 <= i < j < |bs| ==> bs[i] != bs[j])
    && (forall k :: 0 <= k < |bs| ==>
          bs[k] !in s.held && bs[k] in r.held && r.held[bs[k]] == Grant(s.waiters[k].id, s.waiters[k].want))
    && (forall b :: b in s.held ==> b in r.held && r.held[b] == s.held[b])
    && (forall b :: b in r.held ==> b in s.held || b in bs)
  }

  lemma {:induction false} ServeBlocks(s: State, lo: nat, hi: nat) returns (bs: seq<nat>)
    requires BlocksOk(s, lo, hi)
    ensures ServedWith(s, Serve(s), bs)
    decreases |s.waiters|
  {
    hide Tiles, Coalesced, Allocated, Alloc, RoundUp, HeldExactly;
    bs := [];
    if s.waiters != [] && Served(s.live, s.waiters[0]) {
      var h := Hand(s, s.waiters[0]).(waiters := s.waiters[1..]);
      HandKeeps(s, lo, hi, s.waiters[0]);
      SameHeld(Hand(s, s.waiters[0]), h);
      var rest := ServeBlocks(h, lo, hi);
      bs := [Fit(s.live, s.waiters[0])] + rest;
      ServedFirst(s, h, Serve(s), rest, Fit(s.live, s.waiters[0]));
    }
  }

  lemma ServedFirst(s: State, h: State, r: State, rest: seq<nat>, b: nat)
    requires s.waiters != [] && h.waiters == s.waiters[1..] && b !in s.held
    requires h.held == s.held[b := Grant(s.waiters[0].id, s.waiters[0].want)] && ServedWith(h, r, rest)
    ensures ServedWith(s, r, [b] + rest)
  {
    var bs := [b] + rest;
    forall k | 0 <= k < |bs|
      ensures bs[k] !in s.held && bs[k] in r.held && r.held[bs[k]] == Grant(s.waiters[k].id, s.waiters[k].want)
    {
      if k > 0 { assert rest[k - 1] !in h.held; }
    }
  }

  /** A release serves waiters from the front, each with a block of its own, and moves nobody else. */
  lemma ReleaseServes(s: State, lo: nat, hi: nat, base: nat, corrected: bool)
    requires BlocksOk(s, lo, hi) && SoundOp(s, ReleaseBlock(base), corrected)
    ensures exists bs :: ServedWith(s.(held := s.held - {base}), Apply(s, ReleaseBlock(base), corrected), bs)
  {
    hide BlocksOk, ServedWith;
    ReleasedKeeps(s, lo, hi, base, corrected);
    var bs := ServeBlocks(Released(s, base, corrected), lo, hi);
    LiveIsIrrelevant(Released(s, base, corrected), s.(held := s.held - {base}), Apply(s, ReleaseBlock(base), corrected),
                     bs);
  }

  lemma LiveIsIrrelevant(s: State, t: State, r: State, bs: seq<nat>)
    requires ServedWith(s, r, bs) && t.waiters == s.waiters && t.held == s.held
    ensures ServedWith(t, r, bs)
  {}

  /** The request an operation makes, unless it is refused. */
  ghost function Asked(s: State, op: Op): multiset<Request> {
    if op.GetBlock? && !(op.poll && NoRoom(s.live, op.w)) then multiset{op.w} else multiset{}
  }

  /** The requests an operation gives blocks to. */
  ghost function Given(s: State, op: Op, corrected: bool): multiset<Request> {
    var r := Apply(s, op, corrected);
    match op
    case GetBlock(w, _) => if r.held != s.held then multiset{w} else multiset{}
    case ReleaseBlock(_) =>
      if |r.waiters| <= |s.waiters| then multiset(s.waiters[..|s.waiters| - |r.waiters|]) else multiset{}
  }

  ghost function TotalAsked(s: State, ops: seq<Op>, corrected: bool): multiset<Request>
    decreases |ops|
  {
    if ops == [] then multiset{} else Asked(s, ops[0]) + TotalAsked(Apply(s, ops[0], corrected), ops[1..], corrected)
  }

  ghost function TotalGiven(s: State, ops: seq<Op>, corrected: bool): multiset<Request>
    decreases |ops|
  {
    if ops == [] then multiset{}
    else Given(s, ops[0], corrected) + TotalGiven(Apply(s, ops[0], corrected), ops[1..], corrected)
  }

  /** Over every run, the requests made and not refused are those that got blocks and those still waiting. */
  lemma {:induction false} RequestsConserved(s: State, lo: nat, hi: nat, ops: seq<Op>, corrected: bool)
    requires BlocksOk(s, lo, hi) && SoundOps(s, ops, corrected)
    ensures multiset(s.waiters) + TotalAsked(s, ops, corrected)
         == TotalGiven(s, ops, corrected) + multiset(RunOps(s, ops, corrected).waiters)
    decreases |ops|
  {
    hide BlocksOk, Apply, SoundOp, Asked, Given;
    if ops != [] {
      var m := Apply(s, ops[0], corrected);
      ApplyKeeps(s, lo, hi, ops[0], corrected);
      StepConservesRequests(s, lo, hi, ops[0], corrected);
      RequestsConserved(m, lo, hi, ops[1..], corrected);
      AddRequests(multiset(s.waiters), Asked(s, ops[0]), Given(s, ops[0], corrected), multiset(m.waiters),
                  TotalAsked(m, ops[1..], corrected), TotalGiven(m, ops[1..], corrected),
                  multiset(RunOps(m, ops[1..], corrected).waiters));
    }
  }

  lemma AddRequests(w0: multiset<Request>, a: multiset<Request>, g: multiset<Request>, w1: multiset<Request>,
                    a': multiset<Request>, g': multiset<Request>, w2: multiset<Request>)
    requires w0 + a == g + w1 && w1 + a' == g' + w2
    ensures w0 + (a + a') == (g + g') + w2
  {
    assert w0 + (a + a') == (w0 + a) + a';
    assert (g + w1) + a' == g + (w1 + a');
    assert g + (g' + w2) == (g + g') + w2;
  }

  lemma StepConservesRequests(s: State, lo: nat, hi: nat, op: Op, corrected: bool)
    requires BlocksOk(s, lo, hi) && SoundOp(s, op, corrected)
    ensures multiset(s.waiters) + Asked(s, op)
         == Given(s, op, corrected) + multiset(Apply(s, op, corrected).waiters)
  {
    match op
    case GetBlock(w, poll) => GetConserves(s, lo, hi, w, poll, corrected);
    case ReleaseBlock(base) => ReleaseConserves(s, lo, hi, base, corrected);
  }

  lemma SplitBag(ws: seq<Request>, n: nat)
    requires n <= |ws|
    ensures multiset(ws) == multiset(ws[..n]) + multiset(ws[n..])
  {
    assert ws == ws[..n] + ws[n..];
  }

  lemma ReleaseConserves(s: State, lo: nat, hi: nat, base: nat, corrected: bool)
    requires BlocksOk(s, lo, hi) && SoundOp(s, ReleaseBlock(base), corrected)
    ensures var op := ReleaseBlock(base);
            multiset(s.waiters) == Given(s, op, corrected) + multiset(Apply(s, op, corrected).waiters)
  {
    hide BlocksOk, Apply, SoundOp;
    var op := ReleaseBlock(base);
    ReleaseServes(s, lo, hi, base, corrected);
    var r := Apply(s, op, corrected);
    var bs :| ServedWith(s.(held := s.held - {base}), r, bs);
    SplitBag(s.waiters, |bs|);
  }

  lemma GetConserves(s: State, lo: nat, hi: nat, w: Request, poll: bool, corrected: bool)
    requires BlocksOk(s, lo, hi) && Good(w)
    ensures var op := GetBlock(w, poll);
            multiset(s.waiters) + Asked(s, op) == Given(s, op, corrected) + multiset(Apply(s, op, corrected).waiters)
  {
    hide BlocksOk, Apply, NoRoom, Granted, Joined;
    var r := Apply(s, GetBlock(w, poll), corrected);
    if !NoRoom(s.live, w) {
      RequestGranted(s, lo, hi, w, poll, corrected);
      var b :| Granted(s, r, w, b);
      GrantedChanges(s, r, w, b);
    } else {
      RequestWaits(s, w, poll, corrected);
      if !poll { JoinedBag(s.waiters, r.waiters, w, false); }
    }
  }

  lemma GrantedChanges(s: State, r: State, w: Request, b: nat)
    requires Granted(s, r, w, b)
    ensures r.held != s.held
  {
    assert b in r.held;
  }

  class Mpl {
    const table: Table
    const lo: nat
    const hi: nat
    var waiters: seq<Request>
    var pBlk: map<nat, nat>
    ghost var held: map<nat, Grant>

    ghost predicate Valid()
      reads this, table, table.a
    {
      table.Valid() && BlocksOk(View(), lo, hi)
    }

    ghost function View(): State
      reads this, table, table.a
    {
      State(table.live, waiters, held)
    }

    /** The block is held for task id. */
    ghost predicate Holds(blk: nat, id: nat)
      reads this
    {
      blk in held && held[blk].id == id
    }

    /** cre_mpl, with an address range of at least one page that does not begin at 0. */
    constructor (n: nat, start: nat, end: nat)
      requires n >= 2 && 0 < start <= end < WORD32 && start + (PAGE - 1) < WORD32
      requires RoundUp(start) <= end / PAGE * PAGE
      ensures Valid() && fresh(table) && fresh(table.a) && waiters == [] && held == map[] && table.a.Length == n
    {
      hide RoundUp;
      RoundUpExact(start);
      table := new Table(n, start, end);
      lo, hi := RoundUp(start), end / PAGE * PAGE;
      waiters, pBlk, held := [], map[], map[];
      new;
      InitInsideIff(start, end);
      FreshPool(table.live);
    }

    /** tget_mpl without a time limit. */
    method TgetMpl(w: Request, poll: bool) returns (er: int, blk: nat)
      requires Valid() && Good(w) && |table.live| + 1 < table.a.Length
      modifies this, table`live, table.a
      ensures Valid() && View() == Tget(old(View()), w, poll)
      ensures er == if Served(old(table.live), w) || !poll then E_OK else E_TMOUT
      ensures Served(old(table.live), w) ==> blk == Fit(old(table.live), w) && blk in held
      ensures Served(old(table.live), w) || poll ==> waiters == old(waiters)
      ensures !Served(old(table.live), w) && !poll ==> Joined(old(waiters), waiters, w, false)
    {
      hide RoundUp, Tiles, Coalesced, HeldExactly, Alloc;
      ghost var s := View();
      ApplyKeeps(s, lo, hi, GetBlock(w, poll), true);
      var found;
      blk, found := table.PoolAlloc(w.want);
      FoundIff(s.live, lo, hi, Need(w.want));
      AllocNone(s.live, Need(w.want));
      if blk != 0 {
        held := held[blk := Grant(w.id, w.want)];
        return E_OK, blk;
      }
      if poll {
        return E_TMOUT, blk;
      }
      EnqueueJoins(waiters, w, false);
      waiters := Insert(waiters, w, false);
      er := E_OK;
    }

    /** rel_mpl, with the release as written where it removes the right table entry, or corrected. */
    method RelMpl(blk: nat, corrected: bool)
      requires Valid() && |table.live| + |waiters| < table.a.Length && RightEntry(table.live, blk, corrected)
      modifies this, table`live, table.a
      ensures Valid() && View() == Rel(old(View()), blk, corrected)
      ensures forall k :: 0 <= k < |old(waiters)| - |waiters| ==>
                old(waiters)[k].id in pBlk && Holds(pBlk[old(waiters)[k].id], old(waiters)[k].id)
    {
      hide RoundUp, Tiles, Coalesced, HeldExactly, Alloc, Free, Allocated, RightEntry;
      ReleasedKeeps(View(), lo, hi, blk, corrected);
      RightEntryAgrees(table.live, lo, hi, blk, corrected);
      table.PoolFree(blk, corrected);
      held := held - {blk};
      FreeLength(old(table.live), blk);
      ServeAll();
    }

    /** The loop of rel_mpl: waiters are served from the front as long as the first one's request fits. */
    method ServeAll()
      requires Valid() && |table.live| + |waiters| < table.a.Length
      modifies this, table`live, table.a
      ensures Valid() && View() == Serve(old(View()))
      ensures forall k :: 0 <= k < |old(waiters)| - |waiters| ==>
                old(waiters)[k].id in pBlk && Holds(pBlk[old(waiters)[k].id], old(waiters)[k].id)
    {
      hide RoundUp, Tiles, Coalesced, HeldExactly, Alloc, Free, Allocated;
      ghost var s, n := View(), 0;
      ServeKeeps(s, lo, hi);
      while waiters != []
        invariant n <= |old(waiters)| && waiters == old(waiters)[n..] && Valid() && Serve(View()) == Serve(s)
        invariant |table.live| + |waiters| < table.a.Length
        invariant forall k :: 0 <= k < n ==>
          old(waiters)[k].id in pBlk && Holds(pBlk[old(waiters)[k].id], old(waiters)[k].id)
        decreases |waiters|
      {
        var served := ServeFirst();
        if !served {
          break;
        }
        n := n + 1;
      }
    }

    /** One round of the loop of rel_mpl: the first waiter gets its block, if one fits. */
    method ServeFirst() returns (served: bool)
      requires Valid() && waiters != [] && |table.live| + 1 < table.a.Length
      modifies this, table`live, table.a
      ensures Valid() && served == Served(old(table.live), old(waiters)[0])
      ensures served ==> View() == Hand(old(View()), old(waiters)[0]).(waiters := old(waiters)[1..])
      ensures served ==> |table.live| <= old(|table.live|) + 1
      ensures served ==> pBlk == old(pBlk)[old(waiters)[0].id := Fit(old(table.live), old(waiters)[0])]
      ensures served ==> Fit(old(table.live), old(waiters)[0]) !in old(held)
      ensures !served ==> View() == old(View()) && pBlk == old(pBlk)
    {
      hide RoundUp, Tiles, Coalesced, HeldExactly, Alloc, Free, Allocated;
      var t := waiters[0];
      ghost var v := View();
      assert t in v.waiters;
      var p, found := table.PoolAlloc(t.want);
      FoundIff(v.live, lo, hi, Need(t.want));
      AllocNone(v.live, Need(t.want));
      if p == 0 {
        return false;
      }
      HandKeeps(v, lo, hi, t);
      AllocLength(v.live, Need(t.want));
      pBlk := pBlk[t.id := p];
      held := held[p := Grant(t.id, t.want)];
      SameHeld(Hand(v, t), Hand(v, t).(waiters := waiters[1..]));
      waiters := waiters[1..];
      served := true;
    }
  }

  lemma FreshPool(l: seq<Block>)
    requires |l| <= 1 && forall b :: b in l ==> b.flag == FREE
    ensures HeldExactly(State(l, [], map[]))
  {}

  /** No block begins at 0, so the address tells whether an allocation succeeded. */
  lemma FoundIff(l: seq<Block>, lo: nat, hi: nat, need: nat)
    requires Tiles(l, lo, hi) && 0 < lo
    ensures FirstFit(l, need) < |l| ==> l[FirstFit(l, need)].base != 0
  {
    if FirstFit(l, need) < |l| { TilesBounds(l, lo, hi, FirstFit(l, need)); }
  }

  lemma AllocLength(l: seq<Block>, need: nat)
    ensures |Alloc(l, need)| <= |l| + 1
  {}

  lemma FreeLength(l: seq<Block>, base: nat)
    ensures |Free(l, base, true)| <= |l|
  {}
}
