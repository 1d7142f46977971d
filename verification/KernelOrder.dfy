/** First come, first served: no call, tick or dispatch reorders a queue, and nobody overtakes in a ready queue. */
module KernelOrder {
  import opened Links
  import opened Timeouts
  import opened KernelState
  import opened KernelInvariant
  import opened KernelSteps
  import opened KernelMutex
  import opened KernelTick
  import opened KernelRuns
  import opened KernelTheorems
  import opened KernelTables
  import opened KernelPriorities

  /** Task u stands before task v in queue s. */
  ghost predicate Before(s: seq<nat>, u: nat, v: nat) {
    exists i, j :: 0 <= i < j < |s| && s[i] == u && s[j] == v
  }

  /** Those who were in the queue and still are stand in the same order. */
  ghost predicate KeepsOrder(s: seq<nat>, s': seq<nat>) {
    forall u, v {:trigger Before(s', u, v)} :: Before(s', u, v) && u in s && v in s ==> Before(s, u, v)
  }

  /** Whoever stands before a task that was in the queue stood before it already: newcomers are behind. */
  ghost predicate NoOvertaking(s: seq<nat>, s': seq<nat>) {
    forall u, v {:trigger Before(s', u, v)} :: Before(s', u, v) && v in s ==> Before(s, u, v)
  }

  lemma OrderWithout(s: seq<nat>, t: nat)
    ensures NoOvertaking(s, Without(s, t))
  {
    var s' := Without(s, t);
    if t in s {
      var n := IndexOf(s, t);
      forall u, v | Before(s', u, v) && v in s ensures Before(s, u, v) {
        var i, j :| 0 <= i < j < |s'| && s'[i] == u && s'[j] == v;
        var i', j' := if i < n then i else i + 1, if j < n then j else j + 1;
        assert s[i'] == u && s[j'] == v;
      }
    }
  }

  lemma OrderInsert(s: seq<nat>, i: nat, t: nat)
    requires i <= |s| && t !in s
    ensures KeepsOrder(s, InsertAt(s, i, t))
    ensures i == |s| ==> NoOvertaking(s, InsertAt(s, i, t))
  {
    hide InsertAt;
    InsertIndex(s, i, t);
    var s' := InsertAt(s, i, t);
    forall u, v | Before(s', u, v) && v in s && (u in s || i == |s|) ensures Before(s, u, v) {
      var a, b :| 0 <= a < b < |s'| && s'[a] == u && s'[b] == v;
      var a', b' := if a < i then a else a - 1, if b < i then b else b - 1;
      assert b != i;
      if a != i { assert s'[a] == s[a'] && s'[b] == s[b']; }
    }
  }

  /** The rule for queue h: nobody overtakes in a ready queue, nobody who stays in an object queue is moved. */
  ghost predicate InOrder(h: Head, s: seq<nat>, s': seq<nat>) {
    match KindOf(h)
    case P => NoOvertaking(s, s')
    case W => KeepsOrder(s, s')
    case T => true
  }

  ghost predicate Orderly(k: KState, r: KState) {
    Shape(k) && Shape(r) && forall h :: ValidHead(h) ==> InOrder(h, k.q[h], r.q[h])
  }

  lemma InOrderSame(h: Head, s: seq<nat>)
    ensures InOrder(h, s, s)
  {}

  lemma InOrderWithout(h: Head, s: seq<nat>, t: nat)
    ensures InOrder(h, s, Without(s, t))
  {
    hide Without, Before;
    OrderWithout(s, t);
  }

  lemma InOrderInsert(h: Head, s: seq<nat>, i: nat, t: nat)
    requires i <= |s| && t !in s && (h.Ready? ==> i == |s|)
    ensures InOrder(h, s, InsertAt(s, i, t))
  {
    hide InsertAt, Before;
    OrderInsert(s, i, t);
  }

  lemma OrderlySame(k: KState, r: KState)
    requires Shape(k) && Shape(r) && r.q == k.q
    ensures Orderly(k, r)
  {
    hide InOrder, AllIds, OwnersOk;
    forall h | ValidHead(h) ensures InOrder(h, k.q[h], r.q[h]) { InOrderSame(h, k.q[h]); }
  }

  lemma InOrderTrans(h: Head, s: seq<nat>, s': seq<nat>, s'': seq<nat>)
    requires InOrder(h, s, s') && InOrder(h, s', s'') && forall u :: u in s && u in s'' ==> u in s'
    ensures InOrder(h, s, s'')
  {
    forall u, v | Before(s'', u, v) && v in s && (KindOf(h) == P || (KindOf(h) == W && u in s))
      ensures Before(s, u, v)
    {
      assert u in s'' && v in s'';
      assert v in s';
      assert Before(s', u, v);
    }
  }

  /** Nobody leaves queue h in between and comes back. */
  ghost predicate NoReturn(k: KState, l: KState, r: KState) {
    && Shape(k) && Shape(l) && Shape(r)
    && forall h, u {:trigger u in l.q[h]} ::
         ValidHead(h) && KindOf(h) != T && u in k.q[h] && u in r.q[h] ==> u in l.q[h]
  }

  lemma OrderlyTrans(k: KState, l: KState, r: KState)
    requires Orderly(k, l) && Orderly(l, r) && NoReturn(k, l, r)
    ensures Orderly(k, r)
  {
    hide InOrder, AllIds, OwnersOk;
    forall h | ValidHead(h) ensures InOrder(h, k.q[h], r.q[h]) {
      if KindOf(h) != T { InOrderTrans(h, k.q[h], l.q[h], r.q[h]); } else { TmoInOrder(h, k.q[h], r.q[h]); }
    }
  }

  lemma TmoInOrder(h: Head, s: seq<nat>, s': seq<nat>)
    requires KindOf(h) == T
    ensures InOrder(h, s, s')
  {}

  // ----- The moves calls are made of -----

  lemma ParkInOrder(k: KState, t: nat, w: Option<(Head, nat)>, x: Option<nat>)
    requires MayPark(k, t, w, x)
    ensures Orderly(k, Resched(Park(k, t, w, x)))
  {
    hide LinksOk, CpuOk, SemOk, MtxOk, OwnOk, IdleOk, ReadyOk, WellFormed, InsertAt, Without, Park, InOrder, AllIds,
      WaitOk, Queued;
    ActiveIsUnlinked(k, t);
    NotInObjectQueues(k, t);
    ParkQueues(k, t, w, x);
    var r := Park(k, t, w, x);
    forall h | ValidHead(h) ensures InOrder(h, k.q[h], r.q[h]) {
      InOrderSame(h, k.q[h]);
      InOrderWithout(h, k.q[h], t);
      if KindOf(h) == T { TmoInOrder(h, k.q[h], r.q[h]); }
      if w.Some? && w.value.0 == h { InOrderInsert(h, k.q[h], w.value.1, t); }
    }
  }

  lemma NotInObjectQueues(k: KState, t: nat)
    requires Shape(k) && !Queued(k.q, W, t)
    ensures forall h :: ValidHead(h) && KindOf(h) == W ==> t !in k.q[h]
  {}

  lemma NotInReadyQueues(k: KState, t: nat)
    requires Shape(k) && ReadyOk(k.tsk, k.q) && IsTask(t) && !Active(k.tsk[t])
    ensures forall h :: ValidHead(h) && KindOf(h) == P ==> t !in k.q[h]
  {}

  lemma ReleaseInOrder(k: KState, t: nat, r: KState)
    requires Shape(k) && ReadyOk(k.tsk, k.q) && IsTask(t) && !Active(k.tsk[t]) && ReleaseEffect(k, t, r)
    ensures Orderly(k, r)
  {
    hide InsertAt, Without, InOrder, AllIds, ReadyOk;
    NotInReadyQueues(k, t);
    forall h | ValidHead(h) ensures InOrder(h, k.q[h], r.q[h]) {
      assert r.q[h] == Released(k, t, h);
      InOrderSame(h, k.q[h]);
      InOrderWithout(h, k.q[h], t);
      if h == Ready(k.tsk[t].pri) { InOrderInsert(h, k.q[h], |k.q[h]|, t); }
    }
  }

  lemma RaiseInOrder(k: KState, t: nat, p: Pri, r: KState)
    requires Shape(k) && ReadyOk(k.tsk, k.q) && IsTask(t) && k.tsk[t].pri != p && RaiseEffect(k, t, p, r)
    ensures Orderly(k, r)
  {
    hide InsertAt, Without, InOrder, AllIds, OwnersOk;
    forall h | ValidHead(h) ensures InOrder(h, k.q[h], r.q[h]) {
      InOrderSame(h, k.q[h]);
      InOrderWithout(h, k.q[h], t);
      if h == Ready(p) { InOrderInsert(h, k.q[h], |k.q[h]|, t); }
    }
  }

  // ----- Calls -----

  lemma SleepInOrder(k: KState, c: nat, call: Call)
    requires Inv(k) && Shape(k) && MayCall(k, c, call) && (call.Slp? || call.Tslp? || call.Dly?)
    ensures Orderly(k, Exec(k, c, call).0)
  {
    hide LinksOk, CpuOk, SemOk, MtxOk, OwnOk, IdleOk, ReadyOk, WaitOk, WellFormed, QShape, OwnersOk, Orderly, Park,
      SchedRem, TimeoutIns;
    MayCallCaller(k, c, call);
    if if call.Dly? then call.d != 0 else k.tsk[k.cur[c]].wupcnt == 0 {
      SleepIsPark(k, c, call);
      ParkInOrder(k, k.cur[c], None, if call.Slp? then None else Some(if call.Tslp? then call.tmout else call.d));
    } else {
      OrderlySame(k, Exec(k, c, call).0);
    }
  }

  lemma TwaiInOrder(k: KState, c: nat, s: nat, x: nat)
    requires Inv(k) && Shape(k) && MayCall(k, c, Twai(s, x))
    ensures Orderly(k, TwaiSem(k, c, s, x).0)
  {
    hide LinksOk, CpuOk, SemOk, MtxOk, OwnOk, IdleOk, ReadyOk, WaitOk, WellFormed, QShape, OwnersOk, Orderly, Park,
      MayQueue, Wait;
    if SemBlocks(k, s, x) {
      SemMayQueue(k, c, s, x);
      TwaiIsPark(k, c, s, x);
      ParkInOrder(k, k.cur[c], Some((SemQ(s), SemPlace(k, c, s))), Limit(x));
    } else {
      OrderlySame(k, TwaiSem(k, c, s, x).0);
    }
  }

  ghost predicate SameWaiters(k: KState, l: KState) {
    Shape(k) && Shape(l) && forall h {:trigger l.q[h]} :: ValidHead(h) && KindOf(h) == W ==> l.q[h] == k.q[h]
  }

  lemma BoostInOrder(k: KState, m: nat, t: nat)
    requires Inv(k) && Shape(k) && IsTask(t) && 1 <= m < SLOTS && k.mtx[m].lock
    ensures Orderly(k, Boost(k, m, t)) && SameWaiters(k, Boost(k, m, t))
  {
    hide LinksOk, CpuOk, SemOk, MtxOk, OwnOk, IdleOk, ReadyOk, WaitOk, WellFormed, AllIds, Orderly, Reprioritize;
    if Boosts(k, m, t) {
      ReprioritizeEffect(k, k.mtx[m].owner, k.tsk[t].pri);
      RaiseInOrder(k, k.mtx[m].owner, k.tsk[t].pri, Boost(k, m, t));
    } else {
      OrderlySame(k, k);
    }
  }

  lemma ParkNoReturn(k: KState, l: KState, t: nat, w: Option<(Head, nat)>, x: Option<nat>)
    requires Shape(k) && MayPark(l, t, w, x)
    requires SameWaiters(k, l)
    ensures NoReturn(k, l, Resched(Park(l, t, w, x)))
  {
    hide LinksOk, CpuOk, SemOk, MtxOk, OwnOk, IdleOk, ReadyOk, WaitOk, WellFormed, AllIds, InsertAt, Without, Park;
    ParkQueues(l, t, w, x);
    var r := Resched(Park(l, t, w, x));
    forall h, u | ValidHead(h) && KindOf(h) != T && u in k.q[h] && u in r.q[h] ensures u in l.q[h] {
      WithoutMembers(l.q[h], t);
    }
  }

  lemma LockInOrder(k: KState, c: nat, m: nat, x: nat)
    requires Inv(k) && Shape(k) && MayCall(k, c, Loc(m, x))
    ensures Orderly(k, TlocMtx(k, c, m, x).0)
  {
    hide LinksOk, CpuOk, SemOk, MtxOk, OwnOk, IdleOk, ReadyOk, WaitOk, WellFormed, QShape, OwnersOk, Orderly, Park,
      MayQueue, Wait, Boost, TlocMtx, NoReturn, SameWaiters;
    var t := k.cur[c];
    if MtxBlocks(k, c, m, x) {
      MtxBlocksIs(k, c, m, x);
      TlocIsPark(k, c, m, x);
      BoostKeepsInv(k, m, t);
      BoostMayQueue(k, m, t);
      BoostInOrder(k, m, t);
      var w := Some((MtxQ(m), MtxPlace(k, m, t)));
      ParkInOrder(Boost(k, m, t), t, w, Limit(x));
      ParkNoReturn(k, Boost(k, m, t), t, w, Limit(x));
      OrderlyTrans(k, Boost(k, m, t), TlocMtx(k, c, m, x).0);
    } else {
      FreeLockTable(k, c, m, x);
      OrderlySame(k, TlocMtx(k, c, m, x).0);
    }
  }

  lemma SignalInOrder(k: KState, s: nat)
    requires Inv(k) && Shape(k)
    ensures Orderly(k, SigSem(k, s).0)
  {
    hide LinksOk, CpuOk, SemOk, MtxOk, OwnOk, IdleOk, ReadyOk, WaitOk, WellFormed, AllIds, OwnersOk, Orderly, KeptBut,
      InsertAt, Without, TimeoutRemIfExist;
    if 1 <= s <= MAX_ID && k.sem[s].act && k.q[SemQ(s)] != [] {
      QueueHead(k, SemQ(s));
      SigIsRelease(k, s);
      ReleaseInOrder(k, k.q[SemQ(s)][0], SigSem(k, s).0);
    } else {
      OrderlySame(k, SigSem(k, s).0);
    }
  }

  lemma WakeInOrder(k: KState, c: nat, id: nat)
    requires Inv(k) && Shape(k) && MayCall(k, c, Wup(id))
    ensures Orderly(k, WupTsk(k, c, id).0)
  {
    hide LinksOk, CpuOk, SemOk, MtxOk, OwnOk, IdleOk, ReadyOk, WaitOk, WellFormed, QShape, OwnersOk, KeptBut, Queued,
      InsertAt, Without, TimeoutRemIfExist, InOrder;
    if IsTask(id) && k.tsk[id].stat == WAI {
      var k0 := SetStat(k, k.cur[c], RDY);
      WupIsRelease(k, c, id);
      TouchKeepsInv(k, k.cur[c], k0.tsk[k.cur[c]]);
      ReleaseInOrder(k0, id, WupTsk(k, c, id).0);
    } else {
      OrderlySame(k, WupTsk(k, c, id).0);
    }
  }

  lemma StartInOrder(k: KState, c: nat, id: nat)
    requires Inv(k) && Shape(k) && c < 2
    ensures Orderly(k, ActTsk(k, c, id).0)
  {
    hide LinksOk, CpuOk, SemOk, MtxOk, OwnOk, IdleOk, ReadyOk, WaitOk, WellFormed, QShape, OwnersOk, Orderly, InsertAt,
      Without;
    var t := if id == 0 then k.cur[c] else id;
    if t < SLOTS && k.tsk[t].stat == DMT {
      ActIsRelease(k, t);
      ReleaseInOrder(k, t, ActTsk(k, c, id).0);
    } else {
      OrderlySame(k, ActTsk(k, c, id).0);
    }
  }

  lemma PassInOrder(k: KState, m: nat)
    requires Inv(k) && Shape(k) && 1 <= m < SLOTS && k.mtx[m].lock && MayPass(k, m)
    ensures Orderly(k, PassMtx(k, m)) && ReadyGrows(k, PassMtx(k, m))
  {
    hide LinksOk, CpuOk, SemOk, MtxOk, OwnOk, IdleOk, ReadyOk, WaitOk, WellFormed, AllIds, OwnersOk, InsertAt, Without,
      InOrder, Dequeue, SchedIns, PassMtx;
    if k.q[MtxQ(m)] != [] {
      var n := k.q[MtxQ(m)][0];
      HandOverKeepsBase(k, m);
      PassIsRelease(k, m);
      ReleaseInOrder(HandOver(k, m, n), n, PassMtx(k, m));
      ReleaseReadyGrows(HandOver(k, m, n), n, PassMtx(k, m));
    } else {
      FreeIs(k, m);
      OrderlySame(k, PassMtx(k, m));
    }
  }

  lemma FreeIs(k: KState, m: nat)
    requires Shape(k) && 1 <= m < SLOTS && k.q[MtxQ(m)] == []
    ensures PassMtx(k, m).q == k.q
  {
    hide AllIds;
  }

  ghost predicate ReadyGrows(k: KState, l: KState) {
    Shape(k) && Shape(l) && forall p: nat, u :: 1 <= p <= TMAX_TPRI && u in k.q[Ready(p)] ==> u in l.q[Ready(p)]
  }

  lemma ReleaseReadyGrows(k: KState, t: nat, r: KState)
    requires Shape(k) && IsTask(t) && ReleaseEffect(k, t, r)
    ensures ReadyGrows(k, r)
  {
    hide InsertAt, Without, AllIds;
    forall p: nat, u | 1 <= p <= TMAX_TPRI && u in k.q[Ready(p)] ensures u in r.q[Ready(p)] {
      assert r.q[Ready(p)] == Released(k, t, Ready(p));
      InsertMembers(k.q[Ready(p)], |k.q[Ready(p)]|, t);
    }
  }

  lemma SettleInOrder(k: KState, t: nat)
    requires BaseInv(k) && Shape(k) && IsTask(t)
    ensures Orderly(k, Settle(k, t)) && SameWaiters(k, Settle(k, t))
  {
    hide LinksOk, CpuOk, SemOk, MtxOk, IdleOk, ReadyOk, WaitOk, AllIds, Orderly, Reprioritize;
    var x := k.tsk[t];
    var n := (x.mtxcnt - 1) % UINT_MOD;
    var k1 := SetTsk(k, t, x.(mtxcnt := n));
    TouchKeepsInv(k, t, k1.tsk[t]);
    OrderlySame(k, k1);
    if n == 0 && x.bpri != x.pri {
      ReprioritizeEffect(k1, t, x.bpri);
      RaiseInOrder(k1, t, x.bpri, Settle(k, t));
      OrderlyFrom(k, k1, Settle(k, t));
    }
  }

  lemma OrderlyFrom(k: KState, k1: KState, r: KState)
    requires Orderly(k1, r) && Shape(k) && k1.q == k.q
    ensures Orderly(k, r)
  {
    hide AllIds, InOrder, OwnersOk;
  }

  lemma NoReturnWhenGrowing(k: KState, l: KState, r: KState)
    requires ReadyGrows(k, l) && SameWaiters(l, r)
    ensures NoReturn(k, l, r)
  {
    hide AllIds, OwnersOk;
  }

  lemma UnlockInOrder(k: KState, c: nat, m: nat)
    requires Inv(k) && Shape(k) && MayCall(k, c, Unl(m))
    ensures Orderly(k, UnlMtx(k, c, m).0)
  {
    hide LinksOk, CpuOk, SemOk, MtxOk, OwnOk, IdleOk, ReadyOk, WaitOk, WellFormed, QShape, OwnersOk, Orderly, PassMtx,
      Settle, NoReturn, ReadyGrows, SameWaiters;
    if Unlocks(k, c, m) {
      PassKeepsBase(k, m);
      PassInOrder(k, m);
      SettleInOrder(PassMtx(k, m), k.cur[c]);
      NoReturnWhenGrowing(k, PassMtx(k, m), UnlMtx(k, c, m).0);
      OrderlyTrans(k, PassMtx(k, m), UnlMtx(k, c, m).0);
    } else {
      OrderlySame(k, UnlMtx(k, c, m).0);
    }
  }

  lemma PlainInOrder(k: KState, c: nat, call: Call)
    requires Shape(k) && WellTyped(c, call) && (call.Cre? || call.CreS? || call.Pol? || call.CreM?)
    ensures Orderly(k, Exec(k, c, call).0)
  {
    hide QShape, Orderly;
    OrderlySame(k, Exec(k, c, call).0);
  }

  /** Every call. */
  lemma CallInOrder(k: KState, c: nat, call: Call)
    requires Inv(k) && MayCall(k, c, call) && Shape(k)
    ensures Orderly(k, Exec(k, c, call).0)
  {
    hide Inv, MayCall, SlpTsk, TslpTsk, DlyTsk, WupTsk, ActTsk, SigSem, TwaiSem, TlocMtx, UnlMtx, QShape, Orderly,
      OwnersOk;
    MayCallCaller(k, c, call);
    match call
    case Slp => SleepInOrder(k, c, call);
    case Tslp(_) => SleepInOrder(k, c, call);
    case Dly(_) => SleepInOrder(k, c, call);
    case Wup(id) => WakeInOrder(k, c, id);
    case Act(id) => StartInOrder(k, c, id);
    case Sig(s) => SignalInOrder(k, s);
    case Twai(s, x) => TwaiInOrder(k, c, s, x);
    case Loc(m, x) => LockInOrder(k, c, m, x);
    case Unl(m) => UnlockInOrder(k, c, m);
    case _ => PlainInOrder(k, c, call);
  }

  // ----- Ticks -----

  /** The tasks of priority p in s, in order. */
  function OfPriority(tsk: seq<Tcb>, s: seq<nat>, p: nat): seq<nat> {
    if s == [] then [] else
    var rest := OfPriority(tsk, s[1..], p);
    if s[0] < |tsk| && tsk[s[0]].pri == p then [s[0]] + rest else rest
  }

  lemma OfPriorityAlike(tsk: seq<Tcb>, tsk': seq<Tcb>, s: seq<nat>, p: nat)
    requires |tsk'| == |tsk| && forall t :: 0 <= t < |tsk| ==> tsk'[t].pri == tsk[t].pri
    ensures OfPriority(tsk', s, p) == OfPriority(tsk, s, p)
  {}

  /** The tasks in due joined their ready queues, in that order. */
  ghost predicate JoinedInOrder(k: KState, r: KState, due: seq<nat>) {
    && Shape(k) && Shape(r)
    && forall p: nat {:trigger r.q[Ready(p)]} :: 1 <= p <= TMAX_TPRI ==>
         r.q[Ready(p)] == k.q[Ready(p)] + OfPriority(k.tsk, due, p)
  }

  lemma OfPriorityCons(tsk: seq<Tcb>, t: nat, due: seq<nat>, p: nat)
    requires t < |tsk|
    ensures OfPriority(tsk, [t] + due, p) == (if tsk[t].pri == p then [t] else []) + OfPriority(tsk, due, p)
  {
    assert ([t] + due)[1..] == due;
  }

  lemma AppendThen(s: seq<nat>, t: nat, rest: seq<nat>)
    ensures InsertAt(s, |s|, t) + rest == s + ([t] + rest)
    ensures s + rest == s + ([] + rest)
  {}

  lemma JoinedStep(k: KState, k1: KState, r: KState, t: nat, due: seq<nat>)
    requires Shape(k) && IsTask(t) && ReleaseEffect(k, t, k1) && JoinedInOrder(k1, r, due)
    ensures JoinedInOrder(k, r, [t] + due)
  {
    hide Without, AllIds, OwnersOk, OfPriority, InsertAt;
    forall p: nat | 1 <= p <= TMAX_TPRI ensures r.q[Ready(p)] == k.q[Ready(p)] + OfPriority(k.tsk, [t] + due, p) {
      OfPriorityAlike(k.tsk, k1.tsk, due, p);
      OfPriorityCons(k.tsk, t, due, p);
      AppendThen(k.q[Ready(p)], t, OfPriority(k.tsk, due, p));
      assert k1.q[Ready(p)] == Released(k, t, Ready(p));
    }
  }

  lemma ExpireLoopOrder(k: KState, woken: bool)
    requires BaseInv(k) && OwnOk(k.tsk, k.mtx) && InRange(k.q[Tmo], k.delta) && Shape(k)
    ensures Orderly(k, ExpireLoop(k, woken))
    ensures JoinedInOrder(k, ExpireLoop(k, woken), k.q[Tmo][..Due(k.q[Tmo], k.delta)])
    decreases |k.q[Tmo]|
  {
    hide LinksOk, MtxOk, SemOk, OwnOk, CpuOk, ReadyOk, WaitOk, IdleOk, AllIds, Expire, NoDup, Orderly, OwnersOk,
      OfPriority, JoinedInOrder;
    var s := k.q[Tmo];
    var r := ExpireLoop(k, woken);
    if s == [] || k.delta[s[0]] != 0 {
      OrderlySame(k, r);
      JoinedNone(k, r, s[..0]);
    } else {
      var k1 := Expire(k);
      ExpireIsRelease(k);
      ReleaseKeepsBase(k, s[0], k1);
      ReleaseKeepsOwn(k, s[0], k1);
      TmoNoDup(k);
      DueStep(s, k.delta);
      ExpireLoopOrder(k1, true);
      ExpireLoopEffect(k1, true);
      JoinedStep(k, k1, r, s[0], s[1..][..Due(s[1..], k.delta)]);
      ReleaseInOrder(k, s[0], k1);
      ReleaseReadyGrows(k, s[0], k1);
      NoReturnAfterRelease(k, k1, r);
      OrderlyTrans(k, k1, r);
    }
  }

  lemma JoinedNone(k: KState, r: KState, s: seq<nat>)
    requires Shape(k) && Shape(r) && r.q == k.q && s == []
    ensures JoinedInOrder(k, r, s)
  {
    hide AllIds, OwnersOk;
  }

  lemma NoReturnAfterRelease(k: KState, l: KState, r: KState)
    requires ReadyGrows(k, l) && Shape(r)
    requires forall h, u: nat {:trigger u in r.q[h]} :: ValidHead(h) && KindOf(h) == W && u in r.q[h] ==> u in l.q[h]
    ensures NoReturn(k, l, r)
  {
    hide AllIds, OwnersOk;
  }

  /** A tick leaves the object queues' order alone; those whose wait is over join their ready queues behind everybody
      else, in the order of the timeout list. */
  lemma TickInOrder(k: KState)
    requires Inv(k) && Shape(k)
    ensures Orderly(k, Tick(k))
    ensures JoinedInOrder(k, Tick(k), k.q[Tmo][..Due(k.q[Tmo], Ticked(k.q[Tmo], k.delta))])
  {
    hide LinksOk, MtxOk, SemOk, OwnOk, CpuOk, ReadyOk, WaitOk, IdleOk, AllIds, Orderly, OwnersOk, JoinedInOrder,
      ExpireLoop, Due, Ticked;
    var k0 := k.(delta := Ticked(k.q[Tmo], k.delta));
    TickExact(k.q[Tmo], k.delta);
    TickedShape(k);
    ExpireLoopOrder(k0, false);
    OrderlyFrom(k, k0, Tick(k));
    JoinedFrom(k, k0, Tick(k), k.q[Tmo][..Due(k.q[Tmo], k0.delta)]);
  }

  lemma TickedShape(k: KState)
    requires Inv(k) && Shape(k)
    ensures var k0 := k.(delta := Ticked(k.q[Tmo], k.delta)); BaseInv(k0) && Shape(k0) && InRange(k0.q[Tmo], k0.delta)
  {
    hide LinksOk, MtxOk, SemOk, OwnOk, CpuOk, ReadyOk, WaitOk, IdleOk, AllIds, OwnersOk;
  }

  lemma JoinedFrom(k: KState, k0: KState, r: KState, due: seq<nat>)
    requires JoinedInOrder(k0, r, due) && Shape(k) && k0.q == k.q && k0.tsk == k.tsk
    ensures JoinedInOrder(k, r, due)
  {
    hide AllIds, OwnersOk, OfPriority;
  }

  // ----- Every step and every run -----

  lemma StepInOrder(k: KState, op: Op)
    requires Inv(k) && Enabled(k, op)
    ensures Orderly(k, Apply(k, op))
  {
    hide Inv, Exec, MayCall, Tick, Dispatch, AllIds, OwnersOk, InOrder, Orderly, SetEax;
    InvIsShape(k);
    StepKeepsInv(k, op);
    InvIsShape(Apply(k, op));
    match op
    case Syscall(c, call) =>
      CallInOrder(k, c, call);
      CallQueues(k, c, call);
      OrderlyTo(k, Exec(k, c, call).0, Apply(k, op));
    case TimerTick => TickInOrder(k);
    case Resume(c) =>
      DispatchTable(k, c);
      OrderlySame(k, Dispatch(k, c));
  }

  lemma CallQueues(k: KState, c: nat, call: Call)
    requires Enabled(k, Syscall(c, call))
    ensures WellTyped(c, call) && Apply(k, Syscall(c, call)).q == Exec(k, c, call).0.q
  {
    hide QShape, Exec, OwnersOk;
  }

  lemma OrderlyTo(k: KState, l: KState, r: KState)
    requires Orderly(k, l) && Shape(r) && r.q == l.q
    ensures Orderly(k, r)
  {
    hide AllIds, InOrder, OwnersOk;
  }

  /** Task v is in ready queue p, and w is not, or behind v. */
  ghost predicate Ahead(k: KState, p: nat, v: nat, w: nat) {
    && Shape(k) && 1 <= p <= TMAX_TPRI && v in k.q[Ready(p)] && v != w
    && (w in k.q[Ready(p)] ==> Before(k.q[Ready(p)], v, w))
  }

  lemma InOneOrder(s: seq<nat>, u: nat, v: nat)
    requires u in s && v in s && u != v
    ensures Before(s, u, v) || Before(s, v, u)
  {
    var i :| 0 <= i < |s| && s[i] == u;
    var j :| 0 <= j < |s| && s[j] == v;
  }

  lemma NotBothOrders(s: seq<nat>, u: nat, v: nat)
    requires NoDup(s) && Before(s, u, v)
    ensures !Before(s, v, u)
  {}

  lemma AheadStep(k: KState, r: KState, p: nat, v: nat, w: nat)
    requires Inv(k) && Orderly(k, r) && Ahead(k, p, v, w) && v in r.q[Ready(p)]
    ensures Ahead(r, p, v, w)
  {
    hide LinksOk, MtxOk, SemOk, OwnOk, CpuOk, ReadyOk, WaitOk, IdleOk, WellFormed, AllIds, OwnersOk, Before, NoDup;
    var s, s' := k.q[Ready(p)], r.q[Ready(p)];
    assert NoOvertaking(s, s');
    ReadyNoDup(k, p);
    if w in s' {
      InOneOrder(s', v, w);
      if Before(s', w, v) {
        assert Before(s, w, v);
        BeforeMembers(s, w, v);
        NotBothOrders(s, v, w);
      }
    }
  }

  lemma ReadyNoDup(k: KState, p: nat)
    requires Shape(k) && LinksOk(k.q) && 1 <= p <= TMAX_TPRI
    ensures NoDup(k.q[Ready(p)])
  {}

  lemma BeforeMembers(s: seq<nat>, u: nat, v: nat)
    requires Before(s, u, v)
    ensures u in s && v in s
  {}

  /** Over every run, as long as task v stays in a ready queue, nobody who was behind it, or joined the queue later,
      gets before it. */
  lemma {:induction false} FirstComeFirstServed(ks: seq<KState>, ops: seq<Op>, p: nat, v: nat, w: nat, i: nat, n: nat)
    requires IsRun(ks, ops) && i <= n <= |ops| && Inv(ks[i]) && Ahead(ks[i], p, v, w)
    requires forall j :: i <= j <= n ==> Ready(p) in ks[j].q && v in ks[j].q[Ready(p)]
    ensures Inv(ks[n]) && Ahead(ks[n], p, v, w)
    decreases n
  {
    hide Inv, Enabled, Apply, Ahead, Orderly;
    if i < n {
      FirstComeFirstServed(ks, ops, p, v, w, i, n - 1);
      RunStep(ks, ops, n - 1);
      StepKeepsInv(ks[n - 1], ops[n - 1]);
      StepInOrder(ks[n - 1], ops[n - 1]);
      AheadStep(ks[n - 1], ks[n], p, v, w);
    }
  }
}
