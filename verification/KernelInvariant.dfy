/** The invariant of the kernel's tables and its preservation by the elementary moves every service call is made of:
    a running task is parked, a waiting task is released, a task changes priority. */
module KernelInvariant {
  import opened Links
  import opened Timeouts
  import opened KernelState

  /** The idle tasks of CPU 0 and CPU 1 (i386/proc.c). */
  const IDLE0: nat := 5
  const IDLE1: nat := 6

  type Tasks = s: seq<Tcb> | |s| == SLOTS witness seq(SLOTS, _ => Tcb(NON, 1, 1, 0, 0, 0, 0, 0))

  /** A task is in the ready queue of its current priority, and in no other, exactly when it is RDY or RUN. */
  ghost predicate ReadyOk(tsk: Tasks, q: Queues)
    requires QShape(q)
  {
    forall t: nat, p: nat :: IsTask(t) && 1 <= p <= TMAX_TPRI ==>
      (t in q[Ready(p)] <==> Active(tsk[t]) && tsk[t].pri == p)
  }

  /** No queue holds a task twice, no task is in two queues through the same link. */
  ghost predicate LinksOk(q: Queues) {
    Apart(q) && forall h :: h in q ==> NoDup(q[h])
  }

  /** A task linked through wlink or tlink is waiting. */
  ghost predicate WaitOk(tsk: Tasks, q: Queues)
    requires QShape(q)
  {
    forall h, t :: h in q && KindOf(h) != P && t in q[h] ==> tsk[t].stat == WAI
  }

  /** Each CPU has at most one RUN task, which is its current task. */
  ghost predicate CpuOk(tsk: Tasks, cur: seq<nat>)
    requires |cur| == 2 && IsTask(cur[0]) && IsTask(cur[1])
  {
    && (forall t: nat :: IsTask(t) && tsk[t].stat == RUN ==> tsk[t].cpu < 2 && cur[tsk[t].cpu] == t)
    && (forall c :: 0 <= c < 2 ==> tsk[cur[c]].cpu == c && tsk[cur[c]].stat != NON && tsk[cur[c]].stat != DMT)
  }

  ghost predicate Ids(s: seq<nat>) {
    forall i :: 0 <= i < |s| ==> IsTask(s[i])
  }

  /** Ordered from the most urgent (smallest) priority on. */
  ghost predicate Sorted(tsk: Tasks, s: seq<nat>)
    requires Ids(s)
  {
    forall i, j :: 0 <= i < j < |s| ==> tsk[s[i]].pri <= tsk[s[j]].pri
  }

  /** No task of s is more urgent than priority p. */
  ghost predicate NoneAbove(tsk: Tasks, s: seq<nat>, p: nat)
    requires Ids(s)
  {
    forall i :: 0 <= i < |s| ==> p <= tsk[s[i]].pri
  }

  /** Tasks wait on a semaphore only while its count is 0; the count stays within its maximum. */
  ghost predicate SemAt(tsk: Tasks, s: seq<nat>, x: Sem)
    requires Ids(s)
  {
    && x.cnt <= x.max < UINT_MOD - 1
    && (s != [] ==> x.act && x.cnt == 0)
    && (x.atr != 0 ==> Sorted(tsk, s))
  }

  ghost predicate SemOk(tsk: Tasks, q: Queues, sem: seq<Sem>)
    requires QShape(q) && |sem| == MAX_ID + 1
  {
    forall s: nat :: 1 <= s <= MAX_ID ==> SemAt(tsk, q[SemQ(s)], sem[s])
  }

  /** How many of the mutexes 1..n task t owns. */
  ghost function Owned(mtx: seq<Mtx>, t: nat, n: nat): nat
    requires n < |mtx|
  {
    if n == 0 then 0 else Owned(mtx, t, n - 1) + (if mtx[n].lock && mtx[n].owner == t then 1 else 0)
  }

  /** Waiters imply a locked mutex; its owner is at least as urgent as each of them. */
  ghost predicate MtxAt(tsk: Tasks, s: seq<nat>, x: Mtx)
    requires Ids(s) && (x.lock ==> IsTask(x.owner))
  {
    && (s != [] ==> x.lock)
    && Sorted(tsk, s)
    && (x.lock ==> NoneAbove(tsk, s, tsk[x.owner].pri))
  }

  ghost predicate MtxOk(tsk: Tasks, q: Queues, mtx: seq<Mtx>)
    requires QShape(q) && OwnersOk(mtx)
  {
    forall m: nat :: 1 <= m < SLOTS ==> MtxAt(tsk, q[MtxQ(m)], mtx[m])
  }

  /** mtxcnt counts the owned mutexes, only started tasks own any, and a task owning none has its base priority. */
  ghost predicate OwnAt(x: Tcb, owned: nat) {
    && x.mtxcnt == owned
    && (!Started(x) ==> owned == 0)
    && (owned == 0 ==> x.pri == x.bpri)
  }

  ghost predicate OwnOk(tsk: Tasks, mtx: seq<Mtx>)
    requires |mtx| == SLOTS
  {
    forall t: nat :: IsTask(t) ==> OwnAt(tsk[t], Owned(mtx, t, SLOTS - 1))
  }

  /** The idle task of each CPU is always in the ready queue. */
  ghost predicate IdleOk(tsk: Tasks) {
    && Active(tsk[IDLE0]) && tsk[IDLE0].cpu == 0
    && Active(tsk[IDLE1]) && tsk[IDLE1].cpu == 1
  }

  /** Everything that holds even in the middle of a tick or of handing a mutex over. */
  ghost predicate BaseInv(k: KState) {
    && Shape(k)
    && ReadyOk(k.tsk, k.q) && LinksOk(k.q) && WaitOk(k.tsk, k.q)
    && CpuOk(k.tsk, k.cur) && IdleOk(k.tsk)
    && SemOk(k.tsk, k.q, k.sem) && MtxOk(k.tsk, k.q, k.mtx)
  }

  ghost predicate Inv(k: KState) {
    BaseInv(k) && WellFormed(k.q[Tmo], k.delta) && OwnOk(k.tsk, k.mtx)
  }

  // ----- What each part of the invariant depends on -----

  /** All tasks keep the fields that the object queues depend on. */
  ghost predicate Alike(tsk: Tasks, tsk': Tasks) {
    forall t: nat :: IsTask(t) ==> tsk'[t].pri == tsk[t].pri
  }

  ghost predicate SameBut(tsk: Tasks, tsk': Tasks, t: nat) {
    forall u: nat :: IsTask(u) && u != t ==> tsk'[u] == tsk[u]
  }

  lemma ReadyLeave(tsk: Tasks, q: Queues, tsk': Tasks, q': Queues, t: nat)
    requires QShape(q) && QShape(q') && ReadyOk(tsk, q) && IsTask(t) && NoDup(q[Ready(tsk[t].pri)])
    requires SameBut(tsk, tsk', t) && !Active(tsk'[t])
    requires forall p: nat {:trigger q'[Ready(p)]} :: 1 <= p <= TMAX_TPRI ==>
      q'[Ready(p)] == if p == tsk[t].pri then Without(q[Ready(p)], t) else q[Ready(p)]
    ensures ReadyOk(tsk', q')
  {
    WithoutMembers(q[Ready(tsk[t].pri)], t);
    WithoutNoDup(q[Ready(tsk[t].pri)], t);
    hide Without, NoDup;
  }

  lemma ReadyJoin(tsk: Tasks, q: Queues, tsk': Tasks, q': Queues, t: nat)
    requires QShape(q) && QShape(q') && ReadyOk(tsk, q) && IsTask(t) && !Active(tsk[t])
    requires SameBut(tsk, tsk', t) && Active(tsk'[t])
    requires forall p: nat {:trigger q'[Ready(p)]} :: 1 <= p <= TMAX_TPRI ==>
      q'[Ready(p)] == if p == tsk'[t].pri then InsertAt(q[Ready(p)], |q[Ready(p)]|, t) else q[Ready(p)]
    ensures ReadyOk(tsk', q')
  {
    var s := q[Ready(tsk'[t].pri)];
    InsertMembers(s, |s|, t);
    hide InsertAt;
  }

  lemma LinksInsert(q: Queues, h: Head, i: nat, t: nat)
    requires LinksOk(q) && h in q && i <= |q[h]| && !Queued(q, KindOf(h), t)
    ensures LinksOk(q[h := InsertAt(q[h], i, t)])
  {
    InsertMembers(q[h], i, t);
    InsertNoDup(q[h], i, t);
    hide InsertAt, NoDup;
  }

  lemma LinksRemove(q: Queues, h: Head, t: nat)
    requires LinksOk(q) && h in q
    ensures LinksOk(q[h := Without(q[h], t)])
  {
    WithoutMembers(q[h], t);
    WithoutNoDup(q[h], t);
    hide Without, NoDup;
  }

  lemma WaitJoin(tsk: Tasks, q: Queues, tsk': Tasks, q': Queues, t: nat)
    requires QShape(q) && QShape(q') && WaitOk(tsk, q) && IsTask(t)
    requires SameBut(tsk, tsk', t) && tsk'[t].stat == WAI
    requires forall h, u :: ValidHead(h) && KindOf(h) != P && u in q'[h] ==> u in q[h] || u == t
    ensures WaitOk(tsk', q')
  {}

  lemma WaitLeave(tsk: Tasks, q: Queues, tsk': Tasks, q': Queues, t: nat)
    requires QShape(q) && QShape(q') && WaitOk(tsk, q) && LinksOk(q) && IsTask(t)
    requires SameBut(tsk, tsk', t)
    requires forall h {:trigger q'[h]} :: ValidHead(h) && KindOf(h) != P ==> q'[h] == Without(q[h], t)
    ensures WaitOk(tsk', q')
  {
    hide Without, NoDup;
    forall h, u | h in q' && KindOf(h) != P && u in q'[h] ensures tsk'[u].stat == WAI {
      WithoutMembers(q[h], t);
      WithoutNoDup(q[h], t);
    }
  }

  lemma CpuKeep(tsk: Tasks, cur: seq<nat>, t: nat, x: Tcb)
    requires |cur| == 2 && IsTask(cur[0]) && IsTask(cur[1]) && CpuOk(tsk, cur) && IsTask(t)
    requires x.cpu == tsk[t].cpu && (x.stat == RDY || x.stat == WAI || x.stat == tsk[t].stat)
    ensures CpuOk(tsk[t := x], cur)
  {}

  lemma OwnKeep(tsk: Tasks, mtx: seq<Mtx>, t: nat, x: Tcb)
    requires |mtx| == SLOTS && OwnOk(tsk, mtx) && IsTask(t)
    requires x.mtxcnt == tsk[t].mtxcnt && (x.mtxcnt == 0 ==> x.pri == x.bpri)
    requires Started(x) || x.mtxcnt == 0
    ensures OwnOk(tsk[t := x], mtx)
  {
    hide Owned;
  }

  // ----- Queues ordered by priority -----

  lemma SortedAlike(tsk: Tasks, tsk': Tasks, s: seq<nat>)
    requires Ids(s) && Sorted(tsk, s) && Alike(tsk, tsk')
    ensures Sorted(tsk', s)
  {}

  lemma NoneAboveAlike(tsk: Tasks, tsk': Tasks, s: seq<nat>, p: nat)
    requires Ids(s) && NoneAbove(tsk, s, p) && Alike(tsk, tsk')
    ensures NoneAbove(tsk', s, p)
  {}

  /** Inserting task t at place i keeps queue s ordered by priority. */
  ghost predicate FitsAt(tsk: Tasks, s: seq<nat>, i: nat, t: nat)
    requires IsTask(t) && Ids(s)
  {
    forall j :: 0 <= j < |s| ==> if j < i then tsk[s[j]].pri <= tsk[t].pri else tsk[t].pri <= tsk[s[j]].pri
  }

  lemma InsertIds(s: seq<nat>, i: nat, t: nat)
    requires Ids(s) && IsTask(t) && i <= |s|
    ensures Ids(InsertAt(s, i, t))
  {}

  lemma SortedInsert(tsk: Tasks, s: seq<nat>, i: nat, t: nat)
    requires Ids(s) && IsTask(t) && i <= |s| && Sorted(tsk, s) && FitsAt(tsk, s, i, t)
    ensures Ids(InsertAt(s, i, t)) && Sorted(tsk, InsertAt(s, i, t))
  {}

  lemma NoneAboveInsert(tsk: Tasks, s: seq<nat>, i: nat, t: nat, p: nat)
    requires Ids(s) && IsTask(t) && i <= |s| && NoneAbove(tsk, s, p) && p <= tsk[t].pri
    ensures Ids(InsertAt(s, i, t)) && NoneAbove(tsk, InsertAt(s, i, t), p)
  {}

  /** ins_pri puts a task where the queue stays ordered, behind the waiters of its own priority. */
  lemma PriPositionFits(tsk: Tasks, s: seq<nat>, t: nat)
    requires IsTask(t) && Ids(s) && Sorted(tsk, s)
    ensures var i := PriPosition(tsk, s, tsk[t].pri);
            FitsAt(tsk, s, i, t) && forall j :: i <= j < |s| ==> tsk[s[j]].pri > tsk[t].pri
  {}

  lemma WithoutIds(s: seq<nat>, t: nat)
    requires Ids(s)
    ensures Ids(Without(s, t))
  {}

  lemma SortedWithout(tsk: Tasks, s: seq<nat>, t: nat)
    requires Ids(s) && Sorted(tsk, s)
    ensures Ids(Without(s, t)) && Sorted(tsk, Without(s, t))
  {}

  lemma NoneAboveWithout(tsk: Tasks, s: seq<nat>, t: nat, p: nat)
    requires Ids(s) && NoneAbove(tsk, s, p)
    ensures Ids(Without(s, t)) && NoneAbove(tsk, Without(s, t), p)
  {}

  // ----- The object queues when one task joins or leaves -----

  lemma SemJoin(tsk: Tasks, tsk': Tasks, s: seq<nat>, x: Sem, i: nat, t: nat)
    requires Ids(s) && SemAt(tsk, s, x) && Alike(tsk, tsk') && IsTask(t) && i <= |s|
    requires x.act && x.cnt == 0 && (x.atr != 0 ==> FitsAt(tsk, s, i, t))
    ensures Ids(InsertAt(s, i, t)) && SemAt(tsk', InsertAt(s, i, t), x)
  {
    InsertIds(s, i, t);
    if x.atr != 0 { SortedInsert(tsk, s, i, t); SortedAlike(tsk, tsk', InsertAt(s, i, t)); }
  }

  lemma SemKeep(tsk: Tasks, tsk': Tasks, s: seq<nat>, x: Sem)
    requires Ids(s) && SemAt(tsk, s, x) && Alike(tsk, tsk')
    ensures SemAt(tsk', s, x)
  {
    if x.atr != 0 { SortedAlike(tsk, tsk', s); }
  }

  lemma SemLeave(tsk: Tasks, tsk': Tasks, s: seq<nat>, x: Sem, t: nat)
    requires Ids(s) && SemAt(tsk, s, x) && Alike(tsk, tsk')
    ensures Ids(Without(s, t)) && SemAt(tsk', Without(s, t), x)
  {
    WithoutIds(s, t);
    if x.atr != 0 { SortedWithout(tsk, s, t); SortedAlike(tsk, tsk', Without(s, t)); }
  }

  lemma MtxJoin(tsk: Tasks, tsk': Tasks, s: seq<nat>, x: Mtx, i: nat, t: nat)
    requires Ids(s) && (x.lock ==> IsTask(x.owner)) && MtxAt(tsk, s, x) && Alike(tsk, tsk') && IsTask(t) && i <= |s|
    requires x.lock && tsk[x.owner].pri <= tsk[t].pri && FitsAt(tsk, s, i, t)
    ensures Ids(InsertAt(s, i, t)) && MtxAt(tsk', InsertAt(s, i, t), x)
  {
    SortedInsert(tsk, s, i, t);
    NoneAboveInsert(tsk, s, i, t, tsk[x.owner].pri);
    SortedAlike(tsk, tsk', InsertAt(s, i, t));
    NoneAboveAlike(tsk, tsk', InsertAt(s, i, t), tsk[x.owner].pri);
  }

  lemma MtxKeep(tsk: Tasks, tsk': Tasks, s: seq<nat>, x: Mtx)
    requires Ids(s) && (x.lock ==> IsTask(x.owner)) && MtxAt(tsk, s, x) && Alike(tsk, tsk')
    ensures MtxAt(tsk', s, x)
  {
    SortedAlike(tsk, tsk', s);
    if x.lock { NoneAboveAlike(tsk, tsk', s, tsk[x.owner].pri); }
  }

  lemma MtxLeave(tsk: Tasks, tsk': Tasks, s: seq<nat>, x: Mtx, t: nat)
    requires Ids(s) && (x.lock ==> IsTask(x.owner)) && MtxAt(tsk, s, x) && Alike(tsk, tsk')
    ensures Ids(Without(s, t)) && MtxAt(tsk', Without(s, t), x)
  {
    SortedWithout(tsk, s, t);
    SortedAlike(tsk, tsk', Without(s, t));
    if x.lock {
      NoneAboveWithout(tsk, s, t, tsk[x.owner].pri);
      NoneAboveAlike(tsk, tsk', Without(s, t), tsk[x.owner].pri);
    }
  }

  lemma ObjectsJoin(k: KState, r: KState, h: Head, i: nat, t: nat)
    requires Shape(k) && Shape(r) && SemOk(k.tsk, k.q, k.sem) && MtxOk(k.tsk, k.q, k.mtx)
    requires r.sem == k.sem && r.mtx == k.mtx && Alike(k.tsk, r.tsk) && IsTask(t) && MayQueue(k, t, h, i)
    requires forall g {:trigger r.q[g]} :: ValidHead(g) && KindOf(g) == W ==>
      r.q[g] == if g == h then InsertAt(k.q[h], i, t) else k.q[g]
    ensures SemOk(r.tsk, r.q, r.sem) && MtxOk(r.tsk, r.q, r.mtx)
  {
    hide InsertAt, SemAt, MtxAt, FitsAt, Alike;
    forall s: nat | 1 <= s <= MAX_ID ensures SemAt(r.tsk, r.q[SemQ(s)], r.sem[s]) {
      if SemQ(s) == h { SemJoin(k.tsk, r.tsk, k.q[h], k.sem[s], i, t); }
      else { SemKeep(k.tsk, r.tsk, k.q[SemQ(s)], k.sem[s]); }
    }
    forall m: nat | 1 <= m < SLOTS ensures MtxAt(r.tsk, r.q[MtxQ(m)], r.mtx[m]) {
      if MtxQ(m) == h { MtxJoin(k.tsk, r.tsk, k.q[h], k.mtx[m], i, t); }
      else { MtxKeep(k.tsk, r.tsk, k.q[MtxQ(m)], k.mtx[m]); }
    }
  }

  lemma ObjectsKeep(k: KState, r: KState)
    requires Shape(k) && Shape(r) && SemOk(k.tsk, k.q, k.sem) && MtxOk(k.tsk, k.q, k.mtx)
    requires r.sem == k.sem && r.mtx == k.mtx && Alike(k.tsk, r.tsk)
    requires forall g {:trigger r.q[g]} :: ValidHead(g) && KindOf(g) == W ==> r.q[g] == k.q[g]
    ensures SemOk(r.tsk, r.q, r.sem) && MtxOk(r.tsk, r.q, r.mtx)
  {
    hide SemAt, MtxAt, Alike;
    forall s: nat | 1 <= s <= MAX_ID ensures SemAt(r.tsk, r.q[SemQ(s)], r.sem[s]) {
      SemKeep(k.tsk, r.tsk, k.q[SemQ(s)], k.sem[s]);
    }
    forall m: nat | 1 <= m < SLOTS ensures MtxAt(r.tsk, r.q[MtxQ(m)], r.mtx[m]) {
      MtxKeep(k.tsk, r.tsk, k.q[MtxQ(m)], k.mtx[m]);
    }
  }

  lemma ObjectsLeave(k: KState, r: KState, t: nat)
    requires Shape(k) && Shape(r) && SemOk(k.tsk, k.q, k.sem) && MtxOk(k.tsk, k.q, k.mtx)
    requires r.sem == k.sem && r.mtx == k.mtx && Alike(k.tsk, r.tsk)
    requires forall g {:trigger r.q[g]} :: ValidHead(g) && KindOf(g) == W ==> r.q[g] == Without(k.q[g], t)
    ensures SemOk(r.tsk, r.q, r.sem) && MtxOk(r.tsk, r.q, r.mtx)
  {
    hide Without, SemAt, MtxAt, Alike;
    forall s: nat | 1 <= s <= MAX_ID ensures SemAt(r.tsk, r.q[SemQ(s)], r.sem[s]) {
      SemLeave(k.tsk, r.tsk, k.q[SemQ(s)], k.sem[s], t);
    }
    forall m: nat | 1 <= m < SLOTS ensures MtxAt(r.tsk, r.q[MtxQ(m)], r.mtx[m]) {
      MtxLeave(k.tsk, r.tsk, k.q[MtxQ(m)], k.mtx[m], t);
    }
  }

  // ----- Parking a running task -----

  /** Leave the ready queue to wait: through wlink at place w of an object's queue, through tlink for x ticks. */
  ghost function Park(k: KState, t: nat, w: Option<(Head, nat)>, x: Option<nat>): (r: KState)
    requires Shape(k) && IsTask(t)
    requires w.Some? ==> ValidHead(w.value.0) && w.value.1 <= |k.q[w.value.0]|
    requires x.Some? ==> x.value < UINT_MOD
    ensures Shape(r)
  {
    var k1 := if w.Some? then Enqueue(k, w.value.0, w.value.1, t) else k;
    var k2 := SetStat(SchedRem(k1, t), t, WAI);
    if x.Some? then TimeoutIns(k2, t, x.value) else k2
  }

  /** The object task t is about to wait for lets it wait there. */
  ghost predicate MayQueue(k: KState, t: nat, h: Head, i: nat)
    requires Shape(k) && IsTask(t)
  {
    && ValidHead(h) && KindOf(h) == W && i <= |k.q[h]|
    && (h.SemQ? ==> k.sem[h.s].act && k.sem[h.s].cnt == 0 && (k.sem[h.s].atr != 0 ==> FitsAt(k.tsk, k.q[h], i, t)))
    && (h.MtxQ? ==> k.mtx[h.m].lock && k.tsk[k.mtx[h.m].owner].pri <= k.tsk[t].pri && FitsAt(k.tsk, k.q[h], i, t))
  }

  ghost predicate MayPark(k: KState, t: nat, w: Option<(Head, nat)>, x: Option<nat>) {
    && Inv(k) && IsTask(t) && Active(k.tsk[t]) && t != IDLE0 && t != IDLE1
    && (w.Some? ==> MayQueue(k, t, w.value.0, w.value.1))
    && (x.Some? ==> 1 <= x.value < UINT_MOD)
  }

  lemma ActiveIsUnlinked(k: KState, t: nat)
    requires Shape(k) && WaitOk(k.tsk, k.q) && IsTask(t) && k.tsk[t].stat != WAI
    ensures !Queued(k.q, W, t) && !Queued(k.q, T, t) && t !in k.q[Tmo]
  {}

  lemma InactiveIsUnlinked(k: KState, t: nat)
    requires Shape(k) && ReadyOk(k.tsk, k.q) && IsTask(t) && !Active(k.tsk[t])
    ensures !Queued(k.q, P, t)
  {}

  lemma NoDupReady(k: KState, t: nat)
    requires Shape(k) && LinksOk(k.q) && IsTask(t)
    ensures NoDup(k.q[Ready(k.tsk[t].pri)])
  {}

  lemma ParkLinks(k: KState, t: nat, w: Option<(Head, nat)>, x: Option<nat>)
    requires Shape(k) && LinksOk(k.q) && IsTask(t) && !Queued(k.q, W, t) && !Queued(k.q, T, t)
    requires w.Some? ==> MayQueue(k, t, w.value.0, w.value.1)
    requires x.Some? ==> 1 <= x.value < UINT_MOD
    ensures LinksOk(Park(k, t, w, x).q)
  {
    hide LinksOk, InsertAt, Without, Ids;
    var q1 := k.q;
    if w.Some? {
      var (h, i) := w.value;
      LinksInsert(k.q, h, i, t);
      q1 := k.q[h := InsertAt(k.q[h], i, t)];
    }
    var r := Ready(k.tsk[t].pri);
    LinksRemove(q1, r, t);
    var q2 := q1[r := Without(q1[r], t)];
    if x.Some? {
      assert q2[Tmo] == k.q[Tmo];
      assert !Queued(q2, T, t);
      LinksInsert(q2, Tmo, Position(k.q[Tmo], k.delta, x.value, 0).0, t);
    }
  }

  /** What Park changes, queue by queue. */
  ghost predicate ParkEffect(k: KState, t: nat, w: Option<(Head, nat)>, x: Option<nat>, r: KState)
    requires Shape(k) && Shape(r) && IsTask(t)
    requires w.Some? ==> ValidHead(w.value.0) && w.value.1 <= |k.q[w.value.0]|
  {
    && r.tsk == k.tsk[t := k.tsk[t].(stat := WAI)]
    && r.sem == k.sem && r.mtx == k.mtx && r.cur == k.cur
    && (forall p: nat {:trigger r.q[Ready(p)]} :: 1 <= p <= TMAX_TPRI ==>
          r.q[Ready(p)] == if p == k.tsk[t].pri then Without(k.q[Ready(p)], t) else k.q[Ready(p)])
    && (forall h {:trigger r.q[h]} :: ValidHead(h) && KindOf(h) == W ==>
          r.q[h] == if w.Some? && w.value.0 == h then InsertAt(k.q[h], w.value.1, t) else k.q[h])
    && (x.None? ==> r.q[Tmo] == k.q[Tmo])
    && (x.Some? ==> exists i: nat :: i <= |k.q[Tmo]| && r.q[Tmo] == InsertAt(k.q[Tmo], i, t))
  }

  lemma ParkQueues(k: KState, t: nat, w: Option<(Head, nat)>, x: Option<nat>)
    requires Shape(k) && IsTask(t)
    requires w.Some? ==> ValidHead(w.value.0) && KindOf(w.value.0) == W && w.value.1 <= |k.q[w.value.0]|
    requires x.Some? ==> x.value < UINT_MOD
    ensures ParkEffect(k, t, w, x, Park(k, t, w, x))
  {
    hide InsertAt, Without, AllIds, OwnersOk;
  }

  lemma ParkWaits(k: KState, t: nat, w: Option<(Head, nat)>, x: Option<nat>, r: KState)
    requires Shape(k) && Shape(r) && WaitOk(k.tsk, k.q) && IsTask(t)
    requires w.Some? ==> ValidHead(w.value.0) && w.value.1 <= |k.q[w.value.0]|
    requires ParkEffect(k, t, w, x, r)
    ensures WaitOk(r.tsk, r.q)
  {
    hide InsertAt;
    if w.Some? { InsertMembers(k.q[w.value.0], w.value.1, t); }
    if x.Some? {
      var i: nat :| i <= |k.q[Tmo]| && r.q[Tmo] == InsertAt(k.q[Tmo], i, t);
      InsertMembers(k.q[Tmo], i, t);
    }
    forall h, u | ValidHead(h) && KindOf(h) != P && u in r.q[h] ensures u in k.q[h] || u == t {
      if KindOf(h) == T { assert h == Tmo; }
    }
    WaitJoin(k.tsk, k.q, r.tsk, r.q, t);
  }

  lemma ParkTimeout(k: KState, t: nat, w: Option<(Head, nat)>, x: Option<nat>)
    requires Shape(k) && IsTask(t) && WellFormed(k.q[Tmo], k.delta) && t !in k.q[Tmo]
    requires w.Some? ==> ValidHead(w.value.0) && KindOf(w.value.0) == W && w.value.1 <= |k.q[w.value.0]|
    requires x.Some? ==> 1 <= x.value < UINT_MOD
    ensures var r := Park(k, t, w, x);
            && WellFormed(r.q[Tmo], r.delta)
            && KeptBut(k.q[Tmo], k.delta, r.q[Tmo], r.delta, t)
            && (if x.Some? then t in r.q[Tmo] && Remaining(r.q[Tmo], r.delta, t) == x.value else t !in r.q[Tmo])
  {
    hide Remaining, Sum, Inserted, InsertAt, Without, NoDup, AllIds;
    if x.Some? { InsertExact(k.q[Tmo], k.delta, t, x.value); }
  }

  lemma ParkKeepsInv(k: KState, t: nat, w: Option<(Head, nat)>, x: Option<nat>)
    requires MayPark(k, t, w, x)
    ensures Inv(Park(k, t, w, x))
  {
    hide LinksOk, WellFormed, SemOk, MtxOk, OwnOk, CpuOk, ReadyOk, WaitOk, Park, NoDup, Queued, InsertAt,
      Without;
    var r := Park(k, t, w, x);
    ParkQueues(k, t, w, x);
    ActiveIsUnlinked(k, t);
    ParkLinks(k, t, w, x);
    ParkTimeout(k, t, w, x);
    NoDupReady(k, t);
    ReadyLeave(k.tsk, k.q, r.tsk, r.q, t);
    ParkWaits(k, t, w, x, r);
    CpuKeep(k.tsk, k.cur, t, r.tsk[t]);
    NoMutexBasePri(k, t);
    OwnKeep(k.tsk, k.mtx, t, r.tsk[t]);
    if w.Some? { ObjectsJoin(k, r, w.value.0, w.value.1, t); } else { ObjectsKeep(k, r); }
  }

  lemma NoMutexBasePri(k: KState, t: nat)
    requires Shape(k) && OwnOk(k.tsk, k.mtx) && IsTask(t)
    ensures k.tsk[t].mtxcnt == 0 ==> k.tsk[t].pri == k.tsk[t].bpri
    ensures !Started(k.tsk[t]) ==> k.tsk[t].mtxcnt == 0
  {}

  // ----- Releasing a waiting task -----

  /** Queue h once task t has left what it waits for and joined its ready queue. */
  ghost function Released(k: KState, t: nat, h: Head): seq<nat>
    requires Shape(k) && IsTask(t) && ValidHead(h)
  {
    var s := k.q[h];
    if h == Ready(k.tsk[t].pri) then InsertAt(s, |s|, t) else if KindOf(h) == P then s else Without(s, t)
  }

  /** Unlink t from whatever it waits for and make it ready; the deltas of the timeout list are treated apart. */
  ghost predicate ReleaseEffect(k: KState, t: nat, r: KState)
    requires Shape(k) && IsTask(t)
  {
    && Shape(r)
    && r.tsk[t].stat == RDY && r.tsk[t].pri == k.tsk[t].pri && r.tsk[t].cpu == k.tsk[t].cpu
    && r.tsk == k.tsk[t := r.tsk[t]]
    && r.sem == k.sem && r.mtx == k.mtx && r.cur == k.cur
    && (forall h {:trigger r.q[h]} :: ValidHead(h) ==> r.q[h] == Released(k, t, h))
  }

  /** A release with a proper timeout list: everybody else keeps its expiry, and t ends as x. */
  ghost predicate ReleasedAs(k: KState, t: nat, r: KState, x: Tcb)
    requires Shape(k) && IsTask(t)
  {
    && ReleaseEffect(k, t, r) && r.tsk[t] == x
    && WellFormed(r.q[Tmo], r.delta) && KeptBut(k.q[Tmo], k.delta, r.q[Tmo], r.delta, t)
  }

  lemma ReleaseNoDup(k: KState, t: nat, r: KState, h: Head)
    requires Shape(k) && LinksOk(k.q) && IsTask(t) && !Queued(k.q, P, t) && ReleaseEffect(k, t, r) && ValidHead(h)
    ensures NoDup(r.q[h])
    ensures forall u :: u in r.q[h] && u != t ==> u in k.q[h]
    ensures t in r.q[h] ==> h == Ready(k.tsk[t].pri)
  {
    hide InsertAt, Without, NoDup;
    var s := k.q[h];
    WithoutMembers(s, t);
    WithoutNoDup(s, t);
    InsertMembers(s, |s|, t);
    if KindOf(h) == P { InsertNoDup(s, |s|, t); }
  }

  lemma ReleaseLinks(k: KState, t: nat, r: KState)
    requires Shape(k) && LinksOk(k.q) && IsTask(t) && !Queued(k.q, P, t) && ReleaseEffect(k, t, r)
    ensures LinksOk(r.q)
  {
    hide InsertAt, Without, NoDup;
    forall h | h in r.q ensures NoDup(r.q[h]) { ReleaseNoDup(k, t, r, h); }
    forall g, h, u | g in r.q && h in r.q && KindOf(g) == KindOf(h) && u in r.q[g] && u in r.q[h] ensures g == h {
      ReleaseNoDup(k, t, r, g);
      ReleaseNoDup(k, t, r, h);
    }
  }

  lemma ReleaseKeepsBase(k: KState, t: nat, r: KState)
    requires BaseInv(k) && IsTask(t) && !Active(k.tsk[t]) && ReleaseEffect(k, t, r)
    ensures BaseInv(r)
  {
    hide LinksOk, SemOk, MtxOk, CpuOk, ReadyOk, WaitOk, NoDup, Queued, InsertAt, Without;
    InactiveIsUnlinked(k, t);
    ReleaseLinks(k, t, r);
    ReadyJoin(k.tsk, k.q, r.tsk, r.q, t);
    WaitLeave(k.tsk, k.q, r.tsk, r.q, t);
    CpuKeep(k.tsk, k.cur, t, r.tsk[t]);
    ObjectsLeave(k, r, t);
  }

  // ----- Changing the priority of a ready task -----

  ghost predicate RaiseEffect(k: KState, t: nat, p: Pri, r: KState)
    requires Shape(k) && IsTask(t)
  {
    && Shape(r)
    && r.tsk == k.tsk[t := k.tsk[t].(pri := p)]
    && r.sem == k.sem && r.mtx == k.mtx && r.cur == k.cur && r.delta == k.delta && r.flag == k.flag
    && (forall g: nat :: 1 <= g <= TMAX_TPRI ==>
          var s := if g == k.tsk[t].pri then Without(k.q[Ready(g)], t) else k.q[Ready(g)];
          r.q[Ready(g)] == if g == p then InsertAt(s, |s|, t) else s)
    && (forall h {:trigger r.q[h]} :: ValidHead(h) && KindOf(h) != P ==> r.q[h] == k.q[h])
  }

  lemma ReprioritizeEffect(k: KState, t: nat, p: Pri)
    requires Shape(k) && IsTask(t)
    ensures RaiseEffect(k, t, p, Reprioritize(k, t, p))
  {
    hide InsertAt, Without;
  }

  lemma RaiseMembers(k: KState, t: nat, p: Pri, r: KState, g: nat)
    requires Shape(k) && LinksOk(k.q) && ReadyOk(k.tsk, k.q) && IsTask(t) && RaiseEffect(k, t, p, r)
    requires 1 <= g <= TMAX_TPRI
    ensures NoDup(r.q[Ready(g)])
    ensures t in r.q[Ready(g)] <==> g == p
    ensures forall u :: u != t ==> (u in r.q[Ready(g)] <==> u in k.q[Ready(g)])
  {
    hide InsertAt, Without, NoDup;
    var s := k.q[Ready(g)];
    var s' := if g == k.tsk[t].pri then Without(s, t) else s;
    WithoutMembers(s, t);
    WithoutNoDup(s, t);
    assert t !in s';
    InsertMembers(s', |s'|, t);
    InsertNoDup(s', |s'|, t);
  }

  lemma RaiseLinks(k: KState, t: nat, p: Pri, r: KState)
    requires Shape(k) && LinksOk(k.q) && ReadyOk(k.tsk, k.q) && IsTask(t) && RaiseEffect(k, t, p, r)
    ensures LinksOk(r.q)
  {
    hide InsertAt, Without, NoDup, ReadyOk;
    forall h | h in r.q
      ensures NoDup(r.q[h])
      ensures forall u :: u != t && u in r.q[h] ==> u in k.q[h]
      ensures t in r.q[h] && h.Ready? ==> h.p == p
    {
      if h.Ready? { RaiseMembers(k, t, p, r, h.p); }
    }
  }

  lemma RaiseReady(k: KState, t: nat, p: Pri, r: KState)
    requires Shape(k) && ReadyOk(k.tsk, k.q) && LinksOk(k.q)
    requires IsTask(t) && Active(k.tsk[t]) && RaiseEffect(k, t, p, r)
    ensures ReadyOk(r.tsk, r.q)
  {
    hide InsertAt, Without, NoDup, LinksOk;
    forall u: nat, g: nat | IsTask(u) && 1 <= g <= TMAX_TPRI
      ensures u in r.q[Ready(g)] <==> Active(r.tsk[u]) && r.tsk[u].pri == g
    {
      RaiseMembers(k, t, p, r, g);
    }
  }

  lemma RaiseSorted(tsk: Tasks, tsk': Tasks, s: seq<nat>, t: nat)
    requires Ids(s) && t !in s && SameBut(tsk, tsk', t)
    ensures Sorted(tsk, s) <==> Sorted(tsk', s)
    ensures forall p :: NoneAbove(tsk, s, p) <==> NoneAbove(tsk', s, p)
  {}

  lemma NoneAboveLower(tsk: Tasks, s: seq<nat>, p: nat, p': nat)
    requires Ids(s) && NoneAbove(tsk, s, p) && p' <= p
    ensures NoneAbove(tsk, s, p')
  {}

  ghost predicate OwnsNone(mtx: seq<Mtx>, t: nat) {
    forall m: nat :: 1 <= m < |mtx| && mtx[m].lock ==> mtx[m].owner != t
  }

  lemma ObjectsSameBut(k: KState, t: nat, r: KState)
    requires Shape(k) && Shape(r) && SemOk(k.tsk, k.q, k.sem) && MtxOk(k.tsk, k.q, k.mtx)
    requires IsTask(t) && !Queued(k.q, W, t) && SameBut(k.tsk, r.tsk, t) && r.sem == k.sem && r.mtx == k.mtx
    requires forall h {:trigger r.q[h]} :: ValidHead(h) && KindOf(h) == W ==> r.q[h] == k.q[h]
    requires r.tsk[t].pri <= k.tsk[t].pri || OwnsNone(k.mtx, t)
    ensures SemOk(r.tsk, r.q, r.sem) && MtxOk(r.tsk, r.q, r.mtx)
  {
    hide InsertAt, Without, Sorted, NoneAbove;
    forall s: nat | 1 <= s <= MAX_ID ensures SemAt(r.tsk, r.q[SemQ(s)], r.sem[s]) {
      assert SemAt(k.tsk, k.q[SemQ(s)], k.sem[s]);
      RaiseSorted(k.tsk, r.tsk, k.q[SemQ(s)], t);
    }
    forall m: nat | 1 <= m < SLOTS ensures MtxAt(r.tsk, r.q[MtxQ(m)], r.mtx[m]) {
      assert MtxAt(k.tsk, k.q[MtxQ(m)], k.mtx[m]);
      RaiseSorted(k.tsk, r.tsk, k.q[MtxQ(m)], t);
      if k.mtx[m].lock && k.mtx[m].owner == t { NoneAboveLower(k.tsk, k.q[MtxQ(m)], k.tsk[t].pri, r.tsk[t].pri); }
    }
  }

  /** Moving a ready task to priority p keeps the invariant if p still serves everyone waiting for its mutexes. */
  lemma RaiseKeepsBase(k: KState, t: nat, p: Pri, r: KState)
    requires BaseInv(k) && IsTask(t) && Active(k.tsk[t]) && RaiseEffect(k, t, p, r)
    requires p <= k.tsk[t].pri || OwnsNone(k.mtx, t)
    ensures BaseInv(r)
  {
    hide LinksOk, SemOk, MtxOk, CpuOk, ReadyOk, WaitOk, Queued, InsertAt, Without;
    RaiseLinks(k, t, p, r);
    ActiveIsUnlinked(k, t);
    RaiseReady(k, t, p, r);
    ObjectsSameBut(k, t, r);
    CpuKeep(k.tsk, k.cur, t, r.tsk[t]);
    RaiseWaits(k, t, p, r);
  }

  lemma RaiseWaits(k: KState, t: nat, p: Pri, r: KState)
    requires Shape(k) && WaitOk(k.tsk, k.q) && IsTask(t) && RaiseEffect(k, t, p, r)
    ensures WaitOk(r.tsk, r.q)
  {
    hide InsertAt, Without;
  }
}
