/** The kernel's tables with every linked list read as a sequence of task ids, and the service calls as changes of
    this state.  Each function below follows the statements of its C counterpart in order. */
module KernelState {
  import opened Links
  import opened Timeouts
  import WaitQueue

  const E_OK: int := 0
  const E_ID: int := -18
  const E_ILUSE: int := -28
  const E_OBJ: int := -41
  const E_NOEXS: int := -42
  const E_QOVR: int := -43
  const E_TMOUT: int := -50

  const TMO_POL: nat := 0
  const TMO_FEVR: nat := 0xFFFF_FFFF

  const TMAX_TPRI: nat := 16
  const MAX_ID: nat := 16
  const TMAX_ACTCNT: nat := 16
  const TMAX_WUPCNT: nat := 16

  /** Number of slots in the task and mutex tables: ids 1 to 15 are used. */
  const SLOTS: nat := 16

  type Pri = p: nat | 1 <= p <= TMAX_TPRI witness 1

  datatype Stat = NON | DMT | RDY | RUN | WAI

  /** T_TSK without its links; cpu is the affinity kept in proc[], eax the return value slot of the task's frame. */
  datatype Tcb = Tcb(stat: Stat, bpri: Pri, pri: Pri, actcnt: nat, wupcnt: nat, mtxcnt: nat, cpu: nat, eax: int)

  datatype Sem = Sem(act: bool, atr: nat, cnt: nat, max: nat)

  datatype Mtx = Mtx(act: bool, lock: bool, owner: nat, atr: nat, ceil: nat)

  datatype KState = KState(tsk: seq<Tcb>, q: Queues, delta: seq<nat>, sem: seq<Sem>, mtx: seq<Mtx>,
                           cur: seq<nat>, flag: seq<bool>)

  predicate ValidHead(h: Head) {
    match h
    case Ready(p) => 1 <= p <= TMAX_TPRI
    case SemQ(s) => 1 <= s <= MAX_ID
    case MtxQ(m) => 1 <= m < SLOTS
    case Tmo => true
  }

  predicate IsTask(t: int) { 1 <= t < SLOTS }

  ghost predicate Heads(q: Queues) {
    forall h :: h in q <==> ValidHead(h)
  }

  ghost predicate AllIds(q: Queues) {
    forall h, i :: h in q && 0 <= i < |q[h]| ==> IsTask(q[h][i])
  }

  ghost predicate QShape(q: Queues) { Heads(q) && AllIds(q) }

  ghost predicate OwnersOk(mtx: seq<Mtx>) {
    |mtx| == SLOTS && forall m: nat :: 1 <= m < SLOTS && mtx[m].lock ==> IsTask(mtx[m].owner)
  }

  ghost predicate Shape(k: KState) {
    && |k.tsk| == SLOTS && |k.delta| == SLOTS && |k.sem| == MAX_ID + 1 && |k.mtx| == SLOTS
    && |k.cur| == 2 && |k.flag| == 2
    && IsTask(k.cur[0]) && IsTask(k.cur[1])
    && QShape(k.q)
    && OwnersOk(k.mtx)
    && (forall t :: 0 <= t < SLOTS ==> k.delta[t] < UINT_MOD)
  }

  predicate Active(x: Tcb) { x.stat == RDY || x.stat == RUN }

  predicate Started(x: Tcb) { x.stat != NON && x.stat != DMT }

  // ----- Elementary changes -----

  ghost function Enqueue(k: KState, h: Head, i: nat, t: nat): (r: KState)
    requires Shape(k) && ValidHead(h) && i <= |k.q[h]| && IsTask(t)
    ensures Shape(r)
  {
    k.(q := k.q[h := InsertAt(k.q[h], i, t)])
  }

  ghost function Dequeue(k: KState, h: Head, t: nat): (r: KState)
    requires Shape(k) && ValidHead(h)
    ensures Shape(r)
  {
    k.(q := k.q[h := Without(k.q[h], t)])
  }

  function SetTsk(k: KState, t: nat, x: Tcb): (r: KState)
    requires t < |k.tsk|
    ensures Shape(k) ==> Shape(r)
  {
    k.(tsk := k.tsk[t := x])
  }

  function SetStat(k: KState, t: nat, s: Stat): KState
    requires t < |k.tsk|
  {
    SetTsk(k, t, k.tsk[t].(stat := s))
  }

  function SetEax(k: KState, t: nat, v: int): KState
    requires t < |k.tsk|
  {
    SetTsk(k, t, k.tsk[t].(eax := v))
  }

  /** sched_next_tsk: ask both CPUs to reschedule. */
  function Resched(k: KState): KState { k.(flag := [true, true]) }

  ghost function SchedIns(k: KState, t: nat): (r: KState)
    requires Shape(k) && IsTask(t)
    ensures Shape(r)
  {
    var h := Ready(k.tsk[t].pri);
    Enqueue(k, h, |k.q[h]|, t)
  }

  ghost function SchedRem(k: KState, t: nat): (r: KState)
    requires Shape(k) && IsTask(t)
    ensures Shape(r)
  {
    Dequeue(k, Ready(k.tsk[t].pri), t)
  }

  ghost function TimeoutIns(k: KState, t: nat, x: nat): (r: KState)
    requires Shape(k) && IsTask(t) && x < UINT_MOD
    ensures Shape(r)
  {
    var (s, d) := Inserted(k.q[Tmo], k.delta, t, x);
    k.(q := k.q[Tmo := s], delta := d)
  }

  ghost function TimeoutRemIfExist(k: KState, t: nat): (r: KState)
    requires Shape(k)
    ensures Shape(r)
  {
    if t in k.q[Tmo] then
      var (s, d) := Removed(k.q[Tmo], k.delta, t);
      k.(q := k.q[Tmo := s], delta := d)
    else k
  }

  /** The place ins_pri gives a task of priority p: before the first waiter of a lower priority. */
  ghost function PriPosition(tsk: seq<Tcb>, s: seq<nat>, p: nat): (r: nat)
    requires forall j :: 0 <= j < |s| ==> s[j] < |tsk|
    ensures r <= |s|
    ensures forall j :: 0 <= j < r ==> tsk[s[j]].pri <= p
    ensures r < |s| ==> tsk[s[r]].pri > p
  {
    var pris := seq(|s|, j requires 0 <= j < |s| => tsk[s[j]].pri);
    var r := WaitQueue.Place(pris, p);
    assert forall j :: 0 <= j < r ==> pris[j] == tsk[s[j]].pri;
    r
  }

  // ----- kernel/sys_tsk.c -----

  /** sys_cre_tsk without TA_ACT.  The id MAX_TSKID passes the test but has no entry in the process table. */
  function CreTsk(k: KState, c: nat, t: nat, p: Pri): (KState, int)
    requires |k.tsk| == SLOTS && t != SLOTS
  {
    if t < 1 || t > SLOTS then (k, E_ID)
    else if k.tsk[t].stat != NON then (k, E_OBJ)
    else (SetTsk(k, t, Tcb(DMT, p, p, 0, 0, 0, c, 0)), E_OK)
  }

  /** Task MAX_TSKID never exists. */
  ghost function ActTsk(k: KState, c: nat, id: nat): (r: (KState, int))
    requires Shape(k) && c < 2
    ensures Shape(r.0)
  {
    var t := if id == 0 then k.cur[c] else id;
    if t > SLOTS then (k, E_ID)
    else if t == SLOTS then (k, E_NOEXS)
    else
      var x := k.tsk[t];
      if x.stat == NON then (k, E_NOEXS)
      else if x.stat != DMT then
        if x.actcnt < TMAX_ACTCNT then (SetTsk(k, t, x.(actcnt := x.actcnt + 1)), E_OK) else (k, E_QOVR)
      else (SchedIns(SetStat(k, t, RDY), t), E_OK)
  }

  ghost function SlpTsk(k: KState, c: nat): (r: (KState, int))
    requires Shape(k) && c < 2
    ensures Shape(r.0)
  {
    var t := k.cur[c];
    var x := k.tsk[t];
    if x.wupcnt >= 1 then (SetTsk(k, t, x.(wupcnt := x.wupcnt - 1)), E_OK)
    else (Resched(SetStat(SchedRem(k, t), t, WAI)), E_OK)
  }

  ghost function TslpTsk(k: KState, c: nat, tmout: nat): (r: (KState, int))
    requires Shape(k) && c < 2 && tmout < UINT_MOD
    ensures Shape(r.0)
  {
    var t := k.cur[c];
    var x := k.tsk[t];
    if x.wupcnt >= 1 then (SetTsk(k, t, x.(wupcnt := x.wupcnt - 1)), E_OK)
    else (Resched(TimeoutIns(SetStat(SchedRem(k, t), t, WAI), t, tmout)), E_OK)
  }

  ghost function DlyTsk(k: KState, c: nat, dlytim: nat): (r: (KState, int))
    requires Shape(k) && c < 2 && dlytim < UINT_MOD
    ensures Shape(r.0)
  {
    var t := k.cur[c];
    if dlytim == 0 then (k, E_OK)
    else (Resched(TimeoutIns(SetStat(SchedRem(k, t), t, WAI), t, dlytim)), E_OK)
  }

  /** The id is not checked; MAX_TSKID is the last one with an entry in the task table. */
  ghost function WupTsk(k: KState, c: nat, id: nat): (r: (KState, int))
    requires Shape(k) && c < 2 && id <= SLOTS
    ensures Shape(r.0)
  {
    var t := if id == 0 then k.cur[c] else id;
    if t == SLOTS then (k, E_NOEXS)
    else
      var x := k.tsk[t];
      if x.stat != WAI then
        if x.stat == NON then (k, E_NOEXS)
        else if x.stat == DMT then (k, E_OBJ)
        else if x.wupcnt > TMAX_WUPCNT then (k, E_QOVR)
        else (SetTsk(k, t, x.(wupcnt := x.wupcnt + 1)), E_OK)
      else
        var k1 := SetStat(k, t, RDY);
        var k2 := if id == 0 then k1 else SchedIns(SetStat(k1, k.cur[c], RDY), t);
        (Resched(TimeoutRemIfExist(k2, t)), E_OK)
  }

  // ----- kernel/sys_sem.c -----

  function CreSem(k: KState, s: nat, atr: nat, cnt: nat, max: nat): (KState, int)
    requires |k.sem| == MAX_ID + 1
  {
    if s < 1 || s > MAX_ID then (k, E_ID)
    else if k.sem[s].act then (k, E_OBJ)
    else (k.(sem := k.sem[s := Sem(true, atr, cnt, max)]), E_OK)
  }

  ghost function SigSem(k: KState, s: nat): (r: (KState, int))
    requires Shape(k)
    ensures Shape(r.0)
  {
    if s < 1 || s > MAX_ID then (k, E_ID)
    else if !k.sem[s].act then (k, E_NOEXS)
    else if k.q[SemQ(s)] != [] then
      var t := k.q[SemQ(s)][0];
      var k1 := TimeoutRemIfExist(Dequeue(k, SemQ(s), t), t);
      (SetEax(SchedIns(SetStat(k1, t, RDY), t), t, E_OK), E_OK)
    else if (k.sem[s].cnt + 1) % UINT_MOD > k.sem[s].max then (k, E_QOVR)
    else (k.(sem := k.sem[s := k.sem[s].(cnt := (k.sem[s].cnt + 1) % UINT_MOD)]), E_OK)
  }

  function TakeSem(k: KState, s: nat): KState
    requires s < |k.sem| && k.sem[s].cnt > 0
  {
    k.(sem := k.sem[s := k.sem[s].(cnt := k.sem[s].cnt - 1)])
  }

  ghost function PolSem(k: KState, s: nat): (KState, int)
    requires Shape(k)
  {
    if s < 1 || s > MAX_ID then (k, E_ID)
    else if !k.sem[s].act then (k, E_NOEXS)
    else if k.sem[s].cnt == 0 then (k, E_TMOUT)
    else (TakeSem(k, s), E_OK)
  }

  /** The tail of every object wait: sleep with or without a timeout. */
  ghost function Wait(k: KState, c: nat, tmout: nat): (r: KState)
    requires Shape(k) && c < 2 && tmout < UINT_MOD
    ensures Shape(r)
  {
    if tmout == TMO_FEVR then SlpTsk(k, c).0 else TslpTsk(k, c, tmout).0
  }

  ghost function TwaiSem(k: KState, c: nat, s: nat, tmout: nat): (r: (KState, int))
    requires Shape(k) && c < 2 && tmout < UINT_MOD
    ensures Shape(r.0)
  {
    if s < 1 || s > MAX_ID then (k, E_ID)
    else if !k.sem[s].act then (k, E_NOEXS)
    else if k.sem[s].cnt == 0 then
      if tmout == TMO_POL then (k, E_TMOUT)
      else
        var t, w := k.cur[c], k.q[SemQ(s)];
        var i := if k.sem[s].atr == 0 then |w| else PriPosition(k.tsk, w, k.tsk[t].pri);
        (Wait(Enqueue(k, SemQ(s), i, t), c, tmout), E_TMOUT)
    else (TakeSem(k, s), E_OK)
  }

  // ----- kernel/sys_mtx.c -----

  /** sys_cre_mtx leaves the lock word as it is.  mtx_init leaves out the mutex with the id MAX_MTXID. */
  function CreMtx(k: KState, m: nat, atr: nat, ceil: nat): (KState, int)
    requires |k.mtx| == SLOTS && m != SLOTS
  {
    if m < 1 || m > SLOTS then (k, E_ID)
    else if k.mtx[m].act then (k, E_OBJ)
    else (k.(mtx := k.mtx[m := k.mtx[m].(act := true, atr := atr, ceil := ceil)]), E_OK)
  }

  /** Give task t the priority p and move it to the end of that priority's ready queue. */
  ghost function Reprioritize(k: KState, t: nat, p: Pri): (r: KState)
    requires Shape(k) && IsTask(t)
    ensures Shape(r)
  {
    var k1 := SchedRem(k, t);
    SchedIns(SetTsk(k1, t, k1.tsk[t].(pri := p)), t)
  }

  function Inc(k: KState, t: nat): KState
    requires t < |k.tsk|
  {
    SetTsk(k, t, k.tsk[t].(mtxcnt := k.tsk[t].mtxcnt + 1))
  }

  /** Locking m would move its owner to the more urgent priority of task t. */
  ghost predicate Boosts(k: KState, m: nat, t: nat)
    requires Shape(k) && IsTask(t) && 1 <= m < SLOTS && k.mtx[m].lock
  {
    k.tsk[k.mtx[m].owner].pri > k.tsk[t].pri
  }

  ghost function MtxPlace(k: KState, m: nat, t: nat): (i: nat)
    requires Shape(k) && IsTask(t) && 1 <= m < SLOTS
    ensures i <= |k.q[MtxQ(m)]|
  {
    PriPosition(k.tsk, k.q[MtxQ(m)], k.tsk[t].pri)
  }

  /** The owner of m after inheriting the caller's priority. */
  ghost function Boost(k: KState, m: nat, t: nat): (r: KState)
    requires Shape(k) && IsTask(t) && 1 <= m < SLOTS && k.mtx[m].lock
    ensures Shape(r)
  {
    if Boosts(k, m, t) then Reprioritize(k, k.mtx[m].owner, k.tsk[t].pri) else k
  }

  /** mtxatr & TA_TFIFO is 0 for every attribute, so lock waits always queue by priority. */
  ghost function TlocMtx(k: KState, c: nat, m: nat, tmout: nat): (r: (KState, int))
    requires Shape(k) && c < 2 && tmout < UINT_MOD
    ensures Shape(r.0)
  {
    var t := k.cur[c];
    if m < 1 || m > SLOTS then (k, E_ID)
    else if m == SLOTS || !k.mtx[m].act then (k, E_NOEXS)
    else if !k.mtx[m].lock then
      (Inc(k.(mtx := k.mtx[m := k.mtx[m].(lock := true, owner := t)]), t), E_OK)
    else if k.mtx[m].owner == t then (k, E_ILUSE)
    else if k.mtx[m].atr % 4 != 0 && k.tsk[t].bpri > k.mtx[m].ceil then (k, E_ILUSE)
    else if tmout == TMO_POL then (k, E_TMOUT)
    else
      (Wait(Boost(Enqueue(k, MtxQ(m), MtxPlace(k, m, t), t), m, t), c, tmout), E_OK)
  }

  /** Hand a locked mutex to its first waiter, or unlock it. */
  ghost function PassMtx(k: KState, m: nat): (r: KState)
    requires Shape(k) && 1 <= m < SLOTS
    ensures Shape(r)
  {
    if k.q[MtxQ(m)] != [] then
      var n := k.q[MtxQ(m)][0];
      var k1 := Inc(k.(mtx := k.mtx[m := k.mtx[m].(lock := true, owner := n)]), n);
      SchedIns(SetEax(SetStat(Dequeue(k1, MtxQ(m), n), n, RDY), n, E_OK), n)
    else k.(mtx := k.mtx[m := k.mtx[m].(lock := false)])
  }

  /** The last part of sys_unl_mtx: one mutex less, and back to the base priority with the last one. */
  ghost function Settle(k: KState, t: nat): (r: KState)
    requires Shape(k) && IsTask(t)
    ensures Shape(r)
  {
    var x := k.tsk[t];
    var n := (x.mtxcnt - 1) % UINT_MOD;
    var k1 := SetTsk(k, t, x.(mtxcnt := n));
    if n == 0 && x.bpri != x.pri then Reprioritize(k1, t, x.bpri) else k1
  }

  ghost function UnlMtx(k: KState, c: nat, m: nat): (r: (KState, int))
    requires Shape(k) && c < 2
    ensures Shape(r.0)
  {
    var t := k.cur[c];
    if m < 1 || m > SLOTS then (k, E_ID)
    else if m == SLOTS || !k.mtx[m].act then (k, E_NOEXS)
    else if !k.mtx[m].lock then (k, E_ILUSE)
    else if k.mtx[m].owner != t then (k, E_ILUSE)
    else
      (Settle(PassMtx(k, m), t), E_OK)
  }

  // ----- kernel/sched.c -----

  ghost function RemoveWaits(q: Queues, t: nat): Queues {
    map h | h in q :: if KindOf(h) == W then Without(q[h], t) else q[h]
  }

  /** Take t out of every object queue. */
  ghost function Unqueue(k: KState, t: nat): (r: KState)
    requires Shape(k)
    ensures Shape(r)
  {
    k.(q := RemoveWaits(k.q, t))
  }

  ghost function DropHead(k: KState): (r: KState)
    requires Shape(k) && k.q[Tmo] != []
    ensures Shape(r)
  {
    k.(q := k.q[Tmo := k.q[Tmo][1..]])
  }

  /** Take the head entry, whose delta is 0, off the timeout list and wake its task if it waits. */
  ghost function Expire(k: KState): (r: KState)
    requires Shape(k) && k.q[Tmo] != []
    ensures Shape(r) && |r.q[Tmo]| == |k.q[Tmo]| - 1
  {
    var t := k.q[Tmo][0];
    var k1 := DropHead(k);
    if k.tsk[t].stat == WAI then
      SchedIns(SetTsk(Unqueue(k1, t), t, k.tsk[t].(eax := E_TMOUT, stat := RDY)), t)
    else k1
  }

  ghost function ExpireLoop(k: KState, woken: bool): (r: KState)
    requires Shape(k)
    ensures Shape(r)
    decreases |k.q[Tmo]|
  {
    if k.q[Tmo] == [] || k.delta[k.q[Tmo][0]] != 0 then (if woken then Resched(k) else k)
    else ExpireLoop(Expire(k), woken || k.tsk[k.q[Tmo][0]].stat == WAI)
  }

  /** sched_timeout with a delta of 1. */
  ghost function Tick(k: KState): (r: KState)
    requires Shape(k)
    ensures Shape(r)
  {
    ExpireLoop(k.(delta := Ticked(k.q[Tmo], k.delta)), false)
  }

  datatype Option<T> = None | Some(value: T)

  predicate Runnable(tsk: seq<Tcb>, c: nat, t: nat) {
    t < |tsk| && tsk[t].stat == RDY && tsk[t].cpu == c
  }

  function FirstRunnable(tsk: seq<Tcb>, c: nat, s: seq<nat>): (r: Option<nat>)
    ensures r.Some? ==> r.value in s && Runnable(tsk, c, r.value)
    ensures r.None? ==> forall t :: t in s ==> !Runnable(tsk, c, t)
  {
    if s == [] then None
    else if Runnable(tsk, c, s[0]) then Some(s[0])
    else FirstRunnable(tsk, c, s[1..])
  }

  /** The scan of sched_do_next_tsk over the ready queues from priority p on. */
  ghost function Pick(k: KState, c: nat, p: nat): (r: Option<nat>)
    requires Shape(k) && 1 <= p <= TMAX_TPRI + 1
    ensures r.Some? ==> IsTask(r.value) && Runnable(k.tsk, c, r.value)
    decreases TMAX_TPRI + 1 - p
  {
    if p > TMAX_TPRI then None
    else
      var r := FirstRunnable(k.tsk, c, k.q[Ready(p)]);
      if r.Some? then r else Pick(k, c, p + 1)
  }

  ghost function DoNext(k: KState, c: nat): (KState, int)
    requires Shape(k) && c < 2
  {
    var old_id := k.cur[c];
    var k1 := if k.tsk[old_id].stat == RUN then SetStat(k, old_id, RDY) else k;
    match Pick(k1, c, 1)
    case Some(t) => (SetStat(k1, t, RUN).(cur := k.cur[c := t]), t)
    case None => (k, E_ID)
  }

  /** sched_next_tsk_check. */
  ghost function Dispatch(k: KState, c: nat): KState
    requires Shape(k) && c < 2
  {
    if k.flag[c] then
      var k1 := DoNext(k, c).0;
      k1.(flag := k1.flag[c := false])
    else k
  }
}
