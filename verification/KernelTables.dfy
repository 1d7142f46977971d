/** What every service call does to the records of the task table and to the mutexes: exactly which fields of which
    tasks change. */
module KernelTables {
  import opened Links
  import opened Timeouts
  import opened KernelState
  import opened KernelInvariant
  import opened KernelSteps
  import opened KernelMutex
  import opened KernelRuns

  // ----- The task table after each call -----

  /** A sleep that finds a wake-up request uses it up; any other makes the caller wait. */
  lemma SleepTable(k: KState, c: nat, x: nat)
    requires Shape(k) && c < 2 && x < UINT_MOD
    ensures var t := k.cur[c];
            var y := if k.tsk[t].wupcnt >= 1 then k.tsk[t].(wupcnt := k.tsk[t].wupcnt - 1) else k.tsk[t].(stat := WAI);
            && SlpTsk(k, c).0.tsk == k.tsk[t := y] && TslpTsk(k, c, x).0.tsk == k.tsk[t := y]
            && SlpTsk(k, c).0.mtx == k.mtx && TslpTsk(k, c, x).0.mtx == k.mtx
            && SlpTsk(k, c).1 == E_OK && TslpTsk(k, c, x).1 == E_OK
            && SlpTsk(k, c).0.flag == TslpTsk(k, c, x).0.flag == SleepFlag(k, t)
  {
    hide QShape, InsertAt, Without, Inserted;
  }

  /** A task that goes to sleep asks both CPUs to reschedule. */
  function SleepFlag(k: KState, t: nat): seq<bool>
    requires t < |k.tsk|
  {
    if k.tsk[t].wupcnt >= 1 then k.flag else [true, true]
  }

  lemma DelayTable(k: KState, c: nat, d: nat)
    requires Shape(k) && c < 2 && d < UINT_MOD
    ensures var t := k.cur[c];
            && DlyTsk(k, c, d).0.tsk == (if d == 0 then k.tsk else k.tsk[t := k.tsk[t].(stat := WAI)])
            && DlyTsk(k, c, d).0.mtx == k.mtx && DlyTsk(k, c, d).1 == E_OK
            && DlyTsk(k, c, d).0.flag == if d == 0 then k.flag else [true, true]
  {
    hide QShape, InsertAt, Without, Inserted;
  }

  lemma WaitTable(k: KState, c: nat, x: nat)
    requires Shape(k) && c < 2 && x < UINT_MOD
    ensures var t := k.cur[c];
            var y := if k.tsk[t].wupcnt >= 1 then k.tsk[t].(wupcnt := k.tsk[t].wupcnt - 1) else k.tsk[t].(stat := WAI);
            Wait(k, c, x).tsk == k.tsk[t := y] && Wait(k, c, x).mtx == k.mtx && Wait(k, c, x).flag == SleepFlag(k, t)
  {
    hide QShape, SlpTsk, TslpTsk;
    SleepTable(k, c, x);
  }

  lemma WakeTable(k: KState, c: nat, id: nat)
    requires Shape(k) && c < 2 && id < SLOTS
    ensures var t := if id == 0 then k.cur[c] else id;
            var (x, r) := (k.tsk[t], WupTsk(k, c, id));
            && r.0.mtx == k.mtx && r.0.flag == (if x.stat == WAI then [true, true] else k.flag)
            && r.0.tsk == (if x.stat == WAI then
                             (if id == 0 then k.tsk[t := x.(stat := RDY)]
                              else var w := k.tsk[t := x.(stat := RDY)]; w[k.cur[c] := w[k.cur[c]].(stat := RDY)])
                           else if r.1 == E_OK then k.tsk[t := x.(wupcnt := x.wupcnt + 1)] else k.tsk)
            && (r.1 == E_OK <==> x.stat == WAI || (Started(x) && x.wupcnt <= TMAX_WUPCNT))
            && (r.1 == E_QOVR <==> Started(x) && x.stat != WAI && x.wupcnt > TMAX_WUPCNT)
            && (r.1 == E_NOEXS <==> x.stat == NON) && (r.1 == E_OBJ <==> x.stat == DMT)
  {
    hide QShape, InsertAt, Without, Removed;
  }

  lemma ActTable(k: KState, c: nat, id: nat)
    requires Shape(k) && c < 2 && id < SLOTS
    ensures var t := if id == 0 then k.cur[c] else id;
            var (x, r) := (k.tsk[t], ActTsk(k, c, id));
            && r.0.mtx == k.mtx && r.0.flag == k.flag
            && r.0.tsk == (if x.stat == DMT then k.tsk[t := x.(stat := RDY)]
                           else if r.1 == E_OK then k.tsk[t := x.(actcnt := x.actcnt + 1)] else k.tsk)
            && (r.1 == E_OK <==> x.stat == DMT || (Started(x) && x.actcnt < TMAX_ACTCNT))
            && (r.1 == E_QOVR <==> Started(x) && x.actcnt >= TMAX_ACTCNT) && (r.1 == E_NOEXS <==> x.stat == NON)
  {
    hide QShape, InsertAt;
  }

  lemma SignalTable(k: KState, s: nat)
    requires Shape(k)
    ensures var r := SigSem(k, s).0;
            && r.mtx == k.mtx && r.flag == k.flag
            && (if 1 <= s <= MAX_ID && k.sem[s].act && k.q[SemQ(s)] != [] then
                  var t := k.q[SemQ(s)][0]; IsTask(t) && r.tsk == k.tsk[t := k.tsk[t].(stat := RDY, eax := E_OK)]
                else r.tsk == k.tsk)
  {
    hide AllIds, InsertAt, Without, Removed;
    if 1 <= s <= MAX_ID && k.sem[s].act && k.q[SemQ(s)] != [] {
      HeadIsTask(k, SemQ(s));
      var t := k.q[SemQ(s)][0];
      assert k.tsk[t := k.tsk[t].(stat := RDY)][t := k.tsk[t].(stat := RDY, eax := E_OK)]
          == k.tsk[t := k.tsk[t].(stat := RDY, eax := E_OK)];
    }
  }

  lemma TwaiTable(k: KState, c: nat, s: nat, x: nat)
    requires Shape(k) && c < 2 && x < UINT_MOD
    ensures var t, r := k.cur[c], TwaiSem(k, c, s, x);
            && r.0.mtx == k.mtx && r.0.flag == (if SemBlocks(k, s, x) then SleepFlag(k, t) else k.flag)
            && (if SemBlocks(k, s, x) then
                  r.1 == E_TMOUT && r.0.tsk == k.tsk[t :=
                    if k.tsk[t].wupcnt >= 1 then k.tsk[t].(wupcnt := k.tsk[t].wupcnt - 1) else k.tsk[t].(stat := WAI)]
                else r.0.tsk == k.tsk)
  {
    hide QShape, InsertAt, Wait;
    if SemBlocks(k, s, x) { WaitTable(Enqueue(k, SemQ(s), SemPlace(k, c, s), k.cur[c]), c, x); }
  }

  lemma BoostTable(k: KState, m: nat, t: nat)
    requires Shape(k) && IsTask(t) && 1 <= m < SLOTS && k.mtx[m].lock
    ensures var o, r := k.mtx[m].owner, Boost(k, m, t);
            && r.mtx == k.mtx && r.cur == k.cur && r.flag == k.flag
            && r.tsk == k.tsk[o := k.tsk[o].(pri := if k.tsk[o].pri > k.tsk[t].pri then k.tsk[t].pri else k.tsk[o].pri)]
  {
    hide QShape, InsertAt, Without;
  }

  /** The owner of m inherits the smaller priority; the caller sleeps, or uses up a wake-up request. */
  ghost predicate LockChanges(k: KState, r: (KState, int), c: nat, m: nat) {
    && Shape(k) && c < 2 && 1 <= m < SLOTS && k.mtx[m].lock
    && var t, o := k.cur[c], k.mtx[m].owner;
       var p := if k.tsk[o].pri > k.tsk[t].pri then k.tsk[t].pri else k.tsk[o].pri;
       var y := if k.tsk[t].wupcnt >= 1 then k.tsk[t].(wupcnt := k.tsk[t].wupcnt - 1) else k.tsk[t].(stat := WAI);
       && r.1 == E_OK && r.0.mtx == k.mtx && r.0.flag == SleepFlag(k, t)
       && r.0.tsk == k.tsk[o := k.tsk[o].(pri := p)][t := y]
  }

  lemma LockTable(k: KState, c: nat, m: nat, x: nat)
    requires Shape(k) && c < 2 && x < UINT_MOD && MtxBlocks(k, c, m, x)
    ensures LockChanges(k, TlocMtx(k, c, m, x), c, m)
  {
    hide QShape, InsertAt, Wait, Boost, MtxPlace;
    var t := k.cur[c];
    var k1 := Enqueue(k, MtxQ(m), MtxPlace(k, m, t), t);
    BoostTable(k1, m, t);
    WaitTable(Boost(k1, m, t), c, x);
  }

  /** Without blocking, a lock succeeds exactly on a free mutex, which the caller then owns; everything else is refused
      without effect. */
  lemma FreeLockTable(k: KState, c: nat, m: nat, x: nat)
    requires Shape(k) && c < 2 && x < UINT_MOD && !MtxBlocks(k, c, m, x)
    ensures var t, r := k.cur[c], TlocMtx(k, c, m, x);
            if r.1 == E_OK then
              && 1 <= m < SLOTS && k.mtx[m].act && !k.mtx[m].lock
              && r.0 == k.(tsk := k.tsk[t := k.tsk[t].(mtxcnt := k.tsk[t].mtxcnt + 1)],
                           mtx := k.mtx[m := k.mtx[m].(lock := true, owner := t)])
            else r.0 == k && !(1 <= m < SLOTS && k.mtx[m].act && !k.mtx[m].lock)
  {
    hide QShape;
  }

  lemma PassTable(k: KState, m: nat)
    requires Shape(k) && 1 <= m < SLOTS
    ensures var r := PassMtx(k, m);
            && r.cur == k.cur && r.flag == k.flag && r.mtx == k.mtx[m := r.mtx[m]]
            && (if k.q[MtxQ(m)] != [] then
                  var n := k.q[MtxQ(m)][0];
                  && IsTask(n) && r.mtx[m] == k.mtx[m].(lock := true, owner := n)
                  && r.tsk == k.tsk[n := k.tsk[n].(stat := RDY, eax := E_OK, mtxcnt := k.tsk[n].mtxcnt + 1)]
                else r.mtx[m] == k.mtx[m].(lock := false) && r.tsk == k.tsk)
  {
    hide Heads, InsertAt, Without;
  }

  lemma SettleTable(k: KState, t: nat)
    requires Shape(k) && IsTask(t)
    ensures var r, x, n := Settle(k, t), k.tsk[t], (k.tsk[t].mtxcnt - 1) % UINT_MOD;
            && r.mtx == k.mtx && r.flag == k.flag
            && r.tsk == k.tsk[t := x.(mtxcnt := n, pri := if n == 0 then x.bpri else x.pri)]
  {
    hide QShape, InsertAt, Without;
  }

  lemma CallTable(k: KState, c: nat, call: Call)
    requires Enabled(k, Syscall(c, call)) && Shape(Exec(k, c, call).0)
    ensures var (r, ret) := Exec(k, c, call);
            var t := k.cur[c];
            Apply(k, Syscall(c, call)) == r.(tsk := r.tsk[t := r.tsk[t].(eax := ret)])
  {
    hide QShape, Exec;
  }

  /** A dispatch changes nothing in the task table but states. */
  lemma DispatchTable(k: KState, c: nat)
    requires Shape(k) && c < 2
    ensures var r := Dispatch(k, c);
            && |r.tsk| == SLOTS && r.mtx == k.mtx && r.sem == k.sem && r.q == k.q && r.delta == k.delta
            && forall u :: 0 <= u < SLOTS ==> r.tsk[u] == k.tsk[u].(stat := r.tsk[u].stat)
  {
    hide QShape, Pick;
  }
}
