/** A live claim is never killed: in every run, across restarts, whatever provisioner,
    bridge and discovery answer. */
module ParkedSafety {
  import opened Naming
  import opened ParkedModel

  // ---- Names -----------------------------------------------------------------------

  predicate Fits(id: Id)
  {
    |id| <= MAX_NAME
  }

  /** An id this controller hands out, short enough not to be cut in a marker name. */
  ghost predicate Issued(prefix: string, env: string, k: Key)
  {
    k.0 == env && Fits(k.1) && exists n: nat :: k.1 == IdFor(prefix, n)
  }

  lemma IdForInjective(prefix: string, m: nat, n: nat)
    requires IdFor(prefix, m) == IdFor(prefix, n)
    ensures m == n
  {
    var a := IdFor(prefix, m);
    assert a[|prefix| + 1..] == Decimal(m) && a[|prefix| + 1..] == Decimal(n);
    DecimalInjective(m, n);
  }

  /** Different issued instances have different marker files. */
  lemma MarkerNamesDiffer(prefix: string, env: string, j: Key, k: Key)
    requires Issued(prefix, env, j) && Issued(prefix, env, k) && MarkerName(j) == MarkerName(k)
    ensures j == k
  {
    var m: nat :| j.1 == IdFor(prefix, m);
    var n: nat :| k.1 == IdFor(prefix, n);
    var head := "claimed-" + Sanitize(env) + "-";
    assert MarkerName(j) == head + Sanitize(j.1) && MarkerName(k) == head + Sanitize(k.1);
    assert MarkerName(j)[|head|..] == Sanitize(j.1) && MarkerName(k)[|head|..] == Sanitize(k.1);
    var a, b := Sanitize(j.1), Sanitize(k.1);
    assert a == b && |a| == |j.1| && |b| == |k.1|;
    DecimalIsDigits(m);
    DecimalIsDigits(n);
    forall i | 0 <= i < |Decimal(m)| ensures Decimal(m)[i] == Decimal(n)[i] {
      var at := |prefix| + 1 + i;
      assert j.1[at] == Decimal(m)[i] && k.1[at] == Decimal(n)[i];
      assert a[at] == j.1[at] && b[at] == k.1[at];
    }
    assert Decimal(m) == Decimal(n);
    DecimalInjective(m, n);
  }

  // ---- The invariant ------------------------------------------------------------------

  ghost predicate Tracked(prefix: string, p: Pool)
  {
    forall k | k in p.entries :: Issued(prefix, p.env, k)
  }

  /** Every game in progress has its own marker. */
  ghost predicate Protected(prefix: string, p: Pool)
  {
    forall k | k in p.inPlay ::
      Issued(prefix, p.env, k) && MarkerName(k) in p.markers && p.markers[MarkerName(k)] == k
  }

  ghost predicate ParkedUnmarked(p: Pool)
  {
    forall k | k in p.entries && p.entries[k].status == Parked :: !Marked(p, k)
  }

  /** No start ever named an instance in play, and a stop did so only as a cold recycle. */
  predicate Harmless(c: Call)
  {
    c.inPlay ==> c.StopAsked? && c.via == RecycleCold
  }

  /** The insertion order lists exactly the tracked instances. */
  ghost predicate Listed(p: Pool)
  {
    forall k :: k in p.order <==> k in p.entries
  }

  ghost predicate Guarded(prefix: string, p: Pool)
  {
    && Tracked(prefix, p) && Protected(prefix, p) && ParkedUnmarked(p) && Listed(p)
    && forall i | 0 <= i < |p.log| :: Harmless(p.log[i])
  }

  // ---- Primitive steps ------------------------------------------------------------------

  lemma PutKeeps(prefix: string, p: Pool, k: Key, e: Entry)
    requires Guarded(prefix, p) && Issued(prefix, p.env, k)
    requires e.status == Parked ==> !Marked(p, k)
    ensures Guarded(prefix, Put(p, k, e))
  {
  }

  lemma EvictKeeps(prefix: string, p: Pool, k: Key)
    requires Guarded(prefix, p)
    ensures Guarded(prefix, Evict(p, k))
  {
    WithoutGives(p.order, k);
  }

  lemma {:induction false} WithoutGives(order: seq<Key>, k: Key)
    ensures forall j :: j in Without(order, k) <==> j in order && j != k
  {
    if order != [] {
      WithoutGives(order[1..], k);
      assert forall j :: j in order <==> j == order[0] || j in order[1..];
    }
  }

  lemma AskStopKeeps(prefix: string, p: Pool, k: Key, via: Via)
    requires Guarded(prefix, p) && (k in p.inPlay ==> via == RecycleCold)
    ensures Guarded(prefix, AskStop(p, k, via))
  {
  }

  lemma AskStartKeeps(prefix: string, p: Pool, k: Key)
    requires Guarded(prefix, p) && k !in p.inPlay
    ensures Guarded(prefix, AskStart(p, k))
  {
  }

  lemma ClearKeeps(prefix: string, p: Pool, k: Key)
    requires Guarded(prefix, p) && Issued(prefix, p.env, k) && k !in p.inPlay
    ensures Guarded(prefix, ClearMarker(p, k))
  {
    forall j | j in p.inPlay ensures MarkerName(j) != MarkerName(k) {
      if MarkerName(j) == MarkerName(k) { MarkerNamesDiffer(prefix, p.env, j, k); }
    }
  }

  lemma ClearAbsent(p: Pool, k: Key)
    requires !Marked(p, k)
    ensures ClearMarker(p, k) == p
  {
    assert p.markers - {MarkerName(k)} == p.markers;
  }

  /** What is tracked as parked, or has no marker, is in no game. */
  lemma UnmarkedIdle(prefix: string, p: Pool, k: Key)
    requires Guarded(prefix, p) && !Marked(p, k)
    ensures k !in p.inPlay
  {
  }

  // ---- Operations of the pool -------------------------------------------------------------

  lemma WarmUpKeeps(fate: Fate, prefix: string, p: Pool, id: Id, mode: string, now: int)
    requires Guarded(prefix, p) && Issued(prefix, p.env, (p.env, id))
    requires id != "" && id !in ClaimedIds(p)
    ensures var p' := WarmUp(fate, p, id, mode, now).0;
            Guarded(prefix, p') && p'.inPlay == p.inPlay && p'.env == p.env
  {
    var k := (p.env, id);
    assert k !in p.inPlay;
    hide Guarded, Issued, Marked, ClaimedIds, MarkerName;
    if k !in p.entries {
      var e := Entry(mode, "", None, None, Warming, None, None, 0);
      var p1 := Put(p, k, e);
      PutKeeps(prefix, p, k, e);
      AskStartKeeps(prefix, p1, k);
      var started := fate(p1.calls);
      var p2 := AskStart(p1, k);
      if started.Fault? {
        PutKeeps(prefix, p2, k, e.(status := Stopped));
      } else if started.bridge.Some? && started.cycle.None? {
        PutKeeps(prefix, p2, k, e.(bridge := started.bridge.value));
      } else if started.bridge.Some? {
        var e' := e.(bridge := started.bridge.value, cycle := started.cycle, gns := started.gns);
        PutKeeps(prefix, p2, k, e');
        var p3 := Ask(Put(p2, k, e'));
        AskKeeps(prefix, Put(p2, k, e'));
        if fate(p2.calls).Fault? {
          AskStopKeeps(prefix, p3, k, WarmUpRollback);
          PutKeeps(prefix, AskStop(p3, k, WarmUpRollback), k, e'.(status := Stopped));
        } else {
          ParkFresh(prefix, p3, k, e'.(status := Parked, parkedSince := Some(now)));
        }
      }
    }
  }

  lemma AskKeeps(prefix: string, p: Pool)
    requires Guarded(prefix, p)
    ensures Guarded(prefix, Ask(p))
  {
  }

  /** Parking an instance and dropping a stale marker under its name. */
  lemma ParkFresh(prefix: string, p: Pool, k: Key, e: Entry)
    requires Guarded(prefix, p) && Issued(prefix, p.env, k) && k !in p.inPlay
    ensures Guarded(prefix, ClearMarker(Put(p, k, e), k))
  {
    ClearKeeps(prefix, p, k);
    PutKeeps(prefix, ClearMarker(p, k), k, e);
    assert ClearMarker(Put(p, k, e), k) == Put(ClearMarker(p, k), k, e);
  }

  /** What a claim finds parked is issued, unmarked and in no game. */
  lemma RequiredParked(prefix: string, p: Pool, env: Option<string>, id: Option<Id>)
    requires Guarded(prefix, p)
    ensures var r := Require(p, env, id, Parked);
            r.Ok? ==> r.value in p.entries && Issued(prefix, p.env, r.value) && r.value !in p.inPlay
                      && p.entries[r.value].status == Parked
  {
    var r := Require(p, env, id, Parked);
    if r.Ok? {
      assert !Marked(p, r.value);
      UnmarkedIdle(prefix, p, r.value);
    }
  }

  /** Refreshing addresses leaves the state of an entry alone. */
  lemma RefreshedStatus(e: Entry, a: Answer)
    ensures Refreshed(e, a).status == e.status
  {
  }

  lemma ParkedIsUnmarked(prefix: string, p: Pool, k: Key)
    requires Guarded(prefix, p) && k in p.entries && p.entries[k].status == Parked
    ensures !Marked(p, k)
  {
  }

  lemma ClaimKeeps(fate: Fate, prefix: string, p: Pool, env: Option<string>, id: Option<Id>,
                   resume: bool, mode: Option<string>, now: int)
    requires Guarded(prefix, p)
    ensures var (p', r) := Claim(fate, p, env, id, resume, mode, now);
            && Guarded(prefix, p') && p'.env == p.env && p'.log == p.log
            && p'.inPlay == (if r.Ok? then p.inPlay + {r.value} else p.inPlay)
            && (r.Ok? ==> r.value in p.entries && r.value !in p.inPlay)
  {
    hide Guarded, Issued, MarkerName, Require, Refreshed;
    var required := Require(p, env, id, Parked);
    if required.Ok? && required.value in p.entries {
      var k := required.value;
      var e := p.entries[k];
      RequiredParked(prefix, p, env, id);
      if mode.None? || mode.value == e.mode {
        var e' := Refreshed(e, fate(p.calls));
        RefreshedStatus(e, fate(p.calls));
        ParkedIsUnmarked(prefix, p, k);
        AskKeeps(prefix, p);
        PutKeeps(prefix, Ask(p), k, e');
        var p1 := Put(Ask(p), k, e');
        AskKeeps(prefix, p1);
        AskKeeps(prefix, Ask(p1));
        var p3 := if resume then Ask(Ask(p1)) else Ask(p1);
        HandOver(prefix, p3, k, e'.(status := Claimed, claimedAt := Some(now), parkedSince := None));
      }
    }
  }

  /** The instant of the handover: the entry leaves Parked and its marker is written. */
  lemma HandOver(prefix: string, p: Pool, k: Key, e: Entry)
    requires Guarded(prefix, p) && Issued(prefix, p.env, k) && e.status == Claimed
    ensures var p' := Put(p, k, e);
            Guarded(prefix, p'.(markers := p'.markers[MarkerName(k) := k], inPlay := p'.inPlay + {k}))
  {
    forall j | Issued(prefix, p.env, j) && j != k ensures MarkerName(j) != MarkerName(k) {
      if MarkerName(j) == MarkerName(k) { MarkerNamesDiffer(prefix, p.env, j, k); }
    }
  }

  lemma {:induction false} AskAllEffect(fate: Fate, p: Pool, n: nat)
    ensures AskAll(fate, p, n).0 == p.(calls := AskAll(fate, p, n).0.calls)
    decreases n
  {
    if n != 0 && !fate(p.calls).Fault? {
      AskAllEffect(fate, Ask(p), n - 1);
    }
  }

  lemma RecallKeeps(prefix: string, p: Pool, calls: nat)
    requires Guarded(prefix, p)
    ensures Guarded(prefix, p.(calls := calls))
  {
  }

  lemma RecycleKeeps(fate: Fate, prefix: string, p: Pool, env: Option<string>, id: Option<Id>,
                     keepWarm: bool, withResult: bool, now: int)
    requires Guarded(prefix, p)
    ensures var (p', r) := Recycle(fate, p, env, id, keepWarm, withResult, now);
            && Guarded(prefix, p') && p'.env == p.env
            && p'.inPlay == (if r.Ok? then p.inPlay - {r.value} else p.inPlay)
            && (r.Ok? ==> r.value in p.entries)
  {
    hide Guarded, Issued, MarkerName, AskAll, EndRound, Require;
    var required := Require(p, env, id, Claimed);
    if required.Ok? && required.value in p.entries {
      var k := required.value;
      EntryIssued(prefix, p, k);
      var e := p.entries[k].(status := Recycling);
      var asked := (if withResult then 1 else 0) + 1 + (if keepWarm then 1 else 0);
      PutKeeps(prefix, p, k, e);
      AskAllEffect(fate, Put(p, k, e), asked);
      var (p1, fine) := AskAll(fate, Put(p, k, e), asked);
      RecallKeeps(prefix, Put(p, k, e), p1.calls);
      EndRoundKeeps(fate, prefix, p1, k, e.(rounds := e.rounds + 1), keepWarm, now);
    }
  }

  lemma EntryIssued(prefix: string, p: Pool, k: Key)
    requires Guarded(prefix, p) && k in p.entries
    ensures Issued(prefix, p.env, k)
  {
  }

  lemma EndRoundKeeps(fate: Fate, prefix: string, p: Pool, k: Key, e: Entry, keepWarm: bool, now: int)
    requires Guarded(prefix, p) && Issued(prefix, p.env, k) && e.status == Recycling
    ensures var (p', ended) := EndRound(fate, p, k, e, keepWarm, now);
            && Guarded(prefix, p') && p'.env == p.env
            && p'.inPlay == (if ended then p.inPlay - {k} else p.inPlay)
  {
    hide Guarded, Issued, MarkerName;
    if keepWarm {
      TakeBack(prefix, p, k, e.(status := Parked, parkedSince := Some(now), claimedAt := None));
    } else {
      PutKeeps(prefix, p, k, e);
      AskStopKeeps(prefix, Put(p, k, e), k, RecycleCold);
      TakeBack(prefix, AskStop(Put(p, k, e), k, RecycleCold), k,
               e.(status := Stopped, parkedSince := None, claimedAt := None, gns := None, cycle := None));
    }
  }

  /** The end of a claim: the marker goes and the instance is in no game any more. */
  lemma TakeBack(prefix: string, p: Pool, k: Key, e: Entry)
    requires Guarded(prefix, p) && Issued(prefix, p.env, k)
    ensures Guarded(prefix, GiveBack(Put(p, k, e), k))
  {
    var p' := Put(p, k, e);
    forall j | j in p.inPlay && j != k ensures MarkerName(j) != MarkerName(k) {
      if MarkerName(j) == MarkerName(k) { MarkerNamesDiffer(prefix, p.env, j, k); }
    }
    assert MarkerName(k) !in GiveBack(p', k).markers;
  }

  lemma ReapOneKeeps(fate: Fate, prefix: string, p: Pool, k: Key)
    requires Guarded(prefix, p) && k in p.entries && p.entries[k].status == Parked
    ensures var p' := ReapOne(fate, p, k).0;
            Guarded(prefix, p') && p'.inPlay == p.inPlay && p'.env == p.env
  {
    assert !Marked(p, k) && Issued(prefix, p.env, k);
    UnmarkedIdle(prefix, p, k);
    hide Guarded, Issued, MarkerName;
    AskStopKeeps(prefix, p, k, ReapOverdue);
    var p1 := AskStop(p, k, ReapOverdue);
    ParkFresh(prefix, p1, k, p.entries[k].(status := Stopped, parkedSince := None, gns := None,
                                           cycle := None));
  }

  lemma {:induction false} ReapAllKeeps(fate: Fate, prefix: string, p: Pool, keys: seq<Key>,
                                        maxPark: int, now: int, stopped: seq<Key>, failed: bool)
    requires Guarded(prefix, p)
    ensures var p' := ReapAll(fate, p, keys, maxPark, now, stopped, failed).0;
            Guarded(prefix, p') && p'.inPlay == p.inPlay && p'.env == p.env
    decreases |keys|
  {
    hide Guarded, ReapOne;
    if keys != [] {
      if !Overdue(p, keys[0], maxPark, now) {
        ReapAllKeeps(fate, prefix, p, keys[1..], maxPark, now, stopped, failed);
      } else {
        ReapOneKeeps(fate, prefix, p, keys[0]);
        var (p', ok) := ReapOne(fate, p, keys[0]);
        ReapAllKeeps(fate, prefix, p', keys[1..], maxPark, now,
                     if ok then stopped + [keys[0]] else stopped, failed || !ok);
      }
    }
  }

  lemma ReconcileOneKeeps(fate: Fate, prefix: string, p: Pool, id: Id, up: bool, r: Report)
    requires Guarded(prefix, p)
    ensures var p' := ReconcileOne(fate, p, id, up, r).0;
            && Guarded(prefix, p') && p'.inPlay == p.inPlay && p'.env == p.env
            && p'.markers == p.markers
  {
    var k := (p.env, id);
    if !Marked(p, k) {
      UnmarkedIdle(prefix, p, k);
      EvictKeeps(prefix, p, k);
      AskStopKeeps(prefix, p, k, OrphanRemoval);
      AskStopKeeps(prefix, Evict(p, k), k, OrphanRemoval);
      ClearAbsent(AskStop(p, k, OrphanRemoval), k);
      ClearAbsent(AskStop(Evict(p, k), k, OrphanRemoval), k);
      hide Guarded;
    }
  }

  lemma {:induction false} ReconcileEachKeeps(fate: Fate, prefix: string, p: Pool,
                                              rows: seq<Row>, ids: seq<Id>, r: Report)
    requires Guarded(prefix, p)
    ensures var p' := ReconcileEach(fate, p, rows, ids, r).0;
            && Guarded(prefix, p') && p'.inPlay == p.inPlay && p'.env == p.env
            && p'.markers == p.markers
    decreases |ids|
  {
    hide Guarded, ReconcileOne, Running;
    if ids != [] {
      var up := Running(p.env, rows, ids[0]);
      ReconcileOneKeeps(fate, prefix, p, ids[0], up, r);
      var (p', r') := ReconcileOne(fate, p, ids[0], up, r);
      ReconcileEachKeeps(fate, prefix, p', rows, ids[1..], r');
    }
  }

  lemma {:induction false} EvictMissingKeeps(prefix: string, p: Pool, keys: seq<Key>,
                                             discovered: seq<Id>, r: Report)
    requires Guarded(prefix, p)
    ensures var p' := EvictMissing(p, keys, discovered, r).0;
            && Guarded(prefix, p')
            && p' == p.(entries := p'.entries, order := p'.order)
    decreases |keys|
  {
    hide Guarded, Marked;
    if keys != [] {
      var k := keys[0];
      if k.0 != p.env || k.1 in discovered || Marked(p, k) {
        EvictMissingKeeps(prefix, p, keys[1..], discovered, r);
      } else {
        EvictKeeps(prefix, p, k);
        EvictMissingKeeps(prefix, Evict(p, k), keys[1..], discovered,
                          r.(evicted := r.evicted + [k.1]));
      }
    }
  }

  lemma ReconcileKeeps(fate: Fate, prefix: string, p: Pool, rows: Option<seq<Row>>)
    requires Guarded(prefix, p)
    ensures var p' := Reconcile(fate, p, rows).0;
            && Guarded(prefix, p') && p'.inPlay == p.inPlay && p'.env == p.env
            && p'.markers == p.markers
  {
    hide Guarded;
    if rows.Some? {
      var ids := Discovered(p.env, rows.value);
      var r := Report([], [], [], 0, Foreign(p.env, rows.value), false, 0);
      ReconcileEachKeeps(fate, prefix, p, rows.value, ids, r);
      var (p1, r1) := ReconcileEach(fate, p, rows.value, ids, r);
      EvictMissingKeeps(prefix, p1, p1.order, ids, r1);
    }
  }

  // ---- Finding a fresh id -----------------------------------------------------------------

  /** The search returns the first number above `n` whose id is free. */
  lemma {:induction false} NextIndexIsFresh(present: set<Id>, prefix: string, n: nat)
    ensures var m := NextIndex(present, prefix, n);
            && m > n && IdFor(prefix, m) !in present
            && forall j | n < j < m :: IdFor(prefix, j) in present
    decreases |present|
  {
    var candidate := IdFor(prefix, n + 1);
    if candidate in present {
      NextIndexIsFresh(present - {candidate}, prefix, n + 1);
      var m := NextIndex(present, prefix, n);
      if IdFor(prefix, m) == candidate { IdForInjective(prefix, m, n + 1); }
      forall j | n < j < m ensures IdFor(prefix, j) in present {
      }
    }
  }

  lemma {:induction false} DecimalLength(m: nat, n: nat)
    requires m <= n
    ensures |Decimal(m)| <= |Decimal(n)|
  {
    if m >= 10 { DecimalLength(m / 10, n / 10); }
  }

  // ---- Operations of the controller -----------------------------------------------------------

  /** The counter has not outgrown the marker names. */
  predicate Roomy(c: Ctl)
  {
    Fits(IdFor(c.cfg.prefix, c.counter))
  }

  ghost predicate Safe(c: Ctl)
  {
    Guarded(c.cfg.prefix, c.pool)
  }

  lemma FillOneKeeps(fate: Fate, c: Ctl, now: int)
    requires Safe(c) && Roomy(FillOne(fate, c, now).0)
    ensures var c' := FillOne(fate, c, now).0;
            && Safe(c') && c'.pool.inPlay == c.pool.inPlay && c'.pool.env == c.pool.env
            && c'.cfg == c.cfg && c'.counter > c.counter
  {
    var n := NextIndex(Present(c.pool), c.cfg.prefix, c.counter);
    NextIndexIsFresh(Present(c.pool), c.cfg.prefix, c.counter);
    var id := IdFor(c.cfg.prefix, n);
    assert Issued(c.cfg.prefix, c.pool.env, (c.pool.env, id));
    WarmUpKeeps(fate, c.cfg.prefix, c.pool, id, c.cfg.warmMode, now);
  }

  lemma RoomyEarlier(c: Ctl, c': Ctl)
    requires Roomy(c') && c.cfg == c'.cfg && c.counter <= c'.counter
    ensures Roomy(c)
  {
    DecimalLength(c.counter, c'.counter);
  }

  lemma FillOneGrows(fate: Fate, c: Ctl, now: int)
    ensures FillOne(fate, c, now).0.cfg == c.cfg && FillOne(fate, c, now).0.counter > c.counter
  {
    NextIndexIsFresh(Present(c.pool), c.cfg.prefix, c.counter);
  }

  lemma {:induction false} FillSlotsGrows(fate: Fate, c: Ctl, missing: nat, now: int)
    ensures var c' := FillSlots(fate, c, missing, now); c'.cfg == c.cfg && c'.counter >= c.counter
    decreases missing
  {
    hide FillOne;
    if missing > 0 {
      FillOneGrows(fate, c, now);
      var (c', ok) := FillOne(fate, c, now);
      if ok { FillSlotsGrows(fate, c', missing - 1, now); }
    }
  }

  lemma {:induction false} FillSlotsKeeps(fate: Fate, c: Ctl, missing: nat, now: int)
    requires Safe(c) && Roomy(FillSlots(fate, c, missing, now))
    ensures var c' := FillSlots(fate, c, missing, now);
            && Safe(c') && c'.pool.inPlay == c.pool.inPlay && c'.pool.env == c.pool.env
            && c'.cfg == c.cfg
    decreases missing
  {
    hide Safe, Roomy, FillOne;
    if missing > 0 {
      var (c', ok) := FillOne(fate, c, now);
      if ok {
        FillSlotsGrows(fate, c', missing - 1, now);
        RoomyEarlier(c', FillSlots(fate, c', missing - 1, now));
        FillOneKeeps(fate, c, now);
        FillSlotsKeeps(fate, c', missing - 1, now);
      } else {
        FillOneKeeps(fate, c, now);
      }
    }
  }

  lemma MaintainKeeps(fate: Fate, c: Ctl, rows: Option<seq<Row>>, now: int)
    requires Safe(c) && Roomy(Maintain(fate, c, rows, now))
    ensures var c' := Maintain(fate, c, rows, now);
            && Safe(c') && c'.pool.inPlay == c.pool.inPlay && c'.pool.env == c.pool.env
            && c'.cfg == c.cfg
  {
    hide Guarded, FillSlots, Reconcile, ReapAll, ParkedCount;
    ReconcileKeeps(fate, c.cfg.prefix, c.pool, rows);
    var c1 := if now - c.lastReconcile >= c.cfg.reconcileInterval
              then CtlReconcile(fate, c, rows, now).0 else c;
    var parked := ParkedCount(c1.pool);
    var missing := if parked < c1.cfg.poolSize then c1.cfg.poolSize - parked else 0;
    if c1.discoveryOk && now >= c1.retryAt {
      FillSlotsKeeps(fate, c1, missing, now);
    }
    var c2 := Fill(fate, c1, now);
    ReapAllKeeps(fate, c2.cfg.prefix, c2.pool, c2.pool.order, c2.cfg.maxPark, now, [], false);
  }

  lemma RestartKeeps(c: Ctl, now: int)
    requires Safe(c)
    ensures Safe(Restart(c, now)) && Restart(c, now).cfg == c.cfg
  {
  }

  // ---- Whole runs -----------------------------------------------------------------------------

  /** Along the run the counter stays within the 64 characters of a marker name. */
  predicate RoomyRun(fate: Fate, c: Ctl, ops: seq<Op>)
    decreases |ops|
  {
    ops == [] || (Roomy(Apply(fate, c, ops[0])) && RoomyRun(fate, Apply(fate, c, ops[0]), ops[1..]))
  }

  lemma ApplyKeeps(fate: Fate, c: Ctl, op: Op)
    requires Safe(c) && Roomy(Apply(fate, c, op))
    ensures Safe(Apply(fate, c, op)) && Apply(fate, c, op).cfg == c.cfg
  {
    hide Guarded, Roomy, Maintain, Claim, Recycle, Reconcile, ReapAll, Restart;
    match op
    case OpMaintain(rows, now) => MaintainKeeps(fate, c, rows, now);
    case OpClaim(env, id, resume, mode, now) =>
      var oldest := Oldest(c.pool, c.pool.order, now);
      if id.Some? || oldest.Some? {
        var chosen := if id.Some? then id.value else oldest.value.1;
        ClaimKeeps(fate, c.cfg.prefix, c.pool, env, Some(chosen), resume, mode, now);
      }
    case OpRecycle(env, id, keepWarm, withResult, now) =>
      RecycleKeeps(fate, c.cfg.prefix, c.pool, env, id, keepWarm, withResult, now);
    case OpReap(maxPark, now) =>
      ReapAllKeeps(fate, c.cfg.prefix, c.pool, c.pool.order, maxPark, now, [], false);
    case OpReconcile(rows, now) => ReconcileKeeps(fate, c.cfg.prefix, c.pool, rows);
    case OpRestart(now) => RestartKeeps(c, now);
  }
}
