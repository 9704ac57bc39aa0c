/** What the warm pool promises, in its own words. */
module ParkedPromises {
  import opened Naming
  import opened ParkedModel
  import opened ParkedSafety

  // ---- A live claim is never killed -----------------------------------------------------

  /** The first start of the service, before any marker exists. */
  function Boot(cfg: Settings, env: string): Ctl
  {
    Ctl(cfg, Pool(env, map[], [], map[], {}, [], 0), 0, 1, 0, true, 0, 0)
  }

  lemma {:induction false} RunKeeps(fate: Fate, c: Ctl, ops: seq<Op>)
    requires Safe(c) && RoomyRun(fate, c, ops)
    ensures Safe(Run(fate, c, ops))
    decreases |ops|
  {
    hide Safe, Roomy;
    if ops != [] {
      ApplyKeeps(fate, c, ops[0]);
      RunKeeps(fate, Apply(fate, c, ops[0]), ops[1..]);
    }
  }

  /** In every run from the first start, with restarts anywhere: the provisioner was never
      asked to start an instance that was in a game, and was asked to stop one only by the
      cold recycle that ends that very game. */
  lemma LiveClaimNeverKilled(fate: Fate, cfg: Settings, env: string, ops: seq<Op>)
    requires RoomyRun(fate, Boot(cfg, env), ops)
    ensures var p := Run(fate, Boot(cfg, env), ops).pool;
            && (forall i | 0 <= i < |p.log| :: p.log[i].StartAsked? ==> !p.log[i].inPlay)
            && (forall i | 0 <= i < |p.log| :: p.log[i].StopAsked? && p.log[i].inPlay ==>
                  p.log[i].via == RecycleCold)
            && (forall k | k in p.inPlay :: Marked(p, k))
            && (forall k | k in p.entries && p.entries[k].status == Parked :: k !in p.inPlay)
  {
    RunKeeps(fate, Boot(cfg, env), ops);
    var p := Run(fate, Boot(cfg, env), ops).pool;
    assert Guarded(cfg.prefix, p) by { CfgKept(fate, Boot(cfg, env), ops); }
    forall k | k in p.entries && p.entries[k].status == Parked ensures k !in p.inPlay {
      UnmarkedIdle(cfg.prefix, p, k);
    }
  }

  lemma {:induction false} CfgKept(fate: Fate, c: Ctl, ops: seq<Op>)
    requires Safe(c) && RoomyRun(fate, c, ops)
    ensures Run(fate, c, ops).cfg == c.cfg
    decreases |ops|
  {
    hide Safe, Roomy;
    if ops != [] {
      ApplyKeeps(fate, c, ops[0]);
      CfgKept(fate, Apply(fate, c, ops[0]), ops[1..]);
    }
  }

  // ---- A claim that a restart forgot -------------------------------------------------------

  /** In a game, but no longer tracked: the process that handed it over is gone. */
  predicate Forgotten(c: Ctl, k: Key)
  {
    k in c.pool.inPlay && k !in c.pool.entries
  }

  lemma WarmUpTracks(fate: Fate, p: Pool, id: Id, mode: string, now: int)
    ensures WarmUp(fate, p, id, mode, now).0.entries.Keys <= p.entries.Keys + {(p.env, id)}
  {
  }

  lemma ClaimTracks(fate: Fate, p: Pool, env: Option<string>, id: Option<Id>, resume: bool,
                    mode: Option<string>, now: int)
    ensures Claim(fate, p, env, id, resume, mode, now).0.entries.Keys == p.entries.Keys
  {
  }

  lemma RecycleTracks(fate: Fate, p: Pool, env: Option<string>, id: Option<Id>, keepWarm: bool,
                      withResult: bool, now: int)
    ensures Recycle(fate, p, env, id, keepWarm, withResult, now).0.entries.Keys == p.entries.Keys
  {
    var required := Require(p, env, id, Claimed);
    if required.Ok? && required.value in p.entries {
      var k := required.value;
      var asked := (if withResult then 1 else 0) + 1 + (if keepWarm then 1 else 0);
      AskAllEffect(fate, Put(p, k, p.entries[k].(status := Recycling)), asked);
    }
  }

  lemma {:induction false} ReapTracks(fate: Fate, p: Pool, keys: seq<Key>, maxPark: int, now: int,
                                      stopped: seq<Key>, failed: bool)
    ensures ReapAll(fate, p, keys, maxPark, now, stopped, failed).0.entries.Keys == p.entries.Keys
    decreases |keys|
  {
    if keys != [] {
      if !Overdue(p, keys[0], maxPark, now) {
        ReapTracks(fate, p, keys[1..], maxPark, now, stopped, failed);
      } else {
        var (p', ok) := ReapOne(fate, p, keys[0]);
        assert p'.entries.Keys == p.entries.Keys;
        ReapTracks(fate, p', keys[1..], maxPark, now,
                   if ok then stopped + [keys[0]] else stopped, failed || !ok);
      }
    }
  }

  lemma {:induction false} ReconcileEachTracks(fate: Fate, p: Pool, rows: seq<Row>, ids: seq<Id>,
                                               r: Report)
    ensures ReconcileEach(fate, p, rows, ids, r).0.entries.Keys <= p.entries.Keys
    decreases |ids|
  {
    hide Running, Marked;
    if ids != [] {
      var up := Running(p.env, rows, ids[0]);
      var (p', r') := ReconcileOne(fate, p, ids[0], up, r);
      ReconcileEachTracks(fate, p', rows, ids[1..], r');
    }
  }

  lemma {:induction false} EvictMissingTracks(p: Pool, keys: seq<Key>, discovered: seq<Id>, r: Report)
    ensures EvictMissing(p, keys, discovered, r).0.entries.Keys <= p.entries.Keys
    decreases |keys|
  {
    hide Marked;
    if keys != [] {
      var k := keys[0];
      EvictMissingTracks(p, keys[1..], discovered, r);
      EvictMissingTracks(Evict(p, k), keys[1..], discovered, r.(evicted := r.evicted + [k.1]));
    }
  }

  lemma ReconcileTracks(fate: Fate, p: Pool, rows: Option<seq<Row>>)
    ensures Reconcile(fate, p, rows).0.entries.Keys <= p.entries.Keys
  {
    if rows.Some? {
      var ids := Discovered(p.env, rows.value);
      var r := Report([], [], [], 0, Foreign(p.env, rows.value), false, 0);
      ReconcileEachTracks(fate, p, rows.value, ids, r);
      var (p1, r1) := ReconcileEach(fate, p, rows.value, ids, r);
      EvictMissingTracks(p1, p1.order, ids, r1);
    }
  }

  lemma FillOneForgets(fate: Fate, c: Ctl, now: int, k: Key)
    requires Safe(c) && Roomy(FillOne(fate, c, now).0) && Forgotten(c, k)
    ensures Forgotten(FillOne(fate, c, now).0, k)
  {
    FillOneKeeps(fate, c, now);
    var n := NextIndex(Present(c.pool), c.cfg.prefix, c.counter);
    NextIndexIsFresh(Present(c.pool), c.cfg.prefix, c.counter);
    WarmUpTracks(fate, c.pool, IdFor(c.cfg.prefix, n), c.cfg.warmMode, now);
    assert c.pool.markers[MarkerName(k)] == k;
    assert k.1 != "" by {
      var j: nat :| k.1 == IdFor(c.cfg.prefix, j);
      assert |k.1| > 0;
    }
    assert k.1 in ClaimedIds(c.pool);
  }

  lemma {:induction false} FillSlotsForgets(fate: Fate, c: Ctl, missing: nat, now: int, k: Key)
    requires Safe(c) && Roomy(FillSlots(fate, c, missing, now)) && Forgotten(c, k)
    ensures Forgotten(FillSlots(fate, c, missing, now), k)
    decreases missing
  {
    hide Safe, Roomy, FillOne, Forgotten;
    if missing > 0 {
      var (c', ok) := FillOne(fate, c, now);
      if ok {
        FillSlotsGrows(fate, c', missing - 1, now);
        RoomyEarlier(c', FillSlots(fate, c', missing - 1, now));
        FillOneKeeps(fate, c, now);
        FillOneForgets(fate, c, now, k);
        FillSlotsForgets(fate, c', missing - 1, now, k);
      } else {
        FillOneForgets(fate, c, now, k);
      }
    }
  }

  lemma MaintainForgets(fate: Fate, c: Ctl, rows: Option<seq<Row>>, now: int, k: Key)
    requires Safe(c) && Roomy(Maintain(fate, c, rows, now)) && Forgotten(c, k)
    ensures Forgotten(Maintain(fate, c, rows, now), k)
  {
    hide Guarded, FillSlots, Reconcile, ReapAll, ParkedCount, Roomy;
    ReconcileKeeps(fate, c.cfg.prefix, c.pool, rows);
    ReconcileTracks(fate, c.pool, rows);
    var c1 := if now - c.lastReconcile >= c.cfg.reconcileInterval
              then CtlReconcile(fate, c, rows, now).0 else c;
    var parked := ParkedCount(c1.pool);
    var missing := if parked < c1.cfg.poolSize then c1.cfg.poolSize - parked else 0;
    var c2 := Fill(fate, c1, now);
    RoomyReap(c2, Maintain(fate, c, rows, now));
    if c1.discoveryOk && now >= c1.retryAt {
      FillSlotsKeeps(fate, c1, missing, now);
      FillSlotsForgets(fate, c1, missing, now, k);
    }
    ReapAllKeeps(fate, c2.cfg.prefix, c2.pool, c2.pool.order, c2.cfg.maxPark, now, [], false);
    ReapTracks(fate, c2.pool, c2.pool.order, c2.cfg.maxPark, now, [], false);
  }

  lemma RoomyReap(c: Ctl, c': Ctl)
    requires Roomy(c') && c'.cfg == c.cfg && c'.counter == c.counter
    ensures Roomy(c)
  {
  }

  lemma ApplyForgets(fate: Fate, c: Ctl, op: Op, k: Key)
    requires Safe(c) && Roomy(Apply(fate, c, op)) && Forgotten(c, k)
    ensures Forgotten(Apply(fate, c, op), k)
  {
    hide Guarded, Roomy, Maintain, Claim, Recycle, Reconcile, ReapAll;
    match op
    case OpMaintain(rows, now) => MaintainForgets(fate, c, rows, now, k);
    case OpClaim(env, id, resume, mode, now) =>
      var oldest := Oldest(c.pool, c.pool.order, now);
      if id.Some? || oldest.Some? {
        var chosen := if id.Some? then id.value else oldest.value.1;
        ClaimKeeps(fate, c.cfg.prefix, c.pool, env, Some(chosen), resume, mode, now);
        ClaimTracks(fate, c.pool, env, Some(chosen), resume, mode, now);
      }
    case OpRecycle(env, id, keepWarm, withResult, now) =>
      RecycleKeeps(fate, c.cfg.prefix, c.pool, env, id, keepWarm, withResult, now);
      RecycleTracks(fate, c.pool, env, id, keepWarm, withResult, now);
    case OpReap(maxPark, now) =>
      ReapAllKeeps(fate, c.cfg.prefix, c.pool, c.pool.order, maxPark, now, [], false);
      ReapTracks(fate, c.pool, c.pool.order, maxPark, now, [], false);
    case OpReconcile(rows, now) =>
      ReconcileKeeps(fate, c.cfg.prefix, c.pool, rows);
      ReconcileTracks(fate, c.pool, rows);
    case OpRestart(now) =>
  }

  /** The other side of the protection: a game that a restart made the service forget stays
      marked and untracked for ever. No sequence of requests can end it; a recycle of it
      is refused as unknown, now and later. */
  lemma {:induction false} ForgottenForEver(fate: Fate, c: Ctl, ops: seq<Op>, k: Key)
    requires Safe(c) && RoomyRun(fate, c, ops) && Forgotten(c, k)
    ensures var c' := Run(fate, c, ops);
            && Forgotten(c', k) && Marked(c'.pool, k)
            && forall keepWarm, withResult, now ::
                 Recycle(fate, c'.pool, Some(k.0), Some(k.1), keepWarm, withResult, now).1.Err?
    decreases |ops|
  {
    hide Roomy;
    if ops == [] {
      assert Marked(c.pool, k);
    } else {
      ApplyKeeps(fate, c, ops[0]);
      ApplyForgets(fate, c, ops[0], k);
      ForgottenForEver(fate, Apply(fate, c, ops[0]), ops[1..], k);
    }
  }

  // ---- The discovery gate --------------------------------------------------------------------

  function Starts(log: seq<Call>): nat
  {
    if log == [] then 0
    else Starts(log[..|log| - 1]) + (if log[|log| - 1].StartAsked? then 1 else 0)
  }

  lemma StopIsNoStart(p: Pool, k: Key, via: Via)
    ensures Starts(AskStop(p, k, via).log) == Starts(p.log)
  {
    var log := AskStop(p, k, via).log;
    assert log[..|log| - 1] == p.log;
  }

  lemma {:induction false} ReapIsNoStart(fate: Fate, p: Pool, keys: seq<Key>, maxPark: int,
                                         now: int, stopped: seq<Key>, failed: bool)
    ensures Starts(ReapAll(fate, p, keys, maxPark, now, stopped, failed).0.log) == Starts(p.log)
    decreases |keys|
  {
    hide Starts;
    if keys != [] {
      if !Overdue(p, keys[0], maxPark, now) {
        ReapIsNoStart(fate, p, keys[1..], maxPark, now, stopped, failed);
      } else {
        StopIsNoStart(p, keys[0], ReapOverdue);
        var (p', ok) := ReapOne(fate, p, keys[0]);
        ReapIsNoStart(fate, p', keys[1..], maxPark, now,
                      if ok then stopped + [keys[0]] else stopped, failed || !ok);
      }
    }
  }

  lemma RecycleIsNoStart(fate: Fate, p: Pool, env: Option<string>, id: Option<Id>, keepWarm: bool,
                         withResult: bool, now: int)
    ensures Starts(Recycle(fate, p, env, id, keepWarm, withResult, now).0.log) == Starts(p.log)
  {
    hide Starts;
    var required := Require(p, env, id, Claimed);
    if required.Ok? && required.value in p.entries {
      var k := required.value;
      var e := p.entries[k].(status := Recycling);
      var asked := (if withResult then 1 else 0) + 1 + (if keepWarm then 1 else 0);
      AskAllEffect(fate, Put(p, k, e), asked);
      var p1 := AskAll(fate, Put(p, k, e), asked).0;
      StopIsNoStart(Put(p1, k, e.(rounds := e.rounds + 1)), k, RecycleCold);
    }
  }

  /** Nothing in the run lets a reconcile succeed. */
  predicate Blind(op: Op)
  {
    match op
    case OpMaintain(rows, now) => rows.None?
    case OpReconcile(rows, now) => rows.None?
    case OpRestart(now) => false
    case _ => true
  }

  /** After a failed discovery nothing is started until a reconcile succeeds, however
      often the service maintains itself; and the failed passes themselves change neither
      entries nor containers. */
  lemma {:induction false} GateStaysClosed(fate: Fate, c: Ctl, ops: seq<Op>)
    requires !c.discoveryOk && forall i | 0 <= i < |ops| :: Blind(ops[i])
    ensures var c' := Run(fate, c, ops);
            !c'.discoveryOk && Starts(c'.pool.log) == Starts(c.pool.log)
    ensures Reconcile(fate, c.pool, None).0 == c.pool
    decreases |ops|
  {
    hide Starts, Recycle, Claim, ReapAll;
    if ops != [] {
      var c1 := Apply(fate, c, ops[0]);
      match ops[0] {
        case OpMaintain(rows, now) =>
          ReapIsNoStart(fate, c.pool, c.pool.order, c.cfg.maxPark, now, [], false);
        case OpClaim(env, id, resume, mode, now) =>
          var oldest := Oldest(c.pool, c.pool.order, now);
          if id.Some? || oldest.Some? {
            ClaimIsQuiet(fate, c.pool, env, Some(if id.Some? then id.value else oldest.value.1),
                         resume, mode, now);
          }
        case OpRecycle(env, id, keepWarm, withResult, now) =>
          RecycleIsNoStart(fate, c.pool, env, id, keepWarm, withResult, now);
        case OpReap(maxPark, now) =>
          ReapIsNoStart(fate, c.pool, c.pool.order, maxPark, now, [], false);
        case OpReconcile(rows, now) =>
        case OpRestart(now) => assert false;
      }
      assert forall i | 0 <= i < |ops[1..]| :: ops[1..][i] == ops[i + 1];
      GateStaysClosed(fate, c1, ops[1..]);
    }
  }

  lemma ClaimIsQuiet(fate: Fate, p: Pool, env: Option<string>, id: Option<Id>, resume: bool,
                     mode: Option<string>, now: int)
    ensures Claim(fate, p, env, id, resume, mode, now).0.log == p.log
  {
  }

  // ---- The longest parked instance goes first ------------------------------------------------

  /** A claim without an id is offered an instance that has been parked longest. */
  lemma {:induction false} OldestIsOldest(p: Pool, keys: seq<Key>, now: int)
    ensures var r := Oldest(p, keys, now);
            && (r.Some? ==> r.value in keys && r.value in p.entries
                            && p.entries[r.value].status == Parked
                            && forall k | k in keys && k in p.entries && p.entries[k].status == Parked ::
                                 ParkedFor(p.entries[k], now) <= ParkedFor(p.entries[r.value], now))
            && (r.None? ==> forall k | k in keys :: k !in p.entries || p.entries[k].status != Parked)
    decreases |keys|
  {
    if keys != [] {
      var front := keys[..|keys| - 1];
      OldestIsOldest(p, front, now);
      assert forall k | k in keys :: k in front || k == keys[|keys| - 1];
    }
  }

  // ---- Counting ------------------------------------------------------------------------------------

  /** One more row: an instance runs if it ran before or this row says so. */
  lemma RunningNext(env: string, rows: seq<Row>, j: nat)
    requires j < |rows|
    ensures forall id :: Running(env, rows[..j + 1], id) <==>
                         Running(env, rows[..j], id)
                         || (Own(env, rows[j]) && rows[j].instance == id && rows[j].up)
  {
    forall id
      ensures Running(env, rows[..j + 1], id) <==>
              Running(env, rows[..j], id)
              || (Own(env, rows[j]) && rows[j].instance == id && rows[j].up)
    {
      if Running(env, rows[..j], id) {
        var i :| 0 <= i < j && Own(env, rows[..j][i]) && rows[..j][i].instance == id && rows[..j][i].up;
        assert rows[..j + 1][i] == rows[..j][i];
      }
      if Running(env, rows[..j + 1], id) {
        var i :| 0 <= i <= j && Own(env, rows[..j + 1][i]) && rows[..j + 1][i].instance == id
                 && rows[..j + 1][i].up;
        if i < j { assert rows[..j][i] == rows[..j + 1][i]; }
      }
      if Own(env, rows[j]) && rows[j].instance == id && rows[j].up {
        assert rows[..j + 1][j] == rows[j];
      }
    }
  }

  /** A fresh id warmed up successfully is one more parked instance. */
  lemma WarmUpAddsOne(fate: Fate, p: Pool, id: Id, mode: string, now: int)
    requires id !in Present(p) && WarmUp(fate, p, id, mode, now).1.Ok?
    ensures ParkedCount(WarmUp(fate, p, id, mode, now).0) == ParkedCount(p) + 1
  {
    var k := (p.env, id);
    assert k !in p.entries;
    var p' := WarmUp(fate, p, id, mode, now).0;
    hide ClaimedIds;
    assert forall j | j != k :: j in p'.entries <==> j in p.entries;
    assert forall j | j != k && j in p.entries :: p'.entries[j] == p.entries[j];
    assert k in p'.entries && p'.entries[k].status == Parked;
    assert (set j | j in p'.entries && p'.entries[j].status == Parked)
        == (set j | j in p.entries && p.entries[j].status == Parked) + {k};
  }
}
