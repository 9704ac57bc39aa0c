/** The warm pool and its controller as the objects they are. Each method is proved to do
    what the function of the same name in ParkedModel says, so that the theorems about
    runs hold of it. */
module ParkedPool {
  import opened Naming
  import opened ParkedModel
  import opened ParkedSafety
  import opened ParkedPromises
  import M = ParkedModel

  class ParkedPool {
    const env: string
    const fate: Fate
    var entries: map<Key, Entry>
    var order: seq<Key>
    var markers: map<string, Key>
    var calls: nat
    ghost var inPlay: set<Key>
    ghost var log: seq<Call>

    ghost function Abs(): Pool
      reads this
    {
      Pool(env, entries, order, markers, inPlay, log, calls)
    }

    /** A new process over existing marker files. */
    constructor (env: string, fate: Fate, files: map<string, Key>, ghost playing: set<Key>,
                 ghost history: seq<Call>, made: nat)
      ensures this.env == env && this.fate == fate
      ensures Abs() == Pool(env, map[], [], files, playing, history, made)
    {
      this.env, this.fate := env, fate;
      entries, order, markers, calls := map[], [], files, made;
      inPlay, log := playing, history;
    }

    // ---- Fields -------------------------------------------------------------------------

    method Put(k: Key, e: Entry)
      modifies this`entries, this`order
      ensures Abs() == M.Put(old(Abs()), k, e)
    {
      if k !in entries {
        order := order + [k];
      }
      entries := entries[k := e];
    }

    method Evict(k: Key)
      modifies this`entries, this`order
      ensures Abs() == M.Evict(old(Abs()), k)
    {
      entries := entries - {k};
      order := Without(order, k);
    }

    method ClearMarker(k: Key)
      modifies this`markers
      ensures Abs() == M.ClearMarker(old(Abs()), k)
    {
      markers := markers - {MarkerName(k)};
    }

    method Ask() returns (a: Answer)
      modifies this`calls
      ensures a == fate(old(calls)) && Abs() == M.Ask(old(Abs()))
    {
      a := fate(calls);
      calls := calls + 1;
    }

    method Start(k: Key) returns (a: Answer)
      modifies this`calls, this`log
      ensures a == fate(old(calls)) && Abs() == AskStart(old(Abs()), k)
    {
      log := log + [StartAsked(k, k in inPlay)];
      a := Ask();
    }

    method Stop(k: Key, ghost via: Via) returns (a: Answer)
      modifies this`calls, this`log
      ensures a == fate(old(calls)) && Abs() == AskStop(old(Abs()), k, via)
    {
      log := log + [StopAsked(k, k in inPlay, via)];
      a := Ask();
    }

    // ---- Operations -----------------------------------------------------------------------

    method WarmUp(id: Id, mode: string, now: int) returns (r: Result<Key>)
      modifies this
      ensures (Abs(), r) == M.WarmUp(fate, old(Abs()), id, mode, now)
    {
      var k := (env, id);
      if k in entries {
        return if entries[k].status == Parked then Ok(k) else Err(WrongStatus);
      }
      var e := Entry(mode, "", None, None, Warming, None, None, 0);
      Put(k, e);
      var started := Start(k);
      if started.Fault? {
        Put(k, e.(status := Stopped));
        return Err(StartFailed);
      }
      if started.bridge.None? {
        return Err(NoPort);
      }
      e := e.(bridge := started.bridge.value);
      if started.cycle.None? {
        Put(k, e);
        return Err(NoPort);
      }
      e := e.(cycle := started.cycle, gns := started.gns);
      Put(k, e);
      var paused := Ask();
      if paused.Fault? {
        var ignored := Stop(k, WarmUpRollback);
        Put(k, e.(status := Stopped));
        return Err(PauseFailed);
      }
      Put(k, e.(status := Parked, parkedSince := Some(now)));
      ClearMarker(k);
      return Ok(k);
    }

    method Claim(env: Option<string>, id: Option<Id>, resume: bool, mode: Option<string>, now: int)
      returns (r: Result<Key>)
      modifies this
      ensures (Abs(), r) == M.Claim(fate, old(Abs()), env, id, resume, mode, now)
    {
      r := Require(env, id, Parked);
      if r.Err? {
        return;
      }
      var k := r.value;
      if mode.Some? && mode.value != entries[k].mode {
        return Err(ModeMismatch);
      }
      var a := Ask();
      Put(k, Refreshed(entries[k], a));
      a := Ask();
      if a.Fault? {
        return Err(Unhealthy);
      }
      if resume {
        a := Ask();
        if a.Fault? {
          return Err(ResumeFailed);
        }
      }
      Put(k, entries[k].(status := Claimed, claimedAt := Some(now), parkedSince := None));
      markers := markers[MarkerName(k) := k];
      inPlay := inPlay + {k};
    }

    method Require(env: Option<string>, id: Option<Id>, status: Status) returns (r: Result<Key>)
      ensures r == M.Require(Abs(), env, id, status)
    {
      if id.None? || id.value == "" {
        return Err(NoInstanceGiven);
      }
      var k := (if env.Some? && env.value != "" then env.value else this.env, id.value);
      if k !in entries {
        return Err(UnknownInstance);
      }
      return if entries[k].status != status then Err(WrongStatus) else Ok(k);
    }

    method AskAll(n: nat) returns (fine: bool)
      modifies this`calls
      ensures (Abs(), fine) == M.AskAll(fate, old(Abs()), n)
    {
      ghost var goal := M.AskAll(fate, Abs(), n);
      for i := 0 to n
        invariant M.AskAll(fate, Abs(), n - i) == goal
      {
        var a := Ask();
        if a.Fault? {
          return false;
        }
      }
      return true;
    }

    method Recycle(env: Option<string>, id: Option<Id>, keepWarm: bool, withResult: bool, now: int)
      returns (r: Result<Key>)
      modifies this
      ensures (Abs(), r) == M.Recycle(fate, old(Abs()), env, id, keepWarm, withResult, now)
    {
      r := Require(env, id, Claimed);
      if r.Err? {
        return;
      }
      var k := r.value;
      var e := entries[k].(status := Recycling);
      Put(k, e);
      var fine := AskAll((if withResult then 1 else 0) + 1 + (if keepWarm then 1 else 0));
      if !fine {
        return Err(RecycleFailed);
      }
      var ended := EndRound(k, e.(rounds := e.rounds + 1), keepWarm, now);
      if !ended {
        return Err(StopFailed);
      }
    }

    method EndRound(k: Key, e: Entry, keepWarm: bool, now: int) returns (ended: bool)
      modifies this
      ensures (Abs(), ended) == M.EndRound(fate, old(Abs()), k, e, keepWarm, now)
    {
      if keepWarm {
        Put(k, e.(status := Parked, parkedSince := Some(now), claimedAt := None));
      } else {
        Put(k, e);
        var a := Stop(k, RecycleCold);
        if a.Fault? {
          return false;
        }
        Put(k, e.(status := Stopped, parkedSince := None, claimedAt := None, gns := None,
                  cycle := None));
      }
      ClearMarker(k);
      inPlay := inPlay - {k};
      return true;
    }

    method Reap(maxPark: int, now: int) returns (r: Result<seq<Key>>)
      modifies this
      ensures (Abs(), r) == M.Reap(fate, old(Abs()), maxPark, now)
    {
      var keys := order;
      var stopped: seq<Key>, failed := [], false;
      ghost var goal := ReapAll(fate, Abs(), keys, maxPark, now, [], false);
      assert keys[0..] == keys;
      for j := 0 to |keys|
        invariant ReapAll(fate, Abs(), keys[j..], maxPark, now, stopped, failed) == goal
      {
        assert keys[j..][1..] == keys[j + 1..] && keys[j..][0] == keys[j];
        var k := keys[j];
        if k in entries && entries[k].status == Parked && entries[k].parkedSince.Some?
           && now - entries[k].parkedSince.value > maxPark
        {
          var a := Stop(k, ReapOverdue);
          if a.Fault? {
            failed := true;
          } else {
            Put(k, entries[k].(status := Stopped, parkedSince := None, gns := None, cycle := None));
            ClearMarker(k);
            stopped := stopped + [k];
          }
        }
      }
      return if failed then Err(StopFailed) else Ok(stopped);
    }

    // ---- Reconcile --------------------------------------------------------------------------

    /** The grouping of the discovered containers by instance. */
    method Group(rows: seq<Row>) returns (ids: seq<Id>, up: map<Id, bool>, foreign: nat)
      ensures ids == Discovered(env, rows) && foreign == Foreign(env, rows)
      ensures forall id | id in ids :: id in up && up[id] == Running(env, rows, id)
    {
      ids, up, foreign := [], map[], 0;
      for j := 0 to |rows|
        invariant ids == Discovered(env, rows[..j]) && foreign == Foreign(env, rows[..j])
        invariant forall id :: id in up <==> id in ids
        invariant "" !in ids
        invariant forall id | id in ids :: up[id] == Running(env, rows[..j], id)
        invariant forall i | 0 <= i < j :: Own(env, rows[i]) && rows[i].instance != "" ==> rows[i].instance in ids
      {
        var r := rows[j];
        assert rows[..j + 1][..j] == rows[..j];
        RunningNext(env, rows, j);
        if !Own(env, r) {
          foreign := foreign + 1;
        } else if r.instance != "" {
          if r.instance !in ids {
            assert !Running(env, rows[..j], r.instance);
            ids := ids + [r.instance];
            up := up[r.instance := r.up];
          } else if r.up {
            up := up[r.instance := true];
          }
        }
      }
      assert rows[..|rows|] == rows;
    }

    method RemoveOrphan(id: Id, up: bool, report: Report) returns (r: Report)
      modifies this
      ensures (Abs(), r) == M.RemoveOrphan(fate, old(Abs()), id, up, report)
    {
      var a := Stop((env, id), OrphanRemoval);
      if a.Fault? {
        return report.(errors := report.errors + 1);
      }
      ClearMarker((env, id));
      return report.(removed := report.removed + [id],
                     zombies := if up then report.zombies else report.zombies + [id]);
    }

    method ReconcileOne(id: Id, up: bool, report: Report) returns (r: Report)
      modifies this
      ensures (Abs(), r) == M.ReconcileOne(fate, old(Abs()), id, up, report)
    {
      var k := (env, id);
      if MarkerName(k) in markers {
        r := report.(kept := report.kept + 1);
      } else if k !in entries || entries[k].status == Stopped {
        r := RemoveOrphan(id, up, report);
      } else if !up {
        Evict(k);
        r := RemoveOrphan(id, up, report.(evicted := report.evicted + [id]));
      } else {
        r := report.(kept := report.kept + 1);
      }
    }

    method Reconcile(rows: Option<seq<Row>>) returns (r: Report)
      modifies this
      ensures (Abs(), r) == M.Reconcile(fate, old(Abs()), rows)
    {
      if rows.None? {
        return Report([], [], [], 0, 0, true, 1);
      }
      var ids, up, foreign := Group(rows.value);
      r := Report([], [], [], 0, foreign, false, 0);
      ghost var all := ReconcileEach(fate, Abs(), rows.value, ids, r);
      assert ids[0..] == ids;
      for j := 0 to |ids|
        invariant ReconcileEach(fate, Abs(), rows.value, ids[j..], r) == all
      {
        assert ids[j..][1..] == ids[j + 1..] && ids[j..][0] == ids[j];
        r := ReconcileOne(ids[j], up[ids[j]], r);
      }
      var keys := order;
      ghost var goal := EvictMissing(Abs(), keys, ids, r);
      assert keys[0..] == keys;
      for j := 0 to |keys|
        invariant EvictMissing(Abs(), keys[j..], ids, r) == goal
      {
        assert keys[j..][1..] == keys[j + 1..] && keys[j..][0] == keys[j];
        var k := keys[j];
        if k.0 == env && k.1 !in ids && MarkerName(k) !in markers {
          Evict(k);
          r := r.(evicted := r.evicted + [k.1]);
        }
      }
    }
  }

  class ParkedController {
    const pool: ParkedPool
    const cfg: Settings
    var counter: nat
    var backoff: int
    var retryAt: int
    var discoveryOk: bool
    var lastReap: int
    var lastReconcile: int

    ghost function Abs(): Ctl
      reads this, pool
    {
      Ctl(cfg, pool.Abs(), counter, backoff, retryAt, discoveryOk, lastReap, lastReconcile)
    }

    constructor (pool: ParkedPool, cfg: Settings, now: int)
      ensures this.pool == pool && this.cfg == cfg
      ensures Abs() == Ctl(cfg, pool.Abs(), 0, 1, 0, true, now, now)
    {
      this.pool, this.cfg := pool, cfg;
      counter, backoff, retryAt, discoveryOk := 0, 1, 0, true;
      lastReap, lastReconcile := now, now;
    }

    /** The search for a free id. It ends because every taken candidate is one fewer to
        meet: candidates never repeat. */
    method NextId() returns (id: Id)
      modifies this`counter
      ensures counter == NextIndex(Present(old(pool.Abs())), cfg.prefix, old(counter))
      ensures id == IdFor(cfg.prefix, counter) && id !in Present(pool.Abs())
    {
      var present: set<Id> := (set k | k in pool.entries :: k.1)
        + (set n | n in pool.markers && pool.markers[n].0 == pool.env && pool.markers[n].1 != "" :: pool.markers[n].1);
      assert present == Present(pool.Abs());
      NextIndexIsFresh(present, cfg.prefix, counter);
      ghost var goal := NextIndex(present, cfg.prefix, counter);
      ghost var left := present;
      while true
        invariant NextIndex(left, cfg.prefix, counter) == goal && left <= present
        invariant forall m: nat | IdFor(cfg.prefix, m) in present - left :: m <= counter
        decreases |left|
      {
        id := IdFor(cfg.prefix, counter + 1);
        if id !in present {
          counter := counter + 1;
          return;
        }
        assert id in left;
        forall m: nat | IdFor(cfg.prefix, m) == id ensures m == counter + 1 {
          IdForInjective(cfg.prefix, m, counter + 1);
        }
        left := left - {id};
        counter := counter + 1;
      }
    }

    method ParkedRows() returns (n: nat)
      ensures n == ParkedCount(pool.Abs())
    {
      n := |set k | k in pool.entries && pool.entries[k].status == Parked|;
    }

    /** One round of the loop of `Fill`. */
    method FillOne(now: int) returns (ok: bool)
      modifies this, pool
      ensures (Abs(), ok) == M.FillOne(pool.fate, old(Abs()), now)
      ensures ok ==> ParkedCount(pool.Abs()) == ParkedCount(old(pool.Abs())) + 1
    {
      hide NextIndex, Present, ParkedCount;
      ghost var before := Abs();
      var id := NextId();
      var r := pool.WarmUp(id, cfg.warmMode, now);
      if r.Err? {
        retryAt := now + backoff;
        backoff := if backoff * 2 <= cfg.backoffCap then backoff * 2 else cfg.backoffCap;
        return false;
      }
      backoff := 1;
      WarmUpAddsOne(pool.fate, before.pool, id, cfg.warmMode, now);
      return true;
    }

    method Fill(now: int)
      modifies this, pool
      ensures Abs() == M.Fill(pool.fate, old(Abs()), now)
    {
      hide M.FillOne, ParkedCount;
      if !discoveryOk || now < retryAt {
        return;
      }
      var parked := ParkedRows();
      ghost var missing: nat := if parked < cfg.poolSize then cfg.poolSize - parked else 0;
      ghost var goal := FillSlots(pool.fate, Abs(), missing, now);
      while parked < cfg.poolSize
        invariant parked == ParkedCount(pool.Abs())
        invariant missing == if parked < cfg.poolSize then cfg.poolSize - parked else 0
        invariant FillSlots(pool.fate, Abs(), missing, now) == goal
        decreases missing
      {
        var ok := FillOne(now);
        if !ok {
          return;
        }
        missing := missing - 1;
        parked := ParkedRows();
      }
    }

    method Reconcile(rows: Option<seq<Row>>, now: int) returns (r: Report)
      modifies this, pool
      ensures (Abs(), r) == CtlReconcile(pool.fate, old(Abs()), rows, now)
    {
      lastReconcile := now;
      r := pool.Reconcile(rows);
      discoveryOk := !r.discoveryFailed;
    }

    /** One maintenance pass: reconcile when due, fill, reap when due. */
    method MaintainOnce(rows: Option<seq<Row>>, now: int)
      modifies this, pool
      ensures Abs() == Maintain(pool.fate, old(Abs()), rows, now)
    {
      if now - lastReconcile >= cfg.reconcileInterval {
        var report := Reconcile(rows, now);
      }
      Fill(now);
      if now - lastReap >= cfg.reapInterval {
        lastReap := now;
        var stopped := pool.Reap(cfg.maxPark, now);
      }
    }

    /** The first of the longest parked, in the order of entry. */
    method OldestParked(now: int) returns (best: Option<Key>)
      ensures best == Oldest(pool.Abs(), pool.order, now)
    {
      best := None;
      for j := 0 to |pool.order|
        invariant best == Oldest(pool.Abs(), pool.order[..j], now)
        invariant best.Some? ==> best.value in pool.entries
      {
        var k := pool.order[j];
        assert pool.order[..j + 1][..j] == pool.order[..j];
        if k in pool.entries && pool.entries[k].status == Parked
           && (best.None?
               || ParkedFor(pool.entries[k], now) > ParkedFor(pool.entries[best.value], now))
        {
          best := Some(k);
        }
      }
      assert pool.order[..|pool.order|] == pool.order;
    }

    method Claim(env: Option<string>, id: Option<Id>, resume: bool, mode: Option<string>, now: int)
      returns (r: Result<Key>)
      modifies this, pool
      ensures (Abs(), r) == CtlClaim(pool.fate, old(Abs()), env, id, resume, mode, now)
    {
      var chosen := id;
      if chosen.None? {
        var oldest := OldestParked(now);
        if oldest.None? {
          return Err(NoneParked);
        }
        chosen := Some(oldest.value.1);
      }
      r := pool.Claim(env, chosen, resume, mode, now);
    }

    method Recycle(env: Option<string>, id: Option<Id>, keepWarm: bool, withResult: bool, now: int)
      returns (r: Result<Key>)
      modifies this, pool
      ensures Abs() == Apply(pool.fate, old(Abs()), OpRecycle(env, id, keepWarm, withResult, now))
      ensures r == M.Recycle(pool.fate, old(pool.Abs()), env, id, keepWarm, withResult, now).1
    {
      if id.None? || id.value == "" {
        return Err(NoInstanceGiven);
      }
      r := pool.Recycle(env, id, keepWarm, withResult, now);
    }

    /** Whatever is asked of a running service, the controller does what the model says and
        keeps every game protected. */
    method Serve(op: Op)
      requires Safe(Abs()) && !op.OpRestart?
      modifies this, pool
      ensures Abs() == Apply(pool.fate, old(Abs()), op)
      ensures Roomy(Abs()) ==> Safe(Abs())
    {
      hide Guarded, Roomy, Maintain, M.Claim, M.Recycle, M.Reconcile, M.Reap;
      if Roomy(Apply(pool.fate, Abs(), op)) { ApplyKeeps(pool.fate, Abs(), op); }
      match op
      case OpMaintain(rows, now) => MaintainOnce(rows, now);
      case OpClaim(env, id, resume, mode, now) => var r := Claim(env, id, resume, mode, now);
      case OpRecycle(env, id, keepWarm, withResult, now) =>
        var r := Recycle(env, id, keepWarm, withResult, now);
      case OpReap(maxPark, now) => var r := pool.Reap(maxPark, now);
      case OpReconcile(rows, now) => var r := Reconcile(rows, now);
    }
  }
}
