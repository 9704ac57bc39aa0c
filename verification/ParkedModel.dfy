/** The warm pool and its controller as values: entries, persistent claim markers, the
    discovery gate, and a history of what the provisioner was asked to do.

    Provisioner, bridge and Docker discovery answer as they like; an oracle `fate` fixes
    one answer per call number. */
module ParkedModel {
  import opened Naming

  type Id = string

  /** Environment and instance id. */
  type Key = (string, Id)

  datatype Status = Warming | Parked | Claimed | Recycling | Stopped

  datatype Entry = Entry(mode: string, bridge: string, cycle: Option<string>, gns: Option<string>,
                         status: Status, parkedSince: Option<int>, claimedAt: Option<int>,
                         rounds: nat)

  /** An answer: an exception, or a result with the ports the provisioner knows. */
  datatype Answer =
    | Fine(bridge: Option<string>, cycle: Option<string>, gns: Option<string>)
    | Fault

  type Fate = nat -> Answer

  datatype Via = WarmUpRollback | RecycleCold | ReapOverdue | OrphanRemoval

  /** History of provisioner calls: was the instance in a game when it was named? */
  datatype Call =
    | StartAsked(key: Key, inPlay: bool)
    | StopAsked(key: Key, inPlay: bool, via: Via)

  /** `inPlay` is history, not a field of the service: the instances handed over to a
      game and not yet given back. It survives a restart, as games do. */
  datatype Pool = Pool(env: string, entries: map<Key, Entry>, order: seq<Key>,
                       markers: map<string, Key>, inPlay: set<Key>, log: seq<Call>, calls: nat)

  datatype Problem =
    | NoInstanceGiven | UnknownInstance | WrongStatus | ModeMismatch | StartFailed | NoPort
    | PauseFailed | Unhealthy | ResumeFailed | RecycleFailed | StopFailed | NoneParked

  datatype Result<+T> = Ok(value: T) | Err(problem: Problem)

  // ---- Marker files ----------------------------------------------------------------

  predicate SafeChar(c: char)
  {
    'A' <= c <= 'Z' || 'a' <= c <= 'z' || '0' <= c <= '9' || c == '_' || c == '.' || c == '-'
  }

  const MAX_NAME := 64

  /** Unsafe characters replaced, cut at 64. */
  function Sanitize(s: string): string
  {
    seq(if |s| <= MAX_NAME then |s| else MAX_NAME,
        i requires 0 <= i < |s| => if SafeChar(s[i]) then s[i] else '_')
  }

  function MarkerName(k: Key): string
  {
    "claimed-" + Sanitize(k.0) + "-" + Sanitize(k.1)
  }

  predicate Marked(p: Pool, k: Key)
  {
    MarkerName(k) in p.markers
  }

  function ClearMarker(p: Pool, k: Key): Pool
  {
    p.(markers := p.markers - {MarkerName(k)})
  }

  /** `claimed_instances`: read from the files, not from their names. */
  function ClaimedIds(p: Pool): set<Id>
  {
    set n | n in p.markers && p.markers[n].0 == p.env && p.markers[n].1 != "" :: p.markers[n].1
  }

  // ---- Entries ---------------------------------------------------------------------

  function Put(p: Pool, k: Key, e: Entry): Pool
  {
    p.(entries := p.entries[k := e], order := if k in p.entries then p.order else p.order + [k])
  }

  function Without(order: seq<Key>, k: Key): seq<Key>
  {
    if order == [] then []
    else if order[0] == k then Without(order[1..], k)
    else [order[0]] + Without(order[1..], k)
  }

  function Evict(p: Pool, k: Key): Pool
  {
    p.(entries := p.entries - {k}, order := Without(p.order, k))
  }

  function AskStart(p: Pool, k: Key): Pool
  {
    p.(log := p.log + [StartAsked(k, k in p.inPlay)], calls := p.calls + 1)
  }

  function AskStop(p: Pool, k: Key, via: Via): Pool
  {
    p.(log := p.log + [StopAsked(k, k in p.inPlay, via)], calls := p.calls + 1)
  }

  /** A bridge or status call. */
  function Ask(p: Pool): Pool
  {
    p.(calls := p.calls + 1)
  }

  // ---- Warm up ---------------------------------------------------------------------

  function WarmUp(fate: Fate, p: Pool, id: Id, mode: string, now: int): (Pool, Result<Key>)
  {
    var k := (p.env, id);
    if k in p.entries then
      (p, if p.entries[k].status == Parked then Ok(k) else Err(WrongStatus))
    else
      var e := Entry(mode, "", None, None, Warming, None, None, 0);
      var p1 := Put(p, k, e);
      var started := fate(p1.calls);
      var p2 := AskStart(p1, k);
      if started.Fault? then (Put(p2, k, e.(status := Stopped)), Err(StartFailed))
      else if started.bridge.None? then (p2, Err(NoPort))
      else if started.cycle.None? then
        (Put(p2, k, e.(bridge := started.bridge.value)), Err(NoPort))
      else
        var e' := e.(bridge := started.bridge.value, cycle := started.cycle, gns := started.gns);
        var p3 := Ask(Put(p2, k, e'));
        if fate(p2.calls).Fault? then
          (Put(AskStop(p3, k, WarmUpRollback), k, e'.(status := Stopped)), Err(PauseFailed))
        else
          (ClearMarker(Put(p3, k, e'.(status := Parked, parkedSince := Some(now))), k), Ok(k))
  }

  // ---- Claim -----------------------------------------------------------------------

  function Require(p: Pool, env: Option<string>, id: Option<Id>, status: Status): Result<Key>
  {
    if id.None? || id.value == "" then Err(NoInstanceGiven)
    else
      var k := (if env.Some? && env.value != "" then env.value else p.env, id.value);
      if k !in p.entries then Err(UnknownInstance)
      else if p.entries[k].status != status then Err(WrongStatus)
      else Ok(k)
  }

  function Refreshed(e: Entry, a: Answer): Entry
  {
    if a.Fault? then e
    else e.(gns := a.gns, cycle := if a.cycle.Some? then a.cycle else e.cycle)
  }

  function Claim(fate: Fate, p: Pool, env: Option<string>, id: Option<Id>, resume: bool,
                 mode: Option<string>, now: int): (Pool, Result<Key>)
  {
    var required := Require(p, env, id, Parked);
    if required.Err? || required.value !in p.entries then
      (p, Err(if required.Err? then required.problem else UnknownInstance))
    else
      var k := required.value;
      var e := p.entries[k];
      if mode.Some? && mode.value != e.mode then (p, Err(ModeMismatch))
      else
        var e' := Refreshed(e, fate(p.calls));
        var p1 := Put(Ask(p), k, e');
        var p2 := Ask(p1);
        if fate(p1.calls).Fault? then (p2, Err(Unhealthy))
        else
          var p3 := if resume then Ask(p2) else p2;
          if resume && fate(p2.calls).Fault? then (p3, Err(ResumeFailed))
          else
            var p4 := Put(p3, k, e'.(status := Claimed, claimedAt := Some(now), parkedSince := None));
            (p4.(markers := p4.markers[MarkerName(k) := k], inPlay := p4.inPlay + {k}), Ok(k))
  }

  // ---- Recycle ---------------------------------------------------------------------

  /** The bridge calls of a recycle, in order, until the first fault. */
  function AskAll(fate: Fate, p: Pool, n: nat): (Pool, bool)
    decreases n
  {
    if n == 0 then (p, true)
    else if fate(p.calls).Fault? then (Ask(p), false)
    else AskAll(fate, Ask(p), n - 1)
  }

  function GiveBack(p: Pool, k: Key): Pool
  {
    ClearMarker(p, k).(inPlay := p.inPlay - {k})
  }

  function Recycle(fate: Fate, p: Pool, env: Option<string>, id: Option<Id>, keepWarm: bool,
                   withResult: bool, now: int): (Pool, Result<Key>)
  {
    var required := Require(p, env, id, Claimed);
    if required.Err? || required.value !in p.entries then
      (p, Err(if required.Err? then required.problem else UnknownInstance))
    else
      var k := required.value;
      var e := p.entries[k].(status := Recycling);
      var asked := (if withResult then 1 else 0) + 1 + (if keepWarm then 1 else 0);
      var (p1, fine) := AskAll(fate, Put(p, k, e), asked);
      if !fine then (p1, Err(RecycleFailed))
      else
        var (p2, ended) := EndRound(fate, p1, k, e.(rounds := e.rounds + 1), keepWarm, now);
        (p2, if ended then Ok(k) else Err(StopFailed))
  }

  /** After the bridge calls: back to parked, or a cold stop. */
  function EndRound(fate: Fate, p: Pool, k: Key, e: Entry, keepWarm: bool, now: int): (Pool, bool)
  {
    if keepWarm then
      var e' := e.(status := Parked, parkedSince := Some(now), claimedAt := None);
      (GiveBack(Put(p, k, e'), k), true)
    else
      var p1 := AskStop(Put(p, k, e), k, RecycleCold);
      if fate(p.calls).Fault? then (p1, false)
      else
        var e' := e.(status := Stopped, parkedSince := None, claimedAt := None,
                     gns := None, cycle := None);
        (GiveBack(Put(p1, k, e'), k), true)
  }

  // ---- Reap ------------------------------------------------------------------------

  predicate Overdue(p: Pool, k: Key, maxPark: int, now: int)
  {
    k in p.entries && p.entries[k].status == Parked && p.entries[k].parkedSince.Some?
    && now - p.entries[k].parkedSince.value > maxPark
  }

  function ReapOne(fate: Fate, p: Pool, k: Key): (Pool, bool)
    requires k in p.entries
  {
    var p1 := AskStop(p, k, ReapOverdue);
    if fate(p.calls).Fault? then (p1, false)
    else
      var e := p.entries[k].(status := Stopped, parkedSince := None, gns := None, cycle := None);
      (ClearMarker(Put(p1, k, e), k), true)
  }

  /** Over a snapshot of the entries; a failed stop does not end the pass. */
  function ReapAll(fate: Fate, p: Pool, keys: seq<Key>, maxPark: int, now: int,
                   stopped: seq<Key>, failed: bool): (Pool, seq<Key>, bool)
    decreases |keys|
  {
    if keys == [] then (p, stopped, failed)
    else if !Overdue(p, keys[0], maxPark, now) then
      ReapAll(fate, p, keys[1..], maxPark, now, stopped, failed)
    else
      var (p', ok) := ReapOne(fate, p, keys[0]);
      ReapAll(fate, p', keys[1..], maxPark, now,
              if ok then stopped + [keys[0]] else stopped, failed || !ok)
  }

  function Reap(fate: Fate, p: Pool, maxPark: int, now: int): (Pool, Result<seq<Key>>)
  {
    var (p', stopped, failed) := ReapAll(fate, p, p.order, maxPark, now, [], false);
    (p', if failed then Err(StopFailed) else Ok(stopped))
  }

  // ---- Reconcile -------------------------------------------------------------------

  /** A discovered container. `up` is what the code accepts as running; missing labels
      are empty strings. */
  datatype Row = Row(env: string, instance: string, up: bool)

  predicate Own(env: string, r: Row)
  {
    r.env == "" || r.env == env
  }

  /** Instances of the own environment in order of first appearance. */
  function Discovered(env: string, rows: seq<Row>): seq<Id>
  {
    if rows == [] then []
    else
      var ids := Discovered(env, rows[..|rows| - 1]);
      var r := rows[|rows| - 1];
      if Own(env, r) && r.instance != "" && r.instance !in ids then ids + [r.instance] else ids
  }

  /** An instance runs when any of its containers does. */
  predicate Running(env: string, rows: seq<Row>, id: Id)
  {
    exists i | 0 <= i < |rows| :: Own(env, rows[i]) && rows[i].instance == id && rows[i].up
  }

  function Foreign(env: string, rows: seq<Row>): nat
  {
    if rows == [] then 0
    else Foreign(env, rows[..|rows| - 1]) + (if Own(env, rows[|rows| - 1]) then 0 else 1)
  }

  datatype Report = Report(removed: seq<Id>, evicted: seq<Id>, zombies: seq<Id>, kept: nat,
                           skippedForeign: nat, discoveryFailed: bool, errors: nat)

  function RemoveOrphan(fate: Fate, p: Pool, id: Id, up: bool, r: Report): (Pool, Report)
  {
    var k := (p.env, id);
    var p1 := AskStop(p, k, OrphanRemoval);
    if fate(p.calls).Fault? then (p1, r.(errors := r.errors + 1))
    else (ClearMarker(p1, k),
          r.(removed := r.removed + [id], zombies := if up then r.zombies else r.zombies + [id]))
  }

  function ReconcileOne(fate: Fate, p: Pool, id: Id, up: bool, r: Report): (Pool, Report)
  {
    var k := (p.env, id);
    if Marked(p, k) then (p, r.(kept := r.kept + 1))
    else if k !in p.entries || p.entries[k].status == Stopped then RemoveOrphan(fate, p, id, up, r)
    else if !up then RemoveOrphan(fate, Evict(p, k), id, up, r.(evicted := r.evicted + [id]))
    else (p, r.(kept := r.kept + 1))
  }

  function ReconcileEach(fate: Fate, p: Pool, rows: seq<Row>, ids: seq<Id>, r: Report)
    : (Pool, Report)
    decreases |ids|
  {
    if ids == [] then (p, r)
    else
      var (p', r') := ReconcileOne(fate, p, ids[0], Running(p.env, rows, ids[0]), r);
      ReconcileEach(fate, p', rows, ids[1..], r')
  }

  /** Tracked, unmarked and not discovered: forgotten without a stop. */
  function EvictMissing(p: Pool, keys: seq<Key>, discovered: seq<Id>, r: Report): (Pool, Report)
    decreases |keys|
  {
    if keys == [] then (p, r)
    else
      var k := keys[0];
      if k.0 != p.env || k.1 in discovered || Marked(p, k)
      then EvictMissing(p, keys[1..], discovered, r)
      else EvictMissing(Evict(p, k), keys[1..], discovered, r.(evicted := r.evicted + [k.1]))
  }

  function Reconcile(fate: Fate, p: Pool, rows: Option<seq<Row>>): (Pool, Report)
  {
    if rows.None? then (p, Report([], [], [], 0, 0, true, 1))
    else
      var ids := Discovered(p.env, rows.value);
      var r := Report([], [], [], 0, Foreign(p.env, rows.value), false, 0);
      var (p1, r1) := ReconcileEach(fate, p, rows.value, ids, r);
      EvictMissing(p1, p1.order, ids, r1)
  }

  // ---- Controller --------------------------------------------------------------------

  datatype Settings = Settings(poolSize: nat, prefix: string, warmMode: string, maxPark: int,
                               reapInterval: int, reconcileInterval: int, backoffCap: int)

  datatype Ctl = Ctl(cfg: Settings, pool: Pool, counter: nat, backoff: int, retryAt: int,
                     discoveryOk: bool, lastReap: int, lastReconcile: int)

  function IdFor(prefix: string, n: nat): Id
  {
    prefix + "-" + Decimal(n)
  }

  function Present(p: Pool): set<Id>
  {
    (set k | k in p.entries :: k.1) + ClaimedIds(p)
  }

  /** The search of `_next_id`. A candidate that is taken leaves one fewer to meet. */
  function NextIndex(present: set<Id>, prefix: string, n: nat): nat
    decreases |present|
  {
    var candidate := IdFor(prefix, n + 1);
    if candidate !in present then n + 1 else NextIndex(present - {candidate}, prefix, n + 1)
  }

  function ParkedCount(p: Pool): nat
  {
    |set k | k in p.entries && p.entries[k].status == Parked|
  }

  function FillOne(fate: Fate, c: Ctl, now: int): (Ctl, bool)
  {
    var n := NextIndex(Present(c.pool), c.cfg.prefix, c.counter);
    var (p, r) := WarmUp(fate, c.pool, IdFor(c.cfg.prefix, n), c.cfg.warmMode, now);
    if r.Err? then
      (c.(pool := p, counter := n, retryAt := now + c.backoff,
          backoff := if c.backoff * 2 <= c.cfg.backoffCap then c.backoff * 2 else c.cfg.backoffCap),
       false)
    else (c.(pool := p, counter := n, backoff := 1), true)
  }

  function FillSlots(fate: Fate, c: Ctl, missing: nat, now: int): Ctl
    decreases missing
  {
    if missing == 0 then c
    else
      var (c', ok) := FillOne(fate, c, now);
      if ok then FillSlots(fate, c', missing - 1, now) else c'
  }

  function Fill(fate: Fate, c: Ctl, now: int): Ctl
  {
    if !c.discoveryOk || now < c.retryAt then c
    else
      var parked := ParkedCount(c.pool);
      FillSlots(fate, c, if parked < c.cfg.poolSize then c.cfg.poolSize - parked else 0, now)
  }

  function CtlReconcile(fate: Fate, c: Ctl, rows: Option<seq<Row>>, now: int): (Ctl, Report)
  {
    var (p, r) := Reconcile(fate, c.pool, rows);
    (c.(pool := p, lastReconcile := now, discoveryOk := !r.discoveryFailed), r)
  }

  function Maintain(fate: Fate, c: Ctl, rows: Option<seq<Row>>, now: int): Ctl
  {
    var c1 := if now - c.lastReconcile >= c.cfg.reconcileInterval
              then CtlReconcile(fate, c, rows, now).0 else c;
    var c2 := Fill(fate, c1, now);
    if now - c2.lastReap >= c2.cfg.reapInterval
    then c2.(pool := Reap(fate, c2.pool, c2.cfg.maxPark, now).0, lastReap := now)
    else c2
  }

  function ParkedFor(e: Entry, now: int): int
  {
    if e.parkedSince.Some? then now - e.parkedSince.value else -1
  }

  /** `max(rows, key=parked_seconds)`: the first of the longest parked. */
  function Oldest(p: Pool, keys: seq<Key>, now: int): Option<Key>
  {
    if keys == [] then None
    else
      var best := Oldest(p, keys[..|keys| - 1], now);
      var k := keys[|keys| - 1];
      if k in p.entries && p.entries[k].status == Parked
         && (best.None? || (best.value in p.entries
                            && ParkedFor(p.entries[k], now) > ParkedFor(p.entries[best.value], now)))
      then Some(k) else best
  }

  function CtlClaim(fate: Fate, c: Ctl, env: Option<string>, id: Option<Id>, resume: bool,
                    mode: Option<string>, now: int): (Ctl, Result<Key>)
  {
    var oldest := Oldest(c.pool, c.pool.order, now);
    if id.None? && oldest.None? then (c, Err(NoneParked))
    else
      var chosen := if id.Some? then id.value else oldest.value.1;
      var (p, r) := Claim(fate, c.pool, env, Some(chosen), resume, mode, now);
      (c.(pool := p), r)
  }

  // ---- Runs ---------------------------------------------------------------------------

  datatype Op =
    | OpMaintain(rows: Option<seq<Row>>, now: int)
    | OpClaim(env: Option<string>, id: Option<Id>, resume: bool, mode: Option<string>, now: int)
    | OpRecycle(env: Option<string>, id: Option<Id>, keepWarm: bool, withResult: bool, now: int)
    | OpReap(maxPark: int, now: int)
    | OpReconcile(rows: Option<seq<Row>>, now: int)
    | OpRestart(now: int)

  /** A new process: no entries, counter at zero, gate open. Markers and games remain. */
  function Restart(c: Ctl, now: int): Ctl
  {
    c.(pool := c.pool.(entries := map[], order := []), counter := 0, backoff := 1, retryAt := 0,
       discoveryOk := true, lastReap := now, lastReconcile := now)
  }

  function Apply(fate: Fate, c: Ctl, op: Op): Ctl
  {
    match op
    case OpMaintain(rows, now) => Maintain(fate, c, rows, now)
    case OpClaim(env, id, resume, mode, now) => CtlClaim(fate, c, env, id, resume, mode, now).0
    case OpRecycle(env, id, keepWarm, withResult, now) =>
      c.(pool := Recycle(fate, c.pool, env, id, keepWarm, withResult, now).0)
    case OpReap(maxPark, now) => c.(pool := Reap(fate, c.pool, maxPark, now).0)
    case OpReconcile(rows, now) => CtlReconcile(fate, c, rows, now).0
    case OpRestart(now) => Restart(c, now)
  }

  function Run(fate: Fate, c: Ctl, ops: seq<Op>): Ctl
    decreases |ops|
  {
    if ops == [] then c else Run(fate, Apply(fate, c, ops[0]), ops[1..])
  }
}
