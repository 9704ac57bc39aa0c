/** The coordinator of the casual queue as values: matchmaking core, the two
    neighbouring services, the cleanup and rematch books and the state file.

    Provisioner and referee answer every call as they like. An oracle `fate` fixes
    one answer per call number, and every theorem is about all oracles. */
module QueueFlowModel {
  import opened Naming
  import opened QueueModel

  /** The answer to one call. A refused start leaves nothing running; a stop whose
      reply is lost did take effect. */
  datatype Reply =
    | Done(endpoint: Option<string>)
    | Refused(why: string, status: int)
    | LostReply(why: string, status: int)

  type Fate = nat -> Reply

  datatype Failure = Failure(why: string, status: int)

  /** The observable calls; a start also records what was running when it was made. */
  datatype Event =
    | StartAsked(instance: Instance, running: set<Instance>)
    | StopAsked(instance: Instance)
    | LobbyAsked(player: Identity, world: string, matchId: nat)
    | ReadyAsked(world: string)
    | RematchAsked

  /** Provisioner and referee as seen from outside. */
  datatype Net = Net(running: set<Instance>, log: seq<Event>, calls: nat)

  datatype Disk = Disk(core: Saved, cleaned: set<nat>, rematchOf: map<nat, nat>)

  datatype Coord = Coord(core: Core, net: Net, cleaned: set<nat>, rematchOf: map<nat, nat>,
                         disk: Disk)

  // ---- Calls ---------------------------------------------------------------------

  function FailureOf(r: Reply): Option<Failure>
  {
    if r.Done? then None else Some(Failure(r.why, r.status))
  }

  function Record(n: Net, e: Event): Net
  {
    n.(log := n.log + [e], calls := n.calls + 1)
  }

  function StartCall(fate: Fate, n: Net, i: Instance): Net
  {
    var asked := Record(n, StartAsked(i, n.running));
    if fate(n.calls).Done? then asked.(running := n.running + {i}) else asked
  }

  function StopCall(fate: Fate, n: Net, i: Instance): Net
  {
    var asked := Record(n, StopAsked(i));
    if fate(n.calls).Refused? then asked else asked.(running := n.running - {i})
  }

  // ---- Persistence ----------------------------------------------------------------

  function Image(s: Coord): Disk
  {
    Disk(ToState(s.core), s.cleaned, s.rematchOf)
  }

  function Persist(s: Coord): Coord
  {
    s.(disk := Image(s))
  }

  /** The service comes up again with nothing but the file. */
  function Restart(s: Coord): Coord
  {
    s.(core := LoadState(s.core, s.disk.core), cleaned := s.disk.cleaned,
       rematchOf := s.disk.rematchOf)
  }

  // ---- Provisioning -----------------------------------------------------------------

  /** Where a provisioning attempt stands; `failure` is the exception in flight. */
  datatype Attempt = Attempt(core: Core, net: Net, started: seq<Instance>,
                             failure: Option<Failure>)

  function SetSides(c: Core, k: nat, players: seq<Identity>, side: Side): (r: Core)
    requires k in c.matches
    ensures r.matches.Keys == c.matches.Keys
    decreases |players|
  {
    if players == [] then c else SetSides(SetSide(c, k, players[0], side), k, players[1..], side)
  }

  function StartTeams(fate: Fate, a: Attempt, k: nat, teams: seq<Team>): (r: Attempt)
    requires k in a.core.matches
    ensures r.core.matches.Keys == a.core.matches.Keys
    decreases |teams|
  {
    if teams == [] then a
    else
      var i := Instance(k, teams[0].world);
      var reply := fate(a.net.calls);
      var net := StartCall(fate, a.net, i);
      if !reply.Done? then a.(net := net, failure := FailureOf(reply))
      else
        var core := SetSides(a.core, k, teams[0].players, Side(i, reply.endpoint));
        StartTeams(fate, Attempt(core, net, a.started + [i], None), k, teams[1..])
  }

  /** One `/lobby` per assignment, in team order. */
  function LobbyPlayers(fate: Fate, n: Net, k: nat, world: string, players: seq<Identity>)
    : (Net, Option<Failure>)
    decreases |players|
  {
    if players == [] then (n, None)
    else
      var reply := fate(n.calls);
      var n' := Record(n, LobbyAsked(players[0], world, k));
      if !reply.Done? then (n', FailureOf(reply))
      else LobbyPlayers(fate, n', k, world, players[1..])
  }

  function LobbyTeams(fate: Fate, n: Net, k: nat, teams: seq<Team>): (Net, Option<Failure>)
    decreases |teams|
  {
    if teams == [] then (n, None)
    else
      var (n', failure) := LobbyPlayers(fate, n, k, teams[0].world, teams[0].players);
      if failure.Some? then (n', failure) else LobbyTeams(fate, n', k, teams[1..])
  }

  function ReadyTeams(fate: Fate, n: Net, teams: seq<Team>): (Net, Option<Failure>)
    decreases |teams|
  {
    if teams == [] then (n, None)
    else
      var reply := fate(n.calls);
      var n' := Record(n, ReadyAsked(teams[0].world));
      if !reply.Done? then (n', FailureOf(reply)) else ReadyTeams(fate, n', teams[1..])
  }

  /** The best-effort stops of a rollback: their answers are ignored. */
  function StopAll(fate: Fate, n: Net, started: seq<Instance>): Net
    decreases |started|
  {
    if started == [] then n else StopAll(fate, StopCall(fate, n, started[0]), started[1..])
  }

  /** The guarded part of `_provision`: starts, then lobby, then ready. */
  function TryProvision(fate: Fate, c: Core, n: Net, k: nat): (r: Attempt)
    requires k in c.matches
    ensures r.core.matches.Keys == c.matches.Keys
  {
    var teams := c.matches[k].teams;
    var a := StartTeams(fate, Attempt(c, n, [], None), k, teams);
    if a.failure.Some? then a
    else
      var (n1, f1) := LobbyTeams(fate, a.net, k, teams);
      if f1.Some? then a.(net := n1, failure := f1)
      else
        var (n2, f2) := ReadyTeams(fate, n1, teams);
        a.(net := n2, failure := f2)
  }

  function Provision(fate: Fate, s: Coord, k: nat): (Coord, Option<QueueError>)
    requires k in s.core.matches
  {
    var a := TryProvision(fate, s.core, s.net, k);
    if a.failure.None? then
      (Persist(s.(core := MarkReady(a.core, k), net := a.net)), None)
    else
      var net := StopAll(fate, a.net, a.started);
      (Persist(s.(core := MarkFailed(a.core, k, a.failure.value.why), net := net)),
       Some(QueueError(ProvisionFailed, a.failure.value.status)))
  }

  // ---- Join, leave ---------------------------------------------------------------------

  datatype JoinReply = Queued(position: Option<nat>) | Matched(matchId: nat)

  function IndexOf(q: seq<Entry>, e: Entry): (i: nat)
    ensures i <= |q|
    ensures i < |q| ==> q[i] == e
  {
    if q == [] || q[0] == e then 0 else 1 + IndexOf(q[1..], e)
  }

  /** 1-based place in the queue. */
  function Position(c: Core, id: Identity): Option<nat>
  {
    if id in c.byIdentity then Some(IndexOf(c.queue, c.byIdentity[id]) + 1) else None
  }

  function Join(fate: Fate, s: Coord, id: Identity, mode: string, size: Option<int>, now: int)
    : (Coord, Result<JoinReply>)
  {
    var (c1, entered) := Enqueue(s.core, id, mode, size, now);
    if entered.Err? then (s, Err(entered.error))
    else
      var s1 := Persist(s.(core := c1));
      var (c2, paired) := Pair(c1, now);
      if paired.None? then (s1, Ok(Queued(Position(c2, id))))
      else
        var (s2, failed) := Provision(fate, s1.(core := c2), paired.value);
        (s2, if failed.Some? then Err(failed.value) else Ok(Matched(paired.value)))
  }

  function LeaveQueue(s: Coord, id: Identity): (Coord, Result<Identity>)
  {
    var (c, left) := Leave(s.core, id);
    if left.Err? then (s, Err(left.error)) else (Persist(s.(core := c)), Ok(left.value.id))
  }

  // ---- Finish, cleanup -------------------------------------------------------------------

  /** Stop the recorded instance of every assignment; the first error ends it. */
  function Cleanup(fate: Fate, n: Net, side: map<Identity, Side>, players: seq<Identity>)
    : (Net, Option<Failure>)
    decreases |players|
  {
    if players == [] then (n, None)
    else if players[0] !in side then Cleanup(fate, n, side, players[1..])
    else
      var reply := fate(n.calls);
      var n' := StopCall(fate, n, side[players[0]].instance);
      if !reply.Done? then (n', FailureOf(reply)) else Cleanup(fate, n', side, players[1..])
  }

  function Finish(fate: Fate, s: Coord, k: nat, result: Option<Verdict>): (Coord, Result<Match>)
  {
    if k !in s.core.matches then (s, Err(QueueError(UnknownMatch, 409)))
    else if result.Some? && !KnownResult(result.value) then (s, Err(QueueError(BadResult, 400)))
    else
      var s1 := Persist(s.(core := FinishMatch(s.core, k, result)));
      var m := s1.core.matches[k];
      if k in s.cleaned then (s1, Ok(m))
      else
        var (net, failure) := Cleanup(fate, s1.net, m.side, PlayersOf(m));
        var s2 := s1.(net := net);
        if failure.Some? then (s2, Err(QueueError(CleanupFailed, 503)))
        else (Persist(s2.(cleaned := s2.cleaned + {k})), Ok(m))
  }

  // ---- Rematch ----------------------------------------------------------------------------

  datatype Source = ByMatch(k: nat) | ByIdentity(id: Identity)

  datatype RematchReply = RematchReply(source: nat, idempotent: bool, matchId: nat)

  function ResolveSource(c: Core, source: Source): Result<nat>
  {
    match source
    case ByMatch(k) =>
      if k in c.matches then Ok(k) else Err(QueueError(UnknownMatch, 409))
    case ByIdentity(id) =>
      var latest := LatestMatchFor(c, id);
      if latest.Some? then Ok(latest.value) else Err(QueueError(NoMatch, 409))
  }

  function Rematch(fate: Fate, s: Coord, source: Source, now: int): (Coord, Result<RematchReply>)
  {
    var resolved := ResolveSource(s.core, source);
    if resolved.Err? then (s, Err(resolved.error))
    else
      var k := resolved.value;
      if k !in s.core.matches || s.core.matches[k].stage != Finished then
        (s, Err(QueueError(MatchNotFinished, 409)))
      else if k in s.rematchOf && s.rematchOf[k] in s.core.matches then
        (s, Ok(RematchReply(k, true, s.rematchOf[k])))
      else
        var (s1, stopped) := Finish(fate, s, k, None);
        if stopped.Err? || k !in s1.core.matches then
          (s1, Err(if stopped.Err? then stopped.error else QueueError(UnknownMatch, 409)))
        else
          StartRematch(fate, s1, k, now)
  }

  /** Steps 4 to 8: new record, referee reset, two fresh worlds, then the anchor. */
  function StartRematch(fate: Fate, s: Coord, k: nat, now: int): (Coord, Result<RematchReply>)
    requires k in s.core.matches
  {
    var (c, k') := CreateRematch(s.core, s.core.matches[k], now);
    var s1 := Persist(s.(core := c));
    var reply := fate(s1.net.calls);
    var s2 := s1.(net := Record(s1.net, RematchAsked));
    if !reply.Done? then
      (Persist(s2.(core := MarkFailed(s2.core, k', reply.why))),
       Err(QueueError(RefereeRematchFailed, reply.status)))
    else
      var (s3, failed) := Provision(fate, s2, k');
      if failed.Some? then (s3, Err(failed.value))
      else (Persist(s3.(rematchOf := s3.rematchOf[k := k'])), Ok(RematchReply(k, false, k')))
  }

  // ---- Reconcile -------------------------------------------------------------------------

  /** The part of the referee's `GET /state` the reconciler looks at. */
  datatype View = View(phase: Option<string>, winner: Option<string>, matchIds: set<nat>,
                       pair: Option<set<Identity>>)

  datatype Report = Report(reconciled: nat, finished: seq<nat>, refereeMissing: bool)

  predicate Blank(c: char)
  {
    c == ' ' || c == '\t' || c == '\n' || c == '\r'
  }

  function StripLeft(s: string): string
  {
    if s != "" && Blank(s[0]) then StripLeft(s[1..]) else s
  }

  function StripRight(s: string): string
  {
    if s != "" && Blank(s[|s| - 1]) then StripRight(s[..|s| - 1]) else s
  }

  function Upper(s: string): string
  {
    seq(|s|, i requires 0 <= i < |s| => if 'a' <= s[i] <= 'z' then s[i] - 'a' + 'A' else s[i])
  }

  function DeriveResult(phase: Option<string>, winner: Option<string>): Option<Verdict>
  {
    if phase != Some("finished") then None
    else
      var w := Upper(StripRight(StripLeft(if winner.Some? then winner.value else "")));
      Some(if w == "A" then WinnerA else if w == "B" then WinnerB else Draw)
  }

  function PendingFinish(c: Core, ids: seq<nat>): seq<nat>
    requires forall k | k in ids :: k in c.matches
  {
    if ids == [] then []
    else if Active(c.matches[ids[0]]) then [ids[0]] + PendingFinish(c, ids[1..])
    else PendingFinish(c, ids[1..])
  }

  function PendingCleanup(c: Core, cleaned: set<nat>, ids: seq<nat>): seq<nat>
    requires forall k | k in ids :: k in c.matches
  {
    if ids == [] then []
    else if !Active(c.matches[ids[0]]) && ids[0] !in cleaned
    then [ids[0]] + PendingCleanup(c, cleaned, ids[1..])
    else PendingCleanup(c, cleaned, ids[1..])
  }

  function CleanupPass(fate: Fate, s: Coord, ids: seq<nat>, finished: seq<nat>)
    : (Coord, seq<nat>)
    decreases |ids|
  {
    if ids == [] then (s, finished)
    else
      var (s', r) := Finish(fate, s, ids[0], None);
      CleanupPass(fate, s', ids[1..], if r.Ok? then finished + [ids[0]] else finished)
  }

  predicate Mapped(c: Core, view: View, k: nat)
    requires k in c.matches
  {
    k in view.matchIds
    || (view.pair.Some? && (set p | p in PlayersOf(c.matches[k])) == view.pair.value)
  }

  function FinishPass(fate: Fate, s: Coord, view: View, ids: seq<nat>, finished: seq<nat>)
    : (Coord, seq<nat>)
    decreases |ids|
  {
    if ids == [] then (s, finished)
    else
      var result := DeriveResult(view.phase, view.winner);
      if ids[0] !in s.core.matches || !Mapped(s.core, view, ids[0]) || result.None?
      then FinishPass(fate, s, view, ids[1..], finished)
      else
        var (s', r) := Finish(fate, s, ids[0], result);
        FinishPass(fate, s', view, ids[1..], if r.Ok? then finished + [ids[0]] else finished)
  }

  function Reconcile(fate: Fate, s: Coord, view: Option<View>): (Coord, Report)
  {
    AscendingOrder(s.core.matches.Keys);
    var ids := Ascending(s.core.matches.Keys);
    var toFinish := PendingFinish(s.core, ids);
    var toClean := PendingCleanup(s.core, s.cleaned, ids);
    if toFinish == [] && toClean == [] then (s, Report(0, [], false))
    else
      var (s1, cleaned) := CleanupPass(fate, s, toClean, []);
      if toFinish == [] then (s1, Report(|toClean|, cleaned, false))
      else if view.None? then (s1, Report(|toFinish|, cleaned, true))
      else
        var (s2, finished) := FinishPass(fate, s1, view.value, toFinish, cleaned);
        (s2, Report(|toFinish|, finished, false))
  }

  // ---- Runs -----------------------------------------------------------------------------

  datatype Op =
    | OpJoin(id: Identity, mode: string, size: Option<int>, now: int)
    | OpLeave(id: Identity)
    | OpFinish(k: nat, result: Option<Verdict>)
    | OpRematch(source: Source, now: int)
    | OpReconcile(view: Option<View>)
    | OpRestart

  function Apply(fate: Fate, s: Coord, op: Op): Coord
  {
    match op
    case OpJoin(id, mode, size, now) => Join(fate, s, id, mode, size, now).0
    case OpLeave(id) => LeaveQueue(s, id).0
    case OpFinish(k, result) => Finish(fate, s, k, result).0
    case OpRematch(source, now) => Rematch(fate, s, source, now).0
    case OpReconcile(view) => Reconcile(fate, s, view).0
    case OpRestart => Restart(s)
  }

  function Run(fate: Fate, s: Coord, ops: seq<Op>): Coord
    decreases |ops|
  {
    if ops == [] then s else Run(fate, Apply(fate, s, ops[0]), ops[1..])
  }

  /** A fresh service: empty core, nothing running, the file as first written. */
  function Boot(teamSize: TeamSize, teamsPerMatch: TeamCount, allowTeams: bool): Coord
  {
    var c := Core(teamSize, teamsPerMatch, allowTeams, [], map[], map[], map[], 1, 0);
    Coord(c, Net({}, [], 0), {}, map[], Disk(ToState(c), {}, map[]))
  }
}
