/** The coordinator of the casual queue as the object it is. Each method is proved to do
    what the function of the same name in QueueFlowModel says, so the theorems about
    runs hold of it. */
module QueueFlow {
  import opened Naming
  import opened QueueModel
  import opened QueueFlowModel
  import opened QueueInvariants
  import QueueCore
  import T = QueueTheorems
  import F = QueueFlowModel

  /** Provisioner and referee behind their HTTP clients. */
  class Neighbours {
    const fate: Fate
    var running: set<Instance>
    var log: seq<Event>
    var calls: nat

    function State(): Net
      reads this
    {
      Net(running, log, calls)
    }

    constructor (fate: Fate)
      ensures this.fate == fate && State() == Net({}, [], 0)
    {
      this.fate := fate;
      running, log, calls := {}, [], 0;
    }

    method Start(i: Instance) returns (reply: Reply)
      modifies this
      ensures reply == fate(old(calls)) && State() == StartCall(fate, old(State()), i)
    {
      reply := Note(StartAsked(i, running));
      if reply.Done? {
        running := running + {i};
      }
    }

    method Stop(i: Instance) returns (reply: Reply)
      modifies this
      ensures reply == fate(old(calls)) && State() == StopCall(fate, old(State()), i)
    {
      reply := Note(StopAsked(i));
      if !reply.Refused? {
        running := running - {i};
      }
    }

    /** Any call without a lasting effect: lobby, ready, rematch. */
    method Note(e: Event) returns (reply: Reply)
      modifies this
      ensures reply == fate(old(calls)) && State() == Record(old(State()), e)
    {
      reply := fate(calls);
      log := log + [e];
      calls := calls + 1;
    }
  }

  class QueueCoordinator {
    const core: QueueCore.QueueCore
    const net: Neighbours
    var cleaned: set<nat>
    var rematchOf: map<nat, nat>
    var disk: Disk

    function Abs(): Coord
      reads this, core, net
    {
      Coord(core.State(), net.State(), cleaned, rematchOf, disk)
    }

    constructor (core: QueueCore.QueueCore, net: Neighbours)
      ensures this.core == core && this.net == net
      ensures Abs() == Coord(core.State(), net.State(), {}, map[], Disk(ToState(core.State()), {}, map[]))
    {
      this.core, this.net := core, net;
      cleaned, rematchOf := {}, map[];
      disk := Disk(ToState(core.State()), {}, map[]);
    }

    method Persist()
      modifies this`disk
      ensures Abs() == F.Persist(old(Abs()))
    {
      disk := Disk(ToState(core.State()), cleaned, rematchOf);
    }

    /** A new process over the same file. */
    method Restart()
      modifies this, core
      ensures Abs() == F.Restart(old(Abs()))
    {
      core.Load(disk.core);
      cleaned, rematchOf := disk.cleaned, disk.rematchOf;
    }

    // ---- Provisioning -----------------------------------------------------------------

    method AssignAll(k: nat, players: seq<Identity>, side: Side)
      requires k in core.matches
      requires forall p | p in players :: p in PlayersOf(core.matches[k])
      modifies core
      ensures core.State() == SetSides(old(core.State()), k, players, side)
    {
      ghost var before := core.State();
      for i := 0 to |players|
        invariant k in core.matches && core.matches[k].teams == before.matches[k].teams
        invariant SetSides(core.State(), k, players[i..], side) == SetSides(before, k, players, side)
      {
        assert players[i..][1..] == players[i + 1..] && players[i] in players;
        assert PlayersOf(core.matches[k]) == PlayersOf(before.matches[k]);
        core.SetAssignment(k, players[i], side);
      }
    }

    /** The loop over the teams; ends early when a start is refused. */
    method StartTeams(k: nat) returns (started: seq<Instance>, failure: Option<Failure>)
      requires k in core.matches
      modifies core, net
      ensures Attempt(core.State(), net.State(), started, failure)
           == F.StartTeams(net.fate, Attempt(old(core.State()), old(net.State()), [], None), k,
                           old(core.matches[k].teams))
      ensures k in core.matches && core.matches[k].teams == old(core.matches[k].teams)
    {
      var teams := core.matches[k].teams;
      ghost var goal := F.StartTeams(net.fate, Attempt(core.State(), net.State(), [], None), k, teams);
      started, failure := [], None;
      assert teams[0..] == teams;
      for j := 0 to |teams|
        invariant k in core.matches && core.matches[k].teams == teams && failure == None
        invariant F.StartTeams(net.fate, Attempt(core.State(), net.State(), started, None), k,
                               teams[j..]) == goal
      {
        assert teams[j..][1..] == teams[j + 1..] && teams[j..][0] == teams[j];
        var i := Instance(k, teams[j].world);
        var reply := net.Start(i);
        if !reply.Done? {
          failure := FailureOf(reply);
          return;
        }
        started := started + [i];
        TeamPlays(teams, j);
        ghost var mid := core.State();
        AssignAll(k, teams[j].players, Side(i, reply.endpoint));
        SetSidesTeams(mid, k, teams[j].players, Side(i, reply.endpoint));
      }
    }

    method LobbyTeams(k: nat, teams: seq<Team>) returns (failure: Option<Failure>)
      modifies net
      ensures (net.State(), failure) == F.LobbyTeams(net.fate, old(net.State()), k, teams)
    {
      failure := None;
      ghost var goal := F.LobbyTeams(net.fate, net.State(), k, teams);
      assert teams[0..] == teams;
      for j := 0 to |teams|
        invariant failure == None
        invariant F.LobbyTeams(net.fate, net.State(), k, teams[j..]) == goal
      {
        assert teams[j..][1..] == teams[j + 1..] && teams[j..][0] == teams[j];
        failure := LobbyPlayers(k, teams[j].world, teams[j].players);
        if failure.Some? {
          return;
        }
      }
    }

    method LobbyPlayers(k: nat, world: string, players: seq<Identity>)
      returns (failure: Option<Failure>)
      modifies net
      ensures (net.State(), failure) == F.LobbyPlayers(net.fate, old(net.State()), k, world, players)
    {
      failure := None;
      ghost var goal := F.LobbyPlayers(net.fate, net.State(), k, world, players);
      assert players[0..] == players;
      for j := 0 to |players|
        invariant failure == None
        invariant F.LobbyPlayers(net.fate, net.State(), k, world, players[j..]) == goal
      {
        assert players[j..][1..] == players[j + 1..] && players[j..][0] == players[j];
        var reply := net.Note(LobbyAsked(players[j], world, k));
        if !reply.Done? {
          failure := FailureOf(reply);
          return;
        }
      }
    }

    method ReadyTeams(teams: seq<Team>) returns (failure: Option<Failure>)
      modifies net
      ensures (net.State(), failure) == F.ReadyTeams(net.fate, old(net.State()), teams)
    {
      failure := None;
      ghost var goal := F.ReadyTeams(net.fate, net.State(), teams);
      assert teams[0..] == teams;
      for j := 0 to |teams|
        invariant failure == None
        invariant F.ReadyTeams(net.fate, net.State(), teams[j..]) == goal
      {
        assert teams[j..][1..] == teams[j + 1..] && teams[j..][0] == teams[j];
        var reply := net.Note(ReadyAsked(teams[j].world));
        if !reply.Done? {
          failure := FailureOf(reply);
          return;
        }
      }
    }

    /** The body of the `try`. */
    method TryProvision(k: nat) returns (started: seq<Instance>, failure: Option<Failure>)
      requires k in core.matches
      modifies core, net
      ensures k in core.matches
      ensures Attempt(core.State(), net.State(), started, failure)
           == F.TryProvision(net.fate, old(core.State()), old(net.State()), k)
    {
      var teams := core.matches[k].teams;
      started, failure := StartTeams(k);
      if failure.Some? {
        return;
      }
      failure := LobbyTeams(k, teams);
      if failure.Some? {
        return;
      }
      failure := ReadyTeams(teams);
    }

    method Rollback(started: seq<Instance>)
      modifies net
      ensures net.State() == StopAll(net.fate, old(net.State()), started)
    {
      ghost var goal := StopAll(net.fate, net.State(), started);
      assert started[0..] == started;
      for j := 0 to |started|
        invariant StopAll(net.fate, net.State(), started[j..]) == goal
      {
        assert started[j..][1..] == started[j + 1..] && started[j..][0] == started[j];
        var ignored := net.Stop(started[j]);
      }
    }

    method Provision(k: nat) returns (failed: Option<QueueError>)
      requires k in core.matches
      modifies this, core, net
      ensures (Abs(), failed) == F.Provision(net.fate, old(Abs()), k)
    {
      var started, failure := TryProvision(k);
      if failure.None? {
        core.MarkReady(k);
        Persist();
        return None;
      }
      Rollback(started);
      core.MarkFailed(k, failure.value.why);
      Persist();
      return Some(QueueError(ProvisionFailed, failure.value.status));
    }

    // ---- Join, leave --------------------------------------------------------------------

    method Join(id: Identity, mode: string, size: Option<int>, now: int)
      returns (r: Result<JoinReply>)
      requires QueueOk(core.State())
      modifies this, core, net
      ensures (Abs(), r) == F.Join(net.fate, old(Abs()), id, mode, size, now)
    {
      EnqueueKeeps(core.State(), id, mode, size, now);
      var entered := core.Enqueue(id, mode, size, now);
      if entered.Err? {
        return Err(entered.error);
      }
      Persist();
      var paired := core.Pair(now);
      if paired.None? {
        return Ok(Queued(Position(core.State(), id)));
      }
      var failed := Provision(paired.value);
      return if failed.Some? then Err(failed.value) else Ok(Matched(paired.value));
    }

    method Leave(id: Identity) returns (r: Result<Identity>)
      modifies this, core
      ensures (Abs(), r) == LeaveQueue(old(Abs()), id)
    {
      var left := core.Leave(id);
      if left.Err? {
        return Err(left.error);
      }
      Persist();
      return Ok(left.value.id);
    }

    // ---- Finish, cleanup ------------------------------------------------------------------

    method Cleanup(m: Match) returns (failure: Option<Failure>)
      modifies net
      ensures (net.State(), failure)
           == F.Cleanup(net.fate, old(net.State()), m.side, PlayersOf(m))
    {
      var players := PlayersOf(m);
      failure := None;
      ghost var goal := F.Cleanup(net.fate, net.State(), m.side, players);
      assert players[0..] == players;
      for j := 0 to |players|
        invariant failure == None
        invariant F.Cleanup(net.fate, net.State(), m.side, players[j..]) == goal
      {
        assert players[j..][1..] == players[j + 1..] && players[j..][0] == players[j];
        if players[j] in m.side {
          var reply := net.Stop(m.side[players[j]].instance);
          if !reply.Done? {
            failure := FailureOf(reply);
            return;
          }
        }
      }
    }

    method Finish(k: nat, result: Option<Verdict>) returns (r: Result<Match>)
      modifies this, core, net
      ensures (Abs(), r) == F.Finish(net.fate, old(Abs()), k, result)
    {
      if k !in core.matches {
        return Err(QueueError(UnknownMatch, 409));
      }
      if result.Some? && !KnownResult(result.value) {
        return Err(QueueError(BadResult, 400));
      }
      core.Finish(k, result);
      Persist();
      var m := core.matches[k];
      if k !in cleaned {
        var failure := Cleanup(m);
        if failure.Some? {
          return Err(QueueError(CleanupFailed, 503));
        }
        cleaned := cleaned + {k};
        Persist();
      }
      return Ok(m);
    }

    // ---- Rematch ----------------------------------------------------------------------------

    method Resolve(source: Source) returns (r: Result<nat>)
      ensures r == ResolveSource(core.State(), source)
    {
      match source
      case ByMatch(k) =>
        r := if k in core.matches then Ok(k) else Err(QueueError(UnknownMatch, 409));
      case ByIdentity(id) =>
        var latest := core.FindLatest(id);
        r := if latest.Some? then Ok(latest.value) else Err(QueueError(NoMatch, 409));
    }

    method Rematch(source: Source, now: int) returns (r: Result<RematchReply>)
      modifies this, core, net
      ensures (Abs(), r) == F.Rematch(net.fate, old(Abs()), source, now)
    {
      var resolved := Resolve(source);
      if resolved.Err? {
        return Err(resolved.error);
      }
      var k := resolved.value;
      if k !in core.matches || core.matches[k].stage != Finished {
        return Err(QueueError(MatchNotFinished, 409));
      }
      if k in rematchOf && rematchOf[k] in core.matches {
        return Ok(RematchReply(k, true, rematchOf[k]));
      }
      var stopped := Finish(k, None);
      if stopped.Err? || k !in core.matches {
        return Err(if stopped.Err? then stopped.error else QueueError(UnknownMatch, 409));
      }
      r := StartRematch(k, now);
    }

    method StartRematch(k: nat, now: int) returns (r: Result<RematchReply>)
      requires k in core.matches
      modifies this, core, net
      ensures (Abs(), r) == F.StartRematch(net.fate, old(Abs()), k, now)
    {
      var k' := core.CreateRematch(core.matches[k], now);
      Persist();
      var reply := net.Note(RematchAsked);
      if !reply.Done? {
        core.MarkFailed(k', reply.why);
        Persist();
        return Err(QueueError(RefereeRematchFailed, reply.status));
      }
      var failed := Provision(k');
      if failed.Some? {
        return Err(failed.value);
      }
      rematchOf := rematchOf[k := k'];
      Persist();
      return Ok(RematchReply(k, false, k'));
    }

    // ---- Reconcile --------------------------------------------------------------------------

    method RetryCleanups(ids: seq<nat>) returns (finished: seq<nat>)
      modifies this, core, net
      ensures (Abs(), finished) == CleanupPass(net.fate, old(Abs()), ids, [])
    {
      finished := [];
      ghost var goal := CleanupPass(net.fate, Abs(), ids, []);
      assert ids[0..] == ids;
      for j := 0 to |ids|
        invariant CleanupPass(net.fate, Abs(), ids[j..], finished) == goal
      {
        assert ids[j..][1..] == ids[j + 1..] && ids[j..][0] == ids[j];
        var r := Finish(ids[j], None);
        if r.Ok? {
          finished := finished + [ids[j]];
        }
      }
    }

    method FinishReported(view: View, ids: seq<nat>, done: seq<nat>) returns (finished: seq<nat>)
      modifies this, core, net
      ensures (Abs(), finished) == FinishPass(net.fate, old(Abs()), view, ids, done)
    {
      finished := done;
      ghost var goal := FinishPass(net.fate, Abs(), view, ids, done);
      assert ids[0..] == ids;
      for j := 0 to |ids|
        invariant FinishPass(net.fate, Abs(), view, ids[j..], finished) == goal
      {
        assert ids[j..][1..] == ids[j + 1..] && ids[j..][0] == ids[j];
        var k: nat := ids[j];
        if k in core.matches && Mapped(core.State(), view, k) {
          var result := DeriveResult(view.phase, view.winner);
          if result.Some? {
            var r := Finish(k, result);
            if r.Ok? {
              finished := finished + [k];
            }
          }
        }
      }
    }

    method Reconcile(view: Option<View>) returns (report: Report)
      modifies this, core, net
      ensures (Abs(), report) == F.Reconcile(net.fate, old(Abs()), view)
    {
      AscendingOrder(core.matches.Keys);
      var ids: seq<nat> := Ascending(core.matches.Keys);
      var toFinish := PendingFinish(core.State(), ids);
      var toClean := PendingCleanup(core.State(), cleaned, ids);
      if toFinish == [] && toClean == [] {
        return Report(0, [], false);
      }
      var finished := RetryCleanups(toClean);
      if toFinish == [] {
        return Report(|toClean|, finished, false);
      }
      if view.None? {
        return Report(|toFinish|, finished, true);
      }
      finished := FinishReported(view.value, toFinish, finished);
      return Report(|toFinish|, finished, false);
    }

    // ---- Any request ----------------------------------------------------------------------

    /** Whatever is asked, the object does what the model says and stays well. */
    method Serve(op: Op)
      requires Inv(Abs())
      modifies this, core, net
      ensures Abs() == F.Apply(net.fate, old(Abs()), op) && Inv(Abs())
      ensures Bound(old(core.State())) && T.Allowed(old(Abs()), op) ==> Bound(core.State())
    {
      hide F.Join, F.Finish, F.Rematch, F.Reconcile, LeaveQueue, F.Restart, Bound, QueueOk, RecordsOk,
           Fleet, LogOk, BookOk, ToState;
      T.ApplyKeeps(net.fate, Abs(), op);
      match op
      case OpJoin(id, mode, size, now) => var r := Join(id, mode, size, now);
      case OpLeave(id) => var r := Leave(id);
      case OpFinish(k, result) => var r := Finish(k, result);
      case OpRematch(source, now) => var r := Rematch(source, now);
      case OpReconcile(view) => var r := Reconcile(view);
      case OpRestart => Restart();
    }
  }

  /** Every player of a team is a participant. */
  lemma {:induction false} TeamPlays(teams: seq<Team>, j: nat)
    requires j < |teams|
    ensures forall p | p in teams[j].players :: p in Participants(teams)
  {
    if j > 0 {
      TeamPlays(teams[1..], j - 1);
    }
  }

  lemma {:induction false} SetSidesTeams(c: Core, k: nat, players: seq<Identity>, side: Side)
    requires k in c.matches
    ensures SetSides(c, k, players, side).matches[k].teams == c.matches[k].teams
    decreases |players|
  {
    if players != [] {
      SetSidesTeams(SetSide(c, k, players[0], side), k, players[1..], side);
    }
  }
}
