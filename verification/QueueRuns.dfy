/** What every operation of the coordinator keeps, and what follows for whole runs. */
module QueueRuns {
  import opened Naming
  import opened QueueModel
  import opened QueueFlowModel
  import opened QueueInvariants

  /** The part of the invariant that has to survive in the middle of an operation. */
  ghost predicate Sound(c: Core, net: Net, cleaned: set<nat>)
  {
    RecordsOk(c) && Fleet(c, net, cleaned) && LogOk(c, net.log)
  }

  // ---- Calls that start or stop nothing ------------------------------------------------

  lemma RecordKeeps(c: Core, net: Net, cleaned: set<nat>, e: Event)
    requires Sound(c, net, cleaned) && !e.StartAsked?
    ensures Sound(c, Record(net, e), cleaned)
  {
    forall x | x in Record(net, e).log ensures NoZombieAt(c, x) {
      assert x in net.log || x == e;
    }
  }

  lemma StopKeeps(fate: Fate, c: Core, net: Net, cleaned: set<nat>, i: Instance)
    requires Sound(c, net, cleaned)
    ensures Sound(c, StopCall(fate, net, i), cleaned)
    ensures StopCall(fate, net, i).running <= net.running
  {
    RecordKeeps(c, net, cleaned, StopAsked(i));
  }

  lemma {:induction false} StopAllKeeps(fate: Fate, c: Core, net: Net, cleaned: set<nat>,
                                        started: seq<Instance>)
    requires Sound(c, net, cleaned)
    ensures Sound(c, StopAll(fate, net, started), cleaned)
    decreases |started|
  {
    if started != [] {
      StopKeeps(fate, c, net, cleaned, started[0]);
      StopAllKeeps(fate, c, StopCall(fate, net, started[0]), cleaned, started[1..]);
    }
  }

  lemma {:induction false} LobbyPlayersKeeps(fate: Fate, c: Core, net: Net, cleaned: set<nat>,
                                             k: nat, world: string, players: seq<Identity>)
    requires Sound(c, net, cleaned)
    ensures var (net', f) := LobbyPlayers(fate, net, k, world, players);
            Sound(c, net', cleaned) && net'.running == net.running
    decreases |players|
  {
    if players != [] {
      var e := LobbyAsked(players[0], world, k);
      RecordKeeps(c, net, cleaned, e);
      LobbyPlayersKeeps(fate, c, Record(net, e), cleaned, k, world, players[1..]);
    }
  }

  lemma {:induction false} LobbyTeamsKeeps(fate: Fate, c: Core, net: Net, cleaned: set<nat>,
                                           k: nat, teams: seq<Team>)
    requires Sound(c, net, cleaned)
    ensures var (net', f) := LobbyTeams(fate, net, k, teams);
            Sound(c, net', cleaned) && net'.running == net.running
    decreases |teams|
  {
    if teams != [] {
      LobbyPlayersKeeps(fate, c, net, cleaned, k, teams[0].world, teams[0].players);
      var (net', f) := LobbyPlayers(fate, net, k, teams[0].world, teams[0].players);
      LobbyTeamsKeeps(fate, c, net', cleaned, k, teams[1..]);
    }
  }

  lemma {:induction false} ReadyTeamsKeeps(fate: Fate, c: Core, net: Net, cleaned: set<nat>,
                                           teams: seq<Team>)
    requires Sound(c, net, cleaned)
    ensures var (net', f) := ReadyTeams(fate, net, teams);
            Sound(c, net', cleaned) && net'.running == net.running
    decreases |teams|
  {
    if teams != [] {
      var e := ReadyAsked(teams[0].world);
      RecordKeeps(c, net, cleaned, e);
      ReadyTeamsKeeps(fate, c, Record(net, e), cleaned, teams[1..]);
    }
  }

  // ---- Starting worlds --------------------------------------------------------------------

  function WithSide(c: Core, k: nat, side: map<Identity, Side>): Core
    requires k in c.matches
  {
    c.(matches := c.matches[k := c.matches[k].(side := side)])
  }

  /** `c'` differs from `c` only in the sides recorded for match `k`. */
  ghost predicate OnlySides(c: Core, c': Core, k: nat)
  {
    k in c.matches && k in c'.matches && c' == WithSide(c, k, c'.matches[k].side)
  }

  lemma WithSideTwice(c: Core, k: nat, s1: map<Identity, Side>, s2: map<Identity, Side>)
    requires k in c.matches
    ensures WithSide(WithSide(c, k, s1), k, s2) == WithSide(c, k, s2)
    ensures WithSide(c, k, c.matches[k].side) == c
  {
    var m := c.matches[k];
    assert c.matches[k := m.(side := s1)][k := m.(side := s2)] == c.matches[k := m.(side := s2)];
    assert c.matches[k := m] == c.matches;
  }

  function AddSides(sides: map<Identity, Side>, players: seq<Identity>, side: Side)
    : map<Identity, Side>
  {
    sides + map p | p in players :: side
  }

  lemma AddSidesStep(sides: map<Identity, Side>, players: seq<Identity>, side: Side)
    requires players != []
    ensures AddSides(sides[players[0] := side], players[1..], side) == AddSides(sides, players, side)
  {
    assert forall p :: p in players <==> p == players[0] || p in players[1..];
  }

  lemma {:induction false} SetSidesEffect(c: Core, k: nat, players: seq<Identity>, side: Side)
    requires k in c.matches
    ensures SetSides(c, k, players, side)
         == WithSide(c, k, AddSides(c.matches[k].side, players, side))
    decreases |players|
  {
    var sides := c.matches[k].side;
    if players != [] {
      var c1 := SetSide(c, k, players[0], side);
      assert c1 == WithSide(c, k, sides[players[0] := side]);
      SetSidesEffect(c1, k, players[1..], side);
      AddSidesStep(sides, players, side);
      WithSideTwice(c, k, sides[players[0] := side], AddSides(sides, players, side));
    } else {
      assert AddSides(sides, players, side) == sides;
      WithSideTwice(c, k, sides, sides);
    }
  }

  lemma SidesKeepRecords(c: Core, c': Core, k: nat)
    requires RecordsOk(c) && OnlySides(c, c', k) && MatchOk(k, c'.matches[k])
    ensures RecordsOk(c')
  {
    forall j | j in c'.matches ensures MatchOk(j, c'.matches[j]) && j < c'.nextMatchId {
      assert j in c.matches && MatchOk(j, c.matches[j]);
    }
  }

  lemma SidesKeepLog(c: Core, c': Core, k: nat, log: seq<Event>)
    requires LogOk(c, log) && OnlySides(c, c', k)
    ensures LogOk(c', log)
  {
    assert forall j | j in c.matches :: c'.matches[j].rematchOf == c.matches[j].rematchOf;
    forall e | e in log ensures NoZombieAt(c', e) {
      assert NoZombieAt(c, e);
    }
  }

  lemma SidesKeepFleet(c: Core, c': Core, k: nat, net: Net, cleaned: set<nat>)
    requires Fleet(c, net, cleaned) && OnlySides(c, c', k)
    requires Instances(c.matches[k]) <= Instances(c'.matches[k])
    ensures Fleet(c', net, cleaned)
  {
    forall j | j in c'.matches
      ensures j in c.matches && c'.matches[j].rematchOf == c.matches[j].rematchOf
           && c'.matches[j].stage == c.matches[j].stage
           && Instances(c.matches[j]) <= Instances(c'.matches[j])
    {
    }
  }

  /** Asking for a world of a match that is not cleaned: whatever is running then is
      nothing of a cleaned match, hence nothing of the source of a rematch. */
  lemma StartAskKeeps(c: Core, net: Net, cleaned: set<nat>, i: Instance)
    requires Sound(c, net, cleaned) && i.matchId in c.matches
    ensures Sound(c, Record(net, StartAsked(i, net.running)), cleaned)
  {
    var e := StartAsked(i, net.running);
    assert NoZombieAt(c, e);
    forall x | x in Record(net, e).log ensures NoZombieAt(c, x) {
      assert x in net.log || x == e;
    }
  }

  /** One started world becomes a recorded world: its team has players, and none of
      them had a side before. */
  lemma StartedIsRecorded(c: Core, k: nat, team: Team, side: Side)
    requires k in c.matches && MatchOk(k, c.matches[k]) && side.instance.matchId == k
    requires team.players != []
    requires forall p | p in team.players ::
               p in PlayersOf(c.matches[k]) && p !in c.matches[k].side
    ensures var c' := SetSides(c, k, team.players, side);
            && OnlySides(c, c', k) && MatchOk(k, c'.matches[k])
            && c'.matches[k].side == AddSides(c.matches[k].side, team.players, side)
            && Instances(c.matches[k]) <= Instances(c'.matches[k])
            && side.instance in Instances(c'.matches[k])
  {
    SetSidesEffect(c, k, team.players, side);
    var sides := c.matches[k].side;
    var sides' := AddSides(sides, team.players, side);
    assert sides'[team.players[0]] == side;
    forall p | p in sides ensures p in sides' && sides'[p] == sides[p] {
    }
  }

  /** The players of `teams` still wait for their sides. */
  ghost predicate Unassigned(m: Match, teams: seq<Team>)
  {
    && TeamsOk(teams)
    && forall p | p in Participants(teams) :: p in PlayersOf(m) && p !in m.side
  }

  lemma FirstTeam(m: Match, teams: seq<Team>)
    requires Unassigned(m, teams) && teams != []
    ensures teams[0].players != [] && TeamsOk(teams[1..])
    ensures forall p | p in teams[0].players :: p in PlayersOf(m) && p !in m.side
    ensures forall p | p in Participants(teams[1..]) ::
              p in PlayersOf(m) && p !in m.side && p !in teams[0].players
  {
    var ps, rest := teams[0].players, Participants(teams[1..]);
    var all := Participants(teams);
    assert all == ps + rest;
    assert forall i | 0 <= i < |ps| :: all[i] == ps[i];
    assert forall i | 0 <= i < |rest| :: all[|ps| + i] == rest[i];
    assert teams[0] in teams;
    assert forall t | t in teams[1..] :: t in teams;
  }

  /** A start that is granted, with the sides it records. */
  lemma StartGranted(fate: Fate, c: Core, net: Net, k: nat, team: Team, cleaned: set<nat>)
    requires Sound(c, net, cleaned) && k in c.matches && k !in cleaned
    requires team.players != [] && fate(net.calls).Done?
    requires forall p | p in team.players ::
               p in PlayersOf(c.matches[k]) && p !in c.matches[k].side
    ensures var i := Instance(k, team.world);
            var side := Side(i, fate(net.calls).endpoint);
            var c' := SetSides(c, k, team.players, side);
            && Sound(c', StartCall(fate, net, i), cleaned) && OnlySides(c, c', k)
            && c'.matches[k].side == AddSides(c.matches[k].side, team.players, side)
  {
    hide RecordsOk, MatchOk, Fleet, LogOk, OnlySides, Instances, SetSides, AddSides, PlayersOf;
    var i := Instance(k, team.world);
    var side := Side(i, fate(net.calls).endpoint);
    var c' := SetSides(c, k, team.players, side);
    var asked := Record(net, StartAsked(i, net.running));
    StartAskKeeps(c, net, cleaned, i);
    RecordOf(c, k);
    StartedIsRecorded(c, k, team, side);
    SidesKeepRecords(c, c', k);
    SidesKeepLog(c, c', k, asked.log);
    SidesKeepFleet(c, c', k, asked, cleaned);
    FleetGains(c', asked, cleaned, i);
  }

  lemma RecordOf(c: Core, k: nat)
    requires RecordsOk(c) && k in c.matches
    ensures MatchOk(k, c.matches[k])
  {
  }

  /** A recorded world of an uncleaned match may run. */
  lemma FleetGains(c: Core, net: Net, cleaned: set<nat>, i: Instance)
    requires Fleet(c, net, cleaned) && i.matchId in c.matches && i.matchId !in cleaned
    requires i in Instances(c.matches[i.matchId])
    ensures Fleet(c, net.(running := net.running + {i}), cleaned)
  {
  }

  lemma OnlySidesTrans(c: Core, c1: Core, c2: Core, k: nat)
    requires OnlySides(c, c1, k) && OnlySides(c1, c2, k)
    ensures OnlySides(c, c2, k)
  {
    WithSideTwice(c, k, c1.matches[k].side, c2.matches[k].side);
  }

  /** Starting the worlds of match `k`, cut off anywhere by a refusal: every world that
      is up is recorded, nothing else was started, nothing was stopped. */
  lemma {:induction false} StartTeamsKeeps(fate: Fate, a: Attempt, k: nat, teams: seq<Team>,
                                           cleaned: set<nat>)
    requires Sound(a.core, a.net, cleaned)
    requires k in a.core.matches && k !in cleaned && Unassigned(a.core.matches[k], teams)
    ensures var r := StartTeams(fate, a, k, teams);
            Sound(r.core, r.net, cleaned) && OnlySides(a.core, r.core, k)
    decreases |teams|
  {
    WithSideTwice(a.core, k, map[], map[]);
    if teams != [] {
      var i := Instance(k, teams[0].world);
      FirstTeam(a.core.matches[k], teams);
      var reply := fate(a.net.calls);
      if !reply.Done? {
        StartAskKeeps(a.core, a.net, cleaned, i);
      } else {
        StartGranted(fate, a.core, a.net, k, teams[0], cleaned);
        var core := SetSides(a.core, k, teams[0].players, Side(i, reply.endpoint));
        var next := Attempt(core, StartCall(fate, a.net, i), a.started + [i], None);
        StartTeamsKeeps(fate, next, k, teams[1..], cleaned);
        OnlySidesTrans(a.core, core, StartTeams(fate, next, k, teams[1..]).core, k);
      }
    }
  }

  /** Nothing but the listed worlds was added, and nothing was stopped. */
  lemma {:induction false} StartTeamsRunning(fate: Fate, a: Attempt, k: nat, teams: seq<Team>)
    requires k in a.core.matches
    requires forall i | i in a.started :: i.matchId == k
    ensures var r := StartTeams(fate, a, k, teams);
            && a.net.running <= r.net.running
            && (forall i | i in r.net.running :: i in a.net.running || i in r.started)
            && (forall i | i in r.started :: i.matchId == k)
            && (forall i | i in a.started :: i in r.started)
    decreases |teams|
  {
    if teams != [] && fate(a.net.calls).Done? {
      var i := Instance(k, teams[0].world);
      var side := Side(i, fate(a.net.calls).endpoint);
      var next := Attempt(SetSides(a.core, k, teams[0].players, side),
                          StartCall(fate, a.net, i), a.started + [i], None);
      assert forall j | j in next.started :: j in a.started || j == i;
      assert next.started[|a.started|] == i;
      StartTeamsRunning(fate, next, k, teams[1..]);
    }
  }

  // ---- Touching one record --------------------------------------------------------------

  lemma TouchesTrans(c: Core, c1: Core, c2: Core, k: nat)
    requires Touches(c, c1, k) && Touches(c1, c2, k)
    ensures Touches(c, c2, k)
  {
  }

  lemma OnlySidesTouches(c: Core, c': Core, k: nat)
    requires OnlySides(c, c', k)
    ensures Touches(c, c', k)
    ensures c'.matches[k].stage == c.matches[k].stage && c'.identityMatch == c.identityMatch
  {
  }

  /** A match whose stage is not yet Ready cannot be in the book; a finished one stays. */
  lemma TouchKeepsBook(c: Core, c': Core, k: nat, rematchOf: map<nat, nat>)
    requires BookOk(c, rematchOf) && Touches(c, c', k)
    requires c.matches[k].stage == Provisioning || c'.matches[k].stage == Finished
    ensures BookOk(c', rematchOf)
  {
    forall j | j in rematchOf
      ensures j in c'.matches && c'.matches[j].stage == Finished
      ensures rematchOf[j] in c'.matches && c'.matches[rematchOf[j]].rematchOf == Some(j)
      ensures c'.matches[rematchOf[j]].stage == Ready || c'.matches[rematchOf[j]].stage == Finished
    {
      assert c.matches[j].stage == Finished && c.matches[rematchOf[j]].rematchOf == Some(j);
    }
  }

  ghost predicate SettledBut(c: Core, k: nat)
  {
    forall j | j in c.matches && j != k :: c.matches[j].stage != Provisioning
  }

  // ---- Provisioning -----------------------------------------------------------------------

  lemma AllUnassigned(c: Core, net: Net, cleaned: set<nat>, k: nat)
    requires Sound(c, net, cleaned) && k in c.matches && c.matches[k].side == map[]
    ensures Unassigned(c.matches[k], c.matches[k].teams)
  {
    assert MatchOk(k, c.matches[k]);
  }

  lemma TryProvisionKeeps(fate: Fate, c: Core, net: Net, k: nat, cleaned: set<nat>)
    requires Sound(c, net, cleaned) && k in c.matches && k !in cleaned
    requires c.matches[k].side == map[]
    ensures var a := TryProvision(fate, c, net, k);
            Sound(a.core, a.net, cleaned) && OnlySides(c, a.core, k)
  {
    hide Sound, StartTeams, LobbyTeams, ReadyTeams, OnlySides, Unassigned;
    var teams := c.matches[k].teams;
    AllUnassigned(c, net, cleaned, k);
    var start := Attempt(c, net, [], None);
    StartTeamsKeeps(fate, start, k, teams, cleaned);
    var a := StartTeams(fate, start, k, teams);
    LobbyTeamsKeeps(fate, a.core, a.net, cleaned, k, teams);
    ReadyTeamsKeeps(fate, a.core, LobbyTeams(fate, a.net, k, teams).0, cleaned, teams);
  }

  /** The last step of an attempt gives match `k` its final stage. */
  lemma SettleKeeps(c: Core, c': Core, k: nat, net: Net, cleaned: set<nat>, rematchOf: map<nat, nat>)
    requires Sound(c, net, cleaned) && BookOk(c, rematchOf) && SettledBut(c, k)
    requires Touches(c, c', k) && c'.matches[k].side == c.matches[k].side && k !in cleaned
    requires c.matches[k].stage == Provisioning && c'.matches[k].stage != Provisioning
    ensures Sound(c', net, cleaned) && BookOk(c', rematchOf) && Settled(c')
  {
    TouchKeepsFleet(c, c', k, net, cleaned);
    TouchKeepsBook(c, c', k, rematchOf);
  }

  lemma SidesKeepBook(c: Core, c': Core, k: nat, rematchOf: map<nat, nat>)
    requires BookOk(c, rematchOf) && SettledBut(c, k) && OnlySides(c, c', k)
    requires c.matches[k].stage == Provisioning
    ensures BookOk(c', rematchOf) && SettledBut(c', k)
    ensures Touches(c, c', k) && c'.matches[k].stage == Provisioning
    ensures Bound(c) ==> Bound(c')
  {
    OnlySidesTouches(c, c', k);
    TouchKeepsBook(c, c', k, rematchOf);
    if Bound(c) { KeepsBound(c, c', k); }
  }

  lemma SidesAre(c: Core, c': Core, k: nat)
    requires OnlySides(c, c', k)
    ensures k in c.matches && k in c'.matches && c'.matches[k].stage == c.matches[k].stage
  {
  }

  /** A provisioning attempt ends with the match Ready or Failed, the fleet recorded, and
      the file up to date, wherever it was cut off. */
  lemma ProvisionKeeps(fate: Fate, s: Coord, k: nat)
    requires Sound(s.core, s.net, s.cleaned) && BookOk(s.core, s.rematchOf)
    requires k in s.core.matches && k !in s.cleaned && SettledBut(s.core, k)
    requires s.core.matches[k].side == map[] && s.core.matches[k].stage == Provisioning
    ensures var (s', failed) := Provision(fate, s, k);
            && Sound(s'.core, s'.net, s'.cleaned) && BookOk(s'.core, s'.rematchOf)
            && Settled(s'.core) && s'.disk == Image(s') && Touches(s.core, s'.core, k)
            && s'.cleaned == s.cleaned && s'.rematchOf == s.rematchOf
            && s'.core.matches[k].stage == (if failed.None? then Ready else Failed)
            && (Bound(s.core) ==> Bound(s'.core))
  {
    hide Sound, BookOk, SettledBut, Settled, Touches, OnlySides, Bound, TryProvision, StopAll, ToState,
         MarkReady, MarkFailed;
    var a := TryProvision(fate, s.core, s.net, k);
    TryProvisionKeeps(fate, s.core, s.net, k, s.cleaned);
    SidesAre(s.core, a.core, k);
    SidesKeepBook(s.core, a.core, k, s.rematchOf);
    if a.failure.None? {
      MarkReadyEffect(a.core, k);
      var c := MarkReady(a.core, k);
      SettleKeeps(a.core, c, k, a.net, s.cleaned, s.rematchOf);
      TouchesTrans(s.core, a.core, c, k);
    } else {
      var net := StopAll(fate, a.net, a.started);
      StopAllKeeps(fate, a.core, a.net, s.cleaned, a.started);
      MarkFailedEffect(a.core, k, a.failure.value.why);
      var c := MarkFailed(a.core, k, a.failure.value.why);
      SettleKeeps(a.core, c, k, net, s.cleaned, s.rematchOf);
      TouchesTrans(s.core, a.core, c, k);
    }
  }

  lemma {:induction false} StopAllStops(fate: Fate, n: Net, started: seq<Instance>)
    requires forall c | n.calls <= c < n.calls + |started| :: !fate(c).Refused?
    ensures StopAll(fate, n, started).running == n.running - (set i | i in started)
    decreases |started|
  {
    if started != [] {
      StopAllStops(fate, StopCall(fate, n, started[0]), started[1..]);
      assert forall i :: i in started <==> i == started[0] || i in started[1..];
    }
  }

  /** No half matches: if provisioning fails and the rollback's stops take effect, exactly
      the worlds that ran before are running. */
  lemma FailedProvisionUndone(fate: Fate, s: Coord, k: nat)
    requires Sound(s.core, s.net, s.cleaned) && k in s.core.matches
    requires forall i | i in s.net.running :: i.matchId != k
    requires Provision(fate, s, k).1.Some?
    requires forall c | TryProvision(fate, s.core, s.net, k).net.calls <= c :: !fate(c).Refused?
    ensures Provision(fate, s, k).0.net.running == s.net.running
  {
    hide Sound, StartTeams, LobbyTeams, ReadyTeams, StopAll, ToState, MarkFailed, MarkReady;
    var teams := s.core.matches[k].teams;
    var start := Attempt(s.core, s.net, [], None);
    StartTeamsRunning(fate, start, k, teams);
    var a := StartTeams(fate, start, k, teams);
    var r := TryProvision(fate, s.core, s.net, k);
    QuietCalls(fate, a.net, k, teams);
    assert r.net.running == a.net.running && r.started == a.started;
    StopAllStops(fate, r.net, r.started);
  }

  lemma QuietCalls(fate: Fate, n: Net, k: nat, teams: seq<Team>)
    ensures LobbyTeams(fate, n, k, teams).0.running == n.running
    ensures forall m :: ReadyTeams(fate, m, teams).0.running == m.running
  {
    QuietLobby(fate, n, k, teams);
    forall m ensures ReadyTeams(fate, m, teams).0.running == m.running {
      QuietReady(fate, m, teams);
    }
  }

  lemma {:induction false} QuietLobby(fate: Fate, n: Net, k: nat, teams: seq<Team>)
    ensures LobbyTeams(fate, n, k, teams).0.running == n.running
    decreases |teams|
  {
    if teams != [] {
      QuietPlayers(fate, n, k, teams[0].world, teams[0].players);
      QuietLobby(fate, LobbyPlayers(fate, n, k, teams[0].world, teams[0].players).0, k, teams[1..]);
    }
  }

  lemma {:induction false} QuietPlayers(fate: Fate, n: Net, k: nat, world: string,
                                        players: seq<Identity>)
    ensures LobbyPlayers(fate, n, k, world, players).0.running == n.running
    decreases |players|
  {
    if players != [] {
      QuietPlayers(fate, Record(n, LobbyAsked(players[0], world, k)), k, world, players[1..]);
    }
  }

  lemma {:induction false} QuietReady(fate: Fate, n: Net, teams: seq<Team>)
    ensures ReadyTeams(fate, n, teams).0.running == n.running
    decreases |teams|
  {
    if teams != [] {
      QuietReady(fate, Record(n, ReadyAsked(teams[0].world)), teams[1..]);
    }
  }

  // ---- Join and leave ------------------------------------------------------------------------

  lemma TouchKeepsQueue(c: Core, c': Core, k: nat)
    requires Touches(c, c', k) && QueueOk(c) && |c.queue| < Needed(c)
    ensures QueueOk(c') && |c'.queue| < Needed(c')
  {
  }

  lemma Assemble(s: Coord)
    requires QueueOk(s.core) && |s.core.queue| < Needed(s.core)
    requires Sound(s.core, s.net, s.cleaned) && BookOk(s.core, s.rematchOf)
    requires Settled(s.core) && s.disk == Image(s)
    ensures Inv(s)
  {
  }

  /** What every operation promises: the invariant, and the index if it was right. */
  ghost predicate Kept(s: Coord, s': Coord)
  {
    Inv(s') && (Bound(s.core) ==> Bound(s'.core))
  }

  /** Forming the match, before its worlds are asked for. */
  lemma PairReady(s: Coord, now: int)
    requires QueueOk(s.core) && |s.core.queue| == Needed(s.core)
    requires Sound(s.core, s.net, s.cleaned) && BookOk(s.core, s.rematchOf) && Settled(s.core)
    ensures var c', k := Pair(s.core, now).0, s.core.nextMatchId;
            && Pair(s.core, now).1 == Some(k) && k in c'.matches && k !in s.cleaned
            && QueueOk(c') && c'.queue == []
            && Sound(c', s.net, s.cleaned) && BookOk(c', s.rematchOf) && SettledBut(c', k)
            && c'.matches[k].side == map[] && c'.matches[k].stage == Provisioning
            && PlayersOf(c'.matches[k]) == Ids(s.core.queue)
            && (Bound(s.core) ==> Bound(c'))
  {
    hide QueueOk, RecordsOk, Fleet, LogOk, BookOk, Bound, MatchOk;
    var c := s.core;
    var c' := Pair(c, now).0;
    PairTeams(c, now);
    PairKeeps(c, now);
    if Bound(c) { PairKeepsBound(c, now); }
    assert c.queue[..Needed(c)] == c.queue;
    GrowKeeps(c, c', c.nextMatchId, s.net, s.cleaned, s.rematchOf);
  }

  lemma PairThenProvision(fate: Fate, s: Coord, now: int)
    requires QueueOk(s.core) && |s.core.queue| == Needed(s.core)
    requires Sound(s.core, s.net, s.cleaned) && BookOk(s.core, s.rematchOf) && Settled(s.core)
    ensures var (c, k) := Pair(s.core, now);
            && k.Some? && k.value in c.matches
            && Kept(s, Provision(fate, s.(core := c), k.value).0)
  {
    PairReady(s, now);
    var (c, k) := Pair(s.core, now);
    ProvisionKeeps(fate, s.(core := c), k.value);
    var s' := Provision(fate, s.(core := c), k.value).0;
    TouchKeepsQueue(c, s'.core, k.value);
    Assemble(s');
  }

  /** Adding the record of a fresh match, not a rematch of anything uncleaned. */
  lemma GrowKeeps(c: Core, c': Core, k: nat, net: Net, cleaned: set<nat>, rematchOf: map<nat, nat>)
    requires Sound(c, net, cleaned) && BookOk(c, rematchOf) && Settled(c) && RecordsOk(c')
    requires k !in c.matches && k in c'.matches && c'.matches == c.matches[k := c'.matches[k]]
    requires c'.matches[k].rematchOf.Some? ==> c'.matches[k].rematchOf.value in cleaned
    ensures Sound(c', net, cleaned) && BookOk(c', rematchOf) && SettledBut(c', k) && k !in cleaned
  {
    GrowKeepsFleet(c, c', k, net, cleaned);
    GrowKeepsBook(c, c', k, rematchOf);
    hide Fleet, LogOk, BookOk, RecordsOk;
  }

  lemma GrowKeepsFleet(c: Core, c': Core, k: nat, net: Net, cleaned: set<nat>)
    requires Fleet(c, net, cleaned) && LogOk(c, net.log)
    requires k !in c.matches && k in c'.matches && c'.matches == c.matches[k := c'.matches[k]]
    requires c'.matches[k].rematchOf.Some? ==> c'.matches[k].rematchOf.value in cleaned
    ensures Fleet(c', net, cleaned) && LogOk(c', net.log) && k !in cleaned
  {
    hide Instances;
    forall e | e in net.log ensures NoZombieAt(c', e) {
      assert NoZombieAt(c, e);
    }
  }

  lemma GrowKeepsBook(c: Core, c': Core, k: nat, rematchOf: map<nat, nat>)
    requires BookOk(c, rematchOf) && Settled(c)
    requires k !in c.matches && k in c'.matches && c'.matches == c.matches[k := c'.matches[k]]
    ensures BookOk(c', rematchOf) && SettledBut(c', k)
  {
  }

  lemma JoinKeeps(fate: Fate, s: Coord, id: Identity, mode: string, size: Option<int>, now: int)
    requires Inv(s)
    ensures Kept(s, Join(fate, s, id, mode, size, now).0)
  {
    var c1 := Enqueue(s.core, id, mode, size, now).0;
    EnqueueKeeps(s.core, id, mode, size, now);
    if Bound(s.core) { EnqueueKeepsBound(s.core, id, mode, size, now); }
    var s1 := Persist(s.(core := c1));
    assert Sound(c1, s.net, s.cleaned) && BookOk(c1, s.rematchOf) && Settled(c1) by {
      SameMatches(s.core, c1, s.net, s.cleaned, s.rematchOf);
    }
    if |c1.queue| >= Needed(c1) {
      PairThenProvision(fate, s1, now);
    }
  }

  lemma SameMatches(c: Core, c': Core, net: Net, cleaned: set<nat>, rematchOf: map<nat, nat>)
    requires Sound(c, net, cleaned) && BookOk(c, rematchOf) && Settled(c)
    requires c'.matches == c.matches && c'.nextMatchId == c.nextMatchId
    ensures Sound(c', net, cleaned) && BookOk(c', rematchOf) && Settled(c')
  {
    forall e | e in net.log ensures NoZombieAt(c', e) {
      assert NoZombieAt(c, e);
    }
  }

  lemma LeaveQueueKeeps(s: Coord, id: Identity)
    requires Inv(s)
    ensures Kept(s, LeaveQueue(s, id).0)
  {
    LeaveKeeps(s.core, id);
    if Bound(s.core) { LeaveKeepsBound(s.core, id); }
    SameMatches(s.core, Leave(s.core, id).0, s.net, s.cleaned, s.rematchOf);
  }

  // ---- Finish ------------------------------------------------------------------------------------

  /** After a cleanup without error nothing recorded for these players runs. */
  lemma {:induction false} CleanupKeeps(fate: Fate, c: Core, net: Net, cleaned: set<nat>,
                                        side: map<Identity, Side>, players: seq<Identity>)
    requires Sound(c, net, cleaned)
    ensures var (net', failure) := Cleanup(fate, net, side, players);
            && Sound(c, net', cleaned) && net'.running <= net.running
            && (failure.None? ==> forall p | p in players && p in side ::
                                    side[p].instance !in net'.running)
    decreases |players|
  {
    if players != [] {
      if players[0] !in side {
        CleanupKeeps(fate, c, net, cleaned, side, players[1..]);
      } else {
        StopKeeps(fate, c, net, cleaned, side[players[0]].instance);
        var net' := StopCall(fate, net, side[players[0]].instance);
        CleanupKeeps(fate, c, net', cleaned, side, players[1..]);
      }
      assert forall p | p in players :: p == players[0] || p in players[1..];
    }
  }

  /** The first half of finish: the record is closed and written down. */
  lemma CloseKeeps(s: Coord, k: nat, result: Option<Verdict>)
    requires Inv(s) && k in s.core.matches
    ensures var s1 := Persist(s.(core := FinishMatch(s.core, k, result)));
            && Kept(s, s1) && Touches(s.core, s1.core, k)
            && s1.core.matches[k].stage == Finished
            && s1.core.matches[k].side == s.core.matches[k].side
  {
    hide QueueOk, RecordsOk, Fleet, LogOk, BookOk, Bound, ToState;
    FinishMatchEffect(s.core, k, result);
    var c1 := FinishMatch(s.core, k, result);
    TouchKeepsFleet(s.core, c1, k, s.net, s.cleaned);
    TouchKeepsBook(s.core, c1, k, s.rematchOf);
    TouchKeepsQueue(s.core, c1, k);
    assert Settled(c1);
    Assemble(Persist(s.(core := c1)));
  }

  /** The second half: stops until the first error; without error the match is cleaned. */
  lemma CleanKeeps(fate: Fate, s: Coord, k: nat)
    requires Inv(s) && k in s.core.matches && s.core.matches[k].stage == Finished
    ensures var m := s.core.matches[k];
            var (net, failure) := Cleanup(fate, s.net, m.side, PlayersOf(m));
            && net.running <= s.net.running
            && Kept(s, s.(net := net))
            && (failure.None? ==> Kept(s, Persist(s.(net := net, cleaned := s.cleaned + {k}))))
  {
    var m := s.core.matches[k];
    CleanupKeeps(fate, s.core, s.net, s.cleaned, m.side, PlayersOf(m));
    var (net, failure) := Cleanup(fate, s.net, m.side, PlayersOf(m));
    if failure.None? {
      MarkCleaned(s.core, net, s.cleaned, k);
    }
  }

  lemma FinishKeeps(fate: Fate, s: Coord, k: nat, result: Option<Verdict>)
    requires Inv(s)
    ensures Kept(s, Finish(fate, s, k, result).0)
  {
    hide QueueOk, RecordsOk, Fleet, LogOk, BookOk, Bound, ToState;
    if k in s.core.matches && (result.None? || KnownResult(result.value)) {
      CloseKeeps(s, k, result);
      var s1 := Persist(s.(core := FinishMatch(s.core, k, result)));
      if k !in s.cleaned {
        CleanKeeps(fate, s1, k);
        var m := s1.core.matches[k];
        var (net, failure) := Cleanup(fate, s1.net, m.side, PlayersOf(m));
        if failure.None? {
          assert Finish(fate, s, k, result).0
              == Persist(s1.(net := net, cleaned := s1.cleaned + {k}));
        } else {
          assert Finish(fate, s, k, result).0 == s1.(net := net);
        }
      }
    }
  }

  lemma TouchesHas(c: Core, c': Core, k: nat)
    requires Touches(c, c', k)
    ensures k in c'.matches
  {
  }

  lemma TouchesSelf(c: Core, k: nat)
    requires k in c.matches
    ensures Touches(c, c, k)
  {
  }

  /** What a finish changes: at most match `k`, which an Ok leaves finished and cleaned;
      worlds only go away. */
  lemma FinishEffect(fate: Fate, s: Coord, k: nat, result: Option<Verdict>)
    requires RecordsOk(s.core)
    ensures var (s', r) := Finish(fate, s, k, result);
            && s'.net.running <= s.net.running && s'.rematchOf == s.rematchOf
            && (if k in s.core.matches then Touches(s.core, s'.core, k) else s' == s)
            && (r.Ok? ==> && k in s.core.matches && s'.core.matches[k].stage == Finished)
            && s'.cleaned == (if r.Ok? then s.cleaned + {k} else s.cleaned)
            && (k in s.core.matches && s.core.matches[k].stage == Finished ==> s'.core == s.core)
  {
    hide QueueOk, RecordsOk, Fleet, LogOk, BookOk, Bound, ToState, FinishMatch, Touches, Cleanup, KnownResult;
    if k in s.core.matches { TouchesSelf(s.core, k); }
    if k in s.core.matches && (result.None? || KnownResult(result.value)) {
      FinishMatchEffect(s.core, k, result);
      TouchesHas(s.core, FinishMatch(s.core, k, result), k);
      var m := FinishMatch(s.core, k, result).matches[k];
      CleanupStops(fate, s.net, m.side, PlayersOf(m));
      if k in s.cleaned { assert s.cleaned + {k} == s.cleaned; }
    }
  }

  lemma {:induction false} CleanupStops(fate: Fate, net: Net, side: map<Identity, Side>,
                                        players: seq<Identity>)
    ensures Cleanup(fate, net, side, players).0.running <= net.running
    decreases |players|
  {
    if players != [] {
      if players[0] !in side {
        CleanupStops(fate, net, side, players[1..]);
      } else {
        CleanupStops(fate, StopCall(fate, net, side[players[0]].instance), side, players[1..]);
      }
    }
  }

  /** Cleaning up a match stops worlds of that match only. */
  lemma {:induction false} CleanupSpares(fate: Fate, net: Net, side: map<Identity, Side>,
                                         players: seq<Identity>, k: nat)
    requires forall p | p in side :: side[p].instance.matchId == k
    ensures forall i | i in net.running && i.matchId != k ::
              i in Cleanup(fate, net, side, players).0.running
    decreases |players|
  {
    if players != [] {
      if players[0] !in side {
        CleanupSpares(fate, net, side, players[1..], k);
      } else {
        CleanupSpares(fate, StopCall(fate, net, side[players[0]].instance), side, players[1..], k);
      }
    }
  }

  /** A finish that succeeds leaves running exactly the worlds of other matches; one that
      fails in its cleanup stops no world of another match either. */
  lemma FinishStopsWorlds(fate: Fate, s: Coord, k: nat, result: Option<Verdict>)
    requires Inv(s)
    ensures var (s', r) := Finish(fate, s, k, result);
            && (forall i | i in s.net.running && i.matchId != k :: i in s'.net.running)
            && (r.Ok? ==> s'.net.running == set i | i in s.net.running && i.matchId != k)
  {
    hide Inv, Touches, Bound, Cleanup, FinishMatch, ToState, KnownResult, PlayersOf;
    FinishKeeps(fate, s, k, result);
    var (s', r) := Finish(fate, s, k, result);
    FinishEffectOf(fate, s, k, result);
    CleanedIsStopped(s', k);
    if k in s.core.matches && (result.None? || KnownResult(result.value)) {
      FinishMatchSides(s, k, result);
      var m := FinishMatch(s.core, k, result).matches[k];
      CleanupSpares(fate, s.net, m.side, PlayersOf(m), k);
    }
  }

  /** What the lemma above needs of the effect of a finish. */
  lemma FinishEffectOf(fate: Fate, s: Coord, k: nat, result: Option<Verdict>)
    requires Inv(s)
    ensures var (s', r) := Finish(fate, s, k, result);
            s'.net.running <= s.net.running && (r.Ok? ==> k in s'.cleaned)
  {
    FinishEffect(fate, s, k, result);
    hide Inv, Finish;
  }

  /** No world of a cleaned match runs. */
  lemma CleanedIsStopped(s: Coord, k: nat)
    ensures Inv(s) && k in s.cleaned ==> forall i | i in s.net.running :: i.matchId != k
  {
    hide QueueOk, RecordsOk, LogOk, BookOk, ToState, Instances;
  }

  lemma FinishMatchSides(s: Coord, k: nat, result: Option<Verdict>)
    requires Inv(s) && k in s.core.matches
    ensures var c := FinishMatch(s.core, k, result);
            k in c.matches && forall p | p in c.matches[k].side :: c.matches[k].side[p].instance.matchId == k
  {
    assert MatchOk(k, s.core.matches[k]);
    FinishMatchEffect(s.core, k, result);
    hide Inv;
  }

  lemma MarkCleaned(c: Core, net: Net, cleaned: set<nat>, k: nat)
    requires Sound(c, net, cleaned) && k in c.matches && c.matches[k].stage == Finished
    requires forall p | p in PlayersOf(c.matches[k]) && p in c.matches[k].side ::
               c.matches[k].side[p].instance !in net.running
    ensures Sound(c, net, cleaned + {k})
  {
    var m := c.matches[k];
    assert MatchOk(k, m);
    assert forall i | i in Instances(m) :: i !in net.running;
  }
}
