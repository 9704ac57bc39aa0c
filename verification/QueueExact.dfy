/** Where the queue's rules give way, exactly: the guard of a rematch is the weakest one, and
    a run of ordinary requests leads to a state that a restart changes. */
module QueueExact {
  import opened Naming
  import opened QueueModel
  import opened QueueFlowModel
  import opened QueueInvariants
  import opened QueueRuns
  import opened QueueTheorems

  // ---- Neighbours that grant everything ---------------------------------------------------

  const GRANTED: Fate := n => Done(None)

  lemma {:induction false} StartsGranted(a: Attempt, k: nat, teams: seq<Team>)
    requires k in a.core.matches && a.failure.None?
    ensures StartTeams(GRANTED, a, k, teams).failure.None?
    decreases |teams|
  {
    hide SetSides;
    if teams != [] {
      var i := Instance(k, teams[0].world);
      var core := SetSides(a.core, k, teams[0].players, Side(i, None));
      StartsGranted(Attempt(core, StartCall(GRANTED, a.net, i), a.started + [i], None), k, teams[1..]);
    }
  }

  lemma {:induction false} PlayersGranted(n: Net, k: nat, world: string, players: seq<Identity>)
    ensures LobbyPlayers(GRANTED, n, k, world, players).1.None?
    decreases |players|
  {
    if players != [] {
      PlayersGranted(Record(n, LobbyAsked(players[0], world, k)), k, world, players[1..]);
    }
  }

  lemma {:induction false} LobbyGranted(n: Net, k: nat, teams: seq<Team>)
    ensures LobbyTeams(GRANTED, n, k, teams).1.None?
    decreases |teams|
  {
    if teams != [] {
      PlayersGranted(n, k, teams[0].world, teams[0].players);
      LobbyGranted(LobbyPlayers(GRANTED, n, k, teams[0].world, teams[0].players).0, k, teams[1..]);
    }
  }

  lemma {:induction false} ReadyGranted(n: Net, teams: seq<Team>)
    ensures ReadyTeams(GRANTED, n, teams).1.None?
    decreases |teams|
  {
    if teams != [] {
      ReadyGranted(Record(n, ReadyAsked(teams[0].world)), teams[1..]);
    }
  }

  lemma {:induction false} StopsGranted(n: Net, side: map<Identity, Side>, players: seq<Identity>)
    ensures Cleanup(GRANTED, n, side, players).1.None?
    decreases |players|
  {
    if players != [] {
      StopsGranted(n, side, players[1..]);
      if players[0] in side {
        StopsGranted(StopCall(GRANTED, n, side[players[0]].instance), side, players[1..]);
      }
    }
  }

  lemma TryGranted(c: Core, n: Net, k: nat)
    requires k in c.matches
    ensures TryProvision(GRANTED, c, n, k).failure.None?
  {
    hide StartTeams, LobbyTeams, ReadyTeams;
    var teams := c.matches[k].teams;
    StartsGranted(Attempt(c, n, [], None), k, teams);
    var a := StartTeams(GRANTED, Attempt(c, n, [], None), k, teams);
    LobbyGranted(a.net, k, teams);
    ReadyGranted(LobbyTeams(GRANTED, a.net, k, teams).0, teams);
  }

  lemma ReadyIndex(c: Core, k: nat)
    requires k in c.matches
    ensures MarkReady(c, k).identityMatch == c.identityMatch
  {
  }

  /** A provisioning that nobody refuses makes the match ready and changes nothing else but
      its sides. */
  lemma ProvisionGranted(s: Coord, k: nat)
    requires Sound(s.core, s.net, s.cleaned) && BookOk(s.core, s.rematchOf)
    requires k in s.core.matches && k !in s.cleaned && SettledBut(s.core, k)
    requires s.core.matches[k].side == map[] && s.core.matches[k].stage == Provisioning
    ensures var (s', failed) := Provision(GRANTED, s, k);
            && failed.None? && Touches(s.core, s'.core, k) && s'.core.matches[k].stage == Ready
            && s'.core.identityMatch == s.core.identityMatch && s'.rematchOf == s.rematchOf
  {
    hide Sound, BookOk, SettledBut, OnlySides, TryProvision, ToState, MarkReady, MarkFailed;
    ProvisionKeeps(GRANTED, s, k);
    TryGranted(s.core, s.net, k);
    TryProvisionKeeps(GRANTED, s.core, s.net, k, s.cleaned);
    OnlySidesTouches(s.core, TryProvision(GRANTED, s.core, s.net, k).core, k);
    ReadyIndex(TryProvision(GRANTED, s.core, s.net, k).core, k);
  }

  lemma FinishGranted(s: Coord, k: nat)
    requires k in s.core.matches
    ensures Finish(GRANTED, s, k, None).1.Ok?
  {
    var m := FinishMatch(s.core, k, None).matches[k];
    StopsGranted(s.net, m.side, PlayersOf(m));
    hide Cleanup, FinishMatch, PlayersOf;
  }

  // ---- The guard of a rematch ---------------------------------------------------------------

  /** Finishing a finished match again leaves the core as it is. */
  lemma FinishStays(s: Coord, k: nat)
    requires Inv(s) && k in s.core.matches && s.core.matches[k].stage == Finished
    ensures var (s', r) := Finish(GRANTED, s, k, None);
            Inv(s') && s'.core == s.core && s'.rematchOf == s.rematchOf && k in s'.cleaned
  {
    FinishKeeps(GRANTED, s, k, None);
    FinishEffect(GRANTED, s, k, None);
    FinishGranted(s, k);
    hide Inv, Finish;
  }

  /** A rematch that nobody refuses: the source's players are bound to the new match. */
  lemma RematchGranted(s: Coord, k: nat, source: Source, now: int)
    requires Inv(s) && ResolveSource(s.core, source) == Ok(k) && k in s.core.matches
    requires s.core.matches[k].stage == Finished && k !in s.rematchOf
    ensures var (s', r) := Rematch(GRANTED, s, source, now);
            var k' := s.core.nextMatchId;
            && Inv(s') && k' !in s.core.matches && k' in s'.core.matches
            && s'.core.matches.Keys == s.core.matches.Keys + {k'}
            && (forall j | j in s.core.matches :: s'.core.matches[j] == s.core.matches[j])
            && s'.core.matches[k'].stage == Ready
            && PlayersOf(s'.core.matches[k']) == PlayersOf(s.core.matches[k])
            && s'.core.byIdentity == s.core.byIdentity
            && s'.core.identityMatch == Bind(s.core.identityMatch, PlayersOf(s.core.matches[k]), k')
            && s'.core.nextMatchId == k' + 1
  {
    hide Inv, Finish, StartRematch, PlayersOf, Bind, Bound, Free, Touches, ResolveSource, Kept;
    RematchKeeps(GRANTED, s, source, now);
    FinishStays(s, k);
    FinishGranted(s, k);
    var s1 := Finish(GRANTED, s, k, None).0;
    StartGrantedRematch(s1, k, now);
  }

  lemma StartGrantedRematch(s: Coord, k: nat, now: int)
    requires Inv(s) && k in s.core.matches && k in s.cleaned && k !in s.rematchOf
    ensures var s' := StartRematch(GRANTED, s, k, now).0;
            var k' := s.core.nextMatchId;
            && k' !in s.core.matches && k' in s'.core.matches
            && s'.core.matches.Keys == s.core.matches.Keys + {k'}
            && (forall j | j in s.core.matches :: s'.core.matches[j] == s.core.matches[j])
            && s'.core.matches[k'].stage == Ready
            && PlayersOf(s'.core.matches[k']) == PlayersOf(s.core.matches[k])
            && s'.core.byIdentity == s.core.byIdentity
            && s'.core.identityMatch == Bind(s.core.identityMatch, PlayersOf(s.core.matches[k]), k')
            && s'.core.nextMatchId == k' + 1
  {
    hide QueueOk, RecordsOk, Fleet, LogOk, BookOk, Bound, ToState, SettledBut, Ordered, Provision,
         MarkFailed, Bind;
    RematchRecord(s, k, now);
    var (c, k') := CreateRematch(s.core, s.core.matches[k], now);
    RecordKeeps(c, s.net, s.cleaned, RematchAsked);
    ProvisionGranted(Asked(GRANTED, s, k, now), k');
  }

  /** Two active matches of one player, or a player who waits and plays: not bound. */
  lemma TwiceIsUnbound(c: Core, k: nat, p: Identity)
    requires PlaysIn(c, k, p)
    requires p in c.byIdentity || exists j :: j != k && PlaysIn(c, j, p)
    ensures !Bound(c)
  {
  }

  /** The guard is the weakest that keeps the rule: whatever the neighbours answer, each
      identity stays in at most one slot or one active match, if and only if the request makes
      no new match or finds its players free. */
  lemma RematchGuardExact(s: Coord, source: Source, now: int)
    requires Inv(s) && Bound(s.core)
    ensures (forall fate: Fate :: Bound(Rematch(fate, s, source, now).0.core))
            <==> RematchAllowed(s, source)
  {
    if RematchAllowed(s, source) {
      forall fate: Fate ensures Bound(Rematch(fate, s, source, now).0.core) {
        RematchKeeps(fate, s, source, now);
      }
    } else {
      var k := ResolveSource(s.core, source).value;
      RematchGranted(s, k, source, now);
      var s' := Rematch(GRANTED, s, source, now).0;
      var k' := s.core.nextMatchId;
      var players := PlayersOf(s.core.matches[k]);
      var p :| p in players && (p in s.core.byIdentity || p in s.core.identityMatch);
      assert PlaysIn(s'.core, k', p);
      if p in s.core.identityMatch {
        var j := s.core.identityMatch[p];
        assert j != k' && PlaysIn(s'.core, j, p);
      }
      TwiceIsUnbound(s'.core, k', p);
    }
  }

  // ---- A restart that shows ---------------------------------------------------------------

  /** Somebody plays in an active match that the index does not know of. */
  lemma MissingIsNotNewest(c: Core, k: nat, p: Identity)
    requires PlaysIn(c, k, p) && p !in c.identityMatch
    ensures !Newest(c)
  {
  }

  /** A player of a finished match plays elsewhere; the old match is played again and
      finished: now the index has lost the player, and a restart brings it back. */
  lemma RematchThenFinishForgets(s: Coord, k: nat, j: nat, p: Identity, now: int)
    requires Inv(s) && k in s.core.matches && s.core.matches[k].stage == Finished
    requires k !in s.rematchOf && p in PlayersOf(s.core.matches[k]) && PlaysIn(s.core, j, p)
    ensures var s1 := Rematch(GRANTED, s, ByMatch(k), now).0;
            var s2 := Finish(GRANTED, s1, s.core.nextMatchId, None).0;
            Inv(s2) && !Newest(s2.core) && Restart(s2) != s2
  {
    RematchGranted(s, k, ByMatch(k), now);
    var k' := s.core.nextMatchId;
    var s1 := Rematch(GRANTED, s, ByMatch(k), now).0;
    FinishKeeps(GRANTED, s1, k', None);
    FinishEffect(GRANTED, s1, k', None);
    FinishReleases(s1, k', p);
    var s2 := Finish(GRANTED, s1, k', None).0;
    FinishLeavesPlaying(s1.core, s2.core, k', j, p);
    MissingIsNotNewest(s2.core, j, p);
    RestartUnobservableIff(s2);
    hide Inv, Newest, Finish, Rematch, Restart;
  }

  lemma FinishLeavesPlaying(c: Core, c': Core, k: nat, j: nat, p: Identity)
    requires Touches(c, c', k) && j != k && PlaysIn(c, j, p)
    ensures PlaysIn(c', j, p)
  {
  }

  lemma FinishReleases(s: Coord, k: nat, p: Identity)
    requires k in s.core.matches && s.core.matches[k].stage != Finished
    requires p in PlayersOf(s.core.matches[k]) && p in s.core.identityMatch && s.core.identityMatch[p] == k
    ensures p !in Finish(GRANTED, s, k, None).0.core.identityMatch
  {
    hide Cleanup, ToState;
  }

  /** Two players who are free and nobody before them: joining one after the other makes a
      match of the two. */
  lemma PairUp(s: Coord, p: Identity, q: Identity, now: int)
    requires Inv(s) && Bound(s.core) && s.core.queue == [] && s.core.teamSize == 1
    requires s.core.teamsPerMatch == 2 && p != "" && q != "" && p != q
    requires p !in s.core.identityMatch && q !in s.core.identityMatch
    ensures var s1 := Join(GRANTED, s, p, "vs", None, now).0;
            var s2 := Join(GRANTED, s1, q, "vs", None, now).0;
            var k := s.core.nextMatchId;
            && Inv(s2) && Bound(s2.core) && s2.core.queue == [] && s2.core.nextMatchId == k + 1
            && s2.core.teamSize == 1 && s2.core.teamsPerMatch == 2
            && k !in s.core.matches && s2.core.matches.Keys == s.core.matches.Keys + {k}
            && (forall j | j in s.core.matches :: s2.core.matches[j] == s.core.matches[j])
            && s2.core.matches[k].stage == Ready && PlayersOf(s2.core.matches[k]) == [p, q]
            && s2.rematchOf == s.rematchOf
  {
    var e1 := Entry(p, "vs", 1, s.core.seqNo, now);
    var s1 := Join(GRANTED, s, p, "vs", None, now).0;
    JoinKeeps(GRANTED, s, p, "vs", None, now);
    EmptyLine(s.core);
    assert s1 == Persist(s.(core := Enqueue(s.core, p, "vs", None, now).0)) by { hide ToState; }
    assert s1.core.queue == [e1] && s1.core.identityMatch == s.core.identityMatch;
    JoinKeeps(GRANTED, s1, q, "vs", None, now);
    SecondJoins(s1, e1, q, now);
    hide Inv, Bound, Join, ToState;
  }

  lemma EmptyLine(c: Core)
    requires QueueOk(c) && c.queue == []
    ensures c.byIdentity == map[]
  {
  }

  lemma SecondJoins(s: Coord, e: Entry, q: Identity, now: int)
    requires Inv(s) && Bound(s.core) && s.core.queue == [e] && s.core.teamSize == 1
    requires s.core.teamsPerMatch == 2 && q != "" && e.id != q && q !in s.core.identityMatch
    ensures var s' := Join(GRANTED, s, q, "vs", None, now).0;
            var k := s.core.nextMatchId;
            && s'.core.queue == [] && s'.core.nextMatchId == k + 1
            && s'.core.teamSize == 1 && s'.core.teamsPerMatch == 2
            && k !in s.core.matches && s'.core.matches.Keys == s.core.matches.Keys + {k}
            && (forall j | j in s.core.matches :: s'.core.matches[j] == s.core.matches[j])
            && s'.core.matches[k].stage == Ready && PlayersOf(s'.core.matches[k]) == [e.id, q]
            && s'.rematchOf == s.rematchOf
  {
    hide RecordsOk, Fleet, LogOk, BookOk, Bound, ToState, Provision, SettledBut;
    OnlyOneWaits(s.core, e, q);
    var c1 := Enqueue(s.core, q, "vs", None, now).0;
    EnqueueKeeps(s.core, q, "vs", None, now);
    SameMatches(s.core, c1, s.net, s.cleaned, s.rematchOf);
    var s1 := Persist(s.(core := c1));
    PairReady(s1, now);
    PairKeeps(c1, now);
    var c2 := Pair(c1, now).0;
    ProvisionGranted(s1.(core := c2), s.core.nextMatchId);
    assert Ids(c1.queue) == [e.id, q];
  }

  lemma OnlyOneWaits(c: Core, e: Entry, q: Identity)
    requires QueueOk(c) && c.queue == [e] && e.id != q
    ensures q !in c.byIdentity
  {
  }

  const P: Identity := "p"
  const Q: Identity := "q"

  /** Two players meet, finish, and meet again; the first match is then played once more
      and finished while the second still runs. */
  const FORGETFUL: seq<Op> :=
    [OpJoin(P, "vs", None, 0), OpJoin(Q, "vs", None, 0), OpFinish(1, None),
     OpJoin(P, "vs", None, 0), OpJoin(Q, "vs", None, 0), OpRematch(ByMatch(1), 0), OpFinish(3, None)]

  lemma RunStep(s: Coord, op: Op, rest: seq<Op>)
    ensures Run(GRANTED, s, [op] + rest) == Run(GRANTED, Apply(GRANTED, s, op), rest)
  {
    assert ([op] + rest)[1..] == rest;
  }

  lemma RunNothing(s: Coord)
    ensures Run(GRANTED, s, []) == s
  {
  }

  lemma RunSeven(s: Coord, a: Op, b: Op, c: Op, d: Op, e: Op, f: Op, g: Op)
    ensures var s1 := Apply(GRANTED, s, a);
            var s2 := Apply(GRANTED, s1, b);
            var s3 := Apply(GRANTED, s2, c);
            var s4 := Apply(GRANTED, s3, d);
            var s5 := Apply(GRANTED, s4, e);
            Run(GRANTED, s, [a, b, c, d, e, f, g]) == Apply(GRANTED, Apply(GRANTED, s5, f), g)
  {
    hide Apply, Run;
    assert [a, b, c, d, e, f, g] == [a] + ([b] + ([c] + ([d] + ([e] + ([f] + ([g] + []))))));
    var s1 := Apply(GRANTED, s, a);
    var s2 := Apply(GRANTED, s1, b);
    var s3 := Apply(GRANTED, s2, c);
    var s4 := Apply(GRANTED, s3, d);
    var s5 := Apply(GRANTED, s4, e);
    var s6 := Apply(GRANTED, s5, f);
    RunStep(s6, g, []);
    RunNothing(Apply(GRANTED, s6, g));
    RunStep(s5, f, [g] + []);
    RunStep(s4, e, [f] + ([g] + []));
    RunStep(s3, d, [e] + ([f] + ([g] + [])));
    RunStep(s2, c, [d] + ([e] + ([f] + ([g] + []))));
    RunStep(s1, b, [c] + ([d] + ([e] + ([f] + ([g] + [])))));
    RunStep(s, a, [b] + ([c] + ([d] + ([e] + ([f] + ([g] + []))))));
  }

  /** After the first match: it is finished and its players are free. */
  lemma FirstMatchOver(s: Coord)
    requires Inv(s) && Bound(s.core) && s.core.matches.Keys == {1}
    requires s.core.matches[1].stage == Ready && PlayersOf(s.core.matches[1]) == [P, Q]
    ensures var s' := Finish(GRANTED, s, 1, None).0;
            && Inv(s') && Bound(s'.core) && s'.core.matches.Keys == {1}
            && s'.core.matches[1].stage == Finished && PlayersOf(s'.core.matches[1]) == [P, Q]
            && s'.core.queue == s.core.queue && s'.core.nextMatchId == s.core.nextMatchId
            && s'.core.teamSize == s.core.teamSize && s'.core.teamsPerMatch == s.core.teamsPerMatch
            && s'.rematchOf == s.rematchOf
            && P !in s'.core.identityMatch && Q !in s'.core.identityMatch
  {
    FinishKeeps(GRANTED, s, 1, None);
    FinishEffect(GRANTED, s, 1, None);
    FinishGranted(s, 1);
    hide Inv, Finish;
  }

  /** A run from the first start whose last state a restart changes. */
  lemma RestartCanShow()
    ensures var s := Run(GRANTED, Boot(1, 2, false), FORGETFUL);
            Inv(s) && !Newest(s.core) && Restart(s) != s
  {
    hide Inv, Bound, Newest, Join, Finish, Rematch, Restart, PlayersOf;
    var s0 := Boot(1, 2, false);
    BootOk(1, 2, false);
    assert P[0] != Q[0];
    PairUp(s0, P, Q, 0);
    var s1 := Join(GRANTED, s0, P, "vs", None, 0).0;
    var s2 := Join(GRANTED, s1, Q, "vs", None, 0).0;
    assert s2.core.matches.Keys == {1};
    FirstMatchOver(s2);
    var s3 := Finish(GRANTED, s2, 1, None).0;
    PairUp(s3, P, Q, 0);
    var s4 := Join(GRANTED, s3, P, "vs", None, 0).0;
    var s5 := Join(GRANTED, s4, Q, "vs", None, 0).0;
    assert PlaysIn(s5.core, 2, P);
    RematchThenFinishForgets(s5, 1, 2, P, 0);
    RunSeven(s0, OpJoin(P, "vs", None, 0), OpJoin(Q, "vs", None, 0), OpFinish(1, None),
             OpJoin(P, "vs", None, 0), OpJoin(Q, "vs", None, 0), OpRematch(ByMatch(1), 0),
             OpFinish(3, None));
  }
}
