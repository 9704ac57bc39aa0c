/** The matchmaking core as the object it is: every method updates the fields in place
    and is proved to do what the function of the same name in QueueModel says. */
module QueueCore {
  import opened Naming
  import opened QueueModel
  import opened QueueInvariants
  import M = QueueModel

  lemma BindStep(index: map<Identity, nat>, players: seq<Identity>, i: nat, k: nat)
    requires i < |players|
    ensures Bind(index, players[..i], k)[players[i] := k] == Bind(index, players[..i + 1], k)
  {
    assert players[..i + 1] == players[..i] + [players[i]];
  }

  lemma BindNone(index: map<Identity, nat>, players: seq<Identity>, k: nat)
    ensures Bind(index, players[..0], k) == index
    ensures Bind(index, players[..|players|], k) == Bind(index, players, k)
  {
    assert players[..|players|] == players;
  }

  lemma TeamsStep(taken: seq<Entry>, size: TeamSize, count: nat, n: nat)
    requires n < count && count * size <= |taken|
    ensures n * size <= (n + 1) * size <= |taken|
    ensures TeamsFrom(Ids(taken), size, n)
              + [Team(n, WorldName(n), size, Ids(taken[n * size..(n + 1) * size]))]
         == TeamsFrom(Ids(taken), size, n + 1)
  {
    assert (n + 1) * size == n * size + size;
    assert (n + 1) * size <= count * size;
    assert Ids(taken[n * size..(n + 1) * size]) == Chunk(Ids(taken), size, n);
  }

  /** Taking the head of the queue for match `k`, as the `i`-th of `taken`. */
  lemma TakeStep(q: seq<Entry>, index: map<Identity, Entry>, bound: map<Identity, nat>,
                 taken: seq<Entry>, i: nat, k: nat)
    requires i < |taken| && taken <= q
    ensures q[i..] != [] && q[i..][0] == taken[i] && q[i..][1..] == q[i + 1..]
    ensures (index - set e | e in taken[..i] :: e.id) - {taken[i].id}
         == index - (set e | e in taken[..i + 1] :: e.id)
    ensures Bind(bound, Ids(taken[..i]), k)[taken[i].id := k] == Bind(bound, Ids(taken[..i + 1]), k)
  {
    assert taken[..i + 1] == taken[..i] + [taken[i]];
    assert (set e | e in taken[..i + 1] :: e.id) == (set e | e in taken[..i] :: e.id) + {taken[i].id};
    var ids := Ids(taken);
    assert Ids(taken[..i]) == ids[..i] && Ids(taken[..i + 1]) == ids[..i + 1];
    BindStep(bound, ids, i, k);
  }

  lemma NoneYet(matches: map<nat, Match>, id: Identity)
    ensures LatestAmong(matches, [], id) == None
  {
  }

  lemma OneLater(matches: map<nat, Match>, ids: seq<nat>, i: nat, id: Identity)
    requires i < |ids| && forall k | k in ids :: k in matches
    ensures LatestAmong(matches, ids[..i + 1], id)
         == if Contains(matches[ids[i]], id) then Some(ids[i]) else LatestAmong(matches, ids[..i], id)
  {
    assert ids[..i + 1][..i] == ids[..i] && ids[..i + 1][i] == ids[i];
  }

  class QueueCore {
    const teamSize: TeamSize
    const teamsPerMatch: TeamCount
    const allowTeams: bool
    var queue: seq<Entry>
    var byIdentity: map<Identity, Entry>
    var matches: map<nat, Match>
    var identityMatch: map<Identity, nat>
    var nextMatchId: nat
    var seqNo: int

    function State(): Core
      reads this
    {
      Core(teamSize, teamsPerMatch, allowTeams, queue, byIdentity, matches, identityMatch,
           nextMatchId, seqNo)
    }

    constructor (teamSize: TeamSize, teamsPerMatch: TeamCount, allowTeams: bool)
      ensures State() == Core(teamSize, teamsPerMatch, allowTeams, [], map[], map[], map[], 1, 0)
    {
      this.teamSize, this.teamsPerMatch, this.allowTeams := teamSize, teamsPerMatch, allowTeams;
      queue, byIdentity, matches, identityMatch := [], map[], map[], map[];
      nextMatchId, seqNo := 1, 0;
    }

    method Enqueue(id: Identity, mode: string, size: Option<int>, now: int)
      returns (r: Result<Entry>)
      modifies this
      ensures (State(), r) == M.Enqueue(old(State()), id, mode, size, now)
    {
      if id == "" {
        return Err(QueueError(BadRequest, 400));
      }
      var wanted := if size.None? then teamSize else size.value;
      if wanted != 1 && !allowTeams {
        return Err(QueueError(UnsupportedTeamSize, 400));
      }
      if wanted < 1 {
        return Err(QueueError(BadTeamSize, 400));
      }
      if id in identityMatch {
        return Err(QueueError(AlreadyMatched, 409));
      }
      if id in byIdentity {
        return Ok(byIdentity[id]);
      }
      var entry := Entry(id, if mode == "" then EMPTY_MODE else mode, wanted, seqNo, now);
      seqNo := seqNo + 1;
      queue := queue + [entry];
      byIdentity := byIdentity[id := entry];
      return Ok(entry);
    }

    method Leave(id: Identity) returns (r: Result<Entry>)
      modifies this
      ensures (State(), r) == M.Leave(old(State()), id)
    {
      if id in identityMatch {
        return Err(QueueError(AlreadyMatched, 409));
      }
      if id !in byIdentity {
        return Err(QueueError(NotQueued, 409));
      }
      var entry := byIdentity[id];
      queue := RemoveFirst(queue, entry);
      byIdentity := byIdentity - {id};
      return Ok(entry);
    }

    method BuildTeams(taken: seq<Entry>) returns (teams: seq<Team>)
      requires |taken| == Needed(State())
      ensures teams == TeamsFrom(Ids(taken), teamSize, teamsPerMatch)
    {
      teams := [];
      for index := 0 to teamsPerMatch
        invariant teams == TeamsFrom(Ids(taken), teamSize, index)
      {
        TeamsStep(taken, teamSize, teamsPerMatch, index);
        hide TeamsFrom, Ids, WorldName;
        var chunk := taken[index * teamSize..(index + 1) * teamSize];
        teams := teams + [Team(index, WorldName(index), teamSize, Ids(chunk))];
      }
    }

    method Pair(now: int) returns (r: Option<nat>)
      requires QueueOk(State())
      modifies this
      ensures (State(), r) == M.Pair(old(State()), now)
    {
      var needed := Needed(State());
      if |queue| < needed {
        return None;
      }
      var taken := queue[..needed];
      var teams := BuildTeams(taken);
      var k := nextMatchId;
      nextMatchId := nextMatchId + 1;
      TakeAll(taken, k);
      matches := matches[k := Match(k, taken[0].mode, teamSize, now, teams, Provisioning,
                                    None, None, map[], None)];
      return Some(k);
    }

    /** `for entry in taken`: out of the queue, out of the index, into the match. */
    method TakeAll(taken: seq<Entry>, k: nat)
      requires taken <= queue
      modifies this`queue, this`byIdentity, this`identityMatch
      ensures queue == old(queue)[|taken|..]
      ensures byIdentity == old(byIdentity) - (set e | e in taken :: e.id)
      ensures identityMatch == Bind(old(identityMatch), Ids(taken), k)
    {
      BindNone(identityMatch, [], k);
      assert Ids(taken[..0]) == [];
      for i := 0 to |taken|
        invariant queue == old(queue)[i..]
        invariant byIdentity == old(byIdentity) - (set e | e in taken[..i] :: e.id)
        invariant identityMatch == Bind(old(identityMatch), Ids(taken[..i]), k)
      {
        TakeStep(old(queue), old(byIdentity), old(identityMatch), taken, i, k);
        hide Bind, Ids;
        queue := RemoveFirst(queue, taken[i]);
        byIdentity := byIdentity - {taken[i].id};
        identityMatch := identityMatch[taken[i].id := k];
      }
      assert taken[..|taken|] == taken;
    }

    method CreateRematch(source: Match, now: int) returns (k: nat)
      modifies this
      ensures (State(), k) == M.CreateRematch(old(State()), source, now)
    {
      k := nextMatchId;
      nextMatchId := nextMatchId + 1;
      var m := Match(k, source.mode, source.teamSize, now, source.teams, Provisioning,
                     None, None, map[], Some(source.id));
      BindAll(PlayersOf(m), k);
      matches := matches[k := m];
    }

    method SetAssignment(k: nat, player: Identity, side: Side)
      requires k in matches && player in PlayersOf(matches[k])
      modifies this
      ensures State() == SetSide(old(State()), k, player, side)
    {
      matches := matches[k := matches[k].(side := matches[k].side[player := side])];
    }

    method MarkReady(k: nat)
      requires k in matches
      modifies this
      ensures State() == M.MarkReady(old(State()), k)
    {
      if matches[k].stage == Provisioning {
        matches := matches[k := matches[k].(stage := Ready)];
      }
    }

    method ReleaseIdentities(k: nat)
      requires k in matches
      modifies this`identityMatch
      ensures identityMatch == Release(old(identityMatch), PlayersOf(matches[k]), k)
    {
      var players := PlayersOf(matches[k]);
      for i := 0 to |players|
        invariant identityMatch == Release(old(identityMatch), players[..i], k)
      {
        assert players[..i + 1] == players[..i] + [players[i]];
        if players[i] in identityMatch && identityMatch[players[i]] == k {
          identityMatch := identityMatch - {players[i]};
        }
      }
      assert players[..|players|] == players;
    }

    method MarkFailed(k: nat, detail: string)
      requires k in matches
      modifies this
      ensures State() == M.MarkFailed(old(State()), k, detail)
    {
      var m := matches[k];
      matches := matches[k := m.(stage := Failed,
                                 detail := if detail == "" then m.detail else Some(detail))];
      assert PlayersOf(matches[k]) == PlayersOf(m);
      ReleaseIdentities(k);
    }

    method Finish(k: nat, result: Option<Verdict>)
      requires k in matches && (result.Some? ==> KnownResult(result.value))
      modifies this
      ensures State() == FinishMatch(old(State()), k, result)
    {
      var m := matches[k];
      if m.stage == Finished {
        return;
      }
      matches := matches[k := m.(stage := Finished,
                                 result := if result.Some? then result else m.result)];
      assert PlayersOf(matches[k]) == PlayersOf(m);
      ReleaseIdentities(k);
    }

    /** The youngest match `id` takes part in, by a pass over all records. */
    method FindLatest(id: Identity) returns (found: Option<nat>)
      ensures found == LatestMatchFor(State(), id)
    {
      AscendingOrder(matches.Keys);
      hide Contains, LatestAmong, Ascending;
      assert LatestMatchFor(State(), id) == LatestAmong(matches, Ascending(matches.Keys), id);
      NoneYet(matches, id);
      var ids: seq<nat> := Ascending(matches.Keys);
      found := None;
      for i := 0 to |ids|
        invariant forall k | k in ids :: k in matches
        invariant found == LatestAmong(matches, ids[..i], id)
      {
        assert ids[i] in ids;
        OneLater(matches, ids, i, id);
        if Contains(matches[ids[i]], id) {
          found := Some(ids[i]);
        }
      }
      assert ids[..|ids|] == ids;
    }

    method Load(saved: Saved)
      modifies this
      ensures State() == LoadState(old(State()), saved)
    {
      queue, byIdentity := [], map[];
      for i := 0 to |saved.queue|
        invariant queue == saved.queue[..i]
        invariant LoadQueue(saved.queue[i..], byIdentity) == LoadQueue(saved.queue, map[])
        invariant State() == old(State()).(queue := queue, byIdentity := byIdentity)
      {
        queue := queue + [saved.queue[i]];
        byIdentity := byIdentity[saved.queue[i].id := saved.queue[i]];
      }
      matches, identityMatch := map[], map[];
      assert saved.matches[0..] == saved.matches;
      for i := 0 to |saved.matches|
        invariant LoadMatches(saved.matches[i..], matches, identityMatch)
               == LoadMatches(saved.matches, map[], map[])
        invariant State() == old(State()).(queue := saved.queue,
                                           byIdentity := LoadQueue(saved.queue, map[]),
                                           matches := matches, identityMatch := identityMatch)
      {
        var m := saved.matches[i];
        assert saved.matches[i..][1..] == saved.matches[i + 1..];
        matches := matches[m.id := m];
        if Active(m) {
          BindAll(PlayersOf(m), m.id);
        }
      }
      nextMatchId, seqNo := saved.nextMatchId, saved.seqNo;
    }

    method BindAll(players: seq<Identity>, k: nat)
      modifies this`identityMatch
      ensures identityMatch == Bind(old(identityMatch), players, k)
    {
      BindNone(identityMatch, players, k);
      for i := 0 to |players|
        invariant identityMatch == Bind(old(identityMatch), players[..i], k)
      {
        BindStep(old(identityMatch), players, i, k);
        hide Bind;
        identityMatch := identityMatch[players[i] := k];
      }
    }
  }
}
