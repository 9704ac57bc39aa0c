/** The matchmaking core as values: what every operation of the queue core does to
    its state, written as functions. The class QueueCore.QueueCore is proved
    against these functions, and the theorems are about them. */
module QueueModel {
  import opened Naming

  type Identity = string

  datatype Reason =
    | BadRequest | UnsupportedTeamSize | BadTeamSize | AlreadyMatched | NotQueued
    | UnknownMatch | BadResult | MatchNotFinished | NoMatch
    | RefereeRematchFailed | ProvisionFailed | CleanupFailed

  datatype QueueError = QueueError(reason: Reason, status: int)

  datatype Result<+T> = Ok(value: T) | Err(error: QueueError)

  datatype Stage = Provisioning | Ready | Failed | Finished

  datatype Entry = Entry(id: Identity, mode: string, teamSize: int, seqNo: int, at: int)

  /** `winnerA`, `winnerB`, `draw`; any other text is a bad result. */
  datatype Verdict = WinnerA | WinnerB | Draw | Other(text: string)

  datatype Team = Team(index: nat, world: string, teamSize: int, players: seq<Identity>)

  /** One game world of one match: what `queue-<match>-<world>` names. */
  datatype Instance = Instance(matchId: nat, world: string)

  datatype Side = Side(instance: Instance, endpoint: Option<string>)

  datatype Match = Match(
    id: nat, mode: string, teamSize: int, createdAt: int, teams: seq<Team>,
    stage: Stage, result: Option<Verdict>, detail: Option<string>,
    side: map<Identity, Side>, rematchOf: Option<nat>)

  type TeamSize = n: nat | 1 <= n witness 1

  type TeamCount = n: nat | 2 <= n witness 2

  datatype Core = Core(
    teamSize: TeamSize, teamsPerMatch: TeamCount, allowTeams: bool,
    queue: seq<Entry>, byIdentity: map<Identity, Entry>,
    matches: map<nat, Match>, identityMatch: map<Identity, nat>,
    nextMatchId: nat, seqNo: int)

  // ---- Views -----------------------------------------------------------------

  function Participants(teams: seq<Team>): seq<Identity>
  {
    if teams == [] then [] else teams[0].players + Participants(teams[1..])
  }

  function PlayersOf(m: Match): seq<Identity>
  {
    Participants(m.teams)
  }

  predicate Active(m: Match)
  {
    m.stage == Provisioning || m.stage == Ready
  }

  function Ids(entries: seq<Entry>): (ids: seq<Identity>)
    ensures |ids| == |entries|
    ensures forall i | 0 <= i < |entries| :: ids[i] == entries[i].id
  {
    seq(|entries|, i requires 0 <= i < |entries| => entries[i].id)
  }

  function WorldName(index: nat): string
  {
    if index == 0 then "A" else if index == 1 then "B" else "W" + Decimal(index)
  }

  function LowerChar(c: char): char
  {
    if 'A' <= c <= 'Z' then c + 'a' - 'A' else c
  }

  function Lower(s: string): string
  {
    seq(|s|, i requires 0 <= i < |s| => LowerChar(s[i]))
  }

  /** `instance_id_for`: the name under which the provisioner knows an instance. */
  function InstanceName(i: Instance): string
  {
    "queue-" + Decimal(i.matchId) + "-" + Lower(i.world)
  }

  function Contains(m: Match, id: Identity): bool
  {
    id in PlayersOf(m)
  }

  // ---- Ascending order of match ids ------------------------------------------

  predicate IsLeast(s: set<nat>, x: nat)
  {
    x in s && forall y | y in s :: x <= y
  }

  lemma {:induction false} LeastExists(s: set<nat>)
    requires s != {}
    ensures exists x :: IsLeast(s, x)
  {
    var x :| x in s;
    var rest := s - {x};
    if rest == {} {
      assert s == {x};
      assert IsLeast(s, x);
    } else {
      LeastExists(rest);
      var l :| IsLeast(rest, l);
      assert forall y | y in s :: y == x || y in rest;
      assert IsLeast(s, if l <= x then l else x);
    }
  }

  /** `sorted(...)` on match ids. */
  function Ascending(s: set<nat>): (r: seq<nat>)
    ensures |r| == |s|
    decreases |s|
  {
    if s == {} then [] else var x := Least(s); [x] + Ascending(s - {x})
  }

  function Least(s: set<nat>): (x: nat)
    requires s != {}
    ensures x in s && forall y | y in s :: x <= y
  {
    LeastExists(s);
    var x :| IsLeast(s, x);
    x
  }

  lemma {:induction false} AscendingOrder(s: set<nat>)
    ensures forall x :: x in Ascending(s) <==> x in s
    ensures forall i, j | 0 <= i < j < |Ascending(s)| :: Ascending(s)[i] < Ascending(s)[j]
    decreases |s|
  {
    if s != {} {
      var x := Least(s);
      AscendingOrder(s - {x});
      var rest := Ascending(s - {x});
      assert Ascending(s) == [x] + rest;
      forall j | 0 <= j < |rest| ensures x < rest[j] {
        assert rest[j] in s - {x};
      }
    }
  }

  /** The youngest match among `ids` (ascending) that `id` takes part in. */
  function LatestAmong(matches: map<nat, Match>, ids: seq<nat>, id: Identity): Option<nat>
    requires forall k | k in ids :: k in matches
  {
    if ids == [] then None
    else
      var last := ids[|ids| - 1];
      if Contains(matches[last], id) then Some(last)
      else LatestAmong(matches, ids[..|ids| - 1], id)
  }

  function LatestMatchFor(c: Core, id: Identity): Option<nat>
  {
    AscendingOrder(c.matches.Keys);
    LatestAmong(c.matches, Ascending(c.matches.Keys), id)
  }

  // ---- Operations of the core -------------------------------------------------

  const EMPTY_MODE := "vs"

  function Enqueue(c: Core, id: Identity, mode: string, size: Option<int>, now: int)
    : (Core, Result<Entry>)
  {
    if id == "" then (c, Err(QueueError(BadRequest, 400)))
    else
      var wanted := if size.None? then c.teamSize else size.value;
      if wanted != 1 && !c.allowTeams then (c, Err(QueueError(UnsupportedTeamSize, 400)))
      else if wanted < 1 then (c, Err(QueueError(BadTeamSize, 400)))
      else if id in c.identityMatch then (c, Err(QueueError(AlreadyMatched, 409)))
      else if id in c.byIdentity then (c, Ok(c.byIdentity[id]))
      else
        var entry := Entry(id, if mode == "" then EMPTY_MODE else mode, wanted, c.seqNo, now);
        (c.(seqNo := c.seqNo + 1, queue := c.queue + [entry],
            byIdentity := c.byIdentity[id := entry]),
         Ok(entry))
  }

  /** `list.remove`: the queue without the first entry equal to `e`. */
  function RemoveFirst(q: seq<Entry>, e: Entry): seq<Entry>
  {
    if q == [] then [] else if q[0] == e then q[1..] else [q[0]] + RemoveFirst(q[1..], e)
  }

  function Leave(c: Core, id: Identity): (Core, Result<Entry>)
  {
    if id in c.identityMatch then (c, Err(QueueError(AlreadyMatched, 409)))
    else if id !in c.byIdentity then (c, Err(QueueError(NotQueued, 409)))
    else
      var entry := c.byIdentity[id];
      (c.(queue := RemoveFirst(c.queue, entry), byIdentity := c.byIdentity - {id}), Ok(entry))
  }

  function Needed(c: Core): (n: nat)
    ensures n >= c.teamSize && n >= c.teamsPerMatch
  {
    c.teamSize * c.teamsPerMatch
  }

  /** Players `index * size .. (index + 1) * size` of the entries taken. */
  function Chunk(ids: seq<Identity>, size: nat, index: nat): seq<Identity>
  {
    var lo, hi := index * size, (index + 1) * size;
    if lo <= hi <= |ids| then ids[lo..hi] else []
  }

  function TeamAt(ids: seq<Identity>, size: nat, index: nat): Team
  {
    Team(index, WorldName(index), size, Chunk(ids, size, index))
  }

  function TeamsFrom(ids: seq<Identity>, size: nat, count: nat): seq<Team>
  {
    seq(count, i requires 0 <= i < count => TeamAt(ids, size, i))
  }

  function Bind(index: map<Identity, nat>, players: seq<Identity>, k: nat): map<Identity, nat>
  {
    index + (map p | p in players :: k)
  }

  function Pair(c: Core, now: int): (Core, Option<nat>)
  {
    if |c.queue| < Needed(c) then (c, None)
    else
      var taken := c.queue[..Needed(c)];
      var k := c.nextMatchId;
      var m := Match(k, taken[0].mode, c.teamSize, now,
                     TeamsFrom(Ids(taken), c.teamSize, c.teamsPerMatch),
                     Provisioning, None, None, map[], None);
      (c.(queue := c.queue[Needed(c)..],
          byIdentity := c.byIdentity - (set e | e in taken :: e.id),
          identityMatch := Bind(c.identityMatch, Ids(taken), k),
          matches := c.matches[k := m], nextMatchId := k + 1),
       Some(k))
  }

  function CreateRematch(c: Core, source: Match, now: int): (Core, nat)
  {
    var k := c.nextMatchId;
    var m := Match(k, source.mode, source.teamSize, now, source.teams,
                   Provisioning, None, None, map[], Some(source.id));
    (c.(identityMatch := Bind(c.identityMatch, PlayersOf(m), k),
        matches := c.matches[k := m], nextMatchId := k + 1),
     k)
  }

  function Release(index: map<Identity, nat>, players: seq<Identity>, k: nat): map<Identity, nat>
  {
    map p | p in index && !(p in players && index[p] == k) :: index[p]
  }

  function SetSide(c: Core, k: nat, player: Identity, side: Side): Core
    requires k in c.matches
  {
    c.(matches := c.matches[k := c.matches[k].(side := c.matches[k].side[player := side])])
  }

  function MarkReady(c: Core, k: nat): Core
    requires k in c.matches
  {
    if c.matches[k].stage == Provisioning
    then c.(matches := c.matches[k := c.matches[k].(stage := Ready)])
    else c
  }

  function MarkFailed(c: Core, k: nat, detail: string): Core
    requires k in c.matches
  {
    var m := c.matches[k];
    c.(matches := c.matches[k := m.(stage := Failed,
                                    detail := if detail == "" then m.detail else Some(detail))],
       identityMatch := Release(c.identityMatch, PlayersOf(m), k))
  }

  predicate KnownResult(r: Verdict)
  {
    !r.Other?
  }

  /** The state part of `finish`, for a match that exists and a known result. */
  function FinishMatch(c: Core, k: nat, result: Option<Verdict>): Core
    requires k in c.matches
  {
    var m := c.matches[k];
    if m.stage == Finished then c
    else
      c.(matches := c.matches[k := m.(stage := Finished,
                                      result := if result.Some? then result else m.result)],
         identityMatch := Release(c.identityMatch, PlayersOf(m), k))
  }

  // ---- Persistence --------------------------------------------------------------

  /** What `to_state` writes: lists only, no index maps. */
  datatype Saved = Saved(teamSize: TeamSize, teamsPerMatch: TeamCount, allowTeams: bool,
                         nextMatchId: nat, seqNo: int, queue: seq<Entry>, matches: seq<Match>)

  function Snapshot(matches: map<nat, Match>): (r: seq<Match>)
    ensures |r| == |matches|
  {
    AscendingOrder(matches.Keys);
    Records(matches, Ascending(matches.Keys))
  }

  function Records(matches: map<nat, Match>, ids: seq<nat>): (r: seq<Match>)
    requires forall k | k in ids :: k in matches
    ensures |r| == |ids|
    ensures forall i | 0 <= i < |r| :: r[i] == matches[ids[i]]
  {
    seq(|ids|, i requires 0 <= i < |ids| => matches[ids[i]])
  }

  function ToState(c: Core): Saved
  {
    Saved(c.teamSize, c.teamsPerMatch, c.allowTeams, c.nextMatchId, c.seqNo, c.queue,
          Snapshot(c.matches))
  }

  function LoadQueue(queue: seq<Entry>, acc: map<Identity, Entry>): map<Identity, Entry>
    decreases |queue|
  {
    if queue == [] then acc else LoadQueue(queue[1..], acc[queue[0].id := queue[0]])
  }

  function LoadMatches(saved: seq<Match>, matches: map<nat, Match>, index: map<Identity, nat>)
    : (map<nat, Match>, map<Identity, nat>)
    decreases |saved|
  {
    if saved == [] then (matches, index)
    else
      var m := saved[0];
      LoadMatches(saved[1..], matches[m.id := m],
                  if Active(m) then Bind(index, PlayersOf(m), m.id) else index)
  }

  /** `load_state`: the dimensions of the core are its own, the rest is replaced. */
  function LoadState(c: Core, s: Saved): Core
  {
    var (matches, index) := LoadMatches(s.matches, map[], map[]);
    c.(queue := s.queue, byIdentity := LoadQueue(s.queue, map[]),
       matches := matches, identityMatch := index,
       nextMatchId := s.nextMatchId, seqNo := s.seqNo)
  }
}
