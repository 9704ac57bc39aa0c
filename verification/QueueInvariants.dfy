/** What holds of the queue between any two operations, and that each building
    block of an operation keeps it. */
module QueueInvariants {
  import opened Naming
  import opened QueueModel
  import opened QueueFlowModel

  ghost predicate Distinct<T(!new)>(s: seq<T>)
  {
    forall i, j | 0 <= i < j < |s| :: s[i] != s[j]
  }

  // ---- The queue itself ----------------------------------------------------------

  ghost predicate Ordered(q: seq<Entry>)
  {
    forall i, j | 0 <= i < j < |q| :: q[i].seqNo < q[j].seqNo && q[i].id != q[j].id
  }

  ghost predicate Before(q: seq<Entry>, n: int)
  {
    forall i | 0 <= i < |q| :: q[i].seqNo < n
  }

  ghost predicate Listed(q: seq<Entry>, index: map<Identity, Entry>)
  {
    forall i | 0 <= i < |q| :: q[i].id in index && index[q[i].id] == q[i]
  }

  ghost predicate Queued(q: seq<Entry>, index: map<Identity, Entry>)
  {
    forall id | id in index :: index[id].id == id && index[id] in q
  }

  /** FIFO order is the order of `seqNo`; no identity waits twice; the index mirrors
      the queue exactly. */
  ghost predicate QueueOk(c: Core)
  {
    Ordered(c.queue) && Before(c.queue, c.seqNo)
    && Listed(c.queue, c.byIdentity) && Queued(c.queue, c.byIdentity)
  }

  // ---- Match records -------------------------------------------------------------

  ghost predicate TeamsOk(teams: seq<Team>)
  {
    && Distinct(Participants(teams))
    && forall t | t in teams :: t.players != []
  }

  ghost predicate MatchOk(k: nat, m: Match)
  {
    && m.id == k
    && TeamsOk(m.teams)
    && forall p | p in m.side :: p in PlayersOf(m) && m.side[p].instance.matchId == k
  }

  ghost predicate RecordsOk(c: Core)
  {
    forall k | k in c.matches :: MatchOk(k, c.matches[k]) && k < c.nextMatchId
  }

  /** The identity index is exactly the active matches, and nobody who is bound waits:
      each identity is in at most one slot or one active match. */
  ghost predicate Bound(c: Core)
  {
    && (forall p | p in c.identityMatch ::
          var k := c.identityMatch[p];
          k in c.matches && Active(c.matches[k]) && p in PlayersOf(c.matches[k]))
    && (forall k, p | k in c.matches && Active(c.matches[k]) && p in PlayersOf(c.matches[k]) ::
          p in c.identityMatch && c.identityMatch[p] == k)
    && (forall p | p in c.identityMatch :: p !in c.byIdentity)
  }

  // ---- Running worlds ---------------------------------------------------------------

  function Instances(m: Match): set<Instance>
  {
    set p | p in m.side :: m.side[p].instance
  }

  /** No orphan worlds: whatever runs is recorded in a match that still owes its
      cleanup. Only finished matches are ever cleaned, and a rematch exists only of a
      cleaned match. */
  ghost predicate Fleet(c: Core, net: Net, cleaned: set<nat>)
  {
    && (forall i | i in net.running ::
          && i.matchId in c.matches && i.matchId !in cleaned
          && i in Instances(c.matches[i.matchId]))
    && (forall k | k in cleaned :: k in c.matches && c.matches[k].stage == Finished)
    && (forall k | k in c.matches && c.matches[k].rematchOf.Some? ::
          c.matches[k].rematchOf.value in cleaned)
  }

  /** Whenever a world of a rematch was started, no world of its source was running. */
  ghost predicate NoZombieAt(c: Core, e: Event)
  {
    e.StartAsked? ==>
      && e.instance.matchId in c.matches
      && var of := c.matches[e.instance.matchId].rematchOf;
         of.Some? ==> forall j | j in e.running :: j.matchId != of.value
  }

  ghost predicate LogOk(c: Core, log: seq<Event>)
  {
    forall e | e in log :: NoZombieAt(c, e)
  }

  /** Each anchored rematch really is the rematch of its source, and it came up. */
  ghost predicate BookOk(c: Core, rematchOf: map<nat, nat>)
  {
    forall k | k in rematchOf ::
      && k in c.matches && c.matches[k].stage == Finished
      && rematchOf[k] in c.matches
      && c.matches[rematchOf[k]].rematchOf == Some(k)
      && (c.matches[rematchOf[k]].stage == Ready || c.matches[rematchOf[k]].stage == Finished)
  }

  ghost predicate Settled(c: Core)
  {
    forall k | k in c.matches :: c.matches[k].stage != Provisioning
  }

  ghost predicate Inv(s: Coord)
  {
    && QueueOk(s.core)
    && |s.core.queue| < Needed(s.core)
    && RecordsOk(s.core)
    && Fleet(s.core, s.net, s.cleaned)
    && LogOk(s.core, s.net.log)
    && BookOk(s.core, s.rematchOf)
    && Settled(s.core)
    && s.disk == Image(s)
  }

  // ---- Core operations ------------------------------------------------------------------

  lemma AppendKeeps(q: seq<Entry>, index: map<Identity, Entry>, e: Entry)
    requires Ordered(q) && Before(q, e.seqNo) && Listed(q, index) && Queued(q, index)
    requires e.id !in index
    ensures Ordered(q + [e]) && Before(q + [e], e.seqNo + 1)
    ensures Listed(q + [e], index[e.id := e]) && Queued(q + [e], index[e.id := e])
  {
    var q' := q + [e];
    assert q'[|q|] == e;
    var index' := index[e.id := e];
    forall id | id in index' ensures index'[id] in q' && index'[id].id == id {
      if id != e.id { assert index[id] in q; }
    }
  }

  lemma EnqueueKeeps(c: Core, id: Identity, mode: string, size: Option<int>, now: int)
    requires QueueOk(c)
    ensures var (c', r) := Enqueue(c, id, mode, size, now);
            && QueueOk(c')
            && c' == c.(queue := c'.queue, byIdentity := c'.byIdentity, seqNo := c'.seqNo)
            && (r.Err? ==> c' == c)
            && (r.Ok? ==> r.value.id == id && id !in c.identityMatch
                          && ((c' == c && id in c.byIdentity)
                              || c'.queue == c.queue + [r.value]))
  {
    var (c', r) := Enqueue(c, id, mode, size, now);
    if c' != c {
      AppendKeeps(c.queue, c.byIdentity, r.value);
    }
  }

  lemma EnqueueKeepsBound(c: Core, id: Identity, mode: string, size: Option<int>, now: int)
    requires Bound(c)
    ensures Bound(Enqueue(c, id, mode, size, now).0)
  {
  }

  lemma {:induction false} RemoveFirstAt(q: seq<Entry>, i: nat)
    requires Ordered(q) && i < |q|
    ensures RemoveFirst(q, q[i]) == q[..i] + q[i + 1..]
  {
    if i > 0 {
      RemoveFirstAt(q[1..], i - 1);
      assert q[1..][i - 1] == q[i];
      assert q[0] != q[i];
      assert q[1..][..i - 1] == q[1..i] && q[1..][i..] == q[i + 1..];
      assert [q[0]] + q[1..i] == q[..i];
    }
  }

  function Cut(q: seq<Entry>, i: nat): (r: seq<Entry>)
    requires i < |q|
    ensures |r| == |q| - 1
    ensures forall j | 0 <= j < |r| :: r[j] == q[if j < i then j else j + 1]
  {
    q[..i] + q[i + 1..]
  }

  lemma CutKeeps(q: seq<Entry>, index: map<Identity, Entry>, i: nat)
    requires Ordered(q) && Listed(q, index) && i < |q|
    ensures Ordered(Cut(q, i)) && Listed(Cut(q, i), index - {q[i].id})
  {
  }

  lemma CutKeepsQueued(q: seq<Entry>, index: map<Identity, Entry>, i: nat)
    requires Queued(q, index) && Listed(q, index) && i < |q|
    ensures Queued(Cut(q, i), index - {q[i].id})
  {
    var q' := Cut(q, i);
    var index' := index - {q[i].id};
    forall id | id in index' ensures index'[id] in q' && index'[id].id == id {
      var j :| 0 <= j < |q| && q[j] == index[id];
      assert q'[if j < i then j else j - 1] == q[j];
    }
  }

  lemma LeaveKeeps(c: Core, id: Identity)
    requires QueueOk(c)
    ensures var (c', r) := Leave(c, id);
            && QueueOk(c')
            && c' == c.(queue := c'.queue, byIdentity := c'.byIdentity)
            && (r.Err? ==> c' == c)
            && (r.Ok? ==> exists i | 0 <= i < |c.queue| ::
                  c.queue[i].id == id && c'.queue == Cut(c.queue, i))
  {
    var (c', r) := Leave(c, id);
    if r.Ok? {
      var i :| 0 <= i < |c.queue| && c.queue[i] == c.byIdentity[id];
      RemoveFirstAt(c.queue, i);
      assert c.queue[i].id == id && c'.queue == Cut(c.queue, i);
      CutKeeps(c.queue, c.byIdentity, i);
      CutKeepsQueued(c.queue, c.byIdentity, i);
    }
  }

  lemma LeaveKeepsBound(c: Core, id: Identity)
    requires Bound(c)
    ensures Bound(Leave(c, id).0)
  {
  }

  // ---- Pairing ---------------------------------------------------------------------------

  lemma {:induction false} ParticipantsSnoc(a: seq<Team>, t: Team)
    ensures Participants(a + [t]) == Participants(a) + t.players
  {
    if a == [] {
      assert a + [t] == [t] && [t][1..] == [];
      assert Participants([t]) == t.players + Participants([]);
    } else {
      ParticipantsSnoc(a[1..], t);
      assert (a + [t])[0] == a[0] && (a + [t])[1..] == a[1..] + [t];
      assert a[0].players + (Participants(a[1..]) + t.players)
          == (a[0].players + Participants(a[1..])) + t.players;
    }
  }

  lemma {:induction false} ChunksCover(ids: seq<Identity>, size: TeamSize, count: nat)
    requires count * size <= |ids|
    ensures Participants(TeamsFrom(ids, size, count)) == ids[..count * size]
    ensures forall t | t in TeamsFrom(ids, size, count) :: |t.players| == size
  {
    if count > 0 {
      var n := count - 1;
      assert n * size + size == count * size;
      ChunksCover(ids, size, n);
      var teams, last := TeamsFrom(ids, size, n), TeamAt(ids, size, n);
      assert TeamsFrom(ids, size, count) == teams + [last];
      ParticipantsSnoc(teams, last);
      assert last.players == ids[n * size..count * size];
      assert ids[..count * size] == ids[..n * size] + ids[n * size..count * size];
    } else {
      assert TeamsFrom(ids, size, 0) == [];
    }
  }

  /** The match formed by pairing: exactly the oldest `Needed` entries, in order. */
  lemma PairTeams(c: Core, now: int)
    requires QueueOk(c) && |c.queue| >= Needed(c)
    ensures var (c', r) := Pair(c, now);
            && r == Some(c.nextMatchId)
            && PlayersOf(c'.matches[c.nextMatchId]) == Ids(c.queue[..Needed(c)])
            && MatchOk(c.nextMatchId, c'.matches[c.nextMatchId])
  {
    var n := Needed(c);
    var ids := Ids(c.queue[..n]);
    ChunksCover(ids, c.teamSize, c.teamsPerMatch);
    assert c.teamsPerMatch * c.teamSize == n;
    assert ids[..n] == ids;
  }

  lemma PairKeepsQueue(q: seq<Entry>, index: map<Identity, Entry>, n: nat)
    requires Ordered(q) && Listed(q, index) && Queued(q, index) && n <= |q|
    ensures var taken := set e | e in q[..n] :: e.id;
            Ordered(q[n..]) && Listed(q[n..], index - taken) && Queued(q[n..], index - taken)
  {
    var taken := set e | e in q[..n] :: e.id;
    assert forall j | 0 <= j < n :: q[j] in q[..n] && q[j].id in taken;
    forall id | id in index - taken ensures index[id] in q[n..] {
      var j :| 0 <= j < |q| && q[j] == index[id];
      assert j >= n;
      assert q[n..][j - n] == q[j];
    }
  }

  lemma PairKeeps(c: Core, now: int)
    requires QueueOk(c) && RecordsOk(c) && |c.queue| >= Needed(c)
    ensures var c', k, n := Pair(c, now).0, c.nextMatchId, Needed(c);
            && QueueOk(c') && RecordsOk(c')
            && k !in c.matches && c'.matches == c.matches[k := c'.matches[k]]
            && c'.queue == c.queue[n..]
  {
    var c', k := Pair(c, now).0, c.nextMatchId;
    PairTeams(c, now);
    PairKeepsQueue(c.queue, c.byIdentity, Needed(c));
    assert forall j | j in c.matches :: MatchOk(j, c.matches[j]);
  }

  lemma PairKeepsBound(c: Core, now: int)
    requires QueueOk(c) && RecordsOk(c) && |c.queue| >= Needed(c)
    requires Bound(c)
    ensures Bound(Pair(c, now).0)
  {
    var c', n, k := Pair(c, now).0, Needed(c), c.nextMatchId;
    PairTeams(c, now);
    var taken := c.queue[..n];
    var ids := Ids(taken);
    forall i | 0 <= i < n ensures ids[i] in c.byIdentity && ids[i] !in c'.byIdentity {
      assert taken[i] in taken && c.queue[i].id == ids[i];
    }
    BindFreshKeepsBound(c, c', k, ids);
  }

  /** Binding identities that no active match holds, to a new active match. */
  lemma BindFreshKeepsBound(c: Core, c': Core, k: nat, players: seq<Identity>)
    requires Bound(c) && k !in c.matches && k in c'.matches
    requires c'.matches == c.matches[k := c'.matches[k]]
    requires Active(c'.matches[k]) && PlayersOf(c'.matches[k]) == players
    requires c'.identityMatch == Bind(c.identityMatch, players, k)
    requires c'.byIdentity.Keys <= c.byIdentity.Keys
    requires forall p | p in players :: p !in c.identityMatch && p !in c'.byIdentity
    ensures Bound(c')
  {
  }

  // ---- Rematch records -------------------------------------------------------------------

  /** What a caller could look up before asking for a rematch. */
  predicate Free(c: Core, players: seq<Identity>)
  {
    forall p | p in players :: p !in c.byIdentity && p !in c.identityMatch
  }

  /** `create_rematch` rebinds the players without looking: the one-slot-or-one-match
      rule survives exactly when all of them were free. */
  lemma CreateRematchKeepsBound(c: Core, source: Match, now: int)
    requires RecordsOk(c) && Bound(c)
    ensures Bound(CreateRematch(c, source, now).0) <==> Free(c, PlayersOf(source))
  {
    var (c', k) := CreateRematch(c, source, now);
    var players := PlayersOf(source);
    assert PlayersOf(c'.matches[k]) == players && Active(c'.matches[k]);
    if Free(c, players) {
      BindFreshKeepsBound(c, c', k, players);
    } else {
      var p :| p in players && (p in c.byIdentity || p in c.identityMatch);
      assert c'.identityMatch[p] == k;
      if p in c.identityMatch {
        var q := c.identityMatch[p];
        assert q != k && c'.matches[q] == c.matches[q];
        assert !Bound(c');
      }
    }
  }

  // ---- Updates of one record --------------------------------------------------------------

  /** `c'` is `c` with only match `k` changed, and there only stage, result, detail and
      the recorded sides; everything but the identity index is as before. */
  ghost predicate Touches(c: Core, c': Core, k: nat)
  {
    && k in c.matches
    && c'.matches.Keys == c.matches.Keys
    && (forall j | j in c.matches && j != k :: c'.matches[j] == c.matches[j])
    && c'.matches[k].id == c.matches[k].id
    && c'.matches[k].teams == c.matches[k].teams
    && c'.matches[k].rematchOf == c.matches[k].rematchOf
    && c' == c.(matches := c'.matches, identityMatch := c'.identityMatch)
  }

  lemma ReleaseKeepsBound(c: Core, c': Core, k: nat)
    requires Bound(c) && Touches(c, c', k) && !Active(c'.matches[k])
    requires c'.identityMatch == Release(c.identityMatch, PlayersOf(c.matches[k]), k)
    ensures Bound(c')
  {
    assert PlayersOf(c'.matches[k]) == PlayersOf(c.matches[k]);
    forall p | p in c'.identityMatch
      ensures var j := c'.identityMatch[p];
              j in c'.matches && Active(c'.matches[j]) && p in PlayersOf(c'.matches[j])
    {
      assert p in c.identityMatch && c'.identityMatch[p] == c.identityMatch[p];
    }
  }

  lemma KeepsBound(c: Core, c': Core, k: nat)
    requires Bound(c) && Touches(c, c', k) && c'.identityMatch == c.identityMatch
    requires Active(c'.matches[k]) <==> Active(c.matches[k])
    ensures Bound(c')
  {
    assert PlayersOf(c'.matches[k]) == PlayersOf(c.matches[k]);
  }

  lemma FinishMatchEffect(c: Core, k: nat, result: Option<Verdict>)
    requires k in c.matches
    ensures var c' := FinishMatch(c, k, result);
            && Touches(c, c', k) && c'.matches[k].side == c.matches[k].side
            && c'.matches[k].stage == Finished
            && (c.matches[k].stage == Finished ==> c' == c)
            && (Bound(c) ==> Bound(c'))
  {
    var c' := FinishMatch(c, k, result);
    if Bound(c) && c' != c {
      ReleaseKeepsBound(c, c', k);
    }
  }

  lemma MarkFailedEffect(c: Core, k: nat, why: string)
    requires k in c.matches
    ensures var c' := MarkFailed(c, k, why);
            && Touches(c, c', k) && c'.matches[k].side == c.matches[k].side
            && c'.matches[k].stage == Failed
            && (Bound(c) ==> Bound(c'))
  {
    if Bound(c) {
      ReleaseKeepsBound(c, MarkFailed(c, k, why), k);
    }
  }

  lemma MarkReadyEffect(c: Core, k: nat)
    requires k in c.matches && c.matches[k].stage == Provisioning
    ensures var c' := MarkReady(c, k);
            && Touches(c, c', k) && c'.matches[k].side == c.matches[k].side
            && c'.matches[k].stage == Ready
            && (Bound(c) ==> Bound(c'))
  {
    if Bound(c) {
      KeepsBound(c, MarkReady(c, k), k);
    }
  }

  /** Replacing a record by one with the same sides disturbs neither fleet nor log. */
  lemma TouchKeepsFleet(c: Core, c': Core, k: nat, net: Net, cleaned: set<nat>)
    requires Touches(c, c', k) && c'.matches[k].side == c.matches[k].side
    requires RecordsOk(c) && Fleet(c, net, cleaned) && LogOk(c, net.log)
    requires k in cleaned ==> c'.matches[k].stage == Finished
    ensures RecordsOk(c') && Fleet(c', net, cleaned) && LogOk(c', net.log)
  {
    assert MatchOk(k, c'.matches[k]) by { assert MatchOk(k, c.matches[k]); }
    assert Instances(c'.matches[k]) == Instances(c.matches[k]);
    forall j | j in c'.matches && c'.matches[j].rematchOf.Some?
      ensures c'.matches[j].rematchOf.value in cleaned
    {
      assert c'.matches[j].rematchOf == c.matches[j].rematchOf;
    }
    forall e | e in net.log ensures NoZombieAt(c', e) {
      assert NoZombieAt(c, e);
    }
  }
}
