/** The promises of the casual queue in its own words, each for every run. */
module QueuePromises {
  import opened Naming
  import opened QueueModel
  import opened QueueFlowModel
  import opened QueueInvariants
  import opened QueueRuns
  import opened QueueTheorems

  /** From a fresh start, whatever is asked and whatever the neighbours answer: every
      running world is recorded as a side of a match whose cleanup is still owed, and
      every world of a rematch was started when nothing of its source was running. */
  lemma NoOrphansNoZombies(fate: Fate, teamSize: TeamSize, teamsPerMatch: TeamCount,
                           allowTeams: bool, ops: seq<Op>)
    ensures var s := Run(fate, Boot(teamSize, teamsPerMatch, allowTeams), ops);
            && (forall i | i in s.net.running ::
                  && i.matchId in s.core.matches && i.matchId !in s.cleaned
                  && exists p :: p in s.core.matches[i.matchId].side
                                 && s.core.matches[i.matchId].side[p].instance == i)
            && (forall e, k | e in s.net.log && e.StartAsked? && e.instance.matchId in s.core.matches
                              && s.core.matches[e.instance.matchId].rematchOf == Some(k) ::
                  forall j | j in e.running :: j.matchId != k)
  {
    BootOk(teamSize, teamsPerMatch, allowTeams);
    RunKeeps(fate, Boot(teamSize, teamsPerMatch, allowTeams), ops);
    var s := Run(fate, Boot(teamSize, teamsPerMatch, allowTeams), ops);
    forall i | i in s.net.running
      ensures exists p :: p in s.core.matches[i.matchId].side
                          && s.core.matches[i.matchId].side[p].instance == i
    {
      assert i in Instances(s.core.matches[i.matchId]);
    }
    forall e, k, j | e in s.net.log && e.StartAsked? && e.instance.matchId in s.core.matches
                     && s.core.matches[e.instance.matchId].rematchOf == Some(k) && j in e.running
      ensures j.matchId != k
    {
      assert NoZombieAt(s.core, e);
    }
  }

  // ---- Rematch at most once -----------------------------------------------------------------

  /** Did this operation bring up a new rematch of match `k`? */
  predicate FreshRematch(fate: Fate, s: Coord, op: Op, k: nat)
  {
    op.OpRematch? &&
    var r := Rematch(fate, s, op.source, op.now).1;
    r.Ok? && !r.value.idempotent && r.value.source == k
  }

  function FreshRematches(fate: Fate, s: Coord, ops: seq<Op>, k: nat): nat
    decreases |ops|
  {
    if ops == [] then 0
    else (if FreshRematch(fate, s, ops[0], k) then 1 else 0)
         + FreshRematches(fate, Apply(fate, s, ops[0]), ops[1..], k)
  }

  function Anchored(s: Coord, k: nat): nat
  {
    if k in s.rematchOf then 1 else 0
  }

  lemma ApplyAnchors(fate: Fate, s: Coord, op: Op, k: nat)
    requires Inv(s)
    ensures Anchored(Apply(fate, s, op), k)
         == Anchored(s, k) + (if FreshRematch(fate, s, op, k) then 1 else 0)
    ensures k in s.rematchOf ==> k in Apply(fate, s, op).rematchOf
                                 && Apply(fate, s, op).rematchOf[k] == s.rematchOf[k]
  {
    hide Inv, RecordsOk, Bound, Join, Finish, Rematch, Reconcile, Restart, Leave;
    RecordsOf(s);
    match op
    case OpJoin(id, mode, size, now) => JoinKeepsBooks(fate, s, id, mode, size, now);
    case OpLeave(id) =>
    case OpFinish(j, result) => FinishEffect(fate, s, j, result);
    case OpRematch(source, now) => RematchKeeps(fate, s, source, now);
    case OpReconcile(view) => ReconcileKeeps(fate, s, view);
    case OpRestart => RestartForgets(s);
  }

  lemma JoinKeepsBooks(fate: Fate, s: Coord, id: Identity, mode: string, size: Option<int>,
                       now: int)
    ensures Join(fate, s, id, mode, size, now).0.rematchOf == s.rematchOf
  {
  }

  /** In any run a source match gets one rematch or none: the number of requests that
      brought one up is exactly the change of its anchor from absent to present. */
  lemma {:induction false} RematchAtMostOnce(fate: Fate, s: Coord, ops: seq<Op>, k: nat)
    requires Inv(s)
    ensures FreshRematches(fate, s, ops, k) == Anchored(Run(fate, s, ops), k) - Anchored(s, k)
    ensures FreshRematches(fate, s, ops, k) <= 1
    ensures k in s.rematchOf ==> k in Run(fate, s, ops).rematchOf
                                 && Run(fate, s, ops).rematchOf[k] == s.rematchOf[k]
    decreases |ops|
  {
    hide Inv, FreshRematch;
    if ops != [] {
      ApplyAnchors(fate, s, ops[0], k);
      ApplyKeeps(fate, s, ops[0]);
      RematchAtMostOnce(fate, Apply(fate, s, ops[0]), ops[1..], k);
    }
  }

  /** After a success every later request for the same source, anywhere in the run,
      answers with the same match and starts nothing; after a failure nothing stands in
      the way of the next attempt. */
  lemma RematchRepeated(fate: Fate, s: Coord, k: nat, now: int, ops: seq<Op>, later: int)
    requires Inv(s) && k in s.core.matches && s.core.matches[k].stage == Finished
    ensures var (s1, r) := Rematch(fate, s, ByMatch(k), now);
            && (r.Ok? ==>
                  var s2 := Run(fate, s1, ops);
                  Rematch(fate, s2, ByMatch(k), later)
                    == (s2, Ok(RematchReply(k, true, r.value.matchId))))
            && (r.Err? ==>
                  && k in s1.core.matches && s1.core.matches[k].stage == Finished
                  && (k in s1.rematchOf <==> k in s.rematchOf))
  {
    RematchKeeps(fate, s, ByMatch(k), now);
    var (s1, r) := Rematch(fate, s, ByMatch(k), now);
    if r.Ok? {
      RematchAtMostOnce(fate, s1, ops, k);
      RunKeeps(fate, s1, ops);
    }
  }

  lemma {:induction false} LatestAmongIsLatest(matches: map<nat, Match>, ids: seq<nat>, id: Identity)
    requires forall k | k in ids :: k in matches
    requires forall i, j | 0 <= i < j < |ids| :: ids[i] < ids[j]
    ensures var r := LatestAmong(matches, ids, id);
            && (r.Some? ==> r.value in ids && Contains(matches[r.value], id)
                            && forall k | k in ids && k > r.value :: !Contains(matches[k], id))
            && (r.None? ==> forall k | k in ids :: !Contains(matches[k], id))
    decreases |ids|
  {
    hide Contains;
    if ids != [] {
      var front := ids[..|ids| - 1];
      assert forall k | k in ids :: k in front || k == ids[|ids| - 1];
      assert forall k | k in front :: k < ids[|ids| - 1];
      LatestAmongIsLatest(matches, front, id);
    }
  }

  /** "Rematch for this player" means the player's match with the highest number. */
  lemma LatestMatchIsLatest(c: Core, id: Identity)
    ensures var r := LatestMatchFor(c, id);
            && (r.Some? ==> r.value in c.matches && Contains(c.matches[r.value], id)
                            && forall k | k in c.matches && k > r.value :: !Contains(c.matches[k], id))
            && (r.None? ==> forall k | k in c.matches :: !Contains(c.matches[k], id))
  {
    AscendingOrder(c.matches.Keys);
    LatestAmongIsLatest(c.matches, Ascending(c.matches.Keys), id);
  }

  // ---- First come, first served ---------------------------------------------------------------

  /** The entries an operation takes out of the queue to form a match. */
  function PairedBy(s: Coord, op: Op): seq<Entry>
  {
    if !op.OpJoin? then []
    else
      var (c, entered) := Enqueue(s.core, op.id, op.mode, op.size, op.now);
      if entered.Ok? && |c.queue| >= Needed(c) then c.queue[..Needed(c)] else []
  }

  /** All entries ever paired in a run, in the order of pairing. */
  function PairedIn(fate: Fate, s: Coord, ops: seq<Op>): seq<Entry>
    decreases |ops|
  {
    if ops == [] then []
    else PairedBy(s, ops[0]) + PairedIn(fate, Apply(fate, s, ops[0]), ops[1..])
  }

  ghost predicate BySeqNo(es: seq<Entry>)
  {
    forall i, j | 0 <= i < j < |es| :: es[i].seqNo < es[j].seqNo
  }

  /** What an operation does to the waiting line: either it takes the whole line, old
      and new, or the line only loses entries and gains one at the end. */
  lemma LineAfter(fate: Fate, s: Coord, op: Op)
    requires Inv(s)
    ensures var s', taken := Apply(fate, s, op), PairedBy(s, op);
            && s.core.seqNo <= s'.core.seqNo
            && BySeqNo(taken)
            && (forall i | 0 <= i < |taken| :: taken[i] in s.core.queue || taken[i].seqNo >= s.core.seqNo)
            && (forall e | e in s'.core.queue :: e in s.core.queue || e.seqNo >= s.core.seqNo)
            && (taken != [] ==> s'.core.queue == []
                                && forall i | 0 <= i < |taken| :: taken[i].seqNo < s'.core.seqNo)
  {
    hide Inv, RecordsOk, Bound, Join, Finish, Rematch, Reconcile, Restart, LeaveQueue, Enqueue;
    RecordsOf(s);
    match op
    case OpJoin(id, mode, size, now) =>
      JoinLine(fate, s, id, mode, size, now);
      var c := Enqueue(s.core, id, mode, size, now).0;
      assert forall i | 0 <= i < |c.queue| :: c.queue[i] in c.queue;
    case OpLeave(id) => LeaveLine(s, id);
    case OpFinish(k, result) => FinishEffect(fate, s, k, result);
    case OpRematch(source, now) => RematchKeeps(fate, s, source, now);
    case OpReconcile(view) => ReconcileKeeps(fate, s, view);
    case OpRestart => RestartForgets(s);
  }

  lemma LeaveLine(s: Coord, id: Identity)
    requires Inv(s)
    ensures var s' := LeaveQueue(s, id).0;
            s'.core.seqNo == s.core.seqNo && forall e | e in s'.core.queue :: e in s.core.queue
  {
    LeaveKeeps(s.core, id);
  }

  /** The match a full line becomes: its players are the line, which is then empty. */
  lemma FullLine(fate: Fate, s: Coord, now: int)
    requires QueueOk(s.core) && |s.core.queue| == Needed(s.core)
    requires Sound(s.core, s.net, s.cleaned) && BookOk(s.core, s.rematchOf) && Settled(s.core)
    ensures var (c, k) := Pair(s.core, now);
            && k.Some? && k.value in c.matches
            && var s' := Provision(fate, s.(core := c), k.value).0;
               && s'.core.queue == [] && s'.core.seqNo == s.core.seqNo
               && k.value in s'.core.matches
               && PlayersOf(s'.core.matches[k.value]) == Ids(s.core.queue)
  {
    var (c, k) := Pair(s.core, now);
    PairReady(s, now);
    assert c.seqNo == s.core.seqNo;
    hide QueueOk, RecordsOk, Fleet, LogOk, BookOk, Bound, Provision, Pair;
    ProvisionKeeps(fate, s.(core := c), k.value);
  }

  lemma JoinLine(fate: Fate, s: Coord, id: Identity, mode: string, size: Option<int>, now: int)
    requires Inv(s)
    ensures var (s', r) := Join(fate, s, id, mode, size, now);
            var (c1, entered) := Enqueue(s.core, id, mode, size, now);
            && QueueOk(c1) && s'.core.seqNo == c1.seqNo && s.core.seqNo <= c1.seqNo
            && (forall e | e in c1.queue :: e in s.core.queue || e.seqNo == s.core.seqNo)
            && (if entered.Ok? && |c1.queue| >= Needed(c1)
                then |c1.queue| == Needed(c1) && s'.core.queue == []
                else s'.core.queue == c1.queue)
            && (entered.Err? ==> c1 == s.core)
            && (r.Ok? && r.value.Matched? ==>
                  && r.value.matchId in s'.core.matches
                  && id in PlayersOf(s'.core.matches[r.value.matchId]))
  {
    EnqueueKeeps(s.core, id, mode, size, now);
    EnqueuedLast(s.core, id, mode, size, now);
    var (c1, entered) := Enqueue(s.core, id, mode, size, now);
    hide QueueOk, RecordsOk, Fleet, LogOk, BookOk, Bound, ToState, Provision, Enqueue;
    if entered.Ok? {
      var s1 := Persist(s.(core := c1));
      SameMatches(s.core, c1, s.net, s.cleaned, s.rematchOf);
      if |c1.queue| >= Needed(c1) {
        FullLine(fate, s1, now);
        hide Pair;
        assert Ids(c1.queue)[|c1.queue| - 1] == id;
      } else {
        assert Pair(c1, now) == (c1, None);
        hide Pair;
      }
    }
  }

  lemma EnqueuedLast(c: Core, id: Identity, mode: string, size: Option<int>, now: int)
    requires QueueOk(c) && |c.queue| < Needed(c)
    ensures var (c', r) := Enqueue(c, id, mode, size, now);
            && c.seqNo <= c'.seqNo && |c'.queue| <= Needed(c')
            && (forall e | e in c'.queue :: e in c.queue || e.seqNo == c.seqNo)
            && (|c'.queue| == Needed(c') ==> r.Ok? && c'.queue[|c'.queue| - 1].id == id)
  {
  }

  /** A join that reports a match always reports one its caller plays in. */
  lemma MatchedJoinHasCaller(fate: Fate, s: Coord, id: Identity, mode: string,
                             size: Option<int>, now: int)
    requires Inv(s)
    ensures var (s', r) := Join(fate, s, id, mode, size, now);
            r.Ok? && r.value.Matched? ==>
              r.value.matchId in s'.core.matches
              && id in PlayersOf(s'.core.matches[r.value.matchId])
  {
    JoinLine(fate, s, id, mode, size, now);
  }

  /** Nobody is overtaken: over any run the entries are paired strictly in the order in
      which they were queued, across all matches. */
  lemma {:induction false} NobodyOvertaken(fate: Fate, s: Coord, ops: seq<Op>)
    requires Inv(s)
    ensures var all := PairedIn(fate, s, ops);
            && BySeqNo(all)
            && forall i | 0 <= i < |all| :: all[i] in s.core.queue || all[i].seqNo >= s.core.seqNo
    decreases |ops|
  {
    hide Inv, PairedBy;
    if ops != [] {
      var s1, taken := Apply(fate, s, ops[0]), PairedBy(s, ops[0]);
      LineAfter(fate, s, ops[0]);
      ApplyKeeps(fate, s, ops[0]);
      NobodyOvertaken(fate, s1, ops[1..]);
      var later := PairedIn(fate, s1, ops[1..]);
      forall i | 0 <= i < |later|
        ensures later[i] in s.core.queue || later[i].seqNo >= s.core.seqNo
        ensures taken != [] ==> later[i].seqNo >= s1.core.seqNo
      {
        assert later[i] in s1.core.queue || later[i].seqNo >= s1.core.seqNo;
      }
    }
  }

  // ---- What a reconcile tick achieves -----------------------------------------------------------

  /** Every match that is over has been cleaned. */
  ghost predicate AllCleaned(s: Coord)
  {
    forall k | k in s.core.matches && !Active(s.core.matches[k]) :: k in s.cleaned
  }

  ghost predicate Granted(fate: Fate, from: nat, to: nat)
  {
    forall c | from <= c < to :: fate(c).Done?
  }

  lemma {:induction false} CleanupGranted(fate: Fate, n: Net, side: map<Identity, Side>,
                                          players: seq<Identity>)
    ensures var (n', failure) := Cleanup(fate, n, side, players);
            n.calls <= n'.calls && (Granted(fate, n.calls, n'.calls) ==> failure.None?)
    decreases |players|
  {
    if players != [] {
      if players[0] !in side {
        CleanupGranted(fate, n, side, players[1..]);
      } else if fate(n.calls).Done? {
        CleanupGranted(fate, StopCall(fate, n, side[players[0]].instance), side, players[1..]);
      }
    }
  }

  lemma FinishGranted(fate: Fate, s: Coord, k: nat, result: Option<Verdict>)
    requires k in s.core.matches && (result.Some? ==> KnownResult(result.value))
    ensures var (s', r) := Finish(fate, s, k, result);
            s.net.calls <= s'.net.calls && (Granted(fate, s.net.calls, s'.net.calls) ==> r.Ok?)
  {
    var m := FinishMatch(s.core, k, result).matches[k];
    CleanupGranted(fate, s.net, m.side, PlayersOf(m));
  }

  /** The matches that are over but not cleaned are all among `ids`. */
  ghost predicate OwedAmong(s: Coord, ids: seq<nat>)
  {
    && (forall k | k in ids :: k in s.core.matches)
    && forall k | k in s.core.matches && !Active(s.core.matches[k]) :: k in s.cleaned || k in ids
  }

  lemma FinishOwes(fate: Fate, s: Coord, k: nat, result: Option<Verdict>, ids: seq<nat>)
    requires Inv(s) && k in s.core.matches && (result.Some? ==> KnownResult(result.value))
    requires OwedAmong(s, [k] + ids)
    ensures var s' := Finish(fate, s, k, result).0;
            && s.net.calls <= s'.net.calls && Inv(s')
            && (Granted(fate, s.net.calls, s'.net.calls) ==> OwedAmong(s', ids))
            && s'.core.matches.Keys == s.core.matches.Keys
  {
    hide Inv, RecordsOk, Bound, Finish;
    FinishKeeps(fate, s, k, result);
    RecordsOf(s);
    FinishEffect(fate, s, k, result);
    FinishGranted(fate, s, k, result);
  }

  lemma {:induction false} CleanupPassOwes(fate: Fate, s: Coord, ids: seq<nat>, done: seq<nat>)
    requires Inv(s) && OwedAmong(s, ids)
    ensures var s' := CleanupPass(fate, s, ids, done).0;
            && s.net.calls <= s'.net.calls && Inv(s')
            && (Granted(fate, s.net.calls, s'.net.calls) ==> OwedAmong(s', []))
            && s'.core.matches.Keys == s.core.matches.Keys
    decreases |ids|
  {
    hide Inv;
    if ids != [] {
      assert [ids[0]] + ids[1..] == ids;
      var (s1, r) := Finish(fate, s, ids[0], None);
      var done' := if r.Ok? then done + [ids[0]] else done;
      FinishOwes(fate, s, ids[0], None, ids[1..]);
      if Granted(fate, s.net.calls, s1.net.calls) {
        CleanupPassOwes(fate, s1, ids[1..], done');
      } else {
        CleanupPassCounts(fate, s1, ids[1..], done');
      }
    }
  }

  lemma {:induction false} CleanupPassCounts(fate: Fate, s: Coord, ids: seq<nat>, done: seq<nat>)
    requires Inv(s)
    ensures var s' := CleanupPass(fate, s, ids, done).0;
            s.net.calls <= s'.net.calls && Inv(s') && s'.core.matches.Keys == s.core.matches.Keys
    decreases |ids|
  {
    hide Inv;
    if ids != [] {
      var (s1, r) := Finish(fate, s, ids[0], None);
      FinishKeeps(fate, s, ids[0], None);
      RecordsOf(s);
      FinishEffect(fate, s, ids[0], None);
      if ids[0] in s.core.matches { FinishGranted(fate, s, ids[0], None); }
      CleanupPassCounts(fate, s1, ids[1..], if r.Ok? then done + [ids[0]] else done);
    }
  }

  lemma VerdictKnown(view: View)
    ensures var r := DeriveResult(view.phase, view.winner); r.Some? ==> KnownResult(r.value)
  {
  }

  lemma {:induction false} FinishPassOwes(fate: Fate, s: Coord, view: View, ids: seq<nat>,
                                          done: seq<nat>)
    requires Inv(s)
    ensures var s' := FinishPass(fate, s, view, ids, done).0;
            && s.net.calls <= s'.net.calls && Inv(s')
            && (OwedAmong(s, []) && Granted(fate, s.net.calls, s'.net.calls) ==> OwedAmong(s', []))
    decreases |ids|
  {
    hide Inv, Mapped, DeriveResult, KnownResult;
    if ids != [] {
      var result := DeriveResult(view.phase, view.winner);
      VerdictKnown(view);
      if ids[0] !in s.core.matches || !Mapped(s.core, view, ids[0]) || result.None? {
        FinishPassOwes(fate, s, view, ids[1..], done);
      } else {
        var (s1, r) := Finish(fate, s, ids[0], result);
        if OwedAmong(s, []) {
          assert OwedAmong(s, [ids[0]] + []);
          FinishOwes(fate, s, ids[0], result, []);
        }
        FinishKeeps(fate, s, ids[0], result);
        FinishGranted(fate, s, ids[0], result);
        FinishPassOwes(fate, s1, view, ids[1..], if r.Ok? then done + [ids[0]] else done);
      }
    }
  }

  lemma {:induction false} PendingCleanupAll(c: Core, cleaned: set<nat>, ids: seq<nat>)
    requires forall k | k in ids :: k in c.matches
    ensures forall k :: k in PendingCleanup(c, cleaned, ids)
                        <==> k in ids && !Active(c.matches[k]) && k !in cleaned
  {
    if ids != [] {
      PendingCleanupAll(c, cleaned, ids[1..]);
      assert forall k :: k in ids <==> k == ids[0] || k in ids[1..];
    }
  }

  /** A reconcile tick whose stops all succeed leaves only the worlds of matches in
      progress running, whatever the referee said. */
  lemma TickLeavesOnlyActive(fate: Fate, s: Coord, view: Option<View>)
    requires Inv(s)
    requires Granted(fate, s.net.calls, Reconcile(fate, s, view).0.net.calls)
    ensures var s' := Reconcile(fate, s, view).0;
            && AllCleaned(s')
            && forall i | i in s'.net.running ::
                 i.matchId in s'.core.matches && Active(s'.core.matches[i.matchId])
  {
    AscendingOrder(s.core.matches.Keys);
    var ids := Ascending(s.core.matches.Keys);
    var toFinish := PendingFinish(s.core, ids);
    var toClean := PendingCleanup(s.core, s.cleaned, ids);
    PendingCleanupAll(s.core, s.cleaned, ids);
    assert OwedAmong(s, toClean);
    CleanupPassOwes(fate, s, toClean, []);
    var (s1, cleaned) := CleanupPass(fate, s, toClean, []);
    if toFinish != [] && view.Some? {
      FinishPassOwes(fate, s1, view.value, toFinish, cleaned);
    }
    var s' := Reconcile(fate, s, view).0;
    assert OwedAmong(s', []);
    ReconcileKeeps(fate, s, view);
    assert Fleet(s'.core, s'.net, s'.cleaned);
  }

  // ---- Where the rules give way -----------------------------------------------------------------

  /** A match that is over, and its first player waiting again. */
  function WaitingAgain(): Core
  {
    var e := Entry(['p'], "vs", 1, 2, 0);
    var teams := [Team(0, "A", 1, [['p']]), Team(1, "B", 1, [['q']])];
    var m := Match(1, "vs", 1, 0, teams, Finished, None, None, map[], None);
    Core(1, 2, false, [e], map[['p'] := e], map[1 := m], map[], 2, 3)
  }

  /** A rematch asked for while one of its players waits: that player now holds a queue
      slot and an active match at once. */
  lemma RematchOfWaitingPlayer()
    ensures var c := WaitingAgain();
            var (c', k) := CreateRematch(c, c.matches[1], 0);
            && QueueOk(c) && RecordsOk(c) && Bound(c)
            && ['p'] in c'.byIdentity && ['p'] in c'.identityMatch && c'.identityMatch[['p']] == k
            && !Bound(c')
  {
    var c := WaitingAgain();
    var m := c.matches[1];
    var p, q: Identity := ['p'], ['q'];
    assert p[0] != q[0];
    assert PlayersOf(m) == [p, q] by {
      assert m.teams[1..] == [m.teams[1]] && m.teams[1..][1..] == [];
      assert Participants(m.teams[1..]) == [q] + Participants([]);
      assert Participants(m.teams) == [p] + Participants(m.teams[1..]);
    }
    assert TeamsOk(m.teams);
    assert RecordsOk(c) by { assert MatchOk(1, m); }
    assert Bound(c);
    assert QueueOk(c);
    hide Bound, RecordsOk, QueueOk, Participants;
    CreateRematchKeepsBound(c, m, 0);
    assert p in PlayersOf(m) && p in c.byIdentity;
  }

  // ---- Instance names ---------------------------------------------------------------------------

  lemma WorldNameShape(i: nat)
    ensures Lower(WorldName(i)) == (if i == 0 then "a" else if i == 1 then "b" else "w" + Decimal(i))
  {
    if i > 1 {
      DecimalIsDigits(i);
      var w := WorldName(i);
      forall j | 0 <= j < |w| ensures LowerChar(w[j]) == ("w" + Decimal(i))[j] {
        if j > 0 { assert w[j] == Decimal(i)[j - 1]; }
      }
    }
  }

  /** `queue-<match>-<world>` names a world of a match uniquely, so an instance may be
      identified with its match and world. */
  lemma InstanceNamesDiffer(k1: nat, i1: nat, k2: nat, i2: nat)
    requires InstanceName(Instance(k1, WorldName(i1))) == InstanceName(Instance(k2, WorldName(i2)))
    ensures k1 == k2 && i1 == i2
  {
    var d1, d2 := Decimal(k1), Decimal(k2);
    var w1, w2 := Lower(WorldName(i1)), Lower(WorldName(i2));
    var s1, s2 := "queue-" + d1 + "-" + w1, "queue-" + d2 + "-" + w2;
    assert s1 == s2;
    DecimalIsDigits(k1);
    DecimalIsDigits(k2);
    assert forall j | 0 <= j < |d1| :: s1[6 + j] == d1[j];
    assert forall j | 0 <= j < |d2| :: s2[6 + j] == d2[j];
    assert s1[6 + |d1|] == '-' && s2[6 + |d2|] == '-';
    assert |d1| == |d2|;
    assert s1[6..6 + |d1|] == d1 && s2[6..6 + |d2|] == d2;
    DecimalInjective(k1, k2);
    assert s1[7 + |d1|..] == w1 && s2[7 + |d2|..] == w2;
    WorldNameShape(i1);
    WorldNameShape(i2);
    if i1 > 1 && i2 > 1 {
      assert w1[1..] == Decimal(i1) && w2[1..] == Decimal(i2);
      DecimalInjective(i1, i2);
    } else {
      assert w1[0] == w2[0];
    }
  }
}
