/** The promises of the casual queue, for every run and every behaviour of its
    neighbours. */
module QueueTheorems {
  import opened Naming
  import opened QueueModel
  import opened QueueFlowModel
  import opened QueueInvariants
  import opened QueueRuns

  // ---- Rematch ----------------------------------------------------------------------------

  /** The record of a rematch of a cleaned match is a sound new record. */
  lemma RematchRecord(s: Coord, k: nat, now: int)
    requires Inv(s) && k in s.core.matches && k in s.cleaned
    ensures var (c, k') := CreateRematch(s.core, s.core.matches[k], now);
            && k' == s.core.nextMatchId && k' !in s.core.matches && k' !in s.cleaned
            && Sound(c, s.net, s.cleaned) && BookOk(c, s.rematchOf) && SettledBut(c, k')
            && c.matches == s.core.matches[k' := c.matches[k']]
            && c.matches[k'].stage == Provisioning && c.matches[k'].side == map[]
            && c.matches[k'].rematchOf == Some(k)
            && QueueOk(c) && |c.queue| < Needed(c)
            && c.queue == s.core.queue && c.seqNo == s.core.seqNo
            && (Bound(s.core) && Free(s.core, PlayersOf(s.core.matches[k])) ==> Bound(c))
  {
    var source := s.core.matches[k];
    var (c, k') := CreateRematch(s.core, source, now);
    assert MatchOk(k, source);
    assert MatchOk(k', c.matches[k']);
    forall j | j in c.matches ensures MatchOk(j, c.matches[j]) && j < c.nextMatchId {
      if j != k' { assert MatchOk(j, s.core.matches[j]); }
    }
    GrowKeeps(s.core, c, k', s.net, s.cleaned, s.rematchOf);
    if Bound(s.core) { CreateRematchKeepsBound(s.core, source, now); }
  }

  /** The core of the coordinator after the referee was asked to reset. */
  function Asked(fate: Fate, s: Coord, k: nat, now: int): Coord
    requires k in s.core.matches
  {
    Persist(s.(core := CreateRematch(s.core, s.core.matches[k], now).0))
      .(net := Record(s.net, RematchAsked))
  }

  /** Steps 4 to 8 keep the invariant; the index too, if the players were free. On
      success the anchor is set to a fresh match, otherwise the book is as it was. */
  lemma StartRematchKeeps(fate: Fate, s: Coord, k: nat, now: int)
    requires Inv(s) && k in s.core.matches && k in s.cleaned && k !in s.rematchOf
    ensures var (s', r) := StartRematch(fate, s, k, now);
            && Inv(s')
            && (Bound(s.core) && Free(s.core, PlayersOf(s.core.matches[k])) ==> Bound(s'.core))
            && k in s'.core.matches && s'.core.matches[k] == s.core.matches[k]
            && s'.core.queue == s.core.queue && s'.core.seqNo == s.core.seqNo
            && s'.rematchOf == (if r.Ok? then s.rematchOf[k := r.value.matchId] else s.rematchOf)
            && (r.Ok? ==> !r.value.idempotent && r.value.source == k
                          && r.value.matchId !in s.core.matches)
  {
    hide QueueOk, RecordsOk, Fleet, LogOk, BookOk, Bound, ToState, Free, SettledBut, Ordered;
    RematchRecord(s, k, now);
    var (c, k') := CreateRematch(s.core, s.core.matches[k], now);
    var s2 := Asked(fate, s, k, now);
    RecordKeeps(c, s.net, s.cleaned, RematchAsked);
    var reply := fate(s.net.calls);
    if !reply.Done? {
      var c' := MarkFailed(c, k', reply.why);
      MarkFailedEffect(c, k', reply.why);
      SettleKeeps(c, c', k', s2.net, s.cleaned, s.rematchOf);
      TouchKeepsQueue(c, c', k');
      Assemble(Persist(s2.(core := c')));
    } else {
      ProvisionKeeps(fate, s2, k');
      var (s3, failed) := Provision(fate, s2, k');
      TouchKeepsQueue(c, s3.core, k');
      Assemble(s3);
      if failed.None? {
        AnchorKeeps(s3, k, k');
      }
    }
  }

  lemma BookGrows(c: Core, rematchOf: map<nat, nat>, k: nat, k': nat)
    requires BookOk(c, rematchOf) && k in c.matches && k' in c.matches
    requires c.matches[k].stage == Finished
    requires c.matches[k'].rematchOf == Some(k) && c.matches[k'].stage == Ready
    ensures BookOk(c, rematchOf[k := k'])
  {
  }

  lemma AnchorKeeps(s: Coord, k: nat, k': nat)
    requires Inv(s) && k in s.cleaned && k' in s.core.matches
    requires s.core.matches[k'].rematchOf == Some(k) && s.core.matches[k'].stage == Ready
    ensures Inv(Persist(s.(rematchOf := s.rematchOf[k := k'])))
  {
    assert s.core.matches[k].stage == Finished;
    hide QueueOk, RecordsOk, Fleet, LogOk, Settled, ToState, BookOk;
    BookGrows(s.core, s.rematchOf, k, k');
  }

  /** What one rematch request does, completely: a repeated request changes nothing and
      answers with the known match; a new one either anchors a fresh match or leaves the
      book alone, and then the source is as eligible as before. */
  lemma RematchKeeps(fate: Fate, s: Coord, source: Source, now: int)
    requires Inv(s)
    ensures var (s', r) := Rematch(fate, s, source, now);
            var k := ResolveSource(s.core, source);
            && Inv(s')
            && s'.core.queue == s.core.queue && s'.core.seqNo == s.core.seqNo
            && (r.Ok? ==> k == Ok(r.value.source))
            && (r.Ok? && r.value.idempotent ==>
                  && s' == s && r.value.source in s.rematchOf
                  && r.value.matchId == s.rematchOf[r.value.source])
            && (r.Ok? && !r.value.idempotent ==>
                  && r.value.source !in s.rematchOf && r.value.matchId !in s.core.matches
                  && s'.rematchOf == s.rematchOf[r.value.source := r.value.matchId])
            && (r.Err? ==> s'.rematchOf == s.rematchOf)
            && (k.Ok? && k.value in s.core.matches ==>
                  && k.value in s'.core.matches
                  && s'.core.matches[k.value] == s.core.matches[k.value])
            && (Bound(s.core) && RematchAllowed(s, source) ==> Bound(s'.core))
  {
    hide QueueOk, RecordsOk, Fleet, LogOk, Bound, ToState, Free, Settled, Ordered;
    var resolved := ResolveSource(s.core, source);
    if resolved.Ok? && resolved.value in s.core.matches
       && s.core.matches[resolved.value].stage == Finished && resolved.value !in s.rematchOf {
      var k := resolved.value;
      FinishKeeps(fate, s, k, None);
      FinishEffect(fate, s, k, None);
      var (s1, stopped) := Finish(fate, s, k, None);
      if stopped.Ok? {
        StartRematchKeeps(fate, s1, k, now);
      }
    }
  }

  /** The guard a caller can evaluate first: a request that would make a new match, being
      neither refused nor a repetition, finds that match's players neither waiting nor playing. */
  predicate RematchAllowed(s: Coord, source: Source)
  {
    var k := ResolveSource(s.core, source);
    (k.Ok? && k.value in s.core.matches && s.core.matches[k.value].stage == Finished
     && k.value !in s.rematchOf) ==>
      Free(s.core, PlayersOf(s.core.matches[k.value]))
  }

  // ---- Reconcile --------------------------------------------------------------------------

  lemma {:induction false} CleanupPassKeeps(fate: Fate, s: Coord, ids: seq<nat>, done: seq<nat>)
    requires Inv(s)
    ensures var s' := CleanupPass(fate, s, ids, done).0;
            Kept(s, s') && s'.rematchOf == s.rematchOf
            && s'.core.queue == s.core.queue && s'.core.seqNo == s.core.seqNo
    decreases |ids|
  {
    hide Inv, Bound;
    if ids != [] {
      var (s1, r) := Finish(fate, s, ids[0], None);
      FinishKeeps(fate, s, ids[0], None);
      RecordsOf(s);
      FinishEffect(fate, s, ids[0], None);
      CleanupPassKeeps(fate, s1, ids[1..], if r.Ok? then done + [ids[0]] else done);
    }
  }

  lemma RecordsOf(s: Coord)
    requires Inv(s)
    ensures RecordsOk(s.core)
  {
  }

  lemma {:induction false} FinishPassKeeps(fate: Fate, s: Coord, view: View, ids: seq<nat>,
                                           done: seq<nat>)
    requires Inv(s)
    ensures var s' := FinishPass(fate, s, view, ids, done).0;
            Kept(s, s') && s'.rematchOf == s.rematchOf
            && s'.core.queue == s.core.queue && s'.core.seqNo == s.core.seqNo
    decreases |ids|
  {
    hide Inv, Bound, Mapped;
    if ids != [] {
      var result := DeriveResult(view.phase, view.winner);
      var (s1, r) := Finish(fate, s, ids[0], result);
      FinishKeeps(fate, s, ids[0], result);
      RecordsOf(s);
      FinishEffect(fate, s, ids[0], result);
      FinishPassKeeps(fate, s, view, ids[1..], done);
      FinishPassKeeps(fate, s1, view, ids[1..], if r.Ok? then done + [ids[0]] else done);
    }
  }

  lemma ReconcileKeeps(fate: Fate, s: Coord, view: Option<View>)
    requires Inv(s)
    ensures var s' := Reconcile(fate, s, view).0;
            Kept(s, s') && s'.rematchOf == s.rematchOf
            && s'.core.queue == s.core.queue && s'.core.seqNo == s.core.seqNo
  {
    hide Inv, Bound;
    AscendingOrder(s.core.matches.Keys);
    var ids := Ascending(s.core.matches.Keys);
    var toClean := PendingCleanup(s.core, s.cleaned, ids);
    CleanupPassKeeps(fate, s, toClean, []);
    var (s1, cleaned) := CleanupPass(fate, s, toClean, []);
    if view.Some? {
      FinishPassKeeps(fate, s1, view.value, PendingFinish(s.core, ids), cleaned);
    }
  }

  // ---- Restart -----------------------------------------------------------------------------

  /** Where an identity stands in the queue. */
  ghost predicate StandsAt(q: seq<Entry>, i: nat, id: Identity)
  {
    i < |q| && q[i].id == id
  }

  ghost predicate Waits(q: seq<Entry>, id: Identity)
  {
    exists i: nat :: StandsAt(q, i, id)
  }

  lemma WaitsSplit(q: seq<Entry>, id: Identity)
    requires q != []
    ensures Waits(q, id) <==> q[0].id == id || Waits(q[1..], id)
  {
    if Waits(q, id) {
      var i: nat :| StandsAt(q, i, id);
      if i > 0 { assert StandsAt(q[1..], i - 1, id); }
    }
    if q[0].id == id { assert StandsAt(q, 0, id); }
    if Waits(q[1..], id) {
      var i: nat :| StandsAt(q[1..], i, id);
      assert StandsAt(q, i + 1, id);
    }
  }

  lemma {:induction false} LoadQueueGives(q: seq<Entry>, acc: map<Identity, Entry>)
    requires Ordered(q)
    ensures var r := LoadQueue(q, acc);
            && (forall i | 0 <= i < |q| :: q[i].id in r && r[q[i].id] == q[i])
            && (forall id | id in r :: id in acc || Waits(q, id))
            && (forall id | id in acc && !Waits(q, id) :: id in r && r[id] == acc[id])
    decreases |q|
  {
    if q != [] {
      LoadQueueGives(q[1..], acc[q[0].id := q[0]]);
      assert forall i | 1 <= i < |q| :: q[1..][i - 1] == q[i];
      assert !Waits(q[1..], q[0].id);
      forall id ensures Waits(q, id) <==> q[0].id == id || Waits(q[1..], id) {
        WaitsSplit(q, id);
      }
    }
    hide Waits;
  }

  /** Loading the queue rebuilds the index that was in memory. */
  lemma LoadQueueRestores(c: Core)
    requires QueueOk(c)
    ensures LoadQueue(c.queue, map[]) == c.byIdentity
  {
    LoadQueueGives(c.queue, map[]);
    var r := LoadQueue(c.queue, map[]);
    forall id | id in c.byIdentity ensures id in r && r[id] == c.byIdentity[id] {
      var i :| 0 <= i < |c.queue| && c.queue[i] == c.byIdentity[id];
    }
  }

  function Selected(matches: map<nat, Match>, ids: seq<nat>): map<nat, Match>
    requires forall k | k in ids :: k in matches
  {
    map k | k in ids :: matches[k]
  }

  lemma SelectedStep(matches: map<nat, Match>, ids: seq<nat>, acc: map<nat, Match>)
    requires ids != [] && forall k | k in ids :: k in matches
    ensures acc[ids[0] := matches[ids[0]]] + Selected(matches, ids[1..])
         == acc + Selected(matches, ids)
  {
    assert forall k :: k in ids <==> k == ids[0] || k in ids[1..];
  }

  lemma {:induction false} LoadMatchesGives(matches: map<nat, Match>, ids: seq<nat>,
                                            acc: map<nat, Match>, index: map<Identity, nat>)
    requires forall k | k in ids :: k in matches && matches[k].id == k
    ensures LoadMatches(Records(matches, ids), acc, index).0 == acc + Selected(matches, ids)
    decreases |ids|
  {
    hide Active, Bind, PlayersOf;
    if ids != [] {
      var m := matches[ids[0]];
      var index' := if Active(m) then Bind(index, PlayersOf(m), m.id) else index;
      assert Records(matches, ids)[1..] == Records(matches, ids[1..]);
      LoadMatchesGives(matches, ids[1..], acc[m.id := m], index');
      SelectedStep(matches, ids, acc);
    }
  }

  lemma OwnIds(c: Core)
    requires RecordsOk(c)
    ensures forall k | k in Ascending(c.matches.Keys) :: k in c.matches && c.matches[k].id == k
    ensures forall k | k in c.matches :: k in Ascending(c.matches.Keys)
  {
    AscendingOrder(c.matches.Keys);
    forall k | k in c.matches ensures c.matches[k].id == k {
      assert MatchOk(k, c.matches[k]);
    }
  }

  lemma MatchesRestore(c: Core)
    requires RecordsOk(c)
    ensures LoadMatches(Snapshot(c.matches), map[], map[]).0 == c.matches
  {
    OwnIds(c);
    hide RecordsOk, LoadMatches;
    var ids := Ascending(c.matches.Keys);
    LoadMatchesGives(c.matches, ids, map[], map[]);
    assert map[] + Selected(c.matches, ids) == c.matches;
  }

  /** A restart may only change the identity index. */
  lemma RestartForgets(s: Coord)
    requires Inv(s)
    ensures var c := Restart(s).core;
            c == s.core.(identityMatch := c.identityMatch) && Restart(s) == s.(core := c)
  {
    hide QueueOk, RecordsOk, Fleet, LogOk, BookOk, LoadMatches, LoadQueue, Settled, Snapshot;
    LoadQueueRestores(s.core);
    MatchesRestore(s.core);
  }

  predicate PlaysIn(c: Core, k: nat, p: Identity)
  {
    k in c.matches && Active(c.matches[k]) && p in PlayersOf(c.matches[k])
  }

  /** The identity index says of everybody the newest active match, and of nobody else
      anything. */
  ghost predicate Newest(c: Core)
  {
    && (forall p | p in c.identityMatch ::
          PlaysIn(c, c.identityMatch[p], p)
          && forall k | PlaysIn(c, k, p) :: k <= c.identityMatch[p])
    && (forall k, p | PlaysIn(c, k, p) :: p in c.identityMatch)
  }

  /** What the file makes of the index: for each player the last match loaded. */
  lemma {:induction false} LoadedIndex(c: Core, ids: seq<nat>, acc: map<nat, Match>,
                                       index: map<Identity, nat>, p: Identity)
    requires forall k | k in ids :: k in c.matches && c.matches[k].id == k
    requires forall i, j | 0 <= i < j < |ids| :: ids[i] < ids[j]
    ensures var r := LoadMatches(Records(c.matches, ids), acc, index).1;
            if exists k :: k in ids && PlaysIn(c, k, p)
            then p in r && r[p] in ids && PlaysIn(c, r[p], p)
                 && forall k | k in ids && PlaysIn(c, k, p) :: k <= r[p]
            else (p in r <==> p in index) && (p in r ==> r[p] == index[p])
    decreases |ids|
  {
    hide LoadMatches, PlaysIn, Active, Bind, PlayersOf, Records;
    if ids == [] {
      LoadNothing(c, acc, index);
    } else {
      var m := c.matches[ids[0]];
      var index' := if Active(m) then Bind(index, PlayersOf(m), m.id) else index;
      LoadStep(c, ids, acc, index);
      BindStep(c, ids[0], index, p);
      LoadedIndex(c, ids[1..], acc[m.id := m], index', p);
      assert forall k :: k in ids <==> k == ids[0] || k in ids[1..];
      assert forall k | k in ids[1..] :: ids[0] < k;
    }
  }

  lemma LoadNothing(c: Core, acc: map<nat, Match>, index: map<Identity, nat>)
    ensures LoadMatches(Records(c.matches, []), acc, index) == (acc, index)
  {
  }

  lemma LoadStep(c: Core, ids: seq<nat>, acc: map<nat, Match>, index: map<Identity, nat>)
    requires ids != [] && forall k | k in ids :: k in c.matches && c.matches[k].id == k
    ensures var m := c.matches[ids[0]];
            LoadMatches(Records(c.matches, ids), acc, index)
            == LoadMatches(Records(c.matches, ids[1..]), acc[m.id := m],
                           if Active(m) then Bind(index, PlayersOf(m), m.id) else index)
  {
    assert Records(c.matches, ids)[1..] == Records(c.matches, ids[1..]);
  }

  lemma BindStep(c: Core, k: nat, index: map<Identity, nat>, p: Identity)
    requires k in c.matches && c.matches[k].id == k
    ensures var m := c.matches[k];
            var index' := if Active(m) then Bind(index, PlayersOf(m), m.id) else index;
            && (p in index' <==> p in index || PlaysIn(c, k, p))
            && (p in index' ==> index'[p] == if PlaysIn(c, k, p) then k else index[p])
  {
  }

  /** `r` is the index the file yields. */
  ghost predicate FromFile(c: Core, r: map<Identity, nat>)
  {
    && (forall p | p in r :: PlaysIn(c, r[p], p) && forall k | PlaysIn(c, k, p) :: k <= r[p])
    && (forall k, p | PlaysIn(c, k, p) :: p in r)
  }

  lemma FileIndex(c: Core)
    requires RecordsOk(c)
    ensures FromFile(c, LoadMatches(Snapshot(c.matches), map[], map[]).1)
  {
    var ids := Ascending(c.matches.Keys);
    AscendingOrder(c.matches.Keys);
    OwnIds(c);
    hide LoadMatches, PlaysIn, RecordsOk;
    var r := LoadMatches(Records(c.matches, ids), map[], map[]).1;
    forall k, p | PlaysIn(c, k, p) ensures k in ids { PlaysInMatch(c, k, p); }
    forall p | p in r ensures PlaysIn(c, r[p], p) && forall k | PlaysIn(c, k, p) :: k <= r[p] {
      LoadedIndex(c, ids, map[], map[], p);
    }
    forall k, p | PlaysIn(c, k, p) ensures p in r {
      LoadedIndex(c, ids, map[], map[], p);
    }
  }

  /** There is only one such index. */
  lemma OneIndex(c: Core, r: map<Identity, nat>)
    requires FromFile(c, r)
    ensures r == c.identityMatch <==> Newest(c)
  {
    hide PlaysIn;
    if Newest(c) {
      forall p | p in c.identityMatch ensures p in r && r[p] == c.identityMatch[p] {
        assert PlaysIn(c, c.identityMatch[p], p);
      }
    }
  }

  lemma PlaysInMatch(c: Core, k: nat, p: Identity)
    requires PlaysIn(c, k, p)
    ensures k in c.matches
  {
  }

  lemma BoundIsNewest(c: Core)
    requires Bound(c)
    ensures Newest(c)
  {
  }

  /** The exact condition for a restart between operations to go unnoticed, in every
      reachable state: the index names everybody's newest active match. It holds after every
      disciplined run; a rematch of players who are not free can break it. */
  lemma RestartUnobservableIff(s: Coord)
    requires Inv(s)
    ensures Restart(s) == s <==> Newest(s.core)
  {
    RestartForgets(s);
    FileIndex(s.core);
    OneIndex(s.core, LoadMatches(Snapshot(s.core.matches), map[], map[]).1);
    assert Restart(s).core.identityMatch == LoadMatches(Snapshot(s.core.matches), map[], map[]).1;
    hide Newest, FromFile, LoadMatches, Snapshot;
  }

  /** Restarting between operations is unobservable: the file rebuilds queue, matches,
      both index maps, counters and books exactly. */
  lemma RestartUnobservable(s: Coord)
    requires Inv(s) && Bound(s.core)
    ensures Restart(s) == s
  {
    BoundIsNewest(s.core);
    RestartUnobservableIff(s);
  }

  lemma RestartKeeps(s: Coord)
    requires Inv(s)
    ensures Kept(s, Restart(s))
  {
    RestartForgets(s);
    var c := Restart(s).core;
    SameMatches(s.core, c, s.net, s.cleaned, s.rematchOf);
    if Bound(s.core) { RestartUnobservable(s); }
  }

  // ---- Whole runs --------------------------------------------------------------------------

  predicate Allowed(s: Coord, op: Op)
  {
    op.OpRematch? ==> RematchAllowed(s, op.source)
  }

  /** Every new rematch of the run is made while its players are free. */
  ghost predicate Disciplined(fate: Fate, s: Coord, ops: seq<Op>)
    decreases |ops|
  {
    ops == [] || (Allowed(s, ops[0]) && Disciplined(fate, Apply(fate, s, ops[0]), ops[1..]))
  }

  lemma ApplyKeeps(fate: Fate, s: Coord, op: Op)
    requires Inv(s)
    ensures Inv(Apply(fate, s, op))
    ensures Bound(s.core) && Allowed(s, op) ==> Bound(Apply(fate, s, op).core)
  {
    hide Inv, Bound, RematchAllowed;
    match op
    case OpJoin(id, mode, size, now) => JoinKeeps(fate, s, id, mode, size, now);
    case OpLeave(id) => LeaveQueueKeeps(s, id);
    case OpFinish(k, result) => FinishKeeps(fate, s, k, result);
    case OpRematch(source, now) => RematchKeeps(fate, s, source, now);
    case OpReconcile(view) => ReconcileKeeps(fate, s, view);
    case OpRestart => RestartKeeps(s);
  }

  lemma BootOk(teamSize: TeamSize, teamsPerMatch: TeamCount, allowTeams: bool)
    ensures var s := Boot(teamSize, teamsPerMatch, allowTeams); Inv(s) && Bound(s.core)
  {
  }

  /** In every run, at every moment between operations: no orphan worlds, no zombie was
      ever started, the books are true, and memory is what the file says. */
  lemma {:induction false} RunKeeps(fate: Fate, s: Coord, ops: seq<Op>)
    requires Inv(s)
    ensures Inv(Run(fate, s, ops))
    decreases |ops|
  {
    hide Inv;
    if ops != [] {
      ApplyKeeps(fate, s, ops[0]);
      RunKeeps(fate, Apply(fate, s, ops[0]), ops[1..]);
    }
  }

  /** In every disciplined run each identity is in at most one slot or one active match
      and the index maps say exactly where; a restart then changes nothing at all. */
  lemma {:induction false} DisciplinedRunKeeps(fate: Fate, s: Coord, ops: seq<Op>)
    requires Inv(s) && Bound(s.core) && Disciplined(fate, s, ops)
    ensures var s' := Run(fate, s, ops);
            Inv(s') && Bound(s'.core) && Restart(s') == s'
    decreases |ops|
  {
    hide Inv, Bound, Allowed;
    if ops == [] {
      RestartUnobservable(s);
    } else {
      ApplyKeeps(fate, s, ops[0]);
      DisciplinedRunKeeps(fate, Apply(fate, s, ops[0]), ops[1..]);
    }
  }
}
