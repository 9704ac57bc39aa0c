/** Reconcile is pure set difference: after one run whose stops succeed nothing is left to
    stop, after two nothing is left to do. */
module ParkedConverge {
  import opened Naming
  import opened ParkedModel
  import opened ParkedSafety

  // ---- What discovery says -----------------------------------------------------------------

  ghost predicate Seen(env: string, rows: seq<Row>, id: Id)
  {
    exists i | 0 <= i < |rows| :: Own(env, rows[i]) && rows[i].instance == id
  }

  ghost predicate Distinct(ids: seq<Id>)
  {
    forall i, j | 0 <= i < j < |ids| :: ids[i] != ids[j]
  }

  lemma {:induction false} DiscoveredGives(env: string, rows: seq<Row>)
    ensures var ids := Discovered(env, rows);
            && (forall id :: id in ids <==> id != "" && Seen(env, rows, id))
            && Distinct(ids)
    decreases |rows|
  {
    if rows != [] {
      var n := |rows| - 1;
      DiscoveredGives(env, rows[..n]);
      forall id ensures id in Discovered(env, rows) <==>
                        id in Discovered(env, rows[..n])
                        || (Own(env, rows[n]) && rows[n].instance == id && id != "")
      {
      }
      forall id ensures Seen(env, rows, id) <==>
                        Seen(env, rows[..n], id) || (Own(env, rows[n]) && rows[n].instance == id)
      {
        if Seen(env, rows[..n], id) {
          var i :| 0 <= i < n && Own(env, rows[..n][i]) && rows[..n][i].instance == id;
          assert Own(env, rows[i]) && rows[i].instance == id;
        }
        if Seen(env, rows, id) {
          var i :| 0 <= i < |rows| && Own(env, rows[i]) && rows[i].instance == id;
          if i < n { assert rows[..n][i] == rows[i]; }
        }
      }
    }
  }

  /** The containers left once the instances `gone` of the own environment are stopped. */
  function Surviving(env: string, rows: seq<Row>, gone: seq<Id>): seq<Row>
  {
    if rows == [] then []
    else
      var rest := Surviving(env, rows[..|rows| - 1], gone);
      var r := rows[|rows| - 1];
      if Own(env, r) && r.instance in gone then rest else rest + [r]
  }

  lemma {:induction false} SurvivingGives(env: string, rows: seq<Row>, gone: seq<Id>)
    ensures forall r :: r in Surviving(env, rows, gone)
                        <==> r in rows && !(Own(env, r) && r.instance in gone)
    decreases |rows|
  {
    if rows != [] {
      var n := |rows| - 1;
      SurvivingGives(env, rows[..n], gone);
      assert rows == rows[..n] + [rows[n]];
      assert forall r :: r in rows <==> r in rows[..n] || r == rows[n];
    }
  }

  lemma SeenIsIn(env: string, rows: seq<Row>, id: Id)
    ensures Seen(env, rows, id) <==> exists r :: r in rows && Own(env, r) && r.instance == id
    ensures Running(env, rows, id) <==> exists r :: r in rows && Own(env, r) && r.instance == id && r.up
  {
    forall r | r in rows && Own(env, r) && r.instance == id
      ensures Seen(env, rows, id) && (r.up ==> Running(env, rows, id))
    {
      var i :| 0 <= i < |rows| && rows[i] == r;
    }
    if Seen(env, rows, id) {
      var i :| 0 <= i < |rows| && Own(env, rows[i]) && rows[i].instance == id;
      assert rows[i] in rows;
    }
    if Running(env, rows, id) {
      var i :| 0 <= i < |rows| && Own(env, rows[i]) && rows[i].instance == id && rows[i].up;
      assert rows[i] in rows;
    }
  }

  /** Stopping some instances takes exactly those out of the next discovery. */
  lemma NextDiscovery(env: string, rows: seq<Row>, gone: seq<Id>, id: Id)
    ensures var rows' := Surviving(env, rows, gone);
            && (id in Discovered(env, rows') <==> id in Discovered(env, rows) && id !in gone)
            && (id !in gone ==> (Running(env, rows', id) <==> Running(env, rows, id)))
  {
    var rows' := Surviving(env, rows, gone);
    SurvivingGives(env, rows, gone);
    DiscoveredGives(env, rows);
    DiscoveredGives(env, rows');
    SeenIsIn(env, rows, id);
    SeenIsIn(env, rows', id);
    hide Seen, Running, Surviving, Discovered, Own;
  }

  // ---- One pass over the discovered instances ------------------------------------------------

  /** Tracked as alive, not marked, and nothing of it runs. */
  predicate Stale(p: Pool, rows: seq<Row>, k: Key)
  {
    k in p.entries && !Marked(p, k) && p.entries[k].status != Stopped && !Running(p.env, rows, k.1)
  }

  /** To be stopped: unmarked, and untracked, tracked as stopped, or stale. */
  predicate Surplus(p: Pool, rows: seq<Row>, id: Id)
  {
    var k := (p.env, id);
    !Marked(p, k) && (k !in p.entries || p.entries[k].status == Stopped || Stale(p, rows, k))
  }

  predicate Granted(fate: Fate, from: nat, to: nat)
  {
    forall c | from <= c < to :: fate(c).Fine?
  }

  /** `p'` has lost exactly the entries that `gone` names. */
  ghost predicate Lost(p: Pool, p': Pool, gone: iset<Key>)
  {
    && p'.markers == p.markers && p'.env == p.env
    && (forall k :: k in p'.entries <==> k in p.entries && k !in gone)
    && (forall k | k in p'.entries :: p'.entries[k] == p.entries[k])
  }

  lemma ReconcileOneEffect(fate: Fate, p: Pool, rows: seq<Row>, id: Id, r: Report)
    ensures var up := Running(p.env, rows, id);
            var (p', r') := ReconcileOne(fate, p, id, up, r);
            && Lost(p, p', iset k | k == (p.env, id) && Stale(p, rows, k))
            && p.calls <= p'.calls
            && (Granted(fate, p.calls, p'.calls) ==>
                  r'.removed == (if Surplus(p, rows, id) then r.removed + [id] else r.removed))
            && (!Surplus(p, rows, id) ==> p' == p && r'.removed == r.removed && r'.evicted == r.evicted)
  {
    var k := (p.env, id);
    if !Marked(p, k) {
      ClearAbsent(AskStop(p, k, OrphanRemoval), k);
      ClearAbsent(AskStop(Evict(p, k), k, OrphanRemoval), k);
    }
  }

  /** The two halves of a pass, glued: the head's loss and the loss of the rest. */
  lemma LostJoins(p: Pool, p1: Pool, p': Pool, rows: seq<Row>, ids: seq<Id>)
    requires ids != [] && Distinct(ids)
    requires Lost(p, p1, iset k | k == (p.env, ids[0]) && Stale(p, rows, k))
    requires Lost(p1, p', iset k: Key | k.0 == p.env && k.1 in ids[1..] && Stale(p1, rows, k))
    ensures Lost(p, p', iset k: Key | k.0 == p.env && k.1 in ids && Stale(p, rows, k))
  {
    MarkedSame(p, p1);
    hide Running, Marked;
    assert forall id :: id in ids <==> id == ids[0] || id in ids[1..];
  }

  lemma SurplusElsewhere(p: Pool, p1: Pool, rows: seq<Row>, id: Id, other: Id)
    requires Lost(p, p1, iset k | k == (p.env, id) && Stale(p, rows, k)) && other != id
    ensures Surplus(p1, rows, other) <==> Surplus(p, rows, other)
  {
    MarkedSame(p, p1);
    hide Running, Marked;
    assert (p.env, other) in p.entries <==> (p.env, other) in p1.entries;
  }

  lemma {:induction false} ReconcileEachEffect(fate: Fate, p: Pool, rows: seq<Row>, ids: seq<Id>,
                                               r: Report)
    requires Distinct(ids)
    ensures var (p', r') := ReconcileEach(fate, p, rows, ids, r);
            && Lost(p, p', iset k: Key | k.0 == p.env && k.1 in ids && Stale(p, rows, k))
            && p.calls <= p'.calls
            && (Granted(fate, p.calls, p'.calls) ==>
                  forall id :: id in r'.removed <==>
                               id in r.removed || (id in ids && Surplus(p, rows, id)))
    decreases |ids|
  {
    hide Running, ReconcileOne, Marked, Stale, Surplus, Lost;
    if ids == [] {
      LostNothing(p);
      assert (iset k: Key | k.0 == p.env && k.1 in ids && Stale(p, rows, k)) == iset{};
    } else {
      var up := Running(p.env, rows, ids[0]);
      ReconcileOneEffect(fate, p, rows, ids[0], r);
      var (p1, r1) := ReconcileOne(fate, p, ids[0], up, r);
      LostKeepsEnv(p, p1, iset k | k == (p.env, ids[0]) && Stale(p, rows, k));
      DistinctRest(ids);
      ReconcileEachEffect(fate, p1, rows, ids[1..], r1);
      var (p', r') := ReconcileEach(fate, p1, rows, ids[1..], r1);
      LostJoins(p, p1, p', rows, ids);
      forall id | id != ids[0] ensures Surplus(p1, rows, id) <==> Surplus(p, rows, id) {
        SurplusElsewhere(p, p1, rows, ids[0], id);
      }
      assert forall id :: id in ids <==> id == ids[0] || id in ids[1..];
    }
  }

  lemma LostNothing(p: Pool)
    ensures Lost(p, p, iset{})
  {
  }

  lemma LostKeepsEnv(p: Pool, p': Pool, gone: iset<Key>)
    requires Lost(p, p', gone)
    ensures p'.env == p.env
  {
  }

  lemma DistinctRest(ids: seq<Id>)
    requires Distinct(ids) && ids != []
    ensures Distinct(ids[1..]) && ids[0] !in ids[1..]
  {
    assert forall i | 0 <= i < |ids[1..]| :: ids[1..][i] == ids[i + 1];
  }

  lemma MarkedSame(p: Pool, p': Pool)
    requires p'.markers == p.markers
    ensures forall k :: Marked(p', k) <==> Marked(p, k)
  {
  }

  /** Nothing surplus: the pass asks nobody and changes nothing. */
  lemma {:induction false} ReconcileEachIdle(fate: Fate, p: Pool, rows: seq<Row>, ids: seq<Id>,
                                             r: Report)
    requires forall id | id in ids :: !Surplus(p, rows, id)
    ensures var (p', r') := ReconcileEach(fate, p, rows, ids, r);
            p' == p && r'.removed == r.removed && r'.evicted == r.evicted
    decreases |ids|
  {
    hide Running, ReconcileOne, Marked, Surplus;
    if ids != [] {
      var up := Running(p.env, rows, ids[0]);
      ReconcileOneEffect(fate, p, rows, ids[0], r);
      ReconcileEachIdle(fate, p, rows, ids[1..], ReconcileOne(fate, p, ids[0], up, r).1);
    }
  }

  // ---- The pass over what was not discovered ------------------------------------------------------

  predicate Missing(p: Pool, discovered: seq<Id>, k: Key)
  {
    k.0 == p.env && k.1 !in discovered && !Marked(p, k)
  }

  lemma {:induction false} EvictMissingEffect(p: Pool, keys: seq<Key>, discovered: seq<Id>, r: Report)
    ensures var (p', r') := EvictMissing(p, keys, discovered, r);
            && Lost(p, p', iset k | k in keys && Missing(p, discovered, k))
            && p' == p.(entries := p'.entries, order := p'.order)
            && r'.removed == r.removed
    decreases |keys|
  {
    hide Marked;
    if keys != [] {
      var k := keys[0];
      assert forall j :: j in keys <==> j == k || j in keys[1..];
      if !Missing(p, discovered, k) {
        EvictMissingEffect(p, keys[1..], discovered, r);
      } else {
        var p1 := Evict(p, k);
        EvictMissingEffect(p1, keys[1..], discovered, r.(evicted := r.evicted + [k.1]));
        MarkedSame(p, p1);
      }
    }
  }

  lemma {:induction false} EvictMissingIdle(p: Pool, keys: seq<Key>, discovered: seq<Id>, r: Report)
    requires forall k | k in keys :: !Missing(p, discovered, k)
    ensures EvictMissing(p, keys, discovered, r) == (p, r)
    decreases |keys|
  {
    if keys != [] {
      assert keys[0] in keys && !Missing(p, discovered, keys[0]);
      EvictMissingIdle(p, keys[1..], discovered, r);
    }
  }

  // ---- One run ------------------------------------------------------------------------------------

  /** An entry survives a run if it belongs elsewhere, is marked, or was discovered and is
      stopped or running. */
  predicate Survives(p: Pool, rows: seq<Row>, k: Key)
  {
    || k.0 != p.env || Marked(p, k)
    || (k.1 in Discovered(p.env, rows) && k in p.entries
        && (p.entries[k].status == Stopped || Running(p.env, rows, k.1)))
  }

  /** What one successful discovery leaves of the entries and, if all its stops succeed,
      which instances it removes: both read off the state before. */
  lemma ReconcileEffect(fate: Fate, p: Pool, rows: seq<Row>)
    requires Listed(p)
    ensures var (p', r') := Reconcile(fate, p, Some(rows));
            && Lost(p, p', iset k: Key | !Survives(p, rows, k))
            && p.calls <= p'.calls
            && (Granted(fate, p.calls, p'.calls) ==>
                  forall id :: id in r'.removed <==>
                               id in Discovered(p.env, rows) && Surplus(p, rows, id))
  {
    var ids := Discovered(p.env, rows);
    DiscoveredGives(p.env, rows);
    hide Running, Marked, Discovered, Seen;
    var r := Report([], [], [], 0, Foreign(p.env, rows), false, 0);
    ReconcileEachEffect(fate, p, rows, ids, r);
    ListedAfter(fate, p, rows, ids, r);
    var (p1, r1) := ReconcileEach(fate, p, rows, ids, r);
    EvictMissingEffect(p1, p1.order, ids, r1);
    MarkedSame(p, p1);
  }

  lemma {:induction false} ListedAfter(fate: Fate, p: Pool, rows: seq<Row>, ids: seq<Id>, r: Report)
    requires Listed(p)
    ensures Listed(ReconcileEach(fate, p, rows, ids, r).0)
    decreases |ids|
  {
    hide Running;
    if ids != [] {
      var up := Running(p.env, rows, ids[0]);
      WithoutGives(p.order, (p.env, ids[0]));
      var (p1, r1) := ReconcileOne(fate, p, ids[0], up, r);
      ListedAfter(fate, p1, rows, ids[1..], r1);
    }
  }

  lemma {:induction false} ListedEvict(p: Pool, keys: seq<Key>, discovered: seq<Id>, r: Report)
    requires Listed(p)
    ensures Listed(EvictMissing(p, keys, discovered, r).0)
    decreases |keys|
  {
    if keys != [] {
      var k := keys[0];
      ListedEvict(p, keys[1..], discovered, r);
      WithoutGives(p.order, k);
      ListedEvict(Evict(p, k), keys[1..], discovered, r.(evicted := r.evicted + [k.1]));
    }
  }

  lemma ReconcileListed(fate: Fate, p: Pool, rows: seq<Row>)
    requires Listed(p)
    ensures Listed(Reconcile(fate, p, Some(rows)).0)
  {
    hide Listed;
    var ids := Discovered(p.env, rows);
    var r := Report([], [], [], 0, Foreign(p.env, rows), false, 0);
    ListedAfter(fate, p, rows, ids, r);
    var (p1, r1) := ReconcileEach(fate, p, rows, ids, r);
    ListedEvict(p1, p1.order, ids, r1);
  }

  // ---- Convergence ----------------------------------------------------------------------------------

  /** After one run with successful discovery and stops, everything of the own environment
      that is still there is marked, or tracked, not stopped and running. */
  lemma OneRunSuffices(fate: Fate, p: Pool, rows: seq<Row>)
    requires Listed(p)
    requires Granted(fate, p.calls, Reconcile(fate, p, Some(rows)).0.calls)
    ensures var (p', r') := Reconcile(fate, p, Some(rows));
            var rows' := Surviving(p.env, rows, r'.removed);
            forall id | id in Discovered(p.env, rows') ::
              var k := (p.env, id);
              Marked(p', k) || (k in p'.entries && p'.entries[k].status != Stopped
                                && Running(p.env, rows', id))
  {
    ReconcileEffect(fate, p, rows);
    var (p', r') := Reconcile(fate, p, Some(rows));
    var rows' := Surviving(p.env, rows, r'.removed);
    hide Running, Marked, Discovered, Surviving, Reconcile;
    MarkedSame(p, p');
    forall id | id in Discovered(p.env, rows')
      ensures var k := (p.env, id);
              Marked(p', k) || (k in p'.entries && p'.entries[k].status != Stopped
                                && Running(p.env, rows', id))
    {
      NextDiscovery(p.env, rows, r'.removed, id);
      var k := (p.env, id);
      assert !Surplus(p, rows, id);
      if !Marked(p, k) { assert Survives(p, rows, k); }
    }
  }

  /** Over the containers that remain, a second run stops nothing (it may still forget
      entries whose container is gone) and a third changes nothing whatever. */
  lemma SecondStopsNothingThirdChangesNothing(fate: Fate, p: Pool, rows: seq<Row>)
    requires Listed(p)
    requires Granted(fate, p.calls, Reconcile(fate, p, Some(rows)).0.calls)
    ensures var (p1, r1) := Reconcile(fate, p, Some(rows));
            var rows1 := Surviving(p.env, rows, r1.removed);
            var (p2, r2) := Reconcile(fate, p1, Some(rows1));
            var (p3, r3) := Reconcile(fate, p2, Some(rows1));
            && r2.removed == [] && p2.log == p1.log && p2.calls == p1.calls
            && p2.markers == p1.markers
            && p3 == p2 && r3.removed == [] && r3.evicted == []
  {
    OneRunSuffices(fate, p, rows);
    ReconcileEffect(fate, p, rows);
    ReconcileListed(fate, p, rows);
    var (p1, r1) := Reconcile(fate, p, Some(rows));
    var rows1 := Surviving(p.env, rows, r1.removed);
    hide Running, Marked, Discovered, Surviving, Reconcile, Listed;
    IdleRun(fate, p1, rows1);
    ReconcileListed(fate, p1, rows1);
    var (p2, r2) := Reconcile(fate, p1, Some(rows1));
    IdleRun(fate, p2, rows1);
    SettledRun(fate, p1, rows1);
  }

  /** Everything discovered is marked, or tracked, not stopped and running. */
  ghost predicate Tidy(p: Pool, rows: seq<Row>)
  {
    forall id | id in Discovered(p.env, rows) ::
      var k := (p.env, id);
      Marked(p, k) || (k in p.entries && p.entries[k].status != Stopped && Running(p.env, rows, id))
  }

  /** Over tidy containers a run makes no call and keeps them tidy. */
  lemma IdleRun(fate: Fate, p: Pool, rows: seq<Row>)
    requires Listed(p) && Tidy(p, rows)
    ensures var (p', r') := Reconcile(fate, p, Some(rows));
            && r'.removed == [] && p' == p.(entries := p'.entries, order := p'.order)
            && Tidy(p', rows)
            && p' == EvictMissing(p, p.order, Discovered(p.env, rows),
                                  ReconcileEach(fate, p, rows, Discovered(p.env, rows),
                                    Report([], [], [], 0, Foreign(p.env, rows), false, 0)).1).0
            && r'.evicted == EvictMissing(p, p.order, Discovered(p.env, rows),
                                  ReconcileEach(fate, p, rows, Discovered(p.env, rows),
                                    Report([], [], [], 0, Foreign(p.env, rows), false, 0)).1).1.evicted
            && ReconcileEach(fate, p, rows, Discovered(p.env, rows),
                             Report([], [], [], 0, Foreign(p.env, rows), false, 0)).1.evicted == []
  {
    hide Running, Marked, Discovered, Listed;
    var ids := Discovered(p.env, rows);
    var r := Report([], [], [], 0, Foreign(p.env, rows), false, 0);
    forall id | id in ids ensures !Surplus(p, rows, id) {
    }
    ReconcileEachIdle(fate, p, rows, ids, r);
    var r1 := ReconcileEach(fate, p, rows, ids, r).1;
    EvictMissingEffect(p, p.order, ids, r1);
    MarkedSame(p, EvictMissing(p, p.order, ids, r1).0);
  }

  /** A run over tidy containers leaves nothing for the next one. */
  lemma SettledRun(fate: Fate, p: Pool, rows: seq<Row>)
    requires Listed(p) && Tidy(p, rows)
    ensures var p' := Reconcile(fate, p, Some(rows)).0;
            var (p'', r'') := Reconcile(fate, p', Some(rows));
            p'' == p' && r''.evicted == []
  {
    IdleRun(fate, p, rows);
    ReconcileEffect(fate, p, rows);
    ReconcileListed(fate, p, rows);
    var p' := Reconcile(fate, p, Some(rows)).0;
    IdleRun(fate, p', rows);
    var ids := Discovered(p.env, rows);
    forall k | k in p'.order ensures !Missing(p', ids, k) {
      assert k in p'.entries && Survives(p, rows, k);
    }
    var r1 := ReconcileEach(fate, p', rows, ids,
                            Report([], [], [], 0, Foreign(p.env, rows), false, 0)).1;
    EvictMissingIdle(p', p'.order, ids, r1);
  }

  // ---- Foreign environments ----------------------------------------------------------------------------

  /** The provisioner is only ever asked about the own environment. */
  ghost predicate OwnCalls(p: Pool)
  {
    forall i | 0 <= i < |p.log| :: p.log[i].key.0 == p.env
  }

  lemma {:induction false} ReconcileEachOwn(fate: Fate, p: Pool, rows: seq<Row>, ids: seq<Id>, r: Report)
    requires OwnCalls(p)
    ensures var p' := ReconcileEach(fate, p, rows, ids, r).0;
            OwnCalls(p') && p'.env == p.env
            && forall k: Key | k.0 != p.env :: (k in p'.entries <==> k in p.entries)
                                                && (k in p.entries ==> p'.entries[k] == p.entries[k])
    decreases |ids|
  {
    hide Running, Marked;
    if ids != [] {
      var up := Running(p.env, rows, ids[0]);
      var (p1, r1) := ReconcileOne(fate, p, ids[0], up, r);
      ReconcileEachOwn(fate, p1, rows, ids[1..], r1);
    }
  }

  /** Reconcile stops and forgets nothing of another environment. */
  lemma ForeignUntouched(fate: Fate, p: Pool, rows: seq<Row>)
    requires OwnCalls(p)
    ensures var p' := Reconcile(fate, p, Some(rows)).0;
            OwnCalls(p')
            && forall k: Key | k.0 != p.env :: (k in p'.entries <==> k in p.entries)
                                                && (k in p.entries ==> p'.entries[k] == p.entries[k])
  {
    var ids := Discovered(p.env, rows);
    var r := Report([], [], [], 0, Foreign(p.env, rows), false, 0);
    ReconcileEachOwn(fate, p, rows, ids, r);
    var (p1, r1) := ReconcileEach(fate, p, rows, ids, r);
    EvictMissingEffect(p1, p1.order, ids, r1);
    hide ReconcileEach, EvictMissing, Discovered;
  }
}
