/** The attack cycle as the object it is. Each critical section is proved to be the
    transition of AttackModel, and a step or a resolver pass that nobody interrupts is a run
    of them; other interleavings are the other runs. */
module AttackCycle {
  import opened Naming
  import opened AttackModel
  import opened AttackRuns
  import M = AttackModel

  class AttackCycle {
    const cfg: Config
    var t: Timers
    var toggles: Toggles
    var orders: seq<int>
    var bought: seq<int>
    var outgoing: seq<int>
    var enemy: seq<int>
    var startEpoch: Option<int>
    var signaled: bool
    ghost var resolver: Resolver
    ghost var main: Main
    ghost var h: History

    ghost function Abs(): Cycle
      reads this
    {
      Cycle(t, toggles, orders, bought, outgoing, enemy, startEpoch, signaled, resolver, main, h)
    }

    constructor (cfg: Config, toggles: Toggles)
      ensures this.cfg == cfg && Abs() == Boot(toggles)
    {
      this.cfg, this.toggles := cfg, toggles;
      t, orders, bought, outgoing, enemy := IDLE, [], [], [], [];
      startEpoch, signaled := None, false;
      resolver, main, h := Resting, Between, NOTHING;
    }

    // ---- Round control -----------------------------------------------------------------

    method ClearRound()
      modifies this
      ensures Abs() == M.ClearRound(old(Abs()))
    {
      h := h.(discarded := h.discarded + orders, settled := h.settled + Tag(bought, Cleared),
              mark := |h.settled + Tag(bought, Cleared)|);
      t := IDLE.(phase := t.phase);
      orders, bought, outgoing, enemy := [], [], [], [];
    }

    method SignalStart(now: int, ghost cause: Option<int>) returns (started: bool)
      modifies this
      ensures (Abs(), started) == M.SignalStart(cfg, old(Abs()), now, cause)
    {
      if t.phase != Paused {
        return false;
      }
      ClearRound();
      t := t.(phase := Warmup, warmupEnd := Some(now + cfg.warmup));
      h := h.(left := h.left + [cause]);
      return true;
    }

    method Reset()
      modifies this
      ensures Abs() == M.Reset(old(Abs()))
    {
      ClearRound();
      t := t.(phase := Paused);
    }

    /** `sync_start`. */
    method SyncStart(now: int) returns (started: bool)
      modifies this
      ensures Abs() == ApplySignal(cfg, old(Abs()), now)
    {
      if !signaled {
        return false;
      }
      signaled := false;
      started := SignalStart(now, startEpoch);
    }

    method NoteStartSignal(epoch: Option<int>, start: bool)
      modifies this
      ensures Abs() == NoteSignal(old(Abs()), epoch, start)
    {
      if epoch.Some? {
        if epoch.value > 0 && epoch != startEpoch {
          startEpoch, signaled := epoch, true;
        }
      } else if start {
        signaled := true;
      }
    }

    // ---- Purchases -------------------------------------------------------------------------

    method Buy(level: int) returns (status: int, orderCount: nat)
      modifies this
      ensures Abs() == BuyWave(old(Abs()), level)
      ensures status == if KnownWave(level) then 200 else 400
      ensures KnownWave(level) ==> orderCount == |old(orders)| + 1
    {
      if !KnownWave(level) {
        return 400, |orders|;
      }
      orders := orders + [level];
      h := h.(asked := h.asked + [level]);
      return 200, |orders|;
    }

    /** `_resolve_orders`: copy and empty the order list, then pay one by one. */
    method ResolveOrders(answers: nat -> bool)
      requires resolver.Resting?
      modifies this
      ensures Abs() == ResolveAll(cfg, Apply(cfg, old(Abs()), TakeOrders), answers, 0)
    {
      var copy := orders;
      orders := [];
      resolver := Pay(copy);
      ghost var goal := ResolveAll(cfg, Abs(), answers, 0);
      for i := 0 to |copy|
        invariant TodoLeft(Abs()) == copy[i..] && resolver == Pay(copy[i..])
        invariant ResolveAll(cfg, Abs(), answers, i) == goal
      {
        assert copy[i..][0] == copy[i] && copy[i..][1..] == copy[i + 1..];
        hide ResolveOne;
        assert [copy[i]] + copy[i + 1..] == copy[i..];
        ResolveOrder(copy[i], copy[i + 1..], answers(i));
      }
    }

    /** One order: paid and appended to the bought queue, or dropped. */
    method ResolveOrder(level: int, ghost rest: seq<int>, ok: bool)
      requires resolver == Paying([level] + rest)
      modifies this
      ensures Abs() == ResolveOne(cfg, old(Abs()), ok)
      ensures resolver == Pay(rest)
    {
      assert ([level] + rest)[1..] == rest;
      if ok {
        h := h.(paid := h.paid + [level], carbonium := h.carbonium + Cost(level));
        bought := bought + [level];
      } else {
        h := h.(refused := h.refused + [level]);
      }
      resolver := Pay(rest);
    }

    // ---- One step ----------------------------------------------------------------------------

    method EnterGameOver()
      modifies this
      ensures Abs() == M.EnterGameOver(old(Abs()))
    {
      t := t.(phase := GameOver, nextAttack := None, nextDifficulty := None, nextEvent := None,
              warmupEnd := None);
    }

    /** The difficulty loop. */
    method RaiseDifficulty(now: int)
      modifies this`t
      ensures t == Escalate(cfg, old(t), now)
    {
      ghost var goal := Escalate(cfg, t, now);
      while t.nextDifficulty.Some? && now >= t.nextDifficulty.value && t.level < cfg.maxLevel
        invariant Escalate(cfg, t, now) == goal
        decreases cfg.maxLevel - t.level
      {
        t := t.(level := t.level + 1,
                nextDifficulty := Some(t.nextDifficulty.value + Duration(cfg, t.level + 1)));
      }
    }

    /** Own purchases fired one by one, or only tracked. */
    method SendOwn(sent: seq<int>, toSelf: bool, ghost toEnemy: bool)
      requires main == if toSelf then Firing(sent, sent, toEnemy) else Tracking(sent, toEnemy)
      modifies this
      ensures Finish(cfg, Abs()) == Finish(cfg, old(Abs()))
      ensures main == AtEnemy(sent, toEnemy) && toggles == old(toggles)
    {
      ghost var goal := Finish(cfg, Abs());
      if toSelf {
        for i := 0 to |sent|
          invariant main == Firing(sent[i..], sent, toEnemy) && toggles == old(toggles)
          invariant Finish(cfg, Abs()) == goal
        {
          assert sent[i..][0] == sent[i] && sent[i..][1..] == sent[i + 1..];
          ghost var before := Abs();
          h := h.(shots := h.shots + [Own(sent[i])], settled := h.settled + [Settled(sent[i], Fired)]);
          main := Firing(sent[i + 1..], sent, toEnemy);
          assert Abs() == Advance(cfg, before);
        }
        assert sent[|sent|..] == [];
      } else {
        ghost var before := Abs();
        outgoing := outgoing + sent;
        h := h.(settled := h.settled + Tag(sent, Tracked));
        main := AtEnemy(sent, toEnemy);
        assert Abs() == Advance(cfg, before);
        return;
      }
      ghost var before := Abs();
      main := AtEnemy(sent, toEnemy);
      assert Abs() == Advance(cfg, before);
    }

    /** Sends to the enemy: counted, and posted to the referee in VS. */
    method SendEnemy(sent: seq<int>, toEnemy: bool)
      requires main == AtEnemy(sent, toEnemy)
      modifies this
      ensures Abs() == Finish(cfg, old(Abs()))
    {
      ghost var goal := Finish(cfg, Abs());
      ghost var first := Abs();
      if !toEnemy || sent == [] {
        main := Between;
        assert Abs() == Advance(cfg, first);
        return;
      }
      enemy := enemy + sent;
      if !cfg.referee {
        main := Between;
        assert Abs() == Advance(cfg, first);
        return;
      }
      h := h.(enemyAll := h.enemyAll + sent);
      main := Posting(sent);
      assert Abs() == Advance(cfg, first);
      for i := 0 to |sent|
        invariant main == Posting(sent[i..]) && Finish(cfg, Abs()) == goal
      {
        assert sent[i..][0] == sent[i] && sent[i..][1..] == sent[i + 1..];
        ghost var before := Abs();
        h := h.(posted := h.posted + [sent[i]]);
        main := Posting(sent[i + 1..]);
        assert Abs() == Advance(cfg, before);
      }
      ghost var before := Abs();
      main := Between;
      assert Abs() == Advance(cfg, before);
    }

    /** The event's critical section. */
    method TakeEvent(now: int)
      requires main == AtEvent(now)
      modifies this
      ensures Abs() == Advance(cfg, old(Abs()))
    {
      if t.nextEvent.Some? && now >= t.nextEvent.value {
        t := t.(nextEvent := Some(t.nextEvent.value + cfg.interval));
        h := h.(events := h.events + 1);
      }
      main := AtAttack(now);
    }

    /** The attack's: the bought queue is taken over and the next attack scheduled. */
    method TakeAttack(now: int) returns (due: bool, sent: seq<int>)
      requires main == AtAttack(now)
      modifies this
      ensures Abs() == Advance(cfg, old(Abs()))
      ensures due ==> main == Others(OtherShots(cfg, toggles, t.level, old(t.attackIndex)), sent,
                                     toggles.sendYourself, toggles.sendEnemy)
      ensures !due ==> main.Between?
    {
      if t.nextAttack.None? || now < t.nextAttack.value {
        main := Between;
        return false, [];
      }
      sent := bought;
      main := Others(OtherShots(cfg, toggles, t.level, t.attackIndex), sent, toggles.sendYourself,
                     toggles.sendEnemy);
      bought := [];
      t := t.(nextAttack := Some(t.nextAttack.value + cfg.interval), attackIndex := t.attackIndex + 1);
      due := true;
    }

    /** Natural waves, boss and persona waves go out. */
    method FireOthers(sent: seq<int>)
      requires main.Others? && main.sent == sent
      modifies this`h, this`main
      ensures Abs() == Advance(cfg, old(Abs()))
    {
      h := h.(shots := h.shots + main.shots);
      main := if main.toSelf then Firing(sent, sent, main.toEnemy) else Tracking(sent, main.toEnemy);
    }

    /** The rest of a running step. */
    method Strike(now: int) returns (attacked: bool)
      requires main == AtEvent(now)
      modifies this
      ensures Abs() == Finish(cfg, old(Abs()))
    {
      hide Advance, OtherShots;
      Unroll(cfg, Abs());
      TakeEvent(now);
      AtAttackNext(cfg, old(Abs()));
      Unroll(cfg, Abs());
      var sent;
      attacked, sent := TakeAttack(now);
      if !attacked {
        return;
      }
      Unroll(cfg, Abs());
      ghost var taken := Abs();
      FireOthers(sent);
      FiringNext(cfg, taken);
      var toSelf, toEnemy := toggles.sendYourself, toggles.sendEnemy;
      SendOwn(sent, toSelf, toEnemy);
      SendEnemy(sent, toEnemy);
    }

    /** The end of the warmup: a round with an HQ begins, one without is over. */
    method EndWarmup(now: int, hq: Option<bool>) returns (action: string)
      requires main == AwaitHq(now, true)
      modifies this
      ensures Abs() == HqAnswer(cfg, old(Abs()), hq) && main.Between?
    {
      main := Between;
      if hq.None? {
        return "";
      }
      if !hq.value {
        EnterGameOver();
        return "game_over";
      }
      t := t.(phase := Running, level := 1, nextAttack := Some(now),
              nextDifficulty := Some(now + Duration(cfg, 1)),
              nextEvent := Some(now + cfg.interval - cfg.eventOffset));
      h := h.(start := now, events := 0);
      return "started";
    }

    /** A poll of a running round: only a confirmed death ends it. */
    method ContinueRound(now: int, hq: Option<bool>) returns (action: string)
      requires main == AwaitHq(now, false)
      modifies this
      ensures Abs() == Finish(cfg, HqAnswer(cfg, old(Abs()), hq))
    {
      hide Escalate, Finish;
      if hq == Some(false) {
        EnterGameOver();
        main := Between;
        NothingLeft(cfg, Abs());
        return "game_over";
      }
      RaiseDifficulty(now);
      main := AtEvent(now);
      var attacked := Strike(now);
      return if attacked then "attack" else "";
    }

    /** One poll of the main loop, with nobody else in between. */
    method Step(now: int, hq: Option<bool>) returns (action: string)
      requires main == Between && h.clock <= now
      modifies this
      ensures Abs() == WholeStep(cfg, old(Abs()), now, hq)
    {
      hide HqAnswer, Finish;
      h := h.(clock := now);
      if t.phase == Paused || t.phase == GameOver
         || (t.phase == Warmup && (t.warmupEnd.None? || now < t.warmupEnd.value))
      {
        NothingAsked(cfg, Abs(), hq);
        NothingLeft(cfg, Abs());
        return "";
      }
      if t.phase == Warmup {
        main := AwaitHq(now, true);
        action := EndWarmup(now, hq);
        NothingLeft(cfg, Abs());
      } else {
        main := AwaitHq(now, false);
        action := ContinueRound(now, hq);
      }
    }
  }
}
