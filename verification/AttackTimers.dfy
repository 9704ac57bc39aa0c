/** Difficulty, attacks and events keep to the schedule fixed when the round began to run,
    however the polls were spaced; the round starts and ends only for the right reasons. */
module AttackTimers {
  import opened Naming
  import opened AttackModel

  // ---- The schedule, without the machine ---------------------------------------------------

  function Top(cfg: Config): int
  {
    if cfg.maxLevel >= 1 then cfg.maxLevel else 1
  }

  /** When level `level` is over. */
  function Deadline(cfg: Config, start: int, level: int): int
    decreases level
  {
    if level < 1 then start else Deadline(cfg, start, level - 1) + Duration(cfg, level)
  }

  /** The level that the schedule prescribes at a time. */
  predicate LevelAt(cfg: Config, start: int, now: int, level: int)
  {
    && 1 <= level <= Top(cfg)
    && (level > 1 ==> Deadline(cfg, start, level - 1) <= now)
    && (level < cfg.maxLevel ==> now < Deadline(cfg, start, level))
  }

  /** Positive durations and interval, as the normalisers guarantee. */
  predicate ConfigOk(cfg: Config)
  {
    cfg.interval > 0 && |cfg.schedule| > 0 && forall i | 0 <= i < |cfg.schedule| :: cfg.schedule[i] > 0
  }

  lemma {:induction false} DeadlinesRise(cfg: Config, start: int, a: int, b: int)
    requires ConfigOk(cfg) && 0 <= a <= b
    ensures Deadline(cfg, start, a) <= Deadline(cfg, start, b)
    decreases b
  {
    if a < b {
      DeadlinesRise(cfg, start, a, b - 1);
      assert Duration(cfg, b) > 0;
    }
  }

  lemma LevelUnique(cfg: Config, start: int, now: int, a: int, b: int)
    requires ConfigOk(cfg) && LevelAt(cfg, start, now, a) && LevelAt(cfg, start, now, b)
    ensures a == b
  {
    if a < b { DeadlinesRise(cfg, start, a, b - 1); }
    if b < a { DeadlinesRise(cfg, start, b, a - 1); }
  }

  // ---- The invariant -----------------------------------------------------------------------

  /** The clock has been read for this step but the level not yet brought up to date. */
  predicate Stale(m: Main)
  {
    m.AwaitHq?
  }

  predicate MainOk(cfg: Config, s: Cycle)
  {
    match s.main
    case AwaitHq(now, warm) =>
      now == s.h.clock && s.t.phase == (if warm then Warmup else Running)
      && (warm ==> s.t.warmupEnd.Some? && now >= s.t.warmupEnd.value)
    case AtEvent(now) => now == s.h.clock && s.t.phase == Running
    case AtAttack(now) => now == s.h.clock && s.t.phase == Running
    case Others(shots, _, _, _) =>
      && s.t.phase == Running && s.t.attackIndex > 0
      && shots == OtherShots(cfg, s.toggles, s.t.level, s.t.attackIndex - 1)
    case Between => true
    case _ => s.t.phase == Running
  }

  predicate OnTime(cfg: Config, s: Cycle)
  {
    && (s.t.phase == Warmup ==> s.t.attackIndex == 0)
    && (s.t.phase == Running ==>
      && s.h.start <= s.h.clock
      && s.t.warmupEnd.Some? && s.t.warmupEnd.value <= s.h.start
      && 1 <= s.t.level <= Top(cfg)
      && (s.t.level > 1 ==> Deadline(cfg, s.h.start, s.t.level - 1) <= s.h.clock)
      && s.t.nextDifficulty == Some(Deadline(cfg, s.h.start, s.t.level))
      && (!Stale(s.main) ==> LevelAt(cfg, s.h.start, s.h.clock, s.t.level))
      && s.t.nextAttack == Some(s.h.start + s.t.attackIndex * cfg.interval)
      && (s.t.attackIndex > 0 ==> s.h.start + (s.t.attackIndex - 1) * cfg.interval <= s.h.clock)
      && s.t.nextEvent == Some(s.h.start + cfg.interval - cfg.eventOffset + s.h.events * cfg.interval))
  }

  lemma {:induction false} EscalateFollows(cfg: Config, t: Timers, start: int, now: int)
    requires ConfigOk(cfg) && 1 <= t.level <= Top(cfg)
    requires t.level > 1 ==> Deadline(cfg, start, t.level - 1) <= now
    requires t.nextDifficulty == Some(Deadline(cfg, start, t.level))
    ensures var t' := Escalate(cfg, t, now);
            && LevelAt(cfg, start, now, t'.level)
            && t'.nextDifficulty == Some(Deadline(cfg, start, t'.level))
            && t' == t.(level := t'.level, nextDifficulty := t'.nextDifficulty)
    decreases cfg.maxLevel - t.level
  {
    if now >= t.nextDifficulty.value && t.level < cfg.maxLevel {
      var up := t.(level := t.level + 1,
                   nextDifficulty := Some(t.nextDifficulty.value + Duration(cfg, t.level + 1)));
      assert Deadline(cfg, start, t.level + 1) == Deadline(cfg, start, t.level) + Duration(cfg, t.level + 1);
      EscalateFollows(cfg, up, start, now);
    }
  }

  lemma HqKeeps(cfg: Config, s: Cycle, alive: Option<bool>)
    requires ConfigOk(cfg) && OnTime(cfg, s) && MainOk(cfg, s)
    ensures OnTime(cfg, HqAnswer(cfg, s, alive)) && MainOk(cfg, HqAnswer(cfg, s, alive))
  {
    if s.main.AwaitHq? && alive != Some(false) {
      if s.main.warm {
        assert Deadline(cfg, s.main.now, 0) == s.main.now;
        assert Deadline(cfg, s.main.now, 1) == s.main.now + Duration(cfg, 1);
        assert Duration(cfg, 1) > 0;
      } else {
        EscalateFollows(cfg, s.t, s.h.start, s.main.now);
      }
    }
    hide Escalate, Deadline, Duration;
  }

  lemma AdvanceKeeps(cfg: Config, s: Cycle)
    requires ConfigOk(cfg) && OnTime(cfg, s) && MainOk(cfg, s)
    ensures OnTime(cfg, Advance(cfg, s)) && MainOk(cfg, Advance(cfg, s))
  {
    hide Escalate, Deadline, Duration, OtherShots, Tag;
    if s.main.AtAttack? {
      Next1(s.t.attackIndex, cfg.interval);
    }
    if s.main.AtEvent? {
      Next1(s.h.events, cfg.interval);
    }
  }

  lemma Next1(n: nat, interval: int)
    ensures (n + 1) * interval == n * interval + interval
  {
  }

  lemma ApplyKeeps(cfg: Config, s: Cycle, a: Action)
    requires ConfigOk(cfg) && OnTime(cfg, s) && MainOk(cfg, s)
    ensures OnTime(cfg, Apply(cfg, s, a)) && MainOk(cfg, Apply(cfg, s, a))
  {
    hide OnTime, MainOk, SignalStart, Reset, BuyWave, SpendOne, BeginStep, HqAnswer, Advance, NoteSignal;
    match a
    case Hq(alive) => HqKeeps(cfg, s, alive);
    case Next => AdvanceKeeps(cfg, s);
    case HttpStart(now) => StartKeeps(cfg, s, now, None);
    case Begin(now) => BeginKeeps(cfg, s, now);
    case DoReset => if s.main.Between? { ResetKeeps(cfg, s); }
    case SyncStart(now) =>
      if s.main.Between? && s.signaled {
        UnsignalKeeps(cfg, s);
        StartKeeps(cfg, s.(signaled := false), now, s.startEpoch);
      }
    case RoundReset(now) =>
      if s.main.Between? {
        ResetKeeps(cfg, s);
        StartKeeps(cfg, Reset(s), now, None);
      }
    case PollConfig(epoch, start, toggles) =>
      if s.main.Between? { PollKeeps(cfg, s, epoch, start, toggles); }
    case _ => PurchaseKeeps(cfg, s, a);
  }

  lemma UnsignalKeeps(cfg: Config, s: Cycle)
    requires OnTime(cfg, s) && MainOk(cfg, s)
    ensures OnTime(cfg, s.(signaled := false)) && MainOk(cfg, s.(signaled := false))
  {
    hide LevelAt, Deadline, OtherShots;
  }

  lemma StartKeeps(cfg: Config, s: Cycle, now: int, cause: Option<int>)
    requires OnTime(cfg, s) && MainOk(cfg, s)
    ensures OnTime(cfg, SignalStart(cfg, s, now, cause).0) && MainOk(cfg, SignalStart(cfg, s, now, cause).0)
  {
    hide LevelAt, Deadline, OtherShots, Tag;
  }

  lemma ResetKeeps(cfg: Config, s: Cycle)
    requires OnTime(cfg, s) && MainOk(cfg, s) && s.main.Between?
    ensures OnTime(cfg, Reset(s)) && MainOk(cfg, Reset(s))
  {
    hide LevelAt, Deadline, OtherShots, Tag;
  }

  lemma BeginKeeps(cfg: Config, s: Cycle, now: int)
    requires OnTime(cfg, s) && MainOk(cfg, s)
    ensures OnTime(cfg, BeginStep(s, now)) && MainOk(cfg, BeginStep(s, now))
  {
    hide Deadline, OtherShots;
  }

  lemma PollKeeps(cfg: Config, s: Cycle, epoch: Option<int>, start: bool, toggles: Toggles)
    requires OnTime(cfg, s) && MainOk(cfg, s) && s.main.Between?
    ensures var s' := NoteSignal(s.(toggles := toggles), epoch, start);
            OnTime(cfg, s') && MainOk(cfg, s')
  {
    hide LevelAt, Deadline, OtherShots;
  }

  lemma PurchaseKeeps(cfg: Config, s: Cycle, a: Action)
    requires OnTime(cfg, s) && MainOk(cfg, s) && (a.Buy? || a.TakeOrders? || a.Spend? || a.Append?)
    ensures OnTime(cfg, Apply(cfg, s, a)) && MainOk(cfg, Apply(cfg, s, a))
  {
    hide LevelAt, Deadline, OtherShots, Cost;
  }

  lemma {:induction false} RunKeeps(cfg: Config, s: Cycle, actions: seq<Action>)
    requires ConfigOk(cfg) && OnTime(cfg, s) && MainOk(cfg, s)
    ensures OnTime(cfg, Run(cfg, s, actions)) && MainOk(cfg, Run(cfg, s, actions))
    decreases |actions|
  {
    hide OnTime, MainOk, Apply;
    if actions != [] {
      ApplyKeeps(cfg, s, actions[0]);
      RunKeeps(cfg, Apply(cfg, s, actions[0]), actions[1..]);
    }
  }

  // ---- Poll independence ---------------------------------------------------------------------

  /** The level is a function of the time alone. Whatever happened and however the polls
      were spaced, two runs whose rounds began to run at the same moment and whose last
      poll was at the same moment are at the same level, the one the schedule says. */
  lemma LevelIndependentOfPolls(cfg: Config, tg1: Toggles, tg2: Toggles, run1: seq<Action>,
                                run2: seq<Action>)
    requires ConfigOk(cfg)
    ensures var s1, s2 := Run(cfg, Boot(tg1), run1), Run(cfg, Boot(tg2), run2);
            && (s1.t.phase == Running && !Stale(s1.main) ==>
                  LevelAt(cfg, s1.h.start, s1.h.clock, s1.t.level))
            && ((s1.t.phase == Running == s2.t.phase && !Stale(s1.main) && !Stale(s2.main)
                 && s1.h.start == s2.h.start && s1.h.clock == s2.h.clock)
                ==> s1.t.level == s2.t.level)
  {
    var s1, s2 := Run(cfg, Boot(tg1), run1), Run(cfg, Boot(tg2), run2);
    RunKeeps(cfg, Boot(tg1), run1);
    RunKeeps(cfg, Boot(tg2), run2);
    if s1.t.phase == Running == s2.t.phase && !Stale(s1.main) && !Stale(s2.main)
       && s1.h.start == s2.h.start && s1.h.clock == s2.h.clock {
      LevelUnique(cfg, s1.h.start, s1.h.clock, s1.t.level, s2.t.level);
    }
  }

  /** Attacks and events never drift: attack number n is due n intervals after the start,
      and never early. What an attack fires besides own purchases is fixed by the level
      the schedule prescribes at that poll. */
  lemma AttacksNeverDrift(cfg: Config, toggles: Toggles, actions: seq<Action>)
    requires ConfigOk(cfg)
    ensures var s := Run(cfg, Boot(toggles), actions);
            s.t.phase == Running ==>
              && s.t.nextAttack == Some(s.h.start + s.t.attackIndex * cfg.interval)
              && (s.t.attackIndex > 0 ==>
                    s.h.start + (s.t.attackIndex - 1) * cfg.interval <= s.h.clock)
              && s.t.nextEvent
                 == Some(s.h.start + cfg.interval - cfg.eventOffset + s.h.events * cfg.interval)
              && (s.main.Others? ==>
                    LevelAt(cfg, s.h.start, s.h.clock, s.t.level) && s.t.attackIndex > 0
                    && s.main.shots == OtherShots(cfg, s.toggles, s.t.level, s.t.attackIndex - 1))
  {
    RunKeeps(cfg, Boot(toggles), actions);
  }

  // ---- At most one attack per step ---------------------------------------------------------

  function Begins(actions: seq<Action>): nat
  {
    if actions == [] then 0 else (if actions[0].Begin? then 1 else 0) + Begins(actions[1..])
  }

  /** A step that has begun may still fire its attack. */
  function Pending(m: Main): nat
  {
    match m
    case AwaitHq(_, warm) => if warm then 0 else 1
    case AtEvent(_) => 1
    case AtAttack(_) => 1
    case _ => 0
  }

  lemma OneMore(cfg: Config, s: Cycle, a: Action)
    requires MainOk(cfg, s)
    ensures var s' := Apply(cfg, s, a);
            s'.t.attackIndex + Pending(s'.main)
            <= s.t.attackIndex + Pending(s.main) + (if a.Begin? then 1 else 0)
  {
    if s.main.AwaitHq? && a.Hq? { SameAttackIndex(cfg, s.t, s.main.now); }
    hide Escalate, OtherShots, Tag;
  }

  lemma {:induction false} SameAttackIndex(cfg: Config, t: Timers, now: int)
    ensures Escalate(cfg, t, now).attackIndex == t.attackIndex
    decreases cfg.maxLevel - t.level
  {
    if t.nextDifficulty.Some? && now >= t.nextDifficulty.value && t.level < cfg.maxLevel {
      SameAttackIndex(cfg, t.(level := t.level + 1,
        nextDifficulty := Some(t.nextDifficulty.value + Duration(cfg, t.level + 1))), now);
    }
  }

  lemma {:induction false} AtMostOneAttackPerStep(cfg: Config, s: Cycle, actions: seq<Action>)
    requires ConfigOk(cfg) && OnTime(cfg, s) && MainOk(cfg, s)
    ensures Run(cfg, s, actions).t.attackIndex
            <= s.t.attackIndex + Pending(s.main) + Begins(actions)
    decreases |actions|
  {
    hide OnTime, MainOk, Apply;
    if actions != [] {
      ApplyKeeps(cfg, s, actions[0]);
      OneMore(cfg, s, actions[0]);
      AtMostOneAttackPerStep(cfg, Apply(cfg, s, actions[0]), actions[1..]);
    }
  }

  // ---- Prompt polls -------------------------------------------------------------------------

  /** Polls come less than an interval apart. */
  predicate PromptRun(cfg: Config, s: Cycle, actions: seq<Action>)
    decreases |actions|
  {
    actions == []
    || ((actions[0].Begin? ==> actions[0].now < s.h.clock + cfg.interval)
        && PromptRun(cfg, Apply(cfg, s, actions[0]), actions[1..]))
  }

  /** Nothing is overdue: the next attack lies ahead, or this step will fire it. */
  predicate CaughtUp(cfg: Config, s: Cycle)
  {
    s.t.phase == Running ==>
      if Pending(s.main) == 0 && s.t.attackIndex == 0 then s.h.clock == s.h.start
      else if Pending(s.main) == 1
      then s.h.clock < s.h.start + (s.t.attackIndex + 1) * cfg.interval
      else s.h.clock < s.h.start + s.t.attackIndex * cfg.interval
  }

  lemma CaughtUpKeeps(cfg: Config, s: Cycle, a: Action)
    requires ConfigOk(cfg) && OnTime(cfg, s) && MainOk(cfg, s) && CaughtUp(cfg, s)
    requires a.Begin? ==> a.now < s.h.clock + cfg.interval
    ensures CaughtUp(cfg, Apply(cfg, s, a))
  {
    hide Deadline, Duration, OtherShots, Tag, Escalate, LevelAt;
    Next1(s.t.attackIndex, cfg.interval);
    if a.Hq? && s.main.AwaitHq? { EscalateSame(cfg, s.t, s.main.now); }
    if !a.Hq? && !a.Next? && !a.Begin? { StillCaughtUp(cfg, s, a); }
  }

  /** Transitions outside a running step change neither clock nor attack times, or leave the
      running phase. */
  lemma StillCaughtUp(cfg: Config, s: Cycle, a: Action)
    requires CaughtUp(cfg, s) && !a.Hq? && !a.Next? && !a.Begin?
    ensures CaughtUp(cfg, Apply(cfg, s, a))
  {
    hide Tag, Cost;
  }

  lemma {:induction false} EscalateSame(cfg: Config, t: Timers, now: int)
    ensures var t' := Escalate(cfg, t, now); t'.attackIndex == t.attackIndex && t'.phase == t.phase
    decreases cfg.maxLevel - t.level
  {
    if t.nextDifficulty.Some? && now >= t.nextDifficulty.value && t.level < cfg.maxLevel {
      EscalateSame(cfg, t.(level := t.level + 1,
        nextDifficulty := Some(t.nextDifficulty.value + Duration(cfg, t.level + 1))), now);
    }
  }

  lemma {:induction false} CaughtUpRun(cfg: Config, s: Cycle, actions: seq<Action>)
    requires ConfigOk(cfg) && OnTime(cfg, s) && MainOk(cfg, s) && CaughtUp(cfg, s)
    requires PromptRun(cfg, s, actions)
    ensures CaughtUp(cfg, Run(cfg, s, actions))
    decreases |actions|
  {
    hide OnTime, MainOk, CaughtUp, Apply;
    if actions != [] {
      ApplyKeeps(cfg, s, actions[0]);
      CaughtUpKeeps(cfg, s, actions[0]);
      CaughtUpRun(cfg, Apply(cfg, s, actions[0]), actions[1..]);
    }
  }

  /** With polls less than an interval apart, the number of attacks fired when a step is
      over is exact: as many as there are attack times from the start up to now. */
  lemma AttackCountIsExact(cfg: Config, toggles: Toggles, actions: seq<Action>)
    requires ConfigOk(cfg) && PromptRun(cfg, Boot(toggles), actions)
    ensures var s := Run(cfg, Boot(toggles), actions);
            s.t.phase == Running && s.main.Between? && s.t.attackIndex > 0 ==>
              s.h.start + (s.t.attackIndex - 1) * cfg.interval <= s.h.clock
              < s.h.start + s.t.attackIndex * cfg.interval
  {
    RunKeeps(cfg, Boot(toggles), actions);
    CaughtUpRun(cfg, Boot(toggles), actions);
    hide Run, PromptRun;
  }

  // ---- Beginning and end of a round -----------------------------------------------------------

  /** Only a confirmed dead or missing HQ ends a round: failed polls never do. */
  lemma {:induction false} UnreadableIsNotDead(cfg: Config, s: Cycle, actions: seq<Action>)
    requires s.t.phase != GameOver && Hq(Some(false)) !in actions
    ensures Run(cfg, s, actions).t.phase != GameOver
    decreases |actions|
  {
    if actions != [] {
      assert actions[0] in actions;
      if actions[0].Hq? && s.main.AwaitHq? { EscalateSame(cfg, s.t, s.main.now); }
      UnreadableIsNotDead(cfg, Apply(cfg, s, actions[0]), actions[1..]);
    }
    hide Escalate, OtherShots, Tag;
  }

  /** And the end is final until a reset. */
  lemma {:induction false} GameOverIsFinal(cfg: Config, s: Cycle, actions: seq<Action>)
    requires s.t.phase == GameOver && MainOk(cfg, s)
    requires DoReset !in actions && forall a | a in actions :: !a.RoundReset?
    ensures Run(cfg, s, actions).t.phase == GameOver
    decreases |actions|
  {
    hide Escalate, OtherShots, Tag;
    if actions != [] {
      assert actions[0] in actions;
      assert forall a | a in actions[1..] :: a in actions;
      GameOverIsFinal(cfg, Apply(cfg, s, actions[0]), actions[1..]);
    }
  }
}
