/** The attack cycle as a state machine at lock-block granularity: one transition per
    critical section or outside call of the main loop, the resolver thread and the HTTP
    handlers. Runs are arbitrary interleavings. */
module AttackModel {
  import opened Naming

  const MAX_WAVE := 9

  predicate KnownWave(level: int)
  {
    1 <= level <= MAX_WAVE
  }

  /** WAVE_COST. */
  function Cost(level: int): nat
  {
    if level == 1 then 300 else if level == 2 then 700 else if level == 3 then 1400
    else if level == 4 then 2450 else if level == 5 then 4000 else if level == 6 then 5350
    else if level == 7 then 7600 else if level == 8 then 9650 else if level == 9 then 10500
    else 0
  }

  datatype Phase = Paused | Warmup | Running | GameOver

  /** `counts`, `bossMin`: the wave composition rules; `persona`: its attacks, wave counts
      each; `referee`: a VS referee is configured. */
  datatype Config = Config(interval: int, schedule: seq<int>, maxLevel: int, warmup: int,
                           eventOffset: int, counts: seq<nat>, bossMin: Option<int>,
                           persona: seq<seq<nat>>, referee: bool)

  datatype Toggles = Toggles(natural: bool, persona: bool, sendYourself: bool, sendEnemy: bool)

  datatype Timers = Timers(phase: Phase, level: int, nextAttack: Option<int>,
                           nextDifficulty: Option<int>, nextEvent: Option<int>,
                           warmupEnd: Option<int>, attackIndex: nat)

  // ---- Threads -------------------------------------------------------------------------

  /** The resolver: resting, about to pay the first of its copied orders, or with one paid
      that is not yet in the bought queue. */
  datatype Resolver = Resting | Paying(todo: seq<int>) | HasPaid(level: int, todo: seq<int>)

  /** Where the main loop is inside `step`. */
  datatype Main =
    | Between
    | AwaitHq(now: int, warm: bool)
    | AtEvent(now: int)
    | AtAttack(now: int)
    | Others(shots: seq<Shot>, sent: seq<int>, toSelf: bool, toEnemy: bool)
    | Firing(rest: seq<int>, sent: seq<int>, toEnemy: bool)
    | Tracking(sent: seq<int>, toEnemy: bool)
    | AtEnemy(sent: seq<int>, toEnemy: bool)
    | Posting(rest: seq<int>)

  datatype Shot = Natural(level: int) | Boss | Persona(level: int) | Own(level: int)

  // ---- History -------------------------------------------------------------------------

  datatype Fate = Fired | Tracked | Cleared

  datatype Settled = Settled(level: int, fate: Fate)

  /** Not fields of the service: what has happened since it started. `mark` is where
      `settled` stood at the last clearing, `start` the moment the round began to run,
      `clock` the latest reading of the main loop. */
  datatype History = History(asked: seq<int>, paid: seq<int>, refused: seq<int>,
                             discarded: seq<int>, settled: seq<Settled>, mark: nat,
                             carbonium: int, shots: seq<Shot>, enemyAll: seq<int>,
                             posted: seq<int>, start: int, clock: int, events: nat,
                             left: seq<Option<int>>)

  datatype Cycle = Cycle(t: Timers, toggles: Toggles, orders: seq<int>, bought: seq<int>,
                         outgoing: seq<int>, enemy: seq<int>, startEpoch: Option<int>,
                         signaled: bool, resolver: Resolver, main: Main, h: History)

  const IDLE := Timers(Paused, 1, None, None, None, None, 0)

  const NOTHING := History([], [], [], [], [], 0, 0, [], [], [], 0, 0, 0, [])

  function Boot(toggles: Toggles): Cycle
  {
    Cycle(IDLE, toggles, [], [], [], [], None, false, Resting, Between, NOTHING)
  }

  function Tag(levels: seq<int>, fate: Fate): seq<Settled>
  {
    seq(|levels|, i requires 0 <= i < |levels| => Settled(levels[i], fate))
  }

  // ---- Round control ---------------------------------------------------------------------

  /** `_clear_round`: counters, queues and timers. Copies held by the threads survive. */
  function ClearRound(s: Cycle): Cycle
  {
    var settled := s.h.settled + Tag(s.bought, Cleared);
    s.(t := IDLE.(phase := s.t.phase), orders := [], bought := [], outgoing := [], enemy := [],
       h := s.h.(discarded := s.h.discarded + s.orders, settled := settled, mark := |settled|))
  }

  function SignalStart(cfg: Config, s: Cycle, now: int, cause: Option<int>): (Cycle, bool)
  {
    if s.t.phase != Paused then (s, false)
    else
      var c := ClearRound(s);
      (c.(t := c.t.(phase := Warmup, warmupEnd := Some(now + cfg.warmup)),
          h := c.h.(left := c.h.left + [cause])), true)
  }

  function Reset(s: Cycle): Cycle
  {
    var c := ClearRound(s);
    c.(t := c.t.(phase := Paused))
  }

  function EnterGameOver(s: Cycle): Cycle
  {
    s.(t := s.t.(phase := GameOver, nextAttack := None, nextDifficulty := None,
                 nextEvent := None, warmupEnd := None))
  }

  // ---- Difficulty ------------------------------------------------------------------------

  /** `_difficulty_duration`: the index clamped into the schedule. */
  function Duration(cfg: Config, level: int): int
  {
    var last := |cfg.schedule| - 1;
    var i := if level - 1 <= last then level - 1 else last;
    if 0 <= i < |cfg.schedule| then cfg.schedule[i]
    else if |cfg.schedule| > 0 then cfg.schedule[0] else 0
  }

  /** The escalation loop. */
  function Escalate(cfg: Config, t: Timers, now: int): Timers
    decreases cfg.maxLevel - t.level
  {
    if t.nextDifficulty.Some? && now >= t.nextDifficulty.value && t.level < cfg.maxLevel then
      Escalate(cfg, t.(level := t.level + 1,
                       nextDifficulty := Some(t.nextDifficulty.value + Duration(cfg, t.level + 1))), now)
    else t
  }

  // ---- Waves -------------------------------------------------------------------------------

  function Times(n: nat, shot: Shot): seq<Shot>
  {
    seq(n, i => shot)
  }

  /** `_wave_plan`: natural waves and the elite boss of an attack. */
  function NaturalCount(cfg: Config, level: int): nat
  {
    if |cfg.counts| == 0 then 0
    else
      var i := if level - 1 <= |cfg.counts| - 1 then level - 1 else |cfg.counts| - 1;
      if i < 0 then 0 else cfg.counts[i]
  }

  predicate HasBoss(cfg: Config, level: int)
  {
    cfg.bossMin.Some? && level >= cfg.bossMin.value
  }

  /** `_expand_counts`, from wave number `from` on. */
  function Expand(counts: seq<nat>, from: int): seq<Shot>
  {
    if counts == [] then [] else Times(counts[0], Persona(from)) + Expand(counts[1..], from + 1)
  }

  /** Everything an attack fires besides own purchases, in order. */
  function OtherShots(cfg: Config, tg: Toggles, level: int, attack: nat): seq<Shot>
  {
    (if tg.natural then Times(NaturalCount(cfg, level), Natural(level))
                        + (if HasBoss(cfg, level) then [Boss] else []) else [])
    + (if tg.persona && attack < |cfg.persona| then Expand(cfg.persona[attack], 1) else [])
  }

  // ---- Transitions ---------------------------------------------------------------------------

  datatype Action =
    | Buy(level: int)                      // HTTP handler
    | HttpStart(now: int)
    | TakeOrders                           // resolver
    | Spend(ok: bool)
    | Append
    | Begin(now: int)                      // main loop: step
    | Hq(alive: Option<bool>)
    | Next
    | DoReset                              // main loop: synchronisation with the bridge
    | PollConfig(epoch: Option<int>, start: bool, toggles: Toggles)
    | SyncStart(now: int)
    | RoundReset(now: int)

  function Apply(cfg: Config, s: Cycle, a: Action): Cycle
  {
    match a
    case Buy(level) => BuyWave(s, level)
    case HttpStart(now) => SignalStart(cfg, s, now, None).0
    case TakeOrders =>
      if s.resolver.Resting? then s.(orders := [], resolver := Pay(s.orders)) else s
    case Spend(ok) => SpendOne(s, ok)
    case Append =>
      if s.resolver.HasPaid?
      then s.(bought := s.bought + [s.resolver.level], resolver := Pay(s.resolver.todo)) else s
    case Begin(now) => BeginStep(s, now)
    case Hq(alive) => HqAnswer(cfg, s, alive)
    case Next => Advance(cfg, s)
    case DoReset => if s.main.Between? then Reset(s) else s
    case PollConfig(epoch, start, toggles) =>
      if s.main.Between? then NoteSignal(s.(toggles := toggles), epoch, start) else s
    case SyncStart(now) => if s.main.Between? then ApplySignal(cfg, s, now) else s
    case RoundReset(now) =>
      if s.main.Between? then SignalStart(cfg, Reset(s), now, None).0 else s
  }

  function BuyWave(s: Cycle, level: int): Cycle
  {
    if !KnownWave(level) then s
    else s.(orders := s.orders + [level], h := s.h.(asked := s.h.asked + [level]))
  }

  function Pay(todo: seq<int>): Resolver
  {
    if todo == [] then Resting else Paying(todo)
  }

  /** One `try_spend`: confirmed, or the order is dropped. */
  function SpendOne(s: Cycle, ok: bool): Cycle
  {
    if !s.resolver.Paying? || s.resolver.todo == [] then s
    else
      var level, rest := s.resolver.todo[0], s.resolver.todo[1..];
      if ok then
        s.(resolver := HasPaid(level, rest),
           h := s.h.(paid := s.h.paid + [level], carbonium := s.h.carbonium + Cost(level)))
      else s.(resolver := Pay(rest), h := s.h.(refused := s.h.refused + [level]))
  }

  /** The monotonic clock never runs back. */
  function BeginStep(s: Cycle, now: int): Cycle
  {
    if !s.main.Between? || now < s.h.clock then s
    else
      var s' := s.(h := s.h.(clock := now));
      match s.t.phase
      case Warmup =>
        if s.t.warmupEnd.Some? && now >= s.t.warmupEnd.value then s'.(main := AwaitHq(now, true)) else s'
      case Running => s'.(main := AwaitHq(now, false))
      case _ => s'
  }

  /** None: the status could not be read. */
  function HqAnswer(cfg: Config, s: Cycle, alive: Option<bool>): Cycle
  {
    if !s.main.AwaitHq? then s
    else
      var now := s.main.now;
      if alive == Some(false) then EnterGameOver(s).(main := Between)
      else if s.main.warm then
        (if alive.None? then s.(main := Between)
         else
           s.(t := s.t.(phase := Running, level := 1, nextAttack := Some(now),
                        nextDifficulty := Some(now + Duration(cfg, 1)),
                        nextEvent := Some(now + cfg.interval - cfg.eventOffset)),
              main := Between, h := s.h.(start := now, events := 0)))
      else s.(t := Escalate(cfg, s.t, now), main := AtEvent(now))
  }

  function Advance(cfg: Config, s: Cycle): Cycle
  {
    match s.main
    case AtEvent(now) => TakeEvent(cfg, s, now)
    case AtAttack(now) => TakeAttack(cfg, s, now)
    case Others(shots, sent, toSelf, toEnemy) =>
      s.(main := if toSelf then Firing(sent, sent, toEnemy) else Tracking(sent, toEnemy),
         h := s.h.(shots := s.h.shots + shots))
    case Firing(rest, sent, toEnemy) =>
      if rest == [] then s.(main := AtEnemy(sent, toEnemy))
      else
        s.(main := Firing(rest[1..], sent, toEnemy),
           h := s.h.(shots := s.h.shots + [Own(rest[0])],
                     settled := s.h.settled + [Settled(rest[0], Fired)]))
    case Tracking(sent, toEnemy) =>
      s.(outgoing := s.outgoing + sent, main := AtEnemy(sent, toEnemy),
         h := s.h.(settled := s.h.settled + Tag(sent, Tracked)))
    case AtEnemy(sent, toEnemy) =>
      if !toEnemy || sent == [] then s.(main := Between)
      else
        s.(enemy := s.enemy + sent, main := if cfg.referee then Posting(sent) else Between,
           h := if cfg.referee then s.h.(enemyAll := s.h.enemyAll + sent) else s.h)
    case Posting(rest) =>
      if rest == [] then s.(main := Between)
      else s.(main := Posting(rest[1..]), h := s.h.(posted := s.h.posted + [rest[0]]))
    case _ => s
  }

  function TakeEvent(cfg: Config, s: Cycle, now: int): Cycle
  {
    var s' := s.(main := AtAttack(now));
    if s.t.nextEvent.Some? && now >= s.t.nextEvent.value then
      s'.(t := s.t.(nextEvent := Some(s.t.nextEvent.value + cfg.interval)),
          h := s.h.(events := s.h.events + 1))
    else s'
  }

  /** The bought queue is taken over and the next attack scheduled, in one critical section. */
  function TakeAttack(cfg: Config, s: Cycle, now: int): Cycle
  {
    if s.t.nextAttack.None? || now < s.t.nextAttack.value then s.(main := Between)
    else
      s.(bought := [],
         t := s.t.(nextAttack := Some(s.t.nextAttack.value + cfg.interval),
                   attackIndex := s.t.attackIndex + 1),
         main := Others(OtherShots(cfg, s.toggles, s.t.level, s.t.attackIndex), s.bought,
                        s.toggles.sendYourself, s.toggles.sendEnemy))
  }

  /** `_note_start_signal`: a new positive epoch wins over a sticky start flag. */
  function NoteSignal(s: Cycle, epoch: Option<int>, start: bool): Cycle
  {
    if epoch.Some? then
      (if epoch.value > 0 && epoch != s.startEpoch then s.(startEpoch := epoch, signaled := true)
       else s)
    else if start then s.(signaled := true) else s
  }

  /** `sync_start` without its defensive poll: the signal is consumed even where it has no
      effect. */
  function ApplySignal(cfg: Config, s: Cycle, now: int): Cycle
  {
    if !s.signaled then s
    else SignalStart(cfg, s.(signaled := false), now, s.startEpoch).0
  }

  function Run(cfg: Config, s: Cycle, actions: seq<Action>): Cycle
    decreases |actions|
  {
    if actions == [] then s else Run(cfg, Apply(cfg, s, actions[0]), actions[1..])
  }
}
