/** No own wave is fired unpaid, twice, or out of turn, in any interleaving of the HTTP
    handlers, the resolver and the main loop. */
module AttackPurchases {
  import opened Naming
  import opened AttackModel

  // ---- Reading the history -----------------------------------------------------------------

  function Levels(settled: seq<Settled>): seq<int>
  {
    seq(|settled|, i requires 0 <= i < |settled| => settled[i].level)
  }

  /** The waves that met a given fate, in order. */
  function Of(settled: seq<Settled>, fate: Fate): seq<int>
  {
    if settled == [] then []
    else
      var last := settled[|settled| - 1];
      Of(settled[..|settled| - 1], fate) + (if last.fate == fate then [last.level] else [])
  }

  function OwnShots(shots: seq<Shot>): seq<int>
  {
    if shots == [] then []
    else
      var last := shots[|shots| - 1];
      OwnShots(shots[..|shots| - 1]) + (if last.Own? then [last.level] else [])
  }

  function Total(levels: seq<int>): nat
  {
    if levels == [] then 0 else Total(levels[..|levels| - 1]) + Cost(levels[|levels| - 1])
  }

  /** Waves the attack in progress has taken and not yet fired or tracked. */
  function Taken(main: Main): seq<int>
  {
    match main
    case Others(_, sent, _, _) => sent
    case Firing(rest, _, _) => rest
    case Tracking(sent, _) => sent
    case _ => []
  }

  /** Confirmed by the bridge, not yet in the bought queue. */
  function InFlight(r: Resolver): seq<int>
  {
    if r.HasPaid? then [r.level] else []
  }

  function Todo(r: Resolver): seq<int>
  {
    match r
    case Resting => []
    case Paying(todo) => todo
    case HasPaid(_, todo) => todo
  }

  function Unposted(main: Main): seq<int>
  {
    if main.Posting? then main.rest else []
  }

  // ---- Invariants ----------------------------------------------------------------------------

  /** The main loop is inside an attack only while the round runs, so nobody else clears. */
  predicate InPhase(s: Cycle)
  {
    match s.main
    case Between => true
    case AwaitHq(now, warm) => s.t.phase == (if warm then Warmup else Running)
    case _ => s.t.phase == Running
  }

  /** Every paid wave is in exactly one place, and all of them stand in the order in which
      they were paid. */
  predicate Pipeline(s: Cycle)
  {
    s.h.paid == Levels(s.h.settled) + Taken(s.main) + s.bought + InFlight(s.resolver)
  }

  predicate Orders(s: Cycle)
  {
    multiset(s.h.asked) == multiset(s.h.paid) + multiset(s.h.refused) + multiset(s.h.discarded)
                           + multiset(Todo(s.resolver)) + multiset(s.orders)
  }

  predicate Outcomes(s: Cycle)
  {
    && s.h.mark <= |s.h.settled|
    && s.outgoing == Of(s.h.settled[s.h.mark..], Tracked)
    && OwnShots(s.h.shots) == Of(s.h.settled, Fired)
    && s.h.carbonium == Total(s.h.paid)
    && s.h.posted + Unposted(s.main) == s.h.enemyAll
    && (s.main.Others? ==> OwnShots(s.main.shots) == [])
  }

  predicate Sound(s: Cycle)
  {
    InPhase(s) && Pipeline(s) && Orders(s) && Outcomes(s)
  }

  // ---- Sequence lemmas -----------------------------------------------------------------------

  lemma LevelsTag(levels: seq<int>, fate: Fate)
    ensures Levels(Tag(levels, fate)) == levels
  {
  }

  lemma LevelsAppend(a: seq<Settled>, b: seq<Settled>)
    ensures Levels(a + b) == Levels(a) + Levels(b)
  {
  }

  lemma {:induction false} OfAppend(a: seq<Settled>, b: seq<Settled>, fate: Fate)
    ensures Of(a + b, fate) == Of(a, fate) + Of(b, fate)
    decreases |b|
  {
    if b == [] {
      assert a + b == a;
    } else {
      OfAppend(a, b[..|b| - 1], fate);
      assert (a + b)[..|a + b| - 1] == a + b[..|b| - 1];
    }
  }

  lemma {:induction false} OfTag(levels: seq<int>, given: Fate, asked: Fate)
    ensures Of(Tag(levels, given), asked) == if given == asked then levels else []
    decreases |levels|
  {
    if levels != [] {
      var n := |levels| - 1;
      OfTag(levels[..n], given, asked);
      assert Tag(levels, given)[..n] == Tag(levels[..n], given);
      assert levels == levels[..n] + [levels[n]];
    }
  }

  lemma {:induction false} OwnAppend(a: seq<Shot>, b: seq<Shot>)
    ensures OwnShots(a + b) == OwnShots(a) + OwnShots(b)
    decreases |b|
  {
    if b == [] {
      assert a + b == a;
    } else {
      OwnAppend(a, b[..|b| - 1]);
      assert (a + b)[..|a + b| - 1] == a + b[..|b| - 1];
    }
  }

  lemma {:induction false} NoOwn(shots: seq<Shot>)
    requires forall i | 0 <= i < |shots| :: !shots[i].Own?
    ensures OwnShots(shots) == []
    decreases |shots|
  {
    if shots != [] { NoOwn(shots[..|shots| - 1]); }
  }

  lemma {:induction false} ExpandNoOwn(counts: seq<nat>, from: int)
    ensures forall i | 0 <= i < |Expand(counts, from)| :: !Expand(counts, from)[i].Own?
    decreases |counts|
  {
    if counts != [] { ExpandNoOwn(counts[1..], from + 1); }
  }

  lemma OthersNoOwn(cfg: Config, tg: Toggles, level: int, attack: nat)
    ensures OwnShots(OtherShots(cfg, tg, level, attack)) == []
  {
    if attack < |cfg.persona| { ExpandNoOwn(cfg.persona[attack], 1); }
    NoOwn(OtherShots(cfg, tg, level, attack));
  }

  lemma TotalAppend(levels: seq<int>, x: int)
    ensures Total(levels + [x]) == Total(levels) + Cost(x)
  {
    assert (levels + [x])[..|levels|] == levels;
  }

  // ---- Each transition keeps them ------------------------------------------------------------

  lemma PhaseKeeps(cfg: Config, s: Cycle, a: Action)
    requires InPhase(s)
    ensures InPhase(Apply(cfg, s, a))
  {
    hide OtherShots, Tag;
    if a.Hq? && s.main.AwaitHq? { EscalateKeepsPhase(cfg, s.t, s.main.now); }
    hide Escalate;
  }

  lemma {:induction false} EscalateKeepsPhase(cfg: Config, t: Timers, now: int)
    ensures Escalate(cfg, t, now) == t.(level := Escalate(cfg, t, now).level,
                                        nextDifficulty := Escalate(cfg, t, now).nextDifficulty)
    decreases cfg.maxLevel - t.level
  {
    if t.nextDifficulty.Some? && now >= t.nextDifficulty.value && t.level < cfg.maxLevel {
      EscalateKeepsPhase(cfg, t.(level := t.level + 1,
        nextDifficulty := Some(t.nextDifficulty.value + Duration(cfg, t.level + 1))), now);
    }
  }

  lemma ClearOrders(s: Cycle)
    requires Orders(s)
    ensures Orders(ClearRound(s))
  {
    hide Tag;
    assert multiset(s.h.discarded + s.orders) == multiset(s.h.discarded) + multiset(s.orders);
  }

  lemma ClearOutcomes(s: Cycle)
    requires Outcomes(s) && !s.main.Others?
    ensures Outcomes(ClearRound(s))
  {
    hide Tag, Total, OwnShots, Of;
    var c := ClearRound(s);
    OfAppend(s.h.settled, Tag(s.bought, Cleared), Fired);
    OfTag(s.bought, Cleared, Fired);
    assert c.h.settled[c.h.mark..] == [];
    NoFate();
  }

  lemma ClearPipeline(s: Cycle)
    requires Pipeline(s) && s.main.Between?
    ensures Pipeline(ClearRound(s))
  {
    LevelsTag(s.bought, Cleared);
    LevelsAppend(s.h.settled, Tag(s.bought, Cleared));
    hide Tag, Levels;
  }

  lemma ClearKeeps(s: Cycle)
    requires Sound(s) && s.main.Between?
    ensures Pipeline(ClearRound(s)) && Orders(ClearRound(s)) && Outcomes(ClearRound(s))
  {
    hide Pipeline, Orders, Outcomes, ClearRound;
    ClearOrders(s);
    ClearOutcomes(s);
    ClearPipeline(s);
  }

  lemma StartKeeps(cfg: Config, s: Cycle, now: int, cause: Option<int>)
    requires Sound(s)
    ensures Sound(SignalStart(cfg, s, now, cause).0)
  {
    if s.t.phase == Paused {
      ClearKeeps(s);
      hide ClearRound, Levels, Of, Total, OwnShots;
      ClearedMain(s);
    }
  }

  lemma ClearedMain(s: Cycle)
    ensures ClearRound(s).main == s.main
  {
  }

  lemma ResetKeeps(s: Cycle)
    requires Sound(s) && s.main.Between?
    ensures Sound(Reset(s))
  {
    ClearKeeps(s);
    ClearedMain(s);
    hide ClearRound, Levels, Of, Total, OwnShots;
  }

  lemma BuyKeeps(s: Cycle, level: int)
    requires Sound(s)
    ensures Sound(BuyWave(s, level))
  {
    hide Levels, Of, Total, OwnShots;
    if KnownWave(level) {
      OneMore(s.h.asked, level);
      OneMore(s.orders, level);
    }
  }

  lemma HeadOff(todo: seq<int>)
    requires todo != []
    ensures multiset(todo) == multiset{todo[0]} + multiset(todo[1..])
  {
    assert todo == [todo[0]] + todo[1..];
  }

  lemma OneMore(levels: seq<int>, x: int)
    ensures multiset(levels + [x]) == multiset(levels) + multiset{x}
  {
  }

  lemma SpendKeeps(s: Cycle, ok: bool)
    requires Sound(s)
    ensures Sound(SpendOne(s, ok))
  {
    hide Levels, Of, OwnShots, Cost, Total, Orders;
    if s.resolver.Paying? && s.resolver.todo != [] {
      TotalAppend(s.h.paid, s.resolver.todo[0]);
      SpendOrders(s, ok);
    }
  }

  lemma SpendOrders(s: Cycle, ok: bool)
    requires Orders(s)
    ensures Orders(SpendOne(s, ok))
  {
    if s.resolver.Paying? && s.resolver.todo != [] {
      HeadOff(s.resolver.todo);
      OneMore(s.h.paid, s.resolver.todo[0]);
      OneMore(s.h.refused, s.resolver.todo[0]);
    }
  }

  lemma ResolverOrders(cfg: Config, s: Cycle, a: Action)
    requires Orders(s) && (a.TakeOrders? || a.Append?)
    ensures Orders(Apply(cfg, s, a))
  {
    var s' := Apply(cfg, s, a);
    assert s'.h == s.h;
    if a.TakeOrders? && s.resolver.Resting? {
      assert Todo(s'.resolver) == s.orders && Todo(s.resolver) == [] == s'.orders;
    } else {
      assert Todo(s'.resolver) == Todo(s.resolver) && s'.orders == s.orders;
    }
  }

  lemma ResolverKeeps(cfg: Config, s: Cycle, a: Action)
    requires Sound(s) && (a.TakeOrders? || a.Append?)
    ensures Sound(Apply(cfg, s, a))
  {
    hide Levels, Of, Total, OwnShots, Orders;
    ResolverOrders(cfg, s, a);
  }

  lemma OrdersFrame(s: Cycle, s': Cycle)
    requires Orders(s) && s'.orders == s.orders && s'.resolver == s.resolver
    requires s'.h.asked == s.h.asked && s'.h.paid == s.h.paid && s'.h.refused == s.h.refused
             && s'.h.discarded == s.h.discarded
    ensures Orders(s')
  {
  }

  lemma AdvanceKeepsOrders(cfg: Config, s: Cycle)
    requires Orders(s)
    ensures Orders(Advance(cfg, s))
  {
    hide Orders, OtherShots, Tag;
    OrdersFrame(s, Advance(cfg, s));
  }

  lemma AdvanceKeepsPhase(cfg: Config, s: Cycle)
    requires InPhase(s)
    ensures InPhase(Advance(cfg, s))
  {
    hide OtherShots, Tag;
  }

  lemma SettleOne(s: Cycle, level: int)
    requires s.h.mark <= |s.h.settled|
    ensures var settled := s.h.settled + [Settled(level, Fired)];
            && Levels(settled) == Levels(s.h.settled) + [level]
            && Of(settled, Fired) == Of(s.h.settled, Fired) + [level]
            && Of(settled[s.h.mark..], Tracked) == Of(s.h.settled[s.h.mark..], Tracked)
            && OwnShots(s.h.shots + [Own(level)]) == OwnShots(s.h.shots) + [level]
  {
    var one := [Settled(level, Fired)];
    LevelsAppend(s.h.settled, one);
    OfAppend(s.h.settled, one, Fired);
    OfAppend(s.h.settled[s.h.mark..], one, Tracked);
    OwnAppend(s.h.shots, [Own(level)]);
    assert one[..0] == [] && [Own(level)][..0] == [];
    assert (s.h.settled + one)[s.h.mark..] == s.h.settled[s.h.mark..] + one;
  }

  lemma Shift(a: seq<int>, rest: seq<int>, c: seq<int>, d: seq<int>)
    requires rest != []
    ensures a + rest + c + d == (a + [rest[0]]) + rest[1..] + c + d
  {
    assert rest == [rest[0]] + rest[1..];
  }

  lemma FireKeeps(cfg: Config, s: Cycle)
    requires Sound(s) && s.main.Firing?
    ensures Sound(Advance(cfg, s))
  {
    hide Levels, Of, Total, OwnShots, Orders, InPhase;
    AdvanceKeepsOrders(cfg, s);
    AdvanceKeepsPhase(cfg, s);
    var rest := s.main.rest;
    if rest != [] {
      SettleOne(s, rest[0]);
      Shift(Levels(s.h.settled), rest, s.bought, InFlight(s.resolver));
      hide InFlight;
      var s' := Advance(cfg, s);
      assert s'.h.settled == s.h.settled + [Settled(rest[0], Fired)];
      assert s'.h.shots == s.h.shots + [Own(rest[0])];
      assert Taken(s'.main) == rest[1..];
    }
  }

  lemma SettleTracked(s: Cycle, sent: seq<int>)
    requires s.h.mark <= |s.h.settled|
    ensures var settled := s.h.settled + Tag(sent, Tracked);
            && Levels(settled) == Levels(s.h.settled) + sent
            && Of(settled, Fired) == Of(s.h.settled, Fired)
            && Of(settled[s.h.mark..], Tracked) == Of(s.h.settled[s.h.mark..], Tracked) + sent
            && s.h.mark <= |settled|
  {
    var some := Tag(sent, Tracked);
    LevelsAppend(s.h.settled, some);
    LevelsTag(sent, Tracked);
    OfAppend(s.h.settled, some, Fired);
    OfTag(sent, Tracked, Fired);
    assert (s.h.settled + some)[s.h.mark..] == s.h.settled[s.h.mark..] + some;
    OfAppend(s.h.settled[s.h.mark..], some, Tracked);
    OfTag(sent, Tracked, Tracked);
  }

  lemma TrackKeeps(cfg: Config, s: Cycle)
    requires Sound(s) && s.main.Tracking?
    ensures Sound(Advance(cfg, s))
  {
    hide Levels, Of, Total, OwnShots, Orders, InPhase, Tag;
    AdvanceKeepsOrders(cfg, s);
    AdvanceKeepsPhase(cfg, s);
    SettleTracked(s, s.main.sent);
  }

  lemma AttackKeeps(cfg: Config, s: Cycle)
    requires Sound(s) && (s.main.AtAttack? || s.main.Others?)
    ensures Sound(Advance(cfg, s))
  {
    hide Levels, Of, Total, OwnShots, OtherShots, Orders, InPhase;
    AdvanceKeepsOrders(cfg, s);
    AdvanceKeepsPhase(cfg, s);
    if s.main.AtAttack? {
      OthersNoOwn(cfg, s.toggles, s.t.level, s.t.attackIndex);
    } else {
      OwnAppend(s.h.shots, s.main.shots);
    }
  }

  lemma RestKeeps(cfg: Config, s: Cycle)
    requires Sound(s)
    requires s.main.AtEvent? || s.main.AtEnemy? || s.main.Posting? || s.main.Between? || s.main.AwaitHq?
    ensures Sound(Advance(cfg, s))
  {
    hide Levels, Of, Total, OwnShots, Orders, InPhase;
    AdvanceKeepsOrders(cfg, s);
    AdvanceKeepsPhase(cfg, s);
    if s.main.Posting? && s.main.rest != [] {
      assert s.main.rest == [s.main.rest[0]] + s.main.rest[1..];
    }
  }

  /** Transitions that touch neither purchases nor shots. */
  lemma Unrelated(s: Cycle, s': Cycle)
    requires Sound(s) && InPhase(s') && Taken(s.main) == [] == Taken(s'.main)
    requires !s'.main.Others? && !s.main.Posting? && !s'.main.Posting?
    requires s' == s.(t := s'.t, toggles := s'.toggles, startEpoch := s'.startEpoch,
                      signaled := s'.signaled, main := s'.main,
                      h := s.h.(start := s'.h.start, clock := s'.h.clock, events := s'.h.events))
    ensures Sound(s')
  {
    hide Levels, Of, Total, OwnShots, InPhase, Orders;
    OrdersFrame(s, s');
  }

  lemma OtherwiseKeeps(cfg: Config, s: Cycle, a: Action)
    requires Sound(s) && (a.Begin? || a.Hq? || a.PollConfig?)
    ensures Sound(Apply(cfg, s, a))
  {
    hide Sound, Escalate, InPhase, Duration;
    SoundPhase(s);
    PhaseKeeps(cfg, s, a);
    var s' := Apply(cfg, s, a);
    if s' != s { Unrelated(s, s'); }
  }

  lemma SoundPhase(s: Cycle)
    requires Sound(s)
    ensures InPhase(s)
  {
  }

  lemma ApplyKeeps(cfg: Config, s: Cycle, a: Action)
    requires Sound(s)
    ensures Sound(Apply(cfg, s, a))
  {
    hide Sound, SignalStart, Reset, BuyWave, SpendOne, BeginStep, HqAnswer, Advance, NoteSignal;
    match a
    case Buy(level) => BuyKeeps(s, level);
    case HttpStart(now) => StartKeeps(cfg, s, now, None);
    case Spend(ok) => SpendKeeps(s, ok);
    case TakeOrders => ResolverKeeps(cfg, s, a);
    case Append => ResolverKeeps(cfg, s, a);
    case DoReset => if s.main.Between? { ResetKeeps(s); }
    case SyncStart(now) =>
      if s.main.Between? && s.signaled {
        UnsignalKeeps(s);
        StartKeeps(cfg, s.(signaled := false), now, s.startEpoch);
      }
    case RoundReset(now) =>
      if s.main.Between? {
        ResetKeeps(s);
        StartKeeps(cfg, Reset(s), now, None);
      }
    case Next =>
      if s.main.Firing? { FireKeeps(cfg, s); }
      else if s.main.Tracking? { TrackKeeps(cfg, s); }
      else if s.main.AtAttack? || s.main.Others? { AttackKeeps(cfg, s); }
      else { RestKeeps(cfg, s); }
    case _ => OtherwiseKeeps(cfg, s, a);
  }

  lemma UnsignalKeeps(s: Cycle)
    requires Sound(s)
    ensures Sound(s.(signaled := false))
  {
    hide Levels, Of, Total, OwnShots;
  }

  lemma {:induction false} RunKeeps(cfg: Config, s: Cycle, actions: seq<Action>)
    requires Sound(s)
    ensures Sound(Run(cfg, s, actions))
    decreases |actions|
  {
    hide Sound, Apply;
    if actions != [] {
      ApplyKeeps(cfg, s, actions[0]);
      RunKeeps(cfg, Apply(cfg, s, actions[0]), actions[1..]);
    }
  }

  // ---- What it means -----------------------------------------------------------------------------

  lemma {:induction false} EveryFate(settled: seq<Settled>)
    ensures multiset(Levels(settled)) == multiset(Of(settled, Fired)) + multiset(Of(settled, Tracked))
                                         + multiset(Of(settled, Cleared))
    decreases |settled|
  {
    hide Levels, Of;
    if settled == [] {
      NoFate();
    } else {
      var n := |settled| - 1;
      var last := settled[n];
      EveryFate(settled[..n]);
      LevelsLast(settled);
      OneMore(Levels(settled[..n]), last.level);
      OneMore(Of(settled[..n], last.fate), last.level);
      LastOf(settled, Fired);
      LastOf(settled, Tracked);
      LastOf(settled, Cleared);
    }
  }

  lemma NoFate()
    ensures Levels([]) == [] && forall fate :: Of([], fate) == []
  {
  }

  lemma LevelsLast(settled: seq<Settled>)
    requires settled != []
    ensures Levels(settled) == Levels(settled[..|settled| - 1]) + [settled[|settled| - 1].level]
  {
  }

  lemma LastOf(settled: seq<Settled>, fate: Fate)
    requires settled != []
    ensures var n := |settled| - 1;
            Of(settled, fate) == if settled[n].fate == fate then Of(settled[..n], fate) + [settled[n].level]
                                 else Of(settled[..n], fate)
  {
  }

  /** Conservation, in every run: the waves successfully paid for are those fired locally,
      tracked as outgoing, cleared, taken by the attack in progress, waiting in the bought
      queue or on the way to it; the carbonium spent is the sum of their prices; and own
      shots are exactly the settled waves that were fired, in the order they were paid. */
  lemma PurchasesConserved(cfg: Config, toggles: Toggles, actions: seq<Action>)
    ensures var s := Run(cfg, Boot(toggles), actions);
            && multiset(s.h.paid) == multiset(OwnShots(s.h.shots))
                 + multiset(Of(s.h.settled, Tracked)) + multiset(Of(s.h.settled, Cleared))
                 + multiset(Taken(s.main)) + multiset(s.bought) + multiset(InFlight(s.resolver))
            && s.h.carbonium == Total(s.h.paid)
            && Levels(s.h.settled) <= s.h.paid && s.h.mark <= |s.h.settled|
            && s.outgoing == Of(s.h.settled[s.h.mark..], Tracked)
  {
    BootSound(toggles);
    RunKeeps(cfg, Boot(toggles), actions);
    var s := Run(cfg, Boot(toggles), actions);
    hide Levels, Of, Run, OwnShots, Total, Orders, InPhase;
    EveryFate(s.h.settled);
    Joined(Levels(s.h.settled), Taken(s.main), s.bought, InFlight(s.resolver));
  }

  lemma Joined(a: seq<int>, b: seq<int>, c: seq<int>, d: seq<int>)
    ensures multiset(a + b + c + d) == multiset(a) + multiset(b) + multiset(c) + multiset(d)
    ensures a <= a + b + c + d
  {
  }

  lemma BootSound(toggles: Toggles)
    ensures Sound(Boot(toggles))
  {
  }

  /** Every accepted order is paid, refused, discarded unpaid by a new round, or open. */
  lemma OrdersAccountedFor(cfg: Config, toggles: Toggles, actions: seq<Action>)
    ensures var s := Run(cfg, Boot(toggles), actions);
            multiset(s.h.asked) == multiset(s.h.paid) + multiset(s.h.refused)
              + multiset(s.h.discarded) + multiset(Todo(s.resolver)) + multiset(s.orders)
  {
    hide Run, Pipeline, Outcomes, InPhase;
    BootSound(toggles);
    RunKeeps(cfg, Boot(toggles), actions);
  }

  /** Each wave sent to the enemy is posted to the referee once, in order. */
  lemma EnemyPostedOnce(cfg: Config, toggles: Toggles, actions: seq<Action>)
    ensures var s := Run(cfg, Boot(toggles), actions);
            s.h.posted <= s.h.enemyAll && (s.main.Between? ==> s.h.posted == s.h.enemyAll)
  {
    hide Run, Pipeline, Orders, InPhase;
    BootSound(toggles);
    RunKeeps(cfg, Boot(toggles), actions);
  }
}
