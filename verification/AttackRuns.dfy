/** Passes that nobody interrupts, as runs of the interleaving model. */
module AttackRuns {
  import opened Naming
  import opened AttackModel

  // ---- Passes without interruption ---------------------------------------------------------

  function Stage(m: Main): nat
  {
    match m
    case AtEvent(_) => 6
    case AtAttack(_) => 5
    case Others(_, _, _, _) => 4
    case Firing(_, _, _) => 3
    case Tracking(_, _) => 3
    case AtEnemy(_, _) => 2
    case Posting(_) => 1
    case _ => 0
  }

  function Left(m: Main): nat
  {
    match m
    case Firing(rest, _, _) => |rest|
    case Posting(rest) => |rest|
    case _ => 0
  }

  /** The rest of a step. */
  function Finish(cfg: Config, s: Cycle): Cycle
    decreases Stage(s.main), Left(s.main)
  {
    if Stage(s.main) == 0 then s else Finish(cfg, Advance(cfg, s))
  }

  /** One poll: clock, HQ answer, and whatever follows. */
  function WholeStep(cfg: Config, s: Cycle, now: int, hq: Option<bool>): Cycle
  {
    Finish(cfg, HqAnswer(cfg, BeginStep(s, now), hq))
  }

  /** One order paid or dropped. */
  function ResolveOne(cfg: Config, s: Cycle, ok: bool): Cycle
  {
    var s' := SpendOne(s, ok);
    if ok then Apply(cfg, s', Append) else s'
  }

  function ResolveAll(cfg: Config, s: Cycle, answers: nat -> bool, i: nat): Cycle
    decreases |TodoLeft(s)|
  {
    if TodoLeft(s) == [] then s else ResolveAll(cfg, ResolveOne(cfg, s, answers(i)), answers, i + 1)
  }

  function TodoLeft(s: Cycle): seq<int>
  {
    if s.resolver.Paying? then s.resolver.todo else []
  }

  /** A whole step is a run of transitions, so what holds of all runs holds of it. */
  lemma StepIsRun(cfg: Config, s: Cycle, now: int, hq: Option<bool>) returns (actions: seq<Action>)
    ensures Run(cfg, s, actions) == WholeStep(cfg, s, now, hq)
    ensures forall a | a in actions :: a in [Begin(now), Hq(hq), Next]
  {
    hide BeginStep, HqAnswer, Advance;
    var asked := BeginStep(s, now);
    var rest := FinishIsRun(cfg, HqAnswer(cfg, asked, hq));
    actions := [Begin(now), Hq(hq)] + rest;
    assert actions[1..] == [Hq(hq)] + rest && actions[1..][1..] == rest;
    assert Apply(cfg, s, Begin(now)) == asked;
    assert Run(cfg, asked, actions[1..]) == Run(cfg, HqAnswer(cfg, asked, hq), rest);
  }

  lemma {:induction false} FinishIsRun(cfg: Config, s: Cycle) returns (actions: seq<Action>)
    ensures Run(cfg, s, actions) == Finish(cfg, s)
    ensures forall a | a in actions :: a == Next
    decreases Stage(s.main), Left(s.main)
  {
    if Stage(s.main) == 0 {
      actions := [];
    } else {
      var rest := FinishIsRun(cfg, Advance(cfg, s));
      hide Advance;
      actions := [Next] + rest;
      assert actions[1..] == rest;
    }
  }

  /** So is a resolver pass. */
  lemma {:induction false} ResolveIsRun(cfg: Config, s: Cycle, answers: nat -> bool, i: nat)
    returns (actions: seq<Action>)
    ensures Run(cfg, s, actions) == ResolveAll(cfg, s, answers, i)
    decreases |TodoLeft(s)|
  {
    if TodoLeft(s) == [] {
      actions := [];
    } else {
      var ok := answers(i);
      var rest := ResolveIsRun(cfg, ResolveOne(cfg, s, ok), answers, i + 1);
      hide SpendOne;
      actions := (if ok then [Spend(ok), Append] else [Spend(ok)]) + rest;
      assert actions[1..] == (if ok then [Append] + rest else rest);
      if ok { assert actions[1..][1..] == rest; }
    }
  }

  lemma Unroll(cfg: Config, s: Cycle)
    requires Stage(s.main) != 0
    ensures Finish(cfg, s) == Finish(cfg, Advance(cfg, s))
  {
  }

  lemma NothingLeft(cfg: Config, s: Cycle)
    requires s.main.Between?
    ensures Finish(cfg, s) == s
  {
  }

  lemma NothingAsked(cfg: Config, s: Cycle, hq: Option<bool>)
    requires s.main.Between?
    ensures HqAnswer(cfg, s, hq) == s
  {
  }

  lemma AtAttackNext(cfg: Config, s: Cycle)
    requires s.main.AtEvent?
    ensures Advance(cfg, s).main == AtAttack(s.main.now)
  {
  }

  lemma FiringNext(cfg: Config, s: Cycle)
    requires s.main.Others?
    ensures var s' := Advance(cfg, s);
            && s'.main == (if s.main.toSelf then Firing(s.main.sent, s.main.sent, s.main.toEnemy)
                           else Tracking(s.main.sent, s.main.toEnemy))
            && s'.toggles == s.toggles
  {
  }
}
