/** Rounds begun by start epochs: which epochs can begin one, and how often. */
module AttackEpochs {
  import opened Naming
  import opened AttackModel

  /** An action of a cycle whose only start source is the polled epoch. */
  predicate ByEpoch(a: Action)
  {
    !a.HttpStart? && !a.RoundReset? && (a.PollConfig? ==> !a.start)
  }

  // ---- Rising epochs -------------------------------------------------------------------------

  /** The epochs that have started a round, strictly increasing, none beyond the last seen. */
  predicate Counted(s: Cycle)
  {
    && (forall i | 0 <= i < |s.h.left| :: s.h.left[i].Some? && s.h.left[i].value > 0
                                           && s.startEpoch.Some?
                                           && s.h.left[i].value <= s.startEpoch.value)
    && (forall i, j | 0 <= i < j < |s.h.left| :: s.h.left[i].Some? && s.h.left[j].Some?
                                                  && s.h.left[i].value < s.h.left[j].value)
    && (s.signaled ==> s.startEpoch.Some? && s.startEpoch.value > 0
                       && forall i | 0 <= i < |s.h.left| :: s.h.left[i].Some?
                                                             && s.h.left[i].value < s.startEpoch.value)
  }

  lemma CountedKeeps(cfg: Config, s: Cycle, a: Action)
    requires Counted(s) && ByEpoch(a)
    requires a.PollConfig? && a.epoch.Some? && s.startEpoch.Some? ==> a.epoch.value >= s.startEpoch.value
    ensures Counted(Apply(cfg, s, a))
  {
    hide Counted, SignalStart, Reset, BuyWave, SpendOne, BeginStep, HqAnswer, Advance, NoteSignal;
    match a
    case PollConfig(epoch, start, toggles) =>
      if s.main.Between? { NoteCounts(s.(toggles := toggles), epoch); CountedFrame(s, s.(toggles := toggles)); }
    case SyncStart(now) => if s.main.Between? && s.signaled { StartCounts(cfg, s, now); }
    case _ =>
      SameCount(cfg, s, a);
      CountedFrame(s, Apply(cfg, s, a));
  }

  lemma CountedFrame(s: Cycle, s': Cycle)
    requires s'.h.left == s.h.left && s'.startEpoch == s.startEpoch && s'.signaled == s.signaled
    ensures Counted(s) ==> Counted(s')
  {
  }

  lemma SameCount(cfg: Config, s: Cycle, a: Action)
    requires !a.HttpStart? && !a.RoundReset? && !a.PollConfig? && !a.SyncStart?
    ensures var s' := Apply(cfg, s, a);
            s'.h.left == s.h.left && s'.startEpoch == s.startEpoch && s'.signaled == s.signaled
  {
    hide Escalate, OtherShots, Tag, Duration, Cost;
  }

  lemma NoteCounts(s: Cycle, epoch: Option<int>)
    requires epoch.Some? && s.startEpoch.Some? ==> epoch.value >= s.startEpoch.value
    ensures Counted(s) ==> Counted(NoteSignal(s, epoch, false))
  {
  }

  lemma StartCounts(cfg: Config, s: Cycle, now: int)
    requires Counted(s) && s.signaled
    ensures Counted(SignalStart(cfg, s.(signaled := false), now, s.startEpoch).0)
  {
    hide Tag;
  }

  // ---- Any epochs --------------------------------------------------------------------------------

  /** The epochs the main loop polls, in order. */
  function Polled(cfg: Config, s: Cycle, actions: seq<Action>): seq<Option<int>>
    decreases |actions|
  {
    if actions == [] then []
    else
      (if actions[0].PollConfig? && s.main.Between? then [actions[0].epoch] else [])
      + Polled(cfg, Apply(cfg, s, actions[0]), actions[1..])
  }

  /** The changes to a positive epoch, `last` being the last one seen. */
  function Edges(last: Option<int>, es: seq<Option<int>>): seq<int>
    decreases |es|
  {
    if es == [] then []
    else if es[0].Some? && es[0].value > 0 && es[0] != last then
      [es[0].value] + Edges(es[0], es[1..])
    else Edges(last, es[1..])
  }

  /** `a` is what is left of `b` when some members are dropped. */
  predicate Sub(a: seq<int>, b: seq<int>)
    decreases |b|
  {
    a == [] || (b != [] && ((a[0] == b[0] && Sub(a[1..], b[1..])) || Sub(a, b[1..])))
  }

  predicate Distinct(a: seq<int>)
  {
    forall i, j | 0 <= i < j < |a| :: a[i] != a[j]
  }

  lemma SubCons(x: int, a: seq<int>, b: seq<int>)
    requires Sub(a, b)
    ensures Sub(a, [x] + b) && Sub([x] + a, [x] + b)
  {
    assert ([x] + b)[1..] == b && ([x] + a)[1..] == a;
  }

  lemma {:induction false} SubIn(a: seq<int>, b: seq<int>)
    requires Sub(a, b)
    ensures forall x | x in a :: x in b
    decreases |b|
  {
    if a != [] {
      if a[0] == b[0] && Sub(a[1..], b[1..]) {
        SubIn(a[1..], b[1..]);
        assert forall x :: x in a <==> x == a[0] || x in a[1..];
      } else {
        SubIn(a, b[1..]);
      }
    }
  }

  lemma {:induction false} SubDistinct(a: seq<int>, b: seq<int>)
    requires Sub(a, b) && Distinct(b)
    ensures Distinct(a)
    decreases |b|
  {
    if a != [] {
      assert forall i | 0 <= i < |b| - 1 :: b[1..][i] == b[i + 1];
      if a[0] == b[0] && Sub(a[1..], b[1..]) {
        SubDistinct(a[1..], b[1..]);
        SubIn(a[1..], b[1..]);
        assert b[0] !in b[1..];
        forall i, j | 0 <= i < j < |a| ensures a[i] != a[j] {
          assert a[j] == a[1..][j - 1] && a[j] in a[1..];
          if i > 0 { assert a[i] == a[1..][i - 1]; }
        }
      } else {
        SubDistinct(a, b[1..]);
      }
    }
  }

  /** A signal seen and not yet applied. */
  function Pending(s: Cycle): seq<int>
  {
    if s.signaled && s.startEpoch.Some? then [s.startEpoch.value] else []
  }

  /** The epochs of the rounds begun beyond the first `n`. */
  function Begun(left: seq<Option<int>>, n: nat): seq<int>
    requires n <= |left|
    decreases |left| - n
  {
    if n == |left| then []
    else (if left[n].Some? then [left[n].value] else []) + Begun(left, n + 1)
  }

  /** What one action does to rounds and signal. */
  lemma StartEffect(cfg: Config, s: Cycle, a: Action)
    requires ByEpoch(a) && (s.signaled ==> s.startEpoch.Some?)
    ensures var s' := Apply(cfg, s, a);
            && (s'.signaled ==> s'.startEpoch.Some?)
            && (if a.PollConfig? && s.main.Between? then
                  s'.h.left == s.h.left
                  && (if a.epoch.Some? && a.epoch.value > 0 && a.epoch != s.startEpoch
                      then s'.startEpoch == a.epoch && s'.signaled
                      else s'.startEpoch == s.startEpoch && s'.signaled == s.signaled)
                else
                  && s'.startEpoch == s.startEpoch
                  && (s'.h.left == s.h.left || (s'.h.left == s.h.left + [s.startEpoch] && s.signaled
                                                && !s'.signaled))
                  && (s'.signaled ==> s.signaled))
  {
    if !a.PollConfig? && !a.SyncStart? { SameCount(cfg, s, a); }
    hide Tag, Escalate, OtherShots, Duration, Cost;
  }

  lemma BegunHead(left: seq<Option<int>>, n: nat)
    requires n < |left| && left[n].Some?
    ensures Begun(left, n) == [left[n].value] + Begun(left, n + 1)
  {
  }

  lemma {:induction false} BegunSkips(left: seq<Option<int>>, more: seq<Option<int>>, n: nat)
    requires n <= |left| <= |more| && left == more[..|left|]
    requires forall i | n <= i < |left| :: left[i].Some?
    ensures Begun(more, n) == Begun(left, n) + Begun(more, |left|)
    decreases |left| - n
  {
    if n < |left| {
      BegunSkips(left, more, n + 1);
      assert left[n] == more[n];
      BegunHead(left, n);
      BegunHead(more, n);
    }
    hide Begun;
  }

  lemma BegunOne(left: seq<Option<int>>, x: int)
    ensures Begun(left + [Some(x)], |left|) == [x]
  {
    assert Begun(left + [Some(x)], |left| + 1) == [];
  }

  lemma {:induction false} LeftGrows(cfg: Config, s: Cycle, actions: seq<Action>)
    requires (s.signaled ==> s.startEpoch.Some?) && forall a | a in actions :: ByEpoch(a)
    ensures s.h.left <= Run(cfg, s, actions).h.left
    decreases |actions|
  {
    hide Apply, ByEpoch;
    if actions != [] {
      assert actions[0] in actions;
      StartEffect(cfg, s, actions[0]);
      LeftGrows(cfg, Apply(cfg, s, actions[0]), actions[1..]);
    }
  }

  /** The rounds a run begins are some of the epoch changes it polls, in their order: a change
      begins one round or none. */
  lemma {:induction false} RoundsFollowEdges(cfg: Config, s: Cycle, actions: seq<Action>)
    requires (s.signaled ==> s.startEpoch.Some?) && forall a | a in actions :: ByEpoch(a)
    ensures var s' := Run(cfg, s, actions);
            && s.h.left <= s'.h.left
            && Sub(Begun(s'.h.left, |s.h.left|), Pending(s) + Edges(s.startEpoch, Polled(cfg, s, actions)))
    decreases |actions|
  {
    hide Apply, ByEpoch, Sub, Begun;
    LeftGrows(cfg, s, actions);
    if actions == [] {
      NothingBegun(s.h.left, Pending(s) + Edges(s.startEpoch, []));
    } else {
      var a := actions[0];
      assert a in actions;
      StartEffect(cfg, s, a);
      var s1 := Apply(cfg, s, a);
      RoundsFollowEdges(cfg, s1, actions[1..]);
      var rest := Polled(cfg, s1, actions[1..]);
      EdgesStep(cfg, s, a, s1, rest, Run(cfg, s1, actions[1..]).h.left);
      assert Polled(cfg, s, actions)
          == (if a.PollConfig? && s.main.Between? then [a.epoch] else []) + rest;
    }
  }

  lemma NothingBegun(left: seq<Option<int>>, b: seq<int>)
    ensures Sub(Begun(left, |left|), b)
  {
  }

  lemma EdgesStep(cfg: Config, s: Cycle, a: Action, s1: Cycle, rest: seq<Option<int>>,
                  left: seq<Option<int>>)
    requires ByEpoch(a) && (s.signaled ==> s.startEpoch.Some?) && s1 == Apply(cfg, s, a)
    requires s1.h.left <= left
    requires Sub(Begun(left, |s1.h.left|), Pending(s1) + Edges(s1.startEpoch, rest))
    ensures s.h.left <= left
    ensures Sub(Begun(left, |s.h.left|),
                Pending(s) + Edges(s.startEpoch,
                                   (if a.PollConfig? && s.main.Between? then [a.epoch] else []) + rest))
  {
    hide Apply, ByEpoch, Sub, Begun;
    StartEffect(cfg, s, a);
    var begun := Begun(left, |s1.h.left|);
    var after := Edges(s1.startEpoch, rest);
    if a.PollConfig? && s.main.Between? {
      assert ([a.epoch] + rest)[1..] == rest;
      if a.epoch.Some? && a.epoch.value > 0 && a.epoch != s.startEpoch {
        assert Edges(s.startEpoch, [a.epoch] + rest) == [a.epoch.value] + after;
        assert Pending(s1) == [a.epoch.value];
        if s.signaled { SubCons(s.startEpoch.value, begun, [a.epoch.value] + after); }
        else { assert [] + ([a.epoch.value] + after) == [a.epoch.value] + after; }
      } else {
        assert Edges(s.startEpoch, [a.epoch] + rest) == after && Pending(s1) == Pending(s);
      }
    } else {
      assert [] + rest == rest;
      if s1.h.left != s.h.left {
        var x := s.startEpoch.value;
        assert Pending(s1) == [] && [] + after == after;
        SubCons(x, begun, after);
        BegunSkips(s1.h.left, left, |s.h.left|) by {
          assert left[..|s1.h.left|] == s1.h.left;
        }
        BegunOne(s.h.left, x);
        assert Begun(left, |s.h.left|) == [x] + begun;
      } else if Pending(s1) != Pending(s) {
        assert Pending(s1) == [] && [] + after == after;
        SubCons(s.startEpoch.value, begun, after);
      }
    }
  }

  // ---- Exactly ------------------------------------------------------------------------------------

  /** However the polls of these epochs are mixed with everything else the cycle does, no epoch
      begins two rounds. */
  ghost predicate OncePerEpoch(cfg: Config, toggles: Toggles, es: seq<Option<int>>)
  {
    forall actions: seq<Action> |
      (forall a | a in actions :: ByEpoch(a)) && Polled(cfg, Boot(toggles), actions) == es ::
      Distinct(Begun(Run(cfg, Boot(toggles), actions).h.left, 0))
  }

  /** Each epoch polled, applied, and the round reset. */
  function Eager(toggles: Toggles, es: seq<Option<int>>): seq<Action>
  {
    if es == [] then []
    else [PollConfig(es[0], false, toggles), SyncStart(0), DoReset] + Eager(toggles, es[1..])
  }

  lemma {:induction false} EagerByEpoch(toggles: Toggles, es: seq<Option<int>>)
    ensures forall a | a in Eager(toggles, es) :: ByEpoch(a)
    decreases |es|
  {
    if es != [] {
      EagerByEpoch(toggles, es[1..]);
      var head := [PollConfig(es[0], false, toggles), SyncStart(0), DoReset];
      assert forall a | a in Eager(toggles, es) :: a in head || a in Eager(toggles, es[1..]);
    }
  }

  /** Paused, between two polls, with nothing pending. */
  predicate AtRest(s: Cycle)
  {
    s.main.Between? && s.t.phase == Paused && !s.signaled
  }

  /** One round of the eager run. */
  lemma EagerStep(cfg: Config, toggles: Toggles, s: Cycle, e: Option<int>)
    requires AtRest(s)
    ensures var s1 := Apply(cfg, s, PollConfig(e, false, toggles));
            var s2 := Apply(cfg, s1, SyncStart(0));
            var s3 := Apply(cfg, s2, DoReset);
            && s.main.Between? && s1.main.Between? && s2.main.Between? && AtRest(s3)
            && (if e.Some? && e.value > 0 && e != s.startEpoch
                then s3.startEpoch == e && s3.h.left == s.h.left + [e]
                else s3.startEpoch == s.startEpoch && s3.h.left == s.h.left)
  {
    hide Tag;
  }

  lemma {:induction false} EagerBegins(cfg: Config, toggles: Toggles, s: Cycle, es: seq<Option<int>>)
    requires AtRest(s)
    ensures var actions := Eager(toggles, es);
            var left := Run(cfg, s, actions).h.left;
            && Polled(cfg, s, actions) == es
            && s.h.left <= left && Begun(left, |s.h.left|) == Edges(s.startEpoch, es)
    decreases |es|
  {
    hide Apply, AtRest, Begun;
    if es == [] {
      NoneBegun(s.h.left);
    } else {
      EagerStep(cfg, toggles, s, es[0]);
      var rest := Eager(toggles, es[1..]);
      var a1, a2, a3 := PollConfig(es[0], false, toggles), SyncStart(0), DoReset;
      var s1 := Apply(cfg, s, a1);
      var s2 := Apply(cfg, s1, a2);
      var s3 := Apply(cfg, s2, a3);
      EagerBegins(cfg, toggles, s3, es[1..]);
      ThreeSteps(cfg, s, a1, a2, a3, rest);
      var left := Run(cfg, s3, rest).h.left;
      assert [es[0]] + es[1..] == es;
      if s3.h.left != s.h.left {
        BegunSkips(s3.h.left, left, |s.h.left|) by {
          assert left[..|s3.h.left|] == s3.h.left;
        }
        BegunOne(s.h.left, es[0].value);
      }
    }
  }

  lemma NoneBegun(left: seq<Option<int>>)
    ensures Begun(left, |left|) == []
  {
  }

  lemma ThreeSteps(cfg: Config, s: Cycle, a1: Action, a2: Action, a3: Action, rest: seq<Action>)
    requires a1.PollConfig? && !a2.PollConfig? && !a3.PollConfig? && s.main.Between?
    ensures var s3 := Apply(cfg, Apply(cfg, Apply(cfg, s, a1), a2), a3);
            && Run(cfg, s, [a1, a2, a3] + rest) == Run(cfg, s3, rest)
            && Polled(cfg, s, [a1, a2, a3] + rest) == [a1.epoch] + Polled(cfg, s3, rest)
  {
    hide Apply, Run, Polled;
    assert [a1, a2, a3] + rest == [a1] + ([a2] + ([a3] + rest));
    var s1 := Apply(cfg, s, a1);
    var s2 := Apply(cfg, s1, a2);
    OneStep(cfg, s, a1, [a2] + ([a3] + rest));
    OneStep(cfg, s1, a2, [a3] + rest);
    OneStep(cfg, s2, a3, rest);
    var last := Polled(cfg, Apply(cfg, s2, a3), rest);
    assert [] + last == last;
  }

  lemma OneStep(cfg: Config, s: Cycle, a: Action, rest: seq<Action>)
    ensures Run(cfg, s, [a] + rest) == Run(cfg, Apply(cfg, s, a), rest)
    ensures Polled(cfg, s, [a] + rest)
         == (if a.PollConfig? && s.main.Between? then [a.epoch] else []) + Polled(cfg, Apply(cfg, s, a), rest)
  {
    hide Apply;
    assert ([a] + rest)[1..] == rest;
  }

  /** The exact condition, for every sequence of polled epochs: each epoch begins at most one
      round in every run if and only if no epoch is changed to twice. An epoch that falls, as
      after a restart of the bridge, and comes back is changed to twice. */
  lemma OneRoundPerEpochIff(cfg: Config, toggles: Toggles, es: seq<Option<int>>)
    ensures OncePerEpoch(cfg, toggles, es) <==> Distinct(Edges(None, es))
  {
    hide Apply, Sub, ByEpoch, Distinct, Run;
    var s := Boot(toggles);
    if Distinct(Edges(None, es)) {
      forall actions: seq<Action> |
        (forall a | a in actions :: ByEpoch(a)) && Polled(cfg, s, actions) == es
        ensures Distinct(Begun(Run(cfg, s, actions).h.left, 0))
      {
        RoundsFollowEdges(cfg, s, actions);
        assert [] + Edges(None, es) == Edges(None, es);
        SubDistinct(Begun(Run(cfg, s, actions).h.left, 0), Edges(None, es));
      }
    } else {
      EagerByEpoch(toggles, es);
      EagerBegins(cfg, toggles, s, es);
      assert !Distinct(Begun(Run(cfg, s, Eager(toggles, es)).h.left, 0));
    }
  }

  predicate Rising(es: seq<Option<int>>)
  {
    forall i, j | 0 <= i < j < |es| && es[i].Some? && es[j].Some? :: es[i].value <= es[j].value
  }

  lemma EdgesHead(last: Option<int>, e: Option<int>, rest: seq<Option<int>>)
    ensures Edges(last, [e] + rest)
         == if e.Some? && e.value > 0 && e != last then [e.value] + Edges(e, rest) else Edges(last, rest)
  {
    assert ([e] + rest)[1..] == rest;
  }

  lemma {:induction false} RisingEdges(last: Option<int>, es: seq<Option<int>>)
    requires Rising(es)
    requires last.Some? ==> forall i | 0 <= i < |es| && es[i].Some? :: last.value <= es[i].value
    ensures var b := Edges(last, es);
            && (forall i | 0 <= i < |b| :: b[i] > 0 && (last.Some? ==> b[i] > last.value))
            && (forall i, j | 0 <= i < j < |b| :: b[i] < b[j])
    decreases |es|
  {
    hide Edges;
    if es == [] {
      NoEdges(last);
    } else {
      assert forall i | 0 <= i < |es| - 1 :: es[1..][i] == es[i + 1];
      EdgesHead(last, es[0], es[1..]);
      assert [es[0]] + es[1..] == es;
      if es[0].Some? && es[0].value > 0 && es[0] != last {
        RisingEdges(es[0], es[1..]);
        RisingCons(es[0].value, Edges(es[0], es[1..]));
      } else {
        RisingEdges(last, es[1..]);
      }
    }
  }

  lemma NoEdges(last: Option<int>)
    ensures Edges(last, []) == []
  {
  }

  lemma RisingCons(x: int, rest: seq<int>)
    requires forall i | 0 <= i < |rest| :: rest[i] > x
    requires forall i, j | 0 <= i < j < |rest| :: rest[i] < rest[j]
    ensures var b := [x] + rest;
            && (forall i | 0 <= i < |b| :: b[i] >= x)
            && (forall i, j | 0 <= i < j < |b| :: b[i] < b[j])
  {
  }

  /** A bridge that only counts up therefore begins each epoch at most once. */
  lemma OneRoundPerEpoch(cfg: Config, toggles: Toggles, es: seq<Option<int>>)
    requires Rising(es)
    ensures OncePerEpoch(cfg, toggles, es)
  {
    RisingEdges(None, es);
    OneRoundPerEpochIff(cfg, toggles, es);
    hide OncePerEpoch, Edges;
  }

  /** And one that starts anew can begin an old epoch again. */
  lemma FallenEpochAgain(cfg: Config, toggles: Toggles)
    ensures !OncePerEpoch(cfg, toggles, [Some(1), Some(2), Some(0), Some(1)])
  {
    var es: seq<Option<int>> := [Some(1), Some(2), Some(0), Some(1)];
    assert es == [Some(1)] + ([Some(2)] + ([Some(0)] + ([Some(1)] + [])));
    EdgesHead(None, Some(1), [Some(2)] + ([Some(0)] + ([Some(1)] + [])));
    EdgesHead(Some(1), Some(2), [Some(0)] + ([Some(1)] + []));
    EdgesHead(Some(2), Some(0), [Some(1)] + []);
    EdgesHead(Some(2), Some(1), []);
    assert Edges(None, es) == [1, 2, 1];
    assert Edges(None, es)[0] == Edges(None, es)[2];
    OneRoundPerEpochIff(cfg, toggles, es);
    hide OncePerEpoch, Edges;
  }
}
