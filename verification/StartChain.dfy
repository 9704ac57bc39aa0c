/** From "/ready" to a round: the bridge's gate and start epoch on one side, the attack cycle
    polling that epoch on the other, in every interleaving. */
module StartChain {
  import opened Naming
  import G = ReadyGate
  import C = AttackModel
  import E = AttackEpochs

  datatype Joint = Joint(bridge: G.World, cycle: C.Cycle)

  /** A step of the bridge, a step of the cycle of its own, or a poll of the bridge's
      configuration by the cycle. */
  datatype Action = Bridge(b: G.Action) | Cycle(c: C.Action) | Poll(toggles: C.Toggles)

  /** The cycle has no other start source, and hears of epochs only by polling. */
  predicate Own(a: Action)
  {
    a.Cycle? ==> E.ByEpoch(a.c) && !a.c.PollConfig?
  }

  function Apply(cfg: C.Config, j: Joint, a: Action): Joint
  {
    match a
    case Bridge(b) => j.(bridge := G.Apply(j.bridge, b))
    case Cycle(c) => j.(cycle := C.Apply(cfg, j.cycle, c))
    case Poll(toggles) =>
      j.(cycle := C.Apply(cfg, j.cycle, C.PollConfig(Some(j.bridge.epoch), false, toggles)))
  }

  function Run(cfg: C.Config, j: Joint, actions: seq<Action>): Joint
    decreases |actions|
  {
    if actions == [] then j else Run(cfg, Apply(cfg, j, actions[0]), actions[1..])
  }

  function Boot(setting: int, now: int, toggles: C.Toggles): Joint
  {
    Joint(G.Boot(G.TimeoutCap(setting, 180), now), C.Boot(toggles))
  }

  /** The cycle has seen no epoch that the bridge has not reached. */
  predicate Inv(j: Joint)
  {
    && G.Inv(j.bridge) && E.Counted(j.cycle)
    && (j.cycle.startEpoch.Some? ==> j.cycle.startEpoch.value <= j.bridge.epoch)
  }

  lemma EpochGrows(w: G.World, a: G.Action)
    ensures G.Apply(w, a).epoch >= w.epoch
  {
    hide G.OnChat, G.IsReady, G.Tick, G.Reset;
  }

  /** A cycle's own step teaches it no epoch. */
  lemma EpochUnseen(cfg: C.Config, c: C.Cycle, a: C.Action)
    requires E.ByEpoch(a) && !a.PollConfig?
    ensures C.Apply(cfg, c, a).startEpoch == c.startEpoch
  {
    if !a.SyncStart? { E.SameCount(cfg, c, a); }
    hide C.Tag;
  }

  lemma PollSees(cfg: C.Config, c: C.Cycle, epoch: int, toggles: C.Toggles)
    ensures var c' := C.Apply(cfg, c, C.PollConfig(Some(epoch), false, toggles));
            c'.startEpoch == c.startEpoch || c'.startEpoch == Some(epoch)
  {
  }

  lemma ApplyKeeps(cfg: C.Config, j: Joint, a: Action)
    requires Inv(j) && Own(a)
    ensures Inv(Apply(cfg, j, a))
  {
    hide G.Inv, E.Counted, G.Apply, C.Apply;
    match a
    case Bridge(b) =>
      G.ApplyKeeps(j.bridge, b);
      EpochGrows(j.bridge, b);
    case Cycle(c) =>
      E.CountedKeeps(cfg, j.cycle, c);
      EpochUnseen(cfg, j.cycle, c);
    case Poll(toggles) =>
      E.CountedKeeps(cfg, j.cycle, C.PollConfig(Some(j.bridge.epoch), false, toggles));
      PollSees(cfg, j.cycle, j.bridge.epoch, toggles);
  }

  lemma {:induction false} RunKeeps(cfg: C.Config, j: Joint, actions: seq<Action>)
    requires Inv(j) && forall i | 0 <= i < |actions| :: Own(actions[i])
    ensures Inv(Run(cfg, j, actions))
    decreases |actions|
  {
    hide Inv, Apply, Own;
    if actions != [] {
      ApplyKeeps(cfg, j, actions[0]);
      assert forall i | 0 <= i < |actions| - 1 :: actions[1..][i] == actions[i + 1];
      RunKeeps(cfg, Apply(cfg, j, actions[0]), actions[1..]);
    }
  }

  /** Strictly rising positive numbers up to `top` are at most `top` many. */
  lemma {:induction false} RisingIsShort(left: seq<Option<int>>, top: int, i: nat)
    requires forall k | 0 <= k < |left| :: left[k].Some? && 0 < left[k].value <= top
    requires forall k, l | 0 <= k < l < |left| :: left[k].Some? && left[l].Some? && left[k].value < left[l].value
    requires i < |left|
    ensures left[i].value >= i + 1
  {
    if i > 0 {
      RisingIsShort(left, top, i - 1);
    }
  }

  /** From the gate to the round: every round was begun by an epoch of its own that the bridge
      had reached, so there are never more rounds than complete ready gates and start requests
      together. */
  lemma RoundsHaveCauses(cfg: C.Config, setting: int, now: int, toggles: C.Toggles, actions: seq<Action>)
    requires now >= 0 && forall i | 0 <= i < |actions| :: Own(actions[i])
    ensures var j := Run(cfg, Boot(setting, now, toggles), actions);
            var left := j.cycle.h.left;
            && (forall k | 0 <= k < |left| :: left[k].Some? && 0 < left[k].value <= j.bridge.epoch)
            && (forall k, l | 0 <= k < l < |left| ::
                  left[k].Some? && left[l].Some? && left[k].value < left[l].value)
            && |left| <= j.bridge.fires + j.bridge.starts
            && (forall i | 0 <= i < |j.bridge.fireSizes| ::
                  1 <= j.bridge.fireSizes[i].1 <= j.bridge.fireSizes[i].0)
            && |j.bridge.fireSizes| == j.bridge.fires
  {
    RunKeeps(cfg, Boot(setting, now, toggles), actions);
    hide Run;
    var j := Run(cfg, Boot(setting, now, toggles), actions);
    var left := j.cycle.h.left;
    if left != [] {
      RisingIsShort(left, j.bridge.epoch, |left| - 1);
    }
  }
}
