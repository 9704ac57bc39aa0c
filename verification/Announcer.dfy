/** The announcer as the object it is: fields updated poll by poll. */
module Announcer {
  import opened Naming
  import opened AnnouncerModel
  import M = AnnouncerModel

  /** `_resolve_threshold`: one pass collects what is crossed and keeps the largest. */
  method ResolveThreshold(remaining: int, thresholds: seq<int>, announced: set<int>)
    returns (t: Option<int>, done: set<int>)
    ensures (t, done) == Resolve(remaining, thresholds, announced)
    ensures t.Some? ==> IsMax(Crossed(remaining, thresholds, announced), t.value)
    ensures t.None? ==> done == announced
  {
    t := None;
    var crossed := {};
    for i := 0 to |thresholds|
      invariant t == LargestOf(remaining, thresholds[..i], announced)
      invariant crossed == Crossed(remaining, thresholds[..i], announced)
    {
      var x := thresholds[i];
      assert thresholds[..i + 1] == thresholds[..i] + [x];
      if remaining <= x && x !in announced {
        crossed := crossed + {x};
        if t.None? || x > t.value {
          t := Some(x);
        }
      }
    }
    assert thresholds[..|thresholds|] == thresholds;
    LargestIsMax(remaining, thresholds, announced);
    done := announced + crossed;
  }

  method CountIncoming(fire: Option<Fire>) returns (counts: map<int, nat>)
    ensures counts == IncomingCounts(fire)
  {
    counts := map[];
    if fire.None? {
      return;
    }
    var f := fire.value;
    if f.naturalLevel.Some? {
      counts := AddTo(counts, f.naturalLevel.value, NaturalOf(f));
    }
    counts := CountAll(counts, f.persona);
    counts := CountAll(counts, f.sent);
  }

  method CountAll(start: map<int, nat>, levels: seq<int>) returns (counts: map<int, nat>)
    ensures counts == AddAll(start, levels)
  {
    counts := start;
    assert levels[0..] == levels;
    for i := 0 to |levels|
      invariant AddAll(counts, levels[i..]) == AddAll(start, levels)
    {
      assert levels[i..][0] == levels[i] && levels[i..][1..] == levels[i + 1..];
      counts := AddTo(counts, levels[i], 1);
    }
  }

  class Announcer {
    const warmupAt: seq<int>
    const attackAt: seq<int>
    var prev: Option<Phase>
    var attackIndex: Option<int>
    var warmupDone: set<int>
    var attackDone: set<int>
    var goSent: bool

    function Abs(): M.Announcer
      reads this
    {
      M.Announcer(warmupAt, attackAt, prev, attackIndex, warmupDone, attackDone, goSent)
    }

    constructor (warmupAt: seq<int>, attackAt: seq<int>)
      ensures Abs() == Boot(warmupAt, attackAt).a
    {
      this.warmupAt, this.attackAt := warmupAt, attackAt;
      prev, attackIndex, warmupDone, attackDone, goSent := None, None, {}, {}, false;
    }

    method Step(s: Status) returns (events: seq<Event>)
      modifies this
      ensures (Abs(), events) == M.Step(old(Abs()), s)
    {
      hide Resolve, IncomingCounts;
      events := [];
      if s.phase == Warmup && prev != Some(Warmup) {
        warmupDone, goSent, attackDone := {}, false, {};
      }
      if s.phase == Paused {
        if s.attackIndex.Some? {
          if s.attackIndex != attackIndex {
            attackDone := {};
          }
          attackIndex := s.attackIndex;
        }
        prev := Some(Paused);
        return;
      }
      assert Abs() == BeginEpoch(old(Abs()), s.phase);
      var incoming := FollowIndex(s);
      var warmup := Countdown(s);
      var attack := AttackCountdown(s);
      var end := EndPart(Abs(), s);
      prev := Some(s.phase);
      return incoming + warmup + attack + end;
    }

    method FollowIndex(s: Status) returns (events: seq<Event>)
      modifies this
      ensures (Abs(), events) == NoteIndex(old(Abs()), s)
    {
      events := [];
      if s.attackIndex.None? || s.attackIndex == attackIndex {
        return;
      }
      if attackIndex.Some? {
        attackDone := {};
        if s.attackIndex.value > attackIndex.value && s.phase == Running {
          var counts := CountIncoming(s.lastFire);
          if counts != map[] {
            events := [Incoming(counts)];
          }
        }
      }
      attackIndex := s.attackIndex;
    }

    /** Warmup thresholds and GO. */
    method Countdown(s: Status) returns (events: seq<Event>)
      modifies this
      ensures (Abs(), events) == WarmupPart(old(Abs()), s)
    {
      events := [];
      if s.phase == Warmup && s.toWarmupEnd.Some? {
        if s.toWarmupEnd.value > 0 {
          var t;
          t, warmupDone := ResolveThreshold(s.toWarmupEnd.value, warmupAt, warmupDone);
          if t.Some? {
            events := [WarmupAt(t.value)];
          }
        } else if !goSent {
          goSent := true;
          events := [Go];
        }
      }
      if s.phase == Running && prev == Some(Warmup) && !goSent {
        goSent := true;
        events := [Go];
      }
    }

    method AttackCountdown(s: Status) returns (events: seq<Event>)
      modifies this
      ensures (Abs(), events) == AttackPart(old(Abs()), s)
    {
      events := [];
      if s.phase == Running && s.toAttack.Some? {
        var t;
        t, attackDone := ResolveThreshold(s.toAttack.value, attackAt, attackDone);
        if t.Some? {
          events := [AttackAt(t.value)];
        }
      }
    }
  }
}
