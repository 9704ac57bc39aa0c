/** The chat announcer: a detector of thresholds, edges and epochs, one decision per poll. */
module AnnouncerModel {
  import opened Naming

  datatype Phase = Paused | Warmup | Running | GameOver | Unknown

  /** What the attack cycle last fired; absent fields as in its status. */
  datatype Fire = Fire(naturalLevel: Option<int>, naturalCount: Option<int>, persona: seq<int>,
                       sent: seq<int>)

  datatype Status = Status(phase: Phase, attackIndex: Option<int>, toWarmupEnd: Option<int>,
                           toAttack: Option<int>, lastFire: Option<Fire>)

  datatype Reason = NoHq | HqDestroyed

  datatype Event =
    | WarmupAt(threshold: int)
    | Go
    | AttackAt(threshold: int)
    | Incoming(counts: map<int, nat>)
    | RoundEnd(reason: Reason)

  datatype Announcer = Announcer(warmupAt: seq<int>, attackAt: seq<int>, prev: Option<Phase>,
                                 attackIndex: Option<int>, warmupDone: set<int>,
                                 attackDone: set<int>, goSent: bool)

  // ---- Thresholds ------------------------------------------------------------------------

  /** Crossed and not yet announced. */
  function Crossed(remaining: int, thresholds: seq<int>, announced: set<int>): set<int>
  {
    set t | t in thresholds && remaining <= t && t !in announced
  }

  predicate IsMax(s: set<int>, m: int)
  {
    m in s && forall x | x in s :: x <= m
  }

  /** The largest threshold crossed; all that are crossed count as announced. */
  function Resolve(remaining: int, thresholds: seq<int>, announced: set<int>): (Option<int>, set<int>)
  {
    (LargestOf(remaining, thresholds, announced),
     announced + Crossed(remaining, thresholds, announced))
  }

  function LargestOf(remaining: int, thresholds: seq<int>, announced: set<int>): Option<int>
  {
    if thresholds == [] then None
    else
      var n := |thresholds| - 1;
      var best := LargestOf(remaining, thresholds[..n], announced);
      var t := thresholds[n];
      if remaining <= t && t !in announced && (best.None? || t > best.value) then Some(t) else best
  }

  lemma {:induction false} LargestIsMax(remaining: int, thresholds: seq<int>, announced: set<int>)
    ensures var best := LargestOf(remaining, thresholds, announced);
            var c := Crossed(remaining, thresholds, announced);
            (best.None? <==> c == {}) && (best.Some? ==> IsMax(c, best.value))
    decreases |thresholds|
  {
    if thresholds != [] {
      var n := |thresholds| - 1;
      LargestIsMax(remaining, thresholds[..n], announced);
      assert thresholds == thresholds[..n] + [thresholds[n]];
      assert forall t :: t in thresholds <==> t in thresholds[..n] || t == thresholds[n];
      var c0 := Crossed(remaining, thresholds[..n], announced);
      var c := Crossed(remaining, thresholds, announced);
      assert forall t :: t in c <==> t in c0 || (t == thresholds[n] && remaining <= t && t !in announced);
    }
  }

  // ---- Incoming waves -----------------------------------------------------------------------

  function Count(counts: map<int, nat>, level: int): nat
  {
    if level in counts then counts[level] else 0
  }

  function AddTo(counts: map<int, nat>, level: int, n: int): map<int, nat>
  {
    if n <= 0 then counts else counts[level := Count(counts, level) + n]
  }

  function AddAll(counts: map<int, nat>, levels: seq<int>): map<int, nat>
    decreases |levels|
  {
    if levels == [] then counts else AddAll(AddTo(counts, levels[0], 1), levels[1..])
  }

  /** A natural count of zero or none is taken for one. */
  function NaturalOf(f: Fire): int
  {
    if f.naturalCount.Some? && f.naturalCount.value != 0 then f.naturalCount.value else 1
  }

  function IncomingCounts(fire: Option<Fire>): map<int, nat>
  {
    if fire.None? then map[]
    else
      var f := fire.value;
      var c := if f.naturalLevel.Some? then AddTo(map[], f.naturalLevel.value, NaturalOf(f)) else map[];
      AddAll(AddAll(c, f.persona), f.sent)
  }

  function Occurs(levels: seq<int>, level: int): nat
  {
    if levels == [] then 0 else (if levels[0] == level then 1 else 0) + Occurs(levels[1..], level)
  }

  lemma {:induction false} AddAllCounts(counts: map<int, nat>, levels: seq<int>, level: int)
    ensures Count(AddAll(counts, levels), level) == Count(counts, level) + Occurs(levels, level)
    decreases |levels|
  {
    if levels != [] { AddAllCounts(AddTo(counts, levels[0], 1), levels[1..], level); }
  }

  /** Every wave is counted once under its level; only the natural count is not taken at its
      word: an attack without natural waves is announced as if it had one. */
  lemma IncomingExact(f: Fire, level: int)
    ensures Count(IncomingCounts(Some(f)), level)
         == Occurs(f.persona, level) + Occurs(f.sent, level)
            + (if f.naturalLevel == Some(level)
               then (if f.naturalCount == None || f.naturalCount == Some(0) then 1
                     else if f.naturalCount.value < 0 then 0 else f.naturalCount.value)
               else 0)
  {
    var c := if f.naturalLevel.Some? then AddTo(map[], f.naturalLevel.value, NaturalOf(f)) else map[];
    AddAllCounts(AddAll(c, f.persona), f.sent, level);
    AddAllCounts(c, f.persona, level);
  }

  // ---- One poll ---------------------------------------------------------------------------

  function BeginEpoch(a: Announcer, phase: Phase): Announcer
  {
    if phase == Warmup && a.prev != Some(Warmup)
    then a.(warmupDone := {}, goSent := false, attackDone := {}) else a
  }

  predicate IndexChanged(a: Announcer, s: Status)
  {
    s.attackIndex.Some? && s.attackIndex != a.attackIndex
  }

  /** Bookkeeping of the attack index, and the incoming waves of a real attack. */
  function NoteIndex(a: Announcer, s: Status): (Announcer, seq<Event>)
  {
    if !IndexChanged(a, s) then (a, [])
    else
      var a' := a.(attackIndex := s.attackIndex,
                   attackDone := if a.attackIndex.None? then a.attackDone else {});
      var counts := IncomingCounts(s.lastFire);
      (a', if a.attackIndex.Some? && s.attackIndex.value > a.attackIndex.value
              && s.phase == Running && counts != map[] then [Incoming(counts)] else [])
  }

  function WarmupPart(a: Announcer, s: Status): (Announcer, seq<Event>)
  {
    if s.phase == Warmup && s.toWarmupEnd.Some? then
      if s.toWarmupEnd.value > 0 then
        var (t, done) := Resolve(s.toWarmupEnd.value, a.warmupAt, a.warmupDone);
        (a.(warmupDone := done), if t.Some? then [WarmupAt(t.value)] else [])
      else if !a.goSent then (a.(goSent := true), [Go])
      else (a, [])
    else if s.phase == Running && a.prev == Some(Warmup) && !a.goSent then (a.(goSent := true), [Go])
    else (a, [])
  }

  function AttackPart(a: Announcer, s: Status): (Announcer, seq<Event>)
  {
    if s.phase == Running && s.toAttack.Some? then
      var (t, done) := Resolve(s.toAttack.value, a.attackAt, a.attackDone);
      (a.(attackDone := done), if t.Some? then [AttackAt(t.value)] else [])
    else (a, [])
  }

  function EndPart(a: Announcer, s: Status): seq<Event>
  {
    if s.phase == GameOver && a.prev == Some(Warmup) then [RoundEnd(NoHq)]
    else if s.phase == GameOver && a.prev == Some(Running) then [RoundEnd(HqDestroyed)]
    else []
  }

  /** A paused status is only booked. */
  function BookPaused(a: Announcer, s: Status): Announcer
  {
    var a' := if s.attackIndex.None? then a
              else a.(attackIndex := s.attackIndex,
                      attackDone := if IndexChanged(a, s) then {} else a.attackDone);
    a'.(prev := Some(Paused))
  }

  function Step(a: Announcer, s: Status): (Announcer, seq<Event>)
  {
    var a0 := BeginEpoch(a, s.phase);
    if s.phase == Paused then (BookPaused(a0, s), [])
    else
      var (a1, e1) := NoteIndex(a0, s);
      var (a2, e2) := WarmupPart(a1, s);
      var (a3, e3) := AttackPart(a2, s);
      (a3.(prev := Some(s.phase)), e1 + e2 + e3 + EndPart(a3, s))
  }

  // ---- Runs, with history -------------------------------------------------------------------

  /** Since the last reset of each set: the least remaining time that consulted it, what it
      made the announcer say; and how often GO was sent. */
  datatype Watch = Watch(a: Announcer, warmupMin: Option<int>, warmupSaid: seq<int>,
                         attackMin: Option<int>, attackSaid: seq<int>, gos: nat)

  function Lower(min: Option<int>, x: int): Option<int>
  {
    if min.None? || x < min.value then Some(x) else min
  }

  predicate WarmupResets(a: Announcer, s: Status)
  {
    s.phase == Warmup && a.prev != Some(Warmup)
  }

  /** A paused poll also forgets at the first sight of an index. */
  predicate AttackResets(a: Announcer, s: Status)
  {
    WarmupResets(a, s) || (IndexChanged(a, s) && (s.phase == Paused || a.attackIndex.Some?))
  }

  function Said(events: seq<Event>, warmup: bool): seq<int>
  {
    if events == [] then []
    else
      (if warmup && events[0].WarmupAt? then [events[0].threshold]
       else if !warmup && events[0].AttackAt? then [events[0].threshold] else [])
      + Said(events[1..], warmup)
  }

  function Gos(events: seq<Event>): nat
  {
    if events == [] then 0 else (if events[0].Go? then 1 else 0) + Gos(events[1..])
  }

  function Observe(w: Watch, s: Status): Watch
  {
    var (a, events) := Step(w.a, s);
    var wr, ar := WarmupResets(w.a, s), AttackResets(w.a, s);
    var warmMin := if wr then None else w.warmupMin;
    var attMin := if ar then None else w.attackMin;
    Watch(a,
          if s.phase == Warmup && s.toWarmupEnd.Some? && s.toWarmupEnd.value > 0
          then Lower(warmMin, s.toWarmupEnd.value) else warmMin,
          (if wr then [] else w.warmupSaid) + Said(events, true),
          if s.phase == Running && s.toAttack.Some? then Lower(attMin, s.toAttack.value) else attMin,
          (if ar then [] else w.attackSaid) + Said(events, false),
          (if wr then 0 else w.gos) + Gos(events))
  }

  function Run(w: Watch, polls: seq<Status>): Watch
    decreases |polls|
  {
    if polls == [] then w else Run(Observe(w, polls[0]), polls[1..])
  }

  function Boot(warmupAt: seq<int>, attackAt: seq<int>): Watch
  {
    Watch(Announcer(warmupAt, attackAt, None, None, {}, {}, false), None, [], None, [], 0)
  }
}
