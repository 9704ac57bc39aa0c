/** What the announcer says reduces to a running minimum. */
module AnnouncerPromises {
  import opened Naming
  import opened AnnouncerModel

  /** Announced are exactly the thresholds at or above the least remaining time seen. */
  ghost predicate AtMinimum(thresholds: seq<int>, done: set<int>, min: Option<int>)
  {
    forall t :: t in done <==> t in thresholds && min.Some? && t >= min.value
  }

  predicate Falling(said: seq<int>)
  {
    forall i, j | 0 <= i < j < |said| :: said[i] > said[j]
  }

  ghost predicate Channel(thresholds: seq<int>, done: set<int>, min: Option<int>, said: seq<int>)
  {
    && AtMinimum(thresholds, done, min) && Falling(said)
    && (forall i | 0 <= i < |said| :: said[i] in done)
  }

  ghost predicate Inv(w: Watch)
  {
    && Channel(w.a.warmupAt, w.a.warmupDone, w.warmupMin, w.warmupSaid)
    && Channel(w.a.attackAt, w.a.attackDone, w.attackMin, w.attackSaid)
    && w.gos == (if w.a.goSent then 1 else 0)
  }

  lemma ChannelEmpty(thresholds: seq<int>)
    ensures Channel(thresholds, {}, None, [])
  {
  }

  /** One consultation of a channel. */
  lemma ResolveKeeps(thresholds: seq<int>, done: set<int>, min: Option<int>, said: seq<int>, x: int)
    requires Channel(thresholds, done, min, said)
    ensures var (t, done') := Resolve(x, thresholds, done);
            Channel(thresholds, done', Lower(min, x), said + (if t.Some? then [t.value] else []))
  {
    LargestIsMax(x, thresholds, done);
    var c := Crossed(x, thresholds, done);
    assert forall t :: t in c <==> t in thresholds && x <= t && t !in done;
    hide Crossed, LargestOf;
    var t := LargestOf(x, thresholds, done);
    if t.Some? {
      assert t.value in c;
      assert min.Some? ==> t.value < min.value;
      forall i | 0 <= i < |said| ensures said[i] > t.value {
        assert said[i] in done;
      }
    }
  }

  /** What each part of a step contributes to the channels. */
  lemma SaidJoin(a: seq<Event>, b: seq<Event>, warmup: bool)
    ensures Said(a + b, warmup) == Said(a, warmup) + Said(b, warmup)
    ensures Gos(a + b) == Gos(a) + Gos(b)
    decreases |a|
  {
    if a == [] {
      assert a + b == b;
    } else {
      assert (a + b)[1..] == a[1..] + b;
      SaidJoin(a[1..], b, warmup);
    }
  }

  lemma SaidOne(e: Event)
    ensures Said([e], true) == if e.WarmupAt? then [e.threshold] else []
    ensures Said([e], false) == if e.AttackAt? then [e.threshold] else []
    ensures Gos([e]) == if e.Go? then 1 else 0
    ensures Said([], true) == [] == Said([], false) && Gos([]) == 0
  {
    assert [e][1..] == [];
  }

  /** A list of at most one event. */
  lemma SaidSmall(es: seq<Event>)
    requires |es| <= 1
    ensures Said(es, true) == if |es| == 1 && es[0].WarmupAt? then [es[0].threshold] else []
    ensures Said(es, false) == if |es| == 1 && es[0].AttackAt? then [es[0].threshold] else []
    ensures Gos(es) == if |es| == 1 && es[0].Go? then 1 else 0
  {
    if |es| == 1 {
      assert es == [es[0]];
      SaidOne(es[0]);
    } else {
      assert es == [];
    }
  }

  lemma SaidParts(e1: seq<Event>, e2: seq<Event>, e3: seq<Event>, e4: seq<Event>)
    requires |e1| <= 1 && |e2| <= 1 && |e3| <= 1 && |e4| <= 1
    requires e1 != [] ==> e1[0].Incoming?
    requires e2 != [] ==> e2[0].WarmupAt? || e2[0].Go?
    requires e3 != [] ==> e3[0].AttackAt?
    requires e4 != [] ==> e4[0].RoundEnd?
    ensures Said(e1 + e2 + e3 + e4, true) == if e2 != [] && e2[0].WarmupAt? then [e2[0].threshold] else []
    ensures Said(e1 + e2 + e3 + e4, false) == if e3 != [] then [e3[0].threshold] else []
    ensures Gos(e1 + e2 + e3 + e4) == if e2 != [] && e2[0].Go? then 1 else 0
  {
    hide Said, Gos;
    SaidJoin(e1 + e2 + e3, e4, true);
    SaidJoin(e1 + e2 + e3, e4, false);
    SaidJoin(e1 + e2, e3, true);
    SaidJoin(e1 + e2, e3, false);
    SaidJoin(e1, e2, true);
    SaidJoin(e1, e2, false);
    SaidSmall(e1);
    SaidSmall(e2);
    SaidSmall(e3);
    SaidSmall(e4);
  }

  lemma StepSaid(a: Announcer, s: Status)
    requires s.phase != Paused
    ensures var a0 := BeginEpoch(a, s.phase);
            var (a1, e1) := NoteIndex(a0, s);
            var (a2, e2) := WarmupPart(a1, s);
            var (a3, e3) := AttackPart(a2, s);
            var events := Step(a, s).1;
            && Said(events, true) == (if e2 != [] && e2[0].WarmupAt? then [e2[0].threshold] else [])
            && Said(events, false) == (if e3 != [] then [e3[0].threshold] else [])
            && Gos(events) == (if e2 != [] && e2[0].Go? then 1 else 0)
            && |events| <= 4
  {
    hide Resolve, IncomingCounts, Said, Gos;
    var a0 := BeginEpoch(a, s.phase);
    var (a1, e1) := NoteIndex(a0, s);
    var (a2, e2) := WarmupPart(a1, s);
    var (a3, e3) := AttackPart(a2, s);
    SaidParts(e1, e2, e3, EndPart(a3, s));
  }

  lemma PausedKeeps(w: Watch, s: Status)
    requires Inv(w) && s.phase == Paused
    ensures Inv(Observe(w, s))
  {
    ChannelEmpty(w.a.attackAt);
    SaidSmall([]);
    hide Channel, Said, Gos;
    assert w.warmupSaid + [] == w.warmupSaid && w.attackSaid + [] == w.attackSaid;
  }

  lemma WarmupKeeps(w: Watch, s: Status)
    requires Inv(w) && s.phase != Paused
    ensures var w' := Observe(w, s);
            && Channel(w'.a.warmupAt, w'.a.warmupDone, w'.warmupMin, w'.warmupSaid)
            && w'.gos == (if w'.a.goSent then 1 else 0)
            && w'.a.warmupAt == w.a.warmupAt && w'.a.attackAt == w.a.attackAt
  {
    hide Channel, Said, Gos, Resolve, IncomingCounts;
    StepSaid(w.a, s);
    ChannelEmpty(w.a.warmupAt);
    var wr := WarmupResets(w.a, s);
    var done: set<int> := if wr then {} else w.a.warmupDone;
    var said: seq<int> := if wr then [] else w.warmupSaid;
    var min: Option<int> := if wr then None else w.warmupMin;
    if s.phase == Warmup && s.toWarmupEnd.Some? && s.toWarmupEnd.value > 0 {
      ResolveKeeps(w.a.warmupAt, done, min, said, s.toWarmupEnd.value);
    }
    assert said + [] == said;
  }

  lemma AttackKeeps(w: Watch, s: Status)
    requires Inv(w) && s.phase != Paused
    ensures var w' := Observe(w, s);
            Channel(w'.a.attackAt, w'.a.attackDone, w'.attackMin, w'.attackSaid)
  {
    hide Channel, Said, Gos, Resolve, IncomingCounts;
    StepSaid(w.a, s);
    ChannelEmpty(w.a.attackAt);
    var ar := AttackResets(w.a, s);
    var done: set<int> := if ar then {} else w.a.attackDone;
    var said: seq<int> := if ar then [] else w.attackSaid;
    var min: Option<int> := if ar then None else w.attackMin;
    if s.phase == Running && s.toAttack.Some? {
      ResolveKeeps(w.a.attackAt, done, min, said, s.toAttack.value);
    }
    assert said + [] == said;
  }

  lemma {:induction false} RunKeeps(w: Watch, polls: seq<Status>)
    requires Inv(w)
    ensures Inv(Run(w, polls))
    decreases |polls|
  {
    hide Channel, Observe;
    if polls != [] {
      if polls[0].phase == Paused {
        PausedKeeps(w, polls[0]);
      } else {
        WarmupKeeps(w, polls[0]);
        AttackKeeps(w, polls[0]);
      }
      RunKeeps(Observe(w, polls[0]), polls[1..]);
    }
  }

  /** Within one epoch, for any sequence of remaining times, rising ones too: announced are
      exactly the thresholds at or above the running minimum, what is said falls strictly
      (so each threshold at most once), and GO is sent at most once per warmup. */
  lemma RunningMinimum(warmupAt: seq<int>, attackAt: seq<int>, polls: seq<Status>)
    ensures var w := Run(Boot(warmupAt, attackAt), polls);
            && AtMinimum(w.a.warmupAt, w.a.warmupDone, w.warmupMin) && Falling(w.warmupSaid)
            && AtMinimum(w.a.attackAt, w.a.attackDone, w.attackMin) && Falling(w.attackSaid)
            && w.gos <= 1
  {
    RunKeeps(Boot(warmupAt, attackAt), polls);
  }

  /** What a poll says on one channel: nothing if nothing is newly crossed, otherwise the
      largest newly crossed threshold and nothing else. */
  predicate SaysLargest(said: seq<int>, crossed: set<int>)
  {
    if crossed == {} then said == [] else |said| == 1 && IsMax(crossed, said[0])
  }

  /** At most one threshold per poll, on either channel the largest newly crossed one; the sets
      of announced thresholds start empty where an epoch begins. */
  lemma OneThresholdPerPoll(a: Announcer, s: Status)
    ensures var events := Step(a, s).1;
            && |Said(events, true)| + |Said(events, false)| <= 1
            && (if s.phase == Warmup && s.toWarmupEnd.Some? && s.toWarmupEnd.value > 0
                then SaysLargest(Said(events, true),
                                 Crossed(s.toWarmupEnd.value, a.warmupAt,
                                         if WarmupResets(a, s) then {} else a.warmupDone))
                else Said(events, true) == [])
            && (if s.phase == Running && s.toAttack.Some?
                then SaysLargest(Said(events, false),
                                 Crossed(s.toAttack.value, a.attackAt,
                                         if AttackResets(a, s) then {} else a.attackDone))
                else Said(events, false) == [])
  {
    hide Said, Gos, IncomingCounts, Crossed, LargestOf;
    if s.phase == Paused {
      SaidSmall([]);
    } else {
      StepSaid(a, s);
      if s.toWarmupEnd.Some? {
        LargestIsMax(s.toWarmupEnd.value, a.warmupAt, if WarmupResets(a, s) then {} else a.warmupDone);
      }
      if s.toAttack.Some? {
        LargestIsMax(s.toAttack.value, a.attackAt, if AttackResets(a, s) then {} else a.attackDone);
      }
    }
  }
}
