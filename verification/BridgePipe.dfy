/** One response slot shared by HTTP threads and the reader thread: the request/response
    protocol of the pipe bridge, interleaved at its critical sections. The game at the other
    end answers commands in order, or not at all. */
module BridgePipe {
  import opened Naming

  /** Result events answer commands; pushed events answer nothing. */
  datatype Event = Result(name: string) | Push(name: string)

  /** The event that chat status commands of the reader provoke. */
  const CHAT_RESULT := Result("send_chat_result")

  /** A command on the wire; `serial` numbers the commands in the order written. */
  datatype Request = Request(event: Event, serial: nat)

  /** A line from the game, and which command it replies to (none: a push). */
  datatype Line = Line(event: Event, replyTo: Option<nat>)

  datatype Slot = Slot(wanted: Option<Event>, ok: bool, line: Line, signaled: bool)

  datatype Stage = Entered | Armed | Sent | Woken

  /** The thread inside `pipe_send_command`. History: its serial once written, the serials
      of unanswered commands with the same event when it armed, and whether every command
      has been answered in turn since. */
  datatype Holder =
    | Free
    | Held(thread: nat, event: Event, stage: Stage, serial: nat, stale: seq<nat>, faithful: bool)

  datatype Return =
    | Unreachable(thread: nat)
    | TimedOut(thread: nat, event: Event, serial: nat)
    | Returned(thread: nat, event: Event, serial: nat, stale: seq<nat>, faithful: bool, line: Line)

  datatype Bridge = Bridge(connected: bool, slot: Slot, holder: Holder, outstanding: seq<Request>,
                           next: nat, outcomes: seq<Return>, chats: set<nat>)

  const BOOT := Bridge(false, Slot(None, false, Line(Push(""), None), false), Free, [], 0, [], {})

  datatype Action =
    | Enter(thread: nat, event: Event)     // g_cmd_cs taken
    | Arm                                  // g_resp_cs: expectation set, event reset
    | Write(ok: bool)                      // g_pipe_cs
    | Wake                                 // the wait ends signalled (auto-reset)
    | Timeout                              // the wait runs out
    | Take                                 // g_resp_cs: line read, g_cmd_cs released
    | Route                                // reader: the reply to the oldest command
    | RoutePush(name: string)              // reader: an event of the game's own
    | Chat                                 // reader: a status command, fire and forget
    | Skip                                 // the game never answers the oldest command
    | Disconnect
    | Connect

  /** Serials of the unanswered commands that provoke an event, oldest first. */
  function Same(outstanding: seq<Request>, event: Event): seq<nat>
  {
    if outstanding == [] then []
    else if outstanding[0].event == event then [outstanding[0].serial] + Same(outstanding[1..], event)
    else Same(outstanding[1..], event)
  }

  function Unfaithful(h: Holder): Holder
  {
    if h.Held? then h.(faithful := false) else h
  }

  function Deliver(slot: Slot, line: Line): Slot
  {
    if !slot.ok && slot.wanted == Some(line.event)
    then slot.(line := line, ok := true, signaled := true) else slot
  }

  function Leave(s: Bridge, r: Return): Bridge
  {
    s.(holder := Free, outcomes := s.outcomes + [r])
  }

  function Apply(s: Bridge, a: Action): Bridge
  {
    match a
    case Enter(thread, event) =>
      if s.holder.Free? && event.Result? then s.(holder := Held(thread, event, Entered, 0, [], true)) else s
    case Arm =>
      if !AtStage(s, Entered) then s
      else if !s.connected then Leave(s, Unreachable(s.holder.thread))
      else
        s.(slot := s.slot.(wanted := Some(s.holder.event), ok := false, signaled := false),
           holder := s.holder.(stage := Armed, stale := Same(s.outstanding, s.holder.event),
                               faithful := true))
    case Write(ok) =>
      if !AtStage(s, Armed) then s
      else if !s.connected || !ok then Leave(s, Unreachable(s.holder.thread))
      else
        s.(outstanding := s.outstanding + [Request(s.holder.event, s.next)], next := s.next + 1,
           holder := s.holder.(stage := Sent, serial := s.next))
    case Wake =>
      if AtStage(s, Sent) && s.slot.signaled
      then s.(slot := s.slot.(signaled := false), holder := s.holder.(stage := Woken)) else s
    case Timeout =>
      if AtStage(s, Sent) && !s.slot.signaled
      then Leave(s, TimedOut(s.holder.thread, s.holder.event, s.holder.serial)) else s
    case Take =>
      if !AtStage(s, Woken) then s
      else if !s.slot.ok then Leave(s, TimedOut(s.holder.thread, s.holder.event, s.holder.serial))
      else Leave(s, Returned(s.holder.thread, s.holder.event, s.holder.serial, s.holder.stale,
                             s.holder.faithful, s.slot.line))
    case Route =>
      if s.outstanding == [] then s
      else s.(outstanding := s.outstanding[1..],
              slot := Deliver(s.slot, Line(s.outstanding[0].event, Some(s.outstanding[0].serial))))
    case RoutePush(name) => s.(slot := Deliver(s.slot, Line(Push(name), None)))
    case Chat =>
      if !s.connected then s
      else s.(outstanding := s.outstanding + [Request(CHAT_RESULT, s.next)], next := s.next + 1,
              chats := s.chats + {s.next})
    case Skip =>
      if s.outstanding == [] then s
      else s.(outstanding := s.outstanding[1..], holder := Unfaithful(s.holder))
    case Disconnect => s.(connected := false, outstanding := [], holder := Unfaithful(s.holder))
    case Connect => s.(connected := true)
  }

  predicate AtStage(s: Bridge, stage: Stage)
  {
    s.holder.Held? && s.holder.stage == stage
  }

  function Run(s: Bridge, actions: seq<Action>): Bridge
    decreases |actions|
  {
    if actions == [] then s else Run(Apply(s, actions[0]), actions[1..])
  }

  // ---- Invariant ------------------------------------------------------------------------------

  predicate Ordered(s: Bridge)
  {
    && (s.holder.Held? ==> s.holder.event.Result?)
    && (forall i | 0 <= i < |s.outstanding| :: s.outstanding[i].serial < s.next)
    && (s.holder.Held? ==> s.holder.serial <= s.next
                           && forall i | 0 <= i < |s.holder.stale| :: s.holder.stale[i] < s.next)
  }

  /** Same-event commands that may still be answered to the waiter: those unanswered when it
      armed, then its own. */
  function Expected(h: Holder): seq<nat>
    requires h.Held?
  {
    h.stale + (if h.stage == Sent || h.stage == Woken then [h.serial] else [])
  }

  predicate Suffix(a: seq<nat>, b: seq<nat>)
  {
    |a| <= |b| && a == b[|b| - |a|..]
  }

  /** The waiter's slot: nothing has been delivered and every expected reply is still to
      come, or the line delivered answers an expected command, the first of them if the
      game answers all. */
  predicate Waiting(s: Bridge)
  {
    var h := s.holder;
    h.Held? && h.stage != Entered ==>
      && s.slot.wanted == Some(h.event)
      && (if h.stage == Woken then s.slot.ok && !s.slot.signaled else s.slot.signaled == s.slot.ok)
      && (h.event != CHAT_RESULT ==>
            && (!s.slot.ok ==> Suffix(Same(s.outstanding, h.event), Expected(h))
                               && (h.faithful ==> Same(s.outstanding, h.event) == Expected(h)))
            && (s.slot.ok ==>
                  s.slot.line.event == h.event && s.slot.line.replyTo.Some?
                  && s.slot.line.replyTo.value in Expected(h)
                  && (h.faithful ==> Expected(h) != [] && s.slot.line.replyTo.value == Expected(h)[0])))
      && (forall i | 0 <= i < |h.stale| :: (h.stage == Sent || h.stage == Woken) ==> h.stale[i] < h.serial)
  }

  /** What a returned line is. */
  predicate Matched(r: Return)
  {
    r.Returned? && r.event != CHAT_RESULT ==>
      && r.line.event == r.event && r.line.replyTo.Some?
      && r.line.replyTo.value in r.stale + [r.serial]
      && (r.faithful ==> r.line.replyTo.value == (r.stale + [r.serial])[0])
      && forall i | 0 <= i < |r.stale| :: r.stale[i] < r.serial
  }

  predicate Inv(s: Bridge)
  {
    Ordered(s) && Waiting(s) && forall i | 0 <= i < |s.outcomes| :: Matched(s.outcomes[i])
  }

  lemma {:induction false} SameAppend(a: seq<Request>, q: Request, event: Event)
    ensures Same(a + [q], event) == Same(a, event) + (if q.event == event then [q.serial] else [])
    decreases |a|
  {
    if a == [] {
      assert [] + [q] == [q] && [q][1..] == [];
    } else {
      assert (a + [q])[1..] == a[1..] + [q];
      SameAppend(a[1..], q, event);
    }
  }

  lemma {:induction false} SameBelow(a: seq<Request>, event: Event, bound: nat)
    requires forall i | 0 <= i < |a| :: a[i].serial < bound
    ensures forall i | 0 <= i < |Same(a, event)| :: Same(a, event)[i] < bound
    decreases |a|
  {
    if a != [] {
      SameBelow(a[1..], event, bound);
    }
  }

  lemma SuffixSame(a: seq<nat>)
    ensures Suffix(a, a) && a + [] == a
  {
  }

  lemma SuffixMore(a: seq<nat>, b: seq<nat>, x: nat)
    requires Suffix(a, b)
    ensures Suffix(a + [x], b + [x])
  {
    assert (b + [x])[|b| - |a|..] == b[|b| - |a|..] + [x];
  }

  lemma SuffixLess(a: seq<nat>, b: seq<nat>)
    requires Suffix(a, b) && a != []
    ensures Suffix(a[1..], b) && a[0] in b
  {
    assert b[|b| - |a|..][0] == b[|b| - |a|];
    assert b[|b| - |a|..][1..] == b[|b| - |a| + 1..];
  }

  lemma ArmKeeps(s: Bridge)
    requires Inv(s)
    ensures Inv(Apply(s, Arm))
  {
    if AtStage(s, Entered) && s.connected {
      SameBelow(s.outstanding, s.holder.event, s.next);
      var e := s.holder.event;
      SuffixSame(Same(s.outstanding, e));
      hide Same;
    }
  }

  lemma WriteKeeps(s: Bridge, ok: bool)
    requires Inv(s)
    ensures Inv(Apply(s, Write(ok)))
  {
    hide Same, Suffix;
    if AtStage(s, Armed) && s.connected && ok {
      var same := Same(s.outstanding, s.holder.event);
      SameAppend(s.outstanding, Request(s.holder.event, s.next), s.holder.event);
      SuffixSame(s.holder.stale);
      if Suffix(same, s.holder.stale) { SuffixMore(same, s.holder.stale, s.next); }
    }
  }

  lemma ChatKeeps(s: Bridge)
    requires Inv(s)
    ensures Inv(Apply(s, Chat))
  {
    if s.connected && s.holder.Held? {
      SameAppend(s.outstanding, Request(CHAT_RESULT, s.next), s.holder.event);
      hide Same;
    }
  }

  /** The oldest command leaves the queue. */
  lemma SameHead(a: seq<Request>, event: Event)
    requires a != []
    ensures Same(a, event) == if a[0].event == event then [a[0].serial] + Same(a[1..], event)
                              else Same(a[1..], event)
  {
  }

  lemma RouteKeeps(s: Bridge)
    requires Inv(s)
    ensures Inv(Apply(s, Route))
  {
    hide Same, Suffix, Matched;
    if s.outstanding != [] && s.holder.Held? {
      var same := Same(s.outstanding, s.holder.event);
      SameHead(s.outstanding, s.holder.event);
      assert s.outstanding[0].event == s.holder.event ==>
          same[1..] == Same(s.outstanding[1..], s.holder.event);
      if same != [] && Suffix(same, Expected(s.holder)) { SuffixLess(same, Expected(s.holder)); }
    }
    assert forall i | 0 <= i < |s.outstanding| - 1 :: s.outstanding[1..][i] == s.outstanding[i + 1];
  }

  lemma SkipKeeps(s: Bridge)
    requires Inv(s)
    ensures Inv(Apply(s, Skip))
  {
    hide Same, Suffix, Matched;
    if s.outstanding != [] && s.holder.Held? {
      var same := Same(s.outstanding, s.holder.event);
      SameHead(s.outstanding, s.holder.event);
      assert s.outstanding[0].event == s.holder.event ==>
          same[1..] == Same(s.outstanding[1..], s.holder.event);
      if same != [] && Suffix(same, Expected(s.holder)) { SuffixLess(same, Expected(s.holder)); }
    }
    assert forall i | 0 <= i < |s.outstanding| - 1 :: s.outstanding[1..][i] == s.outstanding[i + 1];
  }

  lemma DisconnectKeeps(s: Bridge)
    requires Inv(s)
    ensures Inv(Apply(s, Disconnect))
  {
    if s.holder.Held? {
      assert Same([], s.holder.event) == [];
      SuffixEmpty(Expected(s.holder));
    }
    hide Same, Suffix, Matched;
  }

  lemma SuffixEmpty(b: seq<nat>)
    ensures Suffix([], b)
  {
  }

  lemma ApplyKeeps(s: Bridge, a: Action)
    requires Inv(s)
    ensures Inv(Apply(s, a))
  {
    match a
    case Arm => ArmKeeps(s);
    case Write(ok) => WriteKeeps(s, ok);
    case Chat => ChatKeeps(s);
    case Route => RouteKeeps(s);
    case Skip => SkipKeeps(s);
    case Disconnect => DisconnectKeeps(s);
    case _ => hide Same;
  }

  lemma {:induction false} RunKeeps(s: Bridge, actions: seq<Action>)
    requires Inv(s)
    ensures Inv(Run(s, actions))
    decreases |actions|
  {
    hide Inv, Apply;
    if actions != [] {
      ApplyKeeps(s, actions[0]);
      RunKeeps(Apply(s, actions[0]), actions[1..]);
    }
  }

  // ---- Theorems ------------------------------------------------------------------------------

  /** In every interleaving: a returned line carries the event asked for and replies to that
      very command, or to one with the same event that was still unanswered when this one
      armed the slot. If the game answers every command in turn, it is the command's own
      reply exactly when there was no such command. */
  lemma RepliesMatch(actions: seq<Action>)
    ensures forall i | 0 <= i < |Run(BOOT, actions).outcomes| ::
              var r := Run(BOOT, actions).outcomes[i];
              r.Returned? && r.event != CHAT_RESULT ==>
                && r.line.event == r.event
                && (r.stale == [] ==> r.line.replyTo == Some(r.serial))
                && (r.faithful ==> (r.line.replyTo == Some(r.serial) <==> r.stale == []))
  {
    RunKeeps(BOOT, actions);
    forall i | 0 <= i < |Run(BOOT, actions).outcomes|
      ensures Matched(Run(BOOT, actions).outcomes[i])
    {
    }
  }

  /** A reply routed before the timeout is never lost: the wait cannot run out, and what it
      returns is the line in the slot. */
  lemma RoutedIsReturned(actions: seq<Action>)
    requires AtStage(Run(BOOT, actions), Sent) && Run(BOOT, actions).slot.ok
    ensures var s := Run(BOOT, actions);
            && Apply(s, Timeout) == s
            && AtStage(Apply(s, Wake), Woken)
            && var s' := Apply(Apply(s, Wake), Take);
               |s'.outcomes| == |s.outcomes| + 1 && s'.outcomes[|s.outcomes|].Returned?
               && s'.outcomes[|s.outcomes|].line == s.slot.line
  {
    RunKeeps(BOOT, actions);
  }

  /** A woken waiter always finds its line: the second check of the slot never fails. */
  lemma WokenHasLine(actions: seq<Action>)
    requires AtStage(Run(BOOT, actions), Woken)
    ensures Run(BOOT, actions).slot.ok
  {
    RunKeeps(BOOT, actions);
  }

  /** The frame of the next lemma: what the reader does depends on the holder of the command
      lock in no way and leaves it alone. */
  lemma ReaderIgnoresCommandLock(s: Bridge, h: Holder, a: Action)
    requires a.Route? || a.RoutePush? || a.Chat?
    ensures Apply(s.(holder := h), a) == Apply(s, a).(holder := h)
  {
  }

  function Routes(actions: seq<Action>): nat
  {
    if actions == [] then 0 else (if actions[0].Route? then 1 else 0) + Routes(actions[1..])
  }

  /** Steps of the reader and of other threads, while the waiter itself waits on and the game
      answers. */
  predicate Meanwhile(a: Action)
  {
    !a.Wake? && !a.Timeout? && !a.Skip? && !a.Disconnect?
  }

  /** Where the waiter's own command stands among the unanswered, nothing before it provoking
      the same event. */
  predicate OwnAt(s: Bridge, k: nat)
  {
    && AtStage(s, Sent) && s.holder.event.Result? && s.slot.wanted == Some(s.holder.event)
    && k < |s.outstanding| && s.outstanding[k] == Request(s.holder.event, s.holder.serial)
    && forall i | 0 <= i < k :: s.outstanding[i].event != s.holder.event
  }

  predicate OwnInSlot(s: Bridge)
  {
    AtStage(s, Sent) && s.slot.ok && s.slot.line == Line(s.holder.event, Some(s.holder.serial))
  }

  lemma OwnStays(s: Bridge, a: Action)
    requires OwnInSlot(s) && Meanwhile(a)
    ensures OwnInSlot(Apply(s, a)) && Apply(s, a).holder == s.holder
  {
  }

  lemma OwnAdvances(s: Bridge, a: Action, k: nat)
    requires OwnAt(s, k) && !s.slot.ok && Meanwhile(a)
    ensures var s' := Apply(s, a);
            && s'.holder == s.holder
            && (if !a.Route? then OwnAt(s', k) && !s'.slot.ok
                else if k == 0 then OwnInSlot(s') else OwnAt(s', k - 1) && !s'.slot.ok)
  {
    if a.Route? {
      assert forall i | 0 <= i < |s.outstanding| - 1 :: s.outstanding[1..][i] == s.outstanding[i + 1];
    }
  }

  /** The reader never waits for the command lock, so a waiter gets its reply as soon as the
      reader has routed as many lines as there are commands up to its own, whatever the other
      threads, the pushes and the reader's own chat lines do in between. */
  lemma {:induction false} OwnReplyArrives(s: Bridge, k: nat, actions: seq<Action>)
    requires OwnAt(s, k) && !s.slot.ok && Routes(actions) > k
    requires forall i | 0 <= i < |actions| :: Meanwhile(actions[i])
    ensures var s' := Run(s, actions); OwnInSlot(s') && s'.holder == s.holder
    decreases |actions|
  {
    hide OwnAt, OwnInSlot, Apply;
    OwnAdvances(s, actions[0], k);
    var s1 := Apply(s, actions[0]);
    assert forall i | 0 <= i < |actions| - 1 :: actions[1..][i] == actions[i + 1];
    if actions[0].Route? && k == 0 {
      OwnStaysRun(s1, actions[1..]);
    } else {
      OwnReplyArrives(s1, if actions[0].Route? then k - 1 else k, actions[1..]);
    }
  }

  lemma {:induction false} OwnStaysRun(s: Bridge, actions: seq<Action>)
    requires OwnInSlot(s) && forall i | 0 <= i < |actions| :: Meanwhile(actions[i])
    ensures OwnInSlot(Run(s, actions)) && Run(s, actions).holder == s.holder
    decreases |actions|
  {
    hide OwnInSlot, Apply;
    if actions != [] {
      OwnStays(s, actions[0]);
      assert forall i | 0 <= i < |actions| - 1 :: actions[1..][i] == actions[i + 1];
      OwnStaysRun(Apply(s, actions[0]), actions[1..]);
    }
  }

  // ---- Where unanswered commands come from ------------------------------------------------------

  /** Commands whose threads have returned with a line or a timeout. */
  function GivenUp(outcomes: seq<Return>): set<nat>
  {
    set i | 0 <= i < |outcomes| && !outcomes[i].Unreachable? :: outcomes[i].serial
  }

  /** Whatever is unanswered was given up on, is a chat status, or is the waiter's own. */
  predicate Accounted(s: Bridge)
  {
    forall i | 0 <= i < |s.outstanding| ::
      var n := s.outstanding[i].serial;
      || n in GivenUp(s.outcomes)
      || (n in s.chats && s.outstanding[i].event == CHAT_RESULT)
      || (s.holder.Held? && (s.holder.stage == Sent || s.holder.stage == Woken) && n == s.holder.serial)
  }

  lemma GivenUpGrows(outcomes: seq<Return>, r: Return)
    ensures GivenUp(outcomes + [r]) == GivenUp(outcomes) + (if r.Unreachable? then {} else {r.serial})
  {
    var more := outcomes + [r];
    forall n | n in GivenUp(outcomes) ensures n in GivenUp(more) {
      var i :| 0 <= i < |outcomes| && !outcomes[i].Unreachable? && outcomes[i].serial == n;
      assert more[i] == outcomes[i];
    }
    if !r.Unreachable? { assert more[|outcomes|] == r; }
  }

  lemma AccountedKeeps(s: Bridge, a: Action)
    requires Accounted(s)
    ensures Accounted(Apply(s, a))
  {
    var s' := Apply(s, a);
    hide Same;
    if s'.outcomes != s.outcomes {
      var r := s'.outcomes[|s.outcomes|];
      GivenUpGrows(s.outcomes, r);
    }
    hide GivenUp;
    forall i | 0 <= i < |s'.outstanding|
      ensures var n := s'.outstanding[i].serial;
        || n in GivenUp(s'.outcomes)
        || (n in s'.chats && s'.outstanding[i].event == CHAT_RESULT)
        || (s'.holder.Held? && (s'.holder.stage == Sent || s'.holder.stage == Woken) && n == s'.holder.serial)
    {
      if (a.Route? || a.Skip?) && s.outstanding != [] {
        assert s'.outstanding[i] == s.outstanding[i + 1];
      } else if i < |s.outstanding| {
        assert s'.outstanding[i] == s.outstanding[i];
      }
    }
  }

  lemma {:induction false} AccountedRun(s: Bridge, actions: seq<Action>)
    requires Accounted(s)
    ensures Accounted(Run(s, actions))
    decreases |actions|
  {
    hide Accounted, Apply;
    if actions != [] {
      AccountedKeeps(s, actions[0]);
      AccountedRun(Apply(s, actions[0]), actions[1..]);
    }
  }

  lemma {:induction false} SameIsOutstanding(a: seq<Request>, event: Event, n: nat)
    requires n in Same(a, event)
    ensures exists i :: 0 <= i < |a| && a[i] == Request(event, n)
    decreases |a|
  {
    if a[0] == Request(event, n) {
    } else {
      SameIsOutstanding(a[1..], event, n);
      var i :| 0 <= i < |a[1..]| && a[1..][i] == Request(event, n);
      assert a[i + 1] == Request(event, n);
    }
  }

  /** Did a command with this event time out among the first `n` that returned? */
  predicate TimedOutOn(outcomes: seq<Return>, n: nat, event: Event)
    requires n <= |outcomes|
  {
    exists i :: 0 <= i < n && outcomes[i].TimedOut? && outcomes[i].event == event
  }

  /** As long as no command with an event has timed out, nothing unanswered provokes it but
      the command of a waiter that has nothing yet, and no waiter found anything stale. */
  ghost predicate Clear(s: Bridge, event: Event)
  {
    !TimedOutOn(s.outcomes, |s.outcomes|, event) ==>
      var mine := s.holder.Held? && s.holder.event == event;
      && (if mine && s.holder.stage == Sent && !s.slot.ok
          then Same(s.outstanding, event) == [] || Same(s.outstanding, event) == [s.holder.serial]
          else Same(s.outstanding, event) == [])
      && (mine && s.holder.stage != Entered ==> s.holder.stale == [])
  }

  /** A returned line is the command's own reply unless an earlier command timed out. */
  ghost predicate OwnUnlessTimedOut(outcomes: seq<Return>, event: Event)
  {
    forall i | 0 <= i < |outcomes| && outcomes[i].Returned? && outcomes[i].event == event
               && !TimedOutOn(outcomes, i, event) ::
      outcomes[i].line.replyTo == Some(outcomes[i].serial)
  }

  lemma TimedOutGrows(outcomes: seq<Return>, r: Return, event: Event)
    ensures forall i | 0 <= i <= |outcomes| ::
              TimedOutOn(outcomes + [r], i, event) <==> TimedOutOn(outcomes, i, event)
    ensures TimedOutOn(outcomes, |outcomes|, event) ==>
              TimedOutOn(outcomes + [r], |outcomes| + 1, event)
    ensures r.TimedOut? && r.event == event ==> TimedOutOn(outcomes + [r], |outcomes| + 1, event)
  {
    var more := outcomes + [r];
    forall i | 0 <= i <= |outcomes|
      ensures TimedOutOn(more, i, event) <==> TimedOutOn(outcomes, i, event)
    {
      if TimedOutOn(more, i, event) {
        var j :| 0 <= j < i && more[j].TimedOut? && more[j].event == event;
        assert outcomes[j] == more[j];
      }
      if TimedOutOn(outcomes, i, event) {
        var j :| 0 <= j < i && outcomes[j].TimedOut? && outcomes[j].event == event;
        assert more[j] == outcomes[j];
      }
    }
    if TimedOutOn(outcomes, |outcomes|, event) {
      var j :| 0 <= j < |outcomes| && outcomes[j].TimedOut? && outcomes[j].event == event;
      assert more[j] == outcomes[j];
    }
    if r.TimedOut? && r.event == event { assert more[|outcomes|] == r; }
  }

  lemma OwnGrows(outcomes: seq<Return>, r: Return, event: Event)
    requires OwnUnlessTimedOut(outcomes, event)
    requires r.Returned? && r.event == event && !TimedOutOn(outcomes, |outcomes|, event) ==>
               r.line.replyTo == Some(r.serial)
    ensures OwnUnlessTimedOut(outcomes + [r], event)
  {
    TimedOutGrows(outcomes, r, event);
    hide TimedOutOn;
  }

  lemma ClearLeave(s: Bridge, r: Return, event: Event)
    requires Clear(s, event)
    requires (r.TimedOut? && r.event == event)
             || !(s.holder.Held? && s.holder.event == event && s.holder.stage == Sent && !s.slot.ok)
    ensures Clear(Leave(s, r), event)
  {
    TimedOutGrows(s.outcomes, r, event);
    hide TimedOutOn, Same;
  }

  lemma ClearKeeps(s: Bridge, a: Action, event: Event)
    requires Inv(s) && Clear(s, event) && event != CHAT_RESULT && event.Result?
    ensures Clear(Apply(s, a), event)
  {
    hide TimedOutOn, Same, Matched;
    var s' := Apply(s, a);
    match a
    case Arm => if AtStage(s, Entered) && !s.connected { ClearLeave(s, Unreachable(s.holder.thread), event); }
    case Write(ok) =>
      if AtStage(s, Armed) && (!s.connected || !ok) {
        ClearLeave(s, Unreachable(s.holder.thread), event);
      } else if AtStage(s, Armed) {
        SameAppend(s.outstanding, Request(s.holder.event, s.next), event);
      }
    case Timeout =>
      if AtStage(s, Sent) && !s.slot.signaled {
        ClearLeave(s, TimedOut(s.holder.thread, s.holder.event, s.holder.serial), event);
      }
    case Take =>
      if AtStage(s, Woken) && s.slot.ok {
        ClearLeave(s, Returned(s.holder.thread, s.holder.event, s.holder.serial, s.holder.stale,
                               s.holder.faithful, s.slot.line), event);
      }
    case Chat => if s.connected { SameAppend(s.outstanding, Request(CHAT_RESULT, s.next), event); }
    case Route => if s.outstanding != [] { SameHead(s.outstanding, event); }
    case Skip => if s.outstanding != [] { SameHead(s.outstanding, event); }
    case Disconnect => SameNone(event);
    case _ =>
  }

  lemma SameNone(event: Event)
    ensures Same([], event) == []
  {
  }

  lemma OwnKeeps(s: Bridge, a: Action, event: Event)
    requires Inv(s) && Clear(s, event) && OwnUnlessTimedOut(s.outcomes, event)
    requires event != CHAT_RESULT
    ensures OwnUnlessTimedOut(Apply(s, a).outcomes, event)
  {
    var s' := Apply(s, a);
    if s'.outcomes != s.outcomes {
      OwnGrows(s.outcomes, s'.outcomes[|s.outcomes|], event);
    }
    hide TimedOutOn, Same, OwnUnlessTimedOut;
  }

  lemma {:induction false} OwnRun(s: Bridge, actions: seq<Action>, event: Event)
    requires Inv(s) && Clear(s, event) && OwnUnlessTimedOut(s.outcomes, event)
    requires event != CHAT_RESULT && event.Result?
    ensures var s' := Run(s, actions);
            Inv(s') && Clear(s', event) && OwnUnlessTimedOut(s'.outcomes, event)
    decreases |actions|
  {
    hide Inv, Clear, OwnUnlessTimedOut, Apply;
    if actions != [] {
      ApplyKeeps(s, actions[0]);
      ClearKeeps(s, actions[0], event);
      OwnKeeps(s, actions[0], event);
      OwnRun(Apply(s, actions[0]), actions[1..], event);
    }
  }

  /** What a caller can count on, in every interleaving, even when the game leaves commands
      unanswered or the pipe breaks: unless an earlier command with the same event timed out,
      the line returned is the command's own reply. */
  lemma OwnReplyUnlessTimedOut(actions: seq<Action>, event: Event)
    requires event.Result? && event != CHAT_RESULT
    ensures var outcomes := Run(BOOT, actions).outcomes;
            forall i | 0 <= i < |outcomes| && outcomes[i].Returned? && outcomes[i].event == event
                       && !TimedOutOn(outcomes, i, event) ::
              outcomes[i].line.replyTo == Some(outcomes[i].serial)
  {
    SameNone(event);
    OwnRun(BOOT, actions, event);
  }

  /** What can be in the way of a command that arms the slot: only commands that have returned
      before it, and nothing at all unless one with its event timed out. */
  lemma StaleWasGivenUp(actions: seq<Action>)
    requires var s := Run(BOOT, actions); AtStage(s, Entered) && s.holder.event != CHAT_RESULT
    ensures var s := Run(BOOT, actions);
            && (forall n | n in Same(s.outstanding, s.holder.event) :: n in GivenUp(s.outcomes))
            && (Same(s.outstanding, s.holder.event) != [] ==>
                  TimedOutOn(s.outcomes, |s.outcomes|, s.holder.event))
  {
    AccountedRun(BOOT, actions);
    RunKeeps(BOOT, actions);
    var s := Run(BOOT, actions);
    SameNone(s.holder.event);
    OwnRun(BOOT, actions, s.holder.event);
    forall n | n in Same(s.outstanding, s.holder.event) ensures n in GivenUp(s.outcomes) {
      SameIsOutstanding(s.outstanding, s.holder.event, n);
    }
  }

  /** The hazard is real: after one timeout the next command of the same kind is answered
      with the late reply to the first. */
  lemma LateReplyMistaken()
    ensures exists actions ::
              var rs := Run(BOOT, actions).outcomes;
              |rs| == 2 && rs[0].TimedOut? && rs[1].Returned? && rs[1].line.replyTo == Some(rs[0].serial)
              && rs[1].serial != rs[0].serial && rs[1].event == Result("get_state_result")
  {
    var e := Result("get_state_result");
    GivesUp(e);
    LateRoute(e);
    var one := [Connect, Enter(1, e), Arm, Write(true), Timeout];
    var two := [Enter(2, e), Arm, Write(true), Route, Wake, Take];
    RunJoin(BOOT, one, two);
    assert Run(BOOT, one + two).outcomes[1].line == Line(e, Some(0));
  }

  /** The state after one command of this kind has timed out. */
  function AfterTimeout(e: Event): Bridge
  {
    Bridge(true, Slot(Some(e), false, Line(Push(""), None), false), Free, [Request(e, 0)], 1,
           [TimedOut(1, e, 0)], {})
  }

  lemma GivesUp(e: Event)
    requires e.Result?
    ensures Run(BOOT, [Connect, Enter(1, e), Arm, Write(true), Timeout]) == AfterTimeout(e)
  {
    var s1 := Apply(BOOT, Connect);
    var s2 := Apply(s1, Enter(1, e));
    var s3 := Apply(s2, Arm);
    assert s3.holder == Held(1, e, Armed, 0, [], true);
    var s4 := Apply(s3, Write(true));
    assert s4.outstanding == [Request(e, 0)];
    hide Apply;
    Five(BOOT, Connect, Enter(1, e), Arm, Write(true), Timeout);
  }

  lemma LateRoute(e: Event)
    requires e.Result?
    ensures Run(AfterTimeout(e), [Enter(2, e), Arm, Write(true), Route, Wake, Take]).outcomes
         == [TimedOut(1, e, 0), Returned(2, e, 1, [0], true, Line(e, Some(0)))]
  {
    var s0 := AfterTimeout(e);
    var s1 := Apply(s0, Enter(2, e));
    assert Same([Request(e, 0)], e) == [0] by { assert [Request(e, 0)][1..] == []; }
    var s2 := Apply(s1, Arm);
    assert s2.holder == Held(2, e, Armed, 0, [0], true);
    var s3 := Apply(s2, Write(true));
    assert s3.outstanding == [Request(e, 0), Request(e, 1)];
    var s4 := Apply(s3, Route);
    assert s4.slot == Slot(Some(e), true, Line(e, Some(0)), true);
    var s5 := Apply(s4, Wake);
    assert Apply(s5, Take).outcomes == [TimedOut(1, e, 0), Returned(2, e, 1, [0], true, Line(e, Some(0)))];
    hide Apply, Same;
    RunCons(s0, Enter(2, e), [Arm, Write(true), Route, Wake, Take]);
    assert [Enter(2, e)] + [Arm, Write(true), Route, Wake, Take]
        == [Enter(2, e), Arm, Write(true), Route, Wake, Take];
    Five(s1, Arm, Write(true), Route, Wake, Take);
  }

  lemma {:induction false} RunJoin(s: Bridge, a: seq<Action>, b: seq<Action>)
    ensures Run(s, a + b) == Run(Run(s, a), b)
    decreases |a|
  {
    hide Apply;
    if a == [] {
      assert a + b == b;
    } else {
      assert (a + b)[1..] == a[1..] + b;
      RunJoin(Apply(s, a[0]), a[1..], b);
    }
  }

  lemma RunCons(s: Bridge, a: Action, rest: seq<Action>)
    ensures Run(s, [a] + rest) == Run(Apply(s, a), rest)
  {
    assert ([a] + rest)[1..] == rest;
  }

  lemma Five(s: Bridge, a: Action, b: Action, c: Action, d: Action, e: Action)
    ensures Run(s, [a, b, c, d, e]) == Apply(Apply(Apply(Apply(Apply(s, a), b), c), d), e)
  {
    hide Apply;
    assert [a, b, c, d, e] == [a] + ([b] + ([c] + ([d] + ([e] + []))));
    var s1 := Apply(s, a);
    var s2 := Apply(s1, b);
    var s3 := Apply(s2, c);
    RunCons(Apply(s3, d), e, []);
    RunCons(s3, d, [e] + []);
    RunCons(s2, c, [d] + ([e] + []));
    RunCons(s1, b, [c] + ([d] + ([e] + [])));
    RunCons(s, a, [b] + ([c] + ([d] + ([e] + []))));
  }
}
