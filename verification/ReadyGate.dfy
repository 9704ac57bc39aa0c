/** The once-per-round ready gate: a fixed table of connection ids, a latch, a deadline, and
    the start epoch it feeds. */
module ReadyGate {
  import opened Naming

  const READY_MAX := 16

  /** Characters that fit into an id slot beside its terminator. */
  const ID_CHARS := 47

  const FALLBACK := "text:ready"

  datatype Gate = Gate(ids: seq<string>, players: int, fired: bool, timedOut: bool, deadline: int)

  const EMPTY := Gate([], 0, false, false, 0)

  /** What `snprintf` leaves of an id. */
  function Cut(id: string): string
  {
    if |id| <= ID_CHARS then id else id[..ID_CHARS]
  }

  // ---- The gate as values ----------------------------------------------------------------

  /** `ready_gate_add`: the id sought as given, stored cut. */
  function Add(g: Gate, id: string): (Gate, bool)
  {
    if id == "" || id in g.ids || |g.ids| >= READY_MAX then (g, false)
    else (g.(ids := g.ids + [Cut(id)]), true)
  }

  function Removed(ids: seq<string>, id: string): seq<string>
  {
    if ids == [] then []
    else if ids[0] == id then ids[1..]
    else [ids[0]] + Removed(ids[1..], id)
  }

  predicate AllReady(g: Gate, players: int)
  {
    players >= 1 && |g.ids| >= players
  }

  predicate Expired(g: Gate, now: int)
  {
    g.deadline > 0 && g.ids != [] && !g.fired && now >= g.deadline
  }

  function Arm(g: Gate, now: int, timeout: int): Gate
  {
    if g.deadline <= 0 && g.ids != [] && timeout > 0 then g.(deadline := now + timeout) else g
  }

  /** The id a chat line counts for. */
  function IdOf(conn: string): string
  {
    if conn != "" then Cut(conn) else FALLBACK
  }

  /** The critical section of `ready_gate_on_chat`: the gate, and whether it fires. */
  function OnChat(g: Gate, conn: string, now: int, timeout: int): (Gate, bool)
  {
    if g.fired then (g, false)
    else
      var (g1, added) := Add(g, IdOf(conn));
      if !added then (g, false)
      else
        var g2 := Arm(g1.(timedOut := false), now, timeout);
        if AllReady(g2, g2.players) then (g2.(fired := true, timedOut := false), true) else (g2, false)
  }

  function Tick(g: Gate, now: int): Gate
  {
    if Expired(g, now) then g.(ids := [], deadline := 0, timedOut := true) else g
  }

  function Reset(g: Gate): Gate
  {
    g.(ids := [], deadline := 0, fired := false, timedOut := false)
  }

  // ---- The command -------------------------------------------------------------------------

  predicate Space(c: char)
  {
    c == ' ' || c == '\t' || c == '\r' || c == '\n'
  }

  function Lower(c: char): char
  {
    if 'A' <= c <= 'Z' then ('a' as int + (c as int - 'A' as int)) as char else c
  }

  function TrimLeft(s: string): string
  {
    if s != "" && Space(s[0]) then TrimLeft(s[1..]) else s
  }

  function TrimRight(s: string): string
  {
    if s != "" && Space(s[|s| - 1]) then TrimRight(s[..|s| - 1]) else s
  }

  predicate IsReady(text: string)
  {
    var t := TrimRight(TrimLeft(text));
    |t| == 6 && forall i | 0 <= i < 6 :: Lower(t[i]) == "/ready"[i]
  }

  // ---- Runs: reader thread, HTTP threads -----------------------------------------------------------

  /** `bumping`: the reader has latched the gate and has yet to raise the epoch. History:
      gate fires since the last reset, all fires, all start requests, when the present
      ready set began. */
  datatype World = World(gate: Gate, epoch: int, bumping: nat, timeout: int, clock: int,
                         firesNow: nat, fires: nat, starts: nat, since: int, fireSizes: seq<(nat, int)>)

  datatype Action =
    | Chat(text: string, conn: string, now: int)
    | Bump
    | TickAt(now: int)
    | Players(n: int)
    | ResetGate
    | PostStart

  function Apply(w: World, a: Action): World
  {
    match a
    case Chat(text, conn, now) =>
      if !IsReady(text) || now < w.clock || w.bumping > 0 then w
      else
        var (g, fire) := OnChat(w.gate, conn, now, w.timeout);
        w.(gate := g, clock := now, since := if w.gate.ids == [] then now else w.since,
           bumping := if fire then 1 else 0, fires := w.fires + (if fire then 1 else 0),
           firesNow := w.firesNow + (if fire then 1 else 0),
           fireSizes := if fire then w.fireSizes + [(|g.ids|, g.players)] else w.fireSizes)
    case Bump => if w.bumping > 0 then w.(epoch := w.epoch + 1, bumping := w.bumping - 1) else w
    case TickAt(now) => if now < w.clock || w.bumping > 0 then w
                        else w.(gate := Tick(w.gate, now), clock := now)
    case Players(n) => w.(gate := w.gate.(players := n))
    case ResetGate => w.(gate := Reset(w.gate), firesNow := 0)
    case PostStart => w.(epoch := w.epoch + 1, starts := w.starts + 1)
  }

  function Run(w: World, actions: seq<Action>): World
    decreases |actions|
  {
    if actions == [] then w else Run(Apply(w, actions[0]), actions[1..])
  }

  function Boot(timeout: int, now: int): World
  {
    World(EMPTY, 0, 0, timeout, now, 0, 0, 0, now, [])
  }

  /** `ready_timeout_cap`. */
  function TimeoutCap(n: int, default: int): int
  {
    if n <= 0 then default else if n > 86400 then 86400 else n
  }

  predicate DistinctIds(ids: seq<string>)
  {
    && |ids| <= READY_MAX
    && (forall i | 0 <= i < |ids| :: 0 < |ids[i]| <= ID_CHARS)
    && forall i, j | 0 <= i < j < |ids| :: ids[i] != ids[j]
  }

  predicate Inv(w: World)
  {
    && w.timeout > 0 && w.clock >= 0
    && DistinctIds(w.gate.ids)
    && w.firesNow == (if w.gate.fired then 1 else 0)
    && w.epoch == w.starts + w.fires - w.bumping && w.bumping <= w.fires
    && (forall i | 0 <= i < |w.fireSizes| :: 1 <= w.fireSizes[i].1 <= w.fireSizes[i].0 <= READY_MAX)
    && |w.fireSizes| == w.fires
    && (w.gate.ids != [] ==> w.gate.deadline == w.since + w.timeout > 0)
    && (w.gate.ids == [] ==> w.gate.deadline == 0)
    && w.since <= w.clock
  }

  lemma CutShort(id: string)
    ensures |Cut(id)| <= ID_CHARS && Cut(Cut(id)) == Cut(id) && (id != "" ==> Cut(id) != "")
  {
  }

  lemma ApplyKeeps(w: World, a: Action)
    requires Inv(w)
    ensures Inv(Apply(w, a)) && Apply(w, a).timeout == w.timeout
  {
    hide IsReady, Cut, OnChat, DistinctIds;
    match a
    case Chat(text, conn, now) => if now >= w.clock { ChatKeeps(w.gate, conn, now, w.timeout); }
    case _ => NoIds();
  }

  lemma NoIds()
    ensures DistinctIds([])
  {
  }

  /** A chat line adds at most one id, a new one, and arms the gate when it is the first. */
  lemma ChatKeeps(g: Gate, conn: string, now: int, timeout: int)
    requires DistinctIds(g.ids) && timeout > 0 && now >= 0
    requires g.ids == [] ==> g.deadline == 0
    requires g.ids != [] ==> g.deadline > 0
    ensures var (g', fire) := OnChat(g, conn, now, timeout);
            && DistinctIds(g'.ids) && g'.players == g.players
            && (g' != g ==> g'.ids != [] && g'.deadline == (if g.ids == [] then now + timeout else g.deadline))
            && (g'.ids == [] ==> g' == g)
            && (fire ==> !g.fired && g'.fired && 1 <= g'.players <= |g'.ids| <= READY_MAX)
            && (!fire ==> g'.fired == g.fired)
  {
    CutShort(conn);
    CutShort(FALLBACK);
    CutFallback();
    hide Cut;
  }

  lemma CutFallback()
    ensures Cut(FALLBACK) == FALLBACK
  {
    assert |FALLBACK| == 10;
  }

  lemma {:induction false} RunKeeps(w: World, actions: seq<Action>)
    requires Inv(w)
    ensures Inv(Run(w, actions))
    decreases |actions|
  {
    hide Inv, Apply;
    if actions != [] {
      ApplyKeeps(w, actions[0]);
      RunKeeps(Apply(w, actions[0]), actions[1..]);
    }
  }

  // ---- Promises ----------------------------------------------------------------------------------

  /** In every run: ids are distinct and at most sixteen, the gate fires at most once between
      resets, each time with at least as many distinct ready players as there are players,
      and the start epoch counts exactly these fires and the start requests. */
  lemma OncePerRound(setting: int, now: int, actions: seq<Action>)
    requires now >= 0
    ensures var w := Run(Boot(TimeoutCap(setting, 180), now), actions);
            && DistinctIds(w.gate.ids)
            && w.firesNow <= 1
            && (forall i | 0 <= i < |w.fireSizes| :: 1 <= w.fireSizes[i].1 <= w.fireSizes[i].0)
            && w.epoch + w.bumping == w.starts + w.fires
  {
    RunKeeps(Boot(TimeoutCap(setting, 180), now), actions);
  }

  /** After each tick a gate that has ready players and has not fired is younger than its
      timeout. */
  lemma YoungAfterTick(setting: int, now: int, actions: seq<Action>, tick: int)
    requires now >= 0
    requires var w := Run(Boot(TimeoutCap(setting, 180), now), actions); w.clock <= tick && w.bumping == 0
    ensures var w := Apply(Run(Boot(TimeoutCap(setting, 180), now), actions), TickAt(tick));
            w.gate.ids != [] && !w.gate.fired ==> w.since <= tick < w.since + w.timeout
  {
    RunKeeps(Boot(TimeoutCap(setting, 180), now), actions);
  }

  /** A gate whose deadline passes is emptied and nothing starts. */
  lemma TimeoutStartsNothing(w: World, tick: int)
    requires Inv(w) && w.clock <= tick && w.bumping == 0
    ensures var w' := Apply(w, TickAt(tick));
            && w'.epoch == w.epoch && w'.fires == w.fires && w'.gate.fired == w.gate.fired
            && (w.gate.ids != [] && !w.gate.fired && tick >= w.since + w.timeout
                <==> w.gate.ids != [] && w'.gate.ids == [])
  {
  }

  /** More than sixteen players can never all be ready. */
  lemma {:induction false} TooManyNeverFire(w: World, actions: seq<Action>)
    requires Inv(w) && w.gate.players > READY_MAX
    requires forall a | a in actions :: a.Players? ==> a.n > READY_MAX
    ensures Run(w, actions).fires == w.fires
    decreases |actions|
  {
    if actions != [] {
      ApplyKeeps(w, actions[0]);
      hide IsReady, Cut, OnChat;
      if actions[0].Chat? && actions[0].now >= w.clock {
        ChatKeeps(w.gate, actions[0].conn, actions[0].now, w.timeout);
      }
      assert actions[0] in actions;
      var w1 := Apply(w, actions[0]);
      assert w1.fires == w.fires && w1.gate.players > READY_MAX;
      TooManyNeverFire(w1, actions[1..]);
    }
  }

  /** Without connection ids everybody counts as one. */
  lemma AnonymousIsOne(g: Gate, now1: int, now2: int, timeout: int)
    requires !g.fired
    ensures var (g1, f1) := OnChat(g, "", now1, timeout);
            OnChat(g1, "", now2, timeout) == (g1, false) || |g.ids| >= READY_MAX
  {
    CutFallback();
    hide Cut;
  }

  /** The table alone does not keep ids distinct: an id too long for its slot is sought as
      given and stored cut, so it enters twice. Ids of up to 47 characters are safe, and
      the chat handler cuts before it adds. */
  lemma AddIdempotentIff(g: Gate, id: string)
    requires id != "" && |g.ids| < READY_MAX - 1 && id !in g.ids
    ensures Add(Add(g, id).0, id).1 <==> |id| > ID_CHARS
  {
    var g1 := Add(g, id).0;
    assert g1.ids[|g.ids|] == Cut(id);
  }
}
