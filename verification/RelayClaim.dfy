/** The solo claim: a retry loop under a hard wall-clock budget. */
module RelayClaim {
  import opened Naming
  import opened RelayJson
  import opened RelayEndpoint

  datatype Resp = Resp(status: int, body: string)

  /** What a claim answered, and how long it took. */
  datatype Answer = Answer(resp: Resp, took: nat)

  /** Attempt number and timeout to answer. Time passes in claims and sleeps only. */
  type Claim = (nat, int) -> Answer

  datatype Budget = Budget(totalMs: int, attemptMs: int, minAttemptMs: int)

  const DEFAULT := Budget(4500, 1500, 250)

  predicate Transient(status: int, reason: string)
  {
    status == -1 || status == 503 || (status == 409 && reason == "none_parked")
  }

  /** 250, 500, 1000, 1000, ... */
  method RetryDelayMs(attempt: nat) returns (delay: int)
    ensures delay == RetryDelay(attempt)
  {
    delay := 250;
    var i := 1;
    while i < attempt && delay < 1000
      invariant 1 <= i && (attempt >= 1 ==> i <= attempt) && (attempt == 0 ==> i == 1)
      invariant delay == RetryDelay(i)
    {
      delay := delay * 2;
      i := i + 1;
    }
    delay := if delay > 1000 then 1000 else delay;
  }

  function RetryDelay(attempt: nat): nat
  {
    if attempt <= 1 then 250 else if attempt == 2 then 500 else 1000
  }

  function FieldOr(body: string, key: string, default: string): string
  {
    var f := Field(body, key);
    if f.Some? then f.value else default
  }

  /** The usable target of a 200. */
  function Target(body: string): Option<Endpoint>
  {
    var f := Field(body, "gns_endpoint");
    if f.Some? && f.value != "" then ParseEndpoint(f.value) else None
  }

  /** An attempt as it went. */
  datatype Try = Try(at: int, timeout: int, took: nat, resp: Resp, slept: int)

  /** How the loop ended. */
  datatype End = End(tries: seq<Try>, elapsed: int, status: int, reason: string,
                     target: Option<Endpoint>, instance: string)

  function Min(a: int, b: int): int
  {
    if a <= b then a else b
  }

  /** One round of the loop: the attempt, where the clock then stands, the verdict, and
      whether there is to be another round. */
  datatype Round = Round(one: Try, now: int, status: int, reason: string,
                         target: Option<Endpoint>, instance: string, again: bool)

  function Once(b: Budget, claim: Claim, attempt: nat, elapsed: int): Round
  {
    var timeout := Min(b.totalMs - elapsed, b.attemptMs);
    var a := claim(attempt, timeout);
    var now := elapsed + a.took;
    var one := Try(elapsed, timeout, a.took, a.resp, 0);
    var said := FieldOr(a.resp.body, "reason", "");
    if a.resp.status == 200 then
      (var target := Target(a.resp.body);
       if target.Some?
       then Round(one, now, 200, said, target, FieldOr(a.resp.body, "instance", ""), false)
       else Round(one, now, -2, "no_endpoint", None, "", false))
    else if !Transient(a.resp.status, said) || b.totalMs - now <= 0 then
      Round(one, now, a.resp.status, said, None, "", false)
    else
      var nap := Min(RetryDelay(attempt), b.totalMs - now);
      Round(one.(slept := nap), now + nap, a.resp.status, said, None, "", true)
  }

  lemma NapsForward(b: Budget, claim: Claim, attempt: nat, elapsed: int)
    ensures var r := Once(b, claim, attempt, elapsed);
            r.again ==> elapsed < r.now <= b.totalMs
  {
    hide FieldOr, Target;
  }

  /** The loop from `elapsed` on, after `tries` and with the last verdict. */
  function Loop(b: Budget, claim: Claim, tries: seq<Try>, elapsed: int, status: int, reason: string)
    : End
    decreases if elapsed < b.totalMs then b.totalMs - elapsed else 0
  {
    if b.totalMs - elapsed < b.minAttemptMs then End(tries, elapsed, status, reason, None, "")
    else
      NapsForward(b, claim, |tries| + 1, elapsed);
      var r := Once(b, claim, |tries| + 1, elapsed);
      if r.again then Loop(b, claim, tries + [r.one], r.now, r.status, r.reason)
      else End(tries + [r.one], r.now, r.status, r.reason, r.target, r.instance)
  }

  datatype Outcome = Outcome(code: int, reason: string, body: string, pin: bool, endpoint: string,
                             instance: string)

  function Conclude(e: End): Outcome
  {
    if e.target.Some? then Outcome(200, "", "", true, Str(e.target.value), e.instance)
    else if Transient(e.status, e.reason) then
      Outcome(503, "backend_starting",
              "{\"ok\":false,\"reason\":\"backend_starting\",\"retry\":true}", false, "", "")
    else
      var reason := if e.status == 409 then (if e.reason == "" then "not_claimable" else e.reason)
                    else "bad_gateway";
      Outcome(if e.status == 409 then 409 else 502, reason,
              "{\"ok\":false,\"reason\":\"" + Escape(reason) + "\"}", false, "", "")
  }

  function Start(b: Budget, claim: Claim): End
  {
    Loop(b, claim, [], 0, -1, "")
  }

  /** The retry loop over the clock, the claim callback and the sleep. */
  method RunSoloClaim(env: string, mode: string, b: Budget, claim: Claim)
    returns (out: Outcome, payload: string, ghost e: End)
    ensures e == Start(b, claim) && out == Conclude(e)
    ensures payload == ClaimBody(env, mode)
  {
    hide Once, ClaimBody, Escape, Transient;
    payload := Payload(env, mode);
    e := Start(b, claim);
    var clock: int, attempt: nat, status: int, reason: string := 0, 0, -1, "";
    var target: Option<Endpoint>, instance := None, "";
    ghost var tries: seq<Try> := [];
    while b.totalMs - clock >= b.minAttemptMs
      invariant |tries| == attempt && target == None && instance == ""
      invariant Loop(b, claim, tries, clock, status, reason) == e
      decreases if clock < b.totalMs then b.totalMs - clock else 0
    {
      NapsForward(b, claim, attempt + 1, clock);
      attempt := attempt + 1;
      var again;
      ghost var one;
      one, clock, status, reason, target, instance, again := Attempt(b, claim, attempt, clock);
      tries := tries + [one];
      if !again {
        break;
      }
      NoTargetYet(b, claim, attempt, one.at);
    }
    if target.Some? {
      out := Outcome(200, "", "", true, Str(target.value), instance);
    } else {
      out := Verdict(status, reason);
    }
  }

  lemma NoTargetYet(b: Budget, claim: Claim, attempt: nat, elapsed: int)
    ensures var r := Once(b, claim, attempt, elapsed); r.again ==> r.target == None && r.instance == ""
  {
  }

  /** The body of the loop. */
  method Attempt(b: Budget, claim: Claim, attempt: nat, start: int)
    returns (ghost one: Try, clock: int, status: int, reason: string, target: Option<Endpoint>,
             instance: string, again: bool)
    ensures Round(one, clock, status, reason, target, instance, again) == Once(b, claim, attempt, start)
    ensures one.at == start
  {
    hide Field, ParseEndpoint, RetryDelay;
    target, instance, again := None, "", false;
    var remaining := b.totalMs - start;
    var timeout := if remaining <= b.attemptMs then remaining else b.attemptMs;
    var a := claim(attempt, timeout);
    one := Try(start, timeout, a.took, a.resp, 0);
    clock := start + a.took;
    status := a.resp.status;
    reason := FieldOr(a.resp.body, "reason", "");
    if status == 200 {
      target := Target(a.resp.body);
      if target.Some? {
        instance := FieldOr(a.resp.body, "instance", "");
      } else {
        status, reason := -2, "no_endpoint";
      }
      return;
    }
    if !Transient(status, reason) {
      return;
    }
    var left := b.totalMs - clock;
    if left <= 0 {
      return;
    }
    var delay := RetryDelayMs(attempt);
    if delay > left {
      delay := left;
    }
    clock := clock + delay;
    one := one.(slept := delay);
    again := true;
  }

  method Payload(env: string, mode: string) returns (body: string)
    ensures body == ClaimBody(env, mode)
  {
    if env == "" && mode == "" {
      return "{}";
    }
    body := "{";
    var first := true;
    if env != "" {
      var text := JsonEscape(env);
      body := body + "\"env\":\"" + text + "\"";
      first := false;
    }
    if mode != "" {
      if !first {
        body := body + ",";
      }
      var text := JsonEscape(mode);
      body := body + "\"mode\":\"" + text + "\"";
    }
    body := body + "}";
    Assembled(Escape(env), Escape(mode));
  }

  lemma Assembled(e: string, m: string)
    ensures ("{" + ("\"env\":\"" + e + "\"")) + "}" == "{\"env\":\"" + e + "\"}"
    ensures ("{" + ("\"mode\":\"" + m + "\"")) + "}" == "{\"mode\":\"" + m + "\"}"
    ensures "{" + "\"env\":\"" + e + "\"" + "," + "\"mode\":\"" + m + "\"" + "}"
         == "{\"env\":\"" + e + "\",\"mode\":\"" + m + "\"}"
  {
    assert "{" + "\"env\":\"" == "{\"env\":\"" && "{" + "\"mode\":\"" == "{\"mode\":\"";
    assert "\"" + "," + "\"mode\":\"" == "\",\"mode\":\"";
    assert "\"" + "}" == "\"}";
  }

  /** The mapping of a failure. */
  method Verdict(status: int, reason: string) returns (out: Outcome)
    ensures out == Conclude(End([], 0, status, reason, None, ""))
  {
    if Transient(status, reason) {
      return Outcome(503, "backend_starting",
                     "{\"ok\":false,\"reason\":\"backend_starting\",\"retry\":true}", false, "", "");
    }
    var outStatus, outReason := 502, "bad_gateway";
    if status == 409 {
      outStatus := 409;
      outReason := if reason == "" then "not_claimable" else reason;
    }
    var text := JsonEscape(outReason);
    return Outcome(outStatus, outReason, "{\"ok\":false,\"reason\":\"" + text + "\"}", false, "", "");
  }
}
