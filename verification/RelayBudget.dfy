/** What the solo claim guarantees: time, number of attempts, and what each answer means. */
module RelayBudget {
  import opened Naming
  import opened RelayJson
  import opened RelayEndpoint
  import opened RelayClaim

  /** Each claim returns within its timeout. */
  ghost predicate Punctual(claim: Claim)
  {
    forall n: nat, timeout: int | timeout >= 0 :: claim(n, timeout).took <= timeout
  }

  predicate BudgetOk(b: Budget)
  {
    b.totalMs >= 0 && b.attemptMs >= 0 && b.minAttemptMs >= 0
  }

  /** An attempt of a log: within its budget, then asleep for its delay or what was left. */
  predicate TryOk(b: Budget, claim: Claim, k: nat, t: Try)
  {
    && b.minAttemptMs <= b.totalMs - t.at
    && t.timeout == Min(b.totalMs - t.at, b.attemptMs)
    && claim(k + 1, t.timeout) == Answer(t.resp, t.took)
  }

  predicate Retried(b: Budget, k: nat, t: Try)
  {
    && t.resp.status != 200 && Transient(t.resp.status, FieldOr(t.resp.body, "reason", ""))
    && t.at + t.took < b.totalMs
    && t.slept == Min(RetryDelay(k + 1), b.totalMs - (t.at + t.took))
  }

  /** The log so far: attempts in sequence, all of them to be retried. */
  ghost predicate Trail(b: Budget, claim: Claim, tries: seq<Try>, elapsed: int)
  {
    && (forall k | 0 <= k < |tries| :: TryOk(b, claim, k, tries[k]) && Retried(b, k, tries[k]))
    && (forall k | 0 <= k < |tries| ::
          tries[k].at + tries[k].took + tries[k].slept == Next(tries, k, elapsed))
    && (tries == [] ==> elapsed == 0) && (tries != [] ==> tries[0].at == 0)
  }

  function Next(tries: seq<Try>, k: nat, elapsed: int): int
    requires k < |tries|
  {
    if k + 1 < |tries| then tries[k + 1].at else elapsed
  }

  /** The finished log. `last` is set unless no attempt fitted the budget any more. */
  ghost predicate Log(b: Budget, claim: Claim, e: End)
  {
    if e.tries != [] && !Retried(b, |e.tries| - 1, e.tries[|e.tries| - 1]) then
      var n := |e.tries| - 1;
      var t := e.tries[n];
      var said := FieldOr(t.resp.body, "reason", "");
      && Trail(b, claim, e.tries[..n], t.at) && TryOk(b, claim, n, t) && t.slept == 0
      && e.elapsed == t.at + t.took
      && (t.resp.status == 200 ==>
            && e.target == Target(t.resp.body)
            && (if e.target.Some? then e.instance == FieldOr(t.resp.body, "instance", "")
                else e.status == -2 && e.reason == "no_endpoint"))
      && (t.resp.status != 200 ==>
            e.target == None && e.status == t.resp.status && e.reason == said
            && (Transient(e.status, said) ==> e.elapsed >= b.totalMs))
    else
      && Trail(b, claim, e.tries, e.elapsed) && e.target == None
      && b.totalMs - e.elapsed < b.minAttemptMs
      && Transient(e.status, e.reason)
  }

  lemma OnceIsTry(b: Budget, claim: Claim, k: nat, elapsed: int)
    requires b.minAttemptMs <= b.totalMs - elapsed
    ensures var r := Once(b, claim, k + 1, elapsed);
            && TryOk(b, claim, k, r.one) && r.one.at == elapsed
            && (r.again <==> Retried(b, k, r.one))
            && (r.again ==> r.now == r.one.at + r.one.took + r.one.slept
                            && Transient(r.status, r.reason) && r.target == None)
  {
    hide FieldOr, Target, RetryDelay;
    Positive(k + 1);
  }

  lemma TrailGrows(b: Budget, claim: Claim, tries: seq<Try>, elapsed: int)
    requires Trail(b, claim, tries, elapsed) && b.minAttemptMs <= b.totalMs - elapsed
    ensures var r := Once(b, claim, |tries| + 1, elapsed);
            && TryOk(b, claim, |tries|, r.one)
            && (r.again <==> Retried(b, |tries|, r.one))
            && (r.again ==> Trail(b, claim, tries + [r.one], r.now)
                            && Transient(r.status, r.reason) && r.target == None)
  {
    hide Once, TryOk, Retried;
    OnceIsTry(b, claim, |tries|, elapsed);
    var r := Once(b, claim, |tries| + 1, elapsed);
    if r.again {
      var more := tries + [r.one];
      forall k | 0 <= k < |more| ensures TryOk(b, claim, k, more[k]) && Retried(b, k, more[k])
                                         && more[k].at + more[k].took + more[k].slept == Next(more, k, r.now)
      {
        if k < |tries| {
          assert more[k] == tries[k];
          assert tries[k].at + tries[k].took + tries[k].slept == Next(tries, k, elapsed);
        }
      }
    }
  }

  lemma Positive(n: nat)
    ensures RetryDelay(n) > 0
  {
  }

  lemma {:induction false} LoopLogs(b: Budget, claim: Claim, tries: seq<Try>, elapsed: int,
                                    status: int, reason: string)
    requires Trail(b, claim, tries, elapsed) && Transient(status, reason)
    ensures Log(b, claim, Loop(b, claim, tries, elapsed, status, reason))
    decreases if elapsed < b.totalMs then b.totalMs - elapsed else 0
  {
    hide Once, Transient, Trail, TryOk;
    if b.totalMs - elapsed >= b.minAttemptMs {
      NapsForward(b, claim, |tries| + 1, elapsed);
      TrailGrows(b, claim, tries, elapsed);
      var r := Once(b, claim, |tries| + 1, elapsed);
      if r.again {
        LoopLogs(b, claim, tries + [r.one], r.now, r.status, r.reason);
      } else {
        LastRound(b, claim, |tries| + 1, elapsed);
        assert (tries + [r.one])[..|tries|] == tries;
      }
    } else if tries != [] {
      LastRetried(b, claim, tries, elapsed);
    }
  }

  lemma LastRetried(b: Budget, claim: Claim, tries: seq<Try>, elapsed: int)
    requires Trail(b, claim, tries, elapsed) && tries != []
    ensures Retried(b, |tries| - 1, tries[|tries| - 1])
  {
  }

  lemma LastRound(b: Budget, claim: Claim, attempt: nat, elapsed: int)
    requires !Once(b, claim, attempt, elapsed).again
    ensures var r := Once(b, claim, attempt, elapsed);
            var t := r.one;
            var said := FieldOr(t.resp.body, "reason", "");
            && t.at == elapsed && t.slept == 0 && r.now == t.at + t.took
            && (t.resp.status == 200 ==>
                  && r.target == Target(t.resp.body)
                  && (if r.target.Some? then r.instance == FieldOr(t.resp.body, "instance", "")
                      else r.status == -2 && r.reason == "no_endpoint"))
            && (t.resp.status != 200 ==>
                  r.target == None && r.status == t.resp.status && r.reason == said
                  && (Transient(r.status, said) ==> r.now >= b.totalMs))
  {
    hide FieldOr, Target;
  }

  lemma StartLogs(b: Budget, claim: Claim)
    ensures Log(b, claim, Start(b, claim))
  {
    LoopLogs(b, claim, [], 0, -1, "");
  }

  // ---- Time --------------------------------------------------------------------------------

  /** The hard budget: the whole call takes at most totalMs, for every behaviour of a
      punctual backend. */
  lemma WithinBudget(b: Budget, claim: Claim)
    requires BudgetOk(b) && Punctual(claim)
    ensures Start(b, claim).elapsed <= b.totalMs
  {
    StartLogs(b, claim);
    var e := Start(b, claim);
    hide Retried, Transient;
    if e.tries != [] && !Retried(b, |e.tries| - 1, e.tries[|e.tries| - 1]) {
      var t := e.tries[|e.tries| - 1];
      assert claim(|e.tries|, t.timeout).took <= t.timeout;
    } else if e.tries != [] {
      var n := |e.tries| - 1;
      NapWithin(b, n, e.tries[n]);
      assert e.tries[n].at + e.tries[n].took + e.tries[n].slept == Next(e.tries, n, e.elapsed);
    }
  }

  lemma NapWithin(b: Budget, k: nat, t: Try)
    requires Retried(b, k, t)
    ensures t.at + t.took + t.slept <= b.totalMs
  {
  }

  // ---- Attempts ------------------------------------------------------------------------------

  /** Sum of the first `n` delays. */
  function Delays(n: nat): nat
  {
    if n == 0 then 0 else Delays(n - 1) + RetryDelay(n)
  }

  /** Attempt number k starts after the delays before it, or the budget is all slept away. */
  lemma {:induction false} StartsLate(b: Budget, claim: Claim, tries: seq<Try>, elapsed: int, k: nat)
    requires Trail(b, claim, tries, elapsed) && k <= |tries| && b.totalMs >= 0
    ensures var at := if k < |tries| then tries[k].at else elapsed;
            at >= Min(Delays(k), b.totalMs)
  {
    if k > 0 {
      StartsLate(b, claim, tries, elapsed, k - 1);
      assert Retried(b, k - 1, tries[k - 1]);
      assert tries[k - 1].at + tries[k - 1].took + tries[k - 1].slept == Next(tries, k - 1, elapsed);
    }
  }

  /** Every attempt starts after the delays before it and early enough to be sensible. */
  lemma EveryStart(b: Budget, claim: Claim, k: nat)
    requires b.totalMs >= 0 && k < |Start(b, claim).tries|
    ensures var at := Start(b, claim).tries[k].at;
            Min(Delays(k), b.totalMs) <= at <= b.totalMs - b.minAttemptMs
  {
    StartLogs(b, claim);
    var e := Start(b, claim);
    hide Start, Retried, Delays;
    var n := |e.tries| - 1;
    if Retried(b, n, e.tries[n]) {
      StartsLate(b, claim, e.tries, e.elapsed, k);
      assert TryOk(b, claim, k, e.tries[k]);
    } else {
      StartsLate(b, claim, e.tries[..n], e.tries[n].at, k);
      if k < n {
        assert e.tries[..n][k] == e.tries[k];
        assert TryOk(b, claim, k, e.tries[..n][k]);
      }
    }
  }

  /** With the default budget at most six attempts are made, however fast they fail. */
  lemma AtMostSixAttempts(claim: Claim)
    ensures |Start(DEFAULT, claim).tries| <= 6
  {
    assert Delays(1) == 250 && Delays(2) == 750 && Delays(3) == 1750;
    assert Delays(4) == 2750 && Delays(5) == 3750 && Delays(6) == 4750;
    hide Start, Delays;
    if |Start(DEFAULT, claim).tries| > 6 {
      EveryStart(DEFAULT, claim, 6);
    }
  }

  // ---- Meaning of the answer -------------------------------------------------------------------

  /** The last attempt, if any. */
  function Last(e: End): Option<Try>
  {
    if e.tries == [] then None else Some(e.tries[|e.tries| - 1])
  }

  predicate Usable(t: Try)
  {
    t.resp.status == 200 && Target(t.resp.body).Some?
  }

  /** 200 exactly when the last attempt carried a parseable endpoint, which is then the one
      returned; 503 exactly when nothing but transient failures were seen (or nothing was
      tried); a refusal keeps its 409; all else is a bad gateway. Every attempt but the
      last failed transiently. */
  lemma AnswersMean(b: Budget, claim: Claim)
    ensures var e := Start(b, claim);
            var out := Conclude(e);
            var last := Last(e);
            && (out.code == 200 <==> last.Some? && Usable(last.value))
            && (out.pin <==> out.code == 200)
            && (out.code == 200 ==> ParseEndpoint(out.endpoint) == Target(last.value.resp.body))
            && (out.code == 503 <==>
                  last.None? || (last.value.resp.status != 200
                                 && Transient(last.value.resp.status,
                                              FieldOr(last.value.resp.body, "reason", ""))))
            && (out.code == 409 <==>
                  last.Some? && last.value.resp.status == 409
                  && FieldOr(last.value.resp.body, "reason", "") != "none_parked")
            && out.code in {200, 409, 502, 503}
            && forall k | 0 <= k < |e.tries| - 1 ::
                 e.tries[k].resp.status != 200
                 && Transient(e.tries[k].resp.status, FieldOr(e.tries[k].resp.body, "reason", ""))
  {
    StartLogs(b, claim);
    var e := Start(b, claim);
    hide Field, Start, FieldOr, TryOk, Escape, ParseEndpoint;
    if e.target.Some? {
      TargetParses(e.tries[|e.tries| - 1].resp.body);
    }
    if e.tries != [] {
      var n := |e.tries| - 1;
      if !Retried(b, n, e.tries[n]) {
        assert forall k | 0 <= k < n :: e.tries[..n][k] == e.tries[k];
        forall k | 0 <= k < n ensures Retried(b, k, e.tries[k]) {
          assert Retried(b, k, e.tries[..n][k]);
        }
      }
    } else {
      NothingTried(b, claim);
    }
  }

  lemma TargetParses(body: string)
    requires Target(body).Some?
    ensures ParseEndpoint(Str(Target(body).value)) == Target(body)
  {
    WrittenReadsBack(Field(body, "gns_endpoint").value, Target(body).value);
  }

  lemma {:induction false} NothingTried(b: Budget, claim: Claim)
    requires Start(b, claim).tries == []
    ensures Start(b, claim).status == -1
  {
    LongerLog(b, claim, [], 0, -1, "");
  }

  lemma {:induction false} LongerLog(b: Budget, claim: Claim, tries: seq<Try>, elapsed: int,
                                     status: int, reason: string)
    ensures var e := Loop(b, claim, tries, elapsed, status, reason);
            |e.tries| >= |tries| && (|e.tries| == |tries| ==> e.status == status)
    decreases if elapsed < b.totalMs then b.totalMs - elapsed else 0
  {
    hide Once;
    if b.totalMs - elapsed >= b.minAttemptMs {
      NapsForward(b, claim, |tries| + 1, elapsed);
      var r := Once(b, claim, |tries| + 1, elapsed);
      if r.again { LongerLog(b, claim, tries + [r.one], r.now, r.status, r.reason); }
    }
  }
}
