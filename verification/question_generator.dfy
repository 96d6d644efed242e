/** `QuestionGenerator`: bounded retry of the gateway call plus parse, then one
    structural check on the parsed question. The gateway is an oracle: call
    number `i` (counted over the whole session) receives `gateway(i)`. */
module QuestionGenerator {
  import opened Wrappers
  import opened PyStr
  import opened QuestionSchemas

  /** Default of `MAX_RETRIES` in the application settings. */
  const DefaultMaxRetries := 3

  type Gateway = nat -> Reply

  /** The `CustomException`s `_retry_and_parse` raises. */
  datatype RetryError =
    | Exhausted(attempts: int)   // "Generation failed after N attempts"
    | Unexpected                 // "Unexpected error in _retry_and_parse."

  /** What a generation failure wraps. */
  datatype Cause = RetryFailed(error: RetryError) | InvalidStructure

  /** The single wrapped exception `generate_mcq` / `generate_fill_blank` raise. */
  datatype GenError = MCQGenerationFailed(cause: Cause) | FillGenerationFailed(cause: Cause)

  /** An outcome together with the number of gateway calls it consumed. */
  datatype Attempted<+T, +E> = Attempted(result: Result<T, E>, calls: nat)

  /** How many attempts `range(MAX_RETRIES)` allows. */
  function Budget(maxRetries: int): nat
  {
    if maxRetries <= 0 then 0 else maxRetries
  }

  /** No reply among calls `lo` .. `hi - 1` parses. */
  ghost predicate NoneParsed<T>(parse: Reply -> Option<T>, gateway: Gateway, lo: nat, hi: nat)
  {
    forall i: nat :: lo <= i < hi ==> parse(gateway(i)).None?
  }

  /** Two gateways answer calls `lo` .. `hi - 1` alike. */
  ghost predicate Agree(g1: Gateway, g2: Gateway, lo: nat, hi: nat)
  {
    forall i: nat :: lo <= i < hi ==> g1(i) == g2(i)
  }

  /** Attempts `attempt` .. `maxRetries - 1` of `_retry_and_parse`. */
  function RetryFrom<T>(parse: Reply -> Option<T>, maxRetries: int, gateway: Gateway, start: nat, attempt: nat)
    : Attempted<T, RetryError>
    requires attempt < maxRetries
    decreases maxRetries - attempt
  {
    match parse(gateway(start + attempt))
    case Some(v) => Attempted(Success(v), attempt + 1)
    case None =>
      if attempt == maxRetries - 1 then Attempted(Failure(Exhausted(maxRetries)), attempt + 1)
      else RetryFrom(parse, maxRetries, gateway, start, attempt + 1)
  }

  /** The remaining attempts make at least one call and at most the ones
      left; they end at the first reply that parses, with none parsed before
      it, or else after the last allowed call with the exhaustion error. */
  lemma {:induction false} RetryFromFacts<T>(parse: Reply -> Option<T>, maxRetries: int, gateway: Gateway, start: nat, attempt: nat)
    requires attempt < maxRetries
    ensures var a := RetryFrom(parse, maxRetries, gateway, start, attempt);
            && attempt < a.calls <= maxRetries
            && (a.result.Success? ==>
                  && parse(gateway(start + a.calls - 1)) == Some(a.result.value)
                  && NoneParsed(parse, gateway, start + attempt, start + a.calls - 1))
            && (a.result.Failure? ==>
                  && a.calls == maxRetries
                  && a.result.error == Exhausted(maxRetries)
                  && NoneParsed(parse, gateway, start + attempt, start + a.calls))
    decreases maxRetries - attempt
  {
    if parse(gateway(start + attempt)).None? && attempt < maxRetries - 1 {
      RetryFromFacts(parse, maxRetries, gateway, start, attempt + 1);
    }
  }

  /** `_retry_and_parse`. */
  function Retry<T>(parse: Reply -> Option<T>, maxRetries: int, gateway: Gateway, start: nat): Attempted<T, RetryError>
  {
    if maxRetries <= 0 then Attempted(Failure(Unexpected), 0)
    else RetryFrom(parse, maxRetries, gateway, start, 0)
  }

  /** `_retry_and_parse` returns the first reply that parses, found within the
      budget, with no call made after it; otherwise it fails with the
      exhaustion error after exactly `maxRetries` calls, none of which parsed,
      or, for a budget of zero or less, with the "unexpected" error after no
      call at all. */
  lemma RetryFacts<T>(parse: Reply -> Option<T>, maxRetries: int, gateway: Gateway, start: nat)
    ensures var a := Retry(parse, maxRetries, gateway, start);
            && a.calls <= Budget(maxRetries)
            && (a.result.Success? ==>
                  && 1 <= a.calls
                  && parse(gateway(start + a.calls - 1)) == Some(a.result.value)
                  && NoneParsed(parse, gateway, start, start + a.calls - 1))
            && (a.result.Failure? ==> NoneParsed(parse, gateway, start, start + a.calls))
            && (a.result.Failure? && maxRetries >= 1 ==>
                  a.calls == maxRetries && a.result.error == Exhausted(maxRetries))
            && (maxRetries <= 0 ==> a == Attempted(Failure(Unexpected), 0))
  {
    if maxRetries > 0 {
      RetryFromFacts(parse, maxRetries, gateway, start, 0);
    }
  }

  /** Under the default setting, a gateway whose replies never parse makes
      `_retry_and_parse` raise "failed after 3 attempts" after exactly three
      calls. */
  lemma DefaultBudgetExhausted<T>(parse: Reply -> Option<T>, gateway: Gateway, start: nat)
    requires forall i: nat :: parse(gateway(i)).None?
    ensures Retry(parse, DefaultMaxRetries, gateway, start) == Attempted(Failure(Exhausted(3)), 3)
  {
    RetryFacts(parse, DefaultMaxRetries, gateway, start);
  }

  /** `_retry_and_parse` as the source writes it: a counted loop that returns
      on the first parse, raises on the last failed attempt, and raises the
      "unexpected" error only if the loop body never ran. */
  method RetryAndParse<T>(parse: Reply -> Option<T>, maxRetries: int, gateway: Gateway, start: nat)
    returns (r: Result<T, RetryError>, calls: nat)
    ensures Attempted(r, calls) == Retry(parse, maxRetries, gateway, start)
  {
    var attempt: nat := 0;
    while attempt < maxRetries
      invariant maxRetries > 0 ==> attempt < maxRetries
      invariant maxRetries <= 0 ==> attempt == 0
      invariant maxRetries > 0 ==>
                  RetryFrom(parse, maxRetries, gateway, start, attempt) == Retry(parse, maxRetries, gateway, start)
    {
      var reply := gateway(start + attempt);
      match parse(reply) {
        case Some(v) =>
          return Success(v), attempt + 1;
        case None =>
          if attempt == maxRetries - 1 {
            return Failure(Exhausted(maxRetries)), attempt + 1;
          }
      }
      attempt := attempt + 1;
    }
    return Failure(Unexpected), attempt;
  }

  /** The retry outcome depends only on the replies it consumed: a gateway that
      agrees on those calls gives the same outcome, so nothing is read after
      the first successful parse or the last allowed attempt. */
  lemma {:induction false} RetryReadsOnlyConsumed<T>(parse: Reply -> Option<T>, maxRetries: int, g1: Gateway, g2: Gateway, start: nat)
    requires Agree(g1, g2, start, start + Retry(parse, maxRetries, g1, start).calls)
    ensures Retry(parse, maxRetries, g1, start) == Retry(parse, maxRetries, g2, start)
  {
    if maxRetries > 0 {
      RetryFromReadsOnlyConsumed(parse, maxRetries, g1, g2, start, 0);
    }
  }

  lemma {:induction false} RetryFromReadsOnlyConsumed<T>(parse: Reply -> Option<T>, maxRetries: int, g1: Gateway, g2: Gateway, start: nat, attempt: nat)
    requires attempt < maxRetries
    requires Agree(g1, g2, start + attempt, start + RetryFrom(parse, maxRetries, g1, start, attempt).calls)
    ensures RetryFrom(parse, maxRetries, g1, start, attempt) == RetryFrom(parse, maxRetries, g2, start, attempt)
    decreases maxRetries - attempt
  {
    RetryFromFacts(parse, maxRetries, g1, start, attempt);
    if attempt < maxRetries - 1 && parse(g1(start + attempt)).None? {
      RetryFromReadsOnlyConsumed(parse, maxRetries, g1, g2, start, attempt + 1);
    }
  }

  /** `generate_mcq`: retry, then one structural check that is not retried.
      Only a question with exactly four options containing its answer is
      returned; every failure is one wrapped `MCQGenerationFailed`. */
  function GenerateMCQ(maxRetries: int, gateway: Gateway, start: nat): (g: Attempted<MCQQuestion, GenError>)
    ensures g.calls <= Budget(maxRetries)
    ensures g.result.Success? ==>
              && ValidMCQ(g.result.value)
              && 1 <= g.calls
              && ParseMCQ(gateway(start + g.calls - 1)) == Some(g.result.value)
              && NoneParsed(ParseMCQ, gateway, start, start + g.calls - 1)
    ensures g.result.Failure? ==> g.result.error.MCQGenerationFailed?
    ensures g.result.Failure? && g.result.error.cause == InvalidStructure ==>
              && 1 <= g.calls
              && ParseMCQ(gateway(start + g.calls - 1)).Some?
              && !ValidMCQ(ParseMCQ(gateway(start + g.calls - 1)).value)
              && NoneParsed(ParseMCQ, gateway, start, start + g.calls - 1)
    ensures g.result.Failure? && g.result.error.cause.RetryFailed? ==>
              && g.calls == Budget(maxRetries)
              && NoneParsed(ParseMCQ, gateway, start, start + g.calls)
  {
    var a := Retry(ParseMCQ, maxRetries, gateway, start);
    RetryFacts(ParseMCQ, maxRetries, gateway, start);
    match a.result
    case Failure(e) => Attempted(Failure(MCQGenerationFailed(RetryFailed(e))), a.calls)
    case Success(q) =>
      if |q.options| != 4 || q.correctAnswer !in q.options then
        Attempted(Failure(MCQGenerationFailed(InvalidStructure)), a.calls)
      else Attempted(Success(q), a.calls)
  }

  /** `generate_fill_blank`: retry, then the `"___"` check, which is not
      retried. Only a question containing the blank marker is returned. */
  function GenerateFillBlank(maxRetries: int, gateway: Gateway, start: nat): (g: Attempted<FillBlankQuestion, GenError>)
    ensures g.calls <= Budget(maxRetries)
    ensures g.result.Success? ==>
              && ValidFill(g.result.value)
              && 1 <= g.calls
              && ParseFill(gateway(start + g.calls - 1)) == Some(g.result.value)
              && NoneParsed(ParseFill, gateway, start, start + g.calls - 1)
    ensures g.result.Failure? ==> g.result.error.FillGenerationFailed?
    ensures g.result.Failure? && g.result.error.cause == InvalidStructure ==>
              && 1 <= g.calls
              && ParseFill(gateway(start + g.calls - 1)).Some?
              && !ValidFill(ParseFill(gateway(start + g.calls - 1)).value)
              && NoneParsed(ParseFill, gateway, start, start + g.calls - 1)
    ensures g.result.Failure? && g.result.error.cause.RetryFailed? ==>
              && g.calls == Budget(maxRetries)
              && NoneParsed(ParseFill, gateway, start, start + g.calls)
  {
    var a := Retry(ParseFill, maxRetries, gateway, start);
    RetryFacts(ParseFill, maxRetries, gateway, start);
    match a.result
    case Failure(e) => Attempted(Failure(FillGenerationFailed(RetryFailed(e))), a.calls)
    case Success(q) =>
      if !Contains(q.question, "___") then
        Attempted(Failure(FillGenerationFailed(InvalidStructure)), a.calls)
      else Attempted(Success(q), a.calls)
  }

  /** A parseable but structurally invalid first reply ends `generate_mcq`
      after that one call, whatever the gateway would have answered next. */
  lemma StructuralFailureNotRetried(maxRetries: int, gateway: Gateway, start: nat)
    requires maxRetries >= 1
    requires ParseMCQ(gateway(start)).Some? && !ValidMCQ(ParseMCQ(gateway(start)).value)
    ensures GenerateMCQ(maxRetries, gateway, start) == Attempted(Failure(MCQGenerationFailed(InvalidStructure)), 1)
  {
    var a := Retry(ParseMCQ, maxRetries, gateway, start);
    assert a.calls == 1;
  }
}
