/** The bounded retry loops around the language model (src/lib/anthropic.ts). */
module Providers {
  import opened Wrappers

  const MAX_RETRIES: nat := 3

  /** Which provider path the environment selects. */
  datatype Config = Config(hasApiKey: bool, allowMock: bool)

  /** What one use of the provider came to: an answer or a final error, and the calls it cost. */
  datatype Outcome<+T> = Outcome(result: Option<T>, calls: nat)

  /** The model's answer to each numbered attempt; None is a failed call or an unparsable reply. */
  type Answers<!T> = nat -> Option<T>

  function Try<T>(answers: Answers<T>, attempt: nat): (o: Outcome<T>)
    requires 1 <= attempt <= MAX_RETRIES + 1
    decreases MAX_RETRIES + 1 - attempt
  {
    if attempt > MAX_RETRIES then Outcome(None, attempt - 1)
    else if answers(attempt).Some? then Outcome(answers(attempt), attempt)
    else Try(answers, attempt + 1)
  }

  function Ask<T>(config: Config, mock: T, answers: Answers<T>): Outcome<T> {
    if !config.hasApiKey then Outcome(if config.allowMock then Some(mock) else None, 0)
    else Try(answers, 1)
  }

  /** The loop itself. No call follows a success, and giving up means all three calls failed. */
  method AskWithRetries<T>(config: Config, mock: T, answers: Answers<T>) returns (outcome: Outcome<T>)
    ensures outcome == Ask(config, mock, answers)
    ensures outcome.calls <= 3
    ensures config.hasApiKey && outcome.result.Some? ==> outcome.calls >= 1 && answers(outcome.calls) == outcome.result
    ensures forall k :: 1 <= k < outcome.calls ==> answers(k) == None
    ensures config.hasApiKey && outcome.result.None? ==> outcome.calls == 3 && answers(3) == None
    ensures !config.hasApiKey ==> outcome.calls == 0 && outcome.result == if config.allowMock then Some(mock) else None
  {
    if !config.hasApiKey && config.allowMock {
      return Outcome(Some(mock), 0);
    }
    if !config.hasApiKey {
      return Outcome(None, 0);
    }
    var attempt := 1;
    while attempt <= MAX_RETRIES
      invariant 1 <= attempt <= MAX_RETRIES + 1
      invariant forall k :: 1 <= k < attempt ==> answers(k) == None
      invariant Try(answers, 1) == Try(answers, attempt)
    {
      var reply := answers(attempt);
      if reply.Some? {
        return Outcome(reply, attempt);
      }
      attempt := attempt + 1;
    }
    return Outcome(None, MAX_RETRIES);
  }

  lemma {:induction false} TryBounded<T>(answers: Answers<T>, attempt: nat)
    requires 1 <= attempt <= MAX_RETRIES + 1
    ensures Try(answers, attempt).calls <= MAX_RETRIES
    decreases MAX_RETRIES + 1 - attempt
  {
    if attempt <= MAX_RETRIES {
      TryBounded(answers, attempt + 1);
    }
  }

  lemma AskBounded<T>(config: Config, mock: T, answers: Answers<T>)
    ensures Ask(config, mock, answers).calls <= MAX_RETRIES
  {
    TryBounded(answers, 1);
  }

  /** The first of at most three answers is the result, and it costs as many calls as it took; without a key
      nothing is asked. */
  lemma AskMeans<T>(config: Config, mock: T, answers: Answers<T>)
    ensures var o := Ask(config, mock, answers);
      if !config.hasApiKey then o == Outcome(if config.allowMock then Some(mock) else None, 0)
      else if answers(1).Some? then o == Outcome(answers(1), 1)
      else if answers(2).Some? then o == Outcome(answers(2), 2)
      else o == Outcome(answers(3), 3)
  {
    assert Try(answers, 1) == if answers(1).Some? then Outcome(answers(1), 1) else Try(answers, 2);
    assert Try(answers, 2) == if answers(2).Some? then Outcome(answers(2), 2) else Try(answers, 3);
    assert Try(answers, 3) == if answers(3).Some? then Outcome(answers(3), 3) else Try(answers, 4);
  }
}
