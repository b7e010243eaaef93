/**
 * The status-polling loop of `SunoClient._poll_generation`.
 *
 * The loop asks the provider for the status of one generation at most
 * `MaxAttempts` times. The provider's answer to poll number i (counting from 0)
 * is `responses[i]`; the five-second sleep between polls does not influence
 * the outcome and is not modelled. The loop's return value and its three
 * exceptions become the four constructors of `PollOutcome`, each of which
 * also records how many polls were made. A poll whose request itself fails
 * (`session.get` raising a connection or timeout error) ends the loop as
 * well: the exception propagates out of the loop unchanged.
 */
module Polling {
  import opened Wrappers

  /** `max_attempts` in the source. */
  const MaxAttempts: nat := 60

  /** The only HTTP status the loop accepts. */
  const HttpOk: int := 200

  const StatusCompleted: string := "completed"
  const StatusFailed: string := "failed"

  /** The JSON body of a status poll, reduced to the fields the loop reads. */
  datatype Record = Record(id: string, status: Option<string>, error: Option<string>)

  /**
   * What one poll gets: an answer with its HTTP status, raw text (used in the
   * error message of a non-200 answer) and decoded JSON body, or no answer at
   * all because the request failed.
   */
  datatype Response =
    | Answer(httpStatus: int, text: string, data: Record)
    | NoAnswer

  datatype PollOutcome =
    | Completed(record: Record, pollsUsed: nat)                // `return data`
    | HttpError(httpStatus: int, text: string, pollsUsed: nat)  // "Failed to get generation status"
    | GenFailed(reason: Option<string>, pollsUsed: nat)         // "Generation failed: ..."
    | NetworkError(pollsUsed: nat)                              // session.get raised
    | Timeout                                                   // "Generation timed out"
  {
    /** Number of polls made before the loop stopped. */
    function Polls(): nat {
      if Timeout? then MaxAttempts else pollsUsed
    }
  }

  /** An answer after which the loop sleeps and polls again. */
  predicate Pending(r: Response) {
    r.Answer?
    && r.httpStatus == HttpOk
    && r.data.status != Some(StatusCompleted)
    && r.data.status != Some(StatusFailed)
  }

  /** How the loop ends when poll number `n` (counting from 1) gets the non-pending answer `r`. */
  function Verdict(r: Response, n: nat): (o: PollOutcome)
    requires !Pending(r)
    ensures !o.Timeout? && o.pollsUsed == n
    ensures o.NetworkError? <==> r.NoAnswer?
    ensures o.HttpError? <==> r.Answer? && r.httpStatus != HttpOk
    ensures o.Completed? ==> r.Answer? && o.record == r.data
  {
    if r.NoAnswer? then NetworkError(n)
    else if r.httpStatus != HttpOk then HttpError(r.httpStatus, r.text, n)
    else if r.data.status == Some(StatusCompleted) then Completed(r.data, n)
    else GenFailed(r.data.error, n)
  }

  /**
   * Reference definition of the loop from attempt `attempt` on: the first
   * non-pending answer decides, and 60 pending answers time out.
   */
  function PollFrom(responses: seq<Response>, attempt: nat): (o: PollOutcome)
    requires attempt <= MaxAttempts <= |responses|
    ensures o.Polls() <= MaxAttempts
    ensures attempt < MaxAttempts ==> attempt < o.Polls()
    decreases MaxAttempts - attempt
  {
    if attempt == MaxAttempts then Timeout
    else if Pending(responses[attempt]) then PollFrom(responses, attempt + 1)
    else Verdict(responses[attempt], attempt + 1)
  }

  function Poll(responses: seq<Response>): PollOutcome
    requires MaxAttempts <= |responses|
  {
    PollFrom(responses, 0)
  }

  /** The loop as the source writes it: early returns and raises inside `for attempt in range(60)`. */
  method PollGeneration(responses: seq<Response>) returns (outcome: PollOutcome)
    requires MaxAttempts <= |responses|
    ensures outcome == Poll(responses)
  {
    for attempt := 0 to MaxAttempts
      invariant PollFrom(responses, attempt) == Poll(responses)
    {
      var response := responses[attempt];
      if response.NoAnswer? {
        return NetworkError(attempt + 1);
      }
      if response.httpStatus != HttpOk {
        return HttpError(response.httpStatus, response.text, attempt + 1);
      }
      var status := response.data.status;
      if status == Some(StatusCompleted) {
        return Completed(response.data, attempt + 1);
      } else if status == Some(StatusFailed) {
        return GenFailed(response.data.error, attempt + 1);
      }
    }
    return Timeout;
  }

  /**
   * The outcome from `attempt` on is a timeout exactly when every remaining
   * answer is pending; otherwise it is decided by the first non-pending answer.
   */
  lemma {:induction false} PollFromCharacterized(responses: seq<Response>, attempt: nat)
    requires attempt <= MaxAttempts <= |responses|
    ensures PollFrom(responses, attempt).Timeout?
            <==> forall i :: attempt <= i < MaxAttempts ==> Pending(responses[i])
    ensures !PollFrom(responses, attempt).Timeout? ==>
              var n := PollFrom(responses, attempt).pollsUsed;
              && attempt < n <= MaxAttempts
              && !Pending(responses[n - 1])
              && PollFrom(responses, attempt) == Verdict(responses[n - 1], n)
              && forall i :: attempt <= i < n - 1 ==> Pending(responses[i])
    decreases MaxAttempts - attempt
  {
    if attempt < MaxAttempts {
      PollFromCharacterized(responses, attempt + 1);
    }
  }

  /** Completion is returned after exactly n polls iff answer n is the first non-pending one and says "completed". */
  lemma PollCompleted(responses: seq<Response>, record: Record, n: nat)
    requires MaxAttempts <= |responses|
    ensures Poll(responses) == Completed(record, n)
            <==> && 1 <= n <= MaxAttempts
                 && responses[n - 1].Answer?
                 && responses[n - 1].httpStatus == HttpOk
                 && responses[n - 1].data.status == Some(StatusCompleted)
                 && record == responses[n - 1].data
                 && forall i :: 0 <= i < n - 1 ==> Pending(responses[i])
  {
    PollFromCharacterized(responses, 0);
  }

  /** A "failed" status ends the loop at once, with no further poll. */
  lemma PollFailed(responses: seq<Response>, reason: Option<string>, n: nat)
    requires MaxAttempts <= |responses|
    ensures Poll(responses) == GenFailed(reason, n)
            <==> && 1 <= n <= MaxAttempts
                 && responses[n - 1].Answer?
                 && responses[n - 1].httpStatus == HttpOk
                 && responses[n - 1].data.status == Some(StatusFailed)
                 && reason == responses[n - 1].data.error
                 && forall i :: 0 <= i < n - 1 ==> Pending(responses[i])
  {
    PollFromCharacterized(responses, 0);
  }

  /** Any non-200 answer ends the loop at once: HTTP errors are never retried. */
  lemma PollHttpError(responses: seq<Response>, status: int, text: string, n: nat)
    requires MaxAttempts <= |responses|
    ensures Poll(responses) == HttpError(status, text, n)
            <==> && 1 <= n <= MaxAttempts
                 && responses[n - 1].Answer?
                 && responses[n - 1].httpStatus == status != HttpOk
                 && responses[n - 1].text == text
                 && forall i :: 0 <= i < n - 1 ==> Pending(responses[i])
  {
    PollFromCharacterized(responses, 0);
  }

  /** A failed request ends the loop at once: connection errors are not retried either. */
  lemma PollNetworkError(responses: seq<Response>, n: nat)
    requires MaxAttempts <= |responses|
    ensures Poll(responses) == NetworkError(n)
            <==> && 1 <= n <= MaxAttempts
                 && responses[n - 1].NoAnswer?
                 && forall i :: 0 <= i < n - 1 ==> Pending(responses[i])
  {
    PollFromCharacterized(responses, 0);
  }

  /** The loop times out exactly when all 60 answers are 200 and neither terminal status. */
  lemma PollTimeout(responses: seq<Response>)
    requires MaxAttempts <= |responses|
    ensures Poll(responses).Timeout? <==> forall i :: 0 <= i < MaxAttempts ==> Pending(responses[i])
  {
    PollFromCharacterized(responses, 0);
  }

  /**
   * Answers after the last poll made do not matter: two providers that agree
   * on the answers the loop read give the same outcome.
   */
  lemma {:induction false} PollFromReadsOnlyPolled(responses: seq<Response>, other: seq<Response>, attempt: nat)
    requires attempt <= MaxAttempts <= |responses| && MaxAttempts <= |other|
    requires forall i :: attempt <= i < PollFrom(responses, attempt).Polls() ==> other[i] == responses[i]
    ensures PollFrom(other, attempt) == PollFrom(responses, attempt)
    decreases MaxAttempts - attempt
  {
    if attempt < MaxAttempts && Pending(responses[attempt]) {
      PollFromReadsOnlyPolled(responses, other, attempt + 1);
    }
  }

  lemma PollReadsOnlyPolled(responses: seq<Response>, other: seq<Response>)
    requires MaxAttempts <= |responses| && MaxAttempts <= |other|
    requires other[..Poll(responses).Polls()] == responses[..Poll(responses).Polls()]
    ensures Poll(other) == Poll(responses)
  {
    var k := Poll(responses).Polls();
    forall i | 0 <= i < k ensures other[i] == responses[i] {
      assert other[..k][i] == responses[..k][i];
    }
    PollFromReadsOnlyPolled(responses, other, 0);
  }
}
