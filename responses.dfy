/**
 * What one network attempt yields and how the chain of attempts ends:
 * reading the body, classifying the status, normalising failures and the
 * bounded retry.
 */
module Responses {
  import opened Wrappers
  import opened JsValues
  import opened Errors

  const RequestFailed := "Request failed"

  /**
   * The outcome of one network attempt: a response with its status, its
   * content-type header, its text and what parsing that text as JSON
   * yields; or a failure of the transport (unreachable, aborted by the
   * timeout) carrying what it threw.
   */
  datatype Attempt =
    | Responded(status: int, contentType: Option<string>, text: string, json: Result<Value, Thrown>)
    | Failed(cause: Thrown)

  /** How a dispatch settles: with a value, or with the error it rejects with. */
  datatype Settlement = Resolved(value: Value) | Rejected(error: Thrown)

  /** Which attempt ended a chain of attempts, and how. */
  datatype Conclusion = Conclusion(last: nat, settlement: Settlement)

  /** `s.includes(part)`, scanning for `part` from each position of `s` in turn. */
  predicate Includes(s: string, part: string)
    decreases |s|
  {
    (|part| <= |s| && s[..|part|] == part) || (|s| > 0 && Includes(s[1..], part))
  }

  /** `part` occurs in `s` as a contiguous slice. */
  ghost predicate OccursIn(part: string, s: string)
  {
    exists i, j :: 0 <= i <= j <= |s| && j - i == |part| && s[i..j] == part
  }

  /** What the scan finds occurs in `s`. */
  lemma {:induction false} IncludesOccurs(s: string, part: string)
    requires Includes(s, part)
    ensures OccursIn(part, s)
    decreases |s|
  {
    if |part| <= |s| && s[..|part|] == part {
      assert s[0..|part|] == part;
    } else {
      IncludesOccurs(s[1..], part);
      var i, j :| 0 <= i <= j <= |s| - 1 && j - i == |part| && s[1..][i..j] == part;
      assert s[i + 1..j + 1] == part;
    }
  }

  /** An occurrence at position `i` is found by the scan. */
  lemma {:induction false} OccurrenceFound(s: string, part: string, i: nat)
    requires i + |part| <= |s| && s[i..i + |part|] == part
    ensures Includes(s, part)
    decreases i
  {
    if i > 0 {
      assert s[1..][i - 1..i - 1 + |part|] == part;
      OccurrenceFound(s[1..], part, i - 1);
    } else {
      assert s[..|part|] == part;
    }
  }

  /** The scan finds `part` exactly when it occurs somewhere in `s`. */
  lemma IncludesMeansOccurs(s: string, part: string)
    ensures Includes(s, part) <==> OccursIn(part, s)
  {
    if Includes(s, part) {
      IncludesOccurs(s, part);
    }
    if OccursIn(part, s) {
      var i, j :| 0 <= i <= j <= |s| && j - i == |part| && s[i..j] == part;
      OccurrenceFound(s, part, i);
    }
  }

  /**
   * A response is read as JSON when its content type is present and
   * mentions application/json. The code also requires the header to be a
   * truthy string, which an empty string is not; an empty string contains
   * no "application/json", so the scan alone decides.
   */
  predicate IsJson(contentType: Option<string>)
  {
    contentType.Some? && Includes(contentType.value, "application/json")
  }

  /** The "ok status" range of the WHATWG Fetch Standard (section 2.2.3). */
  predicate OkStatus(status: int)
  {
    200 <= status <= 299
  }

  /**
   * The body: the JSON parse when "application/json" occurs in the
   * content-type header, and otherwise the response text, which always
   * reads successfully.
   */
  function ReadBody(a: Attempt): (r: Result<Value, Thrown>)
    requires a.Responded?
    ensures a.contentType.Some? && OccursIn("application/json", a.contentType.value) ==> r == a.json
    ensures (a.contentType.None? || !OccursIn("application/json", a.contentType.value)) ==>
      r == Success(Str(a.text))
  {
    if a.contentType.None? then Success(Str(a.text))
    else
      IncludesMeansOccurs(a.contentType.value, "application/json");
      if IsJson(a.contentType) then a.json else Success(Str(a.text))
  }

  /**
   * The success handler of one attempt: a response is read first; an ok
   * status yields the body; any other status throws the normalised HTTP
   * error. A failure of the transport or of the parser passes through.
   */
  function Classify(a: Attempt): (r: Result<Value, Thrown>)
    ensures r.Success? <==> a.Responded? && OkStatus(a.status) && ReadBody(a).Success?
    ensures r.Success? ==> r.value == ReadBody(a).value
    ensures a.Failed? ==> r == Failure(a.cause)
    ensures a.Responded? && ReadBody(a).Failure? ==> r == Failure(ReadBody(a).error)
    ensures a.Responded? && !OkStatus(a.status) && ReadBody(a).Success? ==>
      var data := ReadBody(a).value;
      && r.Failure? && r.error.Normalized?
      && r.error.status == Num(a.status)
      && Truthy(r.error.message)
      && (Truthy(MessageOf(data)) ==> r.error.message == MessageOf(data))
      && (!Truthy(MessageOf(data)) ==> r.error.message == Str(RequestFailed))
      && r.error.data == (if Truthy(data) then data else Null)
  {
    match a
    case Failed(cause) => Failure(cause)
    case Responded(status, _, _, _) =>
      match ReadBody(a)
      case Failure(e) => Failure(e)
      case Success(data) =>
        if !OkStatus(status) then
          Failure(Normalize(Raised(Num(status), Or(MessageOf(data), Str(RequestFailed)), data)))
        else Success(data)
  }

  /**
   * The attempt chain from attempt number `attempt` on, given the outcome
   * the transport produces for each attempt number: a failed attempt is
   * retried while its number is below `retries`; the chain ends with the
   * first success, or with the normalised failure of the last attempt.
   */
  function Conclude(transport: nat -> Attempt, retries: int, attempt: nat): (c: Conclusion)
    ensures attempt <= c.last
    ensures c.last == attempt || c.last <= retries
    ensures forall i :: attempt <= i < c.last ==> Classify(transport(i)).Failure?
    ensures Classify(transport(c.last)).Success? ==>
      c.settlement == Resolved(Classify(transport(c.last)).value)
    ensures Classify(transport(c.last)).Failure? ==>
      c.last >= retries && c.settlement == Rejected(Normalize(Classify(transport(c.last)).error))
    decreases if attempt < retries then retries - attempt else 0
  {
    match Classify(transport(attempt))
    case Success(v) => Conclusion(attempt, Resolved(v))
    case Failure(e) =>
      if attempt < retries then Conclude(transport, retries, attempt + 1)
      else Conclusion(attempt, Rejected(Normalize(e)))
  }

  /**
   * When every attempt fails, exactly max(retries, 0) + 1 attempts are
   * made, and the dispatch rejects with the normalised failure of the last.
   */
  lemma AllAttemptsFail(transport: nat -> Attempt, retries: int)
    requires forall i :: Classify(transport(i)).Failure?
    ensures var c := Conclude(transport, retries, 0);
      && c.last + 1 == (if retries > 0 then retries else 0) + 1
      && c.settlement == Rejected(Normalize(Classify(transport(c.last)).error))
  {
  }

  /** An attempt that succeeds within the budget ends the chain with its body, after all earlier ones failed. */
  lemma FirstSuccessWins(transport: nat -> Attempt, retries: int, attempt: nat, k: nat)
    requires attempt <= k && (k == attempt || k <= retries)
    requires forall i :: attempt <= i < k ==> Classify(transport(i)).Failure?
    requires Classify(transport(k)).Success?
    ensures Conclude(transport, retries, attempt) == Conclusion(k, Resolved(Classify(transport(k)).value))
  {
  }

  /**
   * An error status on the last attempt surfaces with that status, the
   * body's message or "Request failed", and the body (null when falsy):
   * the second normalisation in the failure handler changes none of them.
   */
  lemma RejectedResponse(a: Attempt)
    requires a.Responded? && !OkStatus(a.status) && ReadBody(a).Success?
    ensures var data, e := ReadBody(a).value, Normalize(Classify(a).error);
      && e.status == Num(a.status)
      && e.message == Or(MessageOf(data), Str(RequestFailed))
      && e.data == Or(data, Null)
      && e.raw == Classify(a).error
  {
  }
}
