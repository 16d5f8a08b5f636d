/** The retry policy of the inference server's model call
    (hf_inference_server.py, call_gemini_api): up to `retries` attempts,
    sleeping `delay` after each failed request but the last and doubling
    the delay each time. */
module Gemini {

  const DefaultRetries: int := 5
  const DefaultDelay: int := 1

  const Unexpected := "Gemini API se unexpected response mila."
  const MaxRetriesPrefix := "Gemini API ko call karne mein maximum retries fail ho gaye: "
  const GeneralErrorPrefix := "Gemini API ko call karte hue ek anjaani galti ho gayi: "
  const Exhausted := "Gemini API call attempts exhausted."

  /** How one attempt ends: a body with the candidates/content/parts
      structure (carrying the first part's text), a body without it, a
      request exception (network error, HTTP error status), or any other
      exception; exceptions carry their message. */
  datatype Attempt =
    | Structured(text: string)
    | Malformed
    | RequestFailed(error: string)
    | OtherFailure(error: string)

  /** The returned `(text, status)` and the sleeps requested on the way. */
  datatype Outcome = Outcome(text: string, status: int, sleeps: seq<int>)

  /** The loop from attempt i on, with the current delay; `attempts[k]` is
      how attempt k ends. */
  function Retry(attempts: seq<Attempt>, retries: int, i: nat, delay: int): (o: Outcome)
    requires retries <= |attempts|
    ensures o.status == 200 || o.status == 500
    ensures |o.sleeps| < retries - i || (i >= retries && o.sleeps == [])
    decreases |attempts| - i
  {
    if i >= retries then Outcome(Exhausted, 500, [])
    else
      match attempts[i]
      case Structured(text) => Outcome(text, 200, [])
      case Malformed => Outcome(Unexpected, 500, [])
      case OtherFailure(e) => Outcome(GeneralErrorPrefix + e, 500, [])
      case RequestFailed(e) =>
        if i < retries - 1 then
          var rest := Retry(attempts, retries, i + 1, delay * 2);
          Outcome(rest.text, rest.status, [delay] + rest.sleeps)
        else Outcome(MaxRetriesPrefix + e, 500, [])
  }

  /** call_gemini_api with the outcome of each attempt given in advance. */
  function CallGeminiSpec(attempts: seq<Attempt>, retries: int, delay: int): Outcome
    requires retries <= |attempts|
  {
    Retry(attempts, retries, 0, delay)
  }

  /** The call answers 200 or 500, sleeps fewer times than it may attempt,
      and without a positive retry budget gives up at once. */
  lemma CallGeminiBounds(attempts: seq<Attempt>, retries: int, delay: int)
    requires retries <= |attempts|
    ensures var o := CallGeminiSpec(attempts, retries, delay);
            && (o.status == 200 || o.status == 500)
            && (retries <= 0 ==> o == Outcome(Exhausted, 500, []))
            && (retries > 0 ==> |o.sleeps| < retries)
  {
  }

  function Pow2(k: nat): (p: nat)
    ensures p >= 1
  {
    if k == 0 then 1 else 2 * Pow2(k - 1)
  }

  /** The k-th sleep is the initial delay doubled k times. */
  lemma {:induction false} SleepsDouble(attempts: seq<Attempt>, retries: int, i: nat, delay: int)
    requires retries <= |attempts|
    ensures var s := Retry(attempts, retries, i, delay).sleeps;
            forall k :: 0 <= k < |s| ==> s[k] == delay * Pow2(k)
    decreases |attempts| - i
  {
    if i < retries && attempts[i].RequestFailed? && i < retries - 1 {
      SleepsDouble(attempts, retries, i + 1, delay * 2);
      var s := Retry(attempts, retries, i, delay).sleeps;
      var t := Retry(attempts, retries, i + 1, delay * 2).sleeps;
      assert s == [delay] + t;
      forall k | 0 < k < |s|
        ensures s[k] == delay * Pow2(k)
      {
        assert s[k] == t[k - 1] == delay * 2 * Pow2(k - 1);
      }
    }
  }

  /** With the defaults and every request failing, the server sleeps 1, 2, 4
      and 8 seconds and gives up after the fifth attempt without sleeping. */
  lemma DefaultBackoff(e: string, attempts: seq<Attempt>)
    requires |attempts| == 5 && forall k :: 0 <= k < 5 ==> attempts[k] == RequestFailed(e)
    ensures CallGeminiSpec(attempts, DefaultRetries, DefaultDelay) == Outcome(MaxRetriesPrefix + e, 500, [1, 2, 4, 8])
  {
    assert Retry(attempts, 5, 4, 16) == Outcome(MaxRetriesPrefix + e, 500, []);
    assert Retry(attempts, 5, 3, 8) == Outcome(MaxRetriesPrefix + e, 500, [8]);
    assert Retry(attempts, 5, 2, 4) == Outcome(MaxRetriesPrefix + e, 500, [4, 8]);
    assert Retry(attempts, 5, 1, 2) == Outcome(MaxRetriesPrefix + e, 500, [2, 4, 8]);
  }

  /** The call succeeds iff some attempt within the budget returns the
      expected structure and every attempt before it failed as a request;
      the text returned is that of the first such attempt. */
  lemma {:induction false} SuccessIff(attempts: seq<Attempt>, retries: int, i: nat, delay: int)
    requires retries <= |attempts|
    ensures Retry(attempts, retries, i, delay).status == 200 <==>
              exists k :: i <= k < retries && attempts[k].Structured?
                          && forall j :: i <= j < k ==> attempts[j].RequestFailed?
    ensures Retry(attempts, retries, i, delay).status == 200 ==>
              exists k :: i <= k < retries && attempts[k] == Structured(Retry(attempts, retries, i, delay).text)
                          && forall j :: i <= j < k ==> attempts[j].RequestFailed?
    decreases |attempts| - i
  {
    if i < retries && attempts[i].RequestFailed? && i < retries - 1 {
      SuccessIff(attempts, retries, i + 1, delay * 2);
      if Retry(attempts, retries, i, delay).status != 200 {
        forall k | i <= k < retries && attempts[k].Structured?
          ensures exists j :: i <= j < k && !attempts[j].RequestFailed?
        {
          assert k != i;
          var j :| i + 1 <= j < k && !attempts[j].RequestFailed?;
        }
      }
    } else if i < retries && !attempts[i].RequestFailed? {
      if !attempts[i].Structured? {
        forall k | i <= k < retries && attempts[k].Structured?
          ensures exists j :: i <= j < k && !attempts[j].RequestFailed?
        {
          assert !attempts[i].RequestFailed?;
        }
      }
    }
  }

  /** A malformed body or an exception that is not a request failure ends
      the call on that attempt: status 500 and no sleep. */
  lemma NoRetryOnOtherErrors(attempts: seq<Attempt>, retries: int, delay: int)
    requires 1 <= retries <= |attempts|
    requires attempts[0].Malformed? || attempts[0].OtherFailure?
    ensures CallGeminiSpec(attempts, retries, delay).status == 500
    ensures CallGeminiSpec(attempts, retries, delay).sleeps == []
  {
  }

  /** One attempt of the loop, inside the budget. */
  lemma RetryStep(attempts: seq<Attempt>, retries: int, i: nat, delay: int)
    requires i < retries <= |attempts|
    ensures var o := Retry(attempts, retries, i, delay);
            match attempts[i]
            case Structured(t) => o == Outcome(t, 200, [])
            case Malformed => o == Outcome(Unexpected, 500, [])
            case OtherFailure(e) => o == Outcome(GeneralErrorPrefix + e, 500, [])
            case RequestFailed(e) =>
              if i < retries - 1 then
                var rest := Retry(attempts, retries, i + 1, delay * 2);
                o == Outcome(rest.text, rest.status, [delay] + rest.sleeps)
              else o == Outcome(MaxRetriesPrefix + e, 500, [])
  {
  }

  /** call_gemini_api: the for loop over the attempts. */
  method CallGemini(attempts: seq<Attempt>, retries: int, delay0: int) returns (text: string, status: int, sleeps: seq<int>)
    requires retries <= |attempts|
    ensures Outcome(text, status, sleeps) == CallGeminiSpec(attempts, retries, delay0)
  {
    var delay := delay0;
    sleeps := [];
    var i := 0;
    while i < retries
      invariant 0 <= i && (i <= retries || i == 0)
      invariant delay == delay0 * Pow2(i)
      invariant var rest := Retry(attempts, retries, i, delay);
                CallGeminiSpec(attempts, retries, delay0) == Outcome(rest.text, rest.status, sleeps + rest.sleeps)
      decreases retries - i
    {
      RetryStep(attempts, retries, i, delay);
      match attempts[i]
      case Structured(t) =>
        return t, 200, sleeps;
      case Malformed =>
        return Unexpected, 500, sleeps;
      case OtherFailure(e) =>
        return GeneralErrorPrefix + e, 500, sleeps;
      case RequestFailed(e) =>
        if i < retries - 1 {
          sleeps := sleeps + [delay];
          delay := delay * 2;
        } else {
          return MaxRetriesPrefix + e, 500, sleeps;
        }
      i := i + 1;
    }
    return Exhausted, 500, sleeps;
  }
}
