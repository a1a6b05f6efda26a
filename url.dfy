/** The endpoints the client names. The concrete URL strings, built per domain by
    UrlClass, are not part of this model: a target is the endpoint's name, optionally
    followed by an id, or a URL the caller gives verbatim. */
module Url {

  datatype Endpoint =
    | UserSettings
    | UserProfile
    | Activities
    | Activity
    | StatActivities
    | DownloadTcx
    | DownloadGpx
    | DownloadKml
    | DownloadZip
    | Workouts
    | Workout

  datatype Target =
    | Named(endpoint: Endpoint)
    | WithId(endpoint: Endpoint, id: string)
    | Raw(url: string)

  predicate IsDigit(c: char) {
    '0' <= c <= '9'
  }

  predicate AllDigits(s: string) {
    forall i :: 0 <= i < |s| ==> IsDigit(s[i])
  }

  function DigitChar(d: nat): (c: char)
    requires d < 10
    ensures IsDigit(c) && c as int - '0' as int == d
  {
    ('0' as int + d) as char
  }

  /** The text JavaScript produces when a non-negative integer id is appended to a
      string (`url + activityId`): its decimal digits, without leading zeros. This
      holds for ids below 2^53, the integers a JavaScript number holds exactly; larger
      ones lose precision or print in exponent form, and are not modelled. */
  function DecimalString(n: nat): (s: string)
    ensures |s| >= 1 && AllDigits(s)
    ensures n > 0 ==> s[0] != '0'
    ensures s == "0" <==> n == 0
    decreases n
  {
    if n < 10 then [DigitChar(n)] else DecimalString(n / 10) + [DigitChar(n % 10)]
  }

  /** The number a string of decimal digits denotes. */
  function DecimalValue(s: string): nat
    requires AllDigits(s)
    decreases |s|
  {
    if s == [] then 0 else DecimalValue(s[..|s| - 1]) * 10 + (s[|s| - 1] as int - '0' as int)
  }

  /** Reading the appended id back yields the id. */
  lemma {:induction false} DecimalRoundTrip(n: nat)
    ensures DecimalValue(DecimalString(n)) == n
    decreases n
  {
    if n >= 10 {
      var s := DecimalString(n);
      assert s[..|s| - 1] == DecimalString(n / 10);
      DecimalRoundTrip(n / 10);
    }
  }

  /** Distinct ids give distinct URL suffixes, so a request names exactly one activity. */
  lemma {:induction false} DecimalStringInjective(m: nat, n: nat)
    ensures DecimalString(m) == DecimalString(n) ==> m == n
  {
    DecimalRoundTrip(m);
    DecimalRoundTrip(n);
  }
}
