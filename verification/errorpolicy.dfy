/**
 * The pure part of the application's error handler: checking the search
 * form, classifying an error by its message, the message shown to the user,
 * and whether and how long to wait before a retry.
 */
module ErrorPolicy {
  import opened Text

  // ---------------------------------------------------------------------
  // Input validation

  /** The outcome of checking the search form: a flag and a message. */
  datatype Verdict = Verdict(ok: bool, message: string)

  const MissingFields := "Please fill in all required fields."
  const NotNumbers := "Case number and filing year must be valid numbers."
  const NotPositive := "Case number must be a positive number."
  const BadYear := "Please enter a valid filing year (1990-2030)."
  const ValidInputs := "Valid inputs"

  const MinYear := 1990
  const MaxYear := 2030

  predicate AllDigits(s: string) {
    forall i :: 0 <= i < |s| ==> IsDigit(s[i])
  }

  function DigitValue(c: char): nat
    requires IsDigit(c)
  {
    c as int - '0' as int
  }

  /** The decimal value of a string of digits. */
  function DigitsValue(s: string): nat
    requires AllDigits(s)
    decreases |s|
  {
    if |s| == 0 then 0 else DigitsValue(s[..|s| - 1]) * 10 + DigitValue(s[|s| - 1])
  }

  /** Python's `int(s)` on a string: surrounding whitespace, an optional sign
      and at least one decimal digit; anything else is a ValueError (None). */
  function ParseInt(s: string): (r: Option<int>)
    ensures r.Some? ==> |Strip(s)| > 0
  {
    var t := Strip(s);
    if |t| > 0 && (t[0] == '+' || t[0] == '-') then
      var ds := t[1..];
      if |ds| > 0 && AllDigits(ds) then
        var magnitude: int := DigitsValue(ds);
        Some(if t[0] == '-' then -magnitude else magnitude)
      else None
    else if |t| > 0 && AllDigits(t) then Some(DigitsValue(t))
    else None
  }

  lemma {:induction false} DigitsOfNat(n: nat)
    ensures DigitsValue(NatToString(n)) == n
    decreases n
  {
    var s := NatToString(n);
    var d := n % 10;
    assert DigitChars[d] as int == '0' as int + d by {
      assert d == 0 || d == 1 || d == 2 || d == 3 || d == 4 || d == 5 || d == 6 || d == 7 || d == 8 || d == 9;
    }
    if n >= 10 {
      DigitsOfNat(n / 10);
      assert s[..|s| - 1] == NatToString(n / 10);
    }
  }

  /** `int(str(i)) == i`: every integer written out parses back to itself. */
  lemma ParseIntRoundTrip(i: int)
    ensures ParseInt(IntToString(i)) == Some(i)
  {
    var n: nat := if i < 0 then -i else i;
    var ds := NatToString(n);
    DigitsOfNat(n);
    StripUnpadded(IntToString(i));
    if i < 0 {
      assert IntToString(i)[1..] == ds;
    }
  }

  /** The form check, in the order the handler applies its tests: a missing
      field first, then either number failing to parse (both are parsed
      before any range test), then a non-positive case number, then a year
      outside 1990..2030. */
  function ValidateCaseInputs(caseType: string, caseNumber: string, filingYear: string): (r: Verdict)
    ensures r.ok <==> r.message == ValidInputs
    ensures r.ok <==>
      caseType != "" && ParseInt(caseNumber).Some? && ParseInt(filingYear).Some? &&
      ParseInt(caseNumber).value > 0 && MinYear <= ParseInt(filingYear).value <= MaxYear
    ensures caseType == "" || caseNumber == "" || filingYear == "" ==> r == Verdict(false, MissingFields)
    ensures caseType != "" && caseNumber != "" && filingYear != "" && (ParseInt(caseNumber).None? || ParseInt(filingYear).None?)
      ==> r == Verdict(false, NotNumbers)
    ensures caseType != "" && ParseInt(caseNumber).Some? && ParseInt(filingYear).Some? && ParseInt(caseNumber).value <= 0
      ==> r == Verdict(false, NotPositive)
    ensures caseType != "" && ParseInt(caseNumber).Some? && ParseInt(filingYear).Some? && ParseInt(caseNumber).value > 0
      && (ParseInt(filingYear).value < MinYear || ParseInt(filingYear).value > MaxYear)
      ==> r == Verdict(false, BadYear)
  {
    if caseType == "" || caseNumber == "" || filingYear == "" then Verdict(false, MissingFields)
    else match (ParseInt(caseNumber), ParseInt(filingYear))
      case (Some(number), Some(year)) =>
        if number <= 0 then Verdict(false, NotPositive)
        else if year < MinYear || year > MaxYear then Verdict(false, BadYear)
        else Verdict(true, ValidInputs)
      case _ => Verdict(false, NotNumbers)
  }

  /** Every form with a type, a positive case number and a year in range,
      written as decimal text, is accepted. */
  lemma WrittenInputsAccepted(caseType: string, number: nat, year: nat)
    requires caseType != "" && number > 0 && MinYear <= year <= MaxYear
    ensures ValidateCaseInputs(caseType, NatToString(number), NatToString(year)) == Verdict(true, ValidInputs)
  {
    ParseIntRoundTrip(number);
    ParseIntRoundTrip(year);
  }

  /** The range tests come after parsing: a positive number with a year out
      of range is rejected for the year, a non-positive one for the number
      whatever the year. */
  lemma RangeRejections(caseType: string, number: int, year: int)
    requires caseType != ""
    ensures number <= 0 ==>
      ValidateCaseInputs(caseType, IntToString(number), IntToString(year)) == Verdict(false, NotPositive)
    ensures number > 0 && (year < MinYear || year > MaxYear) ==>
      ValidateCaseInputs(caseType, IntToString(number), IntToString(year)) == Verdict(false, BadYear)
  {
    ParseIntRoundTrip(number);
    ParseIntRoundTrip(year);
  }

  // ---------------------------------------------------------------------
  // Error classification

  datatype ErrorKind = Timeout | Network | DnsError | BrowserError | ElementNotFound | Unknown

  /** The name the handler reports for each kind. */
  function KindName(k: ErrorKind): string {
    match k
    case Timeout => "TIMEOUT"
    case Network => "NETWORK"
    case DnsError => "DNS_ERROR"
    case BrowserError => "BROWSER_ERROR"
    case ElementNotFound => "ELEMENT_NOT_FOUND"
    case Unknown => "UNKNOWN"
  }

  /** The keywords that identify each kind in a lowercased message. */
  function Keywords(k: ErrorKind): seq<string> {
    match k
    case Timeout => ["timeout"]
    case Network => ["connection", "network"]
    case DnsError => ["dns", "name resolution"]
    case BrowserError => ["selenium", "webdriver"]
    case ElementNotFound => ["element not found", "no such element"]
    case Unknown => []
  }

  /** The order in which the kinds are tried. */
  const Precedence: seq<ErrorKind> := [Timeout, Network, DnsError, BrowserError, ElementNotFound]

  /** `classify_error`: the first kind whose keywords occur in the lowercased
      message, else Unknown. */
  function ClassifyError(msg: string): ErrorKind {
    var low := Lower(msg);
    if ContainsAny(low, Keywords(Timeout)) then Timeout
    else if ContainsAny(low, Keywords(Network)) then Network
    else if ContainsAny(low, Keywords(DnsError)) then DnsError
    else if ContainsAny(low, Keywords(BrowserError)) then BrowserError
    else if ContainsAny(low, Keywords(ElementNotFound)) then ElementNotFound
    else Unknown
  }

  /** The first kind of `kinds` whose keywords occur in `low`, else Unknown. */
  function FirstKind(low: string, kinds: seq<ErrorKind>): ErrorKind
    decreases |kinds|
  {
    if |kinds| == 0 then Unknown
    else if ContainsAny(low, Keywords(kinds[0])) then kinds[0]
    else FirstKind(low, kinds[1..])
  }

  /** `FirstKind` returns a listed kind whose keywords occur and whose
      predecessors' keywords do not, or Unknown exactly when no listed
      kind's keywords occur. */
  lemma {:induction false} FirstKindIsFirst(low: string, kinds: seq<ErrorKind>)
    requires Unknown !in kinds
    ensures FirstKind(low, kinds) == Unknown <==> forall i :: 0 <= i < |kinds| ==> !ContainsAny(low, Keywords(kinds[i]))
    ensures FirstKind(low, kinds) != Unknown ==>
      exists i :: 0 <= i < |kinds| && kinds[i] == FirstKind(low, kinds) &&
        ContainsAny(low, Keywords(kinds[i])) && forall j :: 0 <= j < i ==> !ContainsAny(low, Keywords(kinds[j]))
    decreases |kinds|
  {
    if |kinds| > 0 {
      var rest := kinds[1..];
      assert Unknown !in rest;
      FirstKindIsFirst(low, rest);
      if !ContainsAny(low, Keywords(kinds[0])) {
        assert forall i :: 1 <= i < |kinds| ==> kinds[i] == rest[i - 1];
        if FirstKind(low, rest) != Unknown {
          var i :| 0 <= i < |rest| && rest[i] == FirstKind(low, rest) &&
            ContainsAny(low, Keywords(rest[i])) && forall j :: 0 <= j < i ==> !ContainsAny(low, Keywords(rest[j]));
          assert kinds[i + 1] == FirstKind(low, kinds);
        }
      } else {
        assert kinds[0] != Unknown;
      }
    }
  }

  /** The handler's if-chain is the first-match rule over the precedence
      order TIMEOUT, NETWORK, DNS_ERROR, BROWSER_ERROR, ELEMENT_NOT_FOUND. */
  lemma ClassifyIsFirstMatch(msg: string)
    ensures ClassifyError(msg) == FirstKind(Lower(msg), Precedence)
    ensures ClassifyError(msg) == Unknown <==>
      forall i :: 0 <= i < |Precedence| ==> !ContainsAny(Lower(msg), Keywords(Precedence[i]))
  {
    var low := Lower(msg);
    assert Precedence[1..] == [Network, DnsError, BrowserError, ElementNotFound];
    assert Precedence[1..][1..] == [DnsError, BrowserError, ElementNotFound];
    assert Precedence[1..][1..][1..] == [BrowserError, ElementNotFound];
    assert Precedence[1..][1..][1..][1..] == [ElementNotFound];
    FirstKindIsFirst(low, Precedence);
  }

  /** The classification ignores letter case. */
  lemma ClassifyIgnoresCase(msg: string)
    ensures ClassifyError(Lower(msg)) == ClassifyError(msg)
  {
    LowerIdempotent(msg);
  }

  /** A message mentioning a timeout is a timeout whatever else it
      mentions, a connection included ("Connection Timeout"): TIMEOUT is
      tried first. */
  lemma ConnectionTimeoutIsTimeout(msg: string)
    requires Contains(Lower(msg), "timeout")
    ensures ClassifyError(msg) == Timeout
  {
    assert Keywords(Timeout)[0] == "timeout";
    assert Keywords(Timeout)[1..] == [];
  }

  /** `sub` occurs in `s` when it is a prefix of some suffix of `s`. */
  lemma {:induction false} ContainsAt(s: string, sub: string, k: nat)
    requires k <= |s| && IsPrefix(sub, s[k..])
    ensures Contains(s, sub)
    decreases k
  {
    if k > 0 {
      assert s[1..][k - 1..] == s[k..];
      ContainsAt(s[1..], sub, k - 1);
    }
  }

  /** `sub` cannot occur in `s` when one of its characters does not. */
  lemma {:induction false} MissingChar(s: string, sub: string, m: nat)
    requires m < |sub| && sub[m] !in s
    ensures !Contains(s, sub)
    decreases |s|
  {
    if |s| > 0 {
      assert forall j :: 0 <= j < |s[1..]| ==> s[1..][j] == s[j + 1];
      assert !IsPrefix(sub, s) by {
        if m < |s| { assert s[m] != sub[m]; }
      }
      MissingChar(s[1..], sub, m);
    }
  }

  /** `sub` cannot occur in `s` when two of its adjacent characters never
      occur next to each other in `s`. */
  lemma {:induction false} MissingPair(s: string, sub: string, m: nat)
    requires m + 1 < |sub|
    requires forall i :: 0 <= i < |s| - 1 ==> !(s[i] == sub[m] && s[i + 1] == sub[m + 1])
    ensures !Contains(s, sub)
    decreases |s|
  {
    if |s| > 0 {
      assert forall j :: 0 <= j < |s[1..]| ==> s[1..][j] == s[j + 1];
      assert !IsPrefix(sub, s) by {
        if m + 1 < |s| { assert !(s[m] == sub[m] && s[m + 1] == sub[m + 1]); }
      }
      MissingPair(s[1..], sub, m);
    }
  }

  /** The message of the reachability failure raised before scraping starts. */
  const PreflightMessage := "Delhi High Court website is not accessible"
  const PreflightLow := "delhi high court website is not accessible"

  lemma PreflightLowered()
    ensures Lower(PreflightMessage) == PreflightLow
  {
    LowerPointwise(PreflightMessage, PreflightLow);
  }

  /** `low` has none of the letters 'm', 'k', 'v' and neither of the pairs
      "on", "dn": between them these rule out all nine keywords. */
  predicate LacksKeywordMarks(low: string) {
    (forall i :: 0 <= i < |low| ==> low[i] !in {'m', 'k', 'v'}) &&
    (forall i :: 0 <= i < |low| - 1 ==> !(low[i] in {'o', 'd'} && low[i + 1] == 'n'))
  }

  lemma NoKeyword(low: string, k: ErrorKind)
    requires LacksKeywordMarks(low)
    ensures !ContainsAny(low, Keywords(k))
  {
    var ws := Keywords(k);
    match k
    case Timeout =>
      MissingChar(low, ws[0], 2);
    case Network =>
      MissingPair(low, ws[0], 1);
      MissingChar(low, ws[1], 6);
      ContainsAnyOfTwo(low, ws);
    case DnsError =>
      MissingPair(low, ws[0], 0);
      MissingChar(low, ws[1], 2);
      ContainsAnyOfTwo(low, ws);
    case BrowserError =>
      MissingChar(low, ws[0], 7);
      MissingChar(low, ws[1], 6);
      ContainsAnyOfTwo(low, ws);
    case ElementNotFound =>
      MissingChar(low, ws[0], 3);
      MissingChar(low, ws[1], 11);
      ContainsAnyOfTwo(low, ws);
    case Unknown =>
  }

  lemma ContainsAnyOfTwo(s: string, ps: seq<string>)
    requires |ps| == 2
    ensures ContainsAny(s, ps) <==> Contains(s, ps[0]) || Contains(s, ps[1])
  {
    assert ps[1..][0] == ps[1];
    assert ps[1..][1..] == [];
    assert !ContainsAny(s, ps[1..][1..]);
  }

  /** A message whose lowercase form has none of those marks is Unknown. */
  lemma UnknownWithoutMarks(msg: string)
    requires LacksKeywordMarks(Lower(msg))
    ensures ClassifyError(msg) == Unknown
  {
    var low := Lower(msg);
    NoKeyword(low, Timeout);
    NoKeyword(low, Network);
    NoKeyword(low, DnsError);
    NoKeyword(low, BrowserError);
    NoKeyword(low, ElementNotFound);
  }

  lemma PreflightLacksLetters()
    ensures forall i :: 0 <= i < |PreflightLow| ==> PreflightLow[i] !in {'m', 'k', 'v'}
  {
  }

  lemma PreflightLacksPairs()
    ensures forall i :: 0 <= i < |PreflightLow| - 1 ==> !(PreflightLow[i] in {'o', 'd'} && PreflightLow[i + 1] == 'n')
  {
  }

  lemma PreflightLacksMarks()
    ensures LacksKeywordMarks(Lower(PreflightMessage))
  {
    PreflightLowered();
    PreflightLacksLetters();
    PreflightLacksPairs();
  }

  /** The reachability failure's message names no keyword (it says
      "accessible", not "connection"), so that failure is Unknown and is
      not retried. */
  lemma PreflightIsUnknown()
    ensures ClassifyError(PreflightMessage) == Unknown
    ensures !ShouldRetry(ClassifyError(PreflightMessage))
  {
    PreflightLacksMarks();
    UnknownWithoutMarks(PreflightMessage);
  }

  // ---------------------------------------------------------------------
  // Messages and retry policy

  /** The message shown to the user for an error of kind `k`. Only the
      Unknown message quotes the error, cut to its first 100 characters. */
  function UserFriendlyMessage(msg: string, k: ErrorKind): string {
    match k
    case Timeout => TimeoutAdvice
    case Network => NetworkAdvice
    case DnsError => DnsAdvice
    case BrowserError => BrowserAdvice
    case ElementNotFound => LayoutAdvice
    case Unknown => UnexpectedLead + Prefix(msg, 100) + "..."
  }

  // Each advice is its symbol, then its text.
  const TimeoutAdvice := "⏱️" + " Request timed out. The court website is responding slowly. Please try again."
  const NetworkAdvice := "\U{1F310}" + " Network connection issue. Please check your internet connection and try again."
  const DnsAdvice := "\U{1F50D}" + " Unable to reach the court website. Please check your internet connection."
  const BrowserAdvice := "\U{1F310}" + " Browser setup issue. Please try refreshing the page or contact support."
  const LayoutAdvice := "\U{1F4CB}" + " Court website layout has changed. Please try again or contact support."
  const UnexpectedLead := "❌ An unexpected error occurred: "

  /** The message starts with the generic lead exactly for an unknown error. */
  lemma GenericLeadOnlyWhenUnknown(msg: string, k: ErrorKind)
    ensures k == Unknown <==> IsPrefix(UnexpectedLead, UserFriendlyMessage(msg, k))
  {
    var r := UserFriendlyMessage(msg, k);
    if k != Unknown {
      assert r[0] != UnexpectedLead[0];
    }
  }

  /** The advice for a known kind does not depend on the error's text. */
  lemma AdviceIgnoresText(a: string, b: string, k: ErrorKind)
    requires k != Unknown
    ensures UserFriendlyMessage(a, k) == UserFriendlyMessage(b, k)
  {
  }

  /** The advice for an unexpected error is the generic lead, then the
      error's text cut to its first 100 characters, then an ellipsis: an
      error of at most 100 characters is quoted in full. */
  lemma UnexpectedQuotesError(msg: string)
    ensures var m := UserFriendlyMessage(msg, Unknown);
      var n := |UnexpectedLead|;
      && IsPrefix(UnexpectedLead, m)
      && |m| == n + (if |msg| <= 100 then |msg| else 100) + 3
      && IsPrefix(m[n..|m| - 3], msg)
      && (|msg| <= 100 ==> m[n..|m| - 3] == msg)
  {
    var n := |UnexpectedLead|;
    var q := Prefix(msg, 100);
    var m := UnexpectedLead + q + "...";
    assert m[..n] == UnexpectedLead;
    assert m[n..|m| - 3] == q;
  }

  /** Only timeouts, network failures and missing elements are retried. */
  predicate ShouldRetry(k: ErrorKind) {
    k in {Timeout, Network, ElementNotFound}
  }

  /** The names of the retryable kinds, as the handler lists them. */
  const RetryableNames := ["TIMEOUT", "NETWORK", "ELEMENT_NOT_FOUND"]

  /** A kind is retried exactly when its name is on the handler's list. */
  lemma RetriedByName(k: ErrorKind)
    ensures ShouldRetry(k) <==> KindName(k) in RetryableNames
  {
  }

  function Pow2(n: nat): (r: nat)
    ensures r >= 1
  {
    if n == 0 then 1 else 2 * Pow2(n - 1)
  }

  /** `get_retry_delay`: exponential backoff capped at 10 seconds. */
  function RetryDelay(attempt: nat): (r: nat)
    ensures 1 <= r <= 10
    ensures r == 10 || r == Pow2(attempt)
  {
    if Pow2(attempt) < 10 then Pow2(attempt) else 10
  }

  lemma {:induction false} Pow2Monotone(m: nat, n: nat)
    requires m <= n
    ensures Pow2(m) <= Pow2(n)
    decreases n
  {
    if m < n {
      Pow2Monotone(m, n - 1);
    }
  }

  /** The delay never shrinks as attempts grow, doubles below the cap, and
      is the cap from the fourth attempt on. */
  lemma RetryDelayShape(m: nat, n: nat)
    requires m <= n
    ensures RetryDelay(m) <= RetryDelay(n)
    ensures RetryDelay(0) == 1 && RetryDelay(1) == 2 && RetryDelay(2) == 4 && RetryDelay(3) == 8
    ensures n >= 4 ==> RetryDelay(n) == 10
  {
    Pow2Monotone(m, n);
    if n >= 4 {
      Pow2Monotone(4, n);
    }
  }

  /** What `handle_error` returns: the user message, the retry flag, and
      the delay before the retry. */
  datatype Handling = Handling(message: string, retry: bool, delay: nat)

  /** `handle_error`: classify, pick the message, decide the retry, and wait
      `get_retry_delay(1)` when retrying. */
  function HandleError(msg: string): (r: Handling)
    ensures r.retry <==> ShouldRetry(ClassifyError(msg))
    ensures r.message == UserFriendlyMessage(msg, ClassifyError(msg))
    ensures r.delay == if r.retry then 2 else 0
  {
    var k := ClassifyError(msg);
    Handling(UserFriendlyMessage(msg, k), ShouldRetry(k), if ShouldRetry(k) then RetryDelay(1) else 0)
  }
}
