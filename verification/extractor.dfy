/**
 * The result-page extractor of the scraper (`extract_case_information` in
 * engine.py): it decides whether the page is still the search form or a
 * "not found" page, picks the container that holds the case data, scans its
 * lines for labelled fields, and downgrades an empty result to Failed.
 *
 * The browser is abstracted: the current URL, the body text, the texts of
 * the elements each selector finds, and the `href` attributes of the links
 * each PDF selector finds are inputs. A selector whose lookup raised is an
 * empty list (the source swallows the exception and moves on).
 */
module Extractor {
  import opened Text

  /** The sentinel for a field the page did not yield. */
  const NA := "N/A"

  const SearchUrlMarker := "get-case-type-status"

  const StillError := "Form submission may have failed - still on search page"
  const NotFoundError := "Case not found in court records"
  const NoDataError := "No meaningful case data found - possible form submission issue"

  const ErrorPhrases := [
    "no record found", "case not found", "invalid case",
    "not available", "error", "no data found",
    "record does not exist", "case does not exist",
    "invalid input", "no results", "not found"]

  const SuccessPhrases := [
    "case details", "case information", "petitioner",
    "respondent", "filing date", "next hearing",
    "case status", "judge", "court", "advocate"]

  const TitlePatterns := ["case no", "case number", "crl.m.c", "vs", "versus", "v/s"]
  const PartyWords := ["vs", "versus", "v/s"]
  const Separators := [" vs ", " versus ", " v/s ", " v. "]
  const FilingPatterns := ["filing date", "filed on", "date of filing", "registered on", "instituted on"]
  const HearingPatterns := ["next hearing", "next date", "hearing date", "next listed", "adjourned to"]
  const StatusPatterns := ["status", "stage", "disposed", "pending", "dismissed", "allowed"]
  const JudgePatterns := ["judge", "hon'ble", "court of", "before", "coram"]
  const AdvocatePatterns := ["advocate", "counsel", "lawyer", "represented by", "for petitioner", "for respondent"]

  datatype Outcome = Success | Failed

  /** The seven text fields the line scan fills in. */
  datatype Fields = Fields(
    caseInfo: string,
    parties: string,
    filingDate: string,
    nextHearing: string,
    caseStatus: string,
    judge: string,
    advocate: string)

  const Blank := Fields(NA, NA, NA, NA, NA, NA, NA)

  /** What the scraper hands back. `Extracted` is the dictionary built by the
      extractor; `Brief` is the short failure dictionary of the session
      (status Failed, its four fields "N/A", pdf_link "#"). A `pdfLink` of
      None is a link element that had no `href` attribute. */
  datatype CaseRecord =
    | Extracted(
        status: Outcome,
        error: Option<string>,
        fields: Fields,
        pdfLink: Option<string>,
        extractedAt: string,
        url: string,
        rawContent: string)
    | Brief(reason: string)
  {
    /** `record.get('status') == 'Success'`. */
    predicate IsSuccess() {
      Extracted? && status == Success
    }

    /** `record.get('error', default)`. */
    function ErrorOr(default: string): string {
      match this
      case Extracted(_, err, _, _, _, _, _) => (match err case Some(e) => e case None => default)
      case Brief(reason) => reason
    }
  }

  /** The page as the browser shows it after the search was submitted. */
  datatype Page = Page(
    url: string,
    body: string,
    tables: seq<seq<string>>,
    contents: seq<seq<string>>,
    pdfHrefs: seq<seq<Option<string>>>,
    now: string)

  // ---------------------------------------------------------------------
  // Classification of the page

  /** Still on the search form: the URL is the search URL and the body is short. */
  predicate IsStill(p: Page) {
    Contains(p.url, SearchUrlMarker) && |Strip(p.body)| < 500
  }

  /** A failure phrase occurs and no success phrase does. */
  predicate IsNotFound(body: string) {
    ContainsAny(Lower(body), ErrorPhrases) && !ContainsAny(Lower(body), SuccessPhrases)
  }

  lemma {:induction false} ContainsAnyMember(s: string, ps: seq<string>, k: nat)
    requires k < |ps| && Contains(s, ps[k])
    ensures ContainsAny(s, ps)
    decreases k
  {
    if k > 0 {
      ContainsAnyMember(s, ps[1..], k - 1);
    }
  }

  /** A body that mentions any success phrase (among them "court") is never
      classified as not found, whatever failure phrases it also holds. */
  lemma SuccessPhraseWins(body: string, k: nat)
    requires k < |SuccessPhrases| && Contains(Lower(body), SuccessPhrases[k])
    ensures !IsNotFound(body)
  {
    ContainsAnyMember(Lower(body), SuccessPhrases, k);
  }

  /** The record returned by the two early exits: Failed, every field "N/A",
      and the first 500 characters of the body kept for diagnosis. */
  function EarlyFailure(p: Page, error: string): (r: CaseRecord)
    ensures r.Extracted? && r.status == Failed && r.fields == Blank
  {
    Extracted(Failed, Some(error), Blank, Some("#"), p.now, p.url, Prefix(p.body, 500))
  }

  // ---------------------------------------------------------------------
  // Content localisation

  /** A table-like container qualifies when its stripped text is longer than
      50 characters and mentions a success phrase. */
  predicate TableQualifies(t: string) {
    |Strip(t)| > 50 && ContainsAny(Lower(Strip(t)), SuccessPhrases)
  }

  /** A content area qualifies when its stripped text is longer than 100. */
  predicate ContentQualifies(t: string) {
    |Strip(t)| > 100
  }

  /** Some element of some selector qualifies. */
  ghost predicate AnyWhere(cands: seq<seq<string>>, q: string -> bool) {
    exists i, j :: 0 <= i < |cands| && 0 <= j < |cands[i]| && q(cands[i][j])
  }

  /** `cands[i][j]` qualifies and nothing earlier does, earlier meaning an
      earlier selector, or the same selector and an earlier element. */
  ghost predicate FirstWhere(cands: seq<seq<string>>, q: string -> bool, i: int, j: int) {
    && 0 <= i < |cands| && 0 <= j < |cands[i]| && q(cands[i][j])
    && (forall i', j' :: 0 <= i' < i && 0 <= j' < |cands[i']| ==> !q(cands[i'][j']))
    && (forall j' :: 0 <= j' < j ==> !q(cands[i][j']))
  }

  function FirstIn(ts: seq<string>, q: string -> bool): Option<string>
    decreases |ts|
  {
    if |ts| == 0 then None else if q(ts[0]) then Some(ts[0]) else FirstIn(ts[1..], q)
  }

  function FirstMatch(cands: seq<seq<string>>, q: string -> bool): Option<string>
    decreases |cands|
  {
    if |cands| == 0 then None
    else match FirstIn(cands[0], q)
      case Some(t) => Some(t)
      case None => FirstMatch(cands[1..], q)
  }

  lemma {:induction false} FirstInIsFirst(ts: seq<string>, q: string -> bool)
    ensures FirstIn(ts, q).None? <==> forall j :: 0 <= j < |ts| ==> !q(ts[j])
    ensures FirstIn(ts, q).Some? ==>
      exists j :: (0 <= j < |ts| && q(ts[j]) && FirstIn(ts, q).value == ts[j]
                   && forall j' :: 0 <= j' < j ==> !q(ts[j']))
    decreases |ts|
  {
    if |ts| > 0 && !q(ts[0]) {
      FirstInIsFirst(ts[1..], q);
      if FirstIn(ts, q).Some? {
        var j :| 0 <= j < |ts[1..]| && q(ts[1..][j]) && FirstIn(ts, q).value == ts[1..][j]
          && forall j' :: 0 <= j' < j ==> !q(ts[1..][j']);
        assert q(ts[j + 1]) && forall j' :: 0 <= j' < j + 1 ==> !q(ts[j']) by {
          forall j' | 0 <= j' < j + 1 ensures !q(ts[j']) {
            if j' > 0 { assert ts[j'] == ts[1..][j' - 1]; }
          }
        }
      } else {
        forall j | 0 <= j < |ts| ensures !q(ts[j]) {
          if j > 0 { assert ts[j] == ts[1..][j - 1]; }
        }
      }
    }
  }

  /** The recursive search finds exactly the first qualifying element, in
      selector order and then element order, and finds nothing only when no
      element qualifies. */
  lemma {:induction false} FirstMatchIsFirst(cands: seq<seq<string>>, q: string -> bool)
    ensures FirstMatch(cands, q).None? <==> !AnyWhere(cands, q)
    ensures FirstMatch(cands, q).Some? ==>
      exists i, j :: FirstWhere(cands, q, i, j) && FirstMatch(cands, q).value == cands[i][j]
    decreases |cands|
  {
    if |cands| > 0 {
      FirstInIsFirst(cands[0], q);
      match FirstIn(cands[0], q)
      case Some(t) =>
        var j :| 0 <= j < |cands[0]| && q(cands[0][j]) && t == cands[0][j]
          && forall j' :: 0 <= j' < j ==> !q(cands[0][j']);
        assert FirstWhere(cands, q, 0, j);
      case None =>
        var rest := cands[1..];
        FirstMatchIsFirst(rest, q);
        if FirstMatch(rest, q).Some? {
          var i, j :| FirstWhere(rest, q, i, j) && FirstMatch(rest, q).value == rest[i][j];
          assert cands[i + 1] == rest[i];
          forall i', j' | 0 <= i' < i + 1 && 0 <= j' < |cands[i']| ensures !q(cands[i'][j']) {
            if i' > 0 { assert cands[i'] == rest[i' - 1]; }
          }
          assert FirstWhere(cands, q, i + 1, j);
        }
    }
  }

  /** The text the field scan works on: the first qualifying table, else the
      first qualifying content area, else the whole body. The element's text
      is used as the browser gives it, unstripped. */
  function LocalisedText(p: Page): string {
    match FirstMatch(p.tables, TableQualifies)
    case Some(t) => t
    case None =>
      match FirstMatch(p.contents, ContentQualifies)
      case Some(t) => t
      case None => p.body
  }

  /** One localisation loop: over the selectors and, within each, over the
      elements it found, stopping at the first element that qualifies. */
  method FirstQualifying(cands: seq<seq<string>>, q: string -> bool) returns (found: Option<string>)
    ensures found == FirstMatch(cands, q)
  {
    found := None;
    var i := 0;
    while i < |cands|
      invariant 0 <= i <= |cands|
      invariant found.None?
      invariant FirstMatch(cands[i..], q) == FirstMatch(cands, q)
    {
      var j := 0;
      while j < |cands[i]|
        invariant 0 <= j <= |cands[i]|
        invariant found.None?
        invariant FirstIn(cands[i][j..], q) == FirstIn(cands[i], q)
      {
        if q(cands[i][j]) {
          found := Some(cands[i][j]);
          break;
        }
        assert cands[i][j..][1..] == cands[i][j + 1..];
        j := j + 1;
      }
      assert cands[i..][0] == cands[i] && cands[i..][1..] == cands[i + 1..];
      if found.Some? {
        return;
      }
      i := i + 1;
    }
  }

  /** The table search, then the content-area search, then the body. */
  method Localise(p: Page) returns (text: string)
    ensures text == LocalisedText(p)
  {
    var found := FirstQualifying(p.tables, TableQualifies);
    if found.None? {
      found := FirstQualifying(p.contents, ContentQualifies);
    }
    text := if found.Some? then found.value else p.body;
  }

  // ---------------------------------------------------------------------
  // The line scan

  /** A line that names the case: it matches a case-title pattern and one of
      "vs", "versus", "v/s" (the second test implies the first). */
  predicate IsTitleLine(low: string) {
    ContainsAny(low, TitlePatterns) && ContainsAny(low, PartyWords)
  }

  /** The first of `seps`, in list order, that occurs in `low`. */
  function FirstSeparator(low: string, seps: seq<string>): (r: Option<string>)
    ensures r.Some? ==> exists k ::
      && 0 <= k < |seps| && r.value == seps[k] && Contains(low, seps[k])
      && forall j :: 0 <= j < k ==> !Contains(low, seps[j])
    ensures r.None? ==> forall k :: 0 <= k < |seps| ==> !Contains(low, seps[k])
    decreases |seps|
  {
    if |seps| == 0 then None
    else if Contains(low, seps[0]) then Some(seps[0])
    else
      var r := FirstSeparator(low, seps[1..]);
      assert forall k :: 1 <= k < |seps| ==> seps[k] == seps[1..][k - 1];
      r
  }

  /** The parties text: the first separator is found in the lowercased line,
      but the ORIGINAL line is split once, at that separator's first
      occurrence; there is no value when no separator occurs in the
      lowercased line or the chosen one does not occur in the original. */
  function PartiesOf(line: string, low: string): (r: Option<string>)
    ensures r.Some? ==> FirstSeparator(low, Separators).Some?
    ensures r.Some? ==>
      var sep := FirstSeparator(low, Separators).value;
      exists left, right ::
        && left + sep + right == line && !Contains(left, sep)
        && (forall k :: 0 <= k < |left| ==> !IsPrefix(sep, line[k..]))
        && r.value == "Petitioner: " + Strip(left) + ", Respondent: " + Strip(right)
    ensures r.None? <==> FirstSeparator(low, Separators).None? || !Contains(line, FirstSeparator(low, Separators).value)
  {
    match FirstSeparator(low, Separators)
    case None => None
    case Some(sep) =>
      assert |sep| > 0 by {
        var k :| 0 <= k < |Separators| && sep == Separators[k];
      }
      var parts := SplitOnce(line, sep);
      if |parts| == 2 then
        Some("Petitioner: " + Strip(parts[0]) + ", Respondent: " + Strip(parts[1]))
      else None
  }

  /** A next line is taken as a date when it has a digit and is longer than 5. */
  predicate NextQualifies(next: string) {
    HasDigit(next) && |next| > 5
  }

  /** The text after the last ':' of `line`, stripped, when there is a ':' and
      that text has a digit. */
  function SameLineDate(line: string): (r: Option<string>)
    ensures r.Some? ==> HasDigit(r.value)
    ensures r.Some? ==> exists before, after :: line == before + ":" + after && ':' !in after && r.value == Strip(after)
  {
    var parts := Split(line, ':');
    if |parts| > 1 && HasDigit(Strip(parts[|parts| - 1])) then
      LastPieceAfterLastSeparator(parts, ':');
      Some(Strip(parts[|parts| - 1]))
    else None
  }

  /** Conversely, a line whose text after its last ':' holds a digit once
      stripped yields that text. */
  lemma SameLineDateTaken(line: string, before: string, after: string)
    requires line == before + ":" + after && ':' !in after && HasDigit(Strip(after))
    ensures SameLineDate(line) == Some(Strip(after))
  {
    var parts := Split(line, ':');
    assert line[|before|] == ':';
    LastPieceAfterLastSeparator(parts, ':');
    var p :| Join(parts, ':') == p + [':'] + parts[|parts| - 1];
    AfterLastUnique(p, parts[|parts| - 1], before, after, ':');
  }

  /** A date field after a line whose stripped text is `line` (line `i`):
      the stripped next line when it qualifies, then, only while the field is
      still "N/A", the text after the last ':' of the line. */
  function DateStep(current: string, line: string, patterns: seq<string>, lines: seq<string>, i: nat): (r: string)
    requires i < |lines|
    ensures r == current || HasDigit(r)
  {
    if !ContainsAny(Lower(line), patterns) then current
    else
      var fromNext := if i + 1 < |lines| && NextQualifies(Strip(lines[i + 1])) then Strip(lines[i + 1]) else current;
      if fromNext == NA then
        match SameLineDate(line)
        case Some(d) => d
        case None => fromNext
      else fromNext
  }

  /** A labelled field: a line longer than 10 that matches a pattern replaces it. */
  function LabelStep(current: string, line: string, patterns: seq<string>): string {
    if ContainsAny(Lower(line), patterns) && |line| > 10 then line else current
  }

  /** The seven fields, by name. */
  datatype Field = CaseInfo | Parties | FilingDate | NextHearing | CaseStatus | Judge | Advocate

  /** The effect of line `i` on one field. Each field depends only on its own
      previous value and on the lines, never on another field. */
  function Step(k: Field, current: string, lines: seq<string>, i: nat): (r: string)
    requires i < |lines|
    ensures |Strip(lines[i])| < 3 ==> r == current
  {
    var line := Strip(lines[i]);
    if |line| < 3 then current
    else match k
      case CaseInfo => if IsTitleLine(Lower(line)) then line else current
      case Parties =>
        if IsTitleLine(Lower(line)) && PartiesOf(line, Lower(line)).Some? then PartiesOf(line, Lower(line)).value
        else current
      case FilingDate => DateStep(current, line, FilingPatterns, lines, i)
      case NextHearing => DateStep(current, line, HearingPatterns, lines, i)
      case CaseStatus => LabelStep(current, line, StatusPatterns)
      case Judge => LabelStep(current, line, JudgePatterns)
      case Advocate => LabelStep(current, line, AdvocatePatterns)
  }

  /** One field after the first `n` lines, starting from "N/A". */
  function Scan(lines: seq<string>, n: nat, k: Field): string
    requires n <= |lines|
  {
    if n == 0 then NA else Step(k, Scan(lines, n - 1, k), lines, n - 1)
  }

  /** All fields after the first `n` lines. */
  function ScanLines(lines: seq<string>, n: nat): Fields
    requires n <= |lines|
  {
    Fields(Scan(lines, n, CaseInfo), Scan(lines, n, Parties), Scan(lines, n, FilingDate),
           Scan(lines, n, NextHearing), Scan(lines, n, CaseStatus), Scan(lines, n, Judge),
           Scan(lines, n, Advocate))
  }

  /** The party split of a title line: the separators are tried in order on
      the lowercased line; the first one present splits the original line. */
  method SplitParties(line: string, low: string, current: string) returns (parties: string)
    ensures parties == (if PartiesOf(line, low).Some? then PartiesOf(line, low).value else current)
  {
    parties := current;
    var k := 0;
    while k < |Separators|
      invariant 0 <= k <= |Separators|
      invariant FirstSeparator(low, Separators[k..]) == FirstSeparator(low, Separators)
    {
      var sep := Separators[k];
      if Contains(low, sep) {
        var parts := SplitOnce(line, sep);
        if |parts| == 2 {
          parties := "Petitioner: " + Strip(parts[0]) + ", Respondent: " + Strip(parts[1]);
        }
        return;
      }
      assert Separators[k..][1..] == Separators[k + 1..];
      k := k + 1;
    }
  }

  /** A date field: the next line first, then the same line while still "N/A". */
  method UpdateDate(current: string, line: string, low: string, patterns: seq<string>, lines: seq<string>, i: nat)
    returns (date: string)
    requires i < |lines| && low == Lower(line)
    ensures date == DateStep(current, line, patterns, lines, i)
  {
    date := current;
    if ContainsAny(low, patterns) {
      if i + 1 < |lines| {
        var next := Strip(lines[i + 1]);
        if HasDigit(next) && |next| > 5 {
          date := next;
        }
      }
      ghost var fromNext := date;
      if date == NA {
        var parts := Split(line, ':');
        if |parts| > 1 {
          var datePart := Strip(parts[|parts| - 1]);
          if HasDigit(datePart) {
            date := datePart;
          }
        }
        assert date == (match SameLineDate(line) case Some(d) => d case None => fromNext);
      }
    }
  }

  /** A labelled field: overwritten by every line longer than 10 that matches. */
  method UpdateLabel(current: string, line: string, low: string, patterns: seq<string>) returns (value: string)
    requires low == Lower(line)
    ensures value == LabelStep(current, line, patterns)
  {
    value := current;
    if ContainsAny(low, patterns) && |line| > 10 {
      value := line;
    }
  }

  /** The effect of line `i` on all seven fields. */
  function StepAll(f: Fields, lines: seq<string>, i: nat): Fields
    requires i < |lines|
  {
    Fields(Step(CaseInfo, f.caseInfo, lines, i), Step(Parties, f.parties, lines, i),
           Step(FilingDate, f.filingDate, lines, i), Step(NextHearing, f.nextHearing, lines, i),
           Step(CaseStatus, f.caseStatus, lines, i), Step(Judge, f.judge, lines, i),
           Step(Advocate, f.advocate, lines, i))
  }

  /** One pass of the line loop: a stripped line shorter than 3 is skipped;
      otherwise every field is updated from it. */
  method ScanLine(f: Fields, lines: seq<string>, i: nat) returns (g: Fields)
    requires i < |lines|
    ensures g == StepAll(f, lines, i)
  {
    var line := Strip(lines[i]);
    if |line| < 3 {
      return f;
    }
    var low := Lower(line);
    var caseInfo, parties := f.caseInfo, f.parties;
    if ContainsAny(low, TitlePatterns) && ContainsAny(low, PartyWords) {
      caseInfo := line;
      parties := SplitParties(line, low, parties);
    }
    var filingDate := UpdateDate(f.filingDate, line, low, FilingPatterns, lines, i);
    var nextHearing := UpdateDate(f.nextHearing, line, low, HearingPatterns, lines, i);
    var caseStatus := UpdateLabel(f.caseStatus, line, low, StatusPatterns);
    var judge := UpdateLabel(f.judge, line, low, JudgePatterns);
    var advocate := UpdateLabel(f.advocate, line, low, AdvocatePatterns);
    assert caseInfo == Step(CaseInfo, f.caseInfo, lines, i);
    assert parties == Step(Parties, f.parties, lines, i);
    assert filingDate == Step(FilingDate, f.filingDate, lines, i);
    assert nextHearing == Step(NextHearing, f.nextHearing, lines, i);
    g := Fields(caseInfo, parties, filingDate, nextHearing, caseStatus, judge, advocate);
  }

  /** The line loop of the extractor, overwriting one field at a time. */
  method ExtractFields(lines: seq<string>) returns (f: Fields)
    ensures f == ScanLines(lines, |lines|)
  {
    f := Blank;
    var i := 0;
    while i < |lines|
      invariant 0 <= i <= |lines|
      invariant f == ScanLines(lines, i)
    {
      f := ScanLine(f, lines, i);
      i := i + 1;
    }
  }

  // ---------------------------------------------------------------------
  // Properties of the line scan

  /** The four fields that take a whole line as their value. */
  predicate LineValued(k: Field) {
    k == CaseInfo || k == CaseStatus || k == Judge || k == Advocate
  }

  /** The raw line `raw` sets the line-valued field `k`: its stripped form has
      at least 3 characters, and it is a title line, or it is longer than 10
      and matches one of that field's patterns. */
  predicate Selects(k: Field, raw: string)
    requires LineValued(k)
  {
    var line := Strip(raw);
    |line| >= 3 &&
    match k
    case CaseInfo => IsTitleLine(Lower(line))
    case CaseStatus => ContainsAny(Lower(line), StatusPatterns) && |line| > 10
    case Judge => ContainsAny(Lower(line), JudgePatterns) && |line| > 10
    case Advocate => ContainsAny(Lower(line), AdvocatePatterns) && |line| > 10
  }

  /** A line-valued field is overwritten by every selecting line. */
  lemma StepOverwrites(k: Field, current: string, lines: seq<string>, i: nat)
    requires LineValued(k) && i < |lines|
    ensures Step(k, current, lines, i) == if Selects(k, lines[i]) then Strip(lines[i]) else current
  {
  }

  /** A line-valued field is still "N/A" after `n` lines when none of them
      selects it. */
  lemma {:induction false} UnselectedStaysSentinel(lines: seq<string>, n: nat, k: Field)
    requires LineValued(k) && n <= |lines|
    requires forall j :: 0 <= j < n ==> !Selects(k, lines[j])
    ensures Scan(lines, n, k) == NA
  {
    if n > 0 {
      UnselectedStaysSentinel(lines, n - 1, k);
      StepOverwrites(k, Scan(lines, n - 1, k), lines, n - 1);
    }
  }

  /** A line-valued field after `n` lines holds the stripped text of the LAST
      of those lines that selects it. */
  lemma {:induction false} LastMatchWins(lines: seq<string>, n: nat, k: Field, j: nat)
    requires LineValued(k) && j < n <= |lines|
    requires Selects(k, lines[j])
    requires forall j' :: j < j' < n ==> !Selects(k, lines[j'])
    ensures Scan(lines, n, k) == Strip(lines[j])
  {
    StepOverwrites(k, Scan(lines, n - 1, k), lines, n - 1);
    if j < n - 1 {
      LastMatchWins(lines, n - 1, k, j);
    }
  }

  /** `sub` cannot occur in `s` when its first character does not. */
  lemma {:induction false} NotContainsFirstChar(s: string, sub: string)
    requires |sub| > 0 && sub[0] !in s
    ensures !Contains(s, sub)
    decreases |s|
  {
    if |s| > 0 {
      assert forall j :: 0 <= j < |s[1..]| ==> s[1..][j] == s[j + 1];
      assert !IsPrefix(sub, s) by { assert s[0] != sub[0]; }
      NotContainsFirstChar(s[1..], sub);
    }
  }

  /** "N/A" is not a title line: it holds none of "vs", "versus", "v/s". */
  lemma SentinelIsNoTitle()
    ensures !IsTitleLine(Lower(NA))
  {
    var low := Lower(NA);
    assert low == "n/a";
    NotContainsFirstChar(low, "vs");
    NotContainsFirstChar(low, "versus");
    NotContainsFirstChar(low, "v/s");
  }

  /** A line that selects a field never carries the sentinel text itself. */
  lemma SelectedLineIsNotSentinel(k: Field, raw: string)
    requires LineValued(k) && Selects(k, raw)
    ensures Strip(raw) != NA
  {
    SentinelIsNoTitle();
  }

  /** So "N/A" in a line-valued field means exactly that no line selected it. */
  lemma {:induction false} SentinelIffUnselected(lines: seq<string>, n: nat, k: Field)
    requires LineValued(k) && n <= |lines|
    ensures Scan(lines, n, k) == NA <==> forall j :: 0 <= j < n ==> !Selects(k, lines[j])
  {
    if n > 0 {
      SentinelIffUnselected(lines, n - 1, k);
      StepOverwrites(k, Scan(lines, n - 1, k), lines, n - 1);
      if Selects(k, lines[n - 1]) {
        SelectedLineIsNotSentinel(k, lines[n - 1]);
      }
    }
  }

  function DatePatterns(k: Field): seq<string>
    requires k == FilingDate || k == NextHearing
  {
    if k == FilingDate then FilingPatterns else HearingPatterns
  }

  /** Line `raw` carries one of the date labels `patterns`. */
  predicate DateLabelled(raw: string, patterns: seq<string>) {
    |Strip(raw)| >= 3 && ContainsAny(Lower(Strip(raw)), patterns)
  }

  /** `v` comes from a labelled line `j`: it is the stripped next line (which
      has a digit and is longer than 5), or the text after the last ':' of
      line `j`. */
  ghost predicate DateFrom(v: string, lines: seq<string>, n: nat, patterns: seq<string>)
    requires n <= |lines|
  {
    exists j :: 0 <= j < n && DateLabelled(lines[j], patterns) &&
      ((j + 1 < |lines| && v == Strip(lines[j + 1]) && NextQualifies(v)) ||
       SameLineDate(Strip(lines[j])) == Some(v))
  }

  /** A date field, when set, holds a digit and was taken from a labelled line. */
  lemma {:induction false} DatesHaveProvenance(lines: seq<string>, n: nat, k: Field)
    requires (k == FilingDate || k == NextHearing) && n <= |lines|
    ensures Scan(lines, n, k) != NA ==> HasDigit(Scan(lines, n, k)) && DateFrom(Scan(lines, n, k), lines, n, DatePatterns(k))
  {
    if n > 0 {
      DatesHaveProvenance(lines, n - 1, k);
      var v := Scan(lines, n, k);
      if v != NA && v != Scan(lines, n - 1, k) {
        assert DateLabelled(lines[n - 1], DatePatterns(k));
        assert DateFrom(v, lines, n, DatePatterns(k)) by {
          var line := Strip(lines[n - 1]);
          if n < |lines| && NextQualifies(Strip(lines[n])) {
            assert v == Strip(lines[n]);
          } else {
            assert SameLineDate(line) == Some(v);
          }
        }
      } else if v != NA {
        var j :| 0 <= j < n - 1 && DateLabelled(lines[j], DatePatterns(k)) &&
          ((j + 1 < |lines| && v == Strip(lines[j + 1]) && NextQualifies(v)) ||
           SameLineDate(Strip(lines[j])) == Some(v));
      }
    }
  }

  /** The next line wins over the same line: a labelled line followed by a
      qualifying line sets the date to that next line, whatever it was. */
  lemma NextLineFirst(k: Field, current: string, lines: seq<string>, i: nat)
    requires (k == FilingDate || k == NextHearing) && i + 1 < |lines|
    requires DateLabelled(lines[i], DatePatterns(k)) && NextQualifies(Strip(lines[i + 1]))
    ensures Step(k, current, lines, i) == Strip(lines[i + 1])
  {
  }

  /** The same-line fallback is used only while the field is still "N/A". */
  lemma SameLineOnlyWhileUnset(k: Field, current: string, lines: seq<string>, i: nat)
    requires (k == FilingDate || k == NextHearing) && i < |lines| && current != NA
    requires !(i + 1 < |lines| && NextQualifies(Strip(lines[i + 1])))
    ensures Step(k, current, lines, i) == current
  {
  }

  /** Parties are only ever set on a title line, which also sets the case
      title, so a set `parties` implies a set `caseInfo`. */
  lemma {:induction false} PartiesNeedTitle(lines: seq<string>, n: nat)
    requires n <= |lines|
    ensures Scan(lines, n, Parties) != NA ==> Scan(lines, n, CaseInfo) != NA
  {
    if n > 0 {
      PartiesNeedTitle(lines, n - 1);
      StepOverwrites(CaseInfo, Scan(lines, n - 1, CaseInfo), lines, n - 1);
      if Selects(CaseInfo, lines[n - 1]) {
        SelectedLineIsNotSentinel(CaseInfo, lines[n - 1]);
      }
    }
  }

  /** The separator is looked up in the lowercased line but the original line
      is split: " VS " makes a title line whose parties stay "N/A". */
  lemma UpperCaseVsKeepsPartiesUnset()
    ensures Scan(["A VS B"], 1, CaseInfo) == "A VS B"
    ensures Scan(["A VS B"], 1, Parties) == NA
  {
    var line := "A VS B";
    assert Strip(line) == line by {
      assert StripLeft(line) == line;
      assert StripRight(line) == line;
    }
    var low := Lower(line);
    assert low == "a vs b";
    assert Contains(low, "vs") by { assert IsPrefix("vs", low[2..]); }
    assert ContainsAny(low, TitlePatterns) by { ContainsAnyMember(low, TitlePatterns, 3); }
    assert ContainsAny(low, PartyWords);
    assert Contains(low, " vs ") by { assert IsPrefix(" vs ", low[1..]); }
    assert FirstSeparator(low, Separators) == Some(" vs ");
    assert !Contains(line, " vs ") by {
      assert !IsPrefix(" vs ", line[1..]);
      assert line[1..][1..] == line[2..];
    }
    assert SplitOnce(line, " vs ") == [line];
  }

  // ---------------------------------------------------------------------
  // PDF link and final validation

  /** The `href` of the first link found by the first PDF selector that finds
      any link; "#" when none does. */
  function FirstPdf(hrefs: seq<seq<Option<string>>>): Option<string>
    decreases |hrefs|
  {
    if |hrefs| == 0 then Some("#")
    else if |hrefs[0]| > 0 then hrefs[0][0]
    else FirstPdf(hrefs[1..])
  }

  /** The PDF-link loop: the first selector that finds a link supplies it. */
  method FindPdfLink(hrefs: seq<seq<Option<string>>>) returns (link: Option<string>)
    ensures link == FirstPdf(hrefs)
  {
    link := Some("#");
    var k := 0;
    while k < |hrefs|
      invariant 0 <= k <= |hrefs|
      invariant FirstPdf(hrefs[k..]) == FirstPdf(hrefs)
    {
      if |hrefs[k]| > 0 {
        link := hrefs[k][0];
        return;
      }
      assert hrefs[k..][1..] == hrefs[k + 1..];
      k := k + 1;
    }
  }

  /** At least one of the five fields that count as case data is set. */
  predicate Meaningful(f: Fields) {
    f.caseInfo != NA || f.parties != NA || f.filingDate != NA || f.nextHearing != NA || f.caseStatus != NA
  }

  /** The whole extractor. */
  method Extract(p: Page) returns (r: CaseRecord)
    ensures IsStill(p) ==> r == EarlyFailure(p, StillError)
    ensures !IsStill(p) && IsNotFound(p.body) ==> r == EarlyFailure(p, NotFoundError)
    ensures !IsStill(p) && !IsNotFound(p.body) ==>
      var text := LocalisedText(p);
      && r.Extracted?
      && r.fields == ScanLines(Split(text, '\n'), |Split(text, '\n')|)
      && r.rawContent == Prefix(text, 1000)
      && r.pdfLink == FirstPdf(p.pdfHrefs)
      && r.extractedAt == p.now && r.url == p.url
      && (r.status == Failed <==> !Meaningful(r.fields) && |Strip(text)| < 200)
      && r.error == (if r.status == Failed then Some(NoDataError) else None)
  {
    if Contains(p.url, SearchUrlMarker) && |Strip(p.body)| < 500 {
      return EarlyFailure(p, StillError);
    }
    var bodyLower := Lower(p.body);
    var errorFound := ContainsAny(bodyLower, ErrorPhrases);
    var successFound := ContainsAny(bodyLower, SuccessPhrases);
    if errorFound && !successFound {
      return EarlyFailure(p, NotFoundError);
    }
    var text := Localise(p);
    var lines := Split(text, '\n');
    var fields := ExtractFields(lines);
    var link := FindPdfLink(p.pdfHrefs);
    var raw := Prefix(text, 1000);
    if !Meaningful(fields) && |Strip(text)| < 200 {
      r := Extracted(Failed, Some(NoDataError), fields, link, p.now, p.url, raw);
    } else {
      r := Extracted(Success, None, fields, link, p.now, p.url, raw);
    }
  }

  /** LocalisedText picks the first qualifying table, else the first
      qualifying content area, else the body. */
  lemma LocalisedTextIsFirst(p: Page)
    ensures AnyWhere(p.tables, TableQualifies) ==>
      exists i, j :: FirstWhere(p.tables, TableQualifies, i, j) && LocalisedText(p) == p.tables[i][j]
    ensures !AnyWhere(p.tables, TableQualifies) && AnyWhere(p.contents, ContentQualifies) ==>
      exists i, j :: FirstWhere(p.contents, ContentQualifies, i, j) && LocalisedText(p) == p.contents[i][j]
    ensures !AnyWhere(p.tables, TableQualifies) && !AnyWhere(p.contents, ContentQualifies) ==>
      LocalisedText(p) == p.body
  {
    FirstMatchIsFirst(p.tables, TableQualifies);
    FirstMatchIsFirst(p.contents, ContentQualifies);
  }

  lemma {:induction false} FirstPdfIsFirst(hrefs: seq<seq<Option<string>>>)
    ensures (forall k :: 0 <= k < |hrefs| ==> hrefs[k] == []) ==> FirstPdf(hrefs) == Some("#")
    ensures forall k :: 0 <= k < |hrefs| && hrefs[k] != [] && (forall k' :: 0 <= k' < k ==> hrefs[k'] == []) ==>
      FirstPdf(hrefs) == hrefs[k][0]
    decreases |hrefs|
  {
    if |hrefs| > 0 {
      FirstPdfIsFirst(hrefs[1..]);
      forall k | 0 <= k < |hrefs| && hrefs[k] != [] && (forall k' :: 0 <= k' < k ==> hrefs[k'] == [])
        ensures FirstPdf(hrefs) == hrefs[k][0]
      {
        if k > 0 {
          assert hrefs[k] == hrefs[1..][k - 1];
          forall k' | 0 <= k' < k - 1 ensures hrefs[1..][k'] == [] { assert hrefs[1..][k'] == hrefs[k' + 1]; }
        }
      }
      if forall k :: 0 <= k < |hrefs| ==> hrefs[k] == [] {
        forall k | 0 <= k < |hrefs[1..]| ensures hrefs[1..][k] == [] { assert hrefs[1..][k] == hrefs[k + 1]; }
      }
    }
  }
}
