/**
 * The scraper session around the extractor: the fallback cascades that fill
 * the filing year and submit the search form, and the order of the steps of
 * one search (`get_case_information` in engine.py).
 *
 * Every browser action is abstracted to whether it worked. Each action of a
 * cascade swallows its own failure and the next one is tried; the first one
 * that works ends the cascade.
 */
module Session {
  import opened Text
  import Extractor

  /** The position of the first strategy that works, if any. */
  function FirstWorking(works: seq<bool>): (r: Option<nat>)
    ensures r.Some? ==> r.value < |works| && works[r.value]
    ensures r.Some? ==> forall j :: 0 <= j < r.value ==> !works[j]
    ensures r.None? <==> forall j :: 0 <= j < |works| ==> !works[j]
    decreases |works|
  {
    if |works| == 0 then None
    else if works[0] then Some(0)
    else match FirstWorking(works[1..])
      case None => None
      case Some(k) => Some(k + 1)
  }

  /** Try the strategies in order and stop at the first that works. */
  method TryInOrder(works: seq<bool>) returns (r: Option<nat>)
    ensures r == FirstWorking(works)
  {
    var i := 0;
    while i < |works|
      invariant 0 <= i <= |works|
      invariant forall j :: 0 <= j < i ==> !works[j]
    {
      if works[i] {
        return Some(i);
      }
      i := i + 1;
    }
    return None;
  }

  // ---------------------------------------------------------------------
  // Filling the filing year

  /** What one year selector finds: nothing usable, or a drop-down on which
      each of the four selection methods (by value, by visible text, by
      clicking the option, by script) works or not. */
  datatype YearTarget = NoDropDown | DropDown(methods: seq<bool>)

  /** How the year got selected: by a selector and one of its methods, by the
      last-resort scan of every drop-down on the page, or not at all. */
  datatype YearChoice = BySelector(selector: nat, way: nat) | ByScan(index: nat) | Unfilled

  predicate Usable(t: YearTarget) {
    t.DropDown? && FirstWorking(t.methods).Some?
  }

  /** The outcome of the year cascade; `scan[i]` says whether drop-down `i`
      of the page lists the year and selecting it by text works. */
  function YearOutcome(targets: seq<YearTarget>, scan: seq<bool>): YearChoice {
    match FirstWorking(seq(|targets|, i requires 0 <= i < |targets| => Usable(targets[i])))
    case Some(s) => BySelector(s, FirstWorking(targets[s].methods).value)
    case None =>
      match FirstWorking(scan)
      case Some(i) => ByScan(i)
      case None => Unfilled
  }

  /** The year cascade: every selector in order, every method in order on a
      drop-down, then the scan. */
  method SelectYear(targets: seq<YearTarget>, scan: seq<bool>) returns (r: YearChoice)
    ensures r == YearOutcome(targets, scan)
  {
    ghost var usable := seq(|targets|, i requires 0 <= i < |targets| => Usable(targets[i]));
    var s := 0;
    while s < |targets|
      invariant 0 <= s <= |targets|
      invariant forall j :: 0 <= j < s ==> !usable[j]
      decreases |targets| - s
    {
      if targets[s].DropDown? {
        var m := TryInOrder(targets[s].methods);
        if m.Some? {
          assert usable[s];
          return BySelector(s, m.value);
        }
      }
      s := s + 1;
    }
    assert FirstWorking(usable).None?;
    var i := TryInOrder(scan);
    r := match i case Some(k) => ByScan(k) case None => Unfilled;
  }

  /** A selector is used only when it is a drop-down on which some method
      works and no earlier selector is; the method used is the first that
      works; the scan runs only when no selector is usable, and the year stays
      unfilled only when nothing works. */
  lemma YearPrecedence(targets: seq<YearTarget>, scan: seq<bool>)
    ensures var r := YearOutcome(targets, scan);
      && (r.BySelector? ==>
            && r.selector < |targets| && targets[r.selector].DropDown?
            && (forall j :: 0 <= j < r.selector ==> !Usable(targets[j]))
            && r.way < |targets[r.selector].methods| && targets[r.selector].methods[r.way]
            && (forall j :: 0 <= j < r.way ==> !targets[r.selector].methods[j]))
      && (r.BySelector? <==> exists s :: 0 <= s < |targets| && Usable(targets[s]))
      && (r.ByScan? ==> r.index < |scan| && scan[r.index] && forall j :: 0 <= j < r.index ==> !scan[j])
      && (r == Unfilled <==>
            (forall s :: 0 <= s < |targets| ==> !Usable(targets[s])) && (forall j :: 0 <= j < |scan| ==> !scan[j]))
  {
    var usable := seq(|targets|, i requires 0 <= i < |targets| => Usable(targets[i]));
    var f := FirstWorking(usable);
    if f.None? {
      assert forall s :: 0 <= s < |targets| ==> !Usable(targets[s]) by {
        forall s | 0 <= s < |targets| ensures !Usable(targets[s]) {
          assert !usable[s];
        }
      }
    } else {
      assert usable[f.value];
      forall j | 0 <= j < f.value ensures !Usable(targets[j]) {
        assert !usable[j];
      }
    }
  }

  // ---------------------------------------------------------------------
  // Submitting the search form

  /** How the form got submitted. */
  datatype Submission = ByButton(selector: nat) | ByFormSubmit | ByEnterKey | NotSubmitted

  /** The outcome of the submit cascade: `buttons[i]` says whether selector
      `i` found a displayed, enabled button and clicking it worked. */
  function SubmitOutcome(buttons: seq<bool>, formSubmits: bool, enterWorks: bool): Submission {
    match FirstWorking(buttons)
    case Some(i) => ByButton(i)
    case None =>
      if formSubmits then ByFormSubmit
      else if enterWorks then ByEnterKey
      else NotSubmitted
  }

  /** The submit cascade: the button selectors in order, then submitting the
      form element, then the Enter key on the active element. */
  method SubmitForm(buttons: seq<bool>, formSubmits: bool, enterWorks: bool) returns (r: Submission)
    ensures r == SubmitOutcome(buttons, formSubmits, enterWorks)
  {
    var clicked := TryInOrder(buttons);
    if clicked.Some? {
      return ByButton(clicked.value);
    }
    if formSubmits {
      return ByFormSubmit;
    }
    if enterWorks {
      return ByEnterKey;
    }
    return NotSubmitted;
  }

  /** A button wins over the form element, which wins over the Enter key; the
      search fails to submit exactly when all of them fail. */
  lemma SubmitPrecedence(buttons: seq<bool>, formSubmits: bool, enterWorks: bool)
    ensures var r := SubmitOutcome(buttons, formSubmits, enterWorks);
      var anyButton := exists i :: 0 <= i < |buttons| && buttons[i];
      && (r.ByButton? <==> anyButton)
      && (r.ByButton? ==> r.selector < |buttons| && buttons[r.selector] && forall j :: 0 <= j < r.selector ==> !buttons[j])
      && (r == ByFormSubmit <==> !anyButton && formSubmits)
      && (r == ByEnterKey <==> !anyButton && !formSubmits && enterWorks)
      && (r == NotSubmitted <==> !anyButton && !formSubmits && !enterWorks)
  {
    var f := FirstWorking(buttons);
    if f.Some? {
      assert buttons[f.value];
    }
  }

  // ---------------------------------------------------------------------
  // One search

  const DriverError := "Failed to initialize Firefox WebDriver"
  const SiteError := "Failed to load Delhi High Court website"
  const SubmitError := "Failed to submit search form"

  /** One search: start the browser, load the site, fill the form (a failure
      there is only reported), submit it, and read the result page. The
      first step that fails decides the record; otherwise the extractor
      does. The session always returns a record. */
  method GetCaseInformation(
    driverStarts: bool, siteLoads: bool,
    buttons: seq<bool>, formSubmits: bool, enterWorks: bool,
    page: Extractor.Page)
    returns (r: Extractor.CaseRecord)
    ensures !driverStarts ==> r == Extractor.Brief(DriverError)
    ensures driverStarts && !siteLoads ==> r == Extractor.Brief(SiteError)
    ensures driverStarts && siteLoads && SubmitOutcome(buttons, formSubmits, enterWorks) == NotSubmitted ==>
      r == Extractor.Brief(SubmitError)
    ensures r.Extracted? <==> driverStarts && siteLoads && SubmitOutcome(buttons, formSubmits, enterWorks) != NotSubmitted
    ensures r.Extracted? ==> r.url == page.url && r.extractedAt == page.now
  {
    if !driverStarts {
      return Extractor.Brief(DriverError);
    }
    if !siteLoads {
      return Extractor.Brief(SiteError);
    }
    var submitted := SubmitForm(buttons, formSubmits, enterWorks);
    if submitted == NotSubmitted {
      return Extractor.Brief(SubmitError);
    }
    r := Extractor.Extract(page);
  }
}
