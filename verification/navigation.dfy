/** The navigation component of the polling-station form: the URL of each
    section, why leaving a section is blocked, whether a route change is
    blocked (or allowed after caching the edits), and the two effects that
    send the user to another section. The router itself is not modelled:
    a route change is a pair of path names, and navigating is returning a URL. */
module PollingStationFormNavigation {
  import opened Wrappers
  import opened Text
  import opened DataEntryValues
  import opened FormSections
  import opened PollingStationFormController

  const RecountedSection: string := "recounted"

  /** `/${election.id}/input/${pollingStationId}`. */
  function BaseUrl(electionId: int, pollingStationId: int): (url: string)
    ensures |url| >= 1 && url[0] == '/'
  {
    "/" + IntToString(electionId) + "/input/" + IntToString(pollingStationId)
  }

  /** The ids the URL switch knows. */
  predicate HasRoute(id: string)
  {
    StartsWith(id, PoliticalGroupPrefix) || id == RecountedSection || id == DifferencesCountsSection || id == VotersVotesCounts
  }

  /** What follows the base URL for an id the switch knows. A party
      section's number is what follows the prefix (the prefix's first
      occurrence, which `replace` removes, is at the start). */
  function RouteSuffix(id: string): string
  {
    if StartsWith(id, PoliticalGroupPrefix) then "/list/" + id[|PoliticalGroupPrefix|..]
    else if id == RecountedSection then "/recounted"
    else if id == DifferencesCountsSection then "/differences"
    else "/numbers"
  }

  /** getUrlForFormSection: the base URL and the switch's suffix; an id the
      switch does not know gives the empty string. */
  function UrlForFormSection(electionId: int, pollingStationId: int, id: string): (url: string)
    ensures url == "" <==> !HasRoute(id)
    ensures url != "" ==> StartsWith(url, BaseUrl(electionId, pollingStationId))
  {
    var baseUrl := BaseUrl(electionId, pollingStationId);
    if HasRoute(id) then
      assert (baseUrl + RouteSuffix(id))[..|baseUrl|] == baseUrl;
      baseUrl + RouteSuffix(id)
    else ""
  }

  /** Each section of the form has its own page: a party's section goes to
      `list/` and the party number, the fixed sections to `numbers` and
      `differences`, and `recounted` to its own page. */
  lemma UrlOfEachSection(electionId: int, pollingStationId: int, n: int)
    ensures UrlForFormSection(electionId, pollingStationId, PoliticalGroupKey(n)) ==
      BaseUrl(electionId, pollingStationId) + "/list/" + IntToString(n)
    ensures UrlForFormSection(electionId, pollingStationId, VotersVotesCounts) == BaseUrl(electionId, pollingStationId) + "/numbers"
    ensures UrlForFormSection(electionId, pollingStationId, DifferencesCountsSection) == BaseUrl(electionId, pollingStationId) + "/differences"
    ensures UrlForFormSection(electionId, pollingStationId, RecountedSection) == BaseUrl(electionId, pollingStationId) + "/recounted"
  {
    PoliticalGroupKeyDistinct(n, n);
    assert PoliticalGroupKey(n)[|PoliticalGroupPrefix|..] == IntToString(n);
  }

  lemma SectionUrlNonEmpty(electionId: int, pollingStationId: int, state: FormState, i: int)
    requires WellFormed(state) && 0 <= i < |state.sections|
    ensures UrlForFormSection(electionId, pollingStationId, state.sections[i].id) != ""
  {
    assert IsFormSectionId(Keys(state.sections)[i]);
  }

  lemma RouteSuffixInjective(a: string, b: string)
    requires HasRoute(a) && HasRoute(b) && RouteSuffix(a) == RouteSuffix(b)
    ensures a == b
  {
    var x := RouteSuffix(a);
    if StartsWith(a, PoliticalGroupPrefix) {
      assert x[1] == 'l';
      assert StartsWith(b, PoliticalGroupPrefix);
      assert a[|PoliticalGroupPrefix|..] == x[6..] == b[|PoliticalGroupPrefix|..];
      assert a == a[..|PoliticalGroupPrefix|] + a[|PoliticalGroupPrefix|..];
      assert b == b[..|PoliticalGroupPrefix|] + b[|PoliticalGroupPrefix|..];
    } else {
      assert x[1] != 'l';
      assert !StartsWith(b, PoliticalGroupPrefix);
      assert x[1] == RouteSuffix(b)[1];
    }
  }

  /** Different sections never share a page: two ids with the same non-empty URL are the same id. */
  lemma UrlInjective(electionId: int, pollingStationId: int, a: string, b: string)
    requires UrlForFormSection(electionId, pollingStationId, a) == UrlForFormSection(electionId, pollingStationId, b) != ""
    ensures a == b
  {
    var base := BaseUrl(electionId, pollingStationId);
    var u := UrlForFormSection(electionId, pollingStationId, a);
    assert RouteSuffix(a) == u[|base|..] == RouteSuffix(b);
    RouteSuffixInjective(a, b);
  }

  // ---------------------------------------------------------------------------
  // Why leaving a section is blocked

  datatype BlockReason = ReasonErrors | ReasonWarnings | ReasonChanges

  /** reasonBlocked: errors first, then warnings that are not ignored, then
      edits of a section not yet submitted; nothing for a form whose section
      does not exist. `currentFormHasChanges` is a parameter. */
  function ReasonBlocked(state: FormState, currentForm: FormReference, values: PollingStationResults,
                         currentFormHasChanges: (FormReference, PollingStationResults) -> bool): (reason: Option<BlockReason>)
    ensures currentForm.id !in Keys(state.sections) ==> reason == None
    ensures reason == Some(ReasonErrors) ==>
      exists i :: 0 <= i < |state.sections| && state.sections[i].id == currentForm.id && |state.sections[i].errors| > 0
  {
    var i := IndexOf(Keys(state.sections), currentForm.id);
    if i == -1 then None
    else
      var formSection := state.sections[i];
      if |formSection.errors| > 0 then Some(ReasonErrors)
      else if |formSection.warnings| > 0 && !formSection.ignoreWarnings then Some(ReasonWarnings)
      else if !formSection.isSubmitted && currentFormHasChanges(currentForm, values) then Some(ReasonChanges)
      else None
  }

  /** With unique keys, the reason is decided by the form's own section:
      errors always win; warnings block only when there are no errors and they
      are not ignored, so ignored warnings never do; edits count only for a
      clean section that is not marked submitted. */
  lemma ReasonPriority(state: FormState, currentForm: FormReference, values: PollingStationResults,
                       currentFormHasChanges: (FormReference, PollingStationResults) -> bool, i: int)
    requires Distinct(Keys(state.sections)) && 0 <= i < |state.sections| && state.sections[i].id == currentForm.id
    ensures var s := state.sections[i];
      var reason := ReasonBlocked(state, currentForm, values, currentFormHasChanges);
      && (|s.errors| > 0 <==> reason == Some(ReasonErrors))
      && (reason == Some(ReasonWarnings) <==> |s.errors| == 0 && |s.warnings| > 0 && !s.ignoreWarnings)
      && (s.ignoreWarnings ==> reason != Some(ReasonWarnings))
      && (reason == Some(ReasonChanges) <==>
            |s.errors| == 0 && (|s.warnings| == 0 || s.ignoreWarnings) && !s.isSubmitted && currentFormHasChanges(currentForm, values))
      && (reason == None <==>
            |s.errors| == 0 && (|s.warnings| == 0 || s.ignoreWarnings) && (s.isSubmitted || !currentFormHasChanges(currentForm, values)))
  {
    IndexOfDistinct(Keys(state.sections), i);
  }

  /** A saved section is complete exactly when leaving it is blocked by
      nothing or by edits only. */
  lemma CompleteIffNoValidationReason(state: FormState, currentForm: FormReference, values: PollingStationResults,
                                      currentFormHasChanges: (FormReference, PollingStationResults) -> bool, i: int)
    requires WellFormed(state) && 0 <= i < |state.sections| && state.sections[i].id == currentForm.id
    requires state.sections[i].isSaved
    ensures var reason := ReasonBlocked(state, currentForm, values, currentFormHasChanges);
      FormSectionComplete(state.sections[i]) <==> reason == None || reason == Some(ReasonChanges)
  {
    ReasonPriority(state, currentForm, values, currentFormHasChanges, i);
  }

  /** After a response that moves `current` on, the form of the section that
      was active is blocked by nothing but edits. */
  lemma AdvanceClearsValidationReason(state: FormState, errors: seq<ValidationResult>, warnings: seq<ValidationResult>,
                                      ignoreWarningsFor: Option<SectionId>, rootFieldSection: Option<string> -> FieldRoot,
                                      currentForm: FormReference, values: PollingStationResults,
                                      currentFormHasChanges: (FormReference, PollingStationResults) -> bool)
    requires WellFormed(state) && currentForm.id == state.active
    requires AdvancesOn(state, errors, warnings, ignoreWarningsFor, rootFieldSection)
    ensures var r := RespondTo(state, errors, warnings, ignoreWarningsFor, rootFieldSection);
      var reason := ReasonBlocked(r, currentForm, values, currentFormHasChanges);
      reason == None || reason == Some(ReasonChanges)
  {
    var ks := Keys(state.sections);
    var i := IndexOf(ks, state.active);
    var r := RespondTo(state, errors, warnings, ignoreWarningsFor, rootFieldSection);
    AdvanceCompletesActive(state, errors, warnings, ignoreWarningsFor, rootFieldSection, state.current);
    RespondPreservesWellFormed(state, errors, warnings, ignoreWarningsFor, rootFieldSection);
    RespondSection(state, errors, warnings, ignoreWarningsFor, rootFieldSection, i);
    CompleteIffNoValidationReason(r, currentForm, values, currentFormHasChanges, i);
  }

  // ---------------------------------------------------------------------------
  // Blocking a route change

  /** What the blocker does with a route change. */
  datatype BlockDecision = Proceed | CacheAndProceed(cache: TemporaryCache) | Block

  /** shouldBlock's decision: a change within one path, or with no form on
      screen, proceeds; edits of the current section are cached and the
      change proceeds; any other reason blocks it; no reason lets it proceed.
      `onScreen` is what the form's `getValues()` returns. */
  function ShouldBlockDecision(currentPath: string, nextPath: string, state: FormState, currentForm: Option<FormReference>,
                               values: PollingStationResults, currentFormHasChanges: (FormReference, PollingStationResults) -> bool,
                               onScreen: FormValues): (d: BlockDecision)
    ensures currentPath == nextPath || currentForm == None ==> d == Proceed
    ensures d.CacheAndProceed? ==> currentForm.Some? && d.cache == TemporaryCache(currentForm.value.id, onScreen)
  {
    if currentPath == nextPath then Proceed
    else if currentForm.None? then Proceed
    else
      match ReasonBlocked(state, currentForm.value, values, currentFormHasChanges)
      case None => Proceed
      case Some(reason) =>
        if reason == ReasonChanges && state.active == state.current then
          CacheAndProceed(TemporaryCache(currentForm.value.id, onScreen))
        else Block
  }

  /** For a real route change away from a registered form: errors and
      unignored warnings always block; edits are cached while the user is on
      the current section and block elsewhere; no reason never blocks. */
  lemma BlockingRules(currentPath: string, nextPath: string, state: FormState, form: FormReference,
                      values: PollingStationResults, currentFormHasChanges: (FormReference, PollingStationResults) -> bool,
                      onScreen: FormValues)
    requires currentPath != nextPath
    ensures var d := ShouldBlockDecision(currentPath, nextPath, state, Some(form), values, currentFormHasChanges, onScreen);
      var reason := ReasonBlocked(state, form, values, currentFormHasChanges);
      && (reason == Some(ReasonErrors) || reason == Some(ReasonWarnings) ==> d == Block)
      && (reason == Some(ReasonChanges) && state.active == state.current ==> d == CacheAndProceed(TemporaryCache(form.id, onScreen)))
      && (reason == Some(ReasonChanges) && state.active != state.current ==> d == Block)
      && (reason == None <==> d == Proceed)
      && (d == Block <==> reason.Some? && !(reason == Some(ReasonChanges) && state.active == state.current))
  {
  }

  /** On the current section, a complete section never blocks a route change. */
  lemma CompleteCurrentNeverBlocks(currentPath: string, nextPath: string, state: FormState, form: FormReference,
                                   values: PollingStationResults, currentFormHasChanges: (FormReference, PollingStationResults) -> bool,
                                   onScreen: FormValues, i: int)
    requires WellFormed(state) && 0 <= i < |state.sections| && state.sections[i].id == form.id
    requires FormSectionComplete(state.sections[i]) && state.active == state.current
    ensures ShouldBlockDecision(currentPath, nextPath, state, Some(form), values, currentFormHasChanges, onScreen) != Block
  {
    CompleteIffNoValidationReason(state, form, values, currentFormHasChanges, i);
  }

  // ---------------------------------------------------------------------------
  // Redirects

  /** The redirect effect on a new form state: when the active section lies
      after the current one, go to the current section's page. */
  function ActiveRedirect(state: FormState, electionId: int, pollingStationId: int): (url: Option<string>)
    ensures url.Some? ==> url.value == UrlForFormSection(electionId, pollingStationId, state.current)
    ensures url.Some? <==>
      (state.active in Keys(state.sections) && state.current in Keys(state.sections) &&
       IndexOf(Keys(state.sections), state.current) < IndexOf(Keys(state.sections), state.active))
  {
    var ks := Keys(state.sections);
    var activeIndex := IndexOf(ks, state.active);
    var currentIndex := IndexOf(ks, state.current);
    if activeIndex != -1 && currentIndex != -1 && activeIndex > currentIndex then
      Some(UrlForFormSection(electionId, pollingStationId, state.current))
    else None
  }

  /** In a well-formed state a redirect always has a page to go to, and once
      the current section is active again there is nothing to redirect. */
  lemma ActiveRedirectSettles(state: FormState, electionId: int, pollingStationId: int)
    requires WellFormed(state)
    ensures var url := ActiveRedirect(state, electionId, pollingStationId);
      url.Some? ==> url.value != ""
    ensures ActiveRedirect(state.(active := state.current), electionId, pollingStationId) == None
  {
    var ks := Keys(state.sections);
    var c := IndexOf(ks, state.current);
    SectionUrlNonEmpty(electionId, pollingStationId, state, c);
  }

  /** A response never causes a redirect that was not there before: it keeps
      `active` and moves `current` only forwards. */
  lemma ResponseCausesNoRedirect(state: FormState, errors: seq<ValidationResult>, warnings: seq<ValidationResult>,
                                 ignoreWarningsFor: Option<SectionId>, rootFieldSection: Option<string> -> FieldRoot,
                                 electionId: int, pollingStationId: int)
    requires WellFormed(state) && ActiveRedirect(state, electionId, pollingStationId) == None
    ensures ActiveRedirect(RespondTo(state, errors, warnings, ignoreWarningsFor, rootFieldSection), electionId, pollingStationId) == None
  {
    var ks := Keys(state.sections);
    RespondCurrentMonotone(state, errors, warnings, ignoreWarningsFor, rootFieldSection);
    RespondKeepsKeys(state, errors, warnings, ignoreWarningsFor, rootFieldSection);
  }

  /** What the target effect does: the URL to go to, if any, and the new last known section. */
  datatype TargetStep = TargetStep(navigateTo: Option<string>, lastKnownSection: Option<SectionId>)

  /** The effect on a new target: go there when it differs from the last known section. */
  function TargetRedirect(target: SectionId, lastKnownSection: Option<SectionId>, electionId: int, pollingStationId: int): (step: TargetStep)
    ensures target == "" ==> step == TargetStep(None, lastKnownSection)
    ensures target != "" ==> step.lastKnownSection == Some(target)
    ensures step.navigateTo.Some? <==> target != "" && lastKnownSection != Some(target)
    ensures step.navigateTo.Some? ==> step.navigateTo.value == UrlForFormSection(electionId, pollingStationId, target)
  {
    if target == "" then TargetStep(None, lastKnownSection)
    else if Some(target) != lastKnownSection then
      TargetStep(Some(UrlForFormSection(electionId, pollingStationId, target)), Some(target))
    else TargetStep(None, lastKnownSection)
  }

  /** The target effect is idempotent: run again on the same target it goes nowhere. */
  lemma TargetRedirectOnce(target: SectionId, lastKnownSection: Option<SectionId>, electionId: int, pollingStationId: int)
    ensures var first := TargetRedirect(target, lastKnownSection, electionId, pollingStationId);
      TargetRedirect(target, first.lastKnownSection, electionId, pollingStationId) == TargetStep(None, first.lastKnownSection)
  {
  }

  /** In a well-formed state whose target is `current`, a component that last
      knew another section goes to the page of `current`, which exists. */
  lemma TargetReachesCurrent(r: FormState, target: SectionId, lastKnown: SectionId, electionId: int, pollingStationId: int)
    requires WellFormed(r) && NextTarget(r, target) == r.current && lastKnown != r.current
    ensures var step := TargetRedirect(NextTarget(r, target), Some(lastKnown), electionId, pollingStationId);
      && step.navigateTo == Some(UrlForFormSection(electionId, pollingStationId, r.current))
      && step.navigateTo.value != ""
  {
    var c := IndexOf(Keys(r.sections), r.current);
    SectionUrlNonEmpty(electionId, pollingStationId, r, c);
  }

  /** The wizard moves on by itself: after a response that moves `current`
      on, the form-state effect does not redirect and records the old section,
      the target becomes the new `current`, and the target effect goes to the
      new section's page, which exists. */
  lemma AdvanceNavigatesToNewCurrent(state: FormState, errors: seq<ValidationResult>, warnings: seq<ValidationResult>,
                                     ignoreWarningsFor: Option<SectionId>, rootFieldSection: Option<string> -> FieldRoot,
                                     target: SectionId, electionId: int, pollingStationId: int)
    requires WellFormed(state)
    requires AdvancesOn(state, errors, warnings, ignoreWarningsFor, rootFieldSection)
    ensures var r := RespondTo(state, errors, warnings, ignoreWarningsFor, rootFieldSection);
      var newTarget := NextTarget(r, target);
      var step := TargetRedirect(newTarget, Some(r.active), electionId, pollingStationId);
      && ActiveRedirect(r, electionId, pollingStationId) == None
      && newTarget == r.current
      && step.navigateTo == Some(UrlForFormSection(electionId, pollingStationId, r.current))
      && step.navigateTo.value != ""
  {
    var r := RespondTo(state, errors, warnings, ignoreWarningsFor, rootFieldSection);
    AdvanceCompletesActive(state, errors, warnings, ignoreWarningsFor, rootFieldSection, target);
    ResponseCausesNoRedirect(state, errors, warnings, ignoreWarningsFor, rootFieldSection, electionId, pollingStationId);
    RespondKeepsKeys(state, errors, warnings, ignoreWarningsFor, rootFieldSection);
    RespondPreservesWellFormed(state, errors, warnings, ignoreWarningsFor, rootFieldSection);
    TargetReachesCurrent(r, target, r.active, electionId, pollingStationId);
  }

  /** The navigation component's own state: the last section it knows of. */
  class PollingStationFormNavigation {
    const electionId: int
    const pollingStationId: int
    /** useRef `_lastKnownSection`. */
    var lastKnownSection: Option<SectionId>

    constructor (electionId: int, pollingStationId: int)
      ensures this.electionId == electionId && this.pollingStationId == pollingStationId
      ensures lastKnownSection == None
    {
      this.electionId := electionId;
      this.pollingStationId := pollingStationId;
      lastKnownSection := None;
    }

    /** shouldBlock: decides on a route change, writing the controller's
        temporary cache when the edits are kept instead of blocking. */
    method ShouldBlock(controller: PollingStationFormController, currentPath: string, nextPath: string,
                       currentFormHasChanges: (FormReference, PollingStationResults) -> bool, onScreen: FormValues)
      returns (block: bool)
      modifies controller`temporaryCache
      ensures var d := ShouldBlockDecision(currentPath, nextPath, controller.formState, controller.currentForm,
                                           controller.values, currentFormHasChanges, onScreen);
        && block == (d == Block)
        && controller.temporaryCache == if d.CacheAndProceed? then Some(d.cache) else old(controller.temporaryCache)
    {
      if currentPath == nextPath {
        return false;
      }
      if controller.currentForm.None? {
        return false;
      }
      var form := controller.currentForm.value;
      var reason := ReasonBlocked(controller.formState, form, controller.values, currentFormHasChanges);
      if reason.Some? {
        if reason.value == ReasonChanges && controller.formState.active == controller.formState.current {
          var _ := controller.SetTemporaryCache(Some(TemporaryCache(form.id, onScreen)));
          return false;
        }
        return true;
      }
      return false;
    }

    /** The effect on a new form state: the redirect, if any, and the active
        section recorded as last known. */
    method OnFormStateChange(formState: FormState) returns (navigateTo: Option<string>)
      modifies this`lastKnownSection
      ensures navigateTo == ActiveRedirect(formState, electionId, pollingStationId)
      ensures lastKnownSection == Some(formState.active)
    {
      navigateTo := None;
      var ks := Keys(formState.sections);
      var activeIndex := IndexOf(ks, formState.active);
      var currentIndex := IndexOf(ks, formState.current);
      if activeIndex != -1 && currentIndex != -1 {
        if activeIndex > currentIndex {
          navigateTo := Some(UrlForFormSection(electionId, pollingStationId, formState.sections[currentIndex].id));
        }
      }
      lastKnownSection := Some(formState.active);
    }

    /** The effect on a new target section. */
    method OnTargetChange(targetFormSection: SectionId) returns (navigateTo: Option<string>)
      modifies this`lastKnownSection
      ensures TargetStep(navigateTo, lastKnownSection) ==
        TargetRedirect(targetFormSection, old(lastKnownSection), electionId, pollingStationId)
    {
      navigateTo := None;
      if targetFormSection == "" {
        return;
      }
      if Some(targetFormSection) != lastKnownSection {
        lastKnownSection := Some(targetFormSection);
        navigateTo := Some(UrlForFormSection(electionId, pollingStationId, targetFormSection));
      }
    }
  }
}
