/** The polling-station form controller: the state it keeps between renders
    (the form state, the draft values, the section to show next, the form on
    screen, the temporary cache and the one-shot ignore-warnings flag) and the
    steps that change it. Each React state update or effect body is one method
    here; the functions of FormSections say what each method computes. */
module PollingStationFormController {
  import opened Wrappers
  import opened DataEntryValues
  import opened FormSections

  /** What the initial form state is: both pointers on `voters_votes_counts`,
      no unknown results, only fresh sections with unique section-id keys
      among which are both fixed sections, and (for distinct party numbers)
      the keys in the order `voters_votes_counts`, `differences_counts`, then
      the parties' sections in election order. */
  predicate IsInitialFormState(state: FormState, groups: seq<PoliticalGroup>)
  {
    && state.current == VotersVotesCounts && state.active == VotersVotesCounts
    && state.unknown == UnknownResults([], [])
    && WellShapedSections(state.sections)
    && (DistinctNumbers(groups) ==> InElectionOrder(state.sections, groups))
  }

  /** The useState initialiser of the form state: the two fixed sections,
      then `result.sections[key] = …` for each party in election order. */
  method InitialFormState(election: Election) returns (result: FormState)
    ensures IsInitialFormState(result, election.politicalGroups)
  {
    var groups := election.politicalGroups;
    var sections := FixedSections;
    FixedSectionsWellShaped();
    var k := 0;
    while k < |groups|
      invariant 0 <= k <= |groups|
      invariant WellShapedSections(sections)
      invariant DistinctNumbers(groups) ==> InElectionOrder(sections, groups[..k])
    {
      PutPartyStep(groups, k, sections);
      sections := Put(sections, EmptySection(PoliticalGroupKey(groups[k].number)));
      k := k + 1;
    }
    assert groups[..k] == groups;
    result := FormState(VotersVotesCounts, VotersVotesCounts, sections, UnknownResults([], []));
  }

  class PollingStationFormController {
    const election: Election
    /** useState: the wizard's sections and pointers. */
    var formState: FormState
    /** useState: where to navigate to next. */
    var targetFormSection: SectionId
    /** useState: the draft results sent to the server. */
    var values: PollingStationResults
    /** useRef: the form on screen. */
    var currentForm: Option<FormReference>
    /** useRef: unvalidated edits of a section the user left. */
    var temporaryCache: Option<TemporaryCache>
    /** useRef `_ignoreWarnings`: the section whose next response ignores warnings. */
    var ignoreWarningsFor: Option<SectionId>
    /** useRef `_isCalled`: whether setValues has ever been called. */
    var isCalled: bool

    predicate Valid()
      reads this
    {
      WellFormed(formState)
    }

    /** The initial state: the form state built by InitialFormState, zero
        values, the first section as target, nothing registered, cached or
        flagged. */
    constructor (election: Election)
      ensures this.election == election
      ensures IsInitialFormState(formState, election.politicalGroups)
      ensures values == InitialValues(election)
      ensures targetFormSection == VotersVotesCounts
      ensures currentForm == None && temporaryCache == None && ignoreWarningsFor == None && !isCalled
      ensures Valid()
    {
      var initial := InitialFormState(election);
      WellShapedIsWellFormed(initial);
      this.election := election;
      formState := initial;
      values := InitialValues(election);
      targetFormSection := VotersVotesCounts;
      currentForm := None;
      temporaryCache := None;
      ignoreWarningsFor := None;
      isCalled := false;
    }

    /** setValues: flags that a request is due and spreads the new values over the old ones. */
    method SetValues(patch: ResultsPatch)
      modifies this`values, this`isCalled
      ensures isCalled
      ensures values == Merge(old(values), patch)
    {
      isCalled := true;
      values := Merge(values, patch);
    }

    /** setTemporaryCache: stores the cache (or clears it) and reports success. */
    method SetTemporaryCache(cache: Option<TemporaryCache>) returns (ok: bool)
      modifies this`temporaryCache
      ensures temporaryCache == cache
      ensures ok
    {
      temporaryCache := cache;
      ok := true;
    }

    /** resetErrorsAndWarnings: every section's lists and the unknown bucket are
        emptied, one section at a time. */
    method ResetErrorsAndWarnings()
      modifies this`formState
      ensures formState == ResetAll(old(formState))
    {
      var n := |formState.sections|;
      var i := 0;
      while i < n
        invariant 0 <= i <= n == |formState.sections|
        invariant formState.current == old(formState).current && formState.active == old(formState).active
        invariant formState.unknown == old(formState).unknown
        invariant forall j :: 0 <= j < i ==> formState.sections[j] == old(formState).sections[j].(errors := [], warnings := [])
        invariant forall j :: i <= j < n ==> formState.sections[j] == old(formState).sections[j]
      {
        var section := formState.sections[i];
        section := section.(errors := []);
        section := section.(warnings := []);
        formState := formState.(sections := formState.sections[i := section]);
        i := i + 1;
      }
      formState := formState.(unknown := formState.unknown.(errors := []));
      formState := formState.(unknown := formState.unknown.(warnings := []));
      assert formState.sections == ClearSections(old(formState).sections);
    }

    /** The body of addValidationResultToFormState's loop: the result is pushed
        onto the list of the given kind of the section its first field belongs
        to, onto the unknown bucket, or nowhere. */
    method PushValidationResult(validationResult: ValidationResult, target: Kind, rootFieldSection: Option<string> -> FieldRoot)
      requires HasFixedSections(formState)
      modifies this`formState
      ensures formState == AddOne(old(formState), validationResult, target, rootFieldSection)
    {
      var root := rootFieldSection(FirstField(validationResult));
      var ks := Keys(formState.sections);
      if root.name == "votes_counts" || root.name == "voters_counts" {
        var i := IndexOf(ks, VotersVotesCounts);
        formState := formState.(sections := formState.sections[i := formState.sections[i].Push(target, validationResult)]);
      } else if root.name == "differences_counts" {
        var i := IndexOf(ks, DifferencesCountsSection);
        formState := formState.(sections := formState.sections[i := formState.sections[i].Push(target, validationResult)]);
      } else if root.name == "political_group_votes" {
        if root.index.Some? {
          var i := IndexOf(ks, PoliticalGroupKey(root.index.value));
          if i != -1 {
            formState := formState.(sections := formState.sections[i := formState.sections[i].Push(target, validationResult)]);
          }
        }
      } else {
        formState := formState.(unknown := formState.unknown.Push(target, validationResult));
      }
    }

    /** addValidationResultToFormState: every result of the list, in order. */
    method AddValidationResultToFormState(arr: seq<ValidationResult>, target: Kind, rootFieldSection: Option<string> -> FieldRoot)
      requires HasFixedSections(formState)
      modifies this`formState
      ensures formState == AddAll(old(formState), arr, target, rootFieldSection)
    {
      var k := 0;
      while k < |arr|
        invariant 0 <= k <= |arr|
        invariant formState == AddAll(old(formState), arr[..k], target, rootFieldSection)
      {
        AddAllSnoc(old(formState), arr, k, target, rootFieldSection);
        PushValidationResult(arr[k], target, rootFieldSection);
        k := k + 1;
      }
      assert arr[..|arr|] == arr;
    }

    /** The effect of a server response: clear, distribute errors then
        warnings, then mark the active section saved, set its ignore-warnings
        flag from the one-shot flag and move `current` on when it is done. */
    method OnValidationResponse(errors: seq<ValidationResult>, warnings: seq<ValidationResult>,
                                rootFieldSection: Option<string> -> FieldRoot)
      requires Valid()
      modifies this`formState
      ensures formState == RespondTo(old(formState), errors, warnings, ignoreWarningsFor, rootFieldSection)
      ensures Valid()
    {
      RespondPreservesWellFormed(formState, errors, warnings, ignoreWarningsFor, rootFieldSection);
      ResetErrorsAndWarnings();
      AddValidationResultToFormState(errors, Errors, rootFieldSection);
      AddValidationResultToFormState(warnings, Warnings, rootFieldSection);
      var i := IndexOf(Keys(formState.sections), formState.active);
      if i != -1 {
        var activeFormSection := formState.sections[i].(isSaved := true);
        activeFormSection := activeFormSection.(ignoreWarnings := ignoreWarningsFor == Some(activeFormSection.id));
        formState := formState.(sections := formState.sections[i := activeFormSection]);
        if formState.current == activeFormSection.id {
          if |activeFormSection.errors| == 0 {
            if |activeFormSection.warnings| == 0 || activeFormSection.ignoreWarnings {
              var nextSectionId := GetNextSection(formState, activeFormSection.id);
              if nextSectionId.Some? {
                formState := formState.(current := nextSectionId.value);
              }
            }
          }
        }
      }
    }

    /** The effect that tells the wizard which section to show: `current`
        once the active section is complete. */
    method UpdateTargetFormSection()
      modifies this`targetFormSection
      ensures targetFormSection == NextTarget(formState, old(targetFormSection))
    {
      var i := IndexOf(Keys(formState.sections), formState.active);
      if i != -1 {
        if FormSectionComplete(formState.sections[i]) {
          targetFormSection := formState.current;
        }
      }
    }

    /** registerCurrentForm: a form other than the registered one becomes the
        form on screen and its section becomes active. */
    method RegisterCurrentForm(form: FormReference)
      requires Valid()
      modifies this`currentForm, this`formState
      ensures old(currentForm) == None || form.id != old(currentForm).value.id ==>
        currentForm == Some(form) && formState == old(formState).(active := form.id)
      ensures old(currentForm) != None && form.id == old(currentForm).value.id ==>
        currentForm == old(currentForm) && formState == old(formState)
      ensures Valid()
    {
      if currentForm == None || form.id != currentForm.value.id {
        currentForm := Some(form);
        if form.id != formState.active {
          formState := formState.(active := form.id);
        }
      }
    }

    /** submitCurrentForm: with a registered form, sets the one-shot flag to
        that form's section when warnings are to be ignored (and clears it
        otherwise), then merges what the form shows into the draft values. */
    method SubmitCurrentForm(ignoreWarnings: bool, onScreen: FormValues)
      requires currentForm.Some? ==> Conforms(currentForm.value, onScreen)
      modifies this`ignoreWarningsFor, this`values, this`isCalled
      ensures currentForm.None? ==>
        ignoreWarningsFor == old(ignoreWarningsFor) && values == old(values) && isCalled == old(isCalled)
      ensures currentForm.Some? ==>
        && ignoreWarningsFor == (if ignoreWarnings then Some(currentForm.value.id) else None)
        && values == SubmitUpdate(old(values), currentForm.value, onScreen)
        && isCalled
    {
      if currentForm.Some? {
        var ref := currentForm.value;
        ignoreWarningsFor := if ignoreWarnings then Some(ref.id) else None;
        MergeWholeReplaces(values, EmptyPatch);
        match ref.kind
        case PoliticalGroupVotesForm(number) =>
          SetValues(Whole(values.(politicalGroupVotes := ReplaceGroup(values.politicalGroupVotes, number, onScreen.group))));
        case _ =>
          SetValues(Whole(Merge(values, onScreen.patch)));
      }
    }
  }
}
