# Polling-station form wizard

This project models the client-side core of the polling-station data-entry wizard. Users enter
one polling station's election results section by section. A server validates the whole draft
after every submit, and its errors and warnings decide whether the wizard may move on.

The model covers two parts:

- The form controller (`PollingStationFormController.tsx`), in five modules:
  - `FormSections`: the form state as a value, the routing of validation results to sections,
    and the state change a validation response causes.
  - `PollingStationFormController`: the controller as a class with the source's state. Its
    fields are the form state, the target section, the draft values, the registered form, the
    temporary cache, the one-shot ignore-warnings flag and the "setValues was called" flag. One
    method per callback or effect body, with the loops of `resetErrorsAndWarnings`,
    `addValidationResultToFormState` and the initial-state builder.
  - `DataEntryValues`: the draft results and the two ways a submitted form is merged into them.
  - `Text`: the number rendering of `` `${n}` `` and `startsWith`.
  - `Wrappers`: `Option`.
- The navigation component (`PollingStationFormNavigation.tsx`), in `PollingStationFormNavigation`:
  - the URL of each section;
  - why leaving a section is blocked (`reasonBlocked`);
  - what the route blocker decides (`shouldBlock`);
  - the two redirect effects, as methods of a class that holds the last known section.

The section record of the source is a JavaScript object keyed by section id. Its key order is
insertion order, because no section id is an integer-like key. The model therefore keeps the
sections as a sequence, and each section's id is its key. Writing `sections[key] = …` replaces
an existing key in place and appends a new key at the end (`FormSections.Put`).

`rootFieldSection` (which section a field path belongs to) and `currentFormHasChanges` (whether
the form on screen differs from the draft) are defined elsewhere in the repository. Both are
function-typed parameters here, so every property holds for every possible implementation.
The value a form's `getValues()` returns is a parameter of the operations that use it.

## Notes on the code's behaviour

Some rules of the wizard are narrower than a quick reading suggests. The model follows the code:

- **Cached edits.** Edits are cached silently only while the active section is the current
  one. Elsewhere, unsaved edits block the route change like errors do.
- **Which section blocks.** Only the registered form's own section decides the block reason,
  not every section.
- **When `current` moves.** It moves only if it is itself the active section.
- **Form state sections.** The recount step and the save page are not sections of the form
  state. `recounted` appears only in the URL switch, and at the last section `current` stays
  where it is.

## Model

| member | source | states |
|---|---|---|
| Text.IntToString | frontend/lib/api/form/pollingstation/PollingStationFormController.tsx:167 | the rendering of a party number is non-empty and starts with a minus sign exactly when the number is negative |
| Text.NatToString | frontend/lib/api/form/pollingstation/PollingStationFormController.tsx:167 | the decimal rendering of a natural number: non-empty and digits only; different numbers give different strings (NatToStringInjective) |
| Text.StartsWith | frontend/app/component/pollingstation/PollingStationFormNavigation.tsx:41 | `startsWith`: the prefix is no longer than the text and equals its first characters |
| Text.NatToStringInjective | frontend/lib/api/form/pollingstation/PollingStationFormController.tsx:167 | different natural numbers render as different digit strings |
| Text.IntToStringInjective | frontend/lib/api/form/pollingstation/PollingStationFormController.tsx:167 | different party numbers render as different texts |
| DataEntryValues.MergeIsShallowOverride | frontend/lib/api/form/pollingstation/PollingStationFormController.tsx:213-222 | `{...old, ...new}`: a key in the patch wins, a missing key keeps its old value; merging nothing is the identity, merging twice is merging once, two merges are one merge of the combined patch |
| DataEntryValues.Merge | frontend/lib/api/form/pollingstation/PollingStationFormController.tsx:217-220 | `{...old, ...new}` on the four top-level result keys; its laws are MergeIsShallowOverride |
| DataEntryValues.MergeWholeReplaces | frontend/lib/api/form/pollingstation/PollingStationFormController.tsx:213-222 | setValues with a complete results object (an updater's result) replaces the values, so an updater `old => ({...old, ...p})` has the effect of merging `p` |
| DataEntryValues.ReplaceGroupOnlyMatching | frontend/lib/api/form/pollingstation/PollingStationFormController.tsx:309-314 | the `map` replaces exactly the entries whose party number matches and keeps every other entry at its position |
| DataEntryValues.ReplaceGroup | frontend/lib/api/form/pollingstation/PollingStationFormController.tsx:309-314 | the `map` over the party votes: same length; its laws are ReplaceGroupOnlyMatching and ReplaceGroupKeepsNumbers |
| DataEntryValues.ReplaceGroupKeepsNumbers | frontend/lib/api/form/pollingstation/PollingStationFormController.tsx:309-314 | replacing a party's votes by votes of the same party keeps the list of party numbers |
| DataEntryValues.SubmitUpdateChangesOnlyItsForm | frontend/lib/api/form/pollingstation/PollingStationFormController.tsx:305-325 | a party form changes only the matching party entries and no other result field; any other form is the shallow merge of its values |
| DataEntryValues.SubmitUpdate | frontend/lib/api/form/pollingstation/PollingStationFormController.tsx:305-325 | the two updaters of submitCurrentForm; what they change is SubmitUpdateChangesOnlyItsForm |
| DataEntryValues.ZeroCandidateVotes | frontend/lib/api/form/pollingstation/PollingStationFormController.tsx:183-186 | the zero votes of a party: one entry per candidate, with the candidate's number, in order; ZeroCandidateVotesSumZero is its law |
| DataEntryValues.InitialValues | frontend/lib/api/form/pollingstation/PollingStationFormController.tsx:179-209 | the zero draft: one entry per party in election order with zero votes per candidate, and every count zero; InitialTotalsMatchVotes and InitialPartySubmitReplacesOne are its laws |
| DataEntryValues.ZeroCandidateVotesSumZero | frontend/lib/api/form/pollingstation/PollingStationFormController.tsx:183-186 | a party's zero entries add up to zero votes |
| DataEntryValues.InitialTotalsMatchVotes | frontend/lib/api/form/pollingstation/PollingStationFormController.tsx:179-209 | in the initial draft every party's total equals the sum of its candidates' votes |
| DataEntryValues.InitialPartySubmitReplacesOne | frontend/lib/api/form/pollingstation/PollingStationFormController.tsx:309-314 | with distinct party numbers each party has exactly one initial entry: submitting party k's form replaces entry k and nothing else, whatever votes the form returns |
| FormSections.PoliticalGroupKeyDistinct | frontend/lib/api/form/pollingstation/PollingStationFormController.tsx:63-66 | a party key has the `political_group_votes_` shape, is neither fixed section id, and different party numbers give different keys |
| FormSections.PoliticalGroupKey | frontend/lib/api/form/pollingstation/PollingStationFormController.tsx:167 | `political_group_votes_${n}`; its laws are PoliticalGroupKeyDistinct |
| FormSections.IndexOf | frontend/lib/api/form/pollingstation/PollingStationFormController.tsx:405 | `indexOf`: -1 exactly when the key is absent, otherwise the first position holding it |
| FormSections.PutKeys | frontend/lib/api/form/pollingstation/PollingStationFormController.tsx:167 | assigning a section keeps keys unique; a new key is appended last, an existing key keeps its place |
| FormSections.Put | frontend/lib/api/form/pollingstation/PollingStationFormController.tsx:167-173 | `sections[key] = section` on an object: an existing key is replaced in place, a new key goes last; its laws are PutKeys |
| FormSections.FixedSectionsWellShaped | frontend/lib/api/form/pollingstation/PollingStationFormController.tsx:141-164 | the literal's sections are `voters_votes_counts` then `differences_counts`, fresh and with unique keys |
| FormSections.PutPartyWellShaped | frontend/lib/api/form/pollingstation/PollingStationFormController.tsx:166-174 | assigning a party's fresh section keeps keys unique, both fixed sections present and every section fresh with a section-id key |
| FormSections.PartyKeyIsNew | frontend/lib/api/form/pollingstation/PollingStationFormController.tsx:166-174 | with distinct party numbers, a party's key is none of the keys assigned before it |
| FormSections.PutPartyInOrder | frontend/lib/api/form/pollingstation/PollingStationFormController.tsx:166-174 | with distinct party numbers, assigning party k's section appends its key after the keys of the parties before it |
| FormSections.PutPartyStep | frontend/lib/api/form/pollingstation/PollingStationFormController.tsx:166-174 | one iteration of the `forEach` keeps the sections well shaped and, for distinct numbers, in election order |
| FormSections.WellShapedIsWellFormed | frontend/lib/api/form/pollingstation/PollingStationFormController.tsx:140-177 | the initial state meets the invariant every later state keeps |
| FormSections.FormSectionComplete | frontend/lib/api/form/pollingstation/PollingStationFormController.tsx:392-401 | complete exactly when saved, without errors, and without warnings or with warnings ignored |
| FormSections.GetNextSection | frontend/lib/api/form/pollingstation/PollingStationFormController.tsx:403-412 | no next section for an absent id; a next section is always a key |
| FormSections.NextSectionIsSuccessor | frontend/lib/api/form/pollingstation/PollingStationFormController.tsx:403-412 | with unique keys, the next section of the section at position i is the one at i + 1, and there is none after the last |
| FormSections.ResetAll | frontend/lib/api/form/pollingstation/PollingStationFormController.tsx:414-421 | every error and warning list is emptied, the unknown bucket too; keys, flags and pointers are unchanged |
| FormSections.Route | frontend/lib/api/form/pollingstation/PollingStationFormController.tsx:367-388 | voter and vote counts go to `voters_votes_counts`, differences to `differences_counts`, a party result to its existing party section or nowhere, anything else to the unknown bucket; each if and only if |
| FormSections.AddOneSection | frontend/lib/api/form/pollingstation/PollingStationFormController.tsx:366-389 | one result is pushed onto a section exactly when it is routed to that section's key |
| FormSections.AddOne | frontend/lib/api/form/pollingstation/PollingStationFormController.tsx:367-388 | one pass of the switch: keys, `current` and `active` are unchanged |
| FormSections.AddAll | frontend/lib/api/form/pollingstation/PollingStationFormController.tsx:366-389 | the `forEach` over a list: keys, `current` and `active` are unchanged |
| FormSections.AddAllSnoc | frontend/lib/api/form/pollingstation/PollingStationFormController.tsx:366 | `forEach` handles the results in order: k + 1 results are k results, then result k |
| FormSections.AddAllSection | frontend/lib/api/form/pollingstation/PollingStationFormController.tsx:366-389 | after a list is distributed, each section holds its old list followed by exactly the results routed to it, in input order; nothing else in it changes |
| FormSections.AddAllUnknown | frontend/lib/api/form/pollingstation/PollingStationFormController.tsx:385-387 | the unknown bucket gains exactly the results that match no section, in order; its other list is unchanged |
| FormSections.AddAllCount | frontend/lib/api/form/pollingstation/PollingStationFormController.tsx:366-389 | every result lands in one place or is dropped: the results held grow by the list's length less the dropped ones |
| FormSections.DistributedSection | frontend/lib/api/form/pollingstation/PollingStationFormController.tsx:235-240 | after clearing and distributing errors then warnings, a section's lists are exactly the errors and the warnings routed to it; its flags are unchanged |
| FormSections.Distributed | frontend/lib/api/form/pollingstation/PollingStationFormController.tsx:233-240 | reset, then errors, then warnings: keys, `current` and `active` are unchanged |
| FormSections.DistributedUnknown | frontend/lib/api/form/pollingstation/PollingStationFormController.tsx:233-240 | after distribution the unknown bucket holds exactly the errors and the warnings that match no section, in order |
| FormSections.MarkActiveKeys | frontend/lib/api/form/pollingstation/PollingStationFormController.tsx:243-249 | marking the active section keeps the keys and `active` |
| FormSections.MarkActive | frontend/lib/api/form/pollingstation/PollingStationFormController.tsx:243-262 | the active section is marked saved and `current` may move; its laws are MarkActiveKeys, MarkActiveSection and MarkActiveCurrent |
| FormSections.MarkActiveSection | frontend/lib/api/form/pollingstation/PollingStationFormController.tsx:243-249 | only the active section changes: it is saved, and its ignore-warnings flag is whether the one-shot flag names it |
| FormSections.MarkActiveCurrent | frontend/lib/api/form/pollingstation/PollingStationFormController.tsx:252-262 | `current` moves to the next key exactly when it is the active section, which has no errors, no or ignored warnings and is not last; otherwise it stays |
| FormSections.RespondSection | frontend/lib/api/form/pollingstation/PollingStationFormController.tsx:233-266 | what a response does to each section: the routed lists, and for the active section the saved flag and the ignore-warnings flag; keys and `active` stay |
| FormSections.RespondTo | frontend/lib/api/form/pollingstation/PollingStationFormController.tsx:230-266 | the whole response effect on the form state; its laws are the Respond lemmas |
| FormSections.RespondUnknown | frontend/lib/api/form/pollingstation/PollingStationFormController.tsx:236-240 | after a response the unknown bucket holds exactly the errors and the warnings that match no section, in order; the old ones are gone |
| FormSections.RespondMovesCurrent | frontend/lib/api/form/pollingstation/PollingStationFormController.tsx:252-262 | when no error and no unignored warning is routed to the active, current, not-last section, `current` moves to the next key |
| FormSections.RespondKeepsCurrent | frontend/lib/api/form/pollingstation/PollingStationFormController.tsx:252-262 | otherwise `current` stays |
| FormSections.RespondAdvancesCurrent | frontend/lib/api/form/pollingstation/PollingStationFormController.tsx:252-262 | both directions: a response moves `current` to the next section exactly when AdvancesOn holds, and leaves it otherwise |
| FormSections.RespondCurrentMonotone | frontend/lib/api/form/pollingstation/PollingStationFormController.tsx:252-262 | `current` never moves backwards and by at most one position, stays a key, and stays at the last section |
| FormSections.RespondKeepsKeys | frontend/lib/api/form/pollingstation/PollingStationFormController.tsx:233-266 | a response keeps the keys, in order, and `active` |
| FormSections.RespondKeepsSubmitted | frontend/lib/api/form/pollingstation/PollingStationFormController.tsx:233-266 | a response leaves every section's submitted flag as it was |
| FormSections.RespondPreservesWellFormed | frontend/lib/api/form/pollingstation/PollingStationFormController.tsx:233-266 | a response keeps the state invariant: unique section-id keys, both fixed sections, `current` a key, nothing submitted |
| FormSections.NextTarget | frontend/lib/api/form/pollingstation/PollingStationFormController.tsx:272-279 | the target becomes `current` or stays; it stays when the active section is absent |
| FormSections.NextTargetOfActive | frontend/lib/api/form/pollingstation/PollingStationFormController.tsx:272-279 | with unique keys, the target becomes `current` exactly when the active section is complete, and stays otherwise |
| FormSections.AdvanceSavesActiveComplete | frontend/lib/api/form/pollingstation/PollingStationFormController.tsx:243-262 | after a response that moves `current`, the section that was active is complete |
| FormSections.AdvanceCompletesActive | frontend/lib/api/form/pollingstation/PollingStationFormController.tsx:252-279 | after a response that moves `current`, the active section is complete, the target becomes the new `current`, and it differs from the old one |
| PollingStationFormController.InitialFormState | frontend/lib/api/form/pollingstation/PollingStationFormController.tsx:140-177 | the initial form state: both pointers on `voters_votes_counts`, empty unknown bucket, fresh sections with unique keys, and for distinct party numbers the keys in order fixed sections then parties in election order |
| PollingStationFormController.PollingStationFormController.constructor | frontend/lib/api/form/pollingstation/PollingStationFormController.tsx:128-211 | the initial form state, zero values, target `voters_votes_counts`, no form, no cache, no flag, setValues not yet called |
| PollingStationFormController.PollingStationFormController.SetValues | frontend/lib/api/form/pollingstation/PollingStationFormController.tsx:213-222 | flags that a request is due and merges the new values over the old ones |
| PollingStationFormController.PollingStationFormController.SetTemporaryCache | frontend/lib/api/form/pollingstation/PollingStationFormController.tsx:224-228 | stores the given cache or clears it, and reports success |
| PollingStationFormController.PollingStationFormController.ResetErrorsAndWarnings | frontend/lib/api/form/pollingstation/PollingStationFormController.tsx:414-421 | the loop leaves the form state equal to ResetAll of the old one |
| PollingStationFormController.PollingStationFormController.PushValidationResult | frontend/lib/api/form/pollingstation/PollingStationFormController.tsx:367-388 | the switch body pushes the result where Route sends it |
| PollingStationFormController.PollingStationFormController.AddValidationResultToFormState | frontend/lib/api/form/pollingstation/PollingStationFormController.tsx:361-390 | the loop leaves the form state equal to AddAll over the whole list |
| PollingStationFormController.PollingStationFormController.OnValidationResponse | frontend/lib/api/form/pollingstation/PollingStationFormController.tsx:230-269 | the response effect computes RespondTo of the old state and keeps the state invariant |
| PollingStationFormController.PollingStationFormController.UpdateTargetFormSection | frontend/lib/api/form/pollingstation/PollingStationFormController.tsx:272-279 | the target becomes `current` once the active section is complete |
| PollingStationFormController.PollingStationFormController.RegisterCurrentForm | frontend/lib/api/form/pollingstation/PollingStationFormController.tsx:281-295 | a form other than the registered one becomes the form on screen and its section becomes active; registering the same form again changes nothing; the invariant is kept |
| PollingStationFormController.PollingStationFormController.SubmitCurrentForm | frontend/lib/api/form/pollingstation/PollingStationFormController.tsx:297-329 | with no form, nothing changes; with a form, the one-shot flag names its section exactly when warnings are ignored, and its values are merged into the draft |
| PollingStationFormNavigation.BaseUrl | frontend/app/component/pollingstation/PollingStationFormNavigation.tsx:39 | the base URL is an absolute path |
| PollingStationFormNavigation.UrlForFormSection | frontend/app/component/pollingstation/PollingStationFormNavigation.tsx:37-60 | the URL is empty exactly for an id the switch does not know; otherwise it starts with the base URL |
| PollingStationFormNavigation.UrlOfEachSection | frontend/app/component/pollingstation/PollingStationFormNavigation.tsx:41-54 | a party section's page is `list/` followed by its number; the fixed sections go to `numbers` and `differences`, and `recounted` to its own page |
| PollingStationFormNavigation.SectionUrlNonEmpty | frontend/app/component/pollingstation/PollingStationFormNavigation.tsx:37-60 | every section of a well-formed state has a page |
| PollingStationFormNavigation.UrlInjective | frontend/app/component/pollingstation/PollingStationFormNavigation.tsx:37-60 | two ids with the same non-empty URL are the same id |
| PollingStationFormNavigation.ReasonBlocked | frontend/app/component/pollingstation/PollingStationFormNavigation.tsx:163-182 | no reason for a form without a section; "errors" only when that section has errors |
| PollingStationFormNavigation.ReasonPriority | frontend/app/component/pollingstation/PollingStationFormNavigation.tsx:168-181 | each reason if and only if its condition holds: errors first, then unignored warnings, then edits of a section that is not submitted; ignored warnings never block |
| PollingStationFormNavigation.CompleteIffNoValidationReason | frontend/app/component/pollingstation/PollingStationFormNavigation.tsx:168-181 | a saved section is complete exactly when it is blocked by nothing or by edits only |
| PollingStationFormNavigation.AdvanceClearsValidationReason | frontend/app/component/pollingstation/PollingStationFormNavigation.tsx:163-182 | after a response that moves `current`, the active form is blocked by nothing but edits |
| PollingStationFormNavigation.ShouldBlockDecision | frontend/app/component/pollingstation/PollingStationFormNavigation.tsx:62-88 | a change within one path or without a form proceeds; a cache written is the form's id and values |
| PollingStationFormNavigation.BlockingRules | frontend/app/component/pollingstation/PollingStationFormNavigation.tsx:73-85 | errors and warnings block; edits are cached on the current section and block elsewhere; no reason exactly when the change proceeds unconditionally |
| PollingStationFormNavigation.CompleteCurrentNeverBlocks | frontend/app/component/pollingstation/PollingStationFormNavigation.tsx:73-85 | on the current section, a complete section never blocks |
| PollingStationFormNavigation.ActiveRedirect | frontend/app/component/pollingstation/PollingStationFormNavigation.tsx:92-102 | redirect to the current section's page exactly when both sections exist and the active one lies after the current one |
| PollingStationFormNavigation.ActiveRedirectSettles | frontend/app/component/pollingstation/PollingStationFormNavigation.tsx:92-102 | in a well-formed state a redirect has a page, and once the current section is active there is none |
| PollingStationFormNavigation.ResponseCausesNoRedirect | frontend/app/component/pollingstation/PollingStationFormNavigation.tsx:92-102 | a response never creates a redirect that was not there before |
| PollingStationFormNavigation.TargetRedirect | frontend/app/component/pollingstation/PollingStationFormNavigation.tsx:104-112 | go to a non-empty target exactly when it differs from the last known section, recording it |
| PollingStationFormNavigation.TargetRedirectOnce | frontend/app/component/pollingstation/PollingStationFormNavigation.tsx:104-112 | the target effect run again on the same target goes nowhere |
| PollingStationFormNavigation.TargetReachesCurrent | frontend/app/component/pollingstation/PollingStationFormNavigation.tsx:104-112 | a target equal to `current`, new to the component, leads to the page of `current`, which exists |
| PollingStationFormNavigation.AdvanceNavigatesToNewCurrent | frontend/app/component/pollingstation/PollingStationFormNavigation.tsx:92-112 | after a response that moves `current`, no redirect happens, and the target effect goes to the new section's page, which exists |
| PollingStationFormNavigation.PollingStationFormNavigation.constructor | frontend/app/component/pollingstation/PollingStationFormNavigation.tsx:24 | no last known section at first |
| PollingStationFormNavigation.PollingStationFormNavigation.ShouldBlock | frontend/app/component/pollingstation/PollingStationFormNavigation.tsx:62-88 | blocks exactly when the decision is Block, and writes the controller's cache exactly when the decision is to cache |
| PollingStationFormNavigation.PollingStationFormNavigation.OnFormStateChange | frontend/app/component/pollingstation/PollingStationFormNavigation.tsx:92-102 | returns ActiveRedirect of the new state and records the active section |
| PollingStationFormNavigation.PollingStationFormNavigation.OnTargetChange | frontend/app/component/pollingstation/PollingStationFormNavigation.tsx:104-112 | returns and records what TargetRedirect prescribes |

## Left out

- React's scheduling is not modelled. Each state-updater callback and each effect body is one atomic method, and re-render order is not modelled.
- The save request (the effect that calls `doRequest` once setValues has been called) is not modelled. Nor are `loading`, `error` and `data`. A response enters as the `errors` and `warnings` lists of `OnValidationResponse`.
- `rootFieldSection` and `currentFormHasChanges` are not part of this model. They are parameters, so nothing is assumed about them.
- The router (`useBlocker`, `useNavigate`) and the modal markup are not modelled. Navigating means returning a URL, and a route change is a pair of path names.
- The `console.log` when the last section is finished is not modelled.
- `recounted` is modelled only in the URL switch, because the form state has no such section.
- Aliasing is not modelled. The source copies the state shallowly (`{ ...old }`) and then mutates the shared section objects. The model builds a new state value, which is what React renders.
- Number rendering covers integers only. JavaScript's rendering of non-integer or huge numbers is not modelled.
- `isSubmitted` is a section field that the source reads but never sets. It is modelled as a field that starts false and stays false.
- PollingStationFormController.InitialFormState: the key order is stated only for distinct party numbers. With repeated numbers a later party overwrites an earlier one's section, and the model states only that keys stay unique.
- PollingStationFormController.PollingStationFormController.SubmitCurrentForm: requires that a party form's `getValues()` returns one party's votes and that every other form returns a patch of top-level result keys. The patch itself is left free. The differences form is declared to return the inner counts object (PollingStationFormController.tsx:32-35). Spreading that object sets none of the four top-level keys, so it is the empty patch here and leaves the draft as it was. The seven stray `*_count` keys that such a spread would add are not modelled.
- DataEntryValues.ResultsPatch carries only the four top-level result keys. The source's `default:` branch spreads whatever keys `getValues()` returns, such as a `recounted` flag, and such extra keys are not modelled.
- PollingStationFormNavigation.ActiveRedirect: the redirect effect compares `activeSection.index` with `currentSection.index` (PollingStationFormNavigation.tsx:96), but a section declares no `index` field. As written both are `undefined`, the comparison is false and the redirect never fires. The model reads `index` as the section's position in section order, which is what the comparison evidently means; ActiveRedirect and the lemmas about it rest on that reading.
