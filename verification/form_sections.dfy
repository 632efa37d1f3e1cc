/** The form wizard's state as a value: the ordered sections, the `current`
    and `active` pointers and the bucket for validation results that match no
    section, with the pure rules of the form controller that act on it:
    where a validation result goes, which section follows which, when a
    section is complete, and the whole state change a validation response
    causes. The section record of the source is a JavaScript object keyed by
    section id; its key order is insertion order (no id is an integer-like
    key), so it is a sequence of sections here, the id of each being its key. */
module FormSections {
  import opened Wrappers
  import opened Text
  import opened DataEntryValues

  type SectionId = string

  const VotersVotesCounts: SectionId := "voters_votes_counts"
  const DifferencesCountsSection: SectionId := "differences_counts"
  const PoliticalGroupPrefix: string := "political_group_votes_"

  /** `political_group_votes_${n}`. */
  function PoliticalGroupKey(n: int): SectionId
  {
    PoliticalGroupPrefix + IntToString(n)
  }

  /** The shapes the type FormSectionID allows. */
  predicate IsFormSectionId(id: SectionId)
  {
    id == VotersVotesCounts || id == DifferencesCountsSection || StartsWith(id, PoliticalGroupPrefix)
  }

  /** A party key is never one of the two fixed section ids, and different
      party numbers give different keys. */
  lemma PoliticalGroupKeyDistinct(n: int, m: int)
    ensures PoliticalGroupKey(n) != VotersVotesCounts
    ensures PoliticalGroupKey(n) != DifferencesCountsSection
    ensures StartsWith(PoliticalGroupKey(n), PoliticalGroupPrefix)
    ensures PoliticalGroupKey(n) == PoliticalGroupKey(m) ==> n == m
  {
    assert PoliticalGroupKey(n)[0] == 'p';
    if PoliticalGroupKey(n) == PoliticalGroupKey(m) {
      assert IntToString(n) == PoliticalGroupKey(n)[|PoliticalGroupPrefix|..] == IntToString(m);
      IntToStringInjective(n, m);
    }
  }

  /** A validation result of the server: a code and the field paths it is about. */
  datatype ValidationResult = ValidationResult(code: string, fields: seq<string>)

  /** What `rootFieldSection` makes of a field path: the root name and, for a
      list such as `political_group_votes[2].total`, the index. */
  datatype FieldRoot = FieldRoot(name: string, index: Option<int>)

  /** `validationResult.fields[0]`, `None` standing for `undefined`. */
  function FirstField(r: ValidationResult): Option<string>
  {
    if |r.fields| > 0 then Some(r.fields[0]) else None
  }

  /** The two lists of a section: errors or warnings. */
  datatype Kind = Errors | Warnings

  datatype FormSection = FormSection(
    id: SectionId,
    isSaved: bool,
    ignoreWarnings: bool,
    errors: seq<ValidationResult>,
    warnings: seq<ValidationResult>,
    isSubmitted: bool)
  {
    function Results(kind: Kind): seq<ValidationResult>
    {
      match kind
      case Errors => errors
      case Warnings => warnings
    }

    /** The list of the given kind extended by `extra`. */
    function Append(kind: Kind, extra: seq<ValidationResult>): FormSection
    {
      match kind
      case Errors => this.(errors := errors + extra)
      case Warnings => this.(warnings := warnings + extra)
    }

    function Push(kind: Kind, r: ValidationResult): FormSection
    {
      Append(kind, [r])
    }
  }

  /** A section as the controller creates it: not saved, nothing to show. */
  function EmptySection(id: SectionId): FormSection
  {
    FormSection(id, false, false, [], [], false)
  }

  datatype UnknownResults = UnknownResults(errors: seq<ValidationResult>, warnings: seq<ValidationResult>)
  {
    function Results(kind: Kind): seq<ValidationResult>
    {
      match kind
      case Errors => errors
      case Warnings => warnings
    }

    function Push(kind: Kind, r: ValidationResult): UnknownResults
    {
      match kind
      case Errors => this.(errors := errors + [r])
      case Warnings => this.(warnings := warnings + [r])
    }
  }

  datatype FormState = FormState(
    current: SectionId,
    active: SectionId,
    sections: seq<FormSection>,
    unknown: UnknownResults)

  /** `Object.keys(formState.sections)`. */
  function Keys(sections: seq<FormSection>): (ks: seq<SectionId>)
    ensures |ks| == |sections|
    ensures forall i :: 0 <= i < |sections| ==> ks[i] == sections[i].id
  {
    seq(|sections|, i requires 0 <= i < |sections| => sections[i].id)
  }

  predicate Distinct(ks: seq<SectionId>)
  {
    forall i, j :: 0 <= i < j < |ks| ==> ks[i] != ks[j]
  }

  /** `keys.indexOf(k)`: the first position of `k`, or -1 when it is absent. */
  function IndexOf(ks: seq<SectionId>, k: SectionId): (i: int)
    ensures -1 <= i < |ks|
    ensures i == -1 <==> k !in ks
    ensures 0 <= i ==> ks[i] == k && forall j :: 0 <= j < i ==> ks[j] != k
  {
    if |ks| == 0 then -1
    else if ks[0] == k then 0
    else
      var j := IndexOf(ks[1..], k);
      if j == -1 then -1 else j + 1
  }

  /** In a list without repeated keys, the position of a key is where it stands. */
  lemma IndexOfDistinct(ks: seq<SectionId>, i: int)
    requires Distinct(ks) && 0 <= i < |ks|
    ensures IndexOf(ks, ks[i]) == i
  {
  }

  /** The invariant every reachable form state keeps: unique keys, both fixed
      sections present, every key shaped as a section id, `current` a key, and
      no section marked submitted (the source never sets that flag). */
  predicate WellFormed(state: FormState)
  {
    var ks := Keys(state.sections);
    && Distinct(ks)
    && VotersVotesCounts in ks
    && DifferencesCountsSection in ks
    && (forall i :: 0 <= i < |ks| ==> IsFormSectionId(ks[i]))
    && state.current in ks
    && (forall i :: 0 <= i < |state.sections| ==> !state.sections[i].isSubmitted)
  }

  // ---------------------------------------------------------------------------
  // The initial state

  /** `sections[s.id] = s` on a JavaScript object: an existing key keeps its
      place and gets the new value, a new key goes last. */
  function Put(sections: seq<FormSection>, s: FormSection): (r: seq<FormSection>)
  {
    var i := IndexOf(Keys(sections), s.id);
    if i == -1 then sections + [s] else sections[i := s]
  }

  /** Putting a section keeps the keys unique; it adds the key at the end
      exactly when it was new. */
  lemma PutKeys(sections: seq<FormSection>, s: FormSection)
    requires Distinct(Keys(sections))
    ensures Distinct(Keys(Put(sections, s)))
    ensures s.id !in Keys(sections) ==> Keys(Put(sections, s)) == Keys(sections) + [s.id]
    ensures s.id in Keys(sections) ==> Keys(Put(sections, s)) == Keys(sections)
  {
    var ks := Keys(sections);
    var r := Put(sections, s);
    if s.id !in ks {
      assert Keys(r) == ks + [s.id];
    } else {
      assert Keys(r) == ks;
    }
  }

  /** The two sections every form state starts with, before the parties' sections are put. */
  const FixedSections: seq<FormSection> := [EmptySection(VotersVotesCounts), EmptySection(DifferencesCountsSection)]

  /** The section ids of the parties, in election order. */
  function PartyKeys(groups: seq<PoliticalGroup>): (ks: seq<SectionId>)
    ensures |ks| == |groups|
    ensures forall i :: 0 <= i < |groups| ==> ks[i] == PoliticalGroupKey(groups[i].number)
  {
    seq(|groups|, i requires 0 <= i < |groups| => PoliticalGroupKey(groups[i].number))
  }

  /** Every section is as the controller creates it and has a section-id key. */
  predicate AllFreshSections(ss: seq<FormSection>)
  {
    forall i :: 0 <= i < |ss| ==> ss[i] == EmptySection(ss[i].id) && IsFormSectionId(ss[i].id)
  }

  lemma PutFresh(ss: seq<FormSection>, id: SectionId)
    requires AllFreshSections(ss) && IsFormSectionId(id)
    ensures AllFreshSections(Put(ss, EmptySection(id)))
  {
  }

  /** What holds at every step of building the initial sections: unique keys,
      both fixed sections, and only fresh sections with section-id keys. */
  predicate WellShapedSections(ss: seq<FormSection>)
  {
    Distinct(Keys(ss)) && VotersVotesCounts in Keys(ss) && DifferencesCountsSection in Keys(ss) && AllFreshSections(ss)
  }

  /** The keys are `voters_votes_counts`, `differences_counts`, then the given parties' keys in order. */
  predicate InElectionOrder(ss: seq<FormSection>, groups: seq<PoliticalGroup>)
  {
    Keys(ss) == [VotersVotesCounts, DifferencesCountsSection] + PartyKeys(groups)
  }

  lemma FixedSectionsWellShaped()
    ensures InElectionOrder(FixedSections, [])
    ensures WellShapedSections(FixedSections)
  {
    assert VotersVotesCounts[0] != DifferencesCountsSection[0];
    assert Keys(FixedSections) == [VotersVotesCounts, DifferencesCountsSection];
  }

  lemma PartyKeyIsSectionId(n: int)
    ensures IsFormSectionId(PoliticalGroupKey(n))
  {
    PoliticalGroupKeyDistinct(n, n);
  }

  /** With distinct party numbers, a party's key is not among the keys of the parties before it. */
  lemma PartyKeyNotEarlier(groups: seq<PoliticalGroup>, k: nat)
    requires k < |groups| && DistinctNumbers(groups)
    ensures PoliticalGroupKey(groups[k].number) !in PartyKeys(groups[..k])
  {
    var earlier := PartyKeys(groups[..k]);
    forall g | 0 <= g < k
      ensures earlier[g] != PoliticalGroupKey(groups[k].number)
    {
      assert earlier[g] == PoliticalGroupKey(groups[g].number);
      PoliticalGroupKeyDistinct(groups[g].number, groups[k].number);
    }
  }

  /** A party key is none of the keys put before it when party numbers are distinct. */
  lemma PartyKeyIsNew(groups: seq<PoliticalGroup>, k: nat, ks: seq<SectionId>)
    requires k < |groups| && DistinctNumbers(groups)
    requires ks == [VotersVotesCounts, DifferencesCountsSection] + PartyKeys(groups[..k])
    ensures PoliticalGroupKey(groups[k].number) !in ks
  {
    PoliticalGroupKeyDistinct(groups[k].number, groups[k].number);
    PartyKeyNotEarlier(groups, k);
  }

  /** The party keys of one more party are the earlier ones followed by its key. */
  lemma PartyKeysSnoc(groups: seq<PoliticalGroup>, k: nat)
    requires k < |groups|
    ensures [VotersVotesCounts, DifferencesCountsSection] + PartyKeys(groups[..k + 1]) ==
            ([VotersVotesCounts, DifferencesCountsSection] + PartyKeys(groups[..k])) + [PoliticalGroupKey(groups[k].number)]
  {
    assert PartyKeys(groups[..k + 1]) == PartyKeys(groups[..k]) + [PoliticalGroupKey(groups[k].number)];
  }

  /** Putting a party's section (`result.sections[key] = …`) keeps the sections well shaped. */
  lemma PutPartyWellShaped(prev: seq<FormSection>, n: int)
    requires WellShapedSections(prev)
    ensures WellShapedSections(Put(prev, EmptySection(PoliticalGroupKey(n))))
  {
    PutKeys(prev, EmptySection(PoliticalGroupKey(n)));
    PartyKeyIsSectionId(n);
    PutFresh(prev, PoliticalGroupKey(n));
  }

  /** When party numbers are distinct, putting the section of party `k`
      appends its key after the keys of the parties before it. */
  lemma PutPartyInOrder(groups: seq<PoliticalGroup>, k: nat, prev: seq<FormSection>)
    requires k < |groups| && DistinctNumbers(groups) && Distinct(Keys(prev))
    requires InElectionOrder(prev, groups[..k])
    ensures InElectionOrder(Put(prev, EmptySection(PoliticalGroupKey(groups[k].number))), groups[..k + 1])
  {
    PartyKeyIsNew(groups, k, Keys(prev));
    PutKeys(prev, EmptySection(PoliticalGroupKey(groups[k].number)));
    PartyKeysSnoc(groups, k);
  }

  /** One step of building the initial sections: putting party `k`'s section
      keeps them well shaped and, for distinct party numbers, in election order. */
  lemma PutPartyStep(groups: seq<PoliticalGroup>, k: nat, prev: seq<FormSection>)
    requires k < |groups| && WellShapedSections(prev)
    requires DistinctNumbers(groups) ==> InElectionOrder(prev, groups[..k])
    ensures WellShapedSections(Put(prev, EmptySection(PoliticalGroupKey(groups[k].number))))
    ensures DistinctNumbers(groups) ==> InElectionOrder(Put(prev, EmptySection(PoliticalGroupKey(groups[k].number))), groups[..k + 1])
  {
    PutPartyWellShaped(prev, groups[k].number);
    if DistinctNumbers(groups) {
      PutPartyInOrder(groups, k, prev);
    }
  }

  /** Well-shaped sections with `current` among the keys make a well-formed state. */
  lemma WellShapedIsWellFormed(state: FormState)
    requires WellShapedSections(state.sections) && state.current in Keys(state.sections)
    ensures WellFormed(state)
  {
  }

  // ---------------------------------------------------------------------------
  // Completeness and order

  /** formSectionComplete: saved, without errors, and without warnings unless
      they are ignored. */
  function FormSectionComplete(section: FormSection): (complete: bool)
    ensures complete <==>
      section.isSaved && |section.errors| == 0 && (|section.warnings| == 0 || section.ignoreWarnings)
  {
    if section.isSaved then
      if |section.errors| == 0 then
        |section.warnings| == 0 || section.ignoreWarnings
      else false
    else false
  }

  /** getNextSection: the key after the given one, `None` when it is last or absent. */
  function GetNextSection(state: FormState, id: SectionId): (next: Option<SectionId>)
    ensures id !in Keys(state.sections) ==> next.None?
    ensures next.Some? ==> next.value in Keys(state.sections)
  {
    var ks := Keys(state.sections);
    var i := IndexOf(ks, id);
    if i != -1 && i + 1 < |ks| then Some(ks[i + 1]) else None
  }

  /** With unique keys, the next section of the key at position i is the key
      at position i + 1, and there is none after the last. */
  lemma NextSectionIsSuccessor(state: FormState, i: int)
    requires Distinct(Keys(state.sections)) && 0 <= i < |state.sections|
    ensures GetNextSection(state, state.sections[i].id) ==
      if i + 1 < |state.sections| then Some(state.sections[i + 1].id) else None
  {
    IndexOfDistinct(Keys(state.sections), i);
  }

  // ---------------------------------------------------------------------------
  // Clearing and distributing validation results

  function ClearSections(sections: seq<FormSection>): (r: seq<FormSection>)
    ensures |r| == |sections|
    ensures forall i :: 0 <= i < |r| ==> r[i] == sections[i].(errors := [], warnings := [])
  {
    seq(|sections|, i requires 0 <= i < |sections| => sections[i].(errors := [], warnings := []))
  }

  /** resetErrorsAndWarnings: every list emptied; ids, flags and pointers unchanged. */
  function ResetAll(state: FormState): (r: FormState)
    ensures Keys(r.sections) == Keys(state.sections)
    ensures r.current == state.current && r.active == state.active
    ensures forall i :: 0 <= i < |r.sections| ==>
      r.sections[i].errors == [] && r.sections[i].warnings == [] &&
      r.sections[i].isSaved == state.sections[i].isSaved &&
      r.sections[i].ignoreWarnings == state.sections[i].ignoreWarnings &&
      r.sections[i].isSubmitted == state.sections[i].isSubmitted
    ensures r.unknown.errors == [] && r.unknown.warnings == []
  {
    state.(sections := ClearSections(state.sections), unknown := UnknownResults([], []))
  }

  /** Where a validation result goes. */
  datatype Destination = ToSection(id: SectionId) | ToUnknown | Dropped

  /** The switch on the root of a result's first field. Voter and vote counts
      go to `voters_votes_counts`, differences to `differences_counts`, a party
      result to its party's section when it has an index and that section
      exists (otherwise it is dropped), anything else to the unknown bucket. */
  function Route(ids: seq<SectionId>, root: FieldRoot): (d: Destination)
    ensures d == ToSection(VotersVotesCounts) <==> root.name == "votes_counts" || root.name == "voters_counts"
    ensures d == ToSection(DifferencesCountsSection) <==> root.name == "differences_counts"
    ensures d.Dropped? <==>
      root.name == "political_group_votes" && (root.index.None? || PoliticalGroupKey(root.index.value) !in ids)
    ensures d.ToUnknown? <==>
      root.name !in {"votes_counts", "voters_counts", "differences_counts", "political_group_votes"}
    ensures d.ToSection? && d.id != VotersVotesCounts && d.id != DifferencesCountsSection ==>
      root.name == "political_group_votes" && root.index.Some? &&
      d.id == PoliticalGroupKey(root.index.value) && d.id in ids
  {
    if root.name == "votes_counts" || root.name == "voters_counts" then ToSection(VotersVotesCounts)
    else if root.name == "differences_counts" then ToSection(DifferencesCountsSection)
    else if root.name == "political_group_votes" then
      if root.index.Some? then
        var key := PoliticalGroupKey(root.index.value);
        PoliticalGroupKeyDistinct(root.index.value, root.index.value);
        if key in ids then ToSection(key) else Dropped
      else Dropped
    else ToUnknown
  }

  function RouteOf(ids: seq<SectionId>, rootFieldSection: Option<string> -> FieldRoot, r: ValidationResult): Destination
  {
    Route(ids, rootFieldSection(FirstField(r)))
  }

  predicate HasFixedSections(state: FormState)
  {
    VotersVotesCounts in Keys(state.sections) && DifferencesCountsSection in Keys(state.sections)
  }

  /** One step of addValidationResultToFormState: push one result onto the list of its destination. */
  function AddOne(state: FormState, r: ValidationResult, kind: Kind, rootFieldSection: Option<string> -> FieldRoot): (s: FormState)
    requires HasFixedSections(state)
    ensures Keys(s.sections) == Keys(state.sections)
    ensures s.current == state.current && s.active == state.active
  {
    var ks := Keys(state.sections);
    match RouteOf(ks, rootFieldSection, r)
    case ToSection(key) =>
      var i := IndexOf(ks, key);
      if i == -1 then state
      else
        var s := state.(sections := state.sections[i := state.sections[i].Push(kind, r)]);
        assert Keys(s.sections) == ks;
        s
    case ToUnknown => state.(unknown := state.unknown.Push(kind, r))
    case Dropped => state
  }

  /** addValidationResultToFormState: every result of the list, in order. */
  function AddAll(state: FormState, rs: seq<ValidationResult>, kind: Kind, rootFieldSection: Option<string> -> FieldRoot): (s: FormState)
    requires HasFixedSections(state)
    ensures Keys(s.sections) == Keys(state.sections)
    ensures s.current == state.current && s.active == state.active
    decreases |rs|
  {
    if rs == [] then state
    else AddOne(AddAll(state, rs[..|rs| - 1], kind, rootFieldSection), rs[|rs| - 1], kind, rootFieldSection)
  }

  /** Adding the first `k + 1` results of a list is adding the first `k`, then result `k`. */
  lemma AddAllSnoc(state: FormState, rs: seq<ValidationResult>, k: int, kind: Kind, rootFieldSection: Option<string> -> FieldRoot)
    requires HasFixedSections(state) && 0 <= k < |rs|
    ensures AddAll(state, rs[..k + 1], kind, rootFieldSection) == AddOne(AddAll(state, rs[..k], kind, rootFieldSection), rs[k], kind, rootFieldSection)
  {
    assert rs[..k + 1][..k] == rs[..k];
  }

  /** The results of a list that go to a destination, in their input order. */
  function RoutedTo(rs: seq<ValidationResult>, ids: seq<SectionId>, rootFieldSection: Option<string> -> FieldRoot, d: Destination): (routed: seq<ValidationResult>)
    ensures |routed| <= |rs|
    decreases |rs|
  {
    if rs == [] then []
    else
      RoutedTo(rs[..|rs| - 1], ids, rootFieldSection, d) +
      (if RouteOf(ids, rootFieldSection, rs[|rs| - 1]) == d then [rs[|rs| - 1]] else [])
  }

  /** One step of the distribution: a section receives the result exactly
      when the result is routed to that section's key. */
  lemma AddOneSection(state: FormState, r: ValidationResult, kind: Kind, rootFieldSection: Option<string> -> FieldRoot, j: int)
    requires HasFixedSections(state) && Distinct(Keys(state.sections)) && 0 <= j < |state.sections|
    ensures AddOne(state, r, kind, rootFieldSection).sections[j] ==
      if RouteOf(Keys(state.sections), rootFieldSection, r) == ToSection(state.sections[j].id)
      then state.sections[j].Push(kind, r) else state.sections[j]
  {
    var ks := Keys(state.sections);
    var d := RouteOf(ks, rootFieldSection, r);
    if d.ToSection? {
      var i := IndexOf(ks, d.id);
      if i != j && i != -1 {
        assert ks[i] != ks[j];
      }
    }
  }

  lemma AppendPush(section: FormSection, kind: Kind, before: seq<ValidationResult>, r: ValidationResult)
    ensures section.Append(kind, before).Push(kind, r) == section.Append(kind, before + [r])
  {
  }

  /** One more result keeps a section's list equal to its old list followed by
      the results routed to it. */
  lemma AddOneAfter(section: FormSection, mid: FormState, r: ValidationResult, kind: Kind,
                    rootFieldSection: Option<string> -> FieldRoot, j: int, before: seq<ValidationResult>)
    requires HasFixedSections(mid) && Distinct(Keys(mid.sections)) && 0 <= j < |mid.sections|
    requires mid.sections[j] == section.Append(kind, before)
    ensures AddOne(mid, r, kind, rootFieldSection).sections[j] ==
      section.Append(kind, before + if RouteOf(Keys(mid.sections), rootFieldSection, r) == ToSection(mid.sections[j].id) then [r] else [])
  {
    AddOneSection(mid, r, kind, rootFieldSection, j);
    if RouteOf(Keys(mid.sections), rootFieldSection, r) == ToSection(mid.sections[j].id) {
      AppendPush(section, kind, before, r);
    } else {
      assert before + [] == before;
    }
  }

  /** After distributing a list of results, each section has its old list of
      that kind followed by exactly the results routed to it, in input order;
      its other list, its id and its flags are unchanged. */
  lemma {:induction false} AddAllSection(state: FormState, rs: seq<ValidationResult>, kind: Kind, rootFieldSection: Option<string> -> FieldRoot, j: int)
    requires HasFixedSections(state) && Distinct(Keys(state.sections)) && 0 <= j < |state.sections|
    ensures AddAll(state, rs, kind, rootFieldSection).sections[j] ==
      state.sections[j].Append(kind, RoutedTo(rs, Keys(state.sections), rootFieldSection, ToSection(state.sections[j].id)))
    decreases |rs|
  {
    if rs == [] {
      assert state.sections[j].Append(kind, []) == state.sections[j];
    } else {
      var init := rs[..|rs| - 1];
      AddAllSection(state, init, kind, rootFieldSection, j);
      var mid := AddAll(state, init, kind, rootFieldSection);
      AddOneAfter(state.sections[j], mid, rs[|rs| - 1], kind, rootFieldSection, j,
        RoutedTo(init, Keys(state.sections), rootFieldSection, ToSection(state.sections[j].id)));
    }
  }

  /** After distributing a list of results, the unknown bucket has its old list
      of that kind followed by exactly the results that match no section. */
  lemma {:induction false} AddAllUnknown(state: FormState, rs: seq<ValidationResult>, kind: Kind, rootFieldSection: Option<string> -> FieldRoot)
    requires HasFixedSections(state)
    ensures var after := AddAll(state, rs, kind, rootFieldSection).unknown;
      && after.Results(kind) == state.unknown.Results(kind) + RoutedTo(rs, Keys(state.sections), rootFieldSection, ToUnknown)
      && after.Results(if kind == Errors then Warnings else Errors) == state.unknown.Results(if kind == Errors then Warnings else Errors)
    decreases |rs|
  {
    if rs != [] {
      AddAllUnknown(state, rs[..|rs| - 1], kind, rootFieldSection);
    }
  }

  function SumResults(sections: seq<FormSection>, kind: Kind): nat
  {
    if sections == [] then 0 else |sections[0].Results(kind)| + SumResults(sections[1..], kind)
  }

  /** How many results of a kind the state holds, sections and unknown bucket together. */
  function TotalResults(state: FormState, kind: Kind): nat
  {
    SumResults(state.sections, kind) + |state.unknown.Results(kind)|
  }

  lemma {:induction false} SumResultsPush(sections: seq<FormSection>, i: int, kind: Kind, r: ValidationResult)
    requires 0 <= i < |sections|
    ensures SumResults(sections[i := sections[i].Push(kind, r)], kind) == SumResults(sections, kind) + 1
    decreases |sections|
  {
    var pushed := sections[i := sections[i].Push(kind, r)];
    if i == 0 {
      assert pushed[1..] == sections[1..];
    } else {
      assert pushed[1..] == sections[1..][i - 1 := sections[i].Push(kind, r)];
      SumResultsPush(sections[1..], i - 1, kind, r);
    }
  }

  /** Every result of the list lands in exactly one place or is dropped: the
      number of results held grows by the list's length less the dropped
      ones, so never by more than the list's length. */
  lemma {:induction false} AddAllCount(state: FormState, rs: seq<ValidationResult>, kind: Kind, rootFieldSection: Option<string> -> FieldRoot)
    requires HasFixedSections(state)
    ensures TotalResults(AddAll(state, rs, kind, rootFieldSection), kind) + |RoutedTo(rs, Keys(state.sections), rootFieldSection, Dropped)|
      == TotalResults(state, kind) + |rs|
    ensures TotalResults(AddAll(state, rs, kind, rootFieldSection), kind) <= TotalResults(state, kind) + |rs|
    decreases |rs|
  {
    if rs != [] {
      var init, last := rs[..|rs| - 1], rs[|rs| - 1];
      AddAllCount(state, init, kind, rootFieldSection);
      var mid := AddAll(state, init, kind, rootFieldSection);
      var ks := Keys(state.sections);
      assert Keys(mid.sections) == ks;
      match RouteOf(ks, rootFieldSection, last)
      case ToSection(key) =>
        var i := IndexOf(ks, key);
        if i != -1 {
          SumResultsPush(mid.sections, i, kind, last);
        }
      case ToUnknown =>
      case Dropped =>
    }
  }

  // ---------------------------------------------------------------------------
  // The response transition

  /** The state change after the active section is marked saved: the source's
      lines that flag the section and possibly move `current` on. */
  function MarkActive(state: FormState, ignoreWarningsFor: Option<SectionId>): FormState
  {
    var ks := Keys(state.sections);
    var i := IndexOf(ks, state.active);
    if i == -1 then state
    else
      var section := state.sections[i].(isSaved := true, ignoreWarnings := ignoreWarningsFor == Some(state.sections[i].id));
      var saved := state.(sections := state.sections[i := section]);
      if state.current == section.id && |section.errors| == 0 && (|section.warnings| == 0 || section.ignoreWarnings) then
        match GetNextSection(saved, section.id)
        case Some(next) => saved.(current := next)
        case None => saved
      else saved
  }

  /** The whole effect of a validation response on the form state. */
  function RespondTo(state: FormState, errors: seq<ValidationResult>, warnings: seq<ValidationResult>,
                     ignoreWarningsFor: Option<SectionId>, rootFieldSection: Option<string> -> FieldRoot): FormState
    requires HasFixedSections(state)
  {
    MarkActive(Distributed(state, errors, warnings, rootFieldSection), ignoreWarningsFor)
  }

  /** The lists the active section holds after a response are exactly the
      results routed to it; they decide whether `current` moves. */
  predicate AdvancesOn(state: FormState, errors: seq<ValidationResult>, warnings: seq<ValidationResult>,
                       ignoreWarningsFor: Option<SectionId>, rootFieldSection: Option<string> -> FieldRoot)
  {
    && state.active in Keys(state.sections)
    && state.current == state.active
    && RoutedTo(errors, Keys(state.sections), rootFieldSection, ToSection(state.active)) == []
    && (RoutedTo(warnings, Keys(state.sections), rootFieldSection, ToSection(state.active)) == [] || ignoreWarningsFor == Some(state.active))
    && IndexOf(Keys(state.sections), state.active) + 1 < |Keys(state.sections)|
  }

  /** The state after the old results are cleared and the new ones distributed. */
  function Distributed(state: FormState, errors: seq<ValidationResult>, warnings: seq<ValidationResult>,
                       rootFieldSection: Option<string> -> FieldRoot): (d: FormState)
    requires HasFixedSections(state)
    ensures Keys(d.sections) == Keys(state.sections)
    ensures d.current == state.current && d.active == state.active
  {
    AddAll(AddAll(ResetAll(state), errors, Errors, rootFieldSection), warnings, Warnings, rootFieldSection)
  }

  /** After a response's results are distributed, a section's lists are exactly
      the errors and the warnings routed to it; its flags are unchanged. */
  lemma DistributedSection(state: FormState, errors: seq<ValidationResult>, warnings: seq<ValidationResult>,
                           rootFieldSection: Option<string> -> FieldRoot, i: int)
    requires WellFormed(state) && 0 <= i < |state.sections|
    ensures var ks := Keys(state.sections);
      Distributed(state, errors, warnings, rootFieldSection).sections[i] ==
        state.sections[i].(errors := RoutedTo(errors, ks, rootFieldSection, ToSection(ks[i])),
                           warnings := RoutedTo(warnings, ks, rootFieldSection, ToSection(ks[i])))
  {
    var cleared := ResetAll(state);
    var withErrors := AddAll(cleared, errors, Errors, rootFieldSection);
    AddAllSection(cleared, errors, Errors, rootFieldSection, i);
    AddAllSection(withErrors, warnings, Warnings, rootFieldSection, i);
  }

  /** After the results are distributed, the unknown bucket holds exactly the
      errors and the warnings that match no section, in order. */
  lemma DistributedUnknown(state: FormState, errors: seq<ValidationResult>, warnings: seq<ValidationResult>,
                           rootFieldSection: Option<string> -> FieldRoot, ks: seq<SectionId>)
    requires HasFixedSections(state) && ks == Keys(state.sections)
    ensures Distributed(state, errors, warnings, rootFieldSection).unknown.errors == RoutedTo(errors, ks, rootFieldSection, ToUnknown)
    ensures Distributed(state, errors, warnings, rootFieldSection).unknown.warnings == RoutedTo(warnings, ks, rootFieldSection, ToUnknown)
  {
    var cleared := ResetAll(state);
    var withErrors := AddAll(cleared, errors, Errors, rootFieldSection);
    AddAllUnknown(cleared, errors, Errors, rootFieldSection);
    AddAllUnknown(withErrors, warnings, Warnings, rootFieldSection);
  }

  /** Marking the active section saved leaves the unknown bucket alone. */
  lemma MarkActiveUnknown(d: FormState, ignoreWarningsFor: Option<SectionId>)
    ensures MarkActive(d, ignoreWarningsFor).unknown == d.unknown
  {
  }

  /** After a response, the unknown bucket holds exactly the errors and the
      warnings that match no section, in order; the old ones are gone. */
  lemma RespondUnknown(state: FormState, errors: seq<ValidationResult>, warnings: seq<ValidationResult>,
                       ignoreWarningsFor: Option<SectionId>, rootFieldSection: Option<string> -> FieldRoot)
    requires HasFixedSections(state)
    ensures var ks := Keys(state.sections);
      RespondTo(state, errors, warnings, ignoreWarningsFor, rootFieldSection).unknown ==
        UnknownResults(RoutedTo(errors, ks, rootFieldSection, ToUnknown), RoutedTo(warnings, ks, rootFieldSection, ToUnknown))
  {
    var d := Distributed(state, errors, warnings, rootFieldSection);
    DistributedUnknown(state, errors, warnings, rootFieldSection, Keys(state.sections));
    MarkActiveUnknown(d, ignoreWarningsFor);
  }

  /** Marking the active section saved keeps the keys, in order, and `active`. */
  lemma MarkActiveKeys(d: FormState, ignoreWarningsFor: Option<SectionId>)
    ensures var m := MarkActive(d, ignoreWarningsFor);
      Keys(m.sections) == Keys(d.sections) && m.active == d.active
  {
    var ks := Keys(d.sections);
    var i := IndexOf(ks, d.active);
    if i != -1 {
      var section := d.sections[i].(isSaved := true, ignoreWarnings := ignoreWarningsFor == Some(d.sections[i].id));
      assert Keys(d.sections[i := section]) == ks;
    }
  }

  /** Marking the active section saved changes only that section: it is
      saved and its ignore-warnings flag is whether the one-shot flag names it. */
  lemma MarkActiveSection(d: FormState, ignoreWarningsFor: Option<SectionId>, j: int)
    requires Distinct(Keys(d.sections)) && 0 <= j < |d.sections|
    ensures var m := MarkActive(d, ignoreWarningsFor);
      && j < |m.sections|
      && m.sections[j] ==
           if d.sections[j].id == d.active then d.sections[j].(isSaved := true, ignoreWarnings := ignoreWarningsFor == Some(d.active))
           else d.sections[j]
  {
    var ks := Keys(d.sections);
    if IndexOf(ks, d.active) != -1 {
      IndexOfDistinct(ks, j);
    }
  }

  /** What a response does to each section: its lists become the errors and
      warnings routed to it; the active section is also marked saved and its
      ignore-warnings flag becomes whether the one-shot flag names it; every
      other flag is unchanged, and so are the keys and `active`. */
  lemma RespondSection(state: FormState, errors: seq<ValidationResult>, warnings: seq<ValidationResult>,
                       ignoreWarningsFor: Option<SectionId>, rootFieldSection: Option<string> -> FieldRoot, j: int)
    requires WellFormed(state) && 0 <= j < |state.sections|
    ensures var r := RespondTo(state, errors, warnings, ignoreWarningsFor, rootFieldSection);
      var ks := Keys(state.sections);
      var routed := state.sections[j].(errors := RoutedTo(errors, ks, rootFieldSection, ToSection(ks[j])),
                                       warnings := RoutedTo(warnings, ks, rootFieldSection, ToSection(ks[j])));
      && Keys(r.sections) == ks
      && r.active == state.active
      && r.sections[j] ==
           if ks[j] == state.active then routed.(isSaved := true, ignoreWarnings := ignoreWarningsFor == Some(state.active))
           else routed
  {
    var d := Distributed(state, errors, warnings, rootFieldSection);
    DistributedSection(state, errors, warnings, rootFieldSection, j);
    MarkActiveKeys(d, ignoreWarningsFor);
    MarkActiveSection(d, ignoreWarningsFor, j);
  }

  /** Marking the active section saved moves `current` to the next key exactly
      when `current` is the active section, that section has no errors, its
      warnings are absent or ignored by the flag, and it is not last. */
  lemma MarkActiveCurrent(d: FormState, ignoreWarningsFor: Option<SectionId>)
    requires Distinct(Keys(d.sections))
    ensures var ks := Keys(d.sections);
      var i := IndexOf(ks, d.active);
      MarkActive(d, ignoreWarningsFor).current ==
        if i != -1 && d.current == d.active && |d.sections[i].errors| == 0 &&
           (|d.sections[i].warnings| == 0 || ignoreWarningsFor == Some(d.active)) && i + 1 < |ks|
        then ks[i + 1] else d.current
  {
    var ks := Keys(d.sections);
    var i := IndexOf(ks, d.active);
    if i != -1 {
      var section := d.sections[i].(isSaved := true, ignoreWarnings := ignoreWarningsFor == Some(d.sections[i].id));
      var saved := d.(sections := d.sections[i := section]);
      assert Keys(saved.sections) == ks;
      NextSectionIsSuccessor(saved, i);
    }
  }

  /** Marking the active section saved moves `current` on exactly when the
      given lists, which are the active section's, let it. */
  lemma MarkActiveAdvances(d: FormState, ignoreWarningsFor: Option<SectionId>, ks: seq<SectionId>, i: int,
                           e: seq<ValidationResult>, w: seq<ValidationResult>)
    requires ks == Keys(d.sections) && Distinct(ks) && i == IndexOf(ks, d.active)
    requires i != -1 ==> d.sections[i].errors == e && d.sections[i].warnings == w
    ensures MarkActive(d, ignoreWarningsFor).current ==
      if i != -1 && d.current == d.active && |e| == 0 && (|w| == 0 || ignoreWarningsFor == Some(d.active)) && i + 1 < |ks|
      then ks[i + 1] else d.current
  {
    MarkActiveCurrent(d, ignoreWarningsFor);
  }

  /** The lists of the active section after distribution are the results routed to it. */
  lemma DistributedActiveLists(state: FormState, errors: seq<ValidationResult>, warnings: seq<ValidationResult>,
                               rootFieldSection: Option<string> -> FieldRoot, i: int)
    requires WellFormed(state) && i == IndexOf(Keys(state.sections), state.active) && i != -1
    ensures var ks := Keys(state.sections);
      var d := Distributed(state, errors, warnings, rootFieldSection);
      && i < |d.sections|
      && d.sections[i].errors == RoutedTo(errors, ks, rootFieldSection, ToSection(state.active))
      && d.sections[i].warnings == RoutedTo(warnings, ks, rootFieldSection, ToSection(state.active))
  {
    DistributedSection(state, errors, warnings, rootFieldSection, i);
  }

  /** Where `current` goes on a response, in terms of the position of the
      active section and the results routed to it. */
  lemma RespondCurrentByRouting(state: FormState, errors: seq<ValidationResult>, warnings: seq<ValidationResult>,
                                ignoreWarningsFor: Option<SectionId>, rootFieldSection: Option<string> -> FieldRoot,
                                ks: seq<SectionId>, i: int, e: seq<ValidationResult>, w: seq<ValidationResult>)
    requires WellFormed(state)
    requires ks == Keys(state.sections) && i == IndexOf(ks, state.active)
    requires e == RoutedTo(errors, ks, rootFieldSection, ToSection(state.active))
    requires w == RoutedTo(warnings, ks, rootFieldSection, ToSection(state.active))
    ensures RespondTo(state, errors, warnings, ignoreWarningsFor, rootFieldSection).current ==
      if i != -1 && state.current == state.active && |e| == 0 && (|w| == 0 || ignoreWarningsFor == Some(state.active)) && i + 1 < |ks|
      then ks[i + 1] else state.current
  {
    if i != -1 {
      DistributedActiveLists(state, errors, warnings, rootFieldSection, i);
    }
    MarkActiveAdvances(Distributed(state, errors, warnings, rootFieldSection), ignoreWarningsFor, ks, i, e, w);
  }

  /** AdvancesOn in terms of the position of the active section and the results routed to it. */
  lemma AdvancesOnMeans(state: FormState, errors: seq<ValidationResult>, warnings: seq<ValidationResult>,
                        ignoreWarningsFor: Option<SectionId>, rootFieldSection: Option<string> -> FieldRoot,
                        ks: seq<SectionId>, i: int, e: seq<ValidationResult>, w: seq<ValidationResult>)
    requires ks == Keys(state.sections) && i == IndexOf(ks, state.active)
    requires e == RoutedTo(errors, ks, rootFieldSection, ToSection(state.active))
    requires w == RoutedTo(warnings, ks, rootFieldSection, ToSection(state.active))
    ensures AdvancesOn(state, errors, warnings, ignoreWarningsFor, rootFieldSection) <==>
      (i != -1 && state.current == state.active && |e| == 0 && (|w| == 0 || ignoreWarningsFor == Some(state.active)) && i + 1 < |ks|)
  {
  }

  /** When AdvancesOn holds, a response moves `current` to the next key. */
  lemma RespondMovesCurrent(state: FormState, errors: seq<ValidationResult>, warnings: seq<ValidationResult>,
                            ignoreWarningsFor: Option<SectionId>, rootFieldSection: Option<string> -> FieldRoot)
    requires WellFormed(state)
    requires AdvancesOn(state, errors, warnings, ignoreWarningsFor, rootFieldSection)
    ensures var ks := Keys(state.sections);
      RespondTo(state, errors, warnings, ignoreWarningsFor, rootFieldSection).current == ks[IndexOf(ks, state.current) + 1]
  {
    var ks := Keys(state.sections);
    var i := IndexOf(ks, state.active);
    var e := RoutedTo(errors, ks, rootFieldSection, ToSection(state.active));
    var w := RoutedTo(warnings, ks, rootFieldSection, ToSection(state.active));
    AdvancesOnMeans(state, errors, warnings, ignoreWarningsFor, rootFieldSection, ks, i, e, w);
    assert i != -1 && state.current == state.active && |e| == 0 && (|w| == 0 || ignoreWarningsFor == Some(state.active)) && i + 1 < |ks|;
    RespondCurrentByRouting(state, errors, warnings, ignoreWarningsFor, rootFieldSection, ks, i, e, w);
  }

  /** When AdvancesOn fails, a response leaves `current` where it was. */
  lemma RespondKeepsCurrent(state: FormState, errors: seq<ValidationResult>, warnings: seq<ValidationResult>,
                            ignoreWarningsFor: Option<SectionId>, rootFieldSection: Option<string> -> FieldRoot)
    requires WellFormed(state)
    requires !AdvancesOn(state, errors, warnings, ignoreWarningsFor, rootFieldSection)
    ensures RespondTo(state, errors, warnings, ignoreWarningsFor, rootFieldSection).current == state.current
  {
    var ks := Keys(state.sections);
    var i := IndexOf(ks, state.active);
    var e := RoutedTo(errors, ks, rootFieldSection, ToSection(state.active));
    var w := RoutedTo(warnings, ks, rootFieldSection, ToSection(state.active));
    RespondCurrentByRouting(state, errors, warnings, ignoreWarningsFor, rootFieldSection, ks, i, e, w);
    AdvancesOnMeans(state, errors, warnings, ignoreWarningsFor, rootFieldSection, ks, i, e, w);
  }

  /** On a response, `current` moves exactly when it is the active section, no
      error is routed to that section, no warning is routed to it unless the
      one-shot flag names it, and it is not the last section; it then moves to
      the next section in order, and otherwise stays where it was. */
  lemma RespondAdvancesCurrent(state: FormState, errors: seq<ValidationResult>, warnings: seq<ValidationResult>,
                               ignoreWarningsFor: Option<SectionId>, rootFieldSection: Option<string> -> FieldRoot)
    requires WellFormed(state)
    ensures var r := RespondTo(state, errors, warnings, ignoreWarningsFor, rootFieldSection);
      var ks := Keys(state.sections);
      && (AdvancesOn(state, errors, warnings, ignoreWarningsFor, rootFieldSection) ==>
            r.current == ks[IndexOf(ks, state.current) + 1])
      && (!AdvancesOn(state, errors, warnings, ignoreWarningsFor, rootFieldSection) ==> r.current == state.current)
  {
    if AdvancesOn(state, errors, warnings, ignoreWarningsFor, rootFieldSection) {
      RespondMovesCurrent(state, errors, warnings, ignoreWarningsFor, rootFieldSection);
    } else {
      RespondKeepsCurrent(state, errors, warnings, ignoreWarningsFor, rootFieldSection);
    }
  }

  /** `current` never moves backwards: after a response its position is its
      old position or the one after it, and at the last section it stays. */
  lemma RespondCurrentMonotone(state: FormState, errors: seq<ValidationResult>, warnings: seq<ValidationResult>,
                               ignoreWarningsFor: Option<SectionId>, rootFieldSection: Option<string> -> FieldRoot)
    requires WellFormed(state)
    ensures var r := RespondTo(state, errors, warnings, ignoreWarningsFor, rootFieldSection);
      var ks := Keys(state.sections);
      && r.current in ks
      && IndexOf(ks, state.current) <= IndexOf(ks, r.current) <= IndexOf(ks, state.current) + 1
      && (IndexOf(ks, state.current) == |ks| - 1 ==> r.current == state.current)
  {
    var ks := Keys(state.sections);
    RespondAdvancesCurrent(state, errors, warnings, ignoreWarningsFor, rootFieldSection);
    var r := RespondTo(state, errors, warnings, ignoreWarningsFor, rootFieldSection);
    var c := IndexOf(ks, state.current);
    if AdvancesOn(state, errors, warnings, ignoreWarningsFor, rootFieldSection) {
      IndexOfDistinct(ks, c + 1);
    }
  }

  /** A response leaves each section's submitted flag as it was. */
  lemma RespondKeepsSubmitted(state: FormState, errors: seq<ValidationResult>, warnings: seq<ValidationResult>,
                              ignoreWarningsFor: Option<SectionId>, rootFieldSection: Option<string> -> FieldRoot, j: int)
    requires WellFormed(state) && 0 <= j < |state.sections|
    ensures var r := RespondTo(state, errors, warnings, ignoreWarningsFor, rootFieldSection);
      j < |r.sections| && r.sections[j].isSubmitted == state.sections[j].isSubmitted
  {
    RespondSection(state, errors, warnings, ignoreWarningsFor, rootFieldSection, j);
  }

  /** A response keeps the form state well formed. */
  lemma RespondPreservesWellFormed(state: FormState, errors: seq<ValidationResult>, warnings: seq<ValidationResult>,
                                   ignoreWarningsFor: Option<SectionId>, rootFieldSection: Option<string> -> FieldRoot)
    requires WellFormed(state)
    ensures WellFormed(RespondTo(state, errors, warnings, ignoreWarningsFor, rootFieldSection))
  {
    var r := RespondTo(state, errors, warnings, ignoreWarningsFor, rootFieldSection);
    var ks := Keys(state.sections);
    RespondKeepsKeys(state, errors, warnings, ignoreWarningsFor, rootFieldSection);
    RespondCurrentMonotone(state, errors, warnings, ignoreWarningsFor, rootFieldSection);
    forall j | 0 <= j < |r.sections|
      ensures !r.sections[j].isSubmitted
    {
      RespondKeepsSubmitted(state, errors, warnings, ignoreWarningsFor, rootFieldSection, j);
    }
  }

  /** The section to show next (the effect on targetFormSection): `current`
      once the active section exists and is complete, the old target otherwise. */
  function NextTarget(state: FormState, target: SectionId): (t: SectionId)
    ensures t == state.current || t == target
    ensures state.active !in Keys(state.sections) ==> t == target
  {
    var i := IndexOf(Keys(state.sections), state.active);
    if i != -1 && FormSectionComplete(state.sections[i]) then state.current else target
  }

  /** With unique keys, the target becomes `current` exactly when the active
      section is complete, and stays otherwise. */
  lemma NextTargetOfActive(state: FormState, target: SectionId, j: int)
    requires Distinct(Keys(state.sections)) && 0 <= j < |state.sections| && state.sections[j].id == state.active
    ensures FormSectionComplete(state.sections[j]) ==> NextTarget(state, target) == state.current
    ensures !FormSectionComplete(state.sections[j]) ==> NextTarget(state, target) == target
  {
    IndexOfDistinct(Keys(state.sections), j);
  }

  /** A response keeps the keys, in order, and `active`. */
  lemma RespondKeepsKeys(state: FormState, errors: seq<ValidationResult>, warnings: seq<ValidationResult>,
                         ignoreWarningsFor: Option<SectionId>, rootFieldSection: Option<string> -> FieldRoot)
    requires HasFixedSections(state)
    ensures var r := RespondTo(state, errors, warnings, ignoreWarningsFor, rootFieldSection);
      Keys(r.sections) == Keys(state.sections) && r.active == state.active
  {
    MarkActiveKeys(Distributed(state, errors, warnings, rootFieldSection), ignoreWarningsFor);
  }

  /** After a response that moves `current` on, the section that was active is complete. */
  lemma AdvanceSavesActiveComplete(state: FormState, errors: seq<ValidationResult>, warnings: seq<ValidationResult>,
                                   ignoreWarningsFor: Option<SectionId>, rootFieldSection: Option<string> -> FieldRoot)
    requires WellFormed(state)
    requires AdvancesOn(state, errors, warnings, ignoreWarningsFor, rootFieldSection)
    ensures var r := RespondTo(state, errors, warnings, ignoreWarningsFor, rootFieldSection);
      FormSectionComplete(r.sections[IndexOf(Keys(state.sections), state.active)])
  {
    RespondSection(state, errors, warnings, ignoreWarningsFor, rootFieldSection, IndexOf(Keys(state.sections), state.active));
  }

  /** When a response moves `current` on, the section that was active is
      complete, so the wizard is told to show the new `current`. */
  lemma AdvanceCompletesActive(state: FormState, errors: seq<ValidationResult>, warnings: seq<ValidationResult>,
                               ignoreWarningsFor: Option<SectionId>, rootFieldSection: Option<string> -> FieldRoot, target: SectionId)
    requires WellFormed(state)
    requires AdvancesOn(state, errors, warnings, ignoreWarningsFor, rootFieldSection)
    ensures var r := RespondTo(state, errors, warnings, ignoreWarningsFor, rootFieldSection);
      && FormSectionComplete(r.sections[IndexOf(Keys(state.sections), state.active)])
      && NextTarget(r, target) == r.current
      && r.current != state.current
  {
    var ks := Keys(state.sections);
    AdvanceSavesActiveComplete(state, errors, warnings, ignoreWarningsFor, rootFieldSection);
    RespondKeepsKeys(state, errors, warnings, ignoreWarningsFor, rootFieldSection);
    RespondAdvancesCurrent(state, errors, warnings, ignoreWarningsFor, rootFieldSection);
    IndexOfDistinct(ks, IndexOf(ks, state.active) + 1);
  }
}
