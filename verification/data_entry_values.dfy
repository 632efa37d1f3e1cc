/** The draft results of one polling station and the ways the form controller
    merges a submitted form into them: the shallow `{...old, ...new}` of
    setValues and the per-party replacement of submitCurrentForm. Counts are
    JavaScript numbers that the forms fill with whole numbers; they are `int` here. */
module DataEntryValues {
  import opened Wrappers

  datatype Candidate = Candidate(number: int)
  datatype PoliticalGroup = PoliticalGroup(number: int, candidates: seq<Candidate>)
  datatype Election = Election(id: int, politicalGroups: seq<PoliticalGroup>)

  datatype VotersCounts = VotersCounts(
    proxyCertificateCount: int,
    totalAdmittedVotersCount: int,
    voterCardCount: int,
    pollCardCount: int)

  datatype VotesCounts = VotesCounts(
    blankVotesCount: int,
    invalidVotesCount: int,
    totalVotesCastCount: int,
    votesCandidatesCounts: int)

  datatype DifferencesCounts = DifferencesCounts(
    moreBallotsCount: int,
    fewerBallotsCount: int,
    unreturnedBallotsCount: int,
    tooFewBallotsHandedOutCount: int,
    tooManyBallotsHandedOutCount: int,
    otherExplanationCount: int,
    noExplanationCount: int)

  datatype CandidateVotes = CandidateVotes(number: int, votes: int)
  datatype PoliticalGroupVotes = PoliticalGroupVotes(number: int, total: int, candidateVotes: seq<CandidateVotes>)

  datatype PollingStationResults = PollingStationResults(
    politicalGroupVotes: seq<PoliticalGroupVotes>,
    differencesCounts: DifferencesCounts,
    votersCounts: VotersCounts,
    votesCounts: VotesCounts)

  /** An object with some of the top-level keys of the results: what a spread
      `...patch` contributes. A missing key is `None`. */
  datatype ResultsPatch = ResultsPatch(
    politicalGroupVotes: Option<seq<PoliticalGroupVotes>>,
    differencesCounts: Option<DifferencesCounts>,
    votersCounts: Option<VotersCounts>,
    votesCounts: Option<VotesCounts>)

  /** What a registered form's `getValues()` returns: a party form gives one
      party's votes, every other form gives top-level result keys. */
  datatype FormValues = PatchValues(patch: ResultsPatch) | GroupValues(group: PoliticalGroupVotes)

  /** The `type` of a registered form; a party form also carries its party `number`. */
  datatype FormKind = VotersAndVotesForm | DifferencesForm | PoliticalGroupVotesForm(number: int)

  /** The reference a form registers with the controller: its type and its section id. */
  datatype FormReference = FormReference(kind: FormKind, id: string)

  /** What a form's `getValues()` returns: one party's votes for a party form,
      a patch of top-level result keys for any other form. The patch is left
      free. The differences form is declared to return the inner
      `differences_counts` object; spreading that object sets none of the four
      top-level keys, which is the empty patch here (its seven stray `*_count`
      keys are not modelled). Returning `{differences_counts: …}` is another
      patch. */
  predicate Conforms(form: FormReference, onScreen: FormValues)
  {
    form.kind.PoliticalGroupVotesForm? <==> onScreen.GroupValues?
  }

  /** The unvalidated snapshot kept when the user leaves a section with edits. */
  datatype TemporaryCache = TemporaryCache(key: string, data: FormValues)

  const EmptyPatch := ResultsPatch(None, None, None, None)

  /** Every key of a complete results object, as a patch. */
  function Whole(r: PollingStationResults): ResultsPatch
  {
    ResultsPatch(Some(r.politicalGroupVotes), Some(r.differencesCounts), Some(r.votersCounts), Some(r.votesCounts))
  }

  /** `{...draft, ...patch}`: a key present in the patch wins, every other key keeps its old value. */
  function Merge(draft: PollingStationResults, patch: ResultsPatch): PollingStationResults
  {
    PollingStationResults(
      if patch.politicalGroupVotes.Some? then patch.politicalGroupVotes.value else draft.politicalGroupVotes,
      if patch.differencesCounts.Some? then patch.differencesCounts.value else draft.differencesCounts,
      if patch.votersCounts.Some? then patch.votersCounts.value else draft.votersCounts,
      if patch.votesCounts.Some? then patch.votesCounts.value else draft.votesCounts)
  }

  /** `{...first, ...second}` on two patches. */
  function Combine(first: ResultsPatch, second: ResultsPatch): ResultsPatch
  {
    ResultsPatch(
      if second.politicalGroupVotes.Some? then second.politicalGroupVotes else first.politicalGroupVotes,
      if second.differencesCounts.Some? then second.differencesCounts else first.differencesCounts,
      if second.votersCounts.Some? then second.votersCounts else first.votersCounts,
      if second.votesCounts.Some? then second.votesCounts else first.votesCounts)
  }

  /** Merging is a shallow override: a key the patch carries takes the patch's
      value, a key it lacks is left alone, merging nothing changes nothing,
      merging the same patch twice is merging it once, and two merges in a row
      are one merge of the combined patch. */
  lemma MergeIsShallowOverride(draft: PollingStationResults, p: ResultsPatch, q: ResultsPatch)
    ensures p.votersCounts.Some? ==> Merge(draft, p).votersCounts == p.votersCounts.value
    ensures p.votersCounts.None? ==> Merge(draft, p).votersCounts == draft.votersCounts
    ensures p.votesCounts.Some? ==> Merge(draft, p).votesCounts == p.votesCounts.value
    ensures p.differencesCounts.Some? ==> Merge(draft, p).differencesCounts == p.differencesCounts.value
    ensures p.politicalGroupVotes.Some? ==> Merge(draft, p).politicalGroupVotes == p.politicalGroupVotes.value
    ensures p.votesCounts.None? ==> Merge(draft, p).votesCounts == draft.votesCounts
    ensures p.differencesCounts.None? ==> Merge(draft, p).differencesCounts == draft.differencesCounts
    ensures p.politicalGroupVotes.None? ==> Merge(draft, p).politicalGroupVotes == draft.politicalGroupVotes
    ensures Merge(draft, EmptyPatch) == draft
    ensures Merge(Merge(draft, p), p) == Merge(draft, p)
    ensures Merge(Merge(draft, p), q) == Merge(draft, Combine(p, q))
  {
  }

  /** setValues with a complete results object (what an updater function
      returns) replaces the old values outright; this is why an updater of the
      form `old => ({...old, ...patch})` has the effect of merging `patch`. */
  lemma MergeWholeReplaces(draft: PollingStationResults, p: ResultsPatch)
    ensures Merge(draft, Whole(Merge(draft, p))) == Merge(draft, p)
    ensures forall r :: Merge(draft, Whole(r)) == r
  {
  }

  /** `groups.map(pg => pg.number === number ? group : pg)`. */
  function ReplaceGroup(groups: seq<PoliticalGroupVotes>, number: int, group: PoliticalGroupVotes): (r: seq<PoliticalGroupVotes>)
    ensures |r| == |groups|
  {
    if groups == [] then []
    else [if groups[0].number == number then group else groups[0]] + ReplaceGroup(groups[1..], number, group)
  }

  /** The party numbers of a list of party votes, in order. */
  function GroupNumbers(groups: seq<PoliticalGroupVotes>): (ns: seq<int>)
    ensures |ns| == |groups|
  {
    if groups == [] then [] else [groups[0].number] + GroupNumbers(groups[1..])
  }

  /** Only the entries whose number matches are replaced; every other entry,
      and the order, are kept. */
  lemma {:induction false} ReplaceGroupOnlyMatching(groups: seq<PoliticalGroupVotes>, number: int, group: PoliticalGroupVotes, i: int)
    requires 0 <= i < |groups|
    ensures groups[i].number == number ==> ReplaceGroup(groups, number, group)[i] == group
    ensures groups[i].number != number ==> ReplaceGroup(groups, number, group)[i] == groups[i]
    decreases |groups|
  {
    if i > 0 {
      ReplaceGroupOnlyMatching(groups[1..], number, group, i - 1);
    }
  }

  /** Replacing a party's votes by votes for the same party keeps the list of
      party numbers as it was. */
  lemma {:induction false} ReplaceGroupKeepsNumbers(groups: seq<PoliticalGroupVotes>, number: int, group: PoliticalGroupVotes)
    requires group.number == number
    ensures GroupNumbers(ReplaceGroup(groups, number, group)) == GroupNumbers(groups)
    decreases |groups|
  {
    if groups != [] {
      ReplaceGroupKeepsNumbers(groups[1..], number, group);
    }
  }

  /** The values of a submitted form merged into the draft (submitCurrentForm's
      updater): a party form replaces the matching party's votes, any other
      form spreads what its `getValues()` returns over the draft. */
  function SubmitUpdate(draft: PollingStationResults, form: FormReference, onScreen: FormValues): PollingStationResults
    requires Conforms(form, onScreen)
  {
    match form.kind
    case PoliticalGroupVotesForm(number) =>
      draft.(politicalGroupVotes := ReplaceGroup(draft.politicalGroupVotes, number, onScreen.group))
    case _ => Merge(draft, onScreen.patch)
  }

  /** Submitting a party form changes only the party votes whose number is the
      form's; the other parties and all other result fields are unchanged.
      Submitting any other form is the shallow merge of its values. */
  lemma SubmitUpdateChangesOnlyItsForm(draft: PollingStationResults, form: FormReference, onScreen: FormValues, i: int)
    requires Conforms(form, onScreen)
    ensures form.kind.PoliticalGroupVotesForm? ==>
      var r := SubmitUpdate(draft, form, onScreen);
      && |r.politicalGroupVotes| == |draft.politicalGroupVotes|
      && r.votersCounts == draft.votersCounts
      && r.votesCounts == draft.votesCounts
      && r.differencesCounts == draft.differencesCounts
      && (0 <= i < |draft.politicalGroupVotes| ==>
            r.politicalGroupVotes[i] ==
              if draft.politicalGroupVotes[i].number == form.kind.number then onScreen.group
              else draft.politicalGroupVotes[i])
    ensures !form.kind.PoliticalGroupVotesForm? ==> SubmitUpdate(draft, form, onScreen) == Merge(draft, onScreen.patch)
  {
    if form.kind.PoliticalGroupVotesForm? && 0 <= i < |draft.politicalGroupVotes| {
      ReplaceGroupOnlyMatching(draft.politicalGroupVotes, form.kind.number, onScreen.group, i);
    }
  }

  /** No two parties of the election share a number. */
  predicate DistinctNumbers(groups: seq<PoliticalGroup>)
  {
    forall i, j :: 0 <= i < j < |groups| ==> groups[i].number != groups[j].number
  }

  /** The sum of a party's candidate votes. */
  function SumVotes(cv: seq<CandidateVotes>): int
  {
    if cv == [] then 0 else cv[0].votes + SumVotes(cv[1..])
  }

  /** Zero votes for every candidate of a party. */
  function ZeroCandidateVotes(candidates: seq<Candidate>): (r: seq<CandidateVotes>)
    ensures |r| == |candidates|
    ensures forall j :: 0 <= j < |r| ==> r[j] == CandidateVotes(candidates[j].number, 0)
  {
    seq(|candidates|, j requires 0 <= j < |candidates| => CandidateVotes(candidates[j].number, 0))
  }

  /** The draft the controller starts with: one zero entry per party of the
      election, in election order, and every count zero. */
  function InitialValues(election: Election): (r: PollingStationResults)
    ensures |r.politicalGroupVotes| == |election.politicalGroups|
    ensures forall i :: 0 <= i < |r.politicalGroupVotes| ==>
      r.politicalGroupVotes[i].number == election.politicalGroups[i].number &&
      r.politicalGroupVotes[i].total == 0 &&
      |r.politicalGroupVotes[i].candidateVotes| == |election.politicalGroups[i].candidates| &&
      forall j :: 0 <= j < |r.politicalGroupVotes[i].candidateVotes| ==>
        r.politicalGroupVotes[i].candidateVotes[j] == CandidateVotes(election.politicalGroups[i].candidates[j].number, 0)
    ensures r.differencesCounts == DifferencesCounts(0, 0, 0, 0, 0, 0, 0)
    ensures r.votersCounts == VotersCounts(0, 0, 0, 0)
    ensures r.votesCounts == VotesCounts(0, 0, 0, 0)
  {
    var groups := election.politicalGroups;
    PollingStationResults(
      seq(|groups|, i requires 0 <= i < |groups| =>
        PoliticalGroupVotes(groups[i].number, 0, ZeroCandidateVotes(groups[i].candidates))),
      DifferencesCounts(0, 0, 0, 0, 0, 0, 0),
      VotersCounts(0, 0, 0, 0),
      VotesCounts(0, 0, 0, 0))
  }

  /** A party's zero entries add up to zero votes. */
  lemma {:induction false} ZeroCandidateVotesSumZero(candidates: seq<Candidate>)
    ensures SumVotes(ZeroCandidateVotes(candidates)) == 0
    decreases |candidates|
  {
    if candidates != [] {
      assert ZeroCandidateVotes(candidates)[1..] == ZeroCandidateVotes(candidates[1..]);
      ZeroCandidateVotesSumZero(candidates[1..]);
    }
  }

  /** The initial draft is consistent: every party's total is the sum of its
      candidates' votes. */
  lemma InitialTotalsMatchVotes(election: Election)
    ensures var r := InitialValues(election);
      forall i :: 0 <= i < |r.politicalGroupVotes| ==>
        r.politicalGroupVotes[i].total == SumVotes(r.politicalGroupVotes[i].candidateVotes)
  {
    var groups := election.politicalGroups;
    forall i | 0 <= i < |groups|
      ensures SumVotes(ZeroCandidateVotes(groups[i].candidates)) == 0
    {
      ZeroCandidateVotesSumZero(groups[i].candidates);
    }
  }

  /** With distinct party numbers, each party has exactly one entry in the
      initial draft: submitting party k's form on it replaces entry k and no
      other, whatever votes the form returns. */
  lemma InitialPartySubmitReplacesOne(election: Election, k: int, n: int, group: PoliticalGroupVotes)
    requires DistinctNumbers(election.politicalGroups) && 0 <= k < |election.politicalGroups|
    requires n == election.politicalGroups[k].number
    ensures var draft := InitialValues(election).politicalGroupVotes;
      ReplaceGroup(draft, n, group) == draft[k := group]
  {
    var draft := InitialValues(election).politicalGroupVotes;
    forall i | 0 <= i < |draft|
      ensures ReplaceGroup(draft, n, group)[i] == draft[k := group][i]
    {
      ReplaceGroupOnlyMatching(draft, n, group, i);
    }
  }
}
