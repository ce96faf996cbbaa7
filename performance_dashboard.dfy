/** The guard performance table (`src/components/PerformanceDashboard.jsx`):
    merit bands with their label and colour, the search box, and the
    ordering by the chosen score. Scores are reals. */
module PerformanceDashboard {
  import opened Common

  datatype GuardScore = GuardScore(
    id: nat, name: string, email: string, phone: string,
    meritScore: real, attendanceScore: real, punctualityScore: real, feedbackScore: real)

  datatype MeritLabel = Excellent | Good | Average | Fair | Poor

  /** `getMeritLabel`. */
  function GetMeritLabel(score: real): (l: MeritLabel)
    ensures l == Excellent <==> score >= 90.0
    ensures l == Good <==> 80.0 <= score < 90.0
    ensures l == Average <==> 70.0 <= score < 80.0
    ensures l == Fair <==> 60.0 <= score < 70.0
    ensures l == Poor <==> score < 60.0
  {
    if score >= 90.0 then Excellent
    else if score >= 80.0 then Good
    else if score >= 70.0 then Average
    else if score >= 60.0 then Fair
    else Poor
  }

  /** `getMeritColor`: its own if-chain over the same thresholds. */
  function GetMeritColor(score: real): string {
    if score >= 90.0 then "#2e7d32"
    else if score >= 80.0 then "#558b2f"
    else if score >= 70.0 then "#f9a825"
    else if score >= 60.0 then "#f57c00"
    else "#d32f2f"
  }

  /** The colour each label is shown in. */
  function LabelColor(l: MeritLabel): string {
    match l
    case Excellent => "#2e7d32"
    case Good => "#558b2f"
    case Average => "#f9a825"
    case Fair => "#f57c00"
    case Poor => "#d32f2f"
  }

  /** The two chains agree: the colour is the label's, and different labels
      have different colours, so a colour names its label. */
  lemma ColorMatchesLabel(score1: real, score2: real)
    ensures GetMeritColor(score1) == LabelColor(GetMeritLabel(score1))
    ensures GetMeritColor(score1) == GetMeritColor(score2) <==> GetMeritLabel(score1) == GetMeritLabel(score2)
  {
  }

  function LabelRank(l: MeritLabel): nat {
    match l
    case Poor => 0
    case Fair => 1
    case Average => 2
    case Good => 3
    case Excellent => 4
  }

  /** A higher score never gets a lower label. */
  lemma MeritLabelMonotone(score1: real, score2: real)
    requires score1 <= score2
    ensures LabelRank(GetMeritLabel(score1)) <= LabelRank(GetMeritLabel(score2))
  {
  }

  // ---------------------------------------------------------------------
  // Search and order
  // ---------------------------------------------------------------------

  predicate MatchesSearch(g: GuardScore, term: string) {
    IncludesIgnoringCase(g.name, term) || IncludesIgnoringCase(g.email, term) || Includes(g.phone, term)
  }

  function SearchTest(term: string): GuardScore -> bool {
    (g: GuardScore) => MatchesSearch(g, term)
  }

  /** `filteredGuards`. */
  function FilteredGuards(guards: seq<GuardScore>, term: string): seq<GuardScore> {
    Filter(guards, SearchTest(term))
  }

  /** A guard is listed exactly when name or e-mail contain the term ignoring
      case or the phone contains it as typed, in the fetched order. */
  lemma FilteredGuardsExactly(guards: seq<GuardScore>, term: string, g: GuardScore)
    ensures g in FilteredGuards(guards, term) <==> g in guards && MatchesSearch(g, term)
    ensures SubsequenceOf(FilteredGuards(guards, term), guards)
  {
    FilterMembers(guards, SearchTest(term), g);
    FilterIsSubsequence(guards, SearchTest(term));
  }

  /** The score the comparator of `sortBy` subtracts; any other `sortBy`
      returns 0 for every pair, which is a constant key. */
  function SortKey(sortBy: string): GuardScore -> real {
    if sortBy == "merit" then (g: GuardScore) => g.meritScore
    else if sortBy == "attendance" then (g: GuardScore) => g.attendanceScore
    else if sortBy == "punctuality" then (g: GuardScore) => g.punctualityScore
    else if sortBy == "feedback" then (g: GuardScore) => g.feedbackScore
    else (g: GuardScore) => 0.0
  }

  predicate KnownSort(sortBy: string) {
    sortBy in {"merit", "attendance", "punctuality", "feedback"}
  }

  /** `[...filteredGuards].sort(...)`: a stable sort of a copy, highest
      first. */
  function SortedGuards(filtered: seq<GuardScore>, sortBy: string): seq<GuardScore> {
    SortDesc(filtered, SortKey(sortBy))
  }

  /** The table holds the filtered guards, no more, no fewer, highest score
      first. */
  lemma SortedGuardsOrdered(filtered: seq<GuardScore>, sortBy: string)
    ensures multiset(SortedGuards(filtered, sortBy)) == multiset(filtered)
    ensures NonIncreasing(SortedGuards(filtered, sortBy), SortKey(sortBy))
  {
    SortDescPermutation(filtered, SortKey(sortBy));
    SortDescSorted(filtered, SortKey(sortBy));
  }

  /** With the merit sort, scores read from high to low. */
  lemma SortedByMerit(filtered: seq<GuardScore>, i: nat, j: nat)
    requires i < j < |SortedGuards(filtered, "merit")|
    ensures SortedGuards(filtered, "merit")[i].meritScore >= SortedGuards(filtered, "merit")[j].meritScore
  {
    SortDescSorted(filtered, SortKey("merit"));
    assert SortKey("merit")(SortedGuards(filtered, "merit")[i]) >= SortKey("merit")(SortedGuards(filtered, "merit")[j]);
  }

  /** An unknown `sortBy` leaves the filtered order as it is. */
  lemma UnknownSortKeepsOrder(filtered: seq<GuardScore>, sortBy: string)
    requires !KnownSort(sortBy)
    ensures SortedGuards(filtered, sortBy) == filtered
  {
    assert NonIncreasing(filtered, SortKey(sortBy));
    SortDescOfSorted(filtered, SortKey(sortBy));
  }
}
