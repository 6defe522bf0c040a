/** Ranking of welfare programmes for a user: each programme gets an
    additive score (preferred categories, region, age, job, income known)
    and the list is sorted by score, highest first, keeping the fetch order
    among equal scores. */
module WelfareRecommendation {
  import opened Common
  import opened StableSort

  /** What the scorer reads from a programme record: its categories, the
      region codes it applies to (none: nationwide), and its age range and
      jobs (missing bounds take their defaults). `id` stands for the rest of
      the record, which is copied untouched. */
  datatype Listing = Listing(
    id: string,
    categories: seq<string>,
    regionScope: seq<string>,
    minAge: Option<int>,
    maxAge: Option<int>,
    jobs: seq<string>)

  /** The user's side of the match. */
  datatype Query = Query(
    regionCode: Option<string>,
    jobCategory: Option<string>,
    age: Option<int>,
    preferences: seq<string>,
    recognizedIncome: Option<real>)

  /** A copy of the programme with its score. */
  datatype Scored = Scored(listing: Listing, score: real)

  const DEFAULT_MIN_AGE: int := 0
  const DEFAULT_MAX_AGE: int := 200

  /** A string is truthy when it is present and not empty. */
  predicate Given(s: Option<string>) { s.Some? && s.value != [] }

  /** The lower-cased categories the programme and the user share. */
  function Overlap(categories: seq<string>, preferences: seq<string>): set<string> {
    (set c | c in categories :: Lower(c)) * (set p | p in preferences :: Lower(p))
  }

  function PreferencePoints(l: Listing, q: Query): (r: nat)
    ensures r == 0 <==> q.preferences == [] || Overlap(l.categories, q.preferences) == {}
    ensures r != 0 ==> r == 55 + 5 * |Overlap(l.categories, q.preferences)| && r >= 60
  {
    if q.preferences != [] then
      var overlap := Overlap(l.categories, q.preferences);
      if overlap != {} then 55 + 5 * |overlap| else 0
    else 0
  }

  function RegionPoints(l: Listing, q: Query): (r: nat)
    ensures r == 15 <==> l.regionScope == [] || (Given(q.regionCode) && q.regionCode.value in l.regionScope)
    ensures r == 0 || r == 15
  {
    if l.regionScope == [] || (Given(q.regionCode) && q.regionCode.value in l.regionScope) then 15 else 0
  }

  predicate AgeFits(l: Listing, age: int) {
    OrElse(l.minAge, DEFAULT_MIN_AGE) <= age <= OrElse(l.maxAge, DEFAULT_MAX_AGE)
  }

  function AgePoints(l: Listing, q: Query): (r: nat)
    ensures r == 15 <==> q.age.None? || AgeFits(l, q.age.value)
    ensures r == 0 || r == 15
  {
    if q.age.None? || AgeFits(l, q.age.value) then 15 else 0
  }

  function JobPoints(l: Listing, q: Query): (r: nat)
    ensures r == 10 <==> l.jobs == [] || (Given(q.jobCategory) && q.jobCategory.value in l.jobs)
    ensures r == 0 || r == 10
  {
    if l.jobs == [] || (Given(q.jobCategory) && q.jobCategory.value in l.jobs) then 10 else 0
  }

  function IncomePoints(q: Query): (r: nat)
    ensures r == 5 <==> q.recognizedIncome.Some?
    ensures r == 0 || r == 5
  {
    if q.recognizedIncome.Some? then 5 else 0
  }

  /** The score of `_score_program`: the sum of the five parts (a whole
      number, although the source adds floats). */
  function Score(l: Listing, q: Query): nat {
    PreferencePoints(l, q) + RegionPoints(l, q) + AgePoints(l, q) + JobPoints(l, q) + IncomePoints(q)
  }

  /** `_score_program`: adds the five parts one after the other. */
  method ScoreProgram(l: Listing, q: Query) returns (score: real)
    ensures score == Score(l, q) as real
  {
    score := 0.0;
    if q.preferences != [] {
      var cats := set c | c in l.categories :: Lower(c);
      var pref := set p | p in q.preferences :: Lower(p);
      var overlap := cats * pref;
      if overlap != {} {
        score := score + 55.0 + 5.0 * |overlap| as real;
      }
    }
    if l.regionScope == [] || (Given(q.regionCode) && q.regionCode.value in l.regionScope) {
      score := score + 15.0;
    }
    var minAge := OrElse(l.minAge, DEFAULT_MIN_AGE);
    var maxAge := OrElse(l.maxAge, DEFAULT_MAX_AGE);
    if q.age.None? || (minAge <= q.age.value && q.age.value <= maxAge) {
      score := score + 15.0;
    }
    if l.jobs == [] || (Given(q.jobCategory) && q.jobCategory.value in l.jobs) {
      score := score + 10.0;
    }
    if q.recognizedIncome.Some? {
      score := score + 5.0;
    }
  }

  /** At most 45 points without a category match, at least 60 with one. */
  lemma ScoreBands(l: Listing, q: Query)
    ensures PreferencePoints(l, q) == 0 ==> Score(l, q) <= 45
    ensures PreferencePoints(l, q) != 0 ==> Score(l, q) >= 60
  {
  }

  /** Rounding a whole number to two places leaves it as it is. */
  lemma PyRound2OfWhole(n: int)
    ensures PyRound2(n as real) == n as real
  {
    assert PyRound(n as real * 100.0) == n * 100;
  }

  /** The score as the record carries it: rounded to two places. */
  function ScoredCopy(l: Listing, q: Query): (r: Scored)
    ensures r.listing == l
    ensures r.score == Score(l, q) as real
  {
    PyRound2OfWhole(Score(l, q));
    Scored(l, PyRound2(Score(l, q) as real))
  }

  function ScoreKey(s: Scored): seq<real> { [s.score] }

  /** The scored copies, in fetch order. */
  function ScoredAll(programs: seq<Listing>, q: Query): (r: seq<Scored>)
    ensures |r| == |programs|
    ensures forall i :: 0 <= i < |programs| ==> r[i] == ScoredCopy(programs[i], q)
  {
    seq(|programs|, i requires 0 <= i < |programs| => ScoredCopy(programs[i], q))
  }

  /** `recommend_welfare` after the fetch: one scored copy per programme,
      sorted by score, highest first, equal scores in fetch order. */
  method RecommendWelfare(programs: seq<Listing>, q: Query) returns (scored: seq<Scored>)
    ensures scored == SortDesc(ScoredAll(programs, q), ScoreKey)
  {
    var copies: seq<Scored> := [];
    var k := 0;
    while k < |programs|
      invariant 0 <= k <= |programs|
      invariant copies == ScoredAll(programs, q)[..k]
    {
      var s := ScoreProgram(programs[k], q);
      copies := copies + [Scored(programs[k], PyRound2(s))];
      k := k + 1;
    }
    assert copies == ScoredAll(programs, q);
    scored := SortDesc(copies, ScoreKey);
  }

  /** What the ranking promises: every programme appears once with its
      score, scores do not increase along the list, and programmes with the
      same score keep the order they were fetched in. */
  lemma RankingProperties(programs: seq<Listing>, q: Query, score: real)
    ensures var r := SortDesc(ScoredAll(programs, q), ScoreKey);
      && |r| == |programs|
      && multiset(r) == multiset(ScoredAll(programs, q))
      && (forall i, j :: 0 <= i < j < |r| ==> r[i].score >= r[j].score)
      && WithKey(r, ScoreKey, [score]) == WithKey(ScoredAll(programs, q), ScoreKey, [score])
  {
    var r := SortDesc(ScoredAll(programs, q), ScoreKey);
    SortDescSorted(ScoredAll(programs, q), ScoreKey);
    forall i, j | 0 <= i < j < |r| ensures r[i].score >= r[j].score {
      GtSingleton(r[j].score, r[i].score);
    }
    SortDescStable(ScoredAll(programs, q), ScoreKey, [score]);
  }

  /** A programme with a category match outranks every programme without
      one. */
  lemma MatchOutranks(a: Listing, b: Listing, q: Query)
    requires PreferencePoints(a, q) != 0 && PreferencePoints(b, q) == 0
    ensures Score(a, q) > Score(b, q)
  {
    ScoreBands(a, q);
    ScoreBands(b, q);
  }
}
