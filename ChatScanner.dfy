/** The chat assistant's number picker: a scan of the message for numbers
    (a digit run with thousands separators and an optional unit character),
    the age and head-count context tests, money normalisation, and the
    choice of the number nearest to a field's keyword. */
module ChatScanner {
  import opened Common
  import opened StableSort

  datatype NumericCandidate = NumericCandidate(
    value: nat, digits: nat, start: nat, end: nat, suffix: Option<char>)

  predicate IsRunChar(c: char) { IsDigit(c) || c == ',' }

  /** End of the run of digits and commas that starts at or before `i`. */
  function RunEnd(text: string, i: nat): (e: nat)
    requires i <= |text|
    ensures i <= e <= |text|
    ensures forall k :: i <= k < e ==> IsRunChar(text[k])
    ensures e == |text| || !IsRunChar(text[e])
    decreases |text| - i
  {
    if i < |text| && IsRunChar(text[i]) then RunEnd(text, i + 1) else i
  }

  /** The multiplier of a unit character: 억 (10^8), 만 (10^4), 천 (10^3). */
  function Scale(suffix: Option<char>): (k: nat)
    ensures k in {1, 1_000, 10_000, 100_000_000}
  {
    if suffix == Some('억') then 100_000_000
    else if suffix == Some('만') then 10_000
    else if suffix == Some('천') then 1_000
    else 1
  }

  /** What the pattern `([0-9][0-9,]*)([^\d\s])?` matches at a digit: the
      maximal run of digits and commas, then one character that is neither
      a digit nor white space, if there is one. */
  function CandidateAt(text: string, i: nat): (c: NumericCandidate)
    requires i < |text| && IsDigit(text[i])
    ensures c.start == i < c.end <= |text|
  {
    var e := RunEnd(text, i + 1);
    var suffix := if e < |text| && !IsJsSpace(text[e]) then Some(text[e]) else None;
    var digits := DigitsValue(text[i..e]);
    NumericCandidate(digits * Scale(suffix), digits, i, if suffix.Some? then e + 1 else e, suffix)
  }

  /** The successive matches of the global pattern from `pos` on. */
  function ScanFrom(text: string, pos: nat): seq<NumericCandidate>
    requires pos <= |text|
    decreases |text| - pos
  {
    if pos == |text| then []
    else if IsDigit(text[pos]) then
      var c := CandidateAt(text, pos);
      [c] + ScanFrom(text, c.end)
    else ScanFrom(text, pos + 1)
  }

  function Candidates(text: string): seq<NumericCandidate> { ScanFrom(text, 0) }

  /** `extractNumericCandidates`: repeated `exec` of the global pattern,
      each search resuming where the previous match ended. */
  method ExtractNumericCandidates(text: string) returns (matches: seq<NumericCandidate>)
    ensures matches == Candidates(text)
  {
    matches := [];
    var lastIndex := 0;
    while lastIndex < |text|
      invariant lastIndex <= |text|
      invariant matches + ScanFrom(text, lastIndex) == Candidates(text)
      decreases |text| - lastIndex
    {
      var i := lastIndex;
      while i < |text| && !IsDigit(text[i])
        invariant lastIndex <= i <= |text|
        invariant ScanFrom(text, i) == ScanFrom(text, lastIndex)
        decreases |text| - i
      {
        i := i + 1;
      }
      if i == |text| {
        break;
      }
      var e := i + 1;
      while e < |text| && IsRunChar(text[e])
        invariant i < e <= |text|
        invariant RunEnd(text, e) == RunEnd(text, i + 1)
        decreases |text| - e
      {
        e := e + 1;
      }
      var suffix: Option<char> := None;
      var end := e;
      if e < |text| && !IsJsSpace(text[e]) {
        suffix := Some(text[e]);
        end := e + 1;
      }
      var digits := DigitsValue(text[i..e]);
      var scale := 1;
      if suffix == Some('억') {
        scale := 100_000_000;
      } else if suffix == Some('만') {
        scale := 10_000;
      } else if suffix == Some('천') {
        scale := 1_000;
      }
      assert RunEnd(text, e) == e;
      assert scale == Scale(suffix);
      var c := NumericCandidate(digits * scale, digits, i, end, suffix);
      assert c == CandidateAt(text, i);
      assert ScanFrom(text, i) == [c] + ScanFrom(text, end);
      ghost var before := matches;
      matches := matches + [c];
      assert matches + ScanFrom(text, end) == before + ([c] + ScanFrom(text, end));
      lastIndex := end;
    }
  }

  /** What makes `c` a match of the pattern in `text`, stated without the
      scan: it starts at a digit, its run of digits and commas cannot be
      extended, the unit character is present exactly when the next
      character is neither a digit nor white space, and the value is the
      digits (commas ignored) times the unit's scale. */
  ghost predicate IsCandidateOf(text: string, c: NumericCandidate) {
    var runEnd := if c.suffix.Some? then c.end - 1 else c.end;
    c.start < runEnd <= c.end <= |text| && IsDigit(text[c.start])
    && (forall k :: c.start <= k < runEnd ==> IsRunChar(text[k]))
    && (runEnd == |text| || !IsRunChar(text[runEnd]))
    && (c.suffix.Some? <==> runEnd < |text| && !IsJsSpace(text[runEnd]))
    && (c.suffix.Some? ==> c.suffix.value == text[runEnd])
    && c.digits == DigitsValue(text[c.start..runEnd])
    && c.value == c.digits * Scale(c.suffix)
  }

  /** Matches come out left to right and do not overlap. */
  ghost predicate InOrder(cs: seq<NumericCandidate>) {
    forall i, j :: 0 <= i < j < |cs| ==> cs[i].end <= cs[j].start
  }

  /** Every digit at or after `pos` lies inside some match. */
  ghost predicate CoversDigits(text: string, pos: nat, cs: seq<NumericCandidate>) {
    forall k :: pos <= k < |text| && IsDigit(text[k]) ==>
      exists i :: 0 <= i < |cs| && cs[i].start <= k < cs[i].end
  }

  lemma CandidateAtIsCandidate(text: string, i: nat)
    requires i < |text| && IsDigit(text[i])
    ensures IsCandidateOf(text, CandidateAt(text, i))
  {
  }

  /** The scan yields matches of the pattern starting at or after `pos`. */
  lemma {:induction false} ScanFromMatches(text: string, pos: nat)
    requires pos <= |text|
    ensures forall c :: c in ScanFrom(text, pos) ==> IsCandidateOf(text, c) && pos <= c.start
    decreases |text| - pos
  {
    if pos < |text| {
      if IsDigit(text[pos]) {
        var c := CandidateAt(text, pos);
        CandidateAtIsCandidate(text, pos);
        ScanFromMatches(text, c.end);
        assert ScanFrom(text, pos) == [c] + ScanFrom(text, c.end);
      } else {
        ScanFromMatches(text, pos + 1);
      }
    }
  }

  lemma {:induction false} ScanFromBounds(text: string, pos: nat)
    requires pos <= |text|
    ensures forall c :: c in ScanFrom(text, pos) ==> pos <= c.start < c.end <= |text|
    decreases |text| - pos
  {
    if pos < |text| {
      if IsDigit(text[pos]) {
        ScanFromBounds(text, CandidateAt(text, pos).end);
      } else {
        ScanFromBounds(text, pos + 1);
      }
    }
  }

  /** The scan's matches are in order and do not overlap. */
  lemma {:induction false} ScanFromInOrder(text: string, pos: nat)
    requires pos <= |text|
    ensures InOrder(ScanFrom(text, pos))
    decreases |text| - pos
  {
    if pos < |text| {
      if IsDigit(text[pos]) {
        var c := CandidateAt(text, pos);
        ScanFromInOrder(text, c.end);
        ScanFromBounds(text, c.end);
        var rest := ScanFrom(text, c.end);
        var cs := [c] + rest;
        assert ScanFrom(text, pos) == cs;
        forall i, j | 0 <= i < j < |cs| ensures cs[i].end <= cs[j].start {
          assert cs[j] == rest[j - 1] && cs[j] in rest;
          if i > 0 {
            assert cs[i] == rest[i - 1];
          }
        }
      } else {
        ScanFromInOrder(text, pos + 1);
      }
    }
  }

  /** The scan misses no digit. */
  lemma {:induction false} ScanFromCovers(text: string, pos: nat)
    requires pos <= |text|
    ensures CoversDigits(text, pos, ScanFrom(text, pos))
    decreases |text| - pos
  {
    var cs := ScanFrom(text, pos);
    if pos < |text| {
      if IsDigit(text[pos]) {
        var c := CandidateAt(text, pos);
        ScanFromCovers(text, c.end);
        var rest := ScanFrom(text, c.end);
        assert cs == [c] + rest;
        forall k | pos <= k < |text| && IsDigit(text[k])
          ensures exists i :: 0 <= i < |cs| && cs[i].start <= k < cs[i].end
        {
          if k < c.end {
            assert cs[0].start <= k < cs[0].end;
          } else {
            var i :| 0 <= i < |rest| && rest[i].start <= k < rest[i].end;
            assert cs[i + 1] == rest[i];
          }
        }
      } else {
        ScanFromCovers(text, pos + 1);
        forall k | pos <= k < |text| && IsDigit(text[k])
          ensures exists i :: 0 <= i < |cs| && cs[i].start <= k < cs[i].end
        {
          assert k != pos;
        }
      }
    }
  }

  /** Conditions that single out the scan from `pos` on. */
  ghost predicate ScanSpec(text: string, pos: nat, cs: seq<NumericCandidate>) {
    (forall i :: 0 <= i < |cs| ==> IsCandidateOf(text, cs[i]) && pos <= cs[i].start)
    && InOrder(cs) && CoversDigits(text, pos, cs)
  }

  lemma CandidateBasics(text: string, c: NumericCandidate)
    requires IsCandidateOf(text, c)
    ensures c.start < c.end <= |text| && IsDigit(text[c.start])
  {
  }

  lemma ScanSpecEnd(text: string, cs: seq<NumericCandidate>)
    requires ScanSpec(text, |text|, cs)
    ensures cs == []
  {
    if cs != [] {
      CandidateBasics(text, cs[0]);
    }
  }

  lemma ScanSpecSkip(text: string, pos: nat, cs: seq<NumericCandidate>)
    requires pos < |text| && !IsDigit(text[pos]) && ScanSpec(text, pos, cs)
    ensures ScanSpec(text, pos + 1, cs)
  {
    forall j | 0 <= j < |cs| ensures pos + 1 <= cs[j].start {
      CandidateBasics(text, cs[j]);
    }
  }

  lemma ScanSpecHead(text: string, pos: nat, cs: seq<NumericCandidate>)
    requires pos < |text| && IsDigit(text[pos]) && ScanSpec(text, pos, cs)
    ensures cs != [] && cs[0] == CandidateAt(text, pos)
  {
    var i :| 0 <= i < |cs| && cs[i].start <= pos < cs[i].end;
    CandidateBasics(text, cs[i]);
    CandidateBasics(text, cs[0]);
    assert cs[i].start == pos;
    CandidateAtIsCandidate(text, pos);
    CandidateEqual(text, cs[0], CandidateAt(text, pos));
  }

  lemma ScanSpecTail(text: string, pos: nat, cs: seq<NumericCandidate>)
    requires cs != [] && ScanSpec(text, pos, cs)
    ensures ScanSpec(text, cs[0].end, cs[1..])
  {
    CandidateBasics(text, cs[0]);
    TailCovers(text, pos, cs);
    TailMatches(text, pos, cs);
  }

  lemma TailCovers(text: string, pos: nat, cs: seq<NumericCandidate>)
    requires cs != [] && InOrder(cs) && CoversDigits(text, pos, cs)
    requires pos <= cs[0].start < cs[0].end
    ensures CoversDigits(text, cs[0].end, cs[1..])
  {
    var rest := cs[1..];
    forall k | cs[0].end <= k < |text| && IsDigit(text[k])
      ensures exists j :: 0 <= j < |rest| && rest[j].start <= k < rest[j].end
    {
      var j :| 0 <= j < |cs| && cs[j].start <= k < cs[j].end;
      assert rest[j - 1] == cs[j];
    }
  }

  lemma TailMatches(text: string, pos: nat, cs: seq<NumericCandidate>)
    requires cs != [] && InOrder(cs)
    requires forall i :: 0 <= i < |cs| ==> IsCandidateOf(text, cs[i])
    ensures forall j :: 0 <= j < |cs| - 1 ==> IsCandidateOf(text, cs[1..][j]) && cs[0].end <= cs[1..][j].start
  {
  }

  /** The scan is the only sequence of matches that is in order, starts at
      or after `pos` and covers every digit: a reference definition of
      `extractNumericCandidates` that does not mention the scan. */
  lemma {:induction false} ScanFromUnique(text: string, pos: nat, cs: seq<NumericCandidate>)
    requires pos <= |text| && ScanSpec(text, pos, cs)
    ensures cs == ScanFrom(text, pos)
    decreases |text| - pos, 1
  {
    if pos == |text| {
      ScanSpecEnd(text, cs);
    } else if IsDigit(text[pos]) {
      UniqueAtDigit(text, pos, cs);
    } else {
      ScanSpecSkip(text, pos, cs);
      ScanFromUnique(text, pos + 1, cs);
      assert ScanFrom(text, pos) == ScanFrom(text, pos + 1);
    }
  }

  /** The case of `ScanFromUnique` where a number starts at `pos`. */
  lemma {:induction false} UniqueAtDigit(text: string, pos: nat, cs: seq<NumericCandidate>)
    requires pos < |text| && IsDigit(text[pos]) && ScanSpec(text, pos, cs)
    ensures cs == ScanFrom(text, pos)
    decreases |text| - pos, 0
  {
    var c := CandidateAt(text, pos);
    var rest := SpecSplit(text, pos, cs);
    ScanFromUnique(text, c.end, rest);
    assert ScanFrom(text, pos) == [c] + ScanFrom(text, c.end);
  }

  /** A sequence meeting the conditions at a digit is the match there
      followed by a sequence meeting them after it. */
  lemma SpecSplit(text: string, pos: nat, cs: seq<NumericCandidate>) returns (rest: seq<NumericCandidate>)
    requires pos < |text| && IsDigit(text[pos]) && ScanSpec(text, pos, cs)
    ensures pos < CandidateAt(text, pos).end <= |text|
    ensures cs == [CandidateAt(text, pos)] + rest && ScanSpec(text, CandidateAt(text, pos).end, rest)
  {
    ScanSpecHead(text, pos, cs);
    ScanSpecTail(text, pos, cs);
    CandidateBasics(text, cs[0]);
    rest := cs[1..];
    HeadTail(cs);
  }

  /** The scan meets the conditions: with uniqueness, they characterise it. */
  lemma ScanFromMeetsSpec(text: string, pos: nat)
    requires pos <= |text|
    ensures ScanSpec(text, pos, ScanFrom(text, pos))
  {
    ScanFromMatches(text, pos);
    ScanFromInOrder(text, pos);
    ScanFromCovers(text, pos);
    var cs := ScanFrom(text, pos);
    forall i | 0 <= i < |cs| ensures IsCandidateOf(text, cs[i]) && pos <= cs[i].start {
      assert cs[i] in cs;
    }
  }

  /** A match is determined by where it starts. */
  lemma CandidateEqual(text: string, c: NumericCandidate, d: NumericCandidate)
    requires IsCandidateOf(text, c) && IsCandidateOf(text, d) && c.start == d.start
    ensures c == d
  {
  }

  // ---------------------------------------------------------------------
  // Context tests
  // ---------------------------------------------------------------------

  const AGE_HINTS: seq<string> := ["세", "살", "나이", "학년"]
  const PERSON_HINTS: seq<string> := ["명", "인"]
  const CURRENCY_HINTS: seq<char> := ['원', '만', '억', '천']

  /** `hints.some(h => after.startsWith(h) || before.endsWith(h))` */
  predicate SomeHint(hints: seq<string>, after: string, before: string) {
    hints != [] && (StartsWith(after, hints[0]) || EndsWith(before, hints[0]) || SomeHint(hints[1..], after, before))
  }

  lemma SomeHintIff(hints: seq<string>, after: string, before: string)
    ensures SomeHint(hints, after, before) <==>
      exists i :: 0 <= i < |hints| && (StartsWith(after, hints[i]) || EndsWith(before, hints[i]))
  {
    if hints != [] {
      SomeHintIff(hints[1..], after, before);
      if SomeHint(hints[1..], after, before) {
        var i :| 0 <= i < |hints[1..]| && (StartsWith(after, hints[1..][i]) || EndsWith(before, hints[1..][i]));
        assert hints[i + 1] == hints[1..][i];
      }
      forall i | 1 <= i < |hints| && (StartsWith(after, hints[i]) || EndsWith(before, hints[i]))
        ensures SomeHint(hints[1..], after, before)
      {
        assert hints[1..][i - 1] == hints[i];
      }
    }
  }

  function Before(text: string, c: NumericCandidate, width: nat): string {
    JsTrim(JsSlice(text, if c.start >= width then c.start - width else 0, c.start))
  }

  function After(text: string, c: NumericCandidate, width: nat): string {
    JsTrim(JsSlice(text, c.end, c.end + width))
  }

  /** `/나이|살[이에]|세[로]/.test(s)` */
  predicate MentionsAge(s: string) {
    Contains(s, "나이") || Contains(s, "살이") || Contains(s, "살에") || Contains(s, "세로")
  }

  /** `isAgeContext`: an age word right after (within three characters) or
      right before the number, or an age phrase within five characters of
      it. */
  predicate IsAgeContext(text: string, c: NumericCandidate) {
    SomeHint(AGE_HINTS, After(text, c, 3), Before(text, c, 3))
    || MentionsAge(JsSlice(text, if c.start >= 5 then c.start - 5 else 0,
                           if |text| <= c.end + 5 then |text| else c.end + 5))
  }

  /** `isPersonContext`: 명 or 인 within two characters after the match or
      right before it. The match's own unit character is not looked at. */
  predicate IsPersonContext(text: string, c: NumericCandidate) {
    SomeHint(PERSON_HINTS, After(text, c, 2), Before(text, c, 2))
  }

  /** Below 10 000, without a currency unit, and written with 1 to 999. */
  predicate IsBareSmallNumber(c: NumericCandidate) {
    c.value < 10_000 && !(c.suffix.Some? && c.suffix.value in CURRENCY_HINTS) && 1 <= c.digits < 1000
  }

  /** `normalizeCurrency`: a bare number below 1000 with no currency unit
      is read as a count of 만원 (10 000 won). */
  function NormalizeCurrency(c: NumericCandidate): (r: nat)
    ensures IsBareSmallNumber(c) ==> r == c.value * 10_000
    ensures !IsBareSmallNumber(c) ==> r == c.value
  {
    if c.value >= 10_000 then c.value
    else if c.suffix.Some? && c.suffix.value in CURRENCY_HINTS then c.value
    else if 1 <= c.digits < 1000 then c.value * 10_000
    else c.value
  }

  // ---------------------------------------------------------------------
  // Keyword patterns
  // ---------------------------------------------------------------------

  /** The keyword patterns are alternations of words; one of them allows
      white space inside a word (`월\s*수입`). */
  datatype Atom = Lit(ch: char) | Spaces
  type Alternative = seq<Atom>
  type Pattern = seq<Alternative>

  function SkipSpaces(text: string, i: nat): (e: nat)
    requires i <= |text|
    ensures i <= e <= |text|
    decreases |text| - i
  {
    if i < |text| && IsJsSpace(text[i]) then SkipSpaces(text, i + 1) else i
  }

  /** End of the match of one alternative at `i`. A `\s*` is matched
      greedily; every `\s*` in the patterns here is followed by a word
      character, so no backtracking is ever needed. */
  function AltMatch(text: string, i: nat, alt: Alternative): (r: Option<nat>)
    requires i <= |text|
    ensures r.Some? ==> i <= r.value <= |text|
    decreases |alt|
  {
    if alt == [] then Some(i)
    else match alt[0]
      case Lit(ch) => if i < |text| && text[i] == ch then AltMatch(text, i + 1, alt[1..]) else None
      case Spaces => AltMatch(text, SkipSpaces(text, i), alt[1..])
  }

  /** The first alternative, in pattern order, that matches at `i`. */
  function PatternMatch(text: string, i: nat, pat: Pattern): (r: Option<nat>)
    requires i <= |text|
    ensures r.Some? ==> i <= r.value <= |text|
  {
    if pat == [] then None
    else match AltMatch(text, i, pat[0])
      case Some(e) => Some(e)
      case None => PatternMatch(text, i, pat[1..])
  }

  datatype KeywordMatch = KeywordMatch(index: nat, length: nat)

  /** `text.matchAll(pattern)` from `pos` on: leftmost matches, each search
      resuming after the previous match (one further on an empty match). */
  function MatchAll(text: string, pat: Pattern, pos: nat): (r: seq<KeywordMatch>)
    requires pos <= |text| + 1
    ensures forall m :: m in r ==> pos <= m.index && m.index + m.length <= |text|
    decreases |text| + 1 - pos
  {
    if pos > |text| then []
    else match PatternMatch(text, pos, pat)
      case Some(e) => [KeywordMatch(pos, e - pos)] + MatchAll(text, pat, if e > pos then e else pos + 1)
      case None => MatchAll(text, pat, pos + 1)
  }

  /** A word as a pattern alternative. */
  function Word(w: string): (alt: Alternative)
    ensures |alt| == |w|
  {
    seq(|w|, i requires 0 <= i < |w| => Lit(w[i]))
  }

  // ---------------------------------------------------------------------
  // Choosing the number
  // ---------------------------------------------------------------------

  /** Gap between the match and a keyword match; 0 when they overlap. */
  function Distance(c: NumericCandidate, m: KeywordMatch): nat {
    var keyEnd := m.index + m.length;
    if c.start >= keyEnd then c.start - keyEnd
    else if c.end <= m.index then m.index - c.end
    else 0
  }

  function MinDistance(c: NumericCandidate, ms: seq<KeywordMatch>): (r: nat)
    requires ms != []
    ensures forall m :: m in ms ==> r <= Distance(c, m)
    ensures exists m :: m in ms && r == Distance(c, m)
  {
    if |ms| == 1 then Distance(c, ms[0])
    else
      var rest := MinDistance(c, ms[1..]);
      assert forall m :: m in ms[1..] ==> m in ms;
      if Distance(c, ms[0]) <= rest then Distance(c, ms[0]) else rest
  }

  /** The distance to the nearest keyword match, or the position itself
      when the keyword does not occur. */
  function KeywordDistance(c: NumericCandidate, ms: seq<KeywordMatch>): nat {
    if ms == [] then c.start else MinDistance(c, ms)
  }

  /** Without `preferPerson`, ages and head counts are skipped; with it,
      only head counts are kept. */
  predicate Eligible(text: string, c: NumericCandidate, preferPerson: bool) {
    if preferPerson then IsPersonContext(text, c)
    else !IsAgeContext(text, c) && !IsPersonContext(text, c)
  }

  /** The value a candidate stands for: the bare digits for a head count,
      the normalised amount otherwise. */
  function Normalized(c: NumericCandidate, preferPerson: bool): nat {
    if preferPerson then c.digits else NormalizeCurrency(c)
  }

  function NormalizedAs(preferPerson: bool): NumericCandidate -> nat {
    c => Normalized(c, preferPerson)
  }

  datatype Weighted = Weighted(candidate: NumericCandidate, distance: nat, normalizedValue: nat)

  function WeightOf(ms: seq<KeywordMatch>, value: NumericCandidate -> nat, c: NumericCandidate): Weighted {
    Weighted(c, KeywordDistance(c, ms), value(c))
  }

  /** The elements of `s` that satisfy `keep`, in order. */
  function Filter<T>(s: seq<T>, keep: T -> bool): (r: seq<T>)
    ensures |r| <= |s|
  {
    if s == [] then []
    else
      var rest := Filter(s[1..], keep);
      if keep(s[0]) then [s[0]] + rest else rest
  }

  /** Filtering keeps exactly the elements that satisfy `keep`. */
  lemma {:induction false} FilterMembers<T(!new)>(s: seq<T>, keep: T -> bool)
    ensures forall x :: x in Filter(s, keep) <==> x in s && keep(x)
  {
    if s != [] {
      FilterMembers(s[1..], keep);
      assert s == [s[0]] + s[1..];
    }
  }

  ghost predicate Increasing<T>(s: seq<T>, pos: T -> int) {
    forall i, j :: 0 <= i < j < |s| ==> pos(s[i]) < pos(s[j])
  }

  /** Filtering keeps a strictly increasing order. */
  lemma {:induction false} FilterKeepsOrder<T(!new)>(s: seq<T>, keep: T -> bool, pos: T -> int)
    requires Increasing(s, pos)
    ensures Increasing(Filter(s, keep), pos)
  {
    if s != [] {
      var t := s[1..];
      assert Increasing(t, pos) by {
        forall i, j | 0 <= i < j < |t| ensures pos(t[i]) < pos(t[j]) {
          assert t[i] == s[i + 1] && t[j] == s[j + 1];
        }
      }
      FilterKeepsOrder(t, keep, pos);
      if keep(s[0]) {
        FilterAbove(s, keep, pos);
        var rest := Filter(t, keep);
        var r := [s[0]] + rest;
        forall i, j | 0 <= i < j < |r| ensures pos(r[i]) < pos(r[j]) {
          assert r[j] == rest[j - 1];
          if i > 0 {
            assert r[i] == rest[i - 1];
          }
        }
      }
    }
  }

  /** What is kept from the tail lies above the head. */
  lemma FilterAbove<T(!new)>(s: seq<T>, keep: T -> bool, pos: T -> int)
    requires s != [] && Increasing(s, pos)
    ensures forall k :: 0 <= k < |Filter(s[1..], keep)| ==> pos(s[0]) < pos(Filter(s[1..], keep)[k])
  {
    var t := s[1..];
    var rest := Filter(t, keep);
    FilterMembers(t, keep);
    forall k | 0 <= k < |rest| ensures pos(s[0]) < pos(rest[k]) {
      assert rest[k] in rest;
      assert rest[k] in Filter(t, keep);
      assert rest[k] in t;
      var m :| 0 <= m < |t| && t[m] == rest[k];
      assert s[m + 1] == rest[k];
    }
  }

  function EligibleIn(text: string, preferPerson: bool): NumericCandidate -> bool {
    c => Eligible(text, c, preferPerson)
  }

  /** The `map` to weighted entries of the candidates that were kept. */
  function Weigh(ms: seq<KeywordMatch>, value: NumericCandidate -> nat, es: seq<NumericCandidate>): (r: seq<Weighted>)
    ensures |r| == |es|
    ensures forall i :: 0 <= i < |es| ==> r[i] == WeightOf(ms, value, es[i])
  {
    seq(|es|, i requires 0 <= i < |es| => WeightOf(ms, value, es[i]))
  }

  /** An ascending sort on distance is the descending sort on its negation. */
  function DistanceKey(w: Weighted): seq<real> { [-(w.distance as real)] }

  /** The selection of `findRelevantNumber`, for a context filter `keep` and
      a reading `value`: the value of the kept candidate that comes first
      after a stable sort by distance to the keyword, or nothing. */
  function Pick(text: string, keyword: Pattern, keep: NumericCandidate -> bool, value: NumericCandidate -> nat)
    : Option<nat>
  {
    var cands := Candidates(text);
    if cands == [] then None
    else
      var ws := Weigh(MatchAll(text, keyword, 0), value, Filter(cands, keep));
      if ws == [] then None else Some(SortDesc(ws, DistanceKey)[0].normalizedValue)
  }

  /** `findRelevantNumber`. */
  function FindRelevantNumber(text: string, keyword: Pattern, preferPerson: bool): Option<nat> {
    Pick(text, keyword, EligibleIn(text, preferPerson), NormalizedAs(preferPerson))
  }

  function StartOf(c: NumericCandidate): int { c.start }

  lemma CandidatesStrictlyOrdered(text: string)
    ensures Increasing(Candidates(text), StartOf)
  {
    ScanFromBounds(text, 0);
    ScanFromInOrder(text, 0);
    var cs := Candidates(text);
    forall i, j | 0 <= i < j < |cs| ensures cs[i].start < cs[j].start {
      assert cs[i] in cs;
    }
  }

  /** `c` is a kept candidate at least as near to the keyword as every kept
      candidate and strictly nearer than every earlier one. */
  ghost predicate IsNearest(text: string, keyword: Pattern, keep: NumericCandidate -> bool, c: NumericCandidate) {
    var ms := MatchAll(text, keyword, 0);
    c in Candidates(text) && keep(c)
    && (forall d :: d in Candidates(text) && keep(d) ==> KeywordDistance(c, ms) <= KeywordDistance(d, ms))
    && (forall d :: d in Candidates(text) && keep(d) && d.start < c.start ==>
          KeywordDistance(c, ms) < KeywordDistance(d, ms))
  }

  /** What is picked: nothing exactly when no candidate is kept; otherwise
      the reading of the nearest kept candidate, the earliest on a tie. */
  lemma {:induction false} PickChoice(text: string, keyword: Pattern, keep: NumericCandidate -> bool,
                                      value: NumericCandidate -> nat)
    ensures Pick(text, keyword, keep, value).None? <==>
      forall c :: c in Candidates(text) ==> !keep(c)
    ensures Pick(text, keyword, keep, value).Some? ==>
      exists c :: IsNearest(text, keyword, keep, c) && Pick(text, keyword, keep, value).value == value(c)
  {
    var cands := Candidates(text);
    var es := Filter(cands, keep);
    FilterMembers(cands, keep);
    if es != [] {
      var c := PickedIsNearest(text, keyword, keep, value);
    } else {
      assert forall c :: c in cands ==> !keep(c) by {
        assert forall c :: c !in es;
      }
    }
  }

  /** When some candidate is kept, the pick is the reading of a nearest
      one. */
  lemma PickedIsNearest(text: string, keyword: Pattern, keep: NumericCandidate -> bool,
                        value: NumericCandidate -> nat) returns (c: NumericCandidate)
    requires Filter(Candidates(text), keep) != []
    ensures IsNearest(text, keyword, keep, c) && Pick(text, keyword, keep, value) == Some(value(c))
  {
    var cands := Candidates(text);
    var es := Filter(cands, keep);
    var ms := MatchAll(text, keyword, 0);
    var ws := Weigh(ms, value, es);
    var i := FirstMaxIndex(ws, DistanceKey);
    SortDescHead(ws, DistanceKey);
    c := es[i];
    FirstIsNearest(text, keyword, keep, value, i);
    assert Pick(text, keyword, keep, value) == Some(ws[i].normalizedValue);
  }

  /** The first entry of greatest key (least distance) is the kept
      candidate nearest the keyword, earliest on a tie. */
  lemma FirstIsNearest(text: string, keyword: Pattern, keep: NumericCandidate -> bool,
                       value: NumericCandidate -> nat, i: nat)
    requires Filter(Candidates(text), keep) != []
    requires i == FirstMaxIndex(Weigh(MatchAll(text, keyword, 0), value, Filter(Candidates(text), keep)), DistanceKey)
    ensures i < |Filter(Candidates(text), keep)|
    ensures IsNearest(text, keyword, keep, Filter(Candidates(text), keep)[i])
  {
    var cands := Candidates(text);
    var es := Filter(cands, keep);
    var ms := MatchAll(text, keyword, 0);
    var ws := Weigh(ms, value, es);
    FilterMembers(cands, keep);
    CandidatesStrictlyOrdered(text);
    FilterKeepsOrder(cands, keep, StartOf);
    NearestKept(es, ms, value, i);
    assert es[i] in es;
  }

  /** Among candidates in order of position, the first entry of greatest
      key is nearest the keyword, and strictly nearer than those before. */
  lemma NearestKept(es: seq<NumericCandidate>, ms: seq<KeywordMatch>, value: NumericCandidate -> nat, i: nat)
    requires es != [] && Increasing(es, StartOf)
    requires i == FirstMaxIndex(Weigh(ms, value, es), DistanceKey)
    ensures i < |es|
    ensures forall d :: d in es ==> KeywordDistance(es[i], ms) <= KeywordDistance(d, ms)
    ensures forall d :: d in es && d.start < es[i].start ==> KeywordDistance(es[i], ms) < KeywordDistance(d, ms)
  {
    var ws := Weigh(ms, value, es);
    NearestEntry(ws, i);
    var dist := seq(|es|, j requires 0 <= j < |es| => KeywordDistance(es[j], ms));
    assert forall j :: 0 <= j < |es| ==> dist[j] == ws[j].distance;
    forall d | d in es
      ensures KeywordDistance(es[i], ms) <= KeywordDistance(d, ms)
      ensures d.start < es[i].start ==> KeywordDistance(es[i], ms) < KeywordDistance(d, ms)
    {
      var j :| 0 <= j < |es| && es[j] == d;
      assert dist[i] <= dist[j];
      if d.start < es[i].start {
        EarlierIndex(es, i, j);
        assert dist[i] < dist[j];
      }
    }
  }

  lemma EarlierIndex(es: seq<NumericCandidate>, i: nat, j: nat)
    requires i < |es| && j < |es| && Increasing(es, StartOf) && es[j].start < es[i].start
    ensures j < i
  {
    assert StartOf(es[i]) == es[i].start && StartOf(es[j]) == es[j].start;
  }

  /** The first entry of greatest key has the least distance, and a
      strictly smaller one than every entry before it. */
  lemma NearestEntry(ws: seq<Weighted>, i: nat)
    requires ws != [] && i == FirstMaxIndex(ws, DistanceKey)
    ensures i < |ws|
    ensures forall j :: 0 <= j < |ws| ==> ws[i].distance <= ws[j].distance
    ensures forall j :: 0 <= j < i ==> ws[i].distance < ws[j].distance
  {
    FirstMaxIndexIsFirstMax(ws, DistanceKey);
    forall j | 0 <= j < |ws| ensures ws[i].distance <= ws[j].distance {
      GtSingleton(DistanceKey(ws[j])[0], DistanceKey(ws[i])[0]);
    }
    forall j | 0 <= j < i ensures ws[i].distance < ws[j].distance {
      GtSingleton(DistanceKey(ws[i])[0], DistanceKey(ws[j])[0]);
    }
  }

  /** For the number picker itself: nothing exactly when every candidate is
      an age or a head count (or, for a head count, none is); otherwise the
      normalised value (the bare digits for a head count) of the nearest
      eligible candidate. */
  lemma FindRelevantNumberChoice(text: string, keyword: Pattern, preferPerson: bool)
    ensures FindRelevantNumber(text, keyword, preferPerson).None? <==>
      forall c :: c in Candidates(text) ==> !Eligible(text, c, preferPerson)
    ensures FindRelevantNumber(text, keyword, preferPerson).Some? ==>
      exists c :: IsNearest(text, keyword, EligibleIn(text, preferPerson), c)
        && Eligible(text, c, preferPerson)
        && FindRelevantNumber(text, keyword, preferPerson).value == Normalized(c, preferPerson)
  {
    PickChoice(text, keyword, EligibleIn(text, preferPerson), NormalizedAs(preferPerson));
  }

  // ---------------------------------------------------------------------
  // Reading off single messages
  // ---------------------------------------------------------------------

  /** Characters that are not digits do not start a match. */
  lemma {:induction false} ScanSkip(text: string, i: nat, j: nat)
    requires i <= j <= |text|
    requires forall k :: i <= k < j ==> !IsDigit(text[k])
    ensures ScanFrom(text, i) == ScanFrom(text, j)
    decreases j - i
  {
    if i < j { ScanSkip(text, i + 1, j); }
  }

  /** No hint is found when no hint's first character occurs in the text
      after the number and no hint's last character in the text before. */
  lemma {:induction false} NoHint(hints: seq<string>, after: string, before: string)
    requires forall i :: 0 <= i < |hints| ==>
      hints[i] != [] && hints[i][0] !in after && hints[i][|hints[i]| - 1] !in before
    ensures !SomeHint(hints, after, before)
    decreases |hints|
  {
    if hints != [] {
      var h := hints[0];
      if |h| <= |after| {
        assert after[0] in after;
        assert after[..|h|][0] != h[0];
      }
      if |h| <= |before| {
        assert before[|before| - 1] in before;
        assert before[|before| - |h|..][|h| - 1] != h[|h| - 1];
      }
      NoHint(hints[1..], after, before);
    }
  }

  lemma NoAgeHint(after: string, before: string)
    requires '세' !in after && '살' !in after && '나' !in after && '학' !in after
    requires '세' !in before && '살' !in before && '이' !in before && '년' !in before
    ensures !SomeHint(AGE_HINTS, after, before)
  {
    NoHint(AGE_HINTS, after, before);
  }

  lemma NoPersonHint(after: string, before: string)
    requires '명' !in after && '인' !in after && '명' !in before && '인' !in before
    ensures !SomeHint(PERSON_HINTS, after, before)
  {
    NoHint(PERSON_HINTS, after, before);
  }

  /** A string without some character of `p` does not contain `p`. */
  lemma MissingChar(s: string, p: string, ch: char)
    requires ch in p && ch !in s
    ensures !Contains(s, p)
  {
    if Contains(s, p) { ContainsChars(s, p); }
  }

  /** The text `isAgeContext` looks at around a match. */
  function Around(text: string, c: NumericCandidate): string {
    JsSlice(text, if c.start >= 5 then c.start - 5 else 0, if |text| <= c.end + 5 then |text| else c.end + 5)
  }

  /** Not an age when the three characters on either side hold no age
      word and the wider window holds no age phrase. */
  lemma NotAgeContext(text: string, c: NumericCandidate)
    requires var a := JsSlice(text, c.end, c.end + 3); '세' !in a && '살' !in a && '나' !in a && '학' !in a
    requires var b := JsSlice(text, if c.start >= 3 then c.start - 3 else 0, c.start);
      '세' !in b && '살' !in b && '이' !in b && '년' !in b
    requires var r := Around(text, c); '나' !in r && '살' !in r && '세' !in r
    ensures !IsAgeContext(text, c)
  {
    NoAgeWordBeside(text, c);
    NoAgePhraseAround(Around(text, c));
  }

  lemma NoAgeWordBeside(text: string, c: NumericCandidate)
    requires var a := JsSlice(text, c.end, c.end + 3); '세' !in a && '살' !in a && '나' !in a && '학' !in a
    requires var b := JsSlice(text, if c.start >= 3 then c.start - 3 else 0, c.start);
      '세' !in b && '살' !in b && '이' !in b && '년' !in b
    ensures !SomeHint(AGE_HINTS, After(text, c, 3), Before(text, c, 3))
  {
    var a := JsSlice(text, c.end, c.end + 3);
    var b := JsSlice(text, if c.start >= 3 then c.start - 3 else 0, c.start);
    TrimmedLacks(a, '세', '살');
    TrimmedLacks(a, '나', '학');
    TrimmedLacks(b, '세', '살');
    TrimmedLacks(b, '이', '년');
    NoAgeHint(JsTrim(a), JsTrim(b));
  }

  lemma NoAgePhraseAround(r: string)
    requires '나' !in r && '살' !in r && '세' !in r
    ensures !MentionsAge(r)
  {
    MissingChar(r, "나이", '나');
    MissingChar(r, "살이", '살');
    MissingChar(r, "살에", '살');
    MissingChar(r, "세로", '세');
  }

  lemma TrimmedLacks(s: string, x: char, y: char)
    requires x !in s && y !in s
    ensures x !in JsTrim(s) && y !in JsTrim(s)
  {
    TrimChars(s, IsJsSpace);
  }

  /** Not a head count when neither two-character window holds 명 or 인. */
  lemma NotPersonContext(text: string, c: NumericCandidate)
    requires var a := JsSlice(text, c.end, c.end + 2); '명' !in a && '인' !in a
    requires var b := JsSlice(text, if c.start >= 2 then c.start - 2 else 0, c.start); '명' !in b && '인' !in b
    ensures !IsPersonContext(text, c)
  {
    var a := JsSlice(text, c.end, c.end + 2);
    var b := JsSlice(text, if c.start >= 2 then c.start - 2 else 0, c.start);
    TrimmedLacks(a, '명', '인');
    TrimmedLacks(b, '명', '인');
    NoPersonHint(JsTrim(a), JsTrim(b));
  }

  /** In a text with none of the characters of the age and head-count
      words, every match is read as a plain figure. */
  lemma PlainContext(text: string, c: NumericCandidate)
    requires forall ch :: ch in "세살나학이년명인" ==> ch !in text
    ensures Eligible(text, c, false)
  {
    PlainChars(text);
    PlainAround(text, c);
    NotAgeContext(text, c);
    SliceChars(text, c.end, c.end + 2);
    SliceChars(text, if c.start >= 2 then c.start - 2 else 0, c.start);
    NotPersonContext(text, c);
  }

  lemma PlainChars(text: string)
    requires forall ch :: ch in "세살나학이년명인" ==> ch !in text
    ensures '세' !in text && '살' !in text && '나' !in text && '학' !in text
    ensures '이' !in text && '년' !in text && '명' !in text && '인' !in text
  {
  }

  lemma PlainAround(text: string, c: NumericCandidate)
    requires '세' !in text && '살' !in text && '나' !in text && '학' !in text && '이' !in text && '년' !in text
    ensures var a := JsSlice(text, c.end, c.end + 3); '세' !in a && '살' !in a && '나' !in a && '학' !in a
    ensures var b := JsSlice(text, if c.start >= 3 then c.start - 3 else 0, c.start);
      '세' !in b && '살' !in b && '이' !in b && '년' !in b
    ensures var r := Around(text, c); '나' !in r && '살' !in r && '세' !in r
  {
    SliceChars(text, c.end, c.end + 3);
    SliceChars(text, if c.start >= 3 then c.start - 3 else 0, c.start);
    SliceChars(text, if c.start >= 5 then c.start - 5 else 0, if |text| <= c.end + 5 then |text| else c.end + 5);
  }

  /** With a single match, the pick is that match's reading if it is kept. */
  lemma PickOnly(text: string, keyword: Pattern, keep: NumericCandidate -> bool, value: NumericCandidate -> nat,
                 c: NumericCandidate)
    requires Candidates(text) == [c]
    ensures Pick(text, keyword, keep, value) == if keep(c) then Some(value(c)) else None
  {
    PickChoice(text, keyword, keep, value);
  }

  lemma FindOnly(text: string, keyword: Pattern, preferPerson: bool, c: NumericCandidate)
    requires Candidates(text) == [c]
    ensures FindRelevantNumber(text, keyword, preferPerson) ==
      if Eligible(text, c, preferPerson) then Some(Normalized(c, preferPerson)) else None
  {
    PickOnly(text, keyword, EligibleIn(text, preferPerson), NormalizedAs(preferPerson), c);
  }
}
