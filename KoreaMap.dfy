/** The region map's name normalisation (`toKorean`): an element id or
    label of the map drawing, in romanised Korean, is turned into one of the
    seventeen short Korean region names the rest of the client uses. */
module KoreaMap {
  import opened Common

  /** The romanisation fragments, in the order they are tried, with the
      region each stands for: first the eight metropolitan cities, then the
      spellings of each province. */
  const PATTERNS: seq<(string, string)> :=
    CITIES + GYEONGGI + GANGWON + CHUNGBUK + CHUNGNAM + JEONBUK + JEONNAM + GYEONGBUK + GYEONGNAM + JEJU

  const CITIES: seq<(string, string)> := [
    ("seoul", "서울"), ("incheon", "인천"), ("busan", "부산"), ("daegu", "대구"),
    ("daejeon", "대전"), ("ulsan", "울산"), ("gwangju", "광주"), ("sejong", "세종")]
  const GYEONGGI: seq<(string, string)> := [("gyeonggi", "경기"), ("kyonggi", "경기"), ("yeonggi", "경기"), ("gg", "경기")]
  const GANGWON: seq<(string, string)> := [("gangwon", "강원"), ("kangwon", "강원")]
  const CHUNGBUK: seq<(string, string)> := [
    ("chungbuk", "충북"), ("northchungcheong", "충북"), ("chungcheongbuk", "충북"), ("chungcheongbukdo", "충북"), ("cb", "충북")]
  const CHUNGNAM: seq<(string, string)> := [
    ("chungnam", "충남"), ("southchungcheong", "충남"), ("chungcheongnam", "충남"), ("chungcheongnamdo", "충남"), ("cn", "충남")]
  const JEONBUK: seq<(string, string)> := [
    ("jeonbuk", "전북"), ("northjeolla", "전북"), ("jeollabuk", "전북"), ("jeollabukdo", "전북"), ("jb", "전북")]
  const JEONNAM: seq<(string, string)> := [
    ("jeonnam", "전남"), ("southjeolla", "전남"), ("jeollanam", "전남"), ("jeollanamdo", "전남"), ("jn", "전남")]
  const GYEONGBUK: seq<(string, string)> := [
    ("gyeongbuk", "경북"), ("gyeongsangbuk", "경북"), ("gyeongsangbukdo", "경북"), ("kyungbuk", "경북"), ("gb", "경북")]
  const GYEONGNAM: seq<(string, string)> := [
    ("gyeongnam", "경남"), ("gyeongsangnam", "경남"), ("gyeongsangnamdo", "경남"), ("kyungnam", "경남"), ("gn", "경남")]
  const JEJU: seq<(string, string)> := [("jeju", "제주"), ("jejudo", "제주")]

  /** The seventeen short region names. */
  const REGIONS: set<string> := {
    "서울", "인천", "부산", "대구", "대전", "울산", "광주", "세종", "경기",
    "강원", "충북", "충남", "전북", "전남", "경북", "경남", "제주"}

  predicate IsLatinLower(c: char) { 'a' <= c <= 'z' }

  /** `replace(/[^a-z]/g, '')`: only the lower-case Latin letters remain. */
  function KeepLetters(s: string): (r: string)
    ensures |r| <= |s|
    ensures forall i :: 0 <= i < |r| ==> IsLatinLower(r[i])
  {
    if s == [] then []
    else (if IsLatinLower(s[0]) then [s[0]] else []) + KeepLetters(s[1..])
  }

  /** The text the fragments are looked for in. */
  function Normalized(raw: string): string {
    KeepLetters(Lower(raw))
  }

  /** The position of the first fragment contained in `s`, or `|t|` when
      none is. */
  function FirstMatch(s: string, t: seq<(string, string)>): (k: nat)
    ensures k <= |t|
    ensures forall j :: 0 <= j < k ==> !Contains(s, t[j].0)
    ensures k < |t| ==> Contains(s, t[k].0)
  {
    if t == [] then 0
    else if Contains(s, t[0].0) then 0
    else 1 + FirstMatch(s, t[1..])
  }

  /** `toKorean`: the region of the first fragment found, or the input
      unchanged when none is found. */
  function ToKorean(raw: string): (r: string)
    ensures r == raw || r in REGIONS
  {
    PatternRegions();
    var k := FirstMatch(Normalized(raw), PATTERNS);
    if k < |PATTERNS| then PATTERNS[k].1 else raw
  }

  /** `toKorean`: the region of the first fragment found in the normalised
      text, or the input unchanged. */
  method Translate(raw: string) returns (r: string)
    ensures r == ToKorean(raw)
  {
    var k := FindFragment(Normalized(raw), PATTERNS);
    r := if k < |PATTERNS| then PATTERNS[k].1 else raw;
  }

  /** The loop of `toKorean`: the fragments are tried in order and the
      first one contained in `s` stops the search. */
  method FindFragment(s: string, t: seq<(string, string)>) returns (k: nat)
    ensures k == FirstMatch(s, t)
  {
    var i := 0;
    while i < |t|
      invariant 0 <= i <= |t|
      invariant FirstMatch(s, t) == i + FirstMatch(s, t[i..])
    {
      if Contains(s, t[i].0) {
        return i;
      }
      FirstMatchStep(s, t, i);
      i := i + 1;
    }
    return |t|;
  }

  /** Passing over a fragment that is not contained moves the search on. */
  lemma FirstMatchStep(s: string, t: seq<(string, string)>, i: nat)
    requires i < |t| && !Contains(s, t[i].0)
    ensures FirstMatch(s, t[i..]) == 1 + FirstMatch(s, t[i + 1..])
  {
    assert t[i..][1..] == t[i + 1..];
  }

  /** Every fragment is non-empty and stands for one of the seventeen. */
  predicate WellFormed(t: seq<(string, string)>) {
    forall i :: 0 <= i < |t| ==> t[i].0 != [] && t[i].1 in REGIONS
  }

  lemma PatternRegions()
    ensures WellFormed(PATTERNS)
    ensures forall i :: 0 <= i < |PATTERNS| ==> PATTERNS[i].1 in REGIONS
  {
    assert WellFormed(CITIES) && WellFormed(GYEONGGI) && WellFormed(GANGWON) && WellFormed(CHUNGBUK) && WellFormed(CHUNGNAM);
    assert WellFormed(JEONBUK) && WellFormed(JEONNAM) && WellFormed(GYEONGBUK) && WellFormed(GYEONGNAM) && WellFormed(JEJU);
    var t := CITIES;
    t := WellFormedAppend(t, GYEONGGI);
    t := WellFormedAppend(t, GANGWON);
    t := WellFormedAppend(t, CHUNGBUK);
    t := WellFormedAppend(t, CHUNGNAM);
    t := WellFormedAppend(t, JEONBUK);
    t := WellFormedAppend(t, JEONNAM);
    t := WellFormedAppend(t, GYEONGBUK);
    t := WellFormedAppend(t, GYEONGNAM);
    t := WellFormedAppend(t, JEJU);
    assert t == PATTERNS;
  }

  lemma WellFormedAppend(a: seq<(string, string)>, b: seq<(string, string)>) returns (t: seq<(string, string)>)
    requires WellFormed(a) && WellFormed(b)
    ensures t == a + b && WellFormed(t)
  {
    t := a + b;
    assert forall i :: |a| <= i < |t| ==> t[i] == b[i - |a|];
  }

  lemma PatternsNonEmpty()
    ensures forall i :: 0 <= i < |PATTERNS| ==> PATTERNS[i].0 != []
  {
    PatternRegions();
  }

  /** A text without Latin letters normalises to nothing. */
  lemma {:induction false} NoLatinNormalizesEmpty(s: string)
    requires forall i :: 0 <= i < |s| ==> !('A' <= s[i] <= 'Z') && !IsLatinLower(s[i])
    ensures Normalized(s) == []
    decreases |s|
  {
    if s != [] {
      NoLatinNormalizesEmpty(s[1..]);
      assert Lower(s)[1..] == Lower(s[1..]);
    }
  }

  /** Nothing is found in an empty text. */
  lemma NothingInEmpty()
    ensures FirstMatch([], PATTERNS) == |PATTERNS|
  {
    PatternsNonEmpty();
    assert forall i :: 0 <= i < |PATTERNS| ==> !Contains([], PATTERNS[i].0);
  }

  /** The region names are written in Hangul only. */
  lemma RegionsAreHangul()
    ensures forall n :: n in REGIONS ==> forall i :: 0 <= i < |n| ==> '가' <= n[i] <= '힣'
  {
  }

  /** `toKorean` is idempotent: a region name has no Latin letters, so it
      matches no fragment and comes back unchanged. */
  lemma ToKoreanIdempotent(raw: string)
    ensures ToKorean(ToKorean(raw)) == ToKorean(raw)
  {
    var r := ToKorean(raw);
    if r in REGIONS {
      RegionsAreHangul();
      NoLatinNormalizesEmpty(r);
      NothingInEmpty();
    }
  }

  /** Case, spaces, digits and punctuation do not matter: two inputs with
      the same letters reach the same region, or each is left as it was. */
  lemma OnlyLettersMatter(a: string, b: string)
    requires Normalized(a) == Normalized(b)
    ensures ToKorean(a) == ToKorean(b) || (ToKorean(a) == a && ToKorean(b) == b)
  {
  }

  /** A known name in any spelling of case reaches its region. */
  lemma SeoulSample()
    ensures ToKorean("SEOUL") == "서울"
  {
    assert Lower("SEOUL") == "seoul";
    assert KeepLetters("seoul") == "seoul";
    assert PATTERNS[0] == ("seoul", "서울");
    assert Contains("seoul", "seoul");
  }
}
