/** The welfare-programme provider: the search keyword it sends to the
    central-government welfare list API, the mapping of each returned
    record to the programme shape the recommender scores, and the
    extraction of the records from the several response shapes it
    accepts. */
module WelfareProvider {
  import opened Common
  import opened PyValues
  import WelfareRecommendation

  // ---------------------------------------------------------------------
  // Search keywords
  // ---------------------------------------------------------------------

  /** Region codes and the short Korean names searched for. */
  const REGION_NAME: seq<(string, string)> := [
    ("11", "서울"), ("26", "부산"), ("27", "대구"), ("28", "인천"), ("29", "광주"), ("30", "대전"),
    ("31", "울산"), ("36", "세종"), ("41", "경기"), ("51", "강원"), ("43", "충북"), ("44", "충남"),
    ("45", "전북"), ("46", "전남"), ("47", "경북"), ("48", "경남"), ("50", "제주")]

  predicate KeysDistinct(t: seq<(string, string)>) {
    forall i, j :: 0 <= i < j < |t| ==> t[i].0 != t[j].0
  }

  /** `table.get(key, default)` on a table of distinct keys. */
  function TableGet(t: seq<(string, string)>, key: string, default: string): (r: string)
    ensures (forall i :: 0 <= i < |t| ==> t[i].0 != key) ==> r == default
    ensures forall i :: 0 <= i < |t| && t[i].0 == key && (forall j :: 0 <= j < i ==> t[j].0 != key) ==> r == t[i].1
  {
    if t == [] then default
    else if t[0].0 == key then t[0].1
    else TableGet(t[1..], key, default)
  }

  /** `REGION_NAME.get(code, code)`: the region's name, or the code itself
      when it is not one of the seventeen. */
  function RegionName(code: string): string {
    TableGet(REGION_NAME, code, code)
  }

  lemma RegionNamesDistinct()
    ensures KeysDistinct(REGION_NAME)
  {
    CodesDiffer();
  }

  /** Any two codes differ in their first or their second digit. */
  lemma CodesDiffer()
    ensures forall i :: 0 <= i < |REGION_NAME| ==> |REGION_NAME[i].0| == 2
    ensures forall i, j :: 0 <= i < j < |REGION_NAME| ==>
      REGION_NAME[i].0[0] != REGION_NAME[j].0[0] || REGION_NAME[i].0[1] != REGION_NAME[j].0[1]
  {
  }

  /** Each of the seventeen codes is searched by its name; any other text
      is searched as given. */
  lemma RegionNameLookup(code: string)
    ensures forall i :: 0 <= i < |REGION_NAME| && REGION_NAME[i].0 == code ==> RegionName(code) == REGION_NAME[i].1
    ensures (forall i :: 0 <= i < |REGION_NAME| ==> REGION_NAME[i].0 != code) ==> RegionName(code) == code
  {
    RegionNamesDistinct();
  }

  predicate Given(s: Option<string>) { s.Some? && s.value != [] }

  /** The keywords, in the order they are collected: the job, the region's
      name, the age, then every preference. */
  function Keywords(job: Option<string>, regionCode: Option<string>, age: Option<int>, preferences: seq<string>): seq<string> {
    (if Given(job) then [job.value] else [])
    + (if Given(regionCode) then [RegionName(regionCode.value)] else [])
    + (if age.Some? then [ShowInt(age.value)] else [])
    + preferences
  }

  /** The keyword list built step by step. */
  method CollectKeywords(job: Option<string>, regionCode: Option<string>, age: Option<int>, preferences: seq<string>)
    returns (keywords: seq<string>)
    ensures keywords == Keywords(job, regionCode, age, preferences)
  {
    ghost var j := if Given(job) then [job.value] else [];
    ghost var g := if Given(regionCode) then [RegionName(regionCode.value)] else [];
    ghost var a := if age.Some? then [ShowInt(age.value)] else [];
    keywords := [];
    if Given(job) {
      keywords := keywords + [job.value];
    }
    assert keywords == j;
    if Given(regionCode) {
      keywords := keywords + [RegionName(regionCode.value)];
    }
    assert keywords == j + g;
    if age.Some? {
      keywords := keywords + [ShowInt(age.value)];
    }
    assert keywords == j + g + a;
    if preferences != [] {
      keywords := keywords + preferences;
    }
  }

  /** The `srchKeyWord` parameter: the keywords joined by spaces, or no
      parameter at all when there are none. */
  function SearchKeyword(keywords: seq<string>): (r: Option<string>)
    ensures r.None? <==> keywords == []
  {
    if keywords != [] then Some(Join(keywords, " ")) else None
  }

  /** The search is unfiltered exactly when nothing is known about the
      user; otherwise every keyword is part of the search text, the job
      first when known and the preferences last. */
  lemma KeywordProperties(job: Option<string>, regionCode: Option<string>, age: Option<int>, preferences: seq<string>)
    ensures var k := Keywords(job, regionCode, age, preferences);
      && (SearchKeyword(k).None? <==> !Given(job) && !Given(regionCode) && age.None? && preferences == [])
      && (Given(job) ==> k[0] == job.value)
      && |preferences| <= |k| && k[|k| - |preferences|..] == preferences
      && (forall i :: 0 <= i < |k| ==> Contains(SearchKeyword(k).value, k[i]))
  {
    var k := Keywords(job, regionCode, age, preferences);
    forall i | 0 <= i < |k| ensures Contains(SearchKeyword(k).value, k[i]) {
      JoinContainsEach(k, " ", i);
    }
  }

  // ---------------------------------------------------------------------
  // Mapping one record
  // ---------------------------------------------------------------------

  /** `str(v)` for the values whose text is modelled: strings, integers,
      booleans and None. */
  function PyStr(v: PyValue): Option<string> {
    match v
    case PNone => Some("None")
    case PBool(b) => Some(if b then "True" else "False")
    case PInt(i) => Some(ShowInt(i))
    case PStr(s) => Some(s)
    case _ => None
  }

  /** The record's id: the name when there is no service id, otherwise
      `str()` of the service id (kept as the value when that text is not
      modelled). */
  datatype ItemId = IdValue(value: PyValue) | StrOf(source: PyValue)

  /** A programme in the shape the recommender reads. */
  datatype Item = Item(
    id: ItemId,
    name: PyValue,
    provider: PyValue,
    regionScope: seq<string>,
    minAge: int,
    maxAge: int,
    jobs: seq<string>,
    categories: seq<PyValue>,
    summary: PyValue,
    url: PyValue)

  const UNTITLED: string := "무제"

  predicate IsCategorySeparator(c: char) { c == ',' || c == '/' }

  /** Index of the first `,` or `/` in `s`, or `|s|`. */
  function SeparatorIndex(s: string): (k: nat)
    ensures k <= |s|
    ensures k < |s| ==> IsCategorySeparator(s[k])
    ensures forall i :: 0 <= i < k ==> !IsCategorySeparator(s[i])
  {
    if s == [] then 0 else if IsCategorySeparator(s[0]) then 0 else 1 + SeparatorIndex(s[1..])
  }

  predicate NoSeparator(s: string) {
    forall i :: 0 <= i < |s| ==> !IsCategorySeparator(s[i])
  }

  /** `s.replace("/", ",").split(",")`: the pieces between separators,
      empty ones included. */
  function Pieces(s: string): (r: seq<string>)
    ensures r != []
    ensures forall p :: p in r ==> NoSeparator(p)
    decreases |s|
  {
    var k := SeparatorIndex(s);
    if k == |s| then [s] else [s[..k]] + Pieces(s[k + 1..])
  }

  /** The pieces stripped of white space, blank ones dropped. */
  function Cleaned(pieces: seq<string>): (r: seq<string>)
    ensures forall c :: c in r ==> Stripped(c)
    ensures (forall p :: p in pieces ==> NoSeparator(p)) ==> forall c :: c in r ==> NoSeparator(c)
  {
    if pieces == [] then []
    else
      var rest := Cleaned(pieces[1..]);
      var c := PyStrip(pieces[0]);
      if c != [] then
        StripKeepsNoSeparator(pieces[0]);
        ConsCleaned(pieces, c, rest);
        [c] + rest
      else rest
  }

  /** Non-empty, with no white space at either end. */
  predicate Stripped(c: string) {
    c != [] && !IsPySpace(c[0]) && !IsPySpace(c[|c| - 1])
  }

  lemma ConsCleaned(pieces: seq<string>, c: string, rest: seq<string>)
    requires pieces != [] && c == PyStrip(pieces[0]) && c != []
    requires NoSeparator(pieces[0]) ==> NoSeparator(c)
    requires forall x :: x in rest ==> Stripped(x)
    requires (forall p :: p in pieces[1..] ==> NoSeparator(p)) ==> forall x :: x in rest ==> NoSeparator(x)
    ensures forall x :: x in [c] + rest ==> Stripped(x)
    ensures (forall p :: p in pieces ==> NoSeparator(p)) ==> forall x :: x in [c] + rest ==> NoSeparator(x)
  {
    assert Stripped(c) by {
      assert c == Trim(pieces[0], IsPySpace);
    }
    forall x | x in [c] + rest ensures Stripped(x) {
      if x != c {
        assert x in rest;
      }
    }
    if forall p :: p in pieces ==> NoSeparator(p) {
      assert pieces[0] in pieces;
      forall p | p in pieces[1..] ensures NoSeparator(p) {
        assert p in pieces;
      }
    }
  }

  lemma StripKeepsNoSeparator(p: string)
    ensures NoSeparator(p) ==> NoSeparator(PyStrip(p))
  {
    var c := PyStrip(p);
    TrimChars(p, IsPySpace);
    forall i | 0 <= i < |c| ensures NoSeparator(p) ==> !IsCategorySeparator(c[i]) {
      assert c[i] in c;
      if NoSeparator(p) {
        var j :| 0 <= j < |p| && p[j] == c[i];
      }
    }
  }

  /** The categories of a comma- or slash-separated text. */
  function SplitCategories(s: string): (r: seq<string>)
    ensures forall c :: c in r ==> c != [] && NoSeparator(c)
  {
    Cleaned(Pieces(s))
  }

  predicate IsCategoryName(c: string) {
    c != [] && NoSeparator(c) && !IsPySpace(c[0]) && !IsPySpace(c[|c| - 1])
  }

  lemma SeparatorIndexOfJoin(c: string, t: string)
    requires NoSeparator(c)
    ensures SeparatorIndex(c + "," + t) == |c|
  {
    var s := c + "," + t;
    assert s[|c|] == ',';
    assert forall i :: 0 <= i < |c| ==> s[i] == c[i];
  }

  /** Splitting undoes joining with commas: category names without
      separators or surrounding white space come back as they were. */
  lemma SplitJoinRoundTrip(cs: seq<string>)
    requires forall i :: 0 <= i < |cs| ==> IsCategoryName(cs[i])
    ensures SplitCategories(Join(cs, ",")) == cs
  {
    if cs == [] {
      assert Pieces("") == [""];
      assert [""][1..] == [];
    } else {
      PiecesOfJoin(cs);
      CleanedKeeps(cs);
    }
  }

  lemma {:induction false} PiecesOfJoin(cs: seq<string>)
    requires cs != [] && forall i :: 0 <= i < |cs| ==> NoSeparator(cs[i])
    ensures Pieces(Join(cs, ",")) == cs
    decreases |cs|
  {
    if |cs| == 1 {
      assert SeparatorIndex(cs[0]) == |cs[0]|;
    } else {
      PiecesOfJoin(cs[1..]);
      var t := Join(cs[1..], ",");
      var s := cs[0] + "," + t;
      assert Join(cs, ",") == s;
      SeparatorIndexOfJoin(cs[0], t);
      assert s[..|cs[0]|] == cs[0] && s[|cs[0]| + 1..] == t;
      HeadTail(cs);
    }
  }

  lemma {:induction false} CleanedKeeps(cs: seq<string>)
    requires forall i :: 0 <= i < |cs| ==> IsCategoryName(cs[i])
    ensures Cleaned(cs) == cs
    decreases |cs|
  {
    if cs != [] {
      CleanedKeeps(cs[1..]);
      TrimKeeps(cs[0], IsPySpace);
      assert PyStrip(cs[0]) == cs[0];
      HeadTail(cs);
    }
  }

  /** The categories of a record: text is split, a list is kept as it is,
      anything else gives none. */
  function CategoriesOf(raw: PyValue): (r: seq<PyValue>)
    ensures raw.PList? ==> r == raw.items
    ensures raw.PStr? ==> forall i :: 0 <= i < |r| ==> r[i].PStr? && r[i].s in SplitCategories(raw.s)
    ensures !raw.PStr? && !raw.PList? ==> r == []
  {
    match raw
    case PStr(s) =>
      var cs := SplitCategories(s);
      seq(|cs|, i requires 0 <= i < |cs| => PStr(cs[i]))
    case PList(items) => items
    case _ => []
  }

  /** `map_item`: each field is the first truthy of its candidate keys,
      with the listed fallback; the region scope is nationwide and the
      eligibility open to every age from 0 to 120 and every job. */
  /** The title of a record: its first truthy title field, or the
      placeholder title when it has none. */
  function NameOf(r: Dict): (name: PyValue)
    ensures Truthy(name)
    ensures Truthy(Get(r, "servNm")) ==> name == Get(r, "servNm")
    ensures !Truthy(Get(r, "servNm")) && !Truthy(Get(r, "title")) && !Truthy(Get(r, "name")) ==> name == PStr(UNTITLED)
  {
    Or(Or(Or(Get(r, "servNm"), Get(r, "title")), Get(r, "name")), PStr(UNTITLED))
  }

  /** The identifier of a record: its first truthy id field as text, or
      the title when it has none. */
  function IdOf(r: Dict, name: PyValue): ItemId {
    var servId := Or(Or(Get(r, "servId"), Get(r, "id")), Get(r, "SERV_ID"));
    if servId == PNone then IdValue(name)
    else if PyStr(servId).Some? then IdValue(PStr(PyStr(servId).value))
    else StrOf(servId)
  }

  function MapItem(r: Dict): (item: Item)
    ensures Truthy(item.name)
    ensures Truthy(Get(r, "servNm")) ==> item.name == Get(r, "servNm")
    ensures !Truthy(Get(r, "servNm")) && !Truthy(Get(r, "title")) && !Truthy(Get(r, "name")) ==> item.name == PStr(UNTITLED)
    ensures item.regionScope == [] && item.jobs == [] && item.minAge == 0 && item.maxAge == 120
  {
    var name := NameOf(r);
    var provider := Or(Or(Or(Get(r, "jurMnofNm"), Get(r, "provider")), Get(r, "dept")), PStr(""));
    var url := Or(Or(Get(r, "servDtlLink"), Get(r, "url")), PStr(""));
    var summary := Or(Or(Or(Get(r, "servDgst"), Get(r, "summary")), Get(r, "desc")), PStr(""));
    var cats := Or(Or(Or(Get(r, "lifeArray"), Get(r, "trgterIndvdlArray")), Get(r, "categories")), PStr(""));
    Item(IdOf(r, name), name, provider, [], 0, 120, [], CategoriesOf(cats), summary, url)
  }

  /** Mapped records are open to everyone: whatever the user's region and
      job, and for any age from 0 to 120, they earn the region, age and job
      points of the recommender, so only the category match and the income
      point tell them apart. */
  lemma MappedItemsScoreAsNationwide(r: Dict, l: WelfareRecommendation.Listing, q: WelfareRecommendation.Query)
    requires l.regionScope == MapItem(r).regionScope && l.jobs == MapItem(r).jobs
    requires l.minAge == Some(MapItem(r).minAge) && l.maxAge == Some(MapItem(r).maxAge)
    requires q.age.None? || 0 <= q.age.value <= 120
    ensures WelfareRecommendation.Score(l, q)
         == WelfareRecommendation.PreferencePoints(l, q) + 40 + WelfareRecommendation.IncomePoints(q)
  {
    var it := MapItem(r);
    assert it.regionScope == [] && it.jobs == [] && it.minAge == 0 && it.maxAge == 120;
    OpenListingScore(l, q);
  }

  /** A listing with no region, no job and the ages 0 to 120 earns the
      region, age and job points. */
  lemma OpenListingScore(l: WelfareRecommendation.Listing, q: WelfareRecommendation.Query)
    requires l.regionScope == [] && l.jobs == [] && l.minAge == Some(0) && l.maxAge == Some(120)
    requires q.age.None? || 0 <= q.age.value <= 120
    ensures WelfareRecommendation.Score(l, q)
         == WelfareRecommendation.PreferencePoints(l, q) + 40 + WelfareRecommendation.IncomePoints(q)
  {
    assert WelfareRecommendation.RegionPoints(l, q) == 15;
    assert WelfareRecommendation.AgePoints(l, q) == 15;
    assert WelfareRecommendation.JobPoints(l, q) == 10;
  }

  // ---------------------------------------------------------------------
  // Extracting the records from a response
  // ---------------------------------------------------------------------

  predicate HasKey(d: Dict, key: string) {
    exists i :: 0 <= i < |d| && d[i].0 == key
  }

  /** `v.get(key, default)` where `v` must be a dict: None stands for the
      exception raised when it is not. */
  function DictGetOr(v: PyValue, key: string, default: PyValue): Option<PyValue> {
    if !v.PDict? then None
    else if HasKey(v.entries, key) then Some(Get(v.entries, key))
    else Some(default)
  }

  /** `[map_item(r) for r in src]`: None when `src` cannot be iterated or
      yields something that is not a record (the comprehension raises). A
      non-empty text or dict yields strings, which raise. */
  function MapAll(src: PyValue): (r: Option<seq<Item>>)
    ensures src.PList? && (forall i :: 0 <= i < |src.items| ==> src.items[i].PDict?) ==>
      r.Some? && |r.value| == |src.items|
      && forall i :: 0 <= i < |src.items| ==> r.value[i] == MapItem(src.items[i].entries)
    ensures r.Some? && !src.PList? ==> r.value == []
    ensures r.Some? ==> forall it :: it in r.value ==>
      it.regionScope == [] && it.jobs == [] && it.minAge == 0 && it.maxAge == 120 && Truthy(it.name)
  {
    match src
    case PList(rs) =>
      if forall i :: 0 <= i < |rs| ==> rs[i].PDict? then
        Some(seq(|rs|, i requires 0 <= i < |rs| => MapItem(rs[i].entries)))
      else None
    case PStr(s) => if s == [] then Some([]) else None
    case PDict(e) => if e == [] then Some([]) else None
    case _ => None
  }

  /** A single record is treated as a list of one. */
  function Wrap(src: PyValue): (r: PyValue)
    ensures src.PDict? ==> r == PList([src])
    ensures !src.PDict? ==> r == src
  {
    if src.PDict? then PList([src]) else src
  }

  /** `body.get("items") or body.get("item") or []` on a record. */
  function ItemsOf(body: Dict): PyValue {
    Or(Or(Get(body, "items"), Get(body, "item")), PList([]))
  }

  /** The parse step: the records found in the decoded response, mapped;
      None when the parsing raises. A response that is not a dict has no
      records. */
  function ExtractItems(raw: PyValue): (r: Option<seq<Item>>)
    ensures r.Some? ==> forall it :: it in r.value ==>
      it.regionScope == [] && it.jobs == [] && it.minAge == 0 && it.maxAge == 120 && Truthy(it.name)
  {
    if !raw.PDict? then Some([])
    else
      var d := raw.entries;
      if HasKey(d, "response") then
        match DictGetOr(Get(d, "response"), "body", PDict([]))
        case None => None
        case Some(body) =>
          if !body.PDict? then None else MapAll(Wrap(ItemsOf(body.entries)))
      else if HasKey(d, "data") then MapAll(Get(d, "data"))
      else if HasKey(d, "items") then MapAll(Get(d, "items"))
      else
        var resp := Or(Or(Get(d, "response"), Get(d, "Response")), PDict([]));
        var body := Or(if resp.PDict? then Get(resp.entries, "body") else PDict([]), PDict([]));
        if !body.PDict? then None
        else
          var src := Wrap(ItemsOf(body.entries));
          if Truthy(src) then MapAll(src) else Some([])
  }

  /** A portal-style response `{"response": {"body": {"items": ...}}}`. */
  function PortalResponse(items: PyValue): PyValue {
    PDict([("response", PDict([("body", PDict([("items", items)]))]))])
  }

  /** A portal-style response is read from its `body.items`, by both
      extractions. */
  lemma PortalPath(items: PyValue)
    ensures ExtractItems(PortalResponse(items)) == MapAll(Wrap(ItemsOf([("items", items)])))
    ensures ExtractItemsCorrected(PortalResponse(items)) == MapAll(Wrap(Unwrap(ItemsOf([("items", items)]))))
  {
    var raw := PortalResponse(items);
    assert raw.entries[0].0 == "response";
    var resp := Get(raw.entries, "response");
    assert resp.entries[0].0 == "body";
    assert DictGetOr(resp, "body", PDict([])) == Some(PDict([("items", items)]));
  }

  /** The records as a list value. */
  function Records(rs: seq<Dict>): (v: PyValue)
    ensures v.PList? && |v.items| == |rs|
    ensures forall i :: 0 <= i < |rs| ==> v.items[i] == PDict(rs[i])
  {
    PList(seq(|rs|, i requires 0 <= i < |rs| => PDict(rs[i])))
  }

  /** The portal shape with a list of records under `items` is read record
      by record, and so is the shape whose `items` is a single record. */
  lemma PortalListIsMapped(rs: seq<Dict>)
    requires rs != []
    ensures var out := ExtractItems(PortalResponse(Records(rs)));
      out.Some? && |out.value| == |rs| && forall i :: 0 <= i < |rs| ==> out.value[i] == MapItem(rs[i])
  {
    PortalPath(Records(rs));
    assert ItemsOf([("items", Records(rs))]) == Records(rs);
  }

  /** `fetch_welfare_programs` after the request: the mapped records, or
      None when it falls back to the bundled sample programmes because the
      parse raised or found nothing. */
  function Programs(raw: PyValue): (r: Option<seq<Item>>)
    ensures r.Some? ==> r.value != []
    ensures r.Some? ==> forall it :: it in r.value ==> it.regionScope == [] && it.jobs == [] && Truthy(it.name)
    ensures r.None? <==> ExtractItems(raw).None? || ExtractItems(raw).value == []
  {
    OrSample(ExtractItems(raw))
  }

  /** The same over the corrected extraction (`ExtractItemsCorrected`),
      which reads the portal's `items.item` container. */
  function ProgramsCorrected(raw: PyValue): (r: Option<seq<Item>>)
    ensures r.Some? ==> r.value != []
    ensures r.Some? ==> forall it :: it in r.value ==> it.regionScope == [] && it.jobs == [] && Truthy(it.name)
    ensures r.None? <==> ExtractItemsCorrected(raw).None? || ExtractItemsCorrected(raw).value == []
  {
    OrSample(ExtractItemsCorrected(raw))
  }

  /** `if not items: return _load_mock_data()`: None stands for the sample
      programmes, taken when the parse raised or found nothing. */
  function OrSample(items: Option<seq<Item>>): Option<seq<Item>> {
    if items.None? || items.value == [] then None else items
  }

  // ---------------------------------------------------------------------
  // The items container of the portal format
  // ---------------------------------------------------------------------

  /** In the portal format the records sit one level further down, in
      `items.item`, which holds a list of records or a single record. The
      extraction as written wraps the `items` container itself into a list
      of one and maps it: the result is one programme named "무제", built
      from the container, and the real records are lost. */
  lemma ItemsContainerAsWritten(rs: seq<Dict>)
    ensures var container := PDict([("item", Records(rs))]);
      var out := ExtractItems(PortalResponse(container));
      && out.Some? && |out.value| == 1
      && out.value[0] == MapItem(container.entries)
      && out.value[0].name == PStr(UNTITLED)
  {
    var container := PDict([("item", Records(rs))]);
    PortalPath(container);
    assert ItemsOf([("items", container)]) == container;
    assert Wrap(container) == PList([container]);
    MapOne(container.entries);
    ContainerUntitled(Records(rs));
  }

  /** A list of one record maps to that record's programme. */
  lemma MapOne(d: Dict)
    ensures MapAll(PList([PDict(d)])) == Some([MapItem(d)])
  {
    var src := PList([PDict(d)]);
    assert src.items[0].PDict?;
    var r := MapAll(src);
    assert r.Some? && |r.value| == 1 && r.value[0] == MapItem(d);
    assert r.value == [MapItem(d)];
  }

  /** A container, mapped as a record, has none of the name fields. */
  lemma ContainerUntitled(v: PyValue)
    ensures MapItem([("item", v)]).name == PStr(UNTITLED)
  {
    var d := [("item", v)];
    assert Get(d, "servNm") == PNone && Get(d, "title") == PNone && Get(d, "name") == PNone;
  }

  /** The records under a container's `item`, or the value itself when it
      is not such a container. */
  function Unwrap(src: PyValue): (r: PyValue)
    ensures !src.PDict? ==> r == src
    ensures src.PDict? && HasKey(src.entries, "item") && Truthy(Get(src.entries, "item")) ==> r == Get(src.entries, "item")
  {
    if src.PDict? && HasKey(src.entries, "item") then Or(Get(src.entries, "item"), PList([])) else src
  }

  /** The record source of a response: where `ExtractItemsCorrected` finds
      the records, the `items` container unwrapped. None stands for the
      parse raising, which `MapAll` reports as it does for any value that
      cannot be iterated. */
  function ExtractSource(raw: PyValue): PyValue
    requires raw.PDict?
  {
    var d := raw.entries;
    if HasKey(d, "response") then
      match DictGetOr(Get(d, "response"), "body", PDict([]))
      case None => PNone
      case Some(body) => if !body.PDict? then PNone else Wrap(Unwrap(ItemsOf(body.entries)))
    else if HasKey(d, "data") then Get(d, "data")
    else if HasKey(d, "items") then Get(d, "items")
    else
      var resp := Or(Or(Get(d, "response"), Get(d, "Response")), PDict([]));
      var body := Or(if resp.PDict? then Get(resp.entries, "body") else PDict([]), PDict([]));
      if !body.PDict? then PNone else Wrap(Unwrap(ItemsOf(body.entries)))
  }

  /** The extraction with the container unwrapped before the records are
      mapped. */
  function ExtractItemsCorrected(raw: PyValue): (r: Option<seq<Item>>)
    ensures r.Some? ==> forall it :: it in r.value ==>
      it.regionScope == [] && it.jobs == [] && it.minAge == 0 && it.maxAge == 120 && Truthy(it.name)
  {
    if !raw.PDict? then Some([]) else MapAll(ExtractSource(raw))
  }

  /** Corrected, the portal format with its records in `items.item` yields
      one programme per record. */
  lemma ItemsContainerCorrected(rs: seq<Dict>)
    ensures var container := PDict([("item", Records(rs))]);
      var out := ExtractItemsCorrected(PortalResponse(container));
      && out.Some? && |out.value| == |rs|
      && forall i :: 0 <= i < |rs| ==> out.value[i] == MapItem(rs[i])
  {
    var container := PDict([("item", Records(rs))]);
    PortalPath(container);
    assert ItemsOf([("items", container)]) == container;
    assert container.entries[0].0 == "item";
    assert Unwrap(container) == Records(rs);
  }

  /** Where no container is involved the correction changes nothing: a
      response whose records are listed directly under `items` is read the
      same way by both. */
  lemma CorrectionAgreesOnLists(rs: seq<Dict>)
    ensures ExtractItemsCorrected(PortalResponse(Records(rs))) == ExtractItems(PortalResponse(Records(rs)))
  {
    PortalPath(Records(rs));
    if rs == [] {
      assert ItemsOf([("items", Records(rs))]) == PList([]);
    } else {
      assert ItemsOf([("items", Records(rs))]) == Records(rs);
    }
  }
}
