/** The client's welfare request: the wizard's selections (region, job,
    age group, preference) become the filter payload the backend's
    recommendation endpoint reads, and a stored sign-in token becomes an
    Authorization header. */
module WelfareApi {
  import opened Common
  import opened PyValues
  import WelfareProvider

  // ---------------------------------------------------------------------
  // Region codes
  // ---------------------------------------------------------------------

  /** `REGION_CODE_MAP`: the seventeen region names and their
      administrative codes. */
  const REGION_CODE: seq<(string, string)> := [
    ("서울", "11"), ("부산", "26"), ("대구", "27"), ("인천", "28"), ("광주", "29"), ("대전", "30"),
    ("울산", "31"), ("세종", "36"), ("경기", "41"), ("강원", "51"), ("충북", "43"), ("충남", "44"),
    ("전북", "45"), ("전남", "46"), ("경북", "47"), ("경남", "48"), ("제주", "50")]

  /** The value stored under `key`, or nothing when the key is absent. */
  function Find(t: seq<(string, string)>, key: string): (r: Option<string>)
    ensures r.None? <==> forall i :: 0 <= i < |t| ==> t[i].0 != key
    ensures forall i :: 0 <= i < |t| && t[i].0 == key && (forall j :: 0 <= j < i ==> t[j].0 != key) ==> r == Some(t[i].1)
  {
    if t == [] then None
    else if t[0].0 == key then Some(t[0].1)
    else Find(t[1..], key)
  }

  /** `regionName ? (REGION_CODE_MAP[regionName] || null) : null` */
  function RegionCode(region: Option<string>): (r: Option<string>)
    ensures region.None? || region.value == [] ==> r.None?
    ensures r.Some? ==> exists i :: 0 <= i < |REGION_CODE| && REGION_CODE[i] == (region.value, r.value)
  {
    if region.Some? && region.value != [] then
      FoundEntry(REGION_CODE, region.value);
      Find(REGION_CODE, region.value)
    else None
  }

  /** What `Find` returns is stored under the key. */
  lemma {:induction false} FoundEntry(t: seq<(string, string)>, key: string)
    ensures Find(t, key).Some? ==> exists i :: 0 <= i < |t| && t[i] == (key, Find(t, key).value)
  {
    if t != [] && t[0].0 != key {
      FoundEntry(t[1..], key);
      if Find(t, key).Some? {
        var i :| 0 <= i < |t[1..]| && t[1..][i] == (key, Find(t, key).value);
        assert t[i + 1] == t[1..][i];
      }
    }
  }

  /** A known region name yields its code; an unknown, empty or absent
      region yields no code. */
  lemma RegionCodeLookup(region: Option<string>)
    ensures RegionCode(region).None? <==>
      region.None? || forall i :: 0 <= i < |REGION_CODE| ==> REGION_CODE[i].0 != region.value
    ensures forall i :: 0 <= i < |REGION_CODE| && region == Some(REGION_CODE[i].0) ==>
      RegionCode(region) == Some(REGION_CODE[i].1)
  {
    CodeTable();
  }

  /** The names of the table are distinct, and no name or code is empty. */
  lemma CodeTable()
    ensures WelfareProvider.KeysDistinct(REGION_CODE)
    ensures forall i :: 0 <= i < |REGION_CODE| ==> REGION_CODE[i].0 != [] && REGION_CODE[i].1 != []
  {
    NamesDiffer();
  }

  /** Any two names differ in their first or their second character. */
  lemma NamesDiffer()
    ensures forall i :: 0 <= i < |REGION_CODE| ==> |REGION_CODE[i].0| == 2
    ensures forall i, j :: 0 <= i < j < |REGION_CODE| ==>
      REGION_CODE[i].0[0] != REGION_CODE[j].0[0] || REGION_CODE[i].0[1] != REGION_CODE[j].0[1]
  {
  }

  /** The provider's name table lists the same pairs the other way round. */
  lemma TablesMirror()
    ensures |WelfareProvider.REGION_NAME| == |REGION_CODE|
    ensures forall k :: 0 <= k < |REGION_CODE| ==>
      WelfareProvider.REGION_NAME[k] == (REGION_CODE[k].1, REGION_CODE[k].0)
  {
  }

  lemma CodeAt(i: nat)
    requires i < |REGION_CODE|
    ensures RegionCode(Some(REGION_CODE[i].0)) == Some(REGION_CODE[i].1)
  {
    CodeTable();
  }

  /** The client's code table and the provider's name table are inverse to
      each other: the backend searches for exactly the region name the
      user picked. */
  lemma RegionRoundTrip(i: nat)
    requires i < |REGION_CODE|
    ensures RegionCode(Some(REGION_CODE[i].0)).Some?
    ensures WelfareProvider.RegionName(RegionCode(Some(REGION_CODE[i].0)).value) == REGION_CODE[i].0
  {
    CodeAt(i);
    TablesMirror();
    WelfareProvider.RegionNameLookup(REGION_CODE[i].1);
  }

  // ---------------------------------------------------------------------
  // The payload
  // ---------------------------------------------------------------------

  /** The wizard's stored selections; a missing selection is `None`. */
  datatype Selections = Selections(
    region: Option<string>,
    job: Option<string>,
    ageGroup: Option<string>,
    pref: Option<string>)

  /** The filters sent to the backend. */
  datatype Payload = Payload(
    regionCode: Option<string>,
    jobCategory: Option<string>,
    age: Option<int>,
    preferences: seq<string>)

  const WORKER: string := "근로자"
  const EMPLOYEE: string := "직장인"

  /** Job: a worker is searched as an employee, any other job as given. */
  function JobCategory(job: Option<string>): (r: Option<string>)
    ensures job.None? || job.value == [] <==> r.None?
    ensures job == Some(WORKER) ==> r == Some(EMPLOYEE)
    ensures job.Some? && job.value != [] && job.value != WORKER ==> r == job
  {
    if job.Some? && job.value != [] then
      if job.value == WORKER then Some(EMPLOYEE) else job
    else None
  }

  /** Age group to a representative age: youth 29, middle age 45, senior 68. */
  function AgeOf(ageGroup: Option<string>): (r: Option<int>)
    ensures r.Some? ==> r.value in {29, 45, 68}
    ensures r.None? <==> ageGroup !in {Some("청년"), Some("중장년"), Some("시니어")}
  {
    if ageGroup == Some("청년") then Some(29)
    else if ageGroup == Some("중장년") then Some(45)
    else if ageGroup == Some("시니어") then Some(68)
    else None
  }

  /** Preference to welfare categories: welfare first, finance first, or both. */
  function PreferencesOf(pref: Option<string>): (r: seq<string>)
    ensures r == [] <==> pref !in {Some("복지 우선"), Some("금융 우선"), Some("둘 다")}
    ensures forall c :: c in r ==> c in {"주거", "의료", "생계", "저소득", "교육"}
  {
    if pref == Some("복지 우선") then ["주거", "의료", "생계"]
    else if pref == Some("금융 우선") then ["저소득", "생계"]
    else if pref == Some("둘 다") then ["주거", "의료", "교육", "생계"]
    else []
  }

  /** `mapProfileToPayload`: each filter comes from its own selection, a
      region code only from the table entry of the region picked. */
  function PayloadOf(s: Selections): (r: Payload)
    ensures r.regionCode.Some? ==>
      s.region.Some? && exists i :: 0 <= i < |REGION_CODE| && REGION_CODE[i] == (s.region.value, r.regionCode.value)
    ensures r.jobCategory.None? <==> s.job.None? || s.job.value == []
    ensures r.age.Some? ==> r.age.value in {29, 45, 68}
    ensures r.preferences == [] <==> s.pref !in {Some("복지 우선"), Some("금융 우선"), Some("둘 다")}
  {
    Payload(RegionCode(s.region), JobCategory(s.job), AgeOf(s.ageGroup), PreferencesOf(s.pref))
  }

  /** The request body: exactly the four filters, with `null` for an
      absent one. */
  function Body(p: Payload): (d: Dict)
    ensures |d| == 4
  {
    [("region_code", if p.regionCode.Some? then PStr(p.regionCode.value) else PNone),
     ("job_category", if p.jobCategory.Some? then PStr(p.jobCategory.value) else PNone),
     ("age", if p.age.Some? then PInt(p.age.value) else PNone),
     ("preferences", PList(seq(|p.preferences|, i requires 0 <= i < |p.preferences| => PStr(p.preferences[i]))))]
  }

  /** What the backend reads from the body: each filter as mapped, and
      never a household size or a recognised income (so the provider's
      income score stays neutral). */
  lemma BodyCarriesPayload(s: Selections)
    ensures var p := PayloadOf(s);
      var d := Body(p);
      && (Get(d, "region_code") == PNone <==> p.regionCode.None?)
      && (Get(d, "job_category") == PNone <==> p.jobCategory.None?)
      && (Get(d, "age") == PNone <==> p.age.None?)
      && Get(d, "household_size") == PNone
      && Get(d, "recognized_income") == PNone
      && (p.regionCode.Some? ==> Get(d, "region_code") == PStr(p.regionCode.value))
      && (p.age.Some? ==> Get(d, "age") == PInt(p.age.value))
  {
    BodyLookups(PayloadOf(s));
  }

  /** Each filter is read from its own entry; other names find nothing. */
  lemma BodyLookups(p: Payload)
    ensures var d := Body(p);
      && Get(d, "region_code") == d[0].1
      && Get(d, "job_category") == d[1].1
      && Get(d, "age") == d[2].1
      && Get(d, "household_size") == PNone
      && Get(d, "recognized_income") == PNone
  {
    var d := Body(p);
    assert Get(d, "job_category") == Get(d[1..], "job_category") == d[1].1;
    assert Get(d, "age") == Get(d[1..], "age") == Get(d[2..], "age") == d[2].1;
    AbsentFromBody(d, "household_size");
    AbsentFromBody(d, "recognized_income");
  }

  lemma AbsentFromBody(d: Dict, key: string)
    requires |d| == 4 && d[0].0 == "region_code" && d[1].0 == "job_category" && d[2].0 == "age" && d[3].0 == "preferences"
    requires key in {"household_size", "recognized_income"}
    ensures Get(d, key) == PNone
  {
  }

  /** The keywords the provider builds from the payload: a known region is
      searched by the very name the user picked, and a worker as an
      employee. */
  lemma PayloadKeywords(s: Selections, i: nat)
    requires i < |REGION_CODE| && s.region == Some(REGION_CODE[i].0)
    ensures var p := PayloadOf(s);
      var k := WelfareProvider.Keywords(p.jobCategory, p.regionCode, p.age, p.preferences);
      REGION_CODE[i].0 in k
  {
    CodeAt(i);
    RegionRoundTrip(i);
    CodesGiven(i);
    var p := PayloadOf(s);
    var code := REGION_CODE[i].1;
    assert p.regionCode == Some(code);
    KeywordsHoldRegion(p.jobCategory, code, p.age, p.preferences);
  }

  /** A given region code puts its name among the keywords. */
  lemma KeywordsHoldRegion(job: Option<string>, code: string, age: Option<int>, preferences: seq<string>)
    requires code != []
    ensures WelfareProvider.RegionName(code) in WelfareProvider.Keywords(job, Some(code), age, preferences)
  {
    var k := WelfareProvider.Keywords(job, Some(code), age, preferences);
    var n := if WelfareProvider.Given(job) then 1 else 0;
    assert n < |k| && k[n] == WelfareProvider.RegionName(code);
  }

  /** Every code is non-empty, so a known region is always searched. */
  lemma CodesGiven(i: nat)
    requires i < |REGION_CODE|
    ensures WelfareProvider.Given(RegionCode(Some(REGION_CODE[i].0)))
  {
    CodeAt(i);
    CodeTable();
  }

  // ---------------------------------------------------------------------
  // Authorization header
  // ---------------------------------------------------------------------

  /** Request headers, in insertion order, with distinct names. */
  type Headers = seq<(string, string)>

  /** `{ ...h, [name]: value }`: an existing header keeps its place and
      takes the new value; a new one goes last. */
  function Put(h: Headers, name: string, value: string): (r: Headers)
    requires WelfareProvider.KeysDistinct(h)
    ensures WelfareProvider.KeysDistinct(r)
    ensures Find(r, name) == Some(value)
    ensures forall n :: n != name ==> Find(r, n) == Find(h, n)
    ensures |r| == if Find(h, name).Some? then |h| else |h| + 1
  {
    if h == [] then [(name, value)]
    else if h[0].0 == name then
      var r := [(name, value)] + h[1..];
      assert r[1..] == h[1..];
      r
    else
      var rest := Put(h[1..], name, value);
      var r := [h[0]] + rest;
      assert r[1..] == rest;
      assert Find(h[1..], h[0].0).None?;
      assert Find(rest, h[0].0).None?;
      r
  }

  const AUTHORIZATION: string := "Authorization"

  /** `withAuth`: the bearer token is added only when one is stored (an
      unreadable store counts as none). */
  function WithAuth(h: Headers, token: Option<string>): (r: Headers)
    requires WelfareProvider.KeysDistinct(h)
    ensures WelfareProvider.KeysDistinct(r)
    ensures token.None? || token.value == [] ==> r == h
    ensures token.Some? && token.value != [] ==>
      && Find(r, AUTHORIZATION) == Some("Bearer " + token.value)
      && forall n :: n != AUTHORIZATION ==> Find(r, n) == Find(h, n)
  {
    if token.Some? && token.value != [] then Put(h, AUTHORIZATION, "Bearer " + token.value) else h
  }

  /** Adding the header twice is the same as adding it once, and a newer
      token replaces an older one. */
  lemma WithAuthReplaces(h: Headers, first: string, second: string)
    requires WelfareProvider.KeysDistinct(h) && first != [] && second != []
    ensures WithAuth(WithAuth(h, Some(first)), Some(second)) == WithAuth(h, Some(second))
  {
    PutTwice(h, AUTHORIZATION, "Bearer " + first, "Bearer " + second);
  }

  lemma {:induction false} PutTwice(h: Headers, name: string, a: string, b: string)
    requires WelfareProvider.KeysDistinct(h)
    ensures Put(Put(h, name, a), name, b) == Put(h, name, b)
    decreases |h|
  {
    if h == [] {
    } else if h[0].0 == name {
      assert Put(h, name, a)[1..] == h[1..];
    } else {
      PutTwice(h[1..], name, a, b);
      assert Put(h, name, a)[1..] == Put(h[1..], name, a);
    }
  }
}
