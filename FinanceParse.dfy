/** The tolerant number readers the savings recommender applies to fields
    of the product records (`_parse_float`, `_parse_int`,
    `_parse_currency`): numbers pass through, text is read as Python's
    `float()` or `int()` would read it, and anything unreadable is None. */
module FinanceParse {
  import opened Common
  import opened PyValues

  /** `float(t)` on text without white space, exponent, `inf`, `nan` or
      digit-group underscores: an optional sign and a decimal numeral. */
  function FloatText(t: string): (r: Option<real>)
    ensures r.Some? ==> t != []
  {
    if t != [] && (t[0] == '-' || t[0] == '+') then
      match UnsignedDecimal(t[1..])
      case None => None
      case Some(x) => Some(if t[0] == '-' then -x else x)
    else UnsignedDecimal(t)
  }

  /** `int(t)` on text without white space or underscores: an optional sign
      and one or more digits. */
  function IntText(t: string): (r: Option<int>)
    ensures r.Some? ==> t != [] && '.' !in t
  {
    var neg := t != [] && t[0] == '-';
    var body := if t != [] && (t[0] == '-' || t[0] == '+') then t[1..] else t;
    if body != [] && AllDigits(body) then
      assert forall i :: 0 <= i < |t| ==> t[i] != '.' by {
        forall i | 0 <= i < |t| ensures t[i] != '.' {
          if body != t && i > 0 { assert t[i] == body[i - 1]; }
        }
      }
      Some(if neg then -(DigitsValue(body) as int) else DigitsValue(body))
    else None
  }

  /** `_parse_float`: None stays None, a number (a boolean counts as one)
      becomes a float, and anything else is read from its `str()` after
      stripping. The `str()` of a list or a dict starts with a bracket, so
      those never parse. */
  function ParseFloat(v: PyValue): (r: Option<real>)
    ensures v == PNone ==> r == None
    ensures IsNumber(v) ==> r == Some(AsFloat(v))
    ensures v.PList? || v.PDict? ==> r == None
  {
    match v
    case PNone => None
    case PBool(_) => Some(AsFloat(v))
    case PInt(_) => Some(AsFloat(v))
    case PFloat(_) => Some(AsFloat(v))
    case PStr(s) => FloatText(PyStrip(s))
    case PList(_) => None
    case PDict(_) => None
  }

  /** `_parse_int`: an integer (a boolean counts as one) is kept, text is
      read by `int()` after stripping, and a float is always None, since its
      `str()` carries a point, an exponent or `inf`/`nan`, none of which
      `int()` accepts. */
  function ParseInt(v: PyValue): (r: Option<int>)
    ensures v.PFloat? || v == PNone || v.PList? || v.PDict? ==> r == None
    ensures v.PInt? ==> r == Some(v.i)
  {
    match v
    case PNone => None
    case PBool(b) => Some(if b then 1 else 0)
    case PInt(i) => Some(i)
    case PFloat(_) => None
    case PStr(s) => IntText(PyStrip(s))
    case PList(_) => None
    case PDict(_) => None
  }

  predicate NumericChar(c: char) { IsDigit(c) || c == '.' || c == '-' }

  /** `re.sub(r"[^0-9.\-]", "", s)`: the digits, points and minus signs of
      `s`, in order. */
  function KeepNumeric(s: string): (r: string)
    ensures |r| <= |s|
  {
    if s == [] then []
    else if NumericChar(s[0]) then [s[0]] + KeepNumeric(s[1..])
    else KeepNumeric(s[1..])
  }

  /** The cleaned text holds exactly the digits, points and minus signs of
      the text. */
  lemma {:induction false} KeepNumericChars(s: string)
    ensures forall c :: c in KeepNumeric(s) ==> NumericChar(c) && c in s
    ensures forall c :: c in s && NumericChar(c) ==> c in KeepNumeric(s)
  {
    if s != [] {
      KeepNumericChars(s[1..]);
      assert s == [s[0]] + s[1..];
    }
  }

  /** The cleaned strings `_parse_currency` turns away before trying
      `float()`. */
  const REJECTED: set<string> := {"", "-", ".", "-.", ".-"}

  /** One character of a text as `repr()` writes it between quotes `q`:
      the backslash, the quote itself and the three common control
      characters are escaped. */
  function EscapeChar(c: char, q: char): string {
    if c == '\\' || c == q then ['\\', c]
    else if c == '\n' then "\\n"
    else if c == '\t' then "\\t"
    else if c == '\r' then "\\r"
    else [c]
  }

  function Escaped(s: string, q: char): string {
    if s == [] then [] else EscapeChar(s[0], q) + Escaped(s[1..], q)
  }

  /** `repr()` of a text: in double quotes when it holds a single quote and
      no double quote, in single quotes otherwise. */
  function TextRepr(s: string): string {
    var q := if '\'' in s && '"' !in s then '"' else '\'';
    [q] + Escaped(s, q) + [q]
  }

  /** `repr()` of a decoded JSON value, as `str()` writes the elements of a
      list or a dictionary; None where a float's `repr()` would be needed,
      its shortest round-trip digits not being modelled. */
  function PyRepr(v: PyValue): (r: Option<string>)
    ensures v.PList? && v.items == [] ==> r == Some("[]")
    ensures v.PDict? && v.entries == [] ==> r == Some("{}")
    decreases v, 1
  {
    match v
    case PNone => Some("None")
    case PBool(b) => Some(if b then "True" else "False")
    case PInt(i) => Some(ShowInt(i))
    case PFloat(_) => None
    case PStr(s) => Some(TextRepr(s))
    case PList(items) =>
      (match ItemsRepr(v, items)
       case None => None
       case Some(t) =>
         assert items == [] ==> "[" + t + "]" == "[]";
         Some("[" + t + "]"))
    case PDict(entries) =>
      (match EntriesRepr(v, entries)
       case None => None
       case Some(t) =>
         assert entries == [] ==> "{" + t + "}" == "{}";
         Some("{" + t + "}"))
  }

  /** The elements of a list, written by `repr()` and separated by ", ". */
  function ItemsRepr(ghost parent: PyValue, items: seq<PyValue>): (r: Option<string>)
    requires forall i :: 0 <= i < |items| ==> items[i] < parent
    ensures items == [] ==> r == Some("")
    decreases parent, 0, |items|
  {
    if items == [] then Some("")
    else
      match (ItemsRepr(parent, items[..|items| - 1]), PyRepr(items[|items| - 1]))
      case (Some(a), Some(b)) => Some(if |items| == 1 then b else a + ", " + b)
      case _ => None
  }

  /** The entries of a dictionary, each written `'key': value`, separated
      by ", ". */
  function EntriesRepr(ghost parent: PyValue, entries: seq<(string, PyValue)>): (r: Option<string>)
    requires forall i :: 0 <= i < |entries| ==> entries[i].1 < parent
    ensures entries == [] ==> r == Some("")
    decreases parent, 0, |entries|
  {
    if entries == [] then Some("")
    else
      var (k, x) := entries[|entries| - 1];
      match (EntriesRepr(parent, entries[..|entries| - 1]), PyRepr(x))
      case (Some(a), Some(b)) =>
        var e := TextRepr(k) + ": " + b;
        Some(if |entries| == 1 then e else a + ", " + e)
      case _ => None
  }

  /** `float()` of the digits, points and minus signs of a text, with the
      five cleaned strings `_parse_currency` turns away first. */
  function CurrencyText(s: string): (r: Option<real>)
    ensures KeepNumeric(s) in REJECTED ==> r == None
  {
    var cleaned := KeepNumeric(s);
    if cleaned in REJECTED then None else FloatText(cleaned)
  }

  /** `_parse_currency`: numbers pass through; anything else is cleaned of
      every character but digits, points and minus signs and read by
      `float()`, text as it is and a list or a dictionary from its `str()`,
      which is its `repr()`. */
  function ParseCurrency(v: PyValue): (r: Option<real>)
    ensures v == PNone ==> r == None
    ensures IsNumber(v) ==> r == Some(AsFloat(v))
    ensures (v.PList? && v.items == []) || (v.PDict? && v.entries == []) ==> r == None
  {
    match v
    case PNone => None
    case PBool(_) => Some(AsFloat(v))
    case PInt(_) => Some(AsFloat(v))
    case PFloat(_) => Some(AsFloat(v))
    case PStr(s) => CurrencyText(s)
    case PList(_) => if PyRepr(v).Some? then CurrencyText(PyRepr(v).value) else None
    case PDict(_) => if PyRepr(v).Some? then CurrencyText(PyRepr(v).value) else None
  }

  // ---------------------------------------------------------------------
  // Properties
  // ---------------------------------------------------------------------

  /** The explicit rejection list is already covered by `float()`: none of
      its strings is a numeral, so the currency reader is `float()` of the
      cleaned text. */
  lemma RejectedAreNotNumerals(s: string)
    ensures ParseCurrency(PStr(s)) == FloatText(KeepNumeric(s))
  {
    var c := KeepNumeric(s);
    if c in REJECTED {
      assert c == "" || c == "-" || c == "." || c == "-." || c == ".-";
      if c == ".-" {
        assert DotIndex(c) == 0;
        assert !AllDigits(c[1..]) by { assert c[1..][0] == '-'; }
      }
      if c == "-." {
        assert c[1..] == ".";
        assert DotIndex(c[1..]) == 0;
      }
    }
  }

  lemma AllDigitsShowNat(n: nat)
    ensures '-' !in ShowNat(n) && '+' !in ShowNat(n) && '.' !in ShowNat(n)
    ensures DotIndex(ShowNat(n)) == |ShowNat(n)|
  {
    var s := ShowNat(n);
    assert forall i :: 0 <= i < |s| ==> IsDigit(s[i]);
  }

  /** `int()` reads back what `str()` writes for every integer. */
  lemma IntTextOfShow(n: int)
    ensures IntText(ShowInt(n)) == Some(n)
  {
    var m := if n < 0 then -n else n;
    DigitsValueOfShowNat(m);
    if n < 0 {
      NegativeDigitsText(ShowNat(m));
    } else {
      DigitsText(ShowNat(m));
    }
  }

  /** `int()` reads a run of digits as its value... */
  lemma DigitsText(d: string)
    requires d != [] && AllDigits(d)
    ensures IntText(d) == Some(DigitsValue(d))
  {
    assert IsDigit(d[0]);
  }

  /** ...and the run after a minus sign as the value's negation. */
  lemma NegativeDigitsText(d: string)
    requires d != [] && AllDigits(d)
    ensures IntText("-" + d) == Some(-(DigitsValue(d) as int))
  {
    assert ("-" + d)[1..] == d;
  }

  /** Whatever `int()` reads, `float()` reads to the same value. */
  lemma IntTextIsFloatText(t: string)
    requires IntText(t).Some?
    ensures FloatText(t) == Some(IntText(t).value as real)
  {
    var body := if t[0] == '-' || t[0] == '+' then t[1..] else t;
    assert DotIndex(body) == |body| by {
      assert forall i :: 0 <= i < |body| ==> IsDigit(body[i]);
    }
  }

  /** The same holds for the readers themselves, on every value: when
      `_parse_int` yields n, `_parse_float` yields n. */
  lemma ParseIntThenFloat(v: PyValue)
    requires ParseInt(v).Some?
    ensures ParseFloat(v) == Some(ParseInt(v).value as real)
  {
    if v.PStr? {
      IntTextIsFloatText(PyStrip(v.s));
    }
  }

  /** A decimal integer written out as text, with nothing around it, is
      read back by all three readers. */
  lemma ReadersReadShownIntegers(n: int)
    ensures ParseInt(PStr(ShowInt(n))) == Some(n)
    ensures ParseFloat(PStr(ShowInt(n))) == Some(n as real)
    ensures ParseCurrency(PStr(ShowInt(n))) == Some(n as real)
  {
    IntReadsShown(n);
    FloatReadsShown(n);
    CurrencyReadsShown(n);
  }

  lemma IntReadsShown(n: int)
    ensures ParseInt(PStr(ShowInt(n))) == Some(n)
  {
    ShownIntText(n);
  }

  lemma FloatReadsShown(n: int)
    ensures ParseFloat(PStr(ShowInt(n))) == Some(n as real)
  {
    ShownIntText(n);
    FloatOfIntText(ShowInt(n));
  }

  lemma FloatOfIntText(t: string)
    requires PyStrip(t) == t && IntText(t).Some?
    ensures ParseFloat(PStr(t)) == Some(IntText(t).value as real)
  {
    IntTextIsFloatText(t);
  }

  lemma CurrencyReadsShown(n: int)
    ensures ParseCurrency(PStr(ShowInt(n))) == Some(n as real)
  {
    var s := ShowInt(n);
    ShownIntText(n);
    IntTextIsFloatText(s);
    KeepNumericKeeps(s);
    RejectedAreNotNumerals(s);
  }

  /** The text of an integer has no white space to strip, is made of
      numeric characters only, and `int()` reads it back. */
  lemma ShownIntText(n: int)
    ensures PyStrip(ShowInt(n)) == ShowInt(n)
    ensures forall i :: 0 <= i < |ShowInt(n)| ==> NumericChar(ShowInt(n)[i])
    ensures IntText(ShowInt(n)) == Some(n)
  {
    var s := ShowInt(n);
    if n < 0 {
      assert s[1..] == ShowNat(-n);
      assert forall i :: 1 <= i < |s| ==> IsDigit(s[i]) by {
        forall i | 1 <= i < |s| ensures IsDigit(s[i]) {
          assert s[i] == ShowNat(-n)[i - 1];
        }
      }
    }
    assert s[0] == '-' || IsDigit(s[0]);
    assert IsDigit(s[|s| - 1]);
    TrimKeeps(s, IsPySpace);
    IntTextOfShow(n);
  }

  lemma {:induction false} KeepNumericKeeps(s: string)
    requires forall i :: 0 <= i < |s| ==> NumericChar(s[i])
    ensures KeepNumeric(s) == s
    decreases |s|
  {
    if s != [] {
      KeepNumericKeeps(s[1..]);
    }
  }

  /** A list is read through its `str()`: the digits of `[1, 2]` run
      together into 12, and so for any two one-digit integers. */
  lemma CurrencyOfList(a: nat, b: nat)
    requires 1 <= a < 10 && b < 10
    ensures ParseCurrency(PList([PInt(a), PInt(b)])) == Some((10 * a + b) as real)
  {
    var text := "[" + [DigitChar(a)] + ", " + [DigitChar(b)] + "]";
    ListRepr(a, b);
    ListTextKeep(a, b);
    assert ShowNat(10 * a + b) == [DigitChar(a), DigitChar(b)] by {
      assert (10 * a + b) / 10 == a && (10 * a + b) % 10 == b;
    }
    CurrencyIgnoresDecoration(text, 10 * a + b);
  }

  lemma ListTextKeep(a: nat, b: nat)
    requires a < 10 && b < 10
    ensures KeepNumeric("[" + [DigitChar(a)] + ", " + [DigitChar(b)] + "]") == [DigitChar(a), DigitChar(b)]
  {
    var da := [DigitChar(a)];
    var db := [DigitChar(b)];
    KeepNumericAppend("[", da);
    KeepNumericAppend("[" + da, ", ");
    KeepNumericAppend("[" + da + ", ", db);
    KeepNumericAppend("[" + da + ", " + db, "]");
    KeepNumericChar(DigitChar(a), []);
    KeepNumericChar(DigitChar(b), []);
    assert KeepNumeric("[") == [] && KeepNumeric(", ") == [] && KeepNumeric("]") == [];
  }

  lemma {:induction false} KeepNumericAppend(x: string, y: string)
    ensures KeepNumeric(x + y) == KeepNumeric(x) + KeepNumeric(y)
  {
    if x == [] {
      assert x + y == y;
    } else {
      var xy := x + y;
      assert xy[0] == x[0] && xy[1..] == x[1..] + y;
      KeepNumericAppend(x[1..], y);
      var head := if NumericChar(x[0]) then [x[0]] else [];
      assert KeepNumeric(xy) == head + KeepNumeric(x[1..] + y);
      assert KeepNumeric(x) == head + KeepNumeric(x[1..]);
      assert head + (KeepNumeric(x[1..]) + KeepNumeric(y)) == (head + KeepNumeric(x[1..])) + KeepNumeric(y);
    }
  }

  lemma ListRepr(a: nat, b: nat)
    requires a < 10 && b < 10
    ensures PyRepr(PList([PInt(a), PInt(b)])) == Some("[" + [DigitChar(a)] + ", " + [DigitChar(b)] + "]")
  {
    var items := [PInt(a), PInt(b)];
    var l := PList(items);
    assert ShowNat(a) == [DigitChar(a)] && ShowNat(b) == [DigitChar(b)];
    assert PyRepr(items[1]) == Some([DigitChar(b)]);
    assert items[..1] == [PInt(a)] && [PInt(a)][..0] == [];
    assert PyRepr([PInt(a)][0]) == Some([DigitChar(a)]);
    assert ItemsRepr(l, [PInt(a)]) == Some([DigitChar(a)]);
    var t := [DigitChar(a)] + ", " + [DigitChar(b)];
    assert ItemsRepr(l, items) == Some(t);
    assert PyRepr(l) == Some("[" + t + "]");
    assert "[" + t + "]" == "[" + [DigitChar(a)] + ", " + [DigitChar(b)] + "]";
  }

  /** A dictionary is read through its `str()`: the key's quotes and the
      colon of `{'a': 1}` are dropped, leaving 1, and so for any one-digit
      value. */
  lemma CurrencyOfDict(d: nat)
    requires 1 <= d < 10
    ensures ParseCurrency(PDict([("a", PInt(d))])) == Some(d as real)
  {
    DictRepr(d);
    DictTextKeep(d);
    assert ShowNat(d) == [DigitChar(d)];
    CurrencyIgnoresDecoration("{'a': " + [DigitChar(d)] + "}", d);
  }

  lemma DictTextKeep(d: nat)
    requires d < 10
    ensures KeepNumeric("{'a': " + [DigitChar(d)] + "}") == [DigitChar(d)]
  {
    var dd := [DigitChar(d)];
    KeepNumericAppend("{'a': ", dd);
    KeepNumericAppend("{'a': " + dd, "}");
    KeepNumericChar(DigitChar(d), []);
    assert KeepNumeric("{'a': ") == [] && KeepNumeric("}") == [];
  }

  lemma DictRepr(d: nat)
    requires d < 10
    ensures PyRepr(PDict([("a", PInt(d))])) == Some("{'a': " + [DigitChar(d)] + "}")
  {
    var entries := [("a", PInt(d))];
    var v := PDict(entries);
    assert ShowNat(d) == [DigitChar(d)];
    assert Escaped("a", '\'') == "a";
    assert TextRepr("a") == "'a'";
    assert PyRepr(PInt(d)) == Some([DigitChar(d)]);
    assert entries[..0] == [];
    var e := "'a'" + ": " + [DigitChar(d)];
    assert EntriesRepr(v, entries) == Some(e);
    assert PyRepr(v) == Some("{" + e + "}");
    assert "{" + e + "}" == "{'a': " + [DigitChar(d)] + "}";
  }

  lemma DropNonNumeric(c: char, s: string)
    requires !NumericChar(c)
    ensures KeepNumeric([c] + s) == KeepNumeric(s)
  {
    assert ([c] + s)[1..] == s;
  }

  lemma KeepNumericChar(c: char, s: string)
    requires NumericChar(c)
    ensures KeepNumeric([c] + s) == [c] + KeepNumeric(s)
  {
    assert ([c] + s)[1..] == s;
  }

  /** Currency text is read through its decorations: thousands separators,
      units and spaces are dropped before reading. */
  lemma CurrencyIgnoresDecoration(s: string, n: nat)
    requires KeepNumeric(s) == ShowNat(n)
    ensures ParseCurrency(PStr(s)) == Some(n as real)
  {
    RejectedAreNotNumerals(s);
    IntTextOfShow(n);
    IntTextIsFloatText(ShowNat(n));
  }
}
