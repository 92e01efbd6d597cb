/**
 * The API's query-string helpers: page parameters become a search offset
 * and size, and `filter[<field>]` parameters become a field-to-value filter.
 */
module RequestUtils {
  import opened Wrappers
  import opened Dicts

  /** `req.query_params`: parameter name to value, in request order, each name once. */
  type QueryParams = d: Dict<string, string> | DistinctKeys(d) witness []

  // ---------------------------------------------------------------------
  // int(): decimal integer text

  predicate IsDigit(c: char)
  {
    '0' <= c <= '9'
  }

  predicate AllDigits(s: string)
  {
    forall i :: 0 <= i < |s| ==> IsDigit(s[i])
  }

  function DigitsValue(s: string): nat
    requires AllDigits(s)
    decreases |s|
  {
    if s == [] then 0 else 10 * DigitsValue(s[..|s| - 1]) + (s[|s| - 1] as int - '0' as int)
  }

  /** `int(s)`: an optional sign and one or more decimal digits; None stands for the ValueError. */
  function ParseInt(s: string): Option<int>
  {
    if s == [] then None
    else if s[0] == '-' || s[0] == '+' then
      if |s| > 1 && AllDigits(s[1..]) then Some(if s[0] == '-' then -(DigitsValue(s[1..]) as int) else DigitsValue(s[1..]) as int) else None
    else if AllDigits(s) then Some(DigitsValue(s))
    else None
  }

  function DigitChar(d: nat): char
    requires d < 10
  {
    ('0' as int + d) as char
  }

  /** Decimal text of a natural number, without leading zeros. */
  function ShowNat(n: nat): string
    decreases n
  {
    if n < 10 then [DigitChar(n)] else ShowNat(n / 10) + [DigitChar(n % 10)]
  }

  /** `str(i)`: the inverse the round trip is stated against. */
  function ShowInt(i: int): string
  {
    if i < 0 then "-" + ShowNat(-i) else ShowNat(i)
  }

  lemma {:induction false} ShowNatDigits(n: nat)
    ensures var s := ShowNat(n); |s| >= 1 && AllDigits(s) && DigitsValue(s) == n
    decreases n
  {
    var s := ShowNat(n);
    if n >= 10 {
      ShowNatDigits(n / 10);
      assert s[..|s| - 1] == ShowNat(n / 10);
    }
  }

  /** `int(str(i)) == i` for every integer. */
  lemma IntRoundTrip(i: int)
    ensures ParseInt(ShowInt(i)) == Some(i)
  {
    var digits := ShowNat(if i < 0 then -i else i);
    ShowNatDigits(if i < 0 then -i else i);
    if i < 0 {
      assert ShowInt(i)[1..] == digits;
    }
  }

  // ---------------------------------------------------------------------
  // get_page

  /** What `get_page` returns: `{"size": ..., "from": ...}`. */
  datatype Page = Page(size: int, from: int)

  /** Python truthiness of an optional parameter: present and non-empty. */
  predicate Truthy(p: Option<string>)
  {
    p.Some? && p.value != ""
  }

  /**
   * `get_page`: the offset is `(number - 1) * size` when both parameters are
   * given, else 0; the size defaults to 5. A value `int` rejects is the
   * error, named by its text.
   */
  function GetPage(params: QueryParams): Result<Page, string>
  {
    var number := Get(params, "page[number]");
    var size := Get(params, "page[size]");
    var offset: Result<int, string> :=
      if Truthy(number) && Truthy(size) then
        match ParseInt(number.value)
        case None => Err(number.value)
        case Some(n) =>
          match ParseInt(size.value)
          case None => Err(size.value)
          case Some(s) => Ok((n - 1) * s)
      else Ok(0);
    match offset
    case Err(e) => Err(e)
    case Ok(from) =>
      if Truthy(size) then
        match ParseInt(size.value)
        case None => Err(size.value)
        case Some(s) => Ok(Page(s, from))
      else Ok(Page(5, from))
  }

  /** Both parameters given as integers: the offset skips `number - 1` pages of `size` documents. */
  lemma PageOffset(params: QueryParams, number: int, size: int)
    requires Get(params, "page[number]") == Some(ShowInt(number))
    requires Get(params, "page[size]") == Some(ShowInt(size))
    ensures GetPage(params) == Ok(Page(size, (number - 1) * size))
  {
    IntRoundTrip(number);
    IntRoundTrip(size);
    ShowNatDigits(if number < 0 then -number else number);
    ShowNatDigits(if size < 0 then -size else size);
  }

  /** No lower bound on the page number: page 0 starts one page before the first document. */
  lemma PageZero(params: QueryParams, size: int)
    requires Get(params, "page[number]") == Some("0")
    requires Get(params, "page[size]") == Some(ShowInt(size))
    ensures GetPage(params) == Ok(Page(size, -size))
  {
    assert ShowInt(0) == "0";
    PageOffset(params, 0, size);
  }

  /** Without a page number the offset is 0; without a size the size is 5 and the number is not even read. */
  lemma PageDefaults(params: QueryParams, size: int)
    ensures !Truthy(Get(params, "page[size]")) ==> GetPage(params) == Ok(Page(5, 0))
    ensures !Truthy(Get(params, "page[number]")) && Get(params, "page[size]") == Some(ShowInt(size)) ==>
      GetPage(params) == Ok(Page(size, 0))
  {
    IntRoundTrip(size);
    ShowNatDigits(if size < 0 then -size else size);
  }

  /** A page number `int` rejects, next to a size, is the error. */
  lemma PageBadNumber(params: QueryParams, size: int)
    requires Truthy(Get(params, "page[number]")) && ParseInt(Get(params, "page[number]").value).None?
    requires Get(params, "page[size]") == Some(ShowInt(size))
    ensures GetPage(params) == Err(Get(params, "page[number]").value)
  {
    ShowNatDigits(if size < 0 then -size else size);
  }

  // ---------------------------------------------------------------------
  // get_filter

  const FilterPrefix: string := "filter["

  predicate IsAsciiLetter(c: char)
  {
    'a' <= c <= 'z' || 'A' <= c <= 'Z'
  }

  /** The pattern `^filter\[[a-zA-Z]{0,25}\]$`, read as: the whole key. */
  predicate IsFilterKey(key: string)
  {
    |key| >= 8 && key[..7] == FilterPrefix && key[|key| - 1] == ']' && |key| - 8 <= 25 &&
    forall i :: 7 <= i < |key| - 1 ==> IsAsciiLetter(key[i])
  }

  /** `s.replace(pat, '')`: every non-overlapping occurrence removed, scanning left to right. */
  function RemoveAll(s: string, pat: string): string
    requires pat != []
    decreases |s|
  {
    if |s| < |pat| then s
    else if s[..|pat|] == pat then RemoveAll(s[|pat|..], pat)
    else [s[0]] + RemoveAll(s[1..], pat)
  }

  /** The stored key: `key.replace('filter[', '').replace(']', '')`. */
  function FilterField(key: string): string
  {
    RemoveAll(RemoveAll(key, FilterPrefix), "]")
  }

  lemma {:induction false} RemoveAbsent(s: string, pat: string, c: char)
    requires pat != [] && c in pat
    requires forall i :: 0 <= i < |s| ==> s[i] != c
    ensures RemoveAll(s, pat) == s
    decreases |s|
  {
    if |s| >= |pat| {
      RemoveAbsent(s[1..], pat, c);
      assert s == [s[0]] + s[1..];
    }
  }

  lemma {:induction false} RemoveClosing(w: string)
    requires forall i :: 0 <= i < |w| ==> w[i] != ']'
    ensures RemoveAll(w + "]", "]") == w
    decreases |w|
  {
    if w != [] {
      assert (w + "]")[..1] == [w[0]];
      assert (w + "]")[1..] == w[1..] + "]";
      RemoveClosing(w[1..]);
      assert w == [w[0]] + w[1..];
    }
  }

  /** A filter key stores the letters between its brackets, and the key is rebuilt from them. */
  lemma FilterFieldLetters(key: string)
    requires IsFilterKey(key)
    ensures FilterField(key) == key[7..|key| - 1]
    ensures key == FilterPrefix + FilterField(key) + "]"
    ensures |FilterField(key)| <= 25
  {
    var w := key[7..|key| - 1];
    assert key == FilterPrefix + (w + "]");
    assert key[|FilterPrefix|..] == w + "]";
    assert forall i :: 0 <= i < |w + "]"| ==> (w + "]")[i] != '[' by {
      forall i | 0 <= i < |w + "]"|
        ensures (w + "]")[i] != '['
      {
        if i < |w| { assert IsAsciiLetter(key[7 + i]); }
      }
    }
    RemoveAbsent(w + "]", FilterPrefix, '[');
    assert forall i :: 0 <= i < |w| ==> w[i] != ']' by {
      forall i | 0 <= i < |w|
        ensures w[i] != ']'
      {
        assert IsAsciiLetter(key[7 + i]);
      }
    }
    RemoveClosing(w);
  }

  /** Which field names a filter key can carry: up to 25 ASCII letters, the empty name included. */
  lemma FilterKeyFields(w: string)
    ensures IsFilterKey(FilterPrefix + w + "]") <==> |w| <= 25 && forall i :: 0 <= i < |w| ==> IsAsciiLetter(w[i])
  {
    var key := FilterPrefix + w + "]";
    assert key[..7] == FilterPrefix;
    if IsFilterKey(key) {
      forall i | 0 <= i < |w|
        ensures IsAsciiLetter(w[i])
      {
        assert key[7 + i] == w[i];
      }
    }
    if |w| <= 25 && forall i :: 0 <= i < |w| ==> IsAsciiLetter(w[i]) {
      forall i | 7 <= i < |key| - 1
        ensures IsAsciiLetter(key[i])
      {
        assert key[i] == w[i - 7];
      }
    }
  }

  /** What `get_filter` accumulates over the first parameters: a filter key's value is stored under its field. */
  function FilterOf(params: Dict<string, string>): Dict<string, string>
    decreases |params|
  {
    if params == [] then []
    else
      var prev := FilterOf(params[..|params| - 1]);
      var (key, value) := params[|params| - 1];
      if IsFilterKey(key) then Put(prev, FilterField(key), value) else prev
  }

  /** `get_filter`. */
  method GetFilter(params: QueryParams) returns (filter: Dict<string, string>)
    ensures filter == FilterOf(params)
  {
    filter := [];
    var i := 0;
    while i < |params|
      invariant 0 <= i <= |params|
      invariant filter == FilterOf(params[..i])
    {
      var (key, value) := params[i];
      assert params[..i + 1][..i] == params[..i];
      if IsFilterKey(key) {
        filter := Put(filter, FilterField(key), value);
      }
      i := i + 1;
    }
    assert params[..|params|] == params;
  }

  /** The fields named by the filter keys among the parameters. */
  ghost function FilterKeyFieldsOf(params: Dict<string, string>): set<string>
  {
    set i | 0 <= i < |params| && IsFilterKey(params[i].0) :: FilterField(params[i].0)
  }

  /** The filter's fields are exactly the fields of the filter keys among the parameters, each once. */
  lemma {:induction false} FilterFields(params: Dict<string, string>)
    ensures DistinctKeys(FilterOf(params))
    ensures KeySet(FilterOf(params)) == FilterKeyFieldsOf(params)
    decreases |params|
  {
    if params != [] {
      var init := params[..|params| - 1];
      FilterFields(init);
      var (key, value) := params[|params| - 1];
      if IsFilterKey(key) {
        PutSpec(FilterOf(init), FilterField(key), value);
      }
      forall f
        ensures f in FilterKeyFieldsOf(params) <==>
          f in FilterKeyFieldsOf(init) || (IsFilterKey(key) && FilterField(key) == f)
      {
        if f in FilterKeyFieldsOf(params) {
          var i :| 0 <= i < |params| && IsFilterKey(params[i].0) && FilterField(params[i].0) == f;
          if i < |init| { assert init[i] == params[i]; }
        }
        if f in FilterKeyFieldsOf(init) {
          var i :| 0 <= i < |init| && IsFilterKey(init[i].0) && FilterField(init[i].0) == f;
          assert params[i] == init[i];
        }
      }
    }
  }

  /** As parameter names are distinct, every filter key's value is stored unchanged under its field. */
  lemma {:induction false} FilterValues(params: QueryParams, i: nat)
    requires i < |params| && IsFilterKey(params[i].0)
    ensures Get(FilterOf(params), FilterField(params[i].0)) == Some(params[i].1)
    decreases |params|
  {
    DistinctKeysPrefix(params, |params| - 1);
    var init: QueryParams := params[..|params| - 1];
    var (key, value) := params[|params| - 1];
    FilterFields(init);
    if IsFilterKey(key) {
      PutSpec(FilterOf(init), FilterField(key), value);
    }
    if i < |params| - 1 {
      FilterValues(init, i);
      if IsFilterKey(key) {
        FilterFieldLetters(key);
        FilterFieldLetters(params[i].0);
        assert FilterField(key) != FilterField(params[i].0);
      }
    }
  }
}
