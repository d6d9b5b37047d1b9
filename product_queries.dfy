/**
 * The decision rules around listing and searching products: how `page` and `limit` are read
 * from the query string (`parseInt(...) || default`), the `skip` and `pages` arithmetic, the
 * sort selected by `sort`, and the filter objects handed to the database. Running the query
 * itself is not modelled.
 */
module ProductQueries {
  import opened Wrappers
  import opened Text

  /** The query-string parameters the two endpoints read; a missing parameter is None. */
  datatype ProductQuery = ProductQuery(
    page: Option<string>, limit: Option<string>, sort: Option<string>, query: Option<string>,
    category: Option<string>, gender: Option<string>, brand: Option<string>,
    minPrice: Option<string>, maxPrice: Option<string>, size: Option<string>, color: Option<string>)

  /** `parseInt(s)` with no radix: leading `\s` skipped, an optional sign, then the digits
      `UnsignedPrefix` reads; None (NaN) when there are none. */
  function ParseInt(s: string): (r: Option<int>)
    ensures TrimStart(s) == [] ==> r.None?
    ensures s != [] && IsSpace(s[0]) ==> r == ParseInt(s[1..])
  {
    var t := TrimStart(s);
    var negative := t != [] && t[0] == '-';
    var u := if t != [] && (t[0] == '-' || t[0] == '+') then t[1..] else t;
    match UnsignedPrefix(u)
    case None => None
    case Some(n) => Some(if negative then -(n as int) else n as int)
  }

  /** The unsigned part `parseInt` reads: a `0x`/`0X` prefix switches to base 16, then the
      longest run of digits is taken; None when that run is empty. */
  function UnsignedPrefix(u: string): (r: Option<nat>)
    ensures r.Some? <==>
      && u != [] && IsDigitIn(u[0], 10)
      && (|u| >= 2 && u[0] == '0' && (u[1] == 'x' || u[1] == 'X') ==> |u| > 2 && IsDigitIn(u[2], 16))
  {
    var hex := |u| >= 2 && u[0] == '0' && (u[1] == 'x' || u[1] == 'X');
    var radix := if hex then 16 else 10;
    var digits := if hex then u[2..] else u;
    var n := PrefixWhile(digits, DigitOf(radix));
    if n == 0 then None else Some(Numeral(digits[..n], radix))
  }

  function DigitOf(radix: nat): char -> bool {
    c => IsDigitIn(c, radix)
  }

  /** `parseInt(value) || fallback`: NaN and 0 are falsy, so both give the fallback. */
  function IntOr(value: Option<string>, fallback: int): (r: int)
    ensures fallback != 0 ==> r != 0
    ensures value.None? ==> r == fallback
    ensures value.Some? && ParseInt(value.value).Some? && ParseInt(value.value).value != 0
            ==> r == ParseInt(value.value).value
    ensures value.Some? && (ParseInt(value.value).None? || ParseInt(value.value) == Some(0)) ==> r == fallback
  {
    var parsed := if value.Some? then ParseInt(value.value) else None;
    if parsed.Some? && parsed.value != 0 then parsed.value else fallback
  }

  /** The page, page size and number of skipped documents of one request. */
  datatype Window = Window(page: int, limit: int, skip: int)

  /** Lines 8-10 of `getProducts` and 137-139 of `searchProducts`. */
  function WindowOf(q: ProductQuery): (w: Window)
    ensures w.page != 0 && w.limit != 0
    ensures w.skip == (w.page - 1) * w.limit
  {
    var page := IntOr(q.page, 1);
    var limit := IntOr(q.limit, 12);
    Window(page, limit, (page - 1) * limit)
  }

  /** `Math.ceil(total / limit)`, the number of pages reported with the results. */
  function Pages(total: nat, limit: int): (r: int)
    requires limit != 0
    ensures total == 0 ==> r == 0
    ensures limit > 0 && total > 0 ==> r >= 1
  {
    -((-(total as real) / (limit as real)).Floor)
  }

  /** The digits of `n` followed by a non-digit are read as `n`; only a bare `0` followed
      by `x` or `X` would be read as hexadecimal instead. */
  lemma {:induction false} UnsignedPrefixReadsDecimal(n: nat, rest: string)
    requires rest == [] || !IsDigitIn(rest[0], 10)
    requires n == 0 ==> rest == [] || (rest[0] != 'x' && rest[0] != 'X')
    ensures UnsignedPrefix(DecimalText(n) + rest) == Some(n)
  {
    var d := DecimalText(n);
    var u := d + rest;
    assert !(|u| >= 2 && u[0] == '0' && (u[1] == 'x' || u[1] == 'X'));
    assert forall i :: 0 <= i < |d| ==> u[i] == d[i];
    if rest != [] {
      assert u[|d|] == rest[0];
    }
    PrefixWhileIs(u, DigitOf(10), |d|);
    assert u[..|d|] == d;
    NumeralOfDecimalText(n);
  }

  /** Without leading space or sign, `parseInt` reads exactly the unsigned prefix. */
  lemma {:induction false} ParseIntUnsigned(u: string)
    requires u == [] || (!IsSpace(u[0]) && u[0] != '-' && u[0] != '+')
    ensures ParseInt(u) == if UnsignedPrefix(u).Some? then Some(UnsignedPrefix(u).value as int) else None
  {
    TrimStartNoSpace(u);
  }

  /** With a minus sign in front, `parseInt` reads the negated unsigned prefix. */
  lemma {:induction false} ParseIntMinus(u: string)
    ensures ParseInt("-" + u) == if UnsignedPrefix(u).Some? then Some(-(UnsignedPrefix(u).value as int)) else None
  {
    var s := "-" + u;
    assert s[0] == '-' && s[1..] == u;
    TrimStartNoSpace(s);
  }

  /** Reading the decimal numeral of `n` followed by anything that is not a digit gives `n`. */
  lemma {:induction false} ParseIntReadsDecimal(n: nat, rest: string)
    requires rest == [] || !IsDigitIn(rest[0], 10)
    requires n == 0 ==> rest == [] || (rest[0] != 'x' && rest[0] != 'X')
    ensures ParseInt(DecimalText(n) + rest) == Some(n)
  {
    var u := DecimalText(n) + rest;
    UnsignedPrefixReadsDecimal(n, rest);
    assert u[0] == DecimalText(n)[0];
    ParseIntUnsigned(u);
  }

  /** With a minus sign in front, the same numeral gives `-n`. */
  lemma {:induction false} ParseIntReadsNegative(n: nat, rest: string)
    requires rest == [] || !IsDigitIn(rest[0], 10)
    requires n == 0 ==> rest == [] || (rest[0] != 'x' && rest[0] != 'X')
    ensures ParseInt("-" + DecimalText(n) + rest) == Some(-(n as int))
  {
    var u := DecimalText(n) + rest;
    assert "-" + DecimalText(n) + rest == "-" + u;
    UnsignedPrefixReadsDecimal(n, rest);
    ParseIntMinus(u);
  }

  /** A string with no digit where `parseInt` looks for one is NaN. */
  lemma {:induction false} ParseIntNoDigits(s: string)
    requires s == [] || (!IsSpace(s[0]) && !IsDigitIn(s[0], 10) && s[0] != '-' && s[0] != '+')
    ensures ParseInt(s) == None
  {
    assert TrimStart(s) == s;
  }

  /** A missing, unreadable or zero `page` is page 1, and the same for `limit` and 12; then
      nothing is skipped. */
  lemma {:induction false} WindowDefaults(q: ProductQuery)
    requires q.page.None? || ParseInt(q.page.value).None? || ParseInt(q.page.value) == Some(0)
    requires q.limit.None? || ParseInt(q.limit.value).None? || ParseInt(q.limit.value) == Some(0)
    ensures WindowOf(q) == Window(1, 12, 0)
  {
  }

  /** A `page` and a `limit` that `parseInt` reads as non-zero numbers are used as they are. */
  lemma {:induction false} WindowKeepsGiven(q: ProductQuery)
    requires q.page.Some? && ParseInt(q.page.value).Some? && ParseInt(q.page.value).value != 0
    requires q.limit.Some? && ParseInt(q.limit.value).Some? && ParseInt(q.limit.value).value != 0
    ensures var page, limit := ParseInt(q.page.value).value, ParseInt(q.limit.value).value;
            WindowOf(q) == Window(page, limit, (page - 1) * limit)
  {
  }

  /** The strings `"0"`, `"abc"` and `""` are among those that fall back: the first reads as
      0 and the other two as NaN. */
  lemma {:induction false} ParseIntFallbackExamples()
    ensures ParseInt("0") == Some(0)
    ensures ParseInt("abc") == None && ParseInt("") == None
  {
    ParseIntReadsDecimal(0, "");
    assert DecimalText(0) + "" == "0";
    ParseIntNoDigits("abc");
    ParseIntNoDigits("");
  }

  /** With a positive `limit`, `pages` covers every document and no page is empty:
      `(pages - 1) * limit < total <= pages * limit`. */
  lemma {:induction false} PagesCoverTotal(total: nat, limit: int)
    requires limit > 0
    ensures Pages(total, limit) >= 0
    ensures (Pages(total, limit) - 1) * limit < total <= Pages(total, limit) * limit
    ensures total == 0 <==> Pages(total, limit) == 0
  {
    var x := total as real / limit as real;
    var p := Pages(total, limit);
    var lim := limit as real;
    var y := -(total as real) / lim;
    assert y == -x;
    var f := y.Floor;
    assert f as real <= y < f as real + 1.0;
    assert p == -f;
    assert (p - 1) as real < x <= p as real;
    assert x * lim == total as real;
    assert (p as real) * lim >= x * lim;
    assert ((p - 1) as real) * lim < x * lim;
    assert ((p * limit) as real) == (p as real) * lim;
    assert (((p - 1) * limit) as real) == ((p - 1) as real) * lim;
  }

  /** With a positive `limit`, `Math.ceil(total / limit)` is the integer ceiling division. */
  lemma {:induction false} PagesIsCeilingDivision(total: nat, limit: int)
    requires limit > 0
    ensures Pages(total, limit) == (total + limit - 1) / limit
  {
    var p := Pages(total, limit);
    PagesCoverTotal(total, limit);
    QuotientUnique(total + limit - 1, limit, p);
  }

  lemma {:induction false} QuotientUnique(n: int, d: int, q: int)
    requires d > 0 && q * d <= n < (q + 1) * d
    ensures n / d == q
  {
    var r := n / d;
    assert r * d <= n < (r + 1) * d;
    if r < q {
      MulMonotone(r + 1, q, d);
      assert false;
    } else if r > q {
      MulMonotone(q + 1, r, d);
      assert false;
    }
  }

  /** A page between 1 and `pages` skips fewer documents than there are. */
  lemma {:induction false} SkipWithinTotal(total: nat, page: int, limit: int)
    requires limit > 0 && 1 <= page <= Pages(total, limit)
    ensures 0 <= (page - 1) * limit < total
  {
    PagesCoverTotal(total, limit);
    assert (page - 1) * limit <= (Pages(total, limit) - 1) * limit;
  }

  /** The fields a listing can be sorted by; `TextScore` is the text-search relevance. */
  datatype SortField = Price | Name | RatingAverage | CreatedAt | TextScore

  /** One sort key: a field and 1 for ascending or -1 for descending. */
  datatype SortKey = SortKey(field: SortField, direction: int)

  /** The `switch (req.query.sort)` of `getProducts`. */
  function ListingSort(sort: Option<string>): (k: SortKey)
    ensures k.direction == 1 || k.direction == -1
    ensures k.direction == 1 <==> sort == Some("price_asc") || sort == Some("name_asc")
    ensures k.field == Price <==> sort == Some("price_asc") || sort == Some("price_desc")
    ensures k.field == Name <==> sort == Some("name_asc") || sort == Some("name_desc")
    ensures k.field == RatingAverage <==> sort == Some("rating")
    ensures k.field == CreatedAt <==> sort.None? || sort.value !in NamedSorts
  {
    match sort
    case Some("price_asc") => SortKey(Price, 1)
    case Some("price_desc") => SortKey(Price, -1)
    case Some("name_asc") => SortKey(Name, 1)
    case Some("name_desc") => SortKey(Name, -1)
    case Some("rating") => SortKey(RatingAverage, -1)
    case Some("newest") => SortKey(CreatedAt, -1)
    case _ => SortKey(CreatedAt, -1)
  }

  /** The values of `sort` that select something other than the newest first. */
  const NamedSorts: seq<string> := ["price_asc", "price_desc", "name_asc", "name_desc", "rating"]

  /** `newest`, a missing `sort` and every unrecognised value all sort newest first; each named
      value picks its own field. */
  lemma {:induction false} ListingSortDefaults(sort: Option<string>)
    ensures sort.None? || sort.value !in NamedSorts <==> ListingSort(sort) == SortKey(CreatedAt, -1)
    ensures ListingSort(Some("newest")) == ListingSort(None)
    ensures ListingSort(Some("price_asc")) == SortKey(Price, 1)
    ensures ListingSort(Some("price_desc")) == SortKey(Price, -1)
    ensures ListingSort(Some("name_asc")) == SortKey(Name, 1)
    ensures ListingSort(Some("name_desc")) == SortKey(Name, -1)
    ensures ListingSort(Some("rating")) == SortKey(RatingAverage, -1)
    ensures ListingSort(sort).field == Price <==> sort == Some("price_asc") || sort == Some("price_desc")
    ensures ListingSort(sort).field == Name <==> sort == Some("name_asc") || sort == Some("name_desc")
    ensures ListingSort(sort).field != TextScore
  {
  }

  /** The sort of `searchProducts`: relevance first, then the newest first. */
  const SearchSort: seq<SortKey> := [SortKey(TextScore, -1), SortKey(CreatedAt, -1)]

  /** What `parseFloat` can give: a number or NaN. */
  datatype Number = Finite(value: real) | NaN

  /** The `price` condition: `$gte` and `$lte`, each present or not. */
  datatype PriceRange = PriceRange(gte: Option<Number>, lte: Option<Number>)

  /** The filter object passed to `find` and `countDocuments`; a field that is None is not
      set. `brand` and `color` are case-insensitive patterns, `text` a `$text` search. */
  datatype ProductFilter = ProductFilter(
    isActive: bool, text: Option<string>, category: Option<string>, gender: Option<string>,
    brand: Option<string>, price: Option<PriceRange>, size: Option<string>, color: Option<string>)

  /** The field if it is truthy, else not set. */
  function IfTruthy(v: Option<string>): (r: Option<string>)
    ensures r.Some? <==> Truthy(v)
    ensures r.Some? ==> r == v
  {
    if Truthy(v) then v else None
  }

  /** The price condition both endpoints build: present only when a bound is given, with
      each bound present only when its own parameter is. */
  function PriceCondition(minPrice: Option<string>, maxPrice: Option<string>,
                          parseFloat: string -> Number): (r: Option<PriceRange>)
    ensures r.Some? <==> Truthy(minPrice) || Truthy(maxPrice)
    ensures r.Some? ==> (r.value.gte.Some? <==> Truthy(minPrice)) && (r.value.lte.Some? <==> Truthy(maxPrice))
    ensures r.Some? && Truthy(minPrice) ==> r.value.gte == Some(parseFloat(minPrice.value))
    ensures r.Some? && Truthy(maxPrice) ==> r.value.lte == Some(parseFloat(maxPrice.value))
  {
    if !Truthy(minPrice) && !Truthy(maxPrice) then None
    else Some(PriceRange(if Truthy(minPrice) then Some(parseFloat(minPrice.value)) else None,
                         if Truthy(maxPrice) then Some(parseFloat(maxPrice.value)) else None))
  }

  /** The filter of `getProducts`, built field by field. */
  method ListingFilter(q: ProductQuery, parseFloat: string -> Number) returns (f: ProductFilter)
    ensures f.isActive && f.text.None?
    ensures f.category == IfTruthy(q.category) && f.gender == IfTruthy(q.gender)
    ensures f.brand == IfTruthy(q.brand) && f.size == IfTruthy(q.size) && f.color == IfTruthy(q.color)
    ensures f.price == PriceCondition(q.minPrice, q.maxPrice, parseFloat)
  {
    f := ProductFilter(true, None, None, None, None, None, None, None);
    if Truthy(q.category) {
      f := f.(category := q.category);
    }
    if Truthy(q.gender) {
      f := f.(gender := q.gender);
    }
    if Truthy(q.brand) {
      f := f.(brand := q.brand);
    }
    if Truthy(q.minPrice) || Truthy(q.maxPrice) {
      var range := PriceRange(None, None);
      if Truthy(q.minPrice) {
        range := range.(gte := Some(parseFloat(q.minPrice.value)));
      }
      if Truthy(q.maxPrice) {
        range := range.(lte := Some(parseFloat(q.maxPrice.value)));
      }
      f := f.(price := Some(range));
    }
    if Truthy(q.size) {
      f := f.(size := q.size);
    }
    if Truthy(q.color) {
      f := f.(color := q.color);
    }
  }

  /** The filter of `searchProducts`, built field by field. */
  method SearchFilter(q: ProductQuery, parseFloat: string -> Number) returns (f: ProductFilter)
    ensures f.isActive && f.text == IfTruthy(q.query)
    ensures f.category == IfTruthy(q.category) && f.gender == IfTruthy(q.gender)
    ensures f.brand.None? && f.size.None? && f.color.None?
    ensures f.price == PriceCondition(q.minPrice, q.maxPrice, parseFloat)
  {
    f := ProductFilter(true, None, None, None, None, None, None, None);
    if Truthy(q.query) {
      f := f.(text := q.query);
    }
    if Truthy(q.category) {
      f := f.(category := q.category);
    }
    if Truthy(q.gender) {
      f := f.(gender := q.gender);
    }
    if Truthy(q.minPrice) || Truthy(q.maxPrice) {
      var range := PriceRange(None, None);
      if Truthy(q.minPrice) {
        range := range.(gte := Some(parseFloat(q.minPrice.value)));
      }
      if Truthy(q.maxPrice) {
        range := range.(lte := Some(parseFloat(q.maxPrice.value)));
      }
      f := f.(price := Some(range));
    }
  }
}
