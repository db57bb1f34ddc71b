// Paged trip listings: the `page` and `limit` query values as JavaScript
// turns them into numbers, MongoDB's skip and limit on a sorted result, and
// the reply's `pages = Math.ceil(total / limit)`.

module Pagination {
  import opened Common
  import opened Collection

  const DefaultLimit: int := 15
  const DefaultPage: int := 1

  /** A JavaScript number produced from a query value: an integer or NaN. */
  datatype Num = Int(value: int) | NaN

  /** The longest run of decimal digits at the start of s. */
  function DigitPrefix(s: string): (r: string)
    ensures |r| <= |s| && r == s[..|r|] && AllDigits(r)
    ensures |r| < |s| ==> !IsDigit(s[|r|])
    decreases |s|
  {
    if s == [] || !IsDigit(s[0]) then [] else [s[0]] + DigitPrefix(s[1..])
  }

  /** An optional leading '+' or '-' and the text after it. */
  function SplitSign(s: string): (r: (bool, string))
    ensures r.0 ==> |s| >= 1 && s[0] == '-' && r.1 == s[1..]
    ensures !r.0 ==> r.1 == s || (|s| >= 1 && s[0] == '+' && r.1 == s[1..])
  {
    if |s| >= 1 && s[0] == '-' then (true, s[1..])
    else if |s| >= 1 && s[0] == '+' then (false, s[1..])
    else (false, s)
  }

  function ApplySign(negative: bool, n: nat): int {
    if negative then 0 - n as int else n
  }

  /** parseInt(s): the sign and the digits up to the first other character;
      NaN when no digit follows the sign. */
  function ParseIntJs(s: string): (n: Num)
    ensures n.NaN? <==> DigitPrefix(SplitSign(s).1) == []
    ensures n.Int? ==> n.value == ApplySign(SplitSign(s).0, DigitsValue(DigitPrefix(SplitSign(s).1)))
  {
    var (negative, body) := SplitSign(s);
    var digits := DigitPrefix(body);
    if digits == [] then NaN else Int(ApplySign(negative, DigitsValue(digits)))
  }

  /** Unary plus on a string: "" is 0; otherwise the whole text after the
      sign must be digits, or the result is NaN. */
  function ToNumberJs(s: string): (n: Num)
    ensures s == [] ==> n == Int(0)
    ensures s != [] ==> (n.Int? <==> SplitSign(s).1 != [] && AllDigits(SplitSign(s).1))
    ensures s != [] && n.Int? ==> n.value == ApplySign(SplitSign(s).0, DigitsValue(SplitSign(s).1))
  {
    if s == [] then Int(0)
    else
      var (negative, body) := SplitSign(s);
      if body != [] && AllDigits(body) then Int(ApplySign(negative, DigitsValue(body))) else NaN
  }

  lemma {:induction false} DigitPrefixOfDigits(s: string)
    requires AllDigits(s)
    ensures DigitPrefix(s) == s
    decreases |s|
  {
    if s != [] {
      DigitPrefixOfDigits(s[1..]);
      assert [s[0]] + s[1..] == s;
    }
  }

  /** Both conversions read the decimal text of an integer back as that integer. */
  lemma ConversionsRoundTrip(i: int)
    ensures ParseIntJs(IntToString(i)) == Int(i)
    ensures ToNumberJs(IntToString(i)) == Int(i)
  {
    var n: nat := if i < 0 then -i else i;
    DigitsRoundTrip(n);
    DigitPrefixOfDigits(Digits(n));
    if i < 0 {
      assert IntToString(i)[1..] == Digits(n);
    } else {
      assert IntToString(i) == Digits(n);
      assert Digits(n)[0] != '-' && Digits(n)[0] != '+';
    }
  }

  /** The digit run of digits followed by a non-digit is those digits. */
  lemma {:induction false} DigitPrefixStops(a: string, rest: string)
    requires AllDigits(a) && (rest == [] || !IsDigit(rest[0]))
    ensures DigitPrefix(a + rest) == a
    decreases |a|
  {
    if a != [] {
      DigitPrefixStops(a[1..], rest);
      assert (a + rest)[1..] == a[1..] + rest;
      assert [a[0]] + a[1..] == a;
    } else {
      assert a + rest == rest;
    }
  }

  /** Where the two conversions part: digits followed by other text are a
      number for parseInt and NaN for unary plus. */
  lemma ParseIntStopsAtNonDigit(n: nat, rest: string)
    requires rest != [] && !IsDigit(rest[0])
    ensures ParseIntJs(Digits(n) + rest) == Int(n)
    ensures ToNumberJs(Digits(n) + rest) == NaN
  {
    var s := Digits(n) + rest;
    assert s[0] == Digits(n)[0] && IsDigit(s[0]);
    assert SplitSign(s).1 == s;
    DigitPrefixStops(Digits(n), rest);
    DigitsRoundTrip(n);
    assert s[|Digits(n)|] == rest[0];
  }

  /** Whenever unary plus gives an integer for non-empty text, parseInt gives the same one. */
  lemma NumberAgreesWithParseInt(s: string)
    requires s != [] && ToNumberJs(s).Int?
    ensures ParseIntJs(s) == ToNumberJs(s)
  {
    DigitPrefixOfDigits(SplitSign(s).1);
  }

  /** A query value through parseInt, or the numeric default when it is absent. */
  function ParseIntParam(v: Option<string>, default: int): (n: Num)
    ensures v.None? ==> n == Int(default)
    ensures v.Some? ==> n == ParseIntJs(v.value)
  {
    if v.None? then Int(default) else ParseIntJs(v.value)
  }

  /** A query value through unary plus, or the numeric default when it is absent. */
  function NumberParam(v: Option<string>, default: int): (n: Num)
    ensures v.None? ==> n == Int(default)
    ensures v.Some? ==> n == ToNumberJs(v.value)
  {
    if v.None? then Int(default) else ToNumberJs(v.value)
  }

  // ---------------------------------------------------------------------
  // Skip, limit and the page count
  // ---------------------------------------------------------------------

  /** `(page - 1) * limit`, NaN as soon as either is NaN. */
  function SkipOf(page: Num, limit: Num): (r: Num)
    ensures r.Int? <==> page.Int? && limit.Int?
    ensures r.Int? && limit.value > 0 ==> (r.value >= 0 <==> page.value >= 1)
  {
    if page.NaN? || limit.NaN? then NaN
    else
      var s := (page.value - 1) * limit.value;
      assert limit.value > 0 && page.value < 1 ==> s <= -limit.value by {
        if limit.value > 0 && page.value < 1 {
          assert (1 - page.value) * limit.value >= limit.value;
        }
      }
      Int(s)
  }

  /** How many documents a limit lets through: all of them for 0, and the
      absolute value for a negative limit (one batch of that size). */
  function BatchSize(limit: int): (r: Option<nat>)
    ensures r.None? <==> limit == 0
    ensures r.Some? ==> r.value > 0 && (r.value == limit || r.value == -limit)
  {
    if limit == 0 then None else if limit > 0 then Some(limit) else Some(-limit)
  }

  /** The documents the server returns for skip and limit on a sorted
      result; None when it rejects the query (a negative or NaN skip, a NaN
      limit). */
  function Window<T>(s: seq<T>, skip: Num, limit: Num): (r: Option<seq<T>>)
    ensures r.None? <==> skip.NaN? || limit.NaN? || skip.value < 0
    ensures r.Some? ==> skip.Int? && limit.Int? && skip.value >= 0
    ensures r.Some? ==> forall i :: 0 <= i < |r.value| ==> skip.value + i < |s| && r.value[i] == s[skip.value + i]
    ensures r.Some? ==> var rest := if skip.value <= |s| then |s| - skip.value else 0;
                        (BatchSize(limit.value).None? ==> |r.value| == rest)
                        && (BatchSize(limit.value).Some? ==>
                              |r.value| == if rest < BatchSize(limit.value).value then rest else BatchSize(limit.value).value)
  {
    if skip.NaN? || limit.NaN? || skip.value < 0 then None
    else
      var dropped := Drop(s, skip.value);
      match BatchSize(limit.value)
      case None => Some(dropped)
      case Some(n) => Some(Take(dropped, n))
  }

  /** Math.ceil(total / limit) as it appears in the JSON reply: null (None)
      for a zero limit, where the quotient is Infinity or NaN. */
  function PageCount(total: nat, limit: int): (r: Option<int>)
    ensures r.None? <==> limit == 0
    ensures r.Some? && limit > 0 ==> r.value >= 0 && (r.value - 1) * limit < total <= r.value * limit
    ensures r.Some? && limit < 0 ==> r.value * limit <= total < (r.value - 1) * limit
  {
    if limit == 0 then None
    else if limit > 0 then
      var q := (total + limit - 1) / limit;
      assert q * limit <= total + limit - 1 < (q + 1) * limit;
      Some(q)
    else
      var q := total / (-limit);
      assert q * (-limit) <= total < (q + 1) * (-limit);
      Some(-q)
  }

  /** A page of a listing. */
  datatype PageReply<T> = PageReply(docs: seq<T>, total: nat, page: int, pages: Option<int>)

  /** The reply for a sorted, filtered result, whose size is also the total
      count; None when the server rejects the skip or the limit. */
  function Paginate<T>(sorted: seq<T>, page: Num, limit: Num): (r: Option<PageReply<T>>)
    ensures r.None? <==> Window(sorted, SkipOf(page, limit), limit).None?
    ensures r.Some? ==> page.Int? && limit.Int?
                        && r.value.docs == Window(sorted, SkipOf(page, limit), limit).value
                        && r.value.total == |sorted| && r.value.page == page.value
                        && r.value.pages == PageCount(|sorted|, limit.value)
  {
    match Window(sorted, SkipOf(page, limit), limit)
    case None => None
    case Some(docs) => Some(PageReply(docs, |sorted|, page.value, PageCount(|sorted|, limit.value)))
  }

  lemma MulStep(n: int, limit: int)
    ensures n * limit == (n - 1) * limit + limit
  {
  }

  lemma MulMonotone(a: int, b: int, limit: int)
    requires a <= b && limit > 0
    ensures a * limit <= b * limit
  {
    assert b * limit - a * limit == (b - a) * limit;
  }

  /** A window of a sorted result is sorted, holds documents of the result
      only, and with a positive limit holds at most `limit` of them. */
  lemma WindowOfSorted<T>(s: seq<T>, skip: Num, limit: Num, key: T -> int)
    requires SortedBy(s, key) && Window(s, skip, limit).Some?
    ensures SortedBy(Window(s, skip, limit).value, key)
    ensures forall i :: 0 <= i < |Window(s, skip, limit).value| ==> Window(s, skip, limit).value[i] in s
    ensures limit.value > 0 ==> |Window(s, skip, limit).value| <= limit.value
  {
    var w := Window(s, skip, limit).value;
    forall a, b | 0 <= a < b < |w| ensures key(w[a]) <= key(w[b]) {
      assert w[a] == s[skip.value + a] && w[b] == s[skip.value + b];
    }
  }

  /** With a positive limit and skip, the window is the slice from skip on. */
  lemma WindowSlice<T>(s: seq<T>, skip: int, limit: int)
    requires skip >= 0 && limit > 0
    ensures skip >= |s| ==> Window(s, Int(skip), Int(limit)).value == []
    ensures skip < |s| ==> Window(s, Int(skip), Int(limit)).value
                           == s[skip .. if skip + limit < |s| then skip + limit else |s|]
  {
  }

  /** With a positive limit, page p holds documents (p-1)*limit up to
      p*limit of the sorted result, fewer on the last page and none past it. */
  lemma PageContents<T>(sorted: seq<T>, page: int, limit: int)
    requires page >= 1 && limit > 0
    ensures Paginate(sorted, Int(page), Int(limit)).Some?
    ensures var pages := PageCount(|sorted|, limit).value;
            page <= pages ==>
              Paginate(sorted, Int(page), Int(limit)).value.docs
              == sorted[(page - 1) * limit .. if page * limit < |sorted| then page * limit else |sorted|]
    ensures page > PageCount(|sorted|, limit).value ==> Paginate(sorted, Int(page), Int(limit)).value.docs == []
  {
    var lo := (page - 1) * limit;
    var pages := PageCount(|sorted|, limit).value;
    MulMonotone(1, page, limit);
    MulStep(page, limit);
    WindowSlice(sorted, lo, limit);
    if page <= pages {
      MulMonotone(page, pages, limit);
      MulStep(pages, limit);
    } else {
      MulMonotone(pages, page - 1, limit);
    }
  }

  /** The documents of pages 1 to n, one page after the other; page k is
      the window that Paginate returns for it. */
  function PagesUpTo<T>(sorted: seq<T>, limit: int, n: nat): seq<T>
    requires limit > 0
  {
    if n == 0 then []
    else PagesUpTo(sorted, limit, n - 1) + Window(sorted, Int((n - 1) * limit), Int(limit)).value
  }

  /** Pages 1 to n together are the first n*limit documents. */
  lemma {:induction false} PagesUpToIsPrefix<T>(sorted: seq<T>, limit: int, n: nat)
    requires limit > 0
    ensures PagesUpTo(sorted, limit, n) == Take(sorted, n * limit)
  {
    if n > 0 {
      PagesUpToIsPrefix(sorted, limit, n - 1);
      var lo := (n - 1) * limit;
      var hi := n * limit;
      MulStep(n, limit);
      MulMonotone(0, n - 1, limit);
      WindowSlice(sorted, lo, limit);
      if lo < |sorted| {
        var end := if hi < |sorted| then hi else |sorted|;
        assert Take(sorted, lo) == sorted[..lo];
        assert Take(sorted, hi) == sorted[..end];
        assert sorted[..lo] + sorted[lo..end] == sorted[..end];
      }
    }
  }

  /** With a positive limit, walking pages 1 to `pages` lists every
      document of the result exactly once, in order. */
  lemma PagesCoverAll<T>(sorted: seq<T>, limit: int)
    requires limit > 0
    ensures PagesUpTo(sorted, limit, PageCount(|sorted|, limit).value) == sorted
  {
    PagesUpToIsPrefix(sorted, limit, PageCount(|sorted|, limit).value);
  }
}
