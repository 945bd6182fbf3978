/** Shared vocabulary of the hotel booking model: optional values, the
    replies of the REST handlers, day arithmetic on millisecond timestamps,
    sequence filtering and the skip/limit pagination of the list handlers. */
module Common {

  datatype Option<+T> = None | Some(value: T) {
    function GetOr(default: T): T {
      match this
      case Some(v) => v
      case None => default
    }
  }

  /** A message with an error cleared the way the form pages do it: a
      non-empty message becomes the empty string. */
  function Blanked(m: Option<string>): (r: Option<string>)
    ensures r.Some? <==> m.Some?
    ensures r.Some? ==> r.value == ""
  {
    if m.Some? && m.value != "" then Some("") else m
  }

  /** One form input's value, read by its name: a string, a number, or no
      such input. */
  datatype FieldValue = TextValue(text: string) | NumberValue(number: int) | NoField

  /** Document identifiers (Mongo ObjectIds) are strings. */
  type Id = string

  /** What a handler sends back, one constructor per HTTP status it uses. */
  datatype Reply<+T> =
    | Ok(value: T)                  // 200
    | Created(value: T)             // 201
    | Invalid(fields: seq<string>)  // 400 with the validator's error list
    | BadRequest(message: string)   // 400 with a message
    | NotFound(message: string)     // 404
    | ServerError(message: string)  // 500: a thrown save or update error
  {
    function Code(): int {
      match this
      case Ok(_) => 200
      case Created(_) => 201
      case Invalid(_) => 400
      case BadRequest(_) => 400
      case NotFound(_) => 404
      case ServerError(_) => 500
    }
  }

  /** `1000 * 3600 * 24`, one day in milliseconds. */
  const MS_PER_DAY: int := 86_400_000

  /** `Math.ceil(a / b)` for a positive divisor, on all integers (JavaScript's
      ceiling rounds toward +infinity for negative quotients too). */
  function CeilDiv(a: int, b: int): (q: int)
    requires b > 0
    ensures (q - 1) * b < a <= q * b
  {
    var f := (-a) / b;
    assert b * f <= -a < b * f + b;
    -f
  }

  /** The ceiling is the only integer with the bracketing property. */
  lemma CeilDivUnique(a: int, b: int, q: int)
    requires b > 0
    requires (q - 1) * b < a <= q * b
    ensures q == CeilDiv(a, b)
  {
    var c := CeilDiv(a, b);
    if q < c {
      MulMonotone(q, c - 1, b);
    } else if q > c {
      MulMonotone(c, q - 1, b);
    }
  }

  lemma MulMonotone(x: int, y: int, k: int)
    requires x <= y && k >= 0
    ensures x * k <= y * k
  {
  }

  /** The elements of `s` that satisfy `p`, in their original order. */
  function Filter<T>(s: seq<T>, p: T -> bool): (r: seq<T>)
    ensures |r| <= |s|
    ensures forall i :: 0 <= i < |r| ==> r[i] in s && p(r[i])
    ensures forall i :: 0 <= i < |s| && p(s[i]) ==> s[i] in r
  {
    if s == [] then []
    else if p(s[0]) then [s[0]] + Filter(s[1..], p)
    else Filter(s[1..], p)
  }

  /** Two tests that agree on every element filter alike. */
  lemma {:induction false} FilterSameTest<T>(s: seq<T>, p: T -> bool, p': T -> bool)
    requires forall i :: 0 <= i < |s| ==> p(s[i]) == p'(s[i])
    ensures Filter(s, p) == Filter(s, p')
    decreases |s|
  {
    if s != [] {
      FilterSameTest(s[1..], p, p');
    }
  }

  /** Filtering keeps each passing element exactly as often as it occurs,
      and drops every other one. */
  lemma {:induction false} FilterCounts<T>(s: seq<T>, p: T -> bool, x: T)
    ensures multiset(Filter(s, p))[x] == if p(x) then multiset(s)[x] else 0
    decreases |s|
  {
    if s != [] {
      FilterCounts(s[1..], p, x);
      assert s == [s[0]] + s[1..];
      assert multiset(s) == multiset{s[0]} + multiset(s[1..]);
    }
  }

  /** `Array.prototype.findIndex`: the index of the first element
      satisfying `p`, or -1. */
  function FindIndex<T>(s: seq<T>, p: T -> bool): (i: int)
    ensures -1 <= i < |s|
    ensures i == -1 <==> forall j :: 0 <= j < |s| ==> !p(s[j])
    ensures i >= 0 ==> p(s[i]) && forall j :: 0 <= j < i ==> !p(s[j])
  {
    if s == [] then -1
    else if p(s[0]) then 0
    else
      var i := FindIndex(s[1..], p);
      if i == -1 then -1 else i + 1
  }

  /** `Array.prototype.find`: the first element satisfying `p`, if any. */
  function Find<T>(s: seq<T>, p: T -> bool): (r: Option<T>)
    ensures r.None? <==> forall j :: 0 <= j < |s| ==> !p(s[j])
    ensures r.Some? ==> exists i :: 0 <= i < |s| && s[i] == r.value && p(s[i]) && forall j :: 0 <= j < i ==> !p(s[j])
  {
    var i := FindIndex(s, p);
    if i == -1 then None else Some(s[i])
  }

  /** `.skip((page - 1) * limit).limit(limit)`: a negative skip is refused by
      the database (None, surfacing as a 500), and a limit of 0 means "no
      limit". */
  function Paginate<T>(items: seq<T>, page: int, limit: nat): (r: Option<seq<T>>)
    ensures r.None? <==> (page - 1) * limit < 0
    ensures r.Some? ==> limit > 0 ==> |r.value| <= limit
    ensures r.Some? ==> forall i :: 0 <= i < |r.value| ==>
              (page - 1) * limit + i < |items| && r.value[i] == items[(page - 1) * limit + i]
    ensures r.Some? ==>
              |r.value| == if (page - 1) * limit >= |items| then 0
                           else if limit == 0 then |items| - (page - 1) * limit
                           else Min(limit, |items| - (page - 1) * limit)
  {
    var skip := (page - 1) * limit;
    if skip < 0 then None
    else if skip >= |items| then Some([])
    else if limit == 0 then Some(items[skip..])
    else Some(items[skip..Min(skip + limit, |items|)])
  }

  /** The body of a list reply: one page of the matching documents, the page
      count, the requested page and the number of matching documents. */
  datatype Page<T> = Page(items: seq<T>, totalPages: Option<nat>, currentPage: int, total: nat)

  /** A list handler's reply for the documents matching its filter, already
      in sort order. */
  function PageOf<T>(matching: seq<T>, page: int, limit: nat): (r: Option<Page<T>>)
    ensures r.None? <==> (page - 1) * limit < 0
    ensures r.Some? ==> r.value.total == |matching| && r.value.currentPage == page
    ensures r.Some? ==> limit > 0 ==> |r.value.items| <= limit
    ensures r.Some? ==> r.value.totalPages == TotalPages(|matching|, limit)
    ensures r.Some? ==> forall i :: 0 <= i < |r.value.items| ==>
              (page - 1) * limit + i < |matching| && r.value.items[i] == matching[(page - 1) * limit + i]
    ensures r.Some? ==>
              |r.value.items| == if (page - 1) * limit >= |matching| then 0
                                 else if limit == 0 then |matching| - (page - 1) * limit
                                 else Min(limit, |matching| - (page - 1) * limit)
  {
    match Paginate(matching, page, limit)
    case None => None
    case Some(items) => Some(Page(items, TotalPages(|matching|, limit), page, |matching|))
  }

  function Min(a: int, b: int): int { if a <= b then a else b }

  /** `Math.ceil(total / limit)`; with a limit of 0 JavaScript yields
      Infinity or NaN, modelled as None. */
  function TotalPages(total: nat, limit: nat): (r: Option<nat>)
    ensures r.None? <==> limit == 0
    ensures r.Some? ==> (r.value - 1) * limit < total <= r.value * limit
  {
    if limit == 0 then None else Some(CeilDiv(total, limit))
  }

  /** Every item lies on one of the pages 1..totalPages, at offset i % limit. */
  lemma ItemOnPage<T>(items: seq<T>, limit: nat, i: nat)
    requires limit > 0 && i < |items|
    ensures var p := i / limit + 1;
            && TotalPages(|items|, limit).Some?
            && 1 <= p <= TotalPages(|items|, limit).value
            && Paginate(items, p, limit).Some?
            && i % limit < |Paginate(items, p, limit).value|
            && Paginate(items, p, limit).value[i % limit] == items[i]
  {
    var q, m := i / limit, i % limit;
    assert i == q * limit + m && 0 <= m < limit;
    PageLiesBelowTotal(|items|, limit, q, m);
    ItemAtOffset(items, limit, q, m);
  }

  /** Item q * limit + m is item m of page q + 1. */
  lemma ItemAtOffset<T>(items: seq<T>, limit: nat, q: nat, m: nat)
    requires m < limit && q * limit + m < |items|
    ensures Paginate(items, q + 1, limit).Some?
    ensures m < |Paginate(items, q + 1, limit).value|
    ensures Paginate(items, q + 1, limit).value[m] == items[q * limit + m]
  {
    var skip := q * limit;
    assert (q + 1 - 1) * limit == skip;
    assert Paginate(items, q + 1, limit) == Some(items[skip..Min(skip + limit, |items|)]);
  }

  lemma PageLiesBelowTotal(n: nat, limit: nat, q: nat, m: nat)
    requires limit > 0 && m < limit && q * limit + m < n
    ensures TotalPages(n, limit).Some? && q + 1 <= TotalPages(n, limit).value
  {
    var t := TotalPages(n, limit).value;
    if q + 1 > t {
      MulMonotone(t, q, limit);
    }
  }

  /** Every matching document is listed: match j is item j % limit of page
      j / limit + 1, and that page is within the page count. */
  lemma PageOfCovers<T>(matching: seq<T>, limit: nat, j: nat)
    requires limit > 0 && j < |matching|
    ensures var p := j / limit + 1;
            && PageOf(matching, p, limit).Some?
            && TotalPages(|matching|, limit).Some? && 1 <= p <= TotalPages(|matching|, limit).value
            && j % limit < |PageOf(matching, p, limit).value.items|
            && PageOf(matching, p, limit).value.items[j % limit] == matching[j]
  {
    ItemOnPage(matching, limit, j);
  }
}
