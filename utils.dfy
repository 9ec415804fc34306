/** Keyword filtering, offset pagination and the ASCII fallback for console messages
    (vxcube_api/utils.py). */
module Utils {
  import opened Values

  // ---------------------------------------------------------------------------
  // filter_data

  /** `filter_data(**kwargs)`: the keyword arguments whose value is not None, in
      their original order. */
  function FilterData(kwargs: Entries): Entries
    decreases |kwargs|
  {
    if kwargs == [] then []
    else
      var init := FilterData(kwargs[..|kwargs| - 1]);
      if kwargs[|kwargs| - 1].1 == Null then init else init + [kwargs[|kwargs| - 1]]
  }

  /** Exactly the None-valued entries are dropped; every other entry, falsy or not,
      is kept. */
  lemma {:induction false} FilterDataDropsExactlyNone(kwargs: Entries)
    ensures forall e :: e in FilterData(kwargs) <==> e in kwargs && e.1 != Null
    ensures |FilterData(kwargs)| <= |kwargs|
    decreases |kwargs|
  {
    if kwargs != [] {
      var init := kwargs[..|kwargs| - 1];
      FilterDataDropsExactlyNone(init);
      assert kwargs == init + [kwargs[|kwargs| - 1]];
    }
  }

  /** The order of the kept entries is their order in the input. */
  lemma {:induction false} FilterDataKeepsOrder(kwargs: Entries)
    requires forall i :: 0 <= i < |kwargs| ==> kwargs[i].1 != Null
    ensures FilterData(kwargs) == kwargs
    decreases |kwargs|
  {
    if kwargs != [] {
      FilterDataKeepsOrder(kwargs[..|kwargs| - 1]);
    }
  }

  /** `filter_data(a=[], b="", c={}, d=False, e=None)` keeps a, b, c and d. */
  lemma {:induction false} FilterDataFalsyExample()
    ensures KeysOf(FilterData([("a", List([])), ("b", Str("")), ("c", Object([])),
                               ("d", Bool(false)), ("e", Null)]))
            == {"a", "b", "c", "d"}
  {
    var kw := [("a", List([])), ("b", Str("")), ("c", Object([])), ("d", Bool(false)), ("e", Null)];
    FilterDataKeepsOrder(kw[..4]);
    assert kw[..|kw| - 1] == kw[..4];
    var r := FilterData(kw);
    assert r == kw[..4];
    assert "a" == r[0].0 && "b" == r[1].0 && "c" == r[2].0 && "d" == r[3].0;
  }

  // ---------------------------------------------------------------------------
  // replace_3dots, reencode, message_compat

  const Ellipsis: char := '…'

  function Replace3Dots(msg: string): string {
    if |msg| > 0 && msg[|msg| - 1] == Ellipsis then msg[..|msg| - 1] + "..." else msg
  }

  /** A trailing ellipsis character becomes three full stops; nothing else changes,
      and a second application changes nothing more. */
  lemma {:induction false} Replace3DotsSpec(msg: string)
    ensures var r := Replace3Dots(msg);
      if |msg| > 0 && msg[|msg| - 1] == Ellipsis
      then |r| == |msg| + 2 && r[..|msg| - 1] == msg[..|msg| - 1] && r[|msg| - 1..] == "..."
      else r == msg
    ensures Replace3Dots(Replace3Dots(msg)) == Replace3Dots(msg)
  {
  }

  predicate IsAscii(s: string) {
    forall i :: 0 <= i < |s| ==> s[i] < 128 as char
  }

  /** `msg.encode("ascii", "replace").decode("ascii")`: every character outside
      ASCII becomes one question mark. */
  function Reencode(msg: string): (r: string)
    ensures |r| == |msg|
  {
    seq(|msg|, i requires 0 <= i < |msg| => if msg[i] < 128 as char then msg[i] else '?')
  }

  lemma {:induction false} ReencodeSpec(msg: string)
    ensures IsAscii(Reencode(msg))
    ensures forall i :: 0 <= i < |msg| && msg[i] < 128 as char ==> Reencode(msg)[i] == msg[i]
    ensures forall i :: 0 <= i < |msg| && msg[i] >= 128 as char ==> Reencode(msg)[i] == '?'
    ensures IsAscii(msg) ==> Reencode(msg) == msg
  {
  }

  /** `message_compat(msg)`, with the console's UTF-8 capability as a parameter. */
  function MessageCompat(msg: Value, utf8Console: bool): Value {
    if !utf8Console && msg.Str? then Str(Reencode(Replace3Dots(msg.s))) else msg
  }

  /** On a UTF-8 console or for a non-string message nothing changes; otherwise the
      result is pure ASCII, a trailing ellipsis turns into "..." rather than "?",
      and an ASCII message is left as it is. */
  lemma {:induction false} MessageCompatSpec(msg: Value, utf8Console: bool)
    ensures utf8Console || !msg.Str? ==> MessageCompat(msg, utf8Console) == msg
    ensures !utf8Console && msg.Str? ==>
      var r := MessageCompat(msg, utf8Console);
      && r.Str? && IsAscii(r.s)
      && (IsAscii(msg.s) ==> r == msg)
      && (|msg.s| > 0 && msg.s[|msg.s| - 1] == Ellipsis ==>
            r.s[|r.s| - 3..] == "..." && |r.s| == |msg.s| + 2)
  {
    if !utf8Console && msg.Str? {
      var d := Replace3Dots(msg.s);
      ReencodeSpec(d);
      Replace3DotsSpec(msg.s);
      if |msg.s| > 0 && msg.s[|msg.s| - 1] == Ellipsis {
        assert d[|d| - 3..] == "...";
        var r := Reencode(d);
        assert forall i :: |d| - 3 <= i < |d| ==> d[i] == '.';
        assert r[|r| - 3..] == "...";
      }
    }
  }

  // ---------------------------------------------------------------------------
  // iterator and all_items

  /** One call `func(count=..., offset=..., **filters)`. */
  datatype PageRequest = PageRequest(count: int, offset: Value, filters: Entries)

  /** How a run of page requests ended: the source ran dry (a short or empty page),
      an exception escaped, or the bound on requests was reached first. */
  datatype Stop = Exhausted | Raised(error: Exception) | OutOfFuel

  datatype Pages = Pages(items: seq<Value>, requests: seq<PageRequest>, stop: Stop)

  /** The falsy item keys (None, "") mean "the page is the list itself". */
  predicate HasItemKey(itemKey: Option<string>) {
    itemKey.Some? && itemKey.value != ""
  }

  /** `items = items[item_key]` when the key is set; the page itself otherwise. */
  function Unwrap(page: Value, itemKey: Option<string>): Result<Value> {
    if HasItemKey(itemKey) then
      match page
      case Object(es) =>
        (match Lookup(es, itemKey.value)
         case Some(inner) => Ok(inner)
         case None => Err(KeyError(itemKey.value)))
      case _ => Err(TypeError("page is not subscriptable by a string"))
    else Ok(page)
  }

  /** `offset += count_per_request`. */
  function NextOffset(offset: Value, count: int): Result<Value> {
    match offset
    case Int(o) => Ok(Int(o + count))
    case Bool(b) => Ok(Int(BoolToInt(b) + count))
    case _ => Err(TypeError("unsupported operand type(s) for +="))
  }

  /** One turn of the loop up to the items of the page: the call, the offset
      increment, the unwrapping and the iteration, each of which may raise. */
  datatype Step = Broke(error: Exception) | Got(container: Value, items: seq<Value>, next: Value)

  function PageStep(fetch: PageRequest -> Result<Value>, req: PageRequest, itemKey: Option<string>): Step {
    match fetch(req)
    case Err(e) => Broke(e)
    case Ok(page) =>
      match NextOffset(req.offset, req.count)
      case Err(e) => Broke(e)
      case Ok(next) =>
        match Unwrap(page, itemKey)
        case Err(e) => Broke(e)
        case Ok(container) =>
          match Iterate(container)
          case Err(e) => Broke(e)
          case Ok(items) => Got(container, items, next)
  }

  /** The reference behaviour of the pagination loop: at most `fuel` requests, each
      page flattened in order; the loop ends after the first page that is empty or
      shorter than `count`. */
  function Paginate(fetch: PageRequest -> Result<Value>, count: int, offset: Value,
                    filters: Entries, itemKey: Option<string>, fuel: nat): Pages
    decreases fuel
  {
    if fuel == 0 then Pages([], [], OutOfFuel)
    else
      var req := PageRequest(count, offset, filters);
      match PageStep(fetch, req, itemKey)
      case Broke(e) => Pages([], [req], Raised(e))
      case Got(_, items, next) =>
        if |items| == 0 || |items| < count then Pages(items, [req], Exhausted)
        else
          var rest := Paginate(fetch, count, next, filters, itemKey, fuel - 1);
          Pages(items + rest.items, [req] + rest.requests, rest.stop)
  }

  /** `Paginate` after one request. */
  function Resume(items: seq<Value>, requests: seq<PageRequest>, rest: Pages): Pages {
    Pages(items + rest.items, requests + rest.requests, rest.stop)
  }

  lemma {:induction false} ResumeResume(a: seq<Value>, r: seq<PageRequest>, b: seq<Value>, q: seq<PageRequest>, rest: Pages)
    ensures Resume(a, r, Resume(b, q, rest)) == Resume(a + b, r + q, rest)
  {
    assert a + (b + rest.items) == (a + b) + rest.items;
    assert r + (q + rest.requests) == (r + q) + rest.requests;
  }

  lemma {:induction false} PaginateUnfold(fetch: PageRequest -> Result<Value>, count: int, offset: Value,
                       filters: Entries, itemKey: Option<string>, fuel: nat)
    requires fuel > 0
    ensures var req := PageRequest(count, offset, filters);
      var st := PageStep(fetch, req, itemKey);
      Paginate(fetch, count, offset, filters, itemKey, fuel)
      == if st.Broke? then Pages([], [req], Raised(st.error))
         else if |st.items| == 0 || |st.items| < count then Pages(st.items, [req], Exhausted)
         else Resume(st.items, [req], Paginate(fetch, count, st.next, filters, itemKey, fuel - 1))
  {
  }

  /** One turn of the pagination loop, seen from the whole run: if the run so far
      is `done` and `requests` followed by the rest from `offset`, the next page
      either ends the run (an exception, a short page) or extends both. */
  lemma {:induction false} PaginateTurn(fetch: PageRequest -> Result<Value>, count: int, start: Value,
                     filters: Entries, itemKey: Option<string>, fuel: nat,
                     done: seq<Value>, requests: seq<PageRequest>, offset: Value, left: nat)
    requires left > 0
    requires Paginate(fetch, count, start, filters, itemKey, fuel)
          == Resume(done, requests, Paginate(fetch, count, offset, filters, itemKey, left))
    ensures var req := PageRequest(count, offset, filters);
      var st := PageStep(fetch, req, itemKey);
      var p := Paginate(fetch, count, start, filters, itemKey, fuel);
      && (st.Broke? ==> p == Pages(done, requests + [req], Raised(st.error)))
      && (st.Got? && (|st.items| == 0 || |st.items| < count)
          ==> p == Pages(done + st.items, requests + [req], Exhausted))
      && (st.Got? && !(|st.items| == 0 || |st.items| < count)
          ==> p == Resume(done + st.items, requests + [req],
                          Paginate(fetch, count, st.next, filters, itemKey, left - 1)))
  {
    var req := PageRequest(count, offset, filters);
    var st := PageStep(fetch, req, itemKey);
    PaginateUnfold(fetch, count, offset, filters, itemKey, left);
    if st.Broke? {
      assert done + [] == done;
    } else {
      ResumeResume(done, requests, st.items, [req],
                   Paginate(fetch, count, st.next, filters, itemKey, left - 1));
      if |st.items| == 0 || |st.items| < count {
        assert done + st.items + [] == done + st.items;
        assert requests + [req] + [] == requests + [req];
      }
    }
  }

  /** The first offset: the caller's `offset`, or 0. */
  function StartOffset(kwargs: Entries): Value {
    Get(kwargs, "offset", Int(0))
  }

  /** The filters passed through: the caller's keywords without `offset` and `count`. */
  function PassThrough(kwargs: Entries): (r: Entries)
    ensures "offset" !in KeysOf(r) && "count" !in KeysOf(r)
  {
    RemoveKey(RemoveKey(kwargs, "offset"), "count")
  }

  /** `iterator(func, count_per_request, item_key, **kwargs)`, driven by a consumer
      that lets it issue at most `fuel` requests.  `yielded` are the items handed to
      the consumer, in order. */
  method Iterator(fetch: PageRequest -> Result<Value>, countPerRequest: int,
                  itemKey: Option<string>, kwargs: Entries, fuel: nat)
    returns (yielded: seq<Value>, requests: seq<PageRequest>, stop: Stop)
    ensures Pages(yielded, requests, stop)
         == Paginate(fetch, countPerRequest, StartOffset(kwargs), PassThrough(kwargs), itemKey, fuel)
  {
    var offset := StartOffset(kwargs);
    var filters := PassThrough(kwargs);
    yielded, requests, stop := [], [], OutOfFuel;
    var left := fuel;
    while left > 0
      invariant Paginate(fetch, countPerRequest, StartOffset(kwargs), filters, itemKey, fuel)
             == Resume(yielded, requests, Paginate(fetch, countPerRequest, offset, filters, itemKey, left))
      decreases left
    {
      var req := PageRequest(countPerRequest, offset, filters);
      PaginateTurn(fetch, countPerRequest, StartOffset(kwargs), filters, itemKey, fuel,
                   yielded, requests, offset, left);
      requests := requests + [req];
      var step := PageStep(fetch, req, itemKey);
      if step.Broke? {
        stop := Raised(step.error);
        return;
      }
      offset := step.next;
      yielded := AppendEach(yielded, step.items);   // `for item in items: yield item`
      if |step.items| == 0 || |step.items| < countPerRequest {
        stop := Exhausted;
        return;
      }
      left := left - 1;
    }
    assert yielded + [] == yielded && requests + [] == requests;
  }

  /** What `all_items` hands back: the complete list, the exception it raised, or
      nothing yet because the request bound was reached first. */
  datatype Collected = Collected(items: seq<Value>) | Failed(error: Exception) | Unfinished

  function Collect(p: Pages): Collected {
    match p.stop
    case Exhausted => Collected(p.items)
    case Raised(e) => Failed(e)
    case OutOfFuel => Unfinished
  }

  /** `all_items(func, count_per_request, item_key, **kwargs)`: the same protocol as
      `Iterator`, accumulated into one list before returning. */
  method AllItems(fetch: PageRequest -> Result<Value>, countPerRequest: int,
                  itemKey: Option<string>, kwargs: Entries, fuel: nat)
    returns (r: Collected, requests: seq<PageRequest>)
    ensures var p := Paginate(fetch, countPerRequest, StartOffset(kwargs), PassThrough(kwargs), itemKey, fuel);
      r == Collect(p) && requests == p.requests
  {
    var offset := StartOffset(kwargs);
    var filters := PassThrough(kwargs);
    var all: seq<Value> := [];
    requests := [];
    var left := fuel;
    while left > 0
      invariant Paginate(fetch, countPerRequest, StartOffset(kwargs), filters, itemKey, fuel)
             == Resume(all, requests, Paginate(fetch, countPerRequest, offset, filters, itemKey, left))
      decreases left
    {
      var req := PageRequest(countPerRequest, offset, filters);
      PaginateTurn(fetch, countPerRequest, StartOffset(kwargs), filters, itemKey, fuel,
                   all, requests, offset, left);
      requests := requests + [req];
      var step := PageStep(fetch, req, itemKey);
      if step.Broke? {
        return Failed(step.error), requests;
      }
      offset := step.next;
      if step.container.List? {
        all := all + step.items;   // `_all.extend(items)`
      } else {
        all := AppendEach(all, step.items);
      }
      if |step.items| == 0 || |step.items| < countPerRequest {
        return Collected(all), requests;
      }
      left := left - 1;
    }
    r := Unfinished;
  }

  /** `for item in items: _all.append(item)`. */
  method AppendEach(all: seq<Value>, items: seq<Value>) returns (r: seq<Value>)
    ensures r == all + items
  {
    r := all;
    var i := 0;
    while i < |items|
      invariant 0 <= i <= |items|
      invariant r == all + items[..i]
    {
      r := r + [items[i]];
      i := i + 1;
    }
    assert items[..i] == items;
  }

  // ---------------------------------------------------------------------------
  // Properties of the pagination protocol

  /** Request `i` asks for exactly `count` items at offset `start + i * count`, with
      the same pass-through filters, whatever each page held. */
  lemma {:induction false} PaginateRequests(fetch: PageRequest -> Result<Value>, count: int, start: int,
                                            filters: Entries, itemKey: Option<string>, fuel: nat)
    ensures var p := Paginate(fetch, count, Int(start), filters, itemKey, fuel);
      && |p.requests| <= fuel
      && (fuel > 0 ==> |p.requests| > 0)
      && forall i :: 0 <= i < |p.requests| ==> p.requests[i] == PageRequest(count, Int(start + i * count), filters)
    decreases fuel
  {
    if fuel > 0 {
      var req := PageRequest(count, Int(start), filters);
      var st := PageStep(fetch, req, itemKey);
      PaginateUnfold(fetch, count, Int(start), filters, itemKey, fuel);
      if st.Got? && !(|st.items| == 0 || |st.items| < count) {
        assert st.next == Int(start + count);
        PaginateRequests(fetch, count, start + count, filters, itemKey, fuel - 1);
        var p := Paginate(fetch, count, Int(start), filters, itemKey, fuel);
        var rest := Paginate(fetch, count, Int(start + count), filters, itemKey, fuel - 1);
        assert p.requests == [req] + rest.requests;
        forall i | 1 <= i < |p.requests|
          ensures p.requests[i] == PageRequest(count, Int(start + i * count), filters)
        {
          assert p.requests[i] == rest.requests[i - 1];
          OffsetArith(start, count, i);
        }
      }
    }
  }

  /** The offset of request `i` seen from the second request on. */
  lemma OffsetArith(start: int, count: int, i: int)
    ensures start + count + (i - 1) * count == start + i * count
  {
  }

  /** Whatever the offsets, every request asks for `count` items with the same
      filters. */
  lemma {:induction false} PaginateShape(fetch: PageRequest -> Result<Value>, count: int, offset: Value,
                                         filters: Entries, itemKey: Option<string>, fuel: nat)
    ensures var p := Paginate(fetch, count, offset, filters, itemKey, fuel);
      forall i :: 0 <= i < |p.requests| ==> p.requests[i].count == count && p.requests[i].filters == filters
    decreases fuel
  {
    if fuel > 0 {
      var st := PageStep(fetch, PageRequest(count, offset, filters), itemKey);
      if st.Got? && !(|st.items| == 0 || |st.items| < count) {
        PaginateShape(fetch, count, st.next, filters, itemKey, fuel - 1);
        PaginateUnfold(fetch, count, offset, filters, itemKey, fuel);
        var p := Paginate(fetch, count, offset, filters, itemKey, fuel);
        var rest := Paginate(fetch, count, st.next, filters, itemKey, fuel - 1);
        assert p.requests == [PageRequest(count, offset, filters)] + rest.requests;
        assert forall i :: 1 <= i < |p.requests| ==> p.requests[i] == rest.requests[i - 1];
      }
    }
  }

  /** Request `i` of a pagination has the page size and the filters. */
  lemma {:induction false} RequestShape(fetch: PageRequest -> Result<Value>, count: int, offset: Value,
                                        filters: Entries, itemKey: Option<string>, fuel: nat, i: nat)
    requires i < |Paginate(fetch, count, offset, filters, itemKey, fuel).requests|
    ensures Paginate(fetch, count, offset, filters, itemKey, fuel).requests[i].count == count
    ensures Paginate(fetch, count, offset, filters, itemKey, fuel).requests[i].filters == filters
  {
    PaginateShape(fetch, count, offset, filters, itemKey, fuel);
  }

  /** The stopping rule: a page that is empty or shorter than `count` is the last
      one requested; a full page is always followed by another request (while the
      bound allows). */
  lemma {:induction false} PaginateStopRule(fetch: PageRequest -> Result<Value>, count: int, start: int,
                         filters: Entries, itemKey: Option<string>, fuel: nat, page: Value, items: seq<Value>)
    requires fuel > 0
    requires fetch(PageRequest(count, Int(start), filters)) == Ok(page)
    requires Unwrap(page, itemKey).Ok? && Iterate(Unwrap(page, itemKey).value) == Ok(items)
    ensures var p := Paginate(fetch, count, Int(start), filters, itemKey, fuel);
      && (|items| == 0 || |items| < count ==> p == Pages(items, [PageRequest(count, Int(start), filters)], Exhausted))
      && (|items| > 0 && |items| >= count && fuel > 1 ==>
            |p.requests| >= 2 && p.requests[1].offset == Int(start + count) && p.items[..|items|] == items)
  {
    if |items| > 0 && |items| >= count && fuel > 1 {
      PaginateRequests(fetch, count, start + count, filters, itemKey, fuel - 1);
    }
  }

  /** A list served by offset slicing, `data[offset:offset + count]`, optionally
      wrapped as `{item_key: slice}`. */
  function SliceServer(data: seq<Value>, itemKey: Option<string>): PageRequest -> Result<Value> {
    (req: PageRequest) =>
      var lo := if req.offset.Int? && req.offset.i >= 0 then req.offset.i else 0;
      var s := SliceOf(data, lo, lo + req.count);
      if HasItemKey(itemKey) then Ok(Object([(itemKey.value, List(s))])) else Ok(List(s))
  }

  function SliceOf(data: seq<Value>, lo: int, hi: int): (r: seq<Value>)
    requires 0 <= lo
  {
    var a := if lo < |data| then lo else |data|;
    var b := if hi < a then a else if hi < |data| then hi else |data|;
    data[a..b]
  }

  /** Enough requests for `n` items leave enough for the rest after one page. */
  lemma {:induction false} FuelBound(fuel: nat, count: int, n: int)
    requires count >= 1 && n >= 0 && fuel * count > n
    ensures fuel > 0 && (fuel - 1) * count > n - count
  {
    assert (fuel - 1) * count == fuel * count - count;
  }

  /** One page from a slicing server: the slice at the offset, and the next offset. */
  lemma {:induction false} SliceServerStep(data: seq<Value>, itemKey: Option<string>, count: int,
                        start: int, filters: Entries)
    requires 0 <= start
    ensures var s := SliceOf(data, start, start + count);
      PageStep(SliceServer(data, itemKey), PageRequest(count, Int(start), filters), itemKey)
      == Got(List(s), s, Int(start + count))
  {
    var req := PageRequest(count, Int(start), filters);
    var s := SliceOf(data, start, start + count);
    assert SliceServer(data, itemKey)(req)
        == if HasItemKey(itemKey) then Ok(Object([(itemKey.value, List(s))])) else Ok(List(s));
  }

  /** Over a source of N items served by offset slicing, the iterator yields exactly
      the items from the start offset on, in order, for any page size of at least
      one, with or without an item key, given enough requests. */
  lemma {:induction false} PaginateSliceServer(data: seq<Value>, itemKey: Option<string>, count: int,
                                               start: int, filters: Entries, fuel: nat)
    requires count >= 1 && 0 <= start <= |data|
    requires fuel * count > |data| - start
    ensures Paginate(SliceServer(data, itemKey), count, Int(start), filters, itemKey, fuel).items == data[start..]
    ensures Paginate(SliceServer(data, itemKey), count, Int(start), filters, itemKey, fuel).stop == Exhausted
    decreases fuel
  {
    var fetch := SliceServer(data, itemKey);
    var s := SliceOf(data, start, start + count);
    FuelBound(fuel, count, |data| - start);
    SliceServerStep(data, itemKey, count, start, filters);
    PaginateUnfold(fetch, count, Int(start), filters, itemKey, fuel);
    SliceSplit(data, start, count);
    if |s| >= count {
      PaginateSliceServer(data, itemKey, count, start + count, filters, fuel - 1);
    }
  }

  /** A short slice is the whole tail; a full one is the tail's first `count` items. */
  lemma SliceSplit(data: seq<Value>, start: int, count: int)
    requires count >= 1 && 0 <= start <= |data|
    ensures var s := SliceOf(data, start, start + count);
      && (|s| < count ==> s == data[start..])
      && (|s| >= count ==> start + count <= |data| && data[start..] == s + data[start + count..])
  {
    var s := SliceOf(data, start, start + count);
    if |s| >= count {
      assert s == data[start..start + count];
    }
  }

  /** 100 items served 9 at a time arrive complete and in order. */
  lemma {:induction false} HundredItemsByNine(itemKey: Option<string>)
    ensures var data := seq(100, i => Int(i));
      var p := Paginate(SliceServer(data, itemKey), 9, Int(0), [], itemKey, 12);
      p.items == data && |p.items| == 100 && p.stop == Exhausted
  {
    var data := seq(100, i => Int(i));
    PaginateSliceServer(data, itemKey, 9, 0, [], 12);
  }
}
