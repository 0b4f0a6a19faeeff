/**
 * The CoinLore client (Services/CoinLoreService.cs): resolving ticker symbols
 * to CoinLore ids by paging through the ticker list, and fetching the quotes
 * of a set of ids.
 *
 * The HTTP endpoint is a parameter: the paged ticker list is the sequence of
 * pages it returns for start = 0, 100, 200, …, and the quote endpoint is a
 * function from the request URL to the JSON array it returns (`None` when the
 * body is `null`).
 */
module CoinLore {
  import opened Wrappers
  import opened Text
  import opened Models

  /** Tickers requested per page by the symbol lookup. */
  const Limit: nat := 100

  /** The page the service returns for `tickers/?start=<start>&limit=100`; past the end of the list, no data. */
  function PageAt(pages: seq<seq<CoinLoreTicker>>, start: nat): seq<CoinLoreTicker> {
    if start / Limit < |pages| then pages[start / Limit] else []
  }

  /** The symbols a lookup asks for, upper-cased. */
  function Wanted(symbols: seq<string>): set<string> {
    set s | s in symbols :: ToUpper(s)
  }

  /** The state of the lookup loop: symbols still needed, and the symbol-to-id map built so far. */
  datatype Progress = Progress(needed: set<string>, found: map<string, string>)

  /** One ticker of a page: recorded, and no longer needed, when its upper-cased symbol is still needed. */
  function Visit(p: Progress, t: CoinLoreTicker): Progress {
    var u := ToUpper(t.symbol);
    if u in p.needed then Progress(p.needed - {u}, p.found[u := t.id]) else p
  }

  /** The inner loop over one page. */
  function VisitAll(p: Progress, page: seq<CoinLoreTicker>): Progress
    decreases |page|
  {
    if |page| == 0 then p else Visit(VisitAll(p, page[..|page| - 1]), page[|page| - 1])
  }

  /** The outer loop from page `k` on: stop when nothing is needed, on an empty page, or after a short page. */
  function Resolve(p: Progress, pages: seq<seq<CoinLoreTicker>>, k: nat): map<string, string>
    decreases |pages| - k
  {
    if p.needed == {} || k >= |pages| || pages[k] == [] then p.found
    else
      var q := VisitAll(p, pages[k]);
      if |pages[k]| < Limit then q.found else Resolve(q, pages, k + 1)
  }

  /** What `MapSymbolsToIdsAsync` returns for `symbols` against the ticker list `pages`. */
  function MapSymbols(symbols: seq<string>, pages: seq<seq<CoinLoreTicker>>): map<string, string> {
    Resolve(Progress(Wanted(symbols), map[]), pages, 0)
  }

  /** The tickers of every page from `k` on up to the first empty or short one. */
  function Reach(pages: seq<seq<CoinLoreTicker>>, k: nat): seq<CoinLoreTicker>
    decreases |pages| - k
  {
    if k >= |pages| || pages[k] == [] then []
    else if |pages[k]| < Limit then pages[k]
    else pages[k] + Reach(pages, k + 1)
  }

  /** The id of the first ticker in `ts` whose upper-cased symbol is `u`, found from the back. */
  function FirstId(ts: seq<CoinLoreTicker>, u: string): Option<string>
    decreases |ts|
  {
    if |ts| == 0 then None
    else
      var f := FirstId(ts[..|ts| - 1], u);
      if f.Some? then f
      else if ToUpper(ts[|ts| - 1].symbol) == u then Some(ts[|ts| - 1].id)
      else None
  }

  /** `FirstId` finds nothing exactly when no ticker has the symbol, and otherwise the id of the earliest one that has it. */
  lemma {:induction false} FirstIdIsFirst(ts: seq<CoinLoreTicker>, u: string)
    ensures FirstId(ts, u).None? <==> forall i :: 0 <= i < |ts| ==> ToUpper(ts[i].symbol) != u
    ensures FirstId(ts, u).Some? ==>
              exists i :: 0 <= i < |ts| && ts[i].id == FirstId(ts, u).value && ToUpper(ts[i].symbol) == u &&
                          forall j :: 0 <= j < i ==> ToUpper(ts[j].symbol) != u
    decreases |ts|
  {
    if |ts| > 0 {
      var n := |ts| - 1;
      var init := ts[..n];
      FirstIdIsFirst(init, u);
      assert forall i :: 0 <= i < n ==> init[i] == ts[i];
      if FirstId(init, u).Some? {
        var i :| 0 <= i < n && init[i].id == FirstId(init, u).value && ToUpper(init[i].symbol) == u &&
                 forall j :: 0 <= j < i ==> ToUpper(init[j].symbol) != u;
        assert ts[i] == init[i];
      } else if ToUpper(ts[n].symbol) == u {
        assert ts[n].id == FirstId(ts, u).value;
      }
    }
  }

  /** The lookup state after visiting the tickers `seen`, stated without the loop. */
  function After(wanted: set<string>, seen: seq<CoinLoreTicker>): Progress {
    Progress(
      set u | u in wanted && FirstId(seen, u).None?,
      map u | u in wanted && FirstId(seen, u).Some? :: FirstId(seen, u).value)
  }

  /** Every wanted symbol that occurs in the reachable pages, mapped to the id of its first occurrence. */
  function Expected(symbols: seq<string>, pages: seq<seq<CoinLoreTicker>>): map<string, string> {
    After(Wanted(symbols), Reach(pages, 0)).found
  }

  /** Tickers appended after the first match do not change what is found. */
  lemma {:induction false} FirstIdAppend(p: seq<CoinLoreTicker>, x: seq<CoinLoreTicker>, u: string)
    requires FirstId(p, u).Some?
    ensures FirstId(p + x, u) == FirstId(p, u)
    decreases |x|
  {
    if |x| > 0 {
      assert (p + x)[..|p + x| - 1] == p + x[..|x| - 1];
      FirstIdAppend(p, x[..|x| - 1], u);
    } else {
      assert p + x == p;
    }
  }

  /** Looking a symbol up in a list with one more ticker at the end. */
  lemma FirstIdSnoc(seen: seq<CoinLoreTicker>, t: CoinLoreTicker, v: string)
    ensures FirstId(seen + [t], v) ==
              if FirstId(seen, v).Some? then FirstId(seen, v)
              else if ToUpper(t.symbol) == v then Some(t.id) else None
  {
    var s := seen + [t];
    assert s[..|s| - 1] == seen;
    assert s[|s| - 1] == t;
  }

  /** Visiting one more ticker moves the lookup state from `seen` to `seen + [t]`. */
  lemma {:induction false} VisitAfter(wanted: set<string>, seen: seq<CoinLoreTicker>, t: CoinLoreTicker)
    ensures Visit(After(wanted, seen), t) == After(wanted, seen + [t])
  {
    var s := seen + [t];
    var p := After(wanted, seen);
    var q := After(wanted, s);
    var r := Visit(p, t);
    var u := ToUpper(t.symbol);
    forall v | v in wanted
      ensures FirstId(s, v) == if FirstId(seen, v).Some? then FirstId(seen, v)
                              else if u == v then Some(t.id) else None
    {
      FirstIdSnoc(seen, t, v);
    }
    forall v
      ensures v in r.needed <==> v in q.needed
      ensures v in r.found <==> v in q.found
      ensures v in r.found ==> r.found[v] == q.found[v]
    {
    }
    assert r.needed == q.needed;
    assert r.found == q.found;
  }

  /** Visiting a page moves the lookup state from `seen` to `seen + page`. */
  lemma {:induction false} VisitAllAfter(wanted: set<string>, seen: seq<CoinLoreTicker>, page: seq<CoinLoreTicker>)
    ensures VisitAll(After(wanted, seen), page) == After(wanted, seen + page)
    decreases |page|
  {
    if |page| == 0 {
      assert seen + page == seen;
    } else {
      var init := page[..|page| - 1];
      VisitAllAfter(wanted, seen, init);
      VisitAfter(wanted, seen + init, page[|page| - 1]);
      assert seen + init + [page[|page| - 1]] == seen + page;
    }
  }

  /** From page `k` on, the paging loop ends with the state after every ticker it reaches. */
  lemma {:induction false} ResolveAfter(wanted: set<string>, seen: seq<CoinLoreTicker>, pages: seq<seq<CoinLoreTicker>>, k: nat)
    ensures Resolve(After(wanted, seen), pages, k) == After(wanted, seen + Reach(pages, k)).found
    decreases |pages| - k
  {
    var p := After(wanted, seen);
    var rest := Reach(pages, k);
    if p.needed == {} {
      forall u | u in wanted
        ensures FirstId(seen + rest, u) == FirstId(seen, u)
      {
        assert u !in p.needed;
        FirstIdAppend(seen, rest, u);
      }
      assert p.found == After(wanted, seen + rest).found;
    } else if k >= |pages| || pages[k] == [] {
      assert seen + rest == seen;
    } else {
      VisitAllAfter(wanted, seen, pages[k]);
      if |pages[k]| >= Limit {
        ResolveAfter(wanted, seen + pages[k], pages, k + 1);
        assert seen + pages[k] + Reach(pages, k + 1) == seen + rest;
      }
    }
  }

  /** The paging lookup finds, for every requested symbol, the first ticker carrying it in the pages it reaches. */
  lemma MapSymbolsFindsFirst(symbols: seq<string>, pages: seq<seq<CoinLoreTicker>>)
    ensures MapSymbols(symbols, pages) == Expected(symbols, pages)
  {
    var w := Wanted(symbols);
    assert After(w, []) == Progress(w, map[]);
    ResolveAfter(w, [], pages, 0);
    assert [] + Reach(pages, 0) == Reach(pages, 0);
  }

  /** A JSON value as `System.Text.Json` reads a ticker property. */
  datatype JsonValue = JsonString(text: string) | JsonNull | JsonOther

  /** A JSON object: its properties by name. */
  type JsonObject = map<string, JsonValue>

  /** The exceptions `GetProperty(..).GetString()` throws. */
  datatype JsonError = MissingProperty(name: string) | NotAString(name: string)

  /** `obj.GetProperty(name).GetString() ?? fallback`. */
  function StringProperty(obj: JsonObject, name: string, fallback: string): (r: Result<string, JsonError>)
    ensures r == Err(MissingProperty(name)) <==> name !in obj
    ensures r.Ok? <==> name in obj && !obj[name].JsonOther?
    ensures r.Ok? ==> r.value == (if obj[name].JsonNull? then fallback else obj[name].text)
  {
    if name !in obj then Err(MissingProperty(name))
    else match obj[name]
      case JsonString(s) => Ok(s)
      case JsonNull => Ok(fallback)
      case JsonOther => Err(NotAString(name))
  }

  /** One element of the quote response, read field by field in the order the client reads them. */
  function ToTicker(obj: JsonObject): Result<CoinLoreTicker, JsonError> {
    var id :- StringProperty(obj, "id", "");
    var symbol :- StringProperty(obj, "symbol", "");
    var name :- StringProperty(obj, "name", "");
    var price :- StringProperty(obj, "price_usd", "0");
    var change24h :- StringProperty(obj, "percent_change_24h", "0");
    var change7d :- StringProperty(obj, "percent_change_7d", "0");
    Ok(CoinLoreTicker(id, symbol, name, price, change24h, change7d))
  }

  /** The whole response, element by element; the first element that cannot be read aborts the call. */
  function ToTickers(objs: seq<JsonObject>): Result<seq<CoinLoreTicker>, JsonError>
    decreases |objs|
  {
    if |objs| == 0 then Ok([])
    else
      var before :- ToTickers(objs[..|objs| - 1]);
      var t :- ToTicker(objs[|objs| - 1]);
      Ok(before + [t])
  }

  /** One more element of the response: its ticker is appended, or its error ends the reading. */
  lemma {:induction false} ToTickersStep(objs: seq<JsonObject>, i: nat, tickers: seq<CoinLoreTicker>, t: Result<CoinLoreTicker, JsonError>)
    requires i < |objs|
    requires ToTickers(objs[..i]) == Ok(tickers)
    requires t == ToTicker(objs[i])
    ensures t.Err? ==> ToTickers(objs[..i + 1]) == Err(t.error)
    ensures t.Ok? ==> ToTickers(objs[..i + 1]) == Ok(tickers + [t.value])
  {
    assert objs[..i + 1][..i] == objs[..i];
  }

  /** Once a prefix of the response fails, the whole response fails with the same error. */
  lemma {:induction false} ToTickersPrefixError(objs: seq<JsonObject>, n: nat)
    requires n <= |objs|
    requires ToTickers(objs[..n]).Err?
    ensures ToTickers(objs) == ToTickers(objs[..n])
    decreases |objs| - n
  {
    if n < |objs| {
      assert objs[..n + 1][..n] == objs[..n];
      ToTickersPrefixError(objs, n + 1);
    } else {
      assert objs[..n] == objs;
    }
  }

  /** When the whole response reads, so does every prefix of it. */
  lemma ToTickersPrefixOk(objs: seq<JsonObject>, n: nat)
    requires n <= |objs|
    requires ToTickers(objs).Ok?
    ensures ToTickers(objs[..n]).Ok?
  {
    if ToTickers(objs[..n]).Err? {
      ToTickersPrefixError(objs, n);
    }
  }

  /** The quote request for `ids`. */
  function TickerUrl(ids: seq<string>): string {
    "/api/ticker/?id=" + Join(ids, ",")
  }

  /** What `GetTickersByIdsAsync` returns; a `null` body counts as an empty array. */
  function TickersByIds(ids: seq<string>, fetch: string -> Option<seq<JsonObject>>): Result<seq<CoinLoreTicker>, JsonError> {
    var body := fetch(TickerUrl(ids));
    ToTickers(if body.Some? then body.value else [])
  }

  /** Reading a response succeeds exactly when every element can be read. */
  lemma {:induction false} ToTickersReadable(objs: seq<JsonObject>)
    ensures ToTickers(objs).Ok? <==> forall i :: 0 <= i < |objs| ==> ToTicker(objs[i]).Ok?
    decreases |objs|
  {
    if |objs| > 0 {
      var n := |objs| - 1;
      var init := objs[..n];
      ToTickersReadable(init);
      assert forall i :: 0 <= i < n ==> init[i] == objs[i];
      assert objs[..n + 1] == objs;
      var r := ToTickers(init);
      if r.Err? {
        ToTickersPrefixError(objs, n);
      } else {
        ToTickersStep(objs, n, r.value, ToTicker(objs[n]));
      }
    }
  }

  /** A response that reads yields one ticker per element, in order. */
  lemma {:induction false} ToTickersElementwise(objs: seq<JsonObject>)
    requires ToTickers(objs).Ok?
    ensures |ToTickers(objs).value| == |objs|
    ensures forall i :: 0 <= i < |objs| ==> ToTicker(objs[i]) == Ok(ToTickers(objs).value[i])
    decreases |objs|
  {
    if |objs| > 0 {
      var n := |objs| - 1;
      var init := objs[..n];
      assert objs[..n + 1] == objs;
      ToTickersPrefixOk(objs, n);
      var r := ToTickers(init).value;
      ToTickersElementwise(init);
      var t := ToTicker(objs[n]);
      ToTickersStep(objs, n, r, t);
      var all := r + [t.value];
      assert ToTickers(objs).value == all;
      forall i | 0 <= i < |objs|
        ensures ToTicker(objs[i]) == Ok(all[i])
      {
        if i < n {
          assert objs[i] == init[i] && all[i] == r[i];
        }
      }
    }
  }

  /** A property that is `null` takes the client's default: empty text for names, "0" for numbers. */
  lemma NullPropertiesDefault(obj: JsonObject)
    requires forall name :: name in obj <==> name in {"id", "symbol", "name", "price_usd", "percent_change_24h", "percent_change_7d"}
    requires forall name :: name in obj ==> obj[name] == JsonNull
    ensures ToTicker(obj) == Ok(CoinLoreTicker("", "", "", "0", "0", "0"))
  {
    assert "id" in obj && "symbol" in obj && "name" in obj;
    assert "price_usd" in obj && "percent_change_24h" in obj && "percent_change_7d" in obj;
  }

  /** The ids of the quote request can be read back from its URL when no id contains a comma. */
  lemma TickerUrlCarriesIds(ids: seq<string>)
    requires |ids| >= 1
    requires forall k :: 0 <= k < |ids| ==> ',' !in ids[k]
    ensures |TickerUrl(ids)| >= 16
    ensures Split(TickerUrl(ids)[16..], ',') == ids
  {
    var url := TickerUrl(ids);
    assert url[16..] == Join(ids, ",");
    SplitJoin(ids, ',');
  }

  /** The client of the CoinLore API; `symbolToId` is its `map` field, reset by every lookup. */
  class CoinLoreService {
    var symbolToId: map<string, string>

    constructor ()
      ensures symbolToId == map[]
    {
      symbolToId := map[];
    }

    /** Pages through the ticker list until every requested symbol has an id, the list ends, or a page is short. */
    method MapSymbolsToIds(symbols: seq<string>, pages: seq<seq<CoinLoreTicker>>) returns (result: map<string, string>)
      modifies this
      ensures result == symbolToId == MapSymbols(symbols, pages)
    {
      var needed := Wanted(symbols);
      symbolToId := map[];
      var start := 0;
      ghost var k := 0;
      while needed != {}
        invariant k <= |pages|
        invariant start == k * Limit
        invariant Resolve(Progress(needed, symbolToId), pages, k) == MapSymbols(symbols, pages)
        decreases |pages| - k
      {
        var page := PageAt(pages, start);
        assert start / Limit == k;
        if page == [] {
          break;
        }
        ghost var before := Progress(needed, symbolToId);
        var j := 0;
        while j < |page|
          invariant 0 <= j <= |page|
          invariant Progress(needed, symbolToId) == VisitAll(before, page[..j])
        {
          assert page[..j + 1][..j] == page[..j];
          var u := ToUpper(page[j].symbol);
          if u in needed {
            symbolToId := symbolToId[u := page[j].id];
            needed := needed - {u};
          }
          j := j + 1;
        }
        assert page[..j] == page;
        if |page| < Limit {
          break;
        }
        start := start + Limit;
        k := k + 1;
      }
      result := symbolToId;
    }

    /** Fetches the quotes of `ids` in one request and reads each element of the answer into a ticker. */
    method GetTickersByIds(ids: seq<string>, fetch: string -> Option<seq<JsonObject>>) returns (r: Result<seq<CoinLoreTicker>, JsonError>)
      ensures r == TickersByIds(ids, fetch)
    {
      var body := fetch(TickerUrl(ids));
      var objs := if body.Some? then body.value else [];
      var tickers: seq<CoinLoreTicker> := [];
      var i := 0;
      while i < |objs|
        invariant 0 <= i <= |objs|
        invariant ToTickers(objs[..i]) == Ok(tickers)
      {
        var t := ToTicker(objs[i]);
        ToTickersStep(objs, i, tickers, t);
        if t.Err? {
          ToTickersPrefixError(objs, i + 1);
          return Err(t.error);
        }
        tickers := tickers + [t.value];
        i := i + 1;
      }
      assert objs[..i] == objs;
      r := Ok(tickers);
    }
  }
}
