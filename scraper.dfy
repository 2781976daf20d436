/** `ProductScraper`: the page loop of `parse_products`, the per-item record
    it builds, and the two fetches it drives.

    The scraper's four settings never change after construction, so the
    scraper is a value. Every fetch takes the network script (the outcomes
    of the coming `requests.get` calls) and returns what is left of it
    together with the events it caused. */
module Scraping {
  import opened Json
  import Text
  import opened Retry
  import opened Extract

  const NoName: string := "Нет названия"
  const NoBrand: string := "Нет бренда"
  const NoRating: string := "Нет рейтинга"
  const NoReviews: string := "Нет отзывов"
  const NoDescription: string := "Нет описания"
  const NoUsage: string := "Нет инструкции"

  /** `f"{base_url}{item['url']}"`: the URL value is kept as decoded, not
      rendered by `str()`. */
  datatype Link = Link(base: string, path: Json)

  /** One record of the result, in the source's key order. */
  datatype Product = Product(
    link: Link, name: Json, brand: Json, regularPrice: Json, actualPrice: Json,
    rating: Json, reviewCount: Json,
    description: string, usageInstructions: string, country: string)

  /** What the `try` body reads from an item before fetching its details. */
  datatype Fields = Fields(
    url: Json, name: Json, brand: Json, regularPrice: Json, actualPrice: Json,
    rating: Json, reviewCount: Json, itemId: Json)

  /** An operation's outcome, the script left after it and its events. */
  datatype Fetched<T> = Fetched(result: Py<T>, rest: seq<Attempt>, trace: seq<Event>)

  // ---------------------------------------------------------------------------
  // Reading one item

  /** `item["price"][kind]["amount"]` exists. */
  predicate HasAmount(item: Json, kind: string)
    requires item.JObj?
  {
    && "price" in item.fields && item.fields["price"].JObj?
    && kind in item.fields["price"].fields && item.fields["price"].fields[kind].JObj?
    && "amount" in item.fields["price"].fields[kind].fields
  }

  function Amount(item: Json, kind: string): Json
    requires item.JObj? && HasAmount(item, kind)
  {
    item.fields["price"].fields[kind].fields["amount"]
  }

  /** Every key the item is subscripted with is present. */
  predicate HasKeys(item: Json)
    requires item.JObj?
  {
    "url" in item.fields && HasAmount(item, "regular") && HasAmount(item, "actual") && "itemId" in item.fields
  }

  /** Every value that is subscripted or asked for `.get` is a dict when
      present. */
  predicate DictShaped(item: Json) {
    && item.JObj?
    && ("price" in item.fields ==>
          var price := item.fields["price"];
          && price.JObj?
          && ("regular" in price.fields ==> price.fields["regular"].JObj?)
          && ("actual" in price.fields ==> price.fields["actual"].JObj?))
    && ("reviews" in item.fields ==> item.fields["reviews"].JObj?)
  }

  /** `d.get(key, fallback)` on a dict. */
  function Or(d: Json, key: string, fallback: Json): Json
    requires d.JObj?
  {
    if key in d.fields then d.fields[key] else fallback
  }

  /** The reads of the `try` body up to `item["itemId"]`, in the source's
      order. */
  function ItemFields(item: Json): (r: Py<Fields>)
    ensures !item.JObj? ==> r == Raise(TypeError)
    ensures r.Raise? ==> r.exc in {KeyError, TypeError, AttributeError}
    // on dict-shaped items the only failure is a missing key
    ensures DictShaped(item) ==> (r.Ok? <==> HasKeys(item)) && (r.Raise? ==> r.exc == KeyError)
    ensures r.Ok? ==> item.JObj? && HasKeys(item) && DictShaped(item) && r.value == Fields(
      item.fields["url"], Or(item, "name", JStr(NoName)), Or(item, "brand", JStr(NoBrand)),
      Amount(item, "regular"), Amount(item, "actual"),
      Or(Or(item, "reviews", JObj(map[])), "rating", JStr(NoRating)),
      Or(Or(item, "reviews", JObj(map[])), "reviewsCount", JStr(NoReviews)),
      item.fields["itemId"])
  {
    var url :- Index(item, "url");
    var name := Get(item, "name", JStr(NoName)).value;
    var brand := Get(item, "brand", JStr(NoBrand)).value;
    var price :- Index(item, "price");
    var regular :- Index(price, "regular");
    var regularPrice :- Index(regular, "amount");
    // the second `item["price"]` is the same lookup and yields `price`
    var actual :- Index(price, "actual");
    var actualPrice :- Index(actual, "amount");
    var reviews := Get(item, "reviews", JObj(map[])).value;
    var rating :- Get(reviews, "rating", JStr(NoRating));
    var reviewCount := Get(reviews, "reviewsCount", JStr(NoReviews)).value;
    var itemId :- Index(item, "itemId");
    Ok(Fields(url, name, brand, regularPrice, actualPrice, rating, reviewCount, itemId))
  }

  /** The record appended for an item; `None` details (every attempt failed
      transiently) give the three fallbacks. */
  function ProductFor(baseUrl: string, f: Fields, details: Option<Details>): Product {
    match details
    case Some(d) =>
      Product(Link(baseUrl, f.url), f.name, f.brand, f.regularPrice, f.actualPrice, f.rating, f.reviewCount,
              d.description, d.usageInstructions, d.country)
    case None =>
      Product(Link(baseUrl, f.url), f.name, f.brand, f.regularPrice, f.actualPrice, f.rating, f.reviewCount,
              NoDescription, NoUsage, NotSpecified)
  }

  // ---------------------------------------------------------------------------
  // What each operation does, as functions of the script

  /** `fetch_data(page_number)`. */
  function PageFetch(maxRetries: int, page: int, script: seq<Attempt>): (r: Fetched<Option<Json>>)
    ensures |r.rest| <= |script|
    ensures r.result != Ok(None) ==> |r.rest| < |script|
  {
    var run := Retry.Retry(script, maxRetries);
    Fetched(run.result, Drop(script, run.attempts), RetryTrace(Page(page), run.attempts))
  }

  /** `fetch_product_details(product_id)`: the retry loop, then the fields
      read from the decoded payload; errors while reading them are not
      retried. */
  function DetailsFetch(maxRetries: int, productId: Json, script: seq<Attempt>): (r: Fetched<Option<Details>>)
    ensures |r.rest| <= |script|
  {
    var run := Retry.Retry(script, maxRetries);
    var rest := Drop(script, run.attempts);
    var trace := RetryTrace(Detail(productId), run.attempts);
    match run.result
    case Raise(e) => Fetched(Raise(e), rest, trace)
    case Ok(None) => Fetched(Ok(None), rest, trace)
    case Ok(Some(body)) =>
      match DetailsOf(body)
      case Raise(e) => Fetched(Raise(e), rest, trace)
      case Ok(d) => Fetched(Ok(Some(d)), rest, trace)
  }

  /** One pass of the `for item in product_list` body with its
      `except KeyError: pass`. */
  function ItemStep(s: ProductScraper, item: Json, script: seq<Attempt>): (r: Fetched<Option<Product>>)
    ensures |r.rest| <= |script|
  {
    match ItemFields(item)
    case Raise(e) => Fetched(if e == KeyError then Ok(None) else Raise(e), script, [])
    case Ok(f) =>
      var d := DetailsFetch(s.maxRetries, f.itemId, script);
      match d.result
      case Raise(e) => Fetched(if e == KeyError then Ok(None) else Raise(e), d.rest, d.trace)
      case Ok(details) => Fetched(Ok(Some(ProductFor(s.baseUrl, f, details))), d.rest, d.trace)
  }

  function Listed(p: Option<Product>): seq<Product> {
    match p
    case Some(x) => [x]
    case None => []
  }

  /** The `for` loop over the first `|items|` items of a page. */
  function ItemsScrape(s: ProductScraper, items: seq<Json>, script: seq<Attempt>): (r: Fetched<seq<Product>>)
    ensures |r.rest| <= |script|
    decreases |items|
  {
    if items == [] then Fetched(Ok([]), script, [])
    else
      var before := ItemsScrape(s, items[..|items| - 1], script);
      match before.result
      case Raise(_) => before
      case Ok(ps) =>
        var step := ItemStep(s, items[|items| - 1], before.rest);
        match step.result
        case Raise(e) => Fetched(Raise(e), step.rest, before.trace + step.trace)
        case Ok(p) => Fetched(Ok(ps + Listed(p)), step.rest, before.trace + step.trace)
  }

  /** `data.get("products") or data.get("data", {}).get("products")`. */
  function ProductList(data: Json): (r: Py<Json>)
    ensures r.Raise? ==> r.exc == AttributeError
    ensures !data.JObj? ==> r == Raise(AttributeError)
    ensures data.JObj? && "products" in data.fields && !Falsy(data.fields["products"])
            ==> r == Ok(data.fields["products"])
    // a missing or falsy `products` falls back to `data.products`
    ensures data.JObj? && ("products" !in data.fields || Falsy(data.fields["products"])) ==>
              && ("data" !in data.fields ==> r == Ok(JNull))
              && ("data" in data.fields && !data.fields["data"].JObj? ==> r == Raise(AttributeError))
              && ("data" in data.fields && data.fields["data"].JObj? ==>
                    r == Ok(if "products" in data.fields["data"].fields
                            then data.fields["data"].fields["products"] else JNull))
  {
    var first :- Get(data, "products", JNull);
    if !Falsy(first) then Ok(first)
    else
      var inner := Get(data, "data", JObj(map[])).value;
      Get(inner, "products", JNull)
  }

  /** Iterating a truthy product list: only a list yields dict items; the
      strings a dict or a string yields fail `item['url']` with TypeError,
      and None, numbers and booleans are not iterable. */
  function ListItems(list: Json): (r: Py<seq<Json>>)
    ensures r.Ok? <==> list.JArr?
    ensures r.Ok? ==> r.value == list.items
    ensures r.Raise? ==> r.exc == TypeError
  {
    match list
    case JArr(items) => Ok(items)
    case _ => Raise(TypeError)
  }

  /** How one iteration of the `while True` loop ends: with a `break` (or
      an exception), or with the page's records and the loop going on. */
  datatype PageEnd =
    | Stop(outcome: Fetched<seq<Product>>)
    | Next(products: seq<Product>, rest: seq<Attempt>, trace: seq<Event>)

  function PageStep(s: ProductScraper, page: int, script: seq<Attempt>): (r: PageEnd)
    ensures r.Next? ==> |r.rest| < |script|
  {
    var fetch := PageFetch(s.maxRetries, page, script);
    match fetch.result
    case Raise(e) => Stop(Fetched(Raise(e), fetch.rest, fetch.trace))
    case Ok(None) => Stop(Fetched(Ok([]), fetch.rest, fetch.trace))
    case Ok(Some(data)) =>
      if Falsy(data) then Stop(Fetched(Ok([]), fetch.rest, fetch.trace))
      else
        match ProductList(data)
        case Raise(e) => Stop(Fetched(Raise(e), fetch.rest, fetch.trace))
        case Ok(list) =>
          if Falsy(list) then Stop(Fetched(Ok([]), fetch.rest, fetch.trace))
          else
            match ListItems(list)
            case Raise(e) => Stop(Fetched(Raise(e), fetch.rest, fetch.trace))
            case Ok(items) =>
              var got := ItemsScrape(s, items, fetch.rest);
              match got.result
              case Raise(e) => Stop(Fetched(Raise(e), got.rest, fetch.trace + got.trace))
              case Ok(ps) => Next(ps, got.rest, fetch.trace + got.trace)
  }

  /** Records gathered before an outcome, put in front of it. */
  function Resume(products: seq<Product>, trace: seq<Event>, later: Fetched<seq<Product>>): Fetched<seq<Product>> {
    Fetched(
      match later.result
      case Ok(ps) => Ok(products + ps)
      case Raise(e) => Raise(e),
      later.rest, trace + later.trace)
  }

  /** The `while True` loop entered at `page`. It ends because every page
      that lets it go on uses up at least one scripted outcome. */
  function Pages(s: ProductScraper, page: int, script: seq<Attempt>): Fetched<seq<Product>>
    decreases |script|
  {
    match PageStep(s, page, script)
    case Stop(outcome) => outcome
    case Next(ps, rest, trace) => Resume(ps, trace, Pages(s, page + 1, rest))
  }

  // ---------------------------------------------------------------------------
  // The scraper

  datatype ProductScraper = ProductScraper(baseUrl: string, apiUrl: string, timeout: real, maxRetries: int)
  {
    method FetchData(pageNumber: int, script: seq<Attempt>)
      returns (data: Py<Option<Json>>, rest: seq<Attempt>, trace: seq<Event>)
      ensures Fetched(data, rest, trace) == PageFetch(maxRetries, pageNumber, script)
    {
      data, rest, trace := FetchWithRetry(maxRetries, script, Page(pageNumber));
    }

    method FetchProductDetails(productId: Json, script: seq<Attempt>)
      returns (details: Py<Option<Details>>, rest: seq<Attempt>, trace: seq<Event>)
      ensures Fetched(details, rest, trace) == DetailsFetch(maxRetries, productId, script)
    {
      var response;
      response, rest, trace := FetchWithRetry(maxRetries, script, Detail(productId));
      match response {
        case Raise(e) =>
          details := Raise(e);
        case Ok(None) =>
          details := Ok(None);
        case Ok(Some(body)) =>
          var read := DetailsOf(body);
          details := match read case Raise(e) => Raise(e) case Ok(d) => Ok(Some(d));
      }
    }

    /** The body of the `for item in product_list` loop. */
    method ScrapeItem(item: Json, script: seq<Attempt>)
      returns (product: Py<Option<Product>>, rest: seq<Attempt>, trace: seq<Event>)
      ensures Fetched(product, rest, trace) == ItemStep(this, item, script)
    {
      var fields := ItemFields(item);
      if fields.Raise? {
        product := if fields.exc == KeyError then Ok(None) else Raise(fields.exc);
        return product, script, [];
      }
      var details;
      details, rest, trace := FetchProductDetails(fields.value.itemId, script);
      if details.Raise? {
        product := if details.exc == KeyError then Ok(None) else Raise(details.exc);
      } else {
        product := Ok(Some(ProductFor(baseUrl, fields.value, details.value)));
      }
    }

    /** The `for item in product_list` loop. */
    method ScrapeItems(items: seq<Json>, script: seq<Attempt>)
      returns (result: Py<seq<Product>>, rest: seq<Attempt>, trace: seq<Event>)
      ensures Fetched(result, rest, trace) == ItemsScrape(this, items, script)
    {
      var products: seq<Product> := [];
      rest := script;
      trace := [];
      var i := 0;
      while i < |items|
        invariant 0 <= i <= |items|
        invariant ItemsScrape(this, items[..i], script) == Fetched(Ok(products), rest, trace)
      {
        var product, itemTrace;
        product, rest, itemTrace := ScrapeItem(items[i], rest);
        assert items[..i + 1][..i] == items[..i];
        trace := trace + itemTrace;
        if product.Raise? {
          ItemsRaiseSticks(this, items, i + 1, script);
          return Raise(product.exc), rest, trace;
        }
        products := products + Listed(product.value);
        i := i + 1;
      }
      assert items[..i] == items;
      result := Ok(products);
    }

    /** One iteration of the `while True` loop of `parse_products`. */
    method ScrapePage(pageNumber: int, script: seq<Attempt>) returns (end: PageEnd)
      ensures end == PageStep(this, pageNumber, script)
    {
      var data, rest, trace := FetchData(pageNumber, script);
      if data.Raise? {
        return Stop(Fetched(Raise(data.exc), rest, trace));
      }
      if data.value.None? || Falsy(data.value.value) {
        return Stop(Fetched(Ok([]), rest, trace));
      }
      var productList := ProductList(data.value.value);
      if productList.Raise? {
        return Stop(Fetched(Raise(productList.exc), rest, trace));
      }
      if Falsy(productList.value) {
        return Stop(Fetched(Ok([]), rest, trace));
      }
      var listed := ListItems(productList.value);
      if listed.Raise? {
        return Stop(Fetched(Raise(listed.exc), rest, trace));
      }
      var products, itemsTrace;
      products, rest, itemsTrace := ScrapeItems(listed.value, rest);
      if products.Raise? {
        return Stop(Fetched(Raise(products.exc), rest, trace + itemsTrace));
      }
      return Next(products.value, rest, trace + itemsTrace);
    }

    /** `parse_products`: pages from 1 on until a page yields nothing. */
    method ParseProducts(script: seq<Attempt>)
      returns (result: Py<seq<Product>>, rest: seq<Attempt>, trace: seq<Event>)
      ensures Fetched(result, rest, trace) == Pages(this, 1, script)
    {
      var products: seq<Product> := [];
      var pageNumber := 1;
      rest := script;
      trace := [];
      ResumeNothing(Pages(this, 1, script));
      while true
        invariant Pages(this, 1, script) == Resume(products, trace, Pages(this, pageNumber, rest))
        decreases |rest|
      {
        var end := ScrapePage(pageNumber, rest);
        match end {
          case Stop(outcome) =>
            var last := Resume(products, trace, outcome);
            return last.result, last.rest, last.trace;
          case Next(pageProducts, pageRest, pageTrace) =>
            ResumeTwice(products, trace, pageProducts, pageTrace, Pages(this, pageNumber + 1, pageRest));
            products, rest, trace := products + pageProducts, pageRest, trace + pageTrace;
            pageNumber := pageNumber + 1;
        }
      }
    }
  }

  lemma ResumeNothing(later: Fetched<seq<Product>>)
    ensures Resume([], [], later) == later
  {
    if later.result.Ok? {
      assert [] + later.result.value == later.result.value;
    }
    assert [] + later.trace == later.trace;
  }

  lemma ResumeTwice(ps: seq<Product>, tr: seq<Event>, qs: seq<Product>, tq: seq<Event>, later: Fetched<seq<Product>>)
    ensures Resume(ps, tr, Resume(qs, tq, later)) == Resume(ps + qs, tr + tq, later)
  {
    if later.result.Ok? {
      assert ps + (qs + later.result.value) == ps + qs + later.result.value;
    }
    assert tr + (tq + later.trace) == tr + tq + later.trace;
  }

  /** Once the records of a prefix of the items end in an exception, so do
      those of every longer prefix: the exception leaves the loop. */
  lemma {:induction false} ItemsRaiseSticks(s: ProductScraper, items: seq<Json>, k: nat, script: seq<Attempt>)
    requires k <= |items|
    requires ItemsScrape(s, items[..k], script).result.Raise?
    ensures ItemsScrape(s, items, script) == ItemsScrape(s, items[..k], script)
    decreases |items|
  {
    if k < |items| {
      var init := items[..|items| - 1];
      assert init[..k] == items[..k];
      ItemsRaiseSticks(s, init, k, script);
    } else {
      assert items[..k] == items;
    }
  }

  // ---------------------------------------------------------------------------
  // One item

  /** An item missing a key it is subscripted with is dropped before its
      details are requested. */
  lemma ItemSkipped(s: ProductScraper, item: Json, script: seq<Attempt>)
    requires DictShaped(item) && !HasKeys(item)
    ensures ItemStep(s, item, script) == Fetched(Ok(None), script, [])
  {
  }

  /** A complete item whose detail requests all fail transiently is kept,
      with the three fallbacks for its texts. */
  lemma ItemWithoutDetails(s: ProductScraper, item: Json, script: seq<Attempt>)
    requires ItemFields(item).Ok?
    requires forall i :: 0 <= i < s.maxRetries ==> AttemptAt(script, i) == Transient
    ensures var r := ItemStep(s, item, script);
      && r.result.Ok? && r.result.value.Some?
      && r.result.value.value.link == Link(s.baseUrl, item.fields["url"])
      && r.result.value.value.description == NoDescription
      && r.result.value.value.usageInstructions == NoUsage
      && r.result.value.value.country == NotSpecified
  {
    RetryNone(script, s.maxRetries);
  }

  /** A complete item whose details load is kept with them; details that
      fail with a KeyError drop it. */
  lemma ItemWithDetails(s: ProductScraper, item: Json, script: seq<Attempt>, k: nat, body: Json)
    requires ItemFields(item).Ok? && 1 <= k <= s.maxRetries
    requires forall i :: 0 <= i < k - 1 ==> AttemptAt(script, i) == Transient
    requires AttemptAt(script, k - 1) == Success(body)
    ensures var r := ItemStep(s, item, script);
      && (DetailsOf(body).Ok? ==> r.result == Ok(Some(ProductFor(s.baseUrl, ItemFields(item).value, Some(DetailsOf(body).value)))))
      && (DetailsOf(body) == Raise(KeyError) ==> r.result == Ok(None))
      && r.rest == Drop(script, k)
      && Requests(r.trace) == seq(k, _ => Detail(item.fields["itemId"]))
  {
    FirstDecisive(script, s.maxRetries, k);
    RetryTraceShape(Detail(item.fields["itemId"]), k);
  }

  // ---------------------------------------------------------------------------
  // Which exceptions leave `parse_products`

  /** A KeyError is caught item by item and every index is checked against
      the length first, so what can escape is a TypeError or AttributeError
      from ill-typed data, or a network error. */
  predicate Escapes(e: Exc) {
    e == TypeError || e == AttributeError || e == RequestError
  }

  lemma ItemStepEscapes(s: ProductScraper, item: Json, script: seq<Attempt>)
    ensures var r := ItemStep(s, item, script); r.result.Raise? ==> Escapes(r.result.exc)
  {
  }

  lemma {:induction false} ItemsEscapes(s: ProductScraper, items: seq<Json>, script: seq<Attempt>)
    ensures var r := ItemsScrape(s, items, script); r.result.Raise? ==> Escapes(r.result.exc)
    decreases |items|
  {
    if items != [] {
      var before := ItemsScrape(s, items[..|items| - 1], script);
      ItemsEscapes(s, items[..|items| - 1], script);
      ItemStepEscapes(s, items[|items| - 1], before.rest);
    }
  }

  /** The items of a page that gets as far as its `for` loop. */
  predicate PageItems(s: ProductScraper, page: int, script: seq<Attempt>, items: seq<Json>) {
    var fetch := PageFetch(s.maxRetries, page, script);
    && fetch.result.Ok? && fetch.result.value.Some? && !Falsy(fetch.result.value.value)
    && ProductList(fetch.result.value.value).Ok?
    && !Falsy(ProductList(fetch.result.value.value).value)
    && ListItems(ProductList(fetch.result.value.value).value) == Ok(items)
  }

  /** A page either stops before its items or is the outcome of its items'
      loop after its fetch. */
  lemma PageStepItems(s: ProductScraper, page: int, script: seq<Attempt>)
    ensures var fetch := PageFetch(s.maxRetries, page, script);
      || (PageStep(s, page, script).Stop? && PageStep(s, page, script).outcome.rest == fetch.rest
          && PageStep(s, page, script).outcome.trace == fetch.trace
          && (PageStep(s, page, script).outcome.result.Raise? ==>
                Escapes(PageStep(s, page, script).outcome.result.exc))
          && (PageStep(s, page, script).outcome.result.Ok? ==> PageStep(s, page, script).outcome.result.value == []))
      || exists items :: PageItems(s, page, script, items) &&
           var got := ItemsScrape(s, items, fetch.rest);
           PageStep(s, page, script) ==
             if got.result.Raise? then Stop(Fetched(Raise(got.result.exc), got.rest, fetch.trace + got.trace))
             else Next(got.result.value, got.rest, fetch.trace + got.trace)
  {
    var fetch := PageFetch(s.maxRetries, page, script);
    if fetch.result.Ok? && fetch.result.value.Some? && !Falsy(fetch.result.value.value) {
      var list := ProductList(fetch.result.value.value);
      if list.Ok? && !Falsy(list.value) && ListItems(list.value).Ok? {
        assert PageItems(s, page, script, ListItems(list.value).value);
      }
    }
  }

  lemma {:induction false} PagesEscapes(s: ProductScraper, page: int, script: seq<Attempt>)
    ensures var r := Pages(s, page, script); r.result.Raise? ==> Escapes(r.result.exc)
    decreases |script|
  {
    PageStepItems(s, page, script);
    var fetch := PageFetch(s.maxRetries, page, script);
    if items :| PageItems(s, page, script, items) {
      ItemsEscapes(s, items, fetch.rest);
    }
    match PageStep(s, page, script)
    case Stop(_) =>
    case Next(_, rest, _) =>
      PagesEscapes(s, page + 1, rest);
  }

  // ---------------------------------------------------------------------------
  // The text of every record is cleaned

  /** The three text fields have the shape `clean_text` gives. */
  ghost predicate CleanRecord(p: Product) {
    Text.Collapsed(p.description) && Text.Collapsed(p.usageInstructions) && Text.Collapsed(p.country)
  }

  ghost predicate AllClean(ps: seq<Product>) {
    forall p :: p in ps ==> CleanRecord(p)
  }

  lemma TwoWordsCollapsed(w1: string, w2: string)
    requires w1 != [] && Text.NoSpace(w1) && w2 != [] && Text.NoSpace(w2)
    ensures Text.Collapsed(w1 + (" " + w2))
  {
    Text.CollapseTwoWords(w1, w2);
    Text.CollapseCollapsed(w1 + (" " + w2));
  }

  /** The fallbacks used when details are missing have that shape too. */
  lemma FallbacksCollapsed()
    ensures Text.Collapsed(NoDescription) && Text.Collapsed(NoUsage) && Text.Collapsed(NotSpecified)
  {
    NoDescriptionCollapsed();
    NoUsageCollapsed();
    NotSpecifiedCollapsed();
  }

  lemma NoDescriptionCollapsed()
    ensures Text.Collapsed(NoDescription)
  {
    assert NoDescription == "Нет" + (" " + "описания");
    TwoWordsCollapsed("Нет", "описания");
  }

  lemma NoUsageCollapsed()
    ensures Text.Collapsed(NoUsage)
  {
    assert NoUsage == "Нет" + (" " + "инструкции");
    TwoWordsCollapsed("Нет", "инструкции");
  }

  lemma NotSpecifiedCollapsed()
    ensures Text.Collapsed(NotSpecified)
  {
    assert NotSpecified == "Не" + (" " + "указана");
    TwoWordsCollapsed("Не", "указана");
  }

  lemma ItemStepClean(s: ProductScraper, item: Json, script: seq<Attempt>)
    ensures var r := ItemStep(s, item, script); r.result.Ok? ==> AllClean(Listed(r.result.value))
  {
    FallbacksCollapsed();
  }

  lemma {:induction false} ItemsClean(s: ProductScraper, items: seq<Json>, script: seq<Attempt>)
    ensures var r := ItemsScrape(s, items, script); r.result.Ok? ==> AllClean(r.result.value)
    decreases |items|
  {
    if items != [] {
      var before := ItemsScrape(s, items[..|items| - 1], script);
      ItemsClean(s, items[..|items| - 1], script);
      ItemStepClean(s, items[|items| - 1], before.rest);
    }
  }

  /** Every record `parse_products` returns carries cleaned text (or a
      fallback) in its description, usage instructions and country. */
  lemma {:induction false} PagesClean(s: ProductScraper, page: int, script: seq<Attempt>)
    ensures var r := Pages(s, page, script); r.result.Ok? ==> AllClean(r.result.value)
    decreases |script|
  {
    PageStepItems(s, page, script);
    var fetch := PageFetch(s.maxRetries, page, script);
    if items :| PageItems(s, page, script, items) {
      ItemsClean(s, items, fetch.rest);
    }
    match PageStep(s, page, script)
    case Stop(_) =>
    case Next(_, rest, _) =>
      PagesClean(s, page + 1, rest);
  }

  // ---------------------------------------------------------------------------
  // Where the records come from

  /** `xs` is `ys` with some elements left out, order kept. */
  predicate Subsequence<T(==)>(xs: seq<T>, ys: seq<T>)
    decreases |ys|
  {
    || xs == []
    || (ys != [] &&
        ((xs[|xs| - 1] == ys[|ys| - 1] && Subsequence(xs[..|xs| - 1], ys[..|ys| - 1]))
         || Subsequence(xs, ys[..|ys| - 1])))
  }

  function Links(ps: seq<Product>): (r: seq<Link>)
    ensures |r| == |ps|
  {
    if ps == [] then [] else Links(ps[..|ps| - 1]) + [ps[|ps| - 1].link]
  }

  /** The link of every item that has a URL, in item order. */
  function ItemLinks(s: ProductScraper, items: seq<Json>): (r: seq<Link>)
    ensures |r| <= |items|
  {
    if items == [] then []
    else
      var last := items[|items| - 1];
      ItemLinks(s, items[..|items| - 1])
        + (if last.JObj? && "url" in last.fields then [Link(s.baseUrl, last.fields["url"])] else [])
  }

  lemma LinksAppend(ps: seq<Product>, p: Product)
    ensures Links(ps + [p]) == Links(ps) + [p.link]
  {
    assert (ps + [p])[..|ps|] == ps;
  }

  lemma {:induction false} SubsequenceLength<T>(xs: seq<T>, ys: seq<T>)
    requires Subsequence(xs, ys)
    ensures |xs| <= |ys|
    decreases |ys|
  {
    if xs != [] {
      if xs[|xs| - 1] == ys[|ys| - 1] && Subsequence(xs[..|xs| - 1], ys[..|ys| - 1]) {
        SubsequenceLength(xs[..|xs| - 1], ys[..|ys| - 1]);
      } else {
        SubsequenceLength(xs, ys[..|ys| - 1]);
      }
    }
  }

  /** The records of a page's loop are built from its items, at most one
      per item, in item order. */
  lemma {:induction false} ItemsOrder(s: ProductScraper, items: seq<Json>, script: seq<Attempt>)
    ensures var r := ItemsScrape(s, items, script);
      r.result.Ok? ==> Subsequence(Links(r.result.value), ItemLinks(s, items))
    decreases |items|
  {
    if items != [] {
      var init, last := items[..|items| - 1], items[|items| - 1];
      var before := ItemsScrape(s, init, script);
      ItemsOrder(s, init, script);
      var r := ItemsScrape(s, items, script);
      if r.result.Ok? {
        assert before.result.Ok?;
        var step := ItemStep(s, last, before.rest);
        assert step.result.Ok? && r.result.value == before.result.value + Listed(step.result.value);
        ItemStepLink(s, last, before.rest);
        OrderStep(s, init, last, before.result.value, step.result.value);
      }
    }
  }

  /** The record of an item carries the item's own URL. */
  lemma ItemStepLink(s: ProductScraper, item: Json, script: seq<Attempt>)
    ensures var r := ItemStep(s, item, script);
      r.result.Ok? && r.result.value.Some? ==>
        item.JObj? && "url" in item.fields && r.result.value.value.link == Link(s.baseUrl, item.fields["url"])
  {
  }

  /** One more item keeps the records a subsequence of the links. */
  lemma OrderStep(s: ProductScraper, init: seq<Json>, last: Json, ps: seq<Product>, p: Option<Product>)
    requires Subsequence(Links(ps), ItemLinks(s, init))
    requires p.Some? ==> last.JObj? && "url" in last.fields && p.value.link == Link(s.baseUrl, last.fields["url"])
    ensures Subsequence(Links(ps + Listed(p)), ItemLinks(s, init + [last]))
  {
    var items := init + [last];
    assert items[..|items| - 1] == init && items[|items| - 1] == last;
    var links := ItemLinks(s, items);
    var own := if last.JObj? && "url" in last.fields then [Link(s.baseUrl, last.fields["url"])] else [];
    assert links == ItemLinks(s, init) + own;
    if p.Some? {
      LinksAppend(ps, p.value);
      assert links[..|links| - 1] == ItemLinks(s, init);
    } else {
      assert ps + [] == ps;
      if own != [] {
        assert links[..|links| - 1] == ItemLinks(s, init);
      } else {
        assert links == ItemLinks(s, init);
      }
    }
  }

  /** Hence at most one record per item. */
  lemma ItemsCount(s: ProductScraper, items: seq<Json>, script: seq<Attempt>)
    ensures var r := ItemsScrape(s, items, script); r.result.Ok? ==> |r.result.value| <= |items|
  {
    var r := ItemsScrape(s, items, script);
    if r.result.Ok? {
      ItemsOrder(s, items, script);
      SubsequenceLength(Links(r.result.value), ItemLinks(s, items));
    }
  }

  /** An item dropped for a missing key leaves no trace: the page's loop
      gives the same records, script and events without it, so the items
      after it are processed as if it were not there. */
  lemma {:induction false} SkippedItemInvisible(s: ProductScraper, a: seq<Json>, x: Json, b: seq<Json>, script: seq<Attempt>)
    requires DictShaped(x) && !HasKeys(x)
    ensures ItemsScrape(s, a + [x] + b, script) == ItemsScrape(s, a + b, script)
    decreases |b|
  {
    if b == [] {
      assert a + [x] + b == a + [x];
      assert a + b == a;
      assert (a + [x])[..|a|] == a;
      var before := ItemsScrape(s, a, script);
      if before.result.Ok? {
        assert before.result.value + [] == before.result.value;
        assert before.trace + [] == before.trace;
      }
    } else {
      var b' := b[..|b| - 1];
      SkippedItemInvisible(s, a, x, b', script);
      assert (a + [x] + b)[..|a + [x] + b| - 1] == a + [x] + b';
      assert (a + b)[..|a + b| - 1] == a + b';
      assert (a + [x] + b)[|a + [x] + b| - 1] == b[|b| - 1] == (a + b)[|a + b| - 1];
    }
  }

  // ---------------------------------------------------------------------------
  // The order in which pages are requested

  function PageNumbers(reqs: seq<Request>): seq<int> {
    if reqs == [] then []
    else (if reqs[0].Page? then [reqs[0].number] else []) + PageNumbers(reqs[1..])
  }

  lemma {:induction false} PageNumbersAppend(a: seq<Request>, b: seq<Request>)
    ensures PageNumbers(a + b) == PageNumbers(a) + PageNumbers(b)
  {
    if a == [] {
      assert a + b == b;
    } else {
      var first := if a[0].Page? then [a[0].number] else [];
      assert (a + b)[0] == a[0] && (a + b)[1..] == a[1..] + b;
      assert PageNumbers(a + b) == first + PageNumbers(a[1..] + b);
      PageNumbersAppend(a[1..], b);
      assert PageNumbers(a) == first + PageNumbers(a[1..]);
    }
  }

  lemma {:induction false} PageNumbersSame(p: int, k: nat)
    ensures PageNumbers(seq(k, _ => Page(p))) == seq(k, _ => p)
  {
    if k > 0 {
      var reqs := seq(k, _ => Page(p));
      assert reqs[1..] == seq(k - 1, _ => Page(p));
      PageNumbersSame(p, k - 1);
      assert seq(k, _ => p) == [p] + seq(k - 1, _ => p);
    }
  }

  lemma {:induction false} PageNumbersNone(reqs: seq<Request>)
    requires forall r :: r in reqs ==> r.Detail?
    ensures PageNumbers(reqs) == []
  {
    if reqs != [] {
      assert reqs[0] in reqs;
      assert forall r :: r in reqs[1..] ==> r in reqs;
      PageNumbersNone(reqs[1..]);
    }
  }

  /** Requesting an item's details never requests a page. */
  lemma ItemStepRequestsDetails(s: ProductScraper, item: Json, script: seq<Attempt>)
    ensures PageNumbers(Requests(ItemStep(s, item, script).trace)) == []
  {
    if ItemFields(item).Ok? {
      var id := ItemFields(item).value.itemId;
      var run := Retry.Retry(script, s.maxRetries);
      RetryTraceShape(Detail(id), run.attempts);
      PageNumbersNone(Requests(RetryTrace(Detail(id), run.attempts)));
    }
  }

  lemma {:induction false} ItemsRequestDetails(s: ProductScraper, items: seq<Json>, script: seq<Attempt>)
    ensures PageNumbers(Requests(ItemsScrape(s, items, script).trace)) == []
    decreases |items|
  {
    if items != [] {
      var before := ItemsScrape(s, items[..|items| - 1], script);
      ItemsRequestDetails(s, items[..|items| - 1], script);
      if before.result.Ok? {
        var step := ItemStep(s, items[|items| - 1], before.rest);
        ItemStepRequestsDetails(s, items[|items| - 1], before.rest);
        RequestsAppend(before.trace, step.trace);
        PageNumbersAppend(Requests(before.trace), Requests(step.trace));
      }
    }
  }

  /** Page numbers starting at `p`, each one equal to the one before or the
      next. */
  ghost predicate Walk(xs: seq<int>, p: int) {
    && (xs != [] ==> xs[0] == p)
    && forall i :: 0 < i < |xs| ==> xs[i] == xs[i - 1] || xs[i] == xs[i - 1] + 1
  }

  /** Pages are requested from `page` on, in order, without skipping one:
      a page is requested again only after a transient failure, and the
      next one only after a page whose items were all processed. */
  lemma {:induction false} PagesWalk(s: ProductScraper, page: int, script: seq<Attempt>)
    ensures Walk(PageNumbers(Requests(Pages(s, page, script).trace)), page)
    decreases |script|
  {
    var fetch := PageFetch(s.maxRetries, page, script);
    var run := Retry.Retry(script, s.maxRetries);
    RetryTraceShape(Page(page), run.attempts);
    PageNumbersSame(page, run.attempts);
    var own := PageNumbers(Requests(fetch.trace));
    assert own == seq(run.attempts, _ => page);
    PageStepItems(s, page, script);
    if items :| PageItems(s, page, script, items) {
      var got := ItemsScrape(s, items, fetch.rest);
      ItemsRequestDetails(s, items, fetch.rest);
      RequestsAppend(fetch.trace, got.trace);
      PageNumbersAppend(Requests(fetch.trace), Requests(got.trace));
      assert own + [] == own;
      match PageStep(s, page, script)
      case Stop(_) =>
      case Next(ps, rest, trace) =>
        var more := Pages(s, page + 1, rest);
        PagesWalk(s, page + 1, rest);
        RequestsAppend(trace, more.trace);
        PageNumbersAppend(Requests(trace), Requests(more.trace));
        WalkAppend(own, PageNumbers(Requests(more.trace)), page);
    }
  }

  lemma WalkAppend(a: seq<int>, b: seq<int>, p: int)
    requires a != [] && forall i :: 0 <= i < |a| ==> a[i] == p
    requires Walk(b, p + 1)
    ensures Walk(a + b, p)
  {
    var c := a + b;
    forall i | 0 < i < |c|
      ensures c[i] == c[i - 1] || c[i] == c[i - 1] + 1
    {
      if i > |a| {
        assert c[i] == b[i - |a|] && c[i - 1] == b[i - 1 - |a|];
      }
    }
  }

  /** The loop stops, returning what it has collected, at the first page
      that gives up after its retries, is falsy, or has a falsy product
      list. */
  lemma PageStops(s: ProductScraper, page: int, script: seq<Attempt>)
    ensures var fetch := PageFetch(s.maxRetries, page, script);
      var stop := Stop(Fetched(Ok([]), fetch.rest, fetch.trace));
      && (fetch.result == Ok(None) ==> PageStep(s, page, script) == stop)
      && (fetch.result.Ok? && fetch.result.value.Some? && Falsy(fetch.result.value.value) ==>
            PageStep(s, page, script) == stop)
      && (fetch.result.Ok? && fetch.result.value.Some? && !Falsy(fetch.result.value.value) &&
          ProductList(fetch.result.value.value).Ok? && Falsy(ProductList(fetch.result.value.value).value) ==>
            PageStep(s, page, script) == stop)
  {
  }

  /** A page that lets the loop go on puts its records in front of
      everything later pages collect: the result succeeds exactly when the
      rest of the loop does, and then starts with this page's records. */
  lemma PagesKeep(s: ProductScraper, page: int, script: seq<Attempt>)
    requires PageStep(s, page, script).Next?
    ensures var step := PageStep(s, page, script);
      var later := Pages(s, page + 1, step.rest);
      && (Pages(s, page, script).result.Ok? <==> later.result.Ok?)
      && (later.result.Ok? ==> Pages(s, page, script).result.value == step.products + later.result.value)
      && (later.result.Ok? ==> step.products <= Pages(s, page, script).result.value)
  {
  }

  /** Appending an empty outcome changes no record. */
  lemma StopKeeps(products: seq<Product>, trace: seq<Event>, rest: seq<Attempt>, last: seq<Event>)
    ensures Resume(products, trace, Fetched(Ok([]), rest, last)) == Fetched(Ok(products), rest, trace + last)
  {
    assert products + [] == products;
  }

  /** With a network that only times out, `parse_products` requests page 1
      `max_retries` times and returns no records. */
  lemma NetworkDown(s: ProductScraper, script: seq<Attempt>)
    requires forall i :: 0 <= i < s.maxRetries ==> AttemptAt(script, i) == Transient
    ensures Pages(s, 1, script).result == Ok([])
    ensures Requests(Pages(s, 1, script).trace) == seq(if s.maxRetries < 1 then 0 else s.maxRetries, _ => Page(1))
  {
    RetryNone(script, s.maxRetries);
    if s.maxRetries >= 1 {
      AllTransient(script, s.maxRetries);
    }
    RetryTraceShape(Page(1), Retry.Retry(script, s.maxRetries).attempts);
  }
}
