/** The scenarios of the repository's unit tests, and a few edge cases of
    the same operations, as lemmas about the model. */
module Cases {
  import opened Json
  import Text
  import opened Extract
  import opened Retry
  import opened Scraping

  // ---------------------------------------------------------------------------
  // clean_text

  /** `<p>Пример текста<br>с тегами</p>\nи переносами` is cleaned to
      `Пример текста с тегами и переносами`. */
  lemma CleanTextExample()
    ensures CleanText(JStr("<p>Пример текста<br>с тегами</p>\nи переносами"))
         == Ok("Пример текста с тегами и переносами")
  {
    ExampleWords();
    Text.CleanThreeTags("Пример", "текста", "с", "тегами", "и", "переносами");
    ExampleInput();
    ExampleOutput();
  }

  /** Cleaning the test's output again changes nothing. */
  lemma CleanTextTwice()
    ensures var s := "<p>Пример текста<br>с тегами</p>\nи переносами";
      Text.Clean(Text.Clean(s)) == Text.Clean(s)
  {
    var s := "<p>Пример текста<br>с тегами</p>\nи переносами";
    var out := "Пример текста с тегами и переносами";
    CleanTextExample();
    assert Text.Clean(s) == out;
    Text.CleanCollapsed(s);
    OutputHasNoOpen();
    Text.CleanWithoutTags(out);
    Text.CollapseFixed(out);
  }

  lemma OutputHasNoOpen()
    ensures '<' !in "Пример текста с тегами и переносами"
  {
    ExampleWords();
    ExampleOutput();
  }

  lemma ExampleWords()
    ensures "Пример" != [] && Text.NoSpace("Пример") && '<' !in "Пример"
    ensures "текста" != [] && Text.NoSpace("текста") && '<' !in "текста"
    ensures "с" != [] && Text.NoSpace("с") && '<' !in "с"
    ensures "тегами" != [] && Text.NoSpace("тегами") && '<' !in "тегами"
    ensures "и" != [] && Text.NoSpace("и") && '<' !in "и"
    ensures "переносами" != [] && Text.NoSpace("переносами") && '<' !in "переносами"
  {
  }

  lemma ExampleInput()
    ensures "<p>Пример текста<br>с тегами</p>\nи переносами"
         == "<p>" + ("Пример" + (" " + ("текста" + ("<br>" + ("с" + (" " + ("тегами" + ("</p>" + ("\n" + ("и" + (" " + "переносами")))))))))))
  {
    InputTail();
    InputMiddle();
    InputHead();
  }

  lemma InputTail()
    ensures "и переносами" == "и" + (" " + "переносами")
    ensures "</p>\nи переносами" == "</p>" + ("\n" + "и переносами")
  {
  }

  lemma InputMiddle()
    ensures "с тегами</p>\nи переносами" == "с" + (" " + ("тегами" + "</p>\nи переносами"))
  {
  }

  lemma InputHead()
    ensures "<p>Пример текста<br>с тегами</p>\nи переносами"
         == "<p>" + ("Пример" + (" " + ("текста" + ("<br>" + "с тегами</p>\nи переносами"))))
  {
  }

  lemma ExampleOutput()
    ensures "Пример текста с тегами и переносами"
         == "Пример" + (" " + ("текста" + (" " + ("с" + (" " + ("тегами" + (" " + ("и" + (" " + "переносами")))))))))
  {
    OutputTail();
    OutputHead();
  }

  lemma OutputTail()
    ensures "с тегами и переносами" == "с" + (" " + ("тегами" + (" " + "и переносами")))
    ensures "и переносами" == "и" + (" " + "переносами")
  {
  }

  lemma OutputHead()
    ensures "Пример текста с тегами и переносами" == "Пример" + (" " + ("текста" + (" " + "с тегами и переносами")))
  {
  }

  // ---------------------------------------------------------------------------
  // extract_text and extract_country

  lemma ExtractTextExamples()
    ensures ExtractText(JArr([JObj(map["content" := JStr("A")]), JObj(map["content" := JStr("B")])]), 0)
         == Ok(JStr("A"))
    ensures ExtractText(JArr([]), 5) == Ok(JStr(NoInfo))
  {
  }

  /** Four blocks: the subtitle of the fourth. Three blocks: the fallback,
      whatever they hold. */
  lemma ExtractCountryExamples(b0: Json, b1: Json, b2: Json)
    ensures ExtractCountry(JObj(map["productDescription" := JArr([b0, b1, b2, JObj(map["subtitle" := JStr("X")])])]))
         == Ok(JStr("X"))
    ensures ExtractCountry(JObj(map["productDescription" := JArr([b0, b1, b2])])) == Ok(JStr(NotSpecified))
  {
  }

  // ---------------------------------------------------------------------------
  // The retry loop

  /** Two transient failures, then a body: three requests, two sleeps with
      multipliers 1 and 2. */
  lemma RetryTwiceThenSuccess(body: Json, req: Request)
    ensures Retry.Retry([Transient, Transient, Success(body)], 3) == Run(Ok(Some(body)), 3)
    ensures Sleeps(RetryTrace(req, 3)) == [1, 2]
    ensures Requests(RetryTrace(req, 3)) == [req, req, req]
  {
    var script := [Transient, Transient, Success(body)];
    FirstDecisive(script, 3, 3);
    RetryTraceShape(req, 3);
    assert Range(1, 3) == [1, 2];
    assert seq(3, _ => req) == [req, req, req];
  }

  // ---------------------------------------------------------------------------
  // fetch_product_details

  const Description: string := "Описание продукта"
  const Usage: string := "Инструкция по применению"
  const Country: string := "Россия"

  const DetailBlocks: seq<Json> := [
    JObj(map["content" := JStr(Description)]),
    JObj(map["content" := JStr(Usage)]),
    JObj(map[]),
    JObj(map["subtitle" := JStr(Country)])]

  const DetailsPayload: Json := JObj(map["data" := JObj(map["productDescription" := JArr(DetailBlocks)])])

  const ProductId: Json := JStr("12345")

  lemma DetailSplits()
    ensures Description == "Описание" + (" " + "продукта")
    ensures Usage == "Инструкция" + (" " + ("по" + (" " + "применению")))
  {
  }

  lemma DetailWords()
    ensures "Описание" != [] && Text.NoSpace("Описание") && '<' !in "Описание"
    ensures "продукта" != [] && Text.NoSpace("продукта") && '<' !in "продукта"
    ensures "Инструкция" != [] && Text.NoSpace("Инструкция") && '<' !in "Инструкция"
    ensures "по" != [] && Text.NoSpace("по") && '<' !in "по"
    ensures "применению" != [] && Text.NoSpace("применению") && '<' !in "применению"
    ensures Country != [] && Text.NoSpace(Country) && '<' !in Country
  {
  }

  /** The three texts of the test payload are already clean. */
  lemma DetailTexts()
    ensures Text.Clean(Description) == Description
    ensures Text.Clean(Usage) == Usage
    ensures Text.Clean(Country) == Country
  {
    DetailSplits();
    DetailWords();
    Text.CleanTwoWords("Описание", "продукта");
    Text.CleanThreeWords("Инструкция", "по", "применению");
    Text.CleanOneWord(Country);
  }

  lemma DetailsPayloadShape()
    ensures WellShaped(DetailsPayload) && Blocks(DetailsPayload) == JArr(DetailBlocks)
    ensures TextAt(DetailBlocks, 0, "content", NoInfo) == Description
    ensures TextAt(DetailBlocks, 1, "content", NoInfo) == Usage
    ensures TextAt(DetailBlocks, 3, "subtitle", NotSpecified) == Country
  {
  }

  lemma DetailsOfExample()
    ensures DetailsOf(DetailsPayload) == Ok(Details(Description, Usage, Country))
  {
    DetailsPayloadShape();
    DetailsOfWellShaped(DetailsPayload);
    DetailTexts();
  }

  /** The first request answers with the test payload: one request, the
      three texts returned as they are. */
  lemma FetchProductDetailsExample()
    ensures DetailsFetch(3, ProductId, [Success(DetailsPayload)])
         == Fetched(Ok(Some(Details(Description, Usage, Country))), [], [Requested(Detail(ProductId))])
  {
    DetailsOfExample();
  }

  /** A timeout first: the loop sleeps once (multiplier 1) and the second
      request succeeds. */
  lemma FetchProductDetailsAfterTimeout()
    ensures DetailsFetch(3, ProductId, [Transient, Success(DetailsPayload)])
         == Fetched(Ok(Some(Details(Description, Usage, Country))), [],
                    [Requested(Detail(ProductId)), Slept(1), Requested(Detail(ProductId))])
  {
    DetailsOfExample();
    DetailsAfterOneTimeout(3, ProductId, DetailsPayload, Details(Description, Usage, Country));
  }

  lemma DetailsAfterOneTimeout(maxRetries: int, id: Json, body: Json, d: Details)
    requires 2 <= maxRetries && DetailsOf(body) == Ok(d)
    ensures DetailsFetch(maxRetries, id, [Transient, Success(body)])
         == Fetched(Ok(Some(d)), [], [Requested(Detail(id)), Slept(1), Requested(Detail(id))])
  {
    var script := [Transient, Success(body)];
    DetailsOnAttempt(maxRetries, id, script, 2, body, d);
    assert Drop(script, 2) == [];
    var r := Detail(id);
    assert BeforeAttempt(r, 2) == [Requested(r), Slept(1)];
  }

  /** The `k`-th request is the first that does not time out, and its body
      yields the details `d`. */
  lemma DetailsOnAttempt(maxRetries: int, id: Json, script: seq<Attempt>, k: nat, body: Json, d: Details)
    requires 1 <= k <= maxRetries
    requires forall i :: 0 <= i < k - 1 ==> AttemptAt(script, i) == Transient
    requires AttemptAt(script, k - 1) == Success(body)
    requires DetailsOf(body) == Ok(d)
    ensures DetailsFetch(maxRetries, id, script) == Fetched(Ok(Some(d)), Drop(script, k), RetryTrace(Detail(id), k))
  {
    FirstDecisive(script, maxRetries, k);
  }

  /** A network that only times out: three requests, sleeps with
      multipliers 1 and 2, then `None`. */
  lemma FetchProductDetailsGivesUp()
    ensures DetailsFetch(3, ProductId, [])
         == Fetched(Ok(None), [],
                    [Requested(Detail(ProductId)), Slept(1), Requested(Detail(ProductId)),
                     Slept(2), Requested(Detail(ProductId))])
  {
    AllTransient([], 3);
    var r := Detail(ProductId);
    assert BeforeAttempt(r, 2) == [Requested(r), Slept(1)];
    assert BeforeAttempt(r, 3) == [Requested(r), Slept(1), Requested(r), Slept(2)];
  }

  /** Blocks that are never read may hold anything: a one-block card whose
      subtitle is any value, `null` included, gives its cleaned content and
      the two fallbacks. */
  lemma UnreadFieldIgnored(c: string, subtitle: Json)
    ensures DetailsOf(JObj(map["data" := JObj(map["productDescription" :=
              JArr([JObj(map["content" := JStr(c), "subtitle" := subtitle])])])]))
         == Ok(Details(Text.Clean(c), NoInfo, NotSpecified))
  {
    var block := JObj(map["content" := JStr(c), "subtitle" := subtitle]);
    var payload := JObj(map["data" := JObj(map["productDescription" := JArr([block])])]);
    assert Blocks(payload) == JArr([block]);
    assert TextBlock([block], 0, "content");
    DetailsOfWellShaped(payload);
    NoInfoClean();
    NotSpecifiedClean();
  }

  /** An empty `productDescription` dict or string passes every
      `len(...) > i` guard as length 0, so all three fields fall back. */
  lemma EmptyDescriptions(ds: Json)
    requires ds == JObj(map[]) || ds == JStr("")
    ensures DetailsOf(JObj(map["data" := JObj(map["productDescription" := ds])]))
         == Ok(Details(NoInfo, NoInfo, NotSpecified))
  {
    var payload := JObj(map["data" := JObj(map["productDescription" := ds])]);
    assert Blocks(payload) == ds;
    DetailsOfWellShaped(payload);
    NoInfoClean();
    NotSpecifiedClean();
  }

  lemma NoInfoClean()
    ensures Text.Clean(NoInfo) == NoInfo
  {
    assert NoInfo == "Нет" + (" " + "информации");
    NoInfoWords();
    Text.CleanTwoWords("Нет", "информации");
  }

  lemma NoInfoWords()
    ensures "Нет" != [] && Text.NoSpace("Нет") && '<' !in "Нет"
    ensures "информации" != [] && Text.NoSpace("информации") && '<' !in "информации"
  {
  }

  lemma NotSpecifiedClean()
    ensures Text.Clean(NotSpecified) == NotSpecified
  {
    assert NotSpecified == "Не" + (" " + "указана");
    NotSpecifiedWords();
    Text.CleanTwoWords("Не", "указана");
  }

  lemma NotSpecifiedWords()
    ensures "Не" != [] && Text.NoSpace("Не") && '<' !in "Не"
    ensures "указана" != [] && Text.NoSpace("указана") && '<' !in "указана"
  {
  }

  /** A `productDescription` that is a dict: `descriptions[0]` raises
      KeyError, which `fetch_product_details` does not catch. */
  lemma DetailsKeyError()
    ensures DetailsOf(JObj(map["data" := JObj(map["productDescription" := JObj(map["a" := JNull])])]))
         == Raise(KeyError)
  {
  }

  // ---------------------------------------------------------------------------
  // fetch_data

  const PageData: Json := JObj(map["data" := JObj(map["products" := JArr([
    JObj(map["id" := JNum(1.0)]), JObj(map["id" := JNum(2.0)])])])])

  lemma FetchDataExample()
    ensures PageFetch(3, 1, [Success(PageData)]) == Fetched(Ok(Some(PageData)), [], [Requested(Page(1))])
    ensures "products" in PageData.fields["data"].fields
  {
  }

  // ---------------------------------------------------------------------------
  // parse_products

  const Scraper: ProductScraper := ProductScraper("https://example.com", "https://example.com/api", 5.0, 3)

  const Prices: Json := JObj(map[
    "regular" := JObj(map["amount" := JNum(1000.0)]),
    "actual" := JObj(map["amount" := JNum(800.0)])])

  const Reviews: Json := JObj(map["rating" := JNum(4.5), "reviewsCount" := JNum(10.0)])

  const Item: Json := JObj(map[
    "url" := JStr("/product/1"),
    "name" := JStr("Товар 1"),
    "brand" := JStr("Бренд 1"),
    "price" := Prices,
    "reviews" := Reviews,
    "imageUrls" := JArr([JObj(map["url" := JStr("image1.jpg")])]),
    "itemId" := ProductId])

  const FirstPage: Json := JObj(map["data" := JObj(map["products" := JArr([Item])])])

  const Expected: Product := Product(
    Link("https://example.com", JStr("/product/1")), JStr("Товар 1"), JStr("Бренд 1"),
    JNum(1000.0), JNum(800.0), JNum(4.5), JNum(10.0), Description, Usage, Country)

  lemma ItemFieldsExample()
    ensures ItemFields(Item) == Ok(Fields(
      JStr("/product/1"), JStr("Товар 1"), JStr("Бренд 1"), JNum(1000.0), JNum(800.0),
      JNum(4.5), JNum(10.0), ProductId))
  {
    assert DictShaped(Item) && HasKeys(Item);
  }

  lemma ItemStepExample()
    ensures ItemStep(Scraper, Item, [Success(DetailsPayload)])
         == Fetched(Ok(Some(Expected)), [], [Requested(Detail(ProductId))])
  {
    ItemFieldsExample();
    FetchProductDetailsExample();
  }

  lemma FirstPageFetch()
    ensures PageFetch(3, 1, [Success(FirstPage), Success(DetailsPayload)])
         == Fetched(Ok(Some(FirstPage)), [Success(DetailsPayload)], [Requested(Page(1))])
  {
    var script := [Success(FirstPage), Success(DetailsPayload)];
    assert Drop(script, 1) == [Success(DetailsPayload)];
  }

  lemma FirstPageItems()
    ensures !Falsy(FirstPage) && ProductList(FirstPage) == Ok(JArr([Item]))
    ensures !Falsy(JArr([Item])) && ListItems(JArr([Item])) == Ok([Item])
  {
    assert "products" !in FirstPage.fields;
    assert FirstPage.fields["data"].fields["products"] == JArr([Item]);
  }

  /** A page of one item gives what the item gives. */
  lemma OneItem(s: ProductScraper, item: Json, script: seq<Attempt>)
    ensures var step := ItemStep(s, item, script);
      ItemsScrape(s, [item], script)
        == Fetched(if step.result.Raise? then Raise(step.result.exc) else Ok(Listed(step.result.value)),
                   step.rest, step.trace)
  {
    assert [item][..0] == [];
    var step := ItemStep(s, item, script);
    assert [] + step.trace == step.trace;
    if step.result.Ok? {
      assert [] + Listed(step.result.value) == Listed(step.result.value);
    }
  }

  lemma ItemsExample()
    ensures ItemsScrape(Scraper, [Item], [Success(DetailsPayload)])
         == Fetched(Ok([Expected]), [], [Requested(Detail(ProductId))])
  {
    ItemStepExample();
    OneItem(Scraper, Item, [Success(DetailsPayload)]);
  }

  lemma PagesNext(s: ProductScraper, page: int, script: seq<Attempt>, ps: seq<Product>, rest: seq<Attempt>, trace: seq<Event>)
    requires PageStep(s, page, script) == Next(ps, rest, trace)
    ensures Pages(s, page, script) == Resume(ps, trace, Pages(s, page + 1, rest))
  {
  }

  lemma FirstPageExample()
    ensures PageStep(Scraper, 1, [Success(FirstPage), Success(DetailsPayload)])
         == Next([Expected], [], [Requested(Page(1)), Requested(Detail(ProductId))])
  {
    FirstPageFetch();
    FirstPageItems();
    ItemsExample();
    var pageTrace, itemTrace := [Requested(Page(1))], [Requested(Detail(ProductId))];
    PageOfOneItem(Scraper, 1, [Success(FirstPage), Success(DetailsPayload)], FirstPage, Item, Expected,
                  [Success(DetailsPayload)], pageTrace, itemTrace);
    assert pageTrace + itemTrace == [Requested(Page(1)), Requested(Detail(ProductId))];
  }

  /** A page holding one item that gives one record, with nothing left of
      the script. */
  lemma PageOfOneItem(s: ProductScraper, page: int, script: seq<Attempt>, data: Json, item: Json, p: Product,
                      rest: seq<Attempt>, pageTrace: seq<Event>, itemTrace: seq<Event>)
    requires PageFetch(s.maxRetries, page, script) == Fetched(Ok(Some(data)), rest, pageTrace) && !Falsy(data)
    requires ProductList(data) == Ok(JArr([item]))
    requires ItemsScrape(s, [item], rest) == Fetched(Ok([p]), [], itemTrace)
    ensures PageStep(s, page, script) == Next([p], [], pageTrace + itemTrace)
  {
    PageOfItems(s, page, script, data, JArr([item]), [item]);
  }

  /** A page whose product list is a non-empty list goes on with what its
      items give. */
  lemma PageOfItems(s: ProductScraper, page: int, script: seq<Attempt>, data: Json, list: Json, items: seq<Json>)
    requires PageFetch(s.maxRetries, page, script).result == Ok(Some(data)) && !Falsy(data)
    requires ProductList(data) == Ok(list) && !Falsy(list) && ListItems(list) == Ok(items)
    requires ItemsScrape(s, items, PageFetch(s.maxRetries, page, script).rest).result.Ok?
    ensures var fetch := PageFetch(s.maxRetries, page, script);
      var got := ItemsScrape(s, items, fetch.rest);
      PageStep(s, page, script) == Next(got.result.value, got.rest, fetch.trace + got.trace)
  {
  }

  /** The second page never answers: three requests and `[]`. */
  lemma SecondPageExample()
    ensures Pages(Scraper, 2, [])
         == Fetched(Ok([]), [], [Requested(Page(2)), Slept(1), Requested(Page(2)), Slept(2), Requested(Page(2))])
  {
    AllTransient([], 3);
    var r := Page(2);
    assert BeforeAttempt(r, 2) == [Requested(r), Slept(1)];
    assert BeforeAttempt(r, 3) == [Requested(r), Slept(1), Requested(r), Slept(2)];
  }

  /** One page with one complete item whose details load, then no second
      page: one record with every field taken from the responses. */
  lemma ParseProductsExample()
    ensures Pages(Scraper, 1, [Success(FirstPage), Success(DetailsPayload)])
         == Fetched(Ok([Expected]), [],
                    [Requested(Page(1)), Requested(Detail(ProductId))]
                    + [Requested(Page(2)), Slept(1), Requested(Page(2)), Slept(2), Requested(Page(2))])
  {
    var first := [Requested(Page(1)), Requested(Detail(ProductId))];
    var second := [Requested(Page(2)), Slept(1), Requested(Page(2)), Slept(2), Requested(Page(2))];
    FirstPageExample();
    SecondPageExample();
    TwoPages(Scraper, [Success(FirstPage), Success(DetailsPayload)], Expected, first, second);
  }

  /** A first page of one record and a second page that stops the loop
      with nothing left of the script. */
  lemma TwoPages(s: ProductScraper, script: seq<Attempt>, p: Product, first: seq<Event>, second: seq<Event>)
    requires PageStep(s, 1, script) == Next([p], [], first)
    requires Pages(s, 2, []) == Fetched(Ok([]), [], second)
    ensures Pages(s, 1, script) == Fetched(Ok([p]), [], first + second)
  {
    PagesNext(s, 1, script, [p], [], first);
    StopKeeps([p], first, [], second);
  }

  /** The fallback of `data.get("products") or ...` is read even when
      `data["data"]` is None, which has no `get`: the loop raises. */
  lemma ParseProductsRaises()
    ensures Pages(Scraper, 1, [Success(JObj(map["products" := JArr([]), "data" := JNull]))]).result
         == Raise(AttributeError)
  {
    var data := JObj(map["products" := JArr([]), "data" := JNull]);
    assert PageFetch(3, 1, [Success(data)]).result == Ok(Some(data));
    NoneHasNoGet(data);
    PageListError(Scraper, 1, [Success(data)], data);
  }

  lemma NoneHasNoGet(data: Json)
    requires data == JObj(map["products" := JArr([]), "data" := JNull])
    ensures !Falsy(data) && ProductList(data) == Raise(AttributeError)
  {
    assert data.fields["products"] == JArr([]);
    assert data.fields["data"] == JNull;
  }

  /** An exception while reading the product list leaves the loop. */
  lemma PageListError(s: ProductScraper, page: int, script: seq<Attempt>, data: Json)
    requires PageFetch(s.maxRetries, page, script).result == Ok(Some(data)) && !Falsy(data)
    requires ProductList(data).Raise?
    ensures Pages(s, page, script).result == Raise(ProductList(data).exc)
  {
  }
}
