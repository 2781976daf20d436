# ProductScraper, modelled in Dafny

`ProductScraper` collects product records from a paginated catalogue API.
- `parse_products` requests catalogue pages 1, 2, 3, … until a page yields nothing.
- For every item on a page it reads the link, name, brand, prices and review data.
- It then requests the item's product card and takes three cleaned texts from it: description, usage instructions and country.
- Both requests go through the same bounded retry loop. The loop retries HTTP errors and timeouts with a linearly growing sleep, and gives up with `None`.

The model covers that pipeline: `clean_text`, `extract_text`, `extract_country`, the two retry loops, and the page and item loops of `parse_products`.

How the model is built:
- **Json** (`json.dfy`):
  - a decoded JSON value;
  - the Python exceptions the scraper can meet, with an `Ok | Raise` result type;
  - the dynamic operations the code applies: truthiness, `dict.get`, subscripting with a key or an index, and `len`. Each one returns the exception Python would raise on an ill-typed operand.
- **Text** (`text.dfy`):
  - `clean_text` on a string: `re.sub(r"<.*?>", " ", ·)` followed by `" ".join(·.split())`;
  - its properties: the collapsed shape of the result, what happens without tags, when cleaning twice is cleaning once, and a counterexample where it is not;
  - the unit test's example, in general form.
- **Extract** (`extract.dfy`): `clean_text` on a decoded value, `extract_text`, `extract_country`, and the fields `fetch_product_details` reads from a product-card payload.
- **Retry** (`retry.dfy`):
  - the `for attempt in range(1, max_retries + 1)` loop as a method;
  - the function it is proved against;
  - the loop's outcome and event lemmas.
- **Scraping** (`scraper.dfy`):
  - the scraper;
  - `fetch_data`, `fetch_product_details`, one pass of the item loop, the item loop and the page loop as methods, each proved against a function of the network script;
  - the properties of `parse_products`.
- **Cases** (`cases.dfy`): the scenarios of `tests/test_scraper.py`, and edge cases of the same operations.

The network is a script: the outcome of each `requests.get` + `raise_for_status` + `.json()` in order. An outcome is `Success(body)`, `Transient` (HTTPError or Timeout) or `Failure` (any other exception). Page and detail requests draw on the same script. Past its end the script stands for a network that only times out, so every run of `parse_products` ends. Every operation returns:
- its result;
- the rest of the script;
- its events: requests made, and sleeps with the attempt number that scales them.

## Model

| member | source | states |
|---|---|---|
| Json.Get | src/scraper.py:53 | `d.get(k, default)`: the value, or the default for a missing key; AttributeError exactly when `d` is no dict |
| Json.Index | src/scraper.py:104-114 | `d[k]`: the value when `d` is a dict holding `k`; KeyError exactly for a dict without `k`; TypeError otherwise |
| Json.Length | src/scraper.py:79 | `len(x)`: the element count of a list; TypeError exactly for None, numbers and booleans |
| Json.Item | src/scraper.py:80 | `x[i]`: the element of a list, a one-character string of a string, KeyError on a dict, IndexError past the end, TypeError otherwise |
| Json.Falsy | src/scraper.py:95-99 | Python truthiness of a decoded value: `None`, `False`, zero and empty strings, lists and dicts are false; `Scraping.PageStops` states the two loop exits that test it |
| Text.Split | src/scraper.py:76 | `str.split()` with no argument; `Text.SplitWords` and `Text.ConcatSplit` state that its words are non-empty, whitespace-free, and together exactly the non-whitespace characters; `Text.SplitChunk` states that a word followed by whitespace or the end is split off whole |
| Text.Join | src/scraper.py:76 | `" ".join(words)`; `Text.JoinCollapsed` states its collapsed shape |
| Text.Collapse | src/scraper.py:76 | `" ".join(s.split())`; `Text.CollapseCollapsed`, `Text.LettersCollapse` and `Text.CollapseFixed` state its shape, what it keeps, and its fixed points; `Text.CollapseSkip`, `Text.CollapseBlank`, `Text.CollapseWord` and `Text.CollapseChunk` state that leading whitespace is dropped, a word is kept whole, and each whitespace run between words becomes exactly one space |
| Text.StripTags | src/scraper.py:75 | `re.sub(r"<.*?>", " ", s)`; `Text.TagEndFirst`, `Text.StripPlain`, `Text.StripChars`, `Text.StripNoTag` and `Text.StripFixed` state what it replaces and what it keeps |
| Text.Clean | src/scraper.py:74-76 | `clean_text` on a string; `Text.CleanCollapsed`, `Text.CleanWithoutTags`, `Text.CleanIdempotent` and `Text.CleanNotIdempotent` state its properties |
| Text.SplitWords | src/scraper.py:76 | every word of `split()` is non-empty and free of whitespace |
| Text.JoinCollapsed | src/scraper.py:76 | joining such words with single spaces gives a collapsed string |
| Text.CollapseCollapsed | src/scraper.py:76 | `" ".join(s.split())` has no whitespace at either end, none but `' '`, and never two whitespace characters in a row |
| Text.ConcatSplit | src/scraper.py:76 | the words of `split()`, concatenated, are exactly the non-whitespace characters of the input |
| Text.LettersCollapse | src/scraper.py:76 | collapsing whitespace keeps every non-whitespace character, in order |
| Text.CollapseFixed | src/scraper.py:76 | collapsing an already collapsed string returns it unchanged |
| Text.SplitChunk | src/scraper.py:76 | a non-empty whitespace-free word followed by whitespace or the end of the text is split off whole as the first word |
| Text.CollapseSkip | src/scraper.py:76 | leading whitespace is dropped |
| Text.CollapseBlank | src/scraper.py:76 | text made only of whitespace collapses to the empty string |
| Text.CollapseWord | src/scraper.py:76 | a single word is kept as it is |
| Text.CollapseChunk | src/scraper.py:76 | a word followed by a whitespace run and more words becomes the word, exactly one space, and the collapsed rest |
| Text.TagEndFirst | src/scraper.py:75 | a match of `<.*?>` ends at the first `>` with no line break before it; there is no match exactly when every later `>` has a line break before it |
| Text.StripPlain | src/scraper.py:75 | text without `<` is left unchanged by tag removal |
| Text.StripChars | src/scraper.py:75 | tag removal introduces no character except `' '` |
| Text.StripNoTag | src/scraper.py:75 | when every `<` that has a `>` after it opens a match (`TagsClose`), tag removal leaves no `<` followed later by `>` |
| Text.TagsCloseWhen | src/scraper.py:75 | text without line breaks, and text without `<`, satisfy `TagsClose` |
| Text.StripFixed | src/scraper.py:75 | text without line breaks in which no `<` is followed later by `>` is left unchanged by tag removal |
| Text.CollapseNoTag | src/scraper.py:76 | collapsing whitespace creates no `<…>` span |
| Text.CleanCollapsed | src/scraper.py:74-76 | `clean_text` output has no leading or trailing whitespace, only `' '` as whitespace, and never two in a row |
| Text.CleanWithoutTags | src/scraper.py:74-76 | on input without `<`, `clean_text` only collapses and trims whitespace |
| Text.CleanIdempotent | src/scraper.py:74-76 | cleaning twice equals cleaning once whenever no line break cuts a tag (`TagsClose`) |
| Text.CleanNotIdempotent | src/scraper.py:74-76 | `"<a\n>"` cleans to `"<a >"`, and cleaning that again gives `""` |
| Text.CleanThreeTags | tests/test_scraper.py:15-19 | for any six non-empty words without whitespace or `<`, `<p>w1 w2<br>w3 w4</p>\nw5 w6` cleans to the six words separated by single spaces |
| Extract.CleanText | src/scraper.py:74-76 | defined exactly for strings (TypeError otherwise); the result is collapsed; without `<` it is the collapsed input |
| Extract.Positional | src/scraper.py:78-87 | `ds[i].get(key, fallback)` guarded by `len(ds) > i`, for every shape of `ds` and `ds[i]`: the value, the fallback, or the exception raised |
| Extract.ExtractText | src/scraper.py:78-81 | `content` of block `i` when the list is long enough and the block has it; "Нет информации" when it is too short or the block lacks the key; a non-fallback result only in the first case |
| Extract.ExtractCountry | src/scraper.py:83-87 | `subtitle` of the fourth block when the list has more than 3 blocks and the block has it; "Не указана" for 3 blocks or fewer, a missing key or a missing `productDescription`; AttributeError for a non-dict |
| Extract.DetailsOf | src/scraper.py:53-67 | the three details are cleaned (collapsed) texts; AttributeError for a payload that is no dict; only KeyError, TypeError or AttributeError can escape |
| Extract.DetailsOfWellShaped | src/scraper.py:53-67 | when `data` is a dict, `productDescription` a list (or an empty dict or string, which have no blocks), and the `content` of blocks 0 and 1 and the `subtitle` of block 3 are strings where present (other blocks and keys are unconstrained), the details are those texts cleaned, each with its fallback |
| Extract.DetailsOfOk | src/scraper.py:53-67 | conversely, a payload whose details are read without an exception is well-shaped, so every successful read is the closed form of `Extract.DetailsOfWellShaped` |
| Retry.RetryFrom | src/scraper.py:32-43 | the loop entered at attempt `n` makes between 1 and `max_retries - n + 1` requests, none past the end; it raises only RequestError; a non-`None` result ends on a scripted outcome |
| Retry.Retry | src/scraper.py:32-43 | no request and `None` when `max_retries < 1`; otherwise between 1 and `max_retries` requests |
| Retry.FetchWithRetry | src/scraper.py:32-43 | the loop returns the result, the rest of the script and the events of `Retry` |
| Retry.RetryOutcome | src/scraper.py:32-43 | every request but the last failed transiently; the last one's body is returned, its other error propagates, and a transient last failure means `None` after exactly `max_retries` requests |
| Retry.RetryFromOutcome | src/scraper.py:32-43 | the same, for the loop entered at attempt `n` |
| Retry.FirstDecisive | src/scraper.py:32-43 | the loop stops at the first non-transient outcome within `max_retries`, returning its body or raising |
| Retry.AllTransient | src/scraper.py:39-43 | `max_retries` transient failures give `None` after exactly `max_retries` requests |
| Retry.RetryNone | src/scraper.py:32-43 | `None` exactly when the first `max_retries` outcomes are all transient |
| Retry.RetryTraceShape | src/scraper.py:39-41 | a run of `k` requests repeats the same request `k` times and sleeps `k - 1` times, with multipliers 1, 2, …, k - 1 |
| Retry.Backoff | src/scraper.py:41 | the sleep before attempt n+1 lies in [10n, 20n] seconds |
| Scraping.ItemFields | src/scraper.py:104-114 | a non-dict item raises TypeError; only KeyError, TypeError or AttributeError can escape; on dict-shaped items success holds exactly when `url`, both amounts and `itemId` exist, and otherwise KeyError; on success, each field is read at its path, with its sentinel where `.get` falls back |
| Scraping.ProductList | src/scraper.py:97 | AttributeError for a non-dict page; a truthy `products` is taken as it is; otherwise `data.products` when `data` is a dict (`None` when it lacks the key), `None` when `data` is absent, and AttributeError when `data` is present but no dict |
| Scraping.ListItems | src/scraper.py:102 | iteration yields items exactly for a list; anything else ends in TypeError |
| Scraping.PageFetch | src/scraper.py:94 | a page fetch uses no more script than there is, and one that returns data or raises uses at least one outcome |
| Scraping.PageStep | src/scraper.py:93-138 | an iteration that lets the `while True` loop continue has used at least one scripted outcome |
| Scraping.ProductFor | src/scraper.py:116-135 | the record appended for an item; `Scraping.ItemWithoutDetails` and `Scraping.ItemWithDetails` state its link, its details, and the three fallbacks when the details are `None` |
| Scraping.DetailsFetch | src/scraper.py:45-72 | `fetch_product_details` as a function of the script; it uses no more script than there is; `Scraping.ItemWithDetails` and the `Cases` lemmas state its result and events |
| Scraping.ItemStep | src/scraper.py:102-137 | one pass of the item loop with its `except KeyError`; `Scraping.ItemSkipped`, `Scraping.ItemWithoutDetails`, `Scraping.ItemWithDetails`, `Scraping.ItemStepEscapes` and `Scraping.ItemStepClean` state its outcomes |
| Scraping.ItemsScrape | src/scraper.py:102-137 | the item loop over a page as a function of the script; `Scraping.ItemsRaiseSticks`, `Scraping.ItemsEscapes`, `Scraping.ItemsClean`, `Scraping.ItemsOrder`, `Scraping.ItemsCount` and `Scraping.SkippedItemInvisible` state its properties |
| Scraping.Pages | src/scraper.py:91-138 | the `while True` loop entered at a page, ending because every continuing page uses up script; `Scraping.PagesEscapes`, `Scraping.PagesClean`, `Scraping.PagesWalk`, `Scraping.PagesKeep` and `Scraping.NetworkDown` state its properties |
| Scraping.ProductScraper.FetchData | src/scraper.py:30-43 | `fetch_data` is the retry loop on the page request |
| Scraping.ProductScraper.FetchProductDetails | src/scraper.py:45-72 | `fetch_product_details` is the retry loop on the card request, then `DetailsOf` on the body |
| Scraping.ProductScraper.ScrapeItem | src/scraper.py:102-137 | one pass of the item loop: reads, the details fetch, the record, and a KeyError turned into no record |
| Scraping.ProductScraper.ScrapeItems | src/scraper.py:102-137 | the item loop gives what `ItemsScrape` gives, stopping at the first exception that is not a KeyError |
| Scraping.ProductScraper.ScrapePage | src/scraper.py:94-137 | one iteration of the `while True` loop |
| Scraping.ProductScraper.ParseProducts | src/scraper.py:89-139 | `parse_products` from page 1 gives what `Pages` gives |
| Scraping.ItemsRaiseSticks | src/scraper.py:102-137 | once the loop over a prefix of the items raises, the loop over all of them raises the same way |
| Scraping.ItemSkipped | src/scraper.py:104-114 | a dict-shaped item missing a required key gives no record and makes no request |
| Scraping.SkippedItemInvisible | src/scraper.py:102-137 | removing such an item from anywhere in the list changes neither the records, nor the script used, nor the events |
| Scraping.ItemWithoutDetails | src/scraper.py:114-135 | a complete item whose detail requests all fail transiently is kept, with its link, "Нет описания", "Нет инструкции" and "Не указана" |
| Scraping.ItemWithDetails | src/scraper.py:114-137 | a complete item whose `k`-th detail request succeeds carries the details read from that body, or is dropped when reading them raises KeyError; `k` requests are made |
| Scraping.ItemsEscapes | src/scraper.py:102-137 | no KeyError or IndexError leaves the item loop |
| Scraping.PagesEscapes | src/scraper.py:89-139 | only TypeError, AttributeError or a network error can leave `parse_products` |
| Scraping.FallbacksCollapsed | src/scraper.py:125-133 | the three detail fallbacks have the shape `clean_text` produces |
| Scraping.ItemsClean | src/scraper.py:102-137 | every record of the item loop has collapsed description, usage instructions and country |
| Scraping.PagesClean | src/scraper.py:89-139 | every record returned by `parse_products` has collapsed description, usage instructions and country |
| Scraping.ItemsOrder | src/scraper.py:102-137 | the links of a page's records are a subsequence of its items' links, in item order |
| Scraping.ItemsCount | src/scraper.py:102-137 | a page's loop gives at most one record per item |
| Scraping.ItemStepRequestsDetails | src/scraper.py:114 | handling an item never requests a page |
| Scraping.PagesWalk | src/scraper.py:91-138 | the pages requested start at the first page; each request is for the same page as the previous one or the next page |
| Scraping.PageStops | src/scraper.py:94-100 | the loop stops with no new record when the page fetch gives `None`, the data is falsy, or the product list is falsy |
| Scraping.PagesKeep | src/scraper.py:91-138 | a page that lets the loop go on puts its records, unchanged, in front of those of later pages; the loop succeeds exactly when the rest of it does |
| Scraping.NetworkDown | src/scraper.py:89-100 | with a network that only times out, `parse_products` requests page 1 `max_retries` times and returns no record |
| Cases.CleanTextExample | tests/test_scraper.py:15-19 | `<p>Пример текста<br>с тегами</p>\nи переносами` cleans to `Пример текста с тегами и переносами` |
| Cases.CleanTextTwice | tests/test_scraper.py:15-19 | cleaning the test's input twice gives the same text as cleaning it once |
| Cases.ExtractCountryExamples | src/scraper.py:83-87 | four blocks give the fourth's subtitle; three give "Не указана" |
| Cases.RetryTwiceThenSuccess | src/scraper.py:32-43 | two timeouts, then a body: three requests, sleeps 1 and 2 |
| Cases.FetchDataExample | tests/test_scraper.py:22-31 | the test page is returned after one request and holds `data.products` |
| Cases.DetailTexts | tests/test_scraper.py:50-52 | the three texts of the test card are already clean |
| Cases.DetailsOfExample | tests/test_scraper.py:34-52 | the test card gives "Описание продукта", "Инструкция по применению", "Россия" |
| Cases.FetchProductDetailsExample | tests/test_scraper.py:34-52 | the same result after one request |
| Cases.FetchProductDetailsAfterTimeout | src/scraper.py:47-72 | one timeout first: one sleep with multiplier 1, then the same details |
| Cases.FetchProductDetailsGivesUp | src/scraper.py:47-72 | only timeouts: three requests, sleeps 1 and 2, `None` |
| Cases.UnreadFieldIgnored | src/scraper.py:53-67 | a one-block card gives its cleaned content, "Нет информации" and "Не указана" whatever its unread `subtitle` holds, `null` included |
| Cases.EmptyDescriptions | src/scraper.py:53-67 | an empty `productDescription` dict or string gives the three fallbacks |
| Cases.DetailsKeyError | src/scraper.py:56 | a `productDescription` dict makes `descriptions[0]` raise KeyError |
| Cases.ItemFieldsExample | tests/test_scraper.py:58-76 | the test item's fields, in the source's reading order |
| Cases.ParseProductsExample | tests/test_scraper.py:54-95 | one page with one item, then a page that never answers: exactly one record, with name "Товар 1", prices 1000 and 800, rating 4.5, 10 reviews and the three detail texts |
| Cases.ParseProductsRaises | src/scraper.py:97 | `{"products": [], "data": null}` makes `parse_products` raise AttributeError |

## Left out

- `get_headers`, `random.choice`, `random.uniform` and `time.sleep`: randomness and the clock are not modelled. A sleep is recorded as the attempt number that scales it. `Retry.Backoff` takes the random draw as a parameter.
- `requests.get`, `raise_for_status` and `response.json()`: the network is the script of outcomes described above. URLs, headers and the `timeout` setting are not rendered; a request is identified by its page number or item id. Exceptions other than HTTPError and Timeout are one kind, `RequestError`. An undecodable body is one of them.
- `f"{self.base_url}{item['url']}"`: the link keeps the decoded URL value next to the base URL rather than the string `str()` would render.
- JSON numbers are reals; Python's int/float distinction is not kept.
- Iterating a truthy product list that is no list: the model raises TypeError at once. In Python, a dict or a string yields strings on which `item['url']` raises TypeError, and other values are not iterable, so the outcome is the same.
- `str.isspace` is the fixed set of Unicode whitespace code points. In `<.*?>`, `.` excludes only `\n`, as in Python's default mode.
- Inside `fetch_product_details` the three fields are read after the retry loop has returned the body. This is the same behaviour: no error raised while reading them is an HTTPError or a Timeout, so none is retried.
- `save_to_csv` and the `__main__` block: file and console I/O.
- The code has no item cap. `tests/test_scraper.py:85` calls `parse_products(max_items=1)`, but `parse_products` takes no such argument, so that call raises TypeError in Python. The model follows the code's signature.
- The code reads no `imageUrls`, so the model has none.
- `clean_text` is not idempotent in general (`Text.CleanNotIdempotent`): a line break inside a would-be tag keeps its `<` and `>` until the first pass turns the break into a space. Idempotence is proved whenever no line break cuts a tag (`Text.CleanIdempotent`), which covers the unit test's input (`Cases.CleanTextTwice`).
- `parse_products` can raise: see `Scraping.PagesEscapes` and `Cases.ParseProductsRaises`. A KeyError while reading the details drops the item rather than giving it fallbacks (`Scraping.ItemWithDetails`).
