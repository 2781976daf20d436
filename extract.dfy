/** The pure part of `fetch_product_details`: `clean_text` applied to a
    decoded value, `extract_text`, `extract_country`, and the three fields
    read from a product-card payload. */
module Extract {
  import opened Json
  import Text

  /** The fallback of `extract_text`. */
  const NoInfo: string := "Нет информации"
  /** The fallback of `extract_country` (and of the country of a record
      without details). */
  const NotSpecified: string := "Не указана"

  /** `clean_text(text)`: `re.sub` only accepts a string, and what it returns
      for one has the collapsed shape. */
  function CleanText(text: Json): (r: Py<string>)
    ensures r.Ok? <==> text.JStr?
    ensures r.Raise? ==> r.exc == TypeError
    ensures r.Ok? ==> Text.Collapsed(r.value)
    ensures text.JStr? && '<' !in text.s ==> r.value == Text.Collapse(text.s)
  {
    match text
    case JStr(s) =>
      Text.CleanCollapsed(s);
      if '<' in s then Ok(Text.Clean(s))
      else Text.CleanWithoutTags(s); Ok(Text.Clean(s))
    case _ => Raise(TypeError)
  }

  /** `ds[index].get(key, fallback)` guarded by `len(ds) > index`: the
      shape shared by `extract_text` and `extract_country`. */
  function Positional(ds: Json, index: nat, key: string, fallback: string): (r: Py<Json>)
    // a list: the entry's value under `key`, or the fallback when the list
    // is too short or the entry lacks the key; an entry that is no dict has
    // no `get`
    ensures ds.JArr? && index < |ds.items| && ds.items[index].JObj? && key in ds.items[index].fields
            ==> r == Ok(ds.items[index].fields[key])
    ensures ds.JArr? && index < |ds.items| && ds.items[index].JObj? && key !in ds.items[index].fields
            ==> r == Ok(JStr(fallback))
    ensures ds.JArr? && index < |ds.items| && !ds.items[index].JObj? ==> r == Raise(AttributeError)
    ensures ds.JArr? && index >= |ds.items| ==> r == Ok(JStr(fallback))
    // a dict has string keys only, so an integer index is a missing key; a
    // string yields a one-character string, which has no `get`
    ensures ds.JObj? ==> r == if index < |ds.fields| then Raise(KeyError) else Ok(JStr(fallback))
    ensures ds.JStr? ==> r == if index < |ds.s| then Raise(AttributeError) else Ok(JStr(fallback))
    // None, numbers and booleans have no `len`
    ensures !(ds.JArr? || ds.JObj? || ds.JStr?) ==> r == Raise(TypeError)
  {
    var n :- Length(ds);
    if n > index then
      var d :- Item(ds, index);
      Get(d, key, JStr(fallback))
    else
      Ok(JStr(fallback))
  }

  /** `extract_text(descriptions, index)`. */
  function ExtractText(descriptions: Json, index: nat): (r: Py<Json>)
    ensures descriptions.JArr? && index < |descriptions.items| && descriptions.items[index].JObj?
            && "content" in descriptions.items[index].fields
            ==> r == Ok(descriptions.items[index].fields["content"])
    ensures descriptions.JArr? && (index >= |descriptions.items| ||
              (descriptions.items[index].JObj? && "content" !in descriptions.items[index].fields))
            ==> r == Ok(JStr(NoInfo))
    ensures r.Ok? && r.value != JStr(NoInfo) ==>
              descriptions.JArr? && index < |descriptions.items| && descriptions.items[index].JObj?
              && "content" in descriptions.items[index].fields
  {
    Positional(descriptions, index, "content", NoInfo)
  }

  /** `extract_country(product_data)`: the subtitle of the fourth block. */
  function ExtractCountry(productData: Json): (r: Py<Json>)
    ensures !productData.JObj? ==> r == Raise(AttributeError)
    ensures productData.JObj? && "productDescription" !in productData.fields ==> r == Ok(JStr(NotSpecified))
    ensures productData.JObj? && "productDescription" in productData.fields
            && productData.fields["productDescription"].JArr? ==>
              var blocks := productData.fields["productDescription"].items;
              && (|blocks| <= 3 ==> r == Ok(JStr(NotSpecified)))
              && (|blocks| > 3 && blocks[3].JObj? && "subtitle" in blocks[3].fields ==> r == Ok(blocks[3].fields["subtitle"]))
              && (|blocks| > 3 && blocks[3].JObj? && "subtitle" !in blocks[3].fields ==> r == Ok(JStr(NotSpecified)))
    ensures r.Ok? && r.value != JStr(NotSpecified) ==>
              && productData.JObj? && "productDescription" in productData.fields
              && productData.fields["productDescription"].JArr?
              && |productData.fields["productDescription"].items| > 3
              && productData.fields["productDescription"].items[3].JObj?
              && "subtitle" in productData.fields["productDescription"].items[3].fields
  {
    var ds :- Get(productData, "productDescription", JArr([]));
    Positional(ds, 3, "subtitle", NotSpecified)
  }

  /** The dict `fetch_product_details` returns on success. */
  datatype Details = Details(description: string, usageInstructions: string, country: string)

  /** The body of the `try` in `fetch_product_details` after the response
      was decoded to `payload`, in the source's order of evaluation. */
  function DetailsOf(payload: Json): (r: Py<Details>)
    ensures r.Ok? ==> Text.Collapsed(r.value.description) && Text.Collapsed(r.value.usageInstructions)
                      && Text.Collapsed(r.value.country)
    ensures !payload.JObj? ==> r == Raise(AttributeError)
    // every index is checked against the length first
    ensures r.Raise? ==> r.exc in {KeyError, TypeError, AttributeError}
  {
    var productData :- Get(payload, "data", JObj(map[]));
    var ds0 :- Get(productData, "productDescription", JArr([]));
    var text0 :- ExtractText(ds0, 0);
    var description :- CleanText(text0);
    // the second `product_data.get("productDescription", [])` repeats the
    // first lookup on the same dict and yields the same list
    var text1 :- ExtractText(ds0, 1);
    var usage :- CleanText(text1);
    var country :- ExtractCountry(productData);
    var cleanCountry :- CleanText(country);
    Ok(Details(description, usage, cleanCountry))
  }

  /** A dict field that is a string when present. */
  predicate StrField(b: Json, key: string)
    requires b.JObj?
  {
    key in b.fields ==> b.fields[key].JStr?
  }

  /** Block `i`, when there is one, is a dict whose `key` is a string when
      present. */
  predicate TextBlock(blocks: seq<Json>, i: nat, key: string) {
    i < |blocks| ==> blocks[i].JObj? && StrField(blocks[i], key)
  }

  /** `payload["data"]["productDescription"]`, with the defaults the source
      uses for missing keys. */
  function Blocks(payload: Json): Json
    requires payload.JObj?
  {
    var pd := if "data" in payload.fields then payload.fields["data"] else JObj(map[]);
    if pd.JObj? && "productDescription" in pd.fields then pd.fields["productDescription"] else JArr([])
  }

  /** What `len(ds) > i` lets through without raising for every index the
      code reads: a list, or a dict or string of length 0 (a non-empty one
      raises on `ds[0]`). */
  predicate BlockShaped(ds: Json) {
    ds.JArr? || ds == JObj(map[]) || ds == JStr("")
  }

  /** The blocks of a `BlockShaped` value: the empty dict and string have
      none. */
  function BlockItems(ds: Json): seq<Json> {
    if ds.JArr? then ds.items else []
  }

  /** A payload on which every read succeeds: dicts where `.get` is called,
      blocks as `BlockShaped` allows, and strings where text is read (the
      `content` of blocks 0 and 1 and the `subtitle` of block 3; other blocks
      are never looked at). */
  predicate WellShaped(payload: Json) {
    && payload.JObj?
    && ("data" in payload.fields ==> payload.fields["data"].JObj?)
    && BlockShaped(Blocks(payload))
    && TextBlock(BlockItems(Blocks(payload)), 0, "content")
    && TextBlock(BlockItems(Blocks(payload)), 1, "content")
    && TextBlock(BlockItems(Blocks(payload)), 3, "subtitle")
  }

  /** The text at block `i` under `key`, or `fallback`. */
  function TextAt(blocks: seq<Json>, i: nat, key: string, fallback: string): string
    requires TextBlock(blocks, i, key)
  {
    if i < |blocks| && key in blocks[i].fields then blocks[i].fields[key].s else fallback
  }

  /** On a well-shaped payload the details are the cleaned texts of blocks
      0 and 1 and the cleaned subtitle of block 3, each with its fallback. */
  lemma DetailsOfWellShaped(payload: Json)
    requires WellShaped(payload)
    ensures var blocks := BlockItems(Blocks(payload));
      DetailsOf(payload) == Ok(Details(
        Text.Clean(TextAt(blocks, 0, "content", NoInfo)),
        Text.Clean(TextAt(blocks, 1, "content", NoInfo)),
        Text.Clean(TextAt(blocks, 3, "subtitle", NotSpecified))))
  {
    var pd := if "data" in payload.fields then payload.fields["data"] else JObj(map[]);
    var ds := Blocks(payload);
    assert Get(payload, "data", JObj(map[])) == Ok(pd);
    assert Get(pd, "productDescription", JArr([])) == Ok(ds);
    var blocks := BlockItems(ds);
    var t0, t1, t3 := TextAt(blocks, 0, "content", NoInfo), TextAt(blocks, 1, "content", NoInfo),
      TextAt(blocks, 3, "subtitle", NotSpecified);
    PositionalText(ds, 0, "content", NoInfo);
    PositionalText(ds, 1, "content", NoInfo);
    PositionalText(ds, 3, "subtitle", NotSpecified);
    assert ExtractText(ds, 0) == Ok(JStr(t0));
    assert ExtractText(ds, 1) == Ok(JStr(t1));
    assert ExtractCountry(pd) == Ok(JStr(t3));
    assert CleanText(JStr(t0)) == Ok(Text.Clean(t0));
    assert CleanText(JStr(t1)) == Ok(Text.Clean(t1));
    assert CleanText(JStr(t3)) == Ok(Text.Clean(t3));
  }

  lemma PositionalText(ds: Json, i: nat, key: string, fallback: string)
    requires BlockShaped(ds) && TextBlock(BlockItems(ds), i, key)
    ensures Positional(ds, i, key, fallback) == Ok(JStr(TextAt(BlockItems(ds), i, key, fallback)))
  {
  }

  /** The converse: a payload whose details can be read is well-shaped, so
      with `DetailsOfWellShaped` every successful read has the closed form. */
  lemma DetailsOfOk(payload: Json)
    requires DetailsOf(payload).Ok?
    ensures WellShaped(payload)
  {
    var pd := Get(payload, "data", JObj(map[]));
    assert pd.Ok?;
    var ds := Get(pd.value, "productDescription", JArr([]));
    assert ds.Ok? && ds.value == Blocks(payload);
    var t0 := ExtractText(ds.value, 0);
    assert t0.Ok? && CleanText(t0.value).Ok?;
    var t1 := ExtractText(ds.value, 1);
    assert t1.Ok? && CleanText(t1.value).Ok?;
    var c := ExtractCountry(pd.value);
    assert c.Ok? && CleanText(c.value).Ok?;
  }
}
