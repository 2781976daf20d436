/** `clean_text`: `re.sub(r"<.*?>", " ", text)` followed by
    `" ".join(text.split())`. */
module Text {
  import opened Json

  /** Python's `str.isspace` on one code point: the characters `str.split()`
      with no argument splits on. */
  predicate IsSpace(c: char) {
    || c == ' '
    || '\t' <= c <= '\r'
    || '\U{1C}' <= c <= '\U{1F}'
    || c == '\U{85}' || c == '\U{A0}' || c == '\U{1680}'
    || '\U{2000}' <= c <= '\U{200A}'
    || c == '\U{2028}' || c == '\U{2029}' || c == '\U{202F}' || c == '\U{205F}'
    || c == '\U{3000}'
  }

  predicate NoSpace(s: string) {
    forall i {:trigger IsSpace(s[i])} :: 0 <= i < |s| ==> !IsSpace(s[i])
  }

  /** The shape `" ".join(text.split())` promises: the only whitespace is a
      single ' ' between two non-whitespace characters, so there is none at
      either end and never two in a row. */
  ghost predicate Collapsed(t: string) {
    && (forall i :: 0 <= i < |t| && IsSpace(t[i]) ==> t[i] == ' ' && 0 < i < |t| - 1)
    && (forall i, j :: 0 <= i < j < |t| && j == i + 1 ==> !IsSpace(t[i]) || !IsSpace(t[j]))
  }

  /** No '<' is followed, anywhere later, by a '>'. */
  ghost predicate NoTag(t: string) {
    forall i, j :: 0 <= i < j < |t| && t[i] == '<' ==> t[j] != '>'
  }

  /** The non-whitespace characters of `s`, in order. */
  function Letters(s: string): (r: string)
    ensures NoSpace(r) && |r| <= |s|
  {
    if s == [] then []
    else if IsSpace(s[0]) then Letters(s[1..])
    else [s[0]] + Letters(s[1..])
  }

  function Concat(ws: seq<string>): string {
    if ws == [] then [] else ws[0] + Concat(ws[1..])
  }

  /** `s` without its leading whitespace run. */
  function SkipSpace(s: string): (r: string)
    ensures |r| <= |s| && r == s[|s| - |r|..]
    ensures r == [] || !IsSpace(r[0])
    ensures forall i :: 0 <= i < |s| - |r| ==> IsSpace(s[i])
  {
    if s != [] && IsSpace(s[0]) then SkipSpace(s[1..]) else s
  }

  /** The longest prefix of `s` without whitespace. */
  function Word(s: string): (w: string)
    ensures |w| <= |s| && w == s[..|w|]
    ensures NoSpace(w)
    ensures |w| == |s| || IsSpace(s[|w|])
  {
    if s == [] || IsSpace(s[0]) then [] else [s[0]] + Word(s[1..])
  }

  /** `s.split()`: the maximal runs of non-whitespace characters, in order. */
  function Split(s: string): (ws: seq<string>)
    decreases |s|
  {
    var t := SkipSpace(s);
    if t == [] then []
    else
      var w := Word(t);
      [w] + Split(t[|w|..])
  }

  /** `" ".join(ws)`. */
  function Join(ws: seq<string>): string {
    if ws == [] then []
    else if |ws| == 1 then ws[0]
    else ws[0] + " " + Join(ws[1..])
  }

  function Collapse(s: string): string {
    Join(Split(s))
  }

  /** Where the lazy match `<.*?>` that starts with a '<' just before index
      `k` ends: at the first '>' from `k` on, provided no '\n' (the one
      character '.' does not match) comes first. */
  function TagEnd(s: string, k: nat): (r: Option<nat>)
    ensures r.Some? ==> k <= r.value < |s| && s[r.value] == '>'
    decreases |s| - k
  {
    if k >= |s| then None
    else if s[k] == '>' then Some(k)
    else if s[k] == '\n' then None
    else TagEnd(s, k + 1)
  }

  /** The match ends at the first '>' with no line break before it, and there
      is no match exactly when every '>' has a line break before it. */
  lemma {:induction false} TagEndFirst(s: string, k: nat)
    ensures var r := TagEnd(s, k);
      && (r.Some? ==> '>' !in s[k..r.value] && '\n' !in s[k..r.value])
      && (r.None? ==> forall i :: k <= i < |s| && s[i] == '>' ==> '\n' in s[k..i])
    decreases |s| - k
  {
    if k < |s| && s[k] != '>' && s[k] != '\n' {
      TagEndFirst(s, k + 1);
      var r := TagEnd(s, k);
      if r.Some? {
        assert s[k..r.value] == [s[k]] + s[k + 1..r.value];
      } else {
        forall i | k < i < |s| && s[i] == '>'
          ensures '\n' in s[k..i]
        {
          assert s[k..i] == [s[k]] + s[k + 1..i];
        }
      }
    } else if k < |s| && s[k] == '\n' {
      forall i | k < i < |s| && s[i] == '>'
        ensures '\n' in s[k..i]
      {
        assert s[k..i][0] == '\n';
      }
    }
  }

  /** `re.sub(r"<.*?>", " ", s)`: scanning left to right, every match is
      replaced by one space; where no match starts, the character is kept. */
  function StripTags(s: string): string
    decreases |s|
  {
    if s == [] then []
    else if s[0] == '<' then
      match TagEnd(s, 1)
      case Some(j) => " " + StripTags(s[j + 1..])
      case None => [s[0]] + StripTags(s[1..])
    else [s[0]] + StripTags(s[1..])
  }

  /** `clean_text` on a string. */
  function Clean(s: string): string {
    Collapse(StripTags(s))
  }

  // ---------------------------------------------------------------------------
  // Whitespace collapsing

  /** Joining non-empty whitespace-free words with single spaces gives a
      collapsed string. */
  lemma {:induction false} JoinCollapsed(ws: seq<string>)
    requires forall k :: 0 <= k < |ws| ==> ws[k] != [] && NoSpace(ws[k])
    ensures Collapsed(Join(ws))
    ensures ws != [] ==> Join(ws) != []
  {
    if |ws| > 1 {
      var w, rest := ws[0], ws[1..];
      JoinCollapsed(rest);
      var j := Join(rest);
      var t := w + " " + j;
      assert Join(ws) == t;
      assert forall i :: 0 <= i < |w| ==> t[i] == w[i];
      forall i | |w| <= i < |t| && IsSpace(t[i])
        ensures t[i] == ' ' && 0 < i < |t| - 1 && !IsSpace(t[i + 1])
      {
        if i > |w| {
          assert t[i] == j[i - |w| - 1];
          if i + 1 < |t| {
            assert t[i + 1] == j[i - |w|];
          }
        } else {
          assert t[i + 1] == j[0];
        }
      }
    }
  }

  /** `split()` yields non-empty words without whitespace. */
  lemma {:induction false} SplitWords(s: string)
    ensures forall w :: w in Split(s) ==> w != [] && NoSpace(w)
    decreases |s|
  {
    var t := SkipSpace(s);
    if t != [] {
      var w := Word(t);
      assert w != [] && NoSpace(w);
      var rest := Split(t[|w|..]);
      assert Split(s) == [w] + rest;
      SplitWords(t[|w|..]);
      forall x | x in Split(s)
        ensures x != [] && NoSpace(x)
      {
        if x != w {
          assert x in rest;
        }
      }
    }
  }

  /** The output of `" ".join(s.split())` is collapsed. */
  lemma CollapseCollapsed(s: string)
    ensures Collapsed(Collapse(s))
  {
    SplitWords(s);
    var ws := Split(s);
    assert forall k :: 0 <= k < |ws| ==> ws[k] in ws;
    JoinCollapsed(ws);
  }

  /** A collapsed string that is not empty is one word, possibly followed by
      a single space and a shorter collapsed string. */
  lemma CollapsedUnfold(t: string)
    requires Collapsed(t) && t != []
    ensures SkipSpace(t) == t
    ensures var w := Word(t);
      w != [] &&
      (|w| == |t| || (|w| + 1 < |t| && t[|w|] == ' ' &&
                      !IsSpace(t[|w| + 1]) && Collapsed(t[|w| + 1..])))
  {
    assert !IsSpace(t[0]);
    var w := Word(t);
    if |w| < |t| {
      assert IsSpace(t[|w|]);
      var t' := t[|w| + 1..];
      forall i | 0 <= i < |t'| && IsSpace(t'[i])
        ensures t'[i] == ' ' && 0 < i < |t'| - 1 && !IsSpace(t'[i + 1])
      {
        assert t'[i] == t[i + |w| + 1];
      }
    }
  }

  /** `split()` skips a leading space. */
  lemma SplitAfterSpace(t: string)
    requires t != [] && !IsSpace(t[0])
    ensures Split(" " + t) == Split(t)
  {
    assert SkipSpace(t) == t;
    assert (" " + t)[1..] == t;
    assert SkipSpace(" " + t) == t;
  }

  lemma SplitWord(t: string)
    requires t != [] && !IsSpace(t[0])
    ensures Split(t) == [Word(t)] + Split(t[|Word(t)|..])
  {
    assert SkipSpace(t) == t;
  }

  lemma JoinCons(w: string, ws: seq<string>)
    requires ws != []
    ensures Join([w] + ws) == w + " " + Join(ws)
  {
    assert ([w] + ws)[1..] == ws;
  }

  /** After a word and a single space, `split()` goes on with the rest. */
  lemma SplitStep(t: string)
    requires t != [] && !IsSpace(t[0])
    requires var w := Word(t); |w| + 1 < |t| && t[|w|] == ' ' && !IsSpace(t[|w| + 1])
    ensures var w := Word(t); Split(t) == [w] + Split(t[|w| + 1..])
  {
    var w := Word(t);
    var t' := t[|w| + 1..];
    var r := t[|w|..];
    SplitWord(t);
    assert r[0] == ' ' && r[1..] == t';
    assert SkipSpace(t') == t';
    assert SkipSpace(r) == t';
  }

  /** One word, a space and a fixed point of collapsing is a fixed point too. */
  lemma CollapseStep(t: string)
    requires t != [] && !IsSpace(t[0])
    requires var w := Word(t);
      |w| + 1 < |t| && t[|w|] == ' ' && !IsSpace(t[|w| + 1]) &&
      Collapse(t[|w| + 1..]) == t[|w| + 1..]
    ensures Collapse(t) == t
  {
    var w := Word(t);
    var t' := t[|w| + 1..];
    SplitStep(t);
    SplitWord(t');
    var ws := Split(t');
    JoinCons(w, ws);
    AroundSpace(t, |w|);
  }

  lemma AroundSpace(t: string, k: nat)
    requires k < |t| && t[k] == ' '
    ensures t == t[..k] + " " + t[k + 1..]
  {
    assert t[k..] == [t[k]] + t[k + 1..];
    assert t == t[..k] + t[k..];
  }

  /** A collapsed string is left as it is by `" ".join(t.split())`. */
  lemma {:induction false} CollapseFixed(t: string)
    requires Collapsed(t)
    ensures Collapse(t) == t
    decreases |t|
  {
    if t != [] {
      CollapsedUnfold(t);
      var w := Word(t);
      if |w| < |t| {
        CollapseFixed(t[|w| + 1..]);
        CollapseStep(t);
      } else {
        SplitWord(t);
        assert t[|w|..] == [];
        assert w == t;
      }
    }
  }

  lemma {:induction false} LettersAppend(a: string, b: string)
    ensures Letters(a + b) == Letters(a) + Letters(b)
  {
    if a != [] {
      assert (a + b)[0] == a[0];
      assert (a + b)[1..] == a[1..] + b;
      LettersAppend(a[1..], b);
      if IsSpace(a[0]) {
        assert Letters(a + b) == Letters(a[1..] + b);
        assert Letters(a) == Letters(a[1..]);
      } else {
        calc {
          Letters(a + b);
          [a[0]] + Letters(a[1..] + b);
          [a[0]] + (Letters(a[1..]) + Letters(b));
          ([a[0]] + Letters(a[1..])) + Letters(b);
          Letters(a) + Letters(b);
        }
      }
    } else {
      assert a + b == b;
    }
  }

  lemma {:induction false} LettersOfWord(w: string)
    requires NoSpace(w)
    ensures Letters(w) == w
  {
    if w != [] {
      LettersOfWord(w[1..]);
    }
  }

  lemma {:induction false} LettersSkipSpace(s: string)
    ensures Letters(SkipSpace(s)) == Letters(s)
  {
    if s != [] && IsSpace(s[0]) {
      LettersSkipSpace(s[1..]);
    }
  }

  /** `s.split()` keeps exactly the non-whitespace characters of `s`. */
  lemma {:induction false} ConcatSplit(s: string)
    ensures Concat(Split(s)) == Letters(s)
    decreases |s|
  {
    var t := SkipSpace(s);
    SplitLetters(s);
    if t != [] {
      var w := Word(t);
      var r := t[|w|..];
      ConcatSplit(r);
      ConcatCons(w, Split(r));
    }
  }

  /** One step of `split()` and of `Letters` on the same text. */
  lemma SplitLetters(s: string)
    ensures var t := SkipSpace(s);
      && (t == [] ==> Split(s) == [] && Letters(s) == [])
      && (t != [] ==>
            var w := Word(t);
            Split(s) == [w] + Split(t[|w|..]) && Letters(s) == w + Letters(t[|w|..]))
  {
    var t := SkipSpace(s);
    LettersSkipSpace(s);
    if t != [] {
      var w := Word(t);
      var r := t[|w|..];
      assert t == w + r;
      LettersAppend(w, r);
      LettersOfWord(w);
    }
  }

  lemma ConcatCons(w: string, ws: seq<string>)
    ensures Concat([w] + ws) == w + Concat(ws)
  {
    assert ([w] + ws)[1..] == ws;
  }

  lemma {:induction false} LettersJoin(ws: seq<string>)
    requires forall k :: 0 <= k < |ws| ==> NoSpace(ws[k])
    ensures Letters(Join(ws)) == Concat(ws)
  {
    if |ws| == 1 {
      LettersOfWord(ws[0]);
      assert Concat(ws) == ws[0] + Concat([]);
    } else if |ws| > 1 {
      LettersJoin(ws[1..]);
      LettersAppend(ws[0] + " ", Join(ws[1..]));
      LettersAppend(ws[0], " ");
      LettersOfWord(ws[0]);
      assert Letters(" ") == Letters([]) == [];
    }
  }

  /** Collapsing whitespace keeps every other character, in order. */
  lemma LettersCollapse(s: string)
    ensures Letters(Collapse(s)) == Letters(s)
  {
    SplitWords(s);
    LettersJoin(Split(s));
    ConcatSplit(s);
  }

  lemma {:induction false} InLetters(s: string, c: char)
    requires !IsSpace(c)
    ensures c in Letters(s) <==> c in s
  {
    if s != [] {
      InLetters(s[1..], c);
      assert s == [s[0]] + s[1..];
    }
  }

  /** Every character of a collapsed string is a ' ' or comes from the input. */
  lemma CollapseChars(s: string, c: char)
    requires c in Collapse(s)
    ensures c == ' ' || c in s
  {
    CollapseCollapsed(s);
    if !IsSpace(c) {
      LettersCollapse(s);
      InLetters(Collapse(s), c);
      InLetters(s, c);
    }
  }

  // ---------------------------------------------------------------------------
  // Tag stripping

  lemma NoTagCons(c: char, u: string)
    ensures NoTag([c] + u) <==> (c == '<' ==> '>' !in u) && NoTag(u)
  {
    var t := [c] + u;
    assert forall i :: 0 <= i < |u| ==> t[i + 1] == u[i];
    if (c == '<' ==> '>' !in u) && NoTag(u) {
      forall i, j | 0 <= i < j < |t| && t[i] == '<'
        ensures t[j] != '>'
      {
        if i > 0 {
          assert u[i - 1] == '<';
        } else {
          assert t[j] == u[j - 1];
        }
      }
    }
    if NoTag(t) {
      forall i, j | 0 <= i < j < |u| && u[i] == '<'
        ensures u[j] != '>'
      {
        assert t[i + 1] == '<';
      }
      if c == '<' {
        forall j | 0 <= j < |u| ensures u[j] != '>' {
          assert t[0] == '<';
        }
      }
    }
  }

  /** Whether a '>' follows a '<' depends only on the non-whitespace characters. */
  lemma {:induction false} NoTagLetters(t: string)
    ensures NoTag(Letters(t)) <==> NoTag(t)
  {
    if t != [] {
      NoTagLetters(t[1..]);
      assert t == [t[0]] + t[1..];
      NoTagCons(t[0], t[1..]);
      if !IsSpace(t[0]) {
        NoTagCons(t[0], Letters(t[1..]));
        InLetters(t[1..], '>');
      }
    }
  }

  lemma CollapseNoTag(s: string)
    requires NoTag(s)
    ensures NoTag(Collapse(s))
  {
    LettersCollapse(s);
    NoTagLetters(s);
    NoTagLetters(Collapse(s));
  }

  /** Every '<' with a '>' somewhere after it opens a match of `<.*?>`:
      no line break cuts such a tag. */
  ghost predicate TagsClose(s: string) {
    forall i :: 0 <= i < |s| && s[i] == '<' && '>' in s[i + 1..] ==> TagEnd(s, i + 1).Some?
  }

  /** Text without line breaks, or without '<', has only closing tags. */
  lemma TagsCloseWhen(s: string)
    requires '\n' !in s || '<' !in s
    ensures TagsClose(s)
  {
    forall i | 0 <= i < |s| && s[i] == '<' && '>' in s[i + 1..]
      ensures TagEnd(s, i + 1).Some?
    {
      TagEndFirst(s, i + 1);
      var j :| i + 1 <= j < |s| && s[j] == '>';
      assert s[i + 1..j] == s[i + 1..][..j - i - 1];
    }
  }

  /** The match search on a suffix is the search on the whole text, shifted. */
  lemma {:induction false} TagEndShift(s: string, d: nat, k: nat)
    requires d <= |s|
    ensures var r := TagEnd(s, d + k);
      TagEnd(s[d..], k) == if r.Some? then Some(r.value - d) else None
    decreases |s| - d - k
  {
    if d + k < |s| && s[d + k] != '>' && s[d + k] != '\n' {
      TagEndShift(s, d, k + 1);
    }
  }

  lemma TagsCloseSuffix(s: string, d: nat)
    requires TagsClose(s) && d <= |s|
    ensures TagsClose(s[d..])
  {
    var u := s[d..];
    forall i | 0 <= i < |u| && u[i] == '<' && '>' in u[i + 1..]
      ensures TagEnd(u, i + 1).Some?
    {
      assert u[i + 1..] == s[d + i + 1..];
      assert s[d + i] == '<';
      TagEndShift(s, d, i + 1);
    }
  }

  /** When tags close, no `<…>` span survives tag removal. */
  lemma {:induction false} StripNoTag(s: string)
    requires TagsClose(s)
    ensures NoTag(StripTags(s))
    decreases |s|
  {
    if s != [] {
      if s[0] == '<' && TagEnd(s, 1).Some? {
        var j := TagEnd(s, 1).value;
        TagsCloseSuffix(s, j + 1);
        StripNoTag(s[j + 1..]);
        NoTagCons(' ', StripTags(s[j + 1..]));
      } else {
        TagsCloseSuffix(s, 1);
        StripNoTag(s[1..]);
        NoTagCons(s[0], StripTags(s[1..]));
        if s[0] == '<' {
          assert '>' !in s[1..];
          StripChars(s[1..]);
        }
      }
    }
  }

  /** Tag removal leaves a string alone when no '<' has a '>' after it and
      there is no line break. */
  lemma {:induction false} StripFixed(t: string)
    requires NoTag(t) && '\n' !in t
    ensures StripTags(t) == t
  {
    if t != [] {
      assert t == [t[0]] + t[1..];
      NoTagCons(t[0], t[1..]);
      StripFixed(t[1..]);
      if t[0] == '<' {
        TagEndFirst(t, 1);
        assert TagEnd(t, 1).None?;
      }
    }
  }

  /** Tag removal only ever adds ' '. */
  lemma {:induction false} StripChars(s: string)
    ensures forall c :: c in StripTags(s) ==> c == ' ' || c in s
    decreases |s|
  {
    if s != [] {
      if s[0] == '<' && TagEnd(s, 1).Some? {
        var j := TagEnd(s, 1).value;
        StripChars(s[j + 1..]);
        assert forall c :: c in s[j + 1..] ==> c in s;
      } else {
        StripChars(s[1..]);
        assert forall c :: c in s[1..] ==> c in s;
      }
    }
  }

  /** Text without '<' is left as it is. */
  lemma {:induction false} StripPlain(s: string)
    requires '<' !in s
    ensures StripTags(s) == s
    decreases |s|
  {
    if s != [] {
      StripPlain(s[1..]);
      assert s == [s[0]] + s[1..];
    }
  }

  // ---------------------------------------------------------------------------
  // clean_text

  /** The cleaned text has no leading or trailing whitespace, never two
      whitespace characters in a row, and only ' ' as whitespace. */
  lemma CleanCollapsed(s: string)
    ensures Collapsed(Clean(s))
  {
    CollapseCollapsed(StripTags(s));
  }

  /** Text without '<' is only whitespace-collapsed. */
  lemma CleanWithoutTags(s: string)
    requires '<' !in s
    ensures Clean(s) == Collapse(s)
  {
    StripPlain(s);
  }

  /** Cleaning twice is cleaning once when no line break cuts a tag; see
      `TagsCloseWhen` for two plain sufficient conditions. */
  lemma CleanIdempotent(s: string)
    requires TagsClose(s)
    ensures Clean(Clean(s)) == Clean(s)
  {
    var t := StripTags(s);
    var c := Collapse(t);
    CollapseCollapsed(t);
    assert IsSpace('\n');
    assert '\n' !in c;
    StripNoTag(s);
    CollapseNoTag(t);
    StripFixed(c);
    CollapseFixed(c);
  }

  // ---------------------------------------------------------------------------
  // Evaluation steps for concrete strings

  /** Only whitespace. */
  predicate Blank(sp: string) {
    forall i :: 0 <= i < |sp| ==> IsSpace(sp[i])
  }

  /** A complete tag on one line: what one match of `<.*?>` covers. */
  predicate OneLineTag(tag: string) {
    2 <= |tag| && tag[0] == '<' && tag[|tag| - 1] == '>' &&
    '>' !in tag[1..|tag| - 1] && '\n' !in tag[1..|tag| - 1]
  }

  lemma LiteralFacts()
    ensures Blank(" ") && Blank("\n") && NoSpace(">")
    ensures OneLineTag("<p>") && OneLineTag("<br>") && OneLineTag("</p>")
  {
  }

  lemma {:induction false} StripPlainPrefix(a: string, b: string)
    requires '<' !in a
    ensures StripTags(a + b) == a + StripTags(b)
  {
    if a != [] {
      assert (a + b)[0] == a[0] && (a + b)[1..] == a[1..] + b;
      StripPlainPrefix(a[1..], b);
      assert a == [a[0]] + a[1..];
    } else {
      assert a + b == b;
    }
  }

  /** A leading one-line tag becomes one space. */
  lemma StripTagFirst(tag: string, rest: string)
    requires OneLineTag(tag)
    ensures StripTags(tag + rest) == " " + StripTags(rest)
  {
    var s := tag + rest;
    var e := |tag| - 1;
    assert s[0] == '<' && s[e] == '>';
    assert s[1..e] == tag[1..e];
    TagEndFirst(s, 1);
    assert TagEnd(s, 1) == Some(e);
    assert s[e + 1..] == rest;
  }

  lemma {:induction false} WordOf(w: string, x: string)
    requires NoSpace(w)
    requires x == [] || IsSpace(x[0])
    ensures Word(w + x) == w
  {
    if w != [] {
      assert (w + x)[1..] == w[1..] + x;
      WordOf(w[1..], x);
    } else {
      assert w + x == x;
    }
  }

  lemma {:induction false} SkipSpaces(sp: string, x: string)
    requires Blank(sp)
    ensures SkipSpace(sp + x) == SkipSpace(x)
  {
    if sp != [] {
      assert (sp + x)[1..] == sp[1..] + x;
      SkipSpaces(sp[1..], x);
    } else {
      assert sp + x == x;
    }
  }

  /** Leading whitespace does not change `" ".join(s.split())`. */
  lemma CollapseSkip(sp: string, x: string)
    requires Blank(sp)
    ensures Collapse(sp + x) == Collapse(x)
  {
    SkipSpaces(sp, x);
  }

  /** `split()` on a word followed by nothing or by whitespace. */
  lemma SplitChunk(w: string, rest: string)
    requires w != [] && NoSpace(w)
    requires rest == [] || IsSpace(rest[0])
    ensures Split(w + rest) == [w] + Split(rest)
  {
    assert SkipSpace(w + rest) == w + rest;
    WordOf(w, rest);
    assert (w + rest)[|w|..] == rest;
  }

  lemma Assoc(a: string, b: string, c: string)
    ensures a + b + c == a + (b + c)
  {
  }

  lemma CollapseChunk(w: string, rest: string)
    requires w != [] && NoSpace(w)
    requires rest != [] && IsSpace(rest[0]) && Collapse(rest) != []
    ensures Collapse(w + rest) == w + (" " + Collapse(rest))
  {
    SplitChunk(w, rest);
    JoinCons(w, Split(rest));
    Assoc(w, " ", Collapse(rest));
  }

  lemma CollapseWord(w: string)
    requires w != [] && NoSpace(w)
    ensures Collapse(w) == w
  {
    SplitChunk(w, []);
    assert w + [] == w;
    assert Split([]) == [];
    assert Split(w) == [w];
  }

  lemma CollapseBlank(sp: string)
    requires Blank(sp)
    ensures Collapse(sp) == []
  {
    assert sp + [] == sp;
    SkipSpaces(sp, []);
  }

  /** A '<' whose '>' comes only after a line break is no tag: the text is
      kept as it is. */
  lemma BrokenTagStrip(w: string)
    requires '<' !in w && '>' !in w && '\n' !in w
    ensures StripTags("<" + w + "\n" + ">") == "<" + w + "\n" + ">"
  {
    var s := "<" + w + "\n" + ">";
    var e := |s| - 1;
    assert s[1..e] == w + "\n";
    assert s[e] == '>' && '\n' in s[1..e];
    assert forall i :: 1 <= i < e ==> s[i] != '>';
    TagEndFirst(s, 1);
    assert TagEnd(s, 1).None?;
    assert s == [s[0]] + s[1..];
    StripPlain(s[1..]);
  }

  lemma BrokenTagCollapse(w: string)
    requires NoSpace(w) && '<' !in w
    ensures Collapse("<" + w + "\n" + ">") == "<" + w + " " + ">"
  {
    OpenNoSpace(w);
    LiteralFacts();
    WordBlankWord("<" + w, "\n", ">");
  }

  lemma OpenNoSpace(w: string)
    requires NoSpace(w)
    ensures "<" + w != [] && NoSpace("<" + w)
  {
    var x := "<" + w;
    forall i | 0 <= i < |x|
      ensures !IsSpace(x[i])
    {
      if i > 0 {
        assert x[i] == w[i - 1];
      }
    }
  }

  /** Two words around a non-empty run of whitespace collapse to the words
      around one space. */
  lemma WordBlankWord(x: string, sp: string, v: string)
    requires x != [] && NoSpace(x) && sp != [] && Blank(sp) && v != [] && NoSpace(v)
    ensures Collapse(x + sp + v) == x + " " + v
  {
    CollapseSkip(sp, v);
    CollapseWord(v);
    assert (sp + v)[0] == sp[0];
    CollapseChunk(x, sp + v);
    Assoc(x, sp, v);
    Assoc(x, " ", v);
  }

  lemma TagOnlyClean(w: string)
    requires '>' !in w && '\n' !in w
    ensures Clean("<" + w + " " + ">") == ""
  {
    var tag := "<" + w + " " + ">";
    assert tag[1..|tag| - 1] == w + " ";
    assert OneLineTag(tag);
    LiteralFacts();
    StripTagFirst(tag, []);
    assert tag + [] == tag;
    StripPlain([]);
    CollapseBlank(" ");
  }

  lemma BrokenTagText()
    ensures "<" + "a" + "\n" + ">" == "<a\n>"
    ensures "<" + "a" + " " + ">" == "<a >"
  {
  }

  /** Without the hypothesis, cleaning is not idempotent: a tag broken by a
      line break survives the first pass as a one-line tag. */
  lemma CleanNotIdempotent()
    ensures Clean("<a\n>") == "<a >"
    ensures Clean(Clean("<a\n>")) == ""
  {
    BrokenTagText();
    BrokenTagStrip("a");
    BrokenTagCollapse("a");
    TagOnlyClean("a");
  }

  /** The tags of `<p>w1 w2<br>w3 w4</p>\nw5 w6` each become one space. */
  lemma StripThreeTags(w1: string, w2: string, w3: string, w4: string, w5: string, w6: string)
    requires '<' !in w1 && '<' !in w2 && '<' !in w3 && '<' !in w4 && '<' !in w5 && '<' !in w6
    ensures StripTags("<p>" + (w1 + (" " + (w2 + ("<br>" + (w3 + (" " + (w4 + ("</p>" + ("\n" + (w5 + (" " + w6))))))))))))
         == " " + (w1 + (" " + (w2 + (" " + (w3 + (" " + (w4 + (" " + ("\n" + (w5 + (" " + w6)))))))))))
  {
    var r10 := "\n" + (w5 + (" " + w6));
    var o6 := w3 + (" " + (w4 + (" " + r10)));
    StripTail(w3, w4, w5, w6);
    LiteralFacts();
    StripTwoWords(w1, w2, "<br>", w3 + (" " + (w4 + ("</p>" + r10))), o6);
    StripOpeningP(w1 + (" " + (w2 + ("<br>" + (w3 + (" " + (w4 + ("</p>" + r10))))))), w1 + (" " + (w2 + (" " + o6))));
  }

  lemma StripTail(w3: string, w4: string, w5: string, w6: string)
    requires '<' !in w3 && '<' !in w4 && '<' !in w5 && '<' !in w6
    ensures StripTags(w3 + (" " + (w4 + ("</p>" + ("\n" + (w5 + (" " + w6)))))))
         == w3 + (" " + (w4 + (" " + ("\n" + (w5 + (" " + w6))))))
  {
    var r10 := "\n" + (w5 + (" " + w6));
    NoOpenInWords(w5, w6);
    StripPlain(r10);
    LiteralFacts();
    StripTwoWords(w3, w4, "</p>", r10, r10);
  }

  lemma StripOpeningP(rest: string, out: string)
    requires StripTags(rest) == out
    ensures StripTags("<p>" + rest) == " " + out
  {
    LiteralFacts();
    StripTagFirst("<p>", rest);
  }

  lemma NoOpenInWords(w5: string, w6: string)
    requires '<' !in w5 && '<' !in w6
    ensures '<' !in "\n" + (w5 + (" " + w6))
  {
  }

  /** `w1 w2<tag>rest` without '<' in the words: one step of the above. */
  lemma StripTwoWords(w1: string, w2: string, tag: string, rest: string, out: string)
    requires '<' !in w1 && '<' !in w2 && OneLineTag(tag)
    requires StripTags(rest) == out
    ensures StripTags(w1 + (" " + (w2 + (tag + rest)))) == w1 + (" " + (w2 + (" " + out)))
  {
    StripTagFirst(tag, rest);
    assert StripTags(tag + rest) == " " + StripTags(rest);
    StripPlainPrefix(w2, tag + rest);
    assert StripTags(w2 + (tag + rest)) == w2 + (" " + StripTags(rest));
    StripPlainPrefix(" ", w2 + (tag + rest));
    StripPlainPrefix(w1, " " + (w2 + (tag + rest)));
  }

  /** Collapsing what tag removal leaves of the same text. */
  lemma CollapseSix(w1: string, w2: string, w3: string, w4: string, w5: string, w6: string)
    requires w1 != [] && NoSpace(w1) && w2 != [] && NoSpace(w2) && w3 != [] && NoSpace(w3)
    requires w4 != [] && NoSpace(w4) && w5 != [] && NoSpace(w5) && w6 != [] && NoSpace(w6)
    ensures Collapse(" " + (w1 + (" " + (w2 + (" " + (w3 + (" " + (w4 + (" " + ("\n" + (w5 + (" " + w6))))))))))))
         == w1 + (" " + (w2 + (" " + (w3 + (" " + (w4 + (" " + (w5 + (" " + w6)))))))))
  {
    LiteralFacts();
    var t5 := w5 + (" " + w6);
    CollapseWord(w6);
    CollapseWordSpace(w5, " ", w6, w6);
    CollapseSkip("\n", t5);
    var t4 := w4 + (" " + ("\n" + t5));
    CollapseWordSpace(w4, " ", "\n" + t5, t5);
    var c4 := w4 + (" " + t5);
    var t3 := w3 + (" " + t4);
    CollapseWordSpace(w3, " ", t4, c4);
    var c3 := w3 + (" " + c4);
    var t2 := w2 + (" " + t3);
    CollapseWordSpace(w2, " ", t3, c3);
    var c2 := w2 + (" " + c3);
    var t1 := w1 + (" " + t2);
    CollapseWordSpace(w1, " ", t2, c2);
    CollapseSkip(" ", t1);
  }

  /** A word, whitespace, then a text whose collapsed form is `c`. */
  lemma CollapseWordSpace(w: string, sp: string, rest: string, c: string)
    requires w != [] && NoSpace(w) && sp != [] && Blank(sp)
    requires Collapse(rest) == c && c != []
    ensures Collapse(w + (sp + rest)) == w + (" " + c)
  {
    CollapseSkip(sp, rest);
    CollapseChunk(w, sp + rest);
  }

  /** The shape of the test case for `clean_text`
      (`<p>Пример текста<br>с тегами</p>\nи переносами` becomes
      `Пример текста с тегами и переносами`): three tags and a line break
      between six words leave the words separated by single spaces. */
  lemma CleanThreeTags(w1: string, w2: string, w3: string, w4: string, w5: string, w6: string)
    requires w1 != [] && NoSpace(w1) && '<' !in w1 && w2 != [] && NoSpace(w2) && '<' !in w2
    requires w3 != [] && NoSpace(w3) && '<' !in w3 && w4 != [] && NoSpace(w4) && '<' !in w4
    requires w5 != [] && NoSpace(w5) && '<' !in w5 && w6 != [] && NoSpace(w6) && '<' !in w6
    ensures Clean("<p>" + (w1 + (" " + (w2 + ("<br>" + (w3 + (" " + (w4 + ("</p>" + ("\n" + (w5 + (" " + w6))))))))))))
         == w1 + (" " + (w2 + (" " + (w3 + (" " + (w4 + (" " + (w5 + (" " + w6)))))))))
  {
    StripThreeTags(w1, w2, w3, w4, w5, w6);
    CollapseSix(w1, w2, w3, w4, w5, w6);
  }

  lemma CollapseTwoWords(w1: string, w2: string)
    requires w1 != [] && NoSpace(w1) && w2 != [] && NoSpace(w2)
    ensures Collapse(w1 + (" " + w2)) == w1 + (" " + w2)
  {
    CollapseWord(w2);
    LiteralFacts();
    CollapseWordSpace(w1, " ", w2, w2);
  }

  /** Plain words separated by single spaces are already clean. */
  lemma CleanOneWord(w: string)
    requires w != [] && NoSpace(w) && '<' !in w
    ensures Clean(w) == w
  {
    StripPlain(w);
    CollapseWord(w);
  }

  lemma CleanTwoWords(w1: string, w2: string)
    requires w1 != [] && NoSpace(w1) && '<' !in w1
    requires w2 != [] && NoSpace(w2) && '<' !in w2
    ensures Clean(w1 + (" " + w2)) == w1 + (" " + w2)
  {
    assert '<' !in w1 + (" " + w2);
    StripPlain(w1 + (" " + w2));
    CollapseTwoWords(w1, w2);
  }

  lemma CleanThreeWords(w1: string, w2: string, w3: string)
    requires w1 != [] && NoSpace(w1) && '<' !in w1
    requires w2 != [] && NoSpace(w2) && '<' !in w2
    requires w3 != [] && NoSpace(w3) && '<' !in w3
    ensures Clean(w1 + (" " + (w2 + (" " + w3)))) == w1 + (" " + (w2 + (" " + w3)))
  {
    var t := w2 + (" " + w3);
    assert '<' !in w1 + (" " + t);
    StripPlain(w1 + (" " + t));
    CollapseTwoWords(w2, w3);
    LiteralFacts();
    CollapseWordSpace(w1, " ", t, t);
  }
}
