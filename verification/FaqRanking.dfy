/** How well a knowledge document answers a question.  Texts are given trimmed and in
    lower case, as `normalize_text(...).lower()` leaves them. */
module FaqRanking {

  /** eligible: enabled, of this tenant and scope, canonical, and of an allowed intent. */
  datatype Document = Document(
    id: nat, title: string, content: string, keywords: seq<string>, aliases: seq<string>, language: string,
    priority: int, intent: string, eligible: bool)

  predicate StartsWith(text: string, part: string) {
    |part| <= |text| && text[..|part|] == part
  }

  /** Python's `part in text`. */
  predicate Occurs(part: string, text: string) {
    exists k :: 0 <= k <= |text| && StartsWith(text[k..], part)
  }

  predicate OccursInAny(part: string, texts: seq<string>) {
    exists i :: 0 <= i < |texts| && Occurs(part, texts[i])
  }

  /** `_unique`: the first occurrences, in order. */
  function Unique(values: seq<string>): seq<string> {
    if values == [] then []
    else
      var earlier := Unique(values[..|values| - 1]);
      var last := values[|values| - 1];
      if last in values[..|values| - 1] then earlier else earlier + [last]
  }

  function NonEmpty(values: seq<string>): seq<string> {
    if values == [] then []
    else if values[0] != "" then [values[0]] + NonEmpty(values[1..])
    else NonEmpty(values[1..])
  }

  /** The words of the query and the query itself; how it is cut into words is a parameter. */
  function Tokens(query: string, words: seq<string>): seq<string> {
    if query == "" then [] else NonEmpty(Unique(words + [query]))
  }

  lemma {:induction false} UniqueElements(values: seq<string>)
    ensures forall v :: v in Unique(values) <==> v in values
    ensures forall i, j :: 0 <= i < j < |Unique(values)| ==> Unique(values)[i] != Unique(values)[j]
  {
    if values != [] {
      UniqueElements(values[..|values| - 1]);
      assert values == values[..|values| - 1] + [values[|values| - 1]];
    }
  }

  lemma {:induction false} NonEmptyElements(values: seq<string>)
    ensures forall v :: v in NonEmpty(values) <==> v in values && v != ""
  {
    if values != [] {
      NonEmptyElements(values[1..]);
      assert values == [values[0]] + values[1..];
    }
  }

  /** Every non-empty word is a token, and so is a non-empty query; nothing else is. */
  lemma TokensAre(query: string, words: seq<string>)
    ensures forall t :: t in Tokens(query, words) <==> query != "" && t != "" && (t == query || t in words)
  {
    UniqueElements(words + [query]);
    NonEmptyElements(Unique(words + [query]));
  }

  // ---- Scores ---------------------------------------------------------------------------------------

  predicate AliasTouches(query: string, alias: string) {
    alias != "" && query != alias && (Occurs(query, alias) || Occurs(alias, query))
  }

  function TokenScore(d: Document, token: string): nat {
    (if Occurs(token, d.title) then 4 else 0)
    + (if OccursInAny(token, d.keywords) then 3 else 0)
    + (if OccursInAny(token, d.aliases) then 3 else 0)
    + (if Occurs(token, d.content) then 1 else 0)
  }

  function TokenScores(d: Document, tokens: seq<string>): nat {
    if tokens == [] then 0 else TokenScores(d, tokens[..|tokens| - 1]) + TokenScore(d, tokens[|tokens| - 1])
  }

  /** The bonuses for the query as a whole. */
  function QueryScore(d: Document, query: string): nat {
    (if Occurs(query, d.title) then 8 else 0)
    + (if query != "" && query in d.keywords then 7 else 0)
    + (if query != "" && query in d.aliases then 7 else 0)
    + (if exists i :: 0 <= i < |d.aliases| && AliasTouches(query, d.aliases[i]) then 5 else 0)
  }

  function LanguageBonus(d: Document, language: string, score: nat): nat {
    if language != "" && d.language != "" && Occurs(language, d.language) && score > 0 then 1 else 0
  }

  function Score(d: Document, query: string, words: seq<string>, language: string): nat {
    if query == "" then 0
    else
      var score := QueryScore(d, query) + TokenScores(d, Tokens(query, words));
      score + LanguageBonus(d, language, score)
  }

  // ---- The score, in columns ------------------------------------------------------------------------

  ghost predicate LiesAt(text: string, part: string, i: nat) {
    i + |part| <= |text| && text[i..i + |part|] == part
  }

  ghost predicate Contains(text: string, part: string) {
    exists i: nat :: LiesAt(text, part, i)
  }

  ghost predicate AnyContains(texts: seq<string>, part: string) {
    exists i :: 0 <= i < |texts| && Contains(texts[i], part)
  }

  /** The words that are looked for: the question and its words, each once. */
  ghost function Sought(query: string, words: seq<string>): set<string> {
    set t | t in words + [query] && t != ""
  }

  ghost function InText(text: string): string -> bool {
    (part: string) => Contains(text, part)
  }

  ghost function InTexts(texts: seq<string>): string -> bool {
    (part: string) => AnyContains(texts, part)
  }

  ghost function Count(sought: set<string>, hit: string -> bool): nat {
    |set t | t in sought && hit(t)|
  }

  /** Per word: 4 for the title, 3 for a keyword, 3 for an alias and 1 for the content. */
  ghost function WordPoints(d: Document, sought: set<string>): nat {
    4 * Count(sought, InText(d.title)) + 3 * Count(sought, InTexts(d.keywords))
    + 3 * Count(sought, InTexts(d.aliases)) + Count(sought, InText(d.content))
  }

  /** For the question: 8 in the title, 7 as a keyword, 7 as an alias, and 5 for another alias around or inside it. */
  ghost function QuestionPoints(d: Document, query: string): nat {
    var related := exists i :: 0 <= i < |d.aliases| && d.aliases[i] != "" && d.aliases[i] != query
                               && (Contains(d.aliases[i], query) || Contains(query, d.aliases[i]));
    (if Contains(d.title, query) then 8 else 0) + (if query in d.keywords then 7 else 0)
    + (if query in d.aliases then 7 else 0) + (if related then 5 else 0)
  }

  /** The points, and one more for the right language if there are any. */
  ghost function Points(d: Document, query: string, words: seq<string>, language: string): nat {
    var points := QuestionPoints(d, query) + WordPoints(d, Sought(query, words));
    if query == "" then 0
    else if points > 0 && language != "" && d.language != "" && Contains(d.language, language) then points + 1
    else points
  }

  lemma OccursIff(part: string, text: string)
    ensures Occurs(part, text) <==> Contains(text, part)
  {
    if k :| 0 <= k <= |text| && StartsWith(text[k..], part) {
      assert text[k..k + |part|] == text[k..][..|part|];
      assert LiesAt(text, part, k);
    }
    if i: nat :| LiesAt(text, part, i) {
      assert text[i..][..|part|] == text[i..i + |part|];
      assert StartsWith(text[i..], part);
    }
  }

  lemma OccursInAnyIff(part: string, texts: seq<string>)
    ensures OccursInAny(part, texts) <==> AnyContains(texts, part)
  {
    forall i | 0 <= i < |texts| ensures Occurs(part, texts[i]) <==> Contains(texts[i], part) {
      OccursIff(part, texts[i]);
    }
  }

  lemma QueryScoreIs(d: Document, query: string)
    requires query != ""
    ensures QueryScore(d, query) == QuestionPoints(d, query)
  {
    OccursIff(query, d.title);
    forall i | 0 <= i < |d.aliases|
      ensures Occurs(query, d.aliases[i]) <==> Contains(d.aliases[i], query)
      ensures Occurs(d.aliases[i], query) <==> Contains(query, d.aliases[i])
    {
      OccursIff(query, d.aliases[i]);
      OccursIff(d.aliases[i], query);
    }
  }

  lemma OneMoreHit(sought: set<string>, token: string, hit: string -> bool)
    requires token !in sought
    ensures Count(sought + {token}, hit) == Count(sought, hit) + (if hit(token) then 1 else 0)
  {
    var before := set t | t in sought && hit(t);
    assert (set t | t in sought + {token} && hit(t)) == if hit(token) then before + {token} else before;
  }

  lemma OneMoreWord(d: Document, sought: set<string>, token: string)
    requires token !in sought
    ensures WordPoints(d, sought + {token}) == WordPoints(d, sought) + TokenScore(d, token)
  {
    OccursIff(token, d.title);
    OccursInAnyIff(token, d.keywords);
    OccursInAnyIff(token, d.aliases);
    OccursIff(token, d.content);
    OneMoreHit(sought, token, InText(d.title));
    OneMoreHit(sought, token, InTexts(d.keywords));
    OneMoreHit(sought, token, InTexts(d.aliases));
    OneMoreHit(sought, token, InText(d.content));
  }

  ghost function SetOf(tokens: seq<string>): set<string> {
    set t | t in tokens
  }

  lemma SetOfLast(init: seq<string>, last: string)
    ensures SetOf(init + [last]) == SetOf(init) + {last}
    ensures last in SetOf(init) <==> last in init
  {
  }

  lemma {:induction false} TokenScoresAre(d: Document, tokens: seq<string>)
    requires forall i, j :: 0 <= i < j < |tokens| ==> tokens[i] != tokens[j]
    ensures TokenScores(d, tokens) == WordPoints(d, SetOf(tokens))
  {
    if tokens == [] {
      assert SetOf(tokens) == {};
    } else {
      var init, last := tokens[..|tokens| - 1], tokens[|tokens| - 1];
      TokenScoresAre(d, init);
      SetOfLast(init, last);
      OneMoreWord(d, SetOf(init), last);
      assert tokens == init + [last];
    }
  }

  lemma {:induction false} NonEmptyDistinct(values: seq<string>)
    requires forall i, j :: 0 <= i < j < |values| ==> values[i] != values[j]
    ensures forall i, j :: 0 <= i < j < |NonEmpty(values)| ==> NonEmpty(values)[i] != NonEmpty(values)[j]
  {
    if values != [] {
      NonEmptyDistinct(values[1..]);
      NonEmptyElements(values[1..]);
      assert values[0] !in values[1..];
    }
  }

  /** The score is what the points add up to. */
  lemma ScoreIsPoints(d: Document, query: string, words: seq<string>, language: string)
    ensures Score(d, query, words, language) == Points(d, query, words, language)
  {
    if query != "" {
      var tokens := Tokens(query, words);
      QueryScoreIs(d, query);
      UniqueElements(words + [query]);
      NonEmptyDistinct(Unique(words + [query]));
      TokensAre(query, words);
      TokenScoresAre(d, tokens);
      assert SetOf(tokens) == Sought(query, words);
      OccursIff(language, d.language);
    }
  }

  /** rank_knowledge_document */
  method Rank(d: Document, query: string, words: seq<string>, language: string) returns (score: nat)
    ensures score == Score(d, query, words, language)
    ensures score == Points(d, query, words, language)
  {
    ScoreIsPoints(d, query, words, language);
    var tokens := Tokens(query, words);
    TokensAre(query, words);
    if query == "" || tokens == [] {
      return 0;
    }
    score := if Occurs(query, d.title) then 8 else 0;
    var exact := ScanExact(d.keywords, query);
    score := score + (if exact then 7 else 0);
    exact := ScanExact(d.aliases, query);
    score := score + (if exact then 7 else 0);
    var touched := ScanAliases(d.aliases, query);
    score := score + (if touched then 5 else 0);
    var whole := score;
    for k := 0 to |tokens|
      invariant score == whole + TokenScores(d, tokens[..k])
    {
      assert tokens[..k + 1][..k] == tokens[..k];
      score := score + TokenScore(d, tokens[k]);
    }
    assert tokens[..|tokens|] == tokens;
    score := score + LanguageBonus(d, language, score);
  }

  /** The loops that break at the first exact match. */
  method ScanExact(texts: seq<string>, query: string) returns (found: bool)
    ensures found <==> query != "" && query in texts
  {
    for k := 0 to |texts|
      invariant query == "" || query !in texts[..k]
    {
      if texts[k] != "" && query == texts[k] {
        return true;
      }
    }
    found := false;
  }

  /** The loop that skips an exact alias and breaks at the first one that contains the query or occurs in it. */
  method ScanAliases(aliases: seq<string>, query: string) returns (found: bool)
    ensures found <==> exists i :: 0 <= i < |aliases| && AliasTouches(query, aliases[i])
  {
    for k := 0 to |aliases|
      invariant forall i :: 0 <= i < k ==> !AliasTouches(query, aliases[i])
    {
      if aliases[k] == "" || query == aliases[k] {
        continue;
      }
      if Occurs(query, aliases[k]) || Occurs(aliases[k], query) {
        return true;
      }
    }
    found := false;
  }

  predicate TokenHits(d: Document, token: string) {
    Occurs(token, d.title) || OccursInAny(token, d.keywords) || OccursInAny(token, d.aliases)
      || Occurs(token, d.content)
  }

  lemma {:induction false} TokenScoresPositive(d: Document, tokens: seq<string>)
    ensures TokenScores(d, tokens) > 0 <==> exists k :: 0 <= k < |tokens| && TokenHits(d, tokens[k])
  {
    if tokens != [] {
      var init := tokens[..|tokens| - 1];
      TokenScoresPositive(d, init);
      if TokenScores(d, init) > 0 {
        var k :| 0 <= k < |init| && TokenHits(d, init[k]);
        assert TokenHits(d, tokens[k]);
      }
      if k :| 0 <= k < |tokens| && TokenHits(d, tokens[k]) {
        if k < |init| { assert TokenHits(d, init[k]); }
      }
    }
  }

  lemma OccursInItself(text: string)
    ensures Occurs(text, text)
  {
    assert text[0..] == text && StartsWith(text[0..], text);
  }

  /** A token of the query occurs in a field. */
  ghost predicate SomeTokenHits(d: Document, query: string, words: seq<string>) {
    exists t :: t in words + [query] && t != "" && TokenHits(d, t)
  }

  ghost predicate SomeAliasInside(d: Document, query: string) {
    exists i :: 0 <= i < |d.aliases| && d.aliases[i] != "" && Occurs(d.aliases[i], query)
  }

  lemma TokenScoresIff(d: Document, query: string, words: seq<string>)
    requires query != ""
    ensures TokenScores(d, Tokens(query, words)) > 0 <==> SomeTokenHits(d, query, words)
  {
    var tokens := Tokens(query, words);
    TokensAre(query, words);
    TokenScoresPositive(d, tokens);
    if TokenScores(d, tokens) > 0 {
      var k :| 0 <= k < |tokens| && TokenHits(d, tokens[k]);
      assert tokens[k] in words + [query];
    }
    if SomeTokenHits(d, query, words) {
      var t :| t in words + [query] && t != "" && TokenHits(d, t);
      assert t in tokens;
      var k :| 0 <= k < |tokens| && tokens[k] == t;
      assert TokenHits(d, tokens[k]);
    }
  }

  /** A document scores exactly when some word of the query, or the whole of it, occurs in one of its fields, or one of
      its non-empty aliases occurs in the query. */
  lemma ScorePositiveIff(d: Document, query: string, words: seq<string>, language: string)
    ensures Score(d, query, words, language) > 0 <==>
            query != "" && (SomeTokenHits(d, query, words) || SomeAliasInside(d, query))
  {
    if query != "" {
      TokenScoresIff(d, query, words);
      QueryScoreHits(d, query);
      if TokenHits(d, query) {
        assert (words + [query])[|words|] == query;
        assert SomeTokenHits(d, query, words);
      }
      var score := QueryScore(d, query) + TokenScores(d, Tokens(query, words));
      assert Score(d, query, words, language) > 0 <==> score > 0;
    }
  }

  /** What earns a bonus is a hit of the whole query, or an alias inside it. */
  lemma QueryScoreHits(d: Document, query: string)
    requires query != ""
    ensures QueryScore(d, query) > 0 ==>
              TokenHits(d, query) || SomeAliasInside(d, query)
    ensures SomeAliasInside(d, query) ==> QueryScore(d, query) > 0
  {
    OccursInItself(query);
    if query in d.keywords {
      var i :| 0 <= i < |d.keywords| && d.keywords[i] == query;
      assert OccursInAny(query, d.keywords);
    }
    if i :| 0 <= i < |d.aliases| && AliasTouches(query, d.aliases[i]) {
      if Occurs(query, d.aliases[i]) { assert OccursInAny(query, d.aliases); }
    }
    if i :| 0 <= i < |d.aliases| && d.aliases[i] != "" && Occurs(d.aliases[i], query) {
      if d.aliases[i] != query { assert AliasTouches(query, d.aliases[i]); }
    }
  }
}
