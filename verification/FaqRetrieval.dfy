/** Retrieval of an FAQ answer: score, sort, cut to a limit, and only then filter by
    the intent that the router asked for. */
module FaqRetrieval {
  import opened Base
  import opened FaqRanking
  import opened Keeping
  import opened Sorting

  /** A question: its text, its words, and its language when the caller knows it. */
  datatype Query = Query(text: string, words: seq<string>, language: string)

  function ScoreOf(docs: seq<Document>, q: Query, i: nat): nat {
    if i < |docs| then Score(docs[i], q.text, q.words, q.language) else 0
  }

  predicate Hit(docs: seq<Document>, q: Query, i: nat) {
    i < |docs| && docs[i].eligible && ScoreOf(docs, q, i) > 0
  }

  /** sort key (-score, priority, id); the sort is stable, so equal keys keep their order. */
  predicate Precedes(docs: seq<Document>, q: Query, i: nat, j: nat) {
    var s, t := ScoreOf(docs, q, i), ScoreOf(docs, q, j);
    var p, r := if i < |docs| then docs[i].priority else 0, if j < |docs| then docs[j].priority else 0;
    var a, b := if i < |docs| then docs[i].id else 0, if j < |docs| then docs[j].id else 0;
    s > t || (s == t && (p < r || (p == r && (a < b || (a == b && i <= j)))))
  }

  // ---- The order, in columns -------------------------------------------------------------------------

  ghost predicate Scores(docs: seq<Document>, q: Query, i: nat) {
    i < |docs| && docs[i].eligible && Score(docs[i], q.text, q.words, q.language) > 0
  }

  /** i has the higher score, or the same score and the smaller priority number, then the smaller id, then it comes
      first. */
  ghost predicate Better(docs: seq<Document>, q: Query, i: nat, j: nat)
    requires i < |docs| && j < |docs|
  {
    var x, y := docs[i], docs[j];
    var s, t := Score(x, q.text, q.words, q.language), Score(y, q.text, q.words, q.language);
    || s > t
    || (s == t && x.priority < y.priority)
    || (s == t && x.priority == y.priority && x.id < y.id)
    || (s == t && x.priority == y.priority && x.id == y.id && i < j)
  }

  /** ids are the `limit` best scoring documents, best first. */
  ghost predicate ListsBest(docs: seq<Document>, q: Query, limit: nat, ids: seq<nat>) {
    && |ids| <= limit && (forall k :: 0 <= k < |ids| ==> Scores(docs, q, ids[k]))
    && (forall a, b :: 0 <= a < b < |ids| ==> Better(docs, q, ids[a], ids[b]))
    && (forall i: nat :: Scores(docs, q, i) && i !in ids ==>
          |ids| == limit && forall k :: 0 <= k < |ids| ==> Better(docs, q, ids[k], i))
  }

  lemma PrecedesIff(docs: seq<Document>, q: Query, i: nat, j: nat)
    requires i < |docs| && j < |docs| && i != j
    ensures Precedes(docs, q, i, j) <==> Better(docs, q, i, j)
  {
  }

  lemma SearchListsBest(docs: seq<Document>, q: Query, limit: nat)
    ensures ListsBest(docs, q, limit, Cut(Ranked(docs, q), limit))
  {
    var ranked, ids := Ranked(docs, q), Cut(Ranked(docs, q), limit);
    RankedAre(docs, q);
    forall k | 0 <= k < |ranked| ensures Scores(docs, q, ranked[k]) { assert ranked[k] in ranked; }
    forall a, b | 0 <= a < b < |ranked| ensures Better(docs, q, ranked[a], ranked[b]) {
      assert RankOrder(docs, q)(ranked[a], ranked[b]) && Scores(docs, q, ranked[a]) && Scores(docs, q, ranked[b]);
      PrecedesIff(docs, q, ranked[a], ranked[b]);
    }
    forall i: nat | Scores(docs, q, i) && i !in ids
      ensures |ids| == limit && forall k :: 0 <= k < |ids| ==> Better(docs, q, ids[k], i)
    {
      assert Hit(docs, q, i) && i in ranked;
      var n :| 0 <= n < |ranked| && ranked[n] == i;
      assert n >= |ids|;
    }
  }

  function RankOrder(docs: seq<Document>, q: Query): (nat, nat) -> bool {
    (i: nat, j: nat) => Precedes(docs, q, i, j)
  }

  function Hits(docs: seq<Document>, q: Query, n: nat): seq<nat>
    requires n <= |docs|
  {
    if n == 0 then []
    else if Hit(docs, q, n - 1) then Hits(docs, q, n - 1) + [n - 1]
    else Hits(docs, q, n - 1)
  }

  function Ranked(docs: seq<Document>, q: Query): seq<nat> {
    Sort(Hits(docs, q, |docs|), RankOrder(docs, q))
  }

  function Cut(ids: seq<nat>, limit: nat): seq<nat> {
    if |ids| <= limit then ids else ids[..limit]
  }

  /** KnowledgeDocumentRepository.search and search_static_knowledge */
  method Search(docs: seq<Document>, q: Query, limit: nat) returns (ids: seq<nat>)
    ensures ids == Cut(Ranked(docs, q), limit)
    ensures ListsBest(docs, q, limit, ids)
  {
    SearchListsBest(docs, q, limit);
    var scored: seq<nat> := [];
    for k := 0 to |docs|
      invariant scored == Hits(docs, q, k)
    {
      if docs[k].eligible {
        var score := Rank(docs[k], q.text, q.words, q.language);
        if score > 0 {
          scored := scored + [k];
        }
      }
    }
    var sorted := Sort(scored, RankOrder(docs, q));
    ids := if |sorted| <= limit then sorted else sorted[..limit];
  }

  function OfIntent(docs: seq<Document>, ids: seq<nat>, intent: string): seq<nat> {
    if ids == [] then []
    else
      var rest := OfIntent(docs, ids[1..], intent);
      if ids[0] < |docs| && docs[ids[0]].intent == intent then [ids[0]] + rest else rest
  }

  function Max(a: int, b: int): int {
    if a > b then a else b
  }

  function Limit(intent: Option<string>, maxDocs: nat): nat {
    if intent.Some? then Max(3 * maxDocs, 10) else maxDocs
  }

  function Filtered(docs: seq<Document>, ids: seq<nat>, intent: Option<string>): seq<nat> {
    if intent.Some? then OfIntent(docs, ids, intent.value) else ids
  }

  function Documents(docs: seq<Document>, q: Query, intent: Option<string>, maxDocs: nat): seq<nat> {
    Cut(Filtered(docs, Cut(Ranked(docs, q), Limit(intent, maxDocs)), intent), maxDocs)
  }

  /** In columns: the documents of the wanted intent among the best of the search, at most maxDocs, best first. */
  ghost predicate FoundFor(docs: seq<Document>, q: Query, intent: Option<string>, maxDocs: nat, documents: seq<nat>) {
    exists ids :: FoundAmong(docs, q, intent, maxDocs, ids, documents)
  }

  ghost predicate FoundAmong(docs: seq<Document>, q: Query, intent: Option<string>, maxDocs: nat, ids: seq<nat>,
                             documents: seq<nat>)
  {
    && ListsBest(docs, q, if intent.None? then maxDocs else if maxDocs <= 3 then 10 else 3 * maxDocs, ids)
    && |documents| <= maxDocs
    && (forall k :: 0 <= k < |documents| ==> documents[k] in ids && Wanted(docs, intent, documents[k]))
    && (forall a, b :: 0 <= a < b < |documents| ==> Better(docs, q, documents[a], documents[b]))
    && (forall i :: i in ids && Wanted(docs, intent, i) && i !in documents ==>
          |documents| == maxDocs && forall k :: 0 <= k < |documents| ==> Better(docs, q, documents[k], i))
  }

  ghost function IntentTest(docs: seq<Document>, intent: string): nat -> bool {
    (i: nat) => Wanted(docs, Some(intent), i)
  }

  lemma {:induction false} OfIntentKept(docs: seq<Document>, ids: seq<nat>, intent: string)
    ensures Kept<nat>(ids, IntentTest(docs, intent), OfIntent(docs, ids, intent))
  {
    if ids == [] {
      NothingKept(IntentTest(docs, intent));
    } else {
      OfIntentKept(docs, ids[1..], intent);
      KeptInFront(ids, IntentTest(docs, intent), OfIntent(docs, ids[1..], intent));
    }
  }

  lemma OfIntentKeeps(docs: seq<Document>, q: Query, ids: seq<nat>, intent: string)
    requires forall k :: 0 <= k < |ids| ==> ids[k] < |docs|
    requires forall a, b :: 0 <= a < b < |ids| ==> Better(docs, q, ids[a], ids[b])
    ensures var kept := OfIntent(docs, ids, intent);
            && (forall i :: i in kept <==> i in ids && Wanted(docs, Some(intent), i))
            && (forall a, b :: 0 <= a < b < |kept| ==>
                  kept[a] < |docs| && kept[b] < |docs| && Better(docs, q, kept[a], kept[b]))
  {
    var kept, test := OfIntent(docs, ids, intent), IntentTest(docs, intent);
    OfIntentKept(docs, ids, intent);
    var picks: seq<nat> :| KeptAt<nat>(ids, test, kept, picks);
    forall i ensures i in kept <==> i in ids && Wanted(docs, Some(intent), i) {
      if i in kept {
        var k :| 0 <= k < |kept| && kept[k] == i;
        assert picks[k] in picks && Passes(ids, test, picks[k]);
      }
      if i in ids && Wanted(docs, Some(intent), i) {
        var j: nat :| j < |ids| && ids[j] == i;
        assert Passes(ids, test, j);
        var k :| 0 <= k < |picks| && picks[k] == j;
        assert kept[k] == i;
      }
    }
    forall a, b | 0 <= a < b < |kept|
      ensures kept[a] < |docs| && kept[b] < |docs| && Better(docs, q, kept[a], kept[b])
    {
      assert kept[a] == ids[picks[a]] && kept[b] == ids[picks[b]] && picks[a] < picks[b];
    }
  }

  lemma DocumentsFound(docs: seq<Document>, q: Query, intent: Option<string>, maxDocs: nat)
    ensures FoundFor(docs, q, intent, maxDocs, Documents(docs, q, intent, maxDocs))
  {
    var ids := Cut(Ranked(docs, q), Limit(intent, maxDocs));
    var kept, documents := Filtered(docs, ids, intent), Documents(docs, q, intent, maxDocs);
    SearchListsBest(docs, q, Limit(intent, maxDocs));
    forall k | 0 <= k < |ids| ensures ids[k] < |docs| { assert Scores(docs, q, ids[k]); }
    if intent.Some? { OfIntentKeeps(docs, q, ids, intent.value); }
    forall k | 0 <= k < |documents| ensures documents[k] in ids && Wanted(docs, intent, documents[k]) {
      assert documents[k] == kept[k] && kept[k] in kept;
    }
    forall a, b | 0 <= a < b < |documents| ensures Better(docs, q, documents[a], documents[b]) {
      assert documents[a] == kept[a] && documents[b] == kept[b];
    }
    forall i | i in ids && Wanted(docs, intent, i) && i !in documents
      ensures |documents| == maxDocs && forall k :: 0 <= k < |documents| ==> Better(docs, q, documents[k], i)
    {
      assert i in kept;
      var n :| 0 <= n < |kept| && kept[n] == i;
      assert n >= |documents|;
    }
    assert FoundAmong(docs, q, intent, maxDocs, ids, documents);
  }

  datatype Retrieval = Matched(best: nat, documents: seq<nat>) | NoMatch | LowScore

  /** In columns: the first document found answers, if it scores enough, and no other of the intent is better. */
  ghost predicate AnswersBest(docs: seq<Document>, q: Query, intent: Option<string>, maxDocs: nat, minScore: int,
                              r: Retrieval)
  {
    match r
    case NoMatch => FoundFor(docs, q, intent, maxDocs, [])
    case LowScore =>
      exists documents ::
        FoundFor(docs, q, intent, maxDocs, documents) && documents != []
          && !ScoresEnough(docs, q, documents[0], minScore)
    case Matched(best, documents) =>
      && FoundFor(docs, q, intent, maxDocs, documents) && documents != [] && best == documents[0]
      && ScoresEnough(docs, q, best, minScore) && Best(docs, q, intent, best)
  }

  ghost predicate ScoresEnough(docs: seq<Document>, q: Query, i: nat, minScore: int) {
    i < |docs| && Score(docs[i], q.text, q.words, q.language) >= minScore
  }

  lemma FirstAnswers(docs: seq<Document>, q: Query, intent: Option<string>, maxDocs: nat, minScore: int)
    ensures var documents := Documents(docs, q, intent, maxDocs);
            AnswersBest(docs, q, intent, maxDocs, minScore,
                        if documents == [] then NoMatch
                        else if ScoreOf(docs, q, documents[0]) < minScore then LowScore
                        else Matched(documents[0], documents))
  {
    DocumentsFound(docs, q, intent, maxDocs);
    if maxDocs > 0 { RetrievalIff(docs, q, intent, maxDocs); }
  }

  /** RagService.retrieve, after its guards: the answered document comes first. */
  method Retrieve(docs: seq<Document>, q: Query, intent: Option<string>, maxDocs: nat, minScore: int)
    returns (r: Retrieval)
    ensures var documents := Documents(docs, q, intent, maxDocs);
            r == if documents == [] then NoMatch
                 else if ScoreOf(docs, q, documents[0]) < minScore then LowScore
                 else Matched(documents[0], documents)
    ensures AnswersBest(docs, q, intent, maxDocs, minScore, r)
  {
    FirstAnswers(docs, q, intent, maxDocs, minScore);
    var limit := if intent.Some? then Max(maxDocs * 3, 10) else maxDocs;
    var documents := Search(docs, q, limit);
    if intent.Some? {
      documents := OfIntent(docs, documents, intent.value);
    }
    documents := if |documents| <= maxDocs then documents else documents[..maxDocs];
    if documents == [] {
      return NoMatch;
    }
    if ScoreOf(docs, q, documents[0]) < minScore {
      return LowScore;
    }
    r := Matched(documents[0], documents);
  }

  // ---- What truncation can and cannot lose -----------------------------------------------------------

  ghost predicate Wanted(docs: seq<Document>, intent: Option<string>, i: nat) {
    i < |docs| && (intent.None? || docs[i].intent == intent.value)
  }

  /** The best document of the intent among all, however many others score. */
  ghost predicate Best(docs: seq<Document>, q: Query, intent: Option<string>, b: nat) {
    && Scores(docs, q, b) && Wanted(docs, intent, b)
    && forall j: nat :: Scores(docs, q, j) && Wanted(docs, intent, j) && j != b ==> Better(docs, q, b, j)
  }

  /** The scoring documents that come before b, of whatever intent. */
  ghost function Ahead(docs: seq<Document>, q: Query, b: nat): set<nat> {
    set j: nat | j < |docs| && b < |docs| && Scores(docs, q, j) && Better(docs, q, j, b)
  }

  lemma RankOrderTotal(docs: seq<Document>, q: Query)
    ensures TotalOrder(RankOrder(docs, q))
  {
  }

  lemma {:induction false} HitsAre(docs: seq<Document>, q: Query, n: nat)
    requires n <= |docs|
    ensures Distinct(Hits(docs, q, n))
    ensures forall i: nat :: i in Hits(docs, q, n) <==> i < n && Hit(docs, q, i)
  {
    if n > 0 {
      HitsAre(docs, q, n - 1);
    }
  }

  lemma RankedAre(docs: seq<Document>, q: Query)
    ensures Distinct(Ranked(docs, q)) && Sorted(Ranked(docs, q), RankOrder(docs, q))
    ensures forall i: nat :: i in Ranked(docs, q) <==> Hit(docs, q, i)
  {
    HitsAre(docs, q, |docs|);
    RankOrderTotal(docs, q);
    SortSorts(Hits(docs, q, |docs|), RankOrder(docs, q));
    SortElements(Hits(docs, q, |docs|), RankOrder(docs, q));
  }

  /** The search does not depend on how it sorts: whatever lists the best documents in this way is its answer. */
  lemma RankedDetermined(docs: seq<Document>, q: Query, limit: nat, ids: seq<nat>)
    requires ListsBest(docs, q, limit, ids)
    ensures ids == Cut(Ranked(docs, q), limit)
  {
    var best := Cut(Ranked(docs, q), limit);
    SearchListsBest(docs, q, limit);
    if |ids| < |best| {
      SamePlaces(docs, q, limit, ids, best, |ids|);
      NoneLeft(docs, q, limit, ids, best);
    } else if |best| < |ids| {
      SamePlaces(docs, q, limit, best, ids, |best|);
      NoneLeft(docs, q, limit, best, ids);
    } else {
      SamePlaces(docs, q, limit, ids, best, |ids|);
    }
  }

  lemma {:induction false} SamePlaces(docs: seq<Document>, q: Query, limit: nat, a: seq<nat>, b: seq<nat>, n: nat)
    requires ListsBest(docs, q, limit, a) && ListsBest(docs, q, limit, b) && n <= |a| && n <= |b|
    ensures forall k :: 0 <= k < n ==> a[k] == b[k]
  {
    if n > 0 {
      SamePlaces(docs, q, limit, a, b, n - 1);
      var k := n - 1;
      if a[k] != b[k] {
        NoWorse(docs, q, limit, a, b, k);
        NoWorse(docs, q, limit, b, a, k);
      }
    }
  }

  lemma NoWorse(docs: seq<Document>, q: Query, limit: nat, a: seq<nat>, b: seq<nat>, k: nat)
    requires ListsBest(docs, q, limit, a) && ListsBest(docs, q, limit, b) && k < |a| && k < |b| && a[k] != b[k]
    requires forall j :: 0 <= j < k ==> a[j] == b[j]
    ensures Scores(docs, q, a[k]) && Scores(docs, q, b[k]) && Better(docs, q, b[k], a[k])
  {
    assert Scores(docs, q, a[k]) && Scores(docs, q, b[k]);
    assert forall j :: 0 <= j < k ==> Better(docs, q, a[j], a[k]);
    if a[k] in b {
      var m :| 0 <= m < |b| && b[m] == a[k];
    }
  }

  lemma NotAgain(docs: seq<Document>, q: Query, limit: nat, a: seq<nat>, b: seq<nat>, k: nat)
    requires ListsBest(docs, q, limit, b) && |a| <= k < |b| && forall j :: 0 <= j < |a| ==> a[j] == b[j]
    ensures Scores(docs, q, b[k]) && b[k] !in a
  {
    forall j | 0 <= j < |a| ensures a[j] != b[k] { assert Better(docs, q, b[j], b[k]); }
  }

  /** A list that agrees with another one as far as both go is not the shorter one. */
  lemma NoneLeft(docs: seq<Document>, q: Query, limit: nat, a: seq<nat>, b: seq<nat>)
    requires ListsBest(docs, q, limit, a) && ListsBest(docs, q, limit, b)
    requires forall k :: 0 <= k < |a| && k < |b| ==> a[k] == b[k]
    ensures |b| <= |a|
  {
    if |a| < |b| { NotAgain(docs, q, limit, a, b, |a|); }
  }

  /** The first kept element is the first in the list that passes the filter. */
  ghost predicate FirstWanted(docs: seq<Document>, ids: seq<nat>, intent: Option<string>, k: nat) {
    k < |ids| && Wanted(docs, intent, ids[k]) && forall j :: 0 <= j < k ==> !Wanted(docs, intent, ids[j])
  }

  lemma {:induction false} FilterFirst(docs: seq<Document>, ids: seq<nat>, intent: string)
    ensures var kept := OfIntent(docs, ids, intent);
            if kept == [] then forall j :: 0 <= j < |ids| ==> !Wanted(docs, Some(intent), ids[j])
            else exists k: nat :: FirstWanted(docs, ids, Some(intent), k) && kept[0] == ids[k]
  {
    if ids != [] && !Wanted(docs, Some(intent), ids[0]) {
      FilterFirst(docs, ids[1..], intent);
      var kept := OfIntent(docs, ids[1..], intent);
      if kept != [] {
        var k: nat :| FirstWanted(docs, ids[1..], Some(intent), k) && kept[0] == ids[1..][k];
        assert FirstWanted(docs, ids, Some(intent), k + 1);
      }
    } else if ids != [] {
      assert FirstWanted(docs, ids, Some(intent), 0);
    }
  }

  lemma {:induction false} PrefixSet(ids: seq<nat>, n: nat)
    requires Distinct(ids) && n <= |ids|
    ensures |set k | 0 <= k < n :: ids[k]| == n
  {
    var s := set k | 0 <= k < n :: ids[k];
    if n > 0 {
      PrefixSet(ids, n - 1);
      var t := set k | 0 <= k < n - 1 :: ids[k];
      assert s == t + {ids[n - 1]};
    }
  }

  /** Ahead of a document are those at the earlier positions. */
  lemma EarlierIsAhead(docs: seq<Document>, q: Query, j: nat, k: nat)
    requires j < |Ranked(docs, q)| && k < |Ranked(docs, q)|
    ensures Ranked(docs, q)[j] in Ahead(docs, q, Ranked(docs, q)[k]) <==> j < k
  {
    RankedAre(docs, q);
    var ranked := Ranked(docs, q);
    assert ranked[j] in ranked && ranked[k] in ranked;
    if j != k {
      assert if j < k then RankOrder(docs, q)(ranked[j], ranked[k]) else RankOrder(docs, q)(ranked[k], ranked[j]);
      PrecedesIff(docs, q, ranked[j], ranked[k]);
      PrecedesIff(docs, q, ranked[k], ranked[j]);
    }
  }

  /** A scoring document stands at the position that counts those ahead of it. */
  lemma PositionCounts(docs: seq<Document>, q: Query, k: nat)
    requires k < |Ranked(docs, q)|
    ensures |Ahead(docs, q, Ranked(docs, q)[k])| == k
  {
    RankedAre(docs, q);
    var ranked := Ranked(docs, q);
    var b := ranked[k];
    var s := set j | 0 <= j < k :: ranked[j];
    PrefixSet(ranked, k);
    forall i ensures i in s <==> i in Ahead(docs, q, b) {
      if i in s {
        var j: nat :| j < k && ranked[j] == i;
        EarlierIsAhead(docs, q, j, k);
      }
      if i in Ahead(docs, q, b) {
        assert Hit(docs, q, i) && i in ranked;
        var j: nat :| j < |ranked| && ranked[j] == i;
        EarlierIsAhead(docs, q, j, k);
      }
    }
    assert s == Ahead(docs, q, b);
  }

  lemma FilteredFirst(docs: seq<Document>, ids: seq<nat>, intent: Option<string>)
    requires forall k :: 0 <= k < |ids| ==> ids[k] < |docs|
    ensures var kept := Filtered(docs, ids, intent);
            if kept == [] then forall j :: 0 <= j < |ids| ==> !Wanted(docs, intent, ids[j])
            else exists k: nat :: FirstWanted(docs, ids, intent, k) && kept[0] == ids[k]
  {
    if intent.Some? {
      FilterFirst(docs, ids, intent.value);
    } else if ids != [] {
      assert FirstWanted(docs, ids, intent, 0);
    }
  }

  /** The first wanted document of the ranking is the best of its intent. */
  lemma FirstWantedIsBest(docs: seq<Document>, q: Query, intent: Option<string>, limit: nat, k: nat)
    requires FirstWanted(docs, Cut(Ranked(docs, q), limit), intent, k)
    ensures Best(docs, q, intent, Ranked(docs, q)[k]) && |Ahead(docs, q, Ranked(docs, q)[k])| == k < limit
  {
    RankedAre(docs, q);
    PositionCounts(docs, q, k);
    var ranked := Ranked(docs, q);
    var ids := Cut(ranked, limit);
    var b := ranked[k];
    assert ids[k] == b && b in ranked && Scores(docs, q, b);
    forall m | 0 <= m < k ensures !Wanted(docs, intent, ranked[m]) { assert ids[m] == ranked[m]; }
    forall j: nat | Scores(docs, q, j) && Wanted(docs, intent, j) && j != b ensures Better(docs, q, b, j) {
      assert Hit(docs, q, j) && j in ranked;
      var m :| 0 <= m < |ranked| && ranked[m] == j;
      assert m > k && RankOrder(docs, q)(ranked[k], ranked[m]);
      PrecedesIff(docs, q, b, j);
    }
  }

  lemma BestIsKept(docs: seq<Document>, q: Query, intent: Option<string>, limit: nat, b: nat)
    requires Best(docs, q, intent, b) && |Ahead(docs, q, b)| < limit
    ensures exists j :: 0 <= j < |Cut(Ranked(docs, q), limit)| && Wanted(docs, intent, Cut(Ranked(docs, q), limit)[j])
  {
    RankedAre(docs, q);
    var ranked := Ranked(docs, q);
    assert Hit(docs, q, b) && b in ranked;
    var m :| 0 <= m < |ranked| && ranked[m] == b;
    PositionCounts(docs, q, m);
    assert Cut(ranked, limit)[m] == b;
  }

  /** An answered document is the best of its intent among all that score, although the list is cut before it is
      filtered; what the early cut can cost is the answer itself, exactly when `limit` or more documents come first. */
  lemma RetrievalIff(docs: seq<Document>, q: Query, intent: Option<string>, maxDocs: nat)
    requires maxDocs > 0
    ensures var documents := Documents(docs, q, intent, maxDocs);
            && (documents != [] ==> Best(docs, q, intent, documents[0]))
            && (documents != [] <==>
                  exists b: nat :: Best(docs, q, intent, b) && |Ahead(docs, q, b)| < Limit(intent, maxDocs))
  {
    var limit := Limit(intent, maxDocs);
    var ids := Cut(Ranked(docs, q), limit);
    RankedAre(docs, q);
    forall k | 0 <= k < |ids| ensures ids[k] < |docs| { assert ids[k] in Ranked(docs, q); }
    FilteredFirst(docs, ids, intent);
    if Filtered(docs, ids, intent) != [] {
      var k: nat :| FirstWanted(docs, ids, intent, k) && Filtered(docs, ids, intent)[0] == ids[k];
      FirstWantedIsBest(docs, q, intent, limit, k);
    } else {
      forall b: nat | Best(docs, q, intent, b) ensures |Ahead(docs, q, b)| >= limit {
        if |Ahead(docs, q, b)| < limit { BestIsKept(docs, q, intent, limit, b); }
      }
    }
  }

  /** There is only one best document. */
  lemma BestUnique(docs: seq<Document>, q: Query, intent: Option<string>, a: nat, b: nat)
    requires Best(docs, q, intent, a) && Best(docs, q, intent, b)
    ensures a == b
  {
  }

  // ---- An answer that is lost ------------------------------------------------------------------------

  lemma {:induction false} TokenScoresIgnoreIntent(d: Document, e: Document, tokens: seq<string>)
    requires e == d.(intent := e.intent)
    ensures TokenScores(d, tokens) == TokenScores(e, tokens)
  {
    if tokens != [] {
      TokenScoresIgnoreIntent(d, e, tokens[..|tokens| - 1]);
    }
  }

  /** n documents of another intent before one of the wanted intent, alike in all else. */
  function Crowd(d: Document, n: nat, other: string): seq<Document> {
    seq(n, _ => d.(intent := other)) + [d]
  }

  lemma CrowdRanks(d: Document, q: Query, n: nat, other: string)
    requires d.eligible && Score(d, q.text, q.words, q.language) > 0 && d.intent != other
    ensures var docs := Crowd(d, n, other);
            && Best(docs, q, Some(d.intent), n)
            && forall j: nat :: j in Ahead(docs, q, n) <==> j < n
  {
    TokenScoresIgnoreIntent(d, d.(intent := other), Tokens(q.text, q.words));
  }

  lemma CrowdCounts(d: Document, q: Query, n: nat, other: string)
    requires d.eligible && Score(d, q.text, q.words, q.language) > 0 && d.intent != other
    ensures |Ahead(Crowd(d, n, other), q, n)| == n
  {
    var ids := seq(n, i => i);
    CrowdRanks(d, q, n, other);
    PrefixSet(ids, n);
    forall j ensures j in (set k | 0 <= k < n :: ids[k]) <==> j in Ahead(Crowd(d, n, other), q, n) {
      if 0 <= j < n { assert ids[j] == j; }
    }
    assert (set k | 0 <= k < n :: ids[k]) == Ahead(Crowd(d, n, other), q, n);
  }

  /** Any document can be lost: behind as many documents of another intent as the search is cut to, it is the best of
      its intent, and nothing is found. */
  lemma AnswerLost(d: Document, q: Query, maxDocs: nat, other: string)
    requires d.eligible && Score(d, q.text, q.words, q.language) > 0 && d.intent != other && maxDocs > 0
    ensures var n: nat := Limit(Some(d.intent), maxDocs);
            && Best(Crowd(d, n, other), q, Some(d.intent), n)
            && Documents(Crowd(d, n, other), q, Some(d.intent), maxDocs) == []
  {
    var n: nat := Limit(Some(d.intent), maxDocs);
    var docs := Crowd(d, n, other);
    CrowdRanks(d, q, n, other);
    CrowdCounts(d, q, n, other);
    RetrievalIff(docs, q, Some(d.intent), maxDocs);
    forall b: nat | Best(docs, q, Some(d.intent), b) ensures b == n { BestUnique(docs, q, Some(d.intent), b, n); }
  }

  /** Such a document exists: a title that is the question scores. */
  lemma SomethingScores(text: string, intent: string, language: string)
    requires text != ""
    ensures Score(Document(0, text, "", [], [], "", 0, intent, true), text, [], language) > 0
  {
    OccursInItself(text);
  }
}
