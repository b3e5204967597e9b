/** MasterAgent._classify_intent (src/agents/master_agent.py): keyword scoring
    of the lower-cased query against the category table. */
module Classifier {
  import opened Text
  import opened Categories

  /** A category id, or "UNCLEAR". */
  datatype Classification = Unclear | Category(id: string)

  /** sum(1 for kw in keywords if kw in query): each listed keyword counts once,
      however often it occurs. */
  function Score(query: string, keywords: seq<string>): (n: nat)
    ensures n <= |keywords|
    ensures n == 0 <==> forall i :: 0 <= i < |keywords| ==> !Contains(query, keywords[i])
  {
    if keywords == [] then 0
    else (if Contains(query, keywords[0]) then 1 else 0) + Score(query, keywords[1..])
  }

  /** category_scores: one score per category, in configuration order; a
      category scores 0 exactly when none of its keywords occurs in the query,
      and at most the number of its keywords. */
  function Scores(queryLower: string): (s: seq<nat>)
    ensures |s| == |Table|
    ensures forall i :: 0 <= i < |s| ==> (s[i] == 0 <==> !ContainsAny(queryLower, Table[i].keywords))
    ensures forall i :: 0 <= i < |s| ==> s[i] <= |Table[i].keywords|
  {
    seq(|Table|, i requires 0 <= i < |Table| => Score(queryLower, AllKeywords()[i].1))
  }

  function BestFrom(xs: seq<nat>, i: nat, best: nat): nat
    requires best < |xs| && i <= |xs|
    decreases |xs| - i
  {
    if i == |xs| then best else BestFrom(xs, i + 1, if xs[i] > xs[best] then i else best)
  }

  /** max(keys, key=scores.get): the position of the first maximal score. */
  function FirstMaxIndex(xs: seq<nat>): nat
    requires |xs| > 0
  {
    BestFrom(xs, 1, 0)
  }

  lemma {:induction false} BestFromSpec(xs: seq<nat>, i: nat, best: nat)
    requires best < i <= |xs|
    requires forall j :: 0 <= j < i ==> xs[j] <= xs[best]
    requires forall j :: 0 <= j < best ==> xs[j] < xs[best]
    ensures var r := BestFrom(xs, i, best);
      && r < |xs|
      && (forall j :: 0 <= j < |xs| ==> xs[j] <= xs[r])
      && (forall j :: 0 <= j < r ==> xs[j] < xs[r])
    decreases |xs| - i
  {
    if i < |xs| {
      BestFromSpec(xs, i + 1, if xs[i] > xs[best] then i else best);
    }
  }

  /** The first maximal position holds a maximum, and every earlier score is
      strictly smaller: ties go to the earliest. */
  lemma FirstMaxIndexSpec(xs: seq<nat>)
    requires |xs| > 0
    ensures FirstMaxIndex(xs) < |xs|
    ensures forall j :: 0 <= j < |xs| ==> xs[j] <= xs[FirstMaxIndex(xs)]
    ensures forall j :: 0 <= j < FirstMaxIndex(xs) ==> xs[j] < xs[FirstMaxIndex(xs)]
  {
    BestFromSpec(xs, 1, 0);
  }

  /** _classify_intent as a function of the query: UNCLEAR exactly when no
      category has a keyword in the lower-cased query, and otherwise one of the
      configured ids. */
  function Classify(query: string): (r: Classification)
    ensures r.Unclear? <==> forall i :: 0 <= i < |Table| ==> !ContainsAny(Lower(query), Table[i].keywords)
    ensures r.Category? ==> r.id == FarmerId || r.id == MsmeId
  {
    var scores := Scores(Lower(query));
    FirstMaxIndexSpec(scores);
    var best := FirstMaxIndex(scores);
    if scores[best] > 0 then Category(CategoryIds()[best]) else Unclear
  }

  /** The classifier answers UNCLEAR exactly when no category scores; otherwise
      it answers the category with the highest score, and every category before
      it in configuration order scores strictly less. */
  lemma ClassifySpec(query: string)
    ensures var scores := Scores(Lower(query));
      && (Classify(query) == Unclear <==> forall i :: 0 <= i < |scores| ==> scores[i] == 0)
      && (Classify(query).Category? ==>
            exists k :: 0 <= k < |scores| && Classify(query).id == CategoryIds()[k] && scores[k] > 0
              && (forall j :: 0 <= j < |scores| ==> scores[j] <= scores[k])
              && (forall j :: 0 <= j < k ==> scores[j] < scores[k]))
  {
    var scores := Scores(Lower(query));
    FirstMaxIndexSpec(scores);
    var best := FirstMaxIndex(scores);
    if scores[best] > 0 {
      assert Classify(query) == Category(CategoryIds()[best]);
    }
  }

  /** A query that mentions keywords of one category and of no other is
      classified into that category. */
  lemma {:induction false} SingleCategoryWins(query: string, k: nat)
    requires k < |Table|
    requires exists i :: 0 <= i < |Table[k].keywords| && Contains(Lower(query), Table[k].keywords[i])
    requires forall c, i :: 0 <= c < |Table| && c != k && 0 <= i < |Table[c].keywords| ==>
               !Contains(Lower(query), Table[c].keywords[i])
    ensures Classify(query) == Category(CategoryIds()[k])
  {
    var scores := Scores(Lower(query));
    assert scores[k] > 0;
    assert forall c :: 0 <= c < |scores| && c != k ==> scores[c] == 0;
    ClassifySpec(query);
    var id := Classify(query).id;
    var k' :| 0 <= k' < |scores| && id == CategoryIds()[k'] && scores[k'] > 0;
    assert k' == k;
  }

  /** A query with no keyword of any category is UNCLEAR. */
  lemma NoKeywordIsUnclear(query: string)
    requires forall c, i :: 0 <= c < |Table| && 0 <= i < |Table[c].keywords| ==>
               !Contains(Lower(query), Table[c].keywords[i])
    ensures Classify(query) == Unclear
  {
    ClassifySpec(query);
  }

  /** Classification looks at the query only in lower case. */
  lemma ClassifyIgnoresCase(query: string)
    ensures Classify(Lower(query)) == Classify(query)
  {
    LowerIdempotent(query);
  }

  /** _classify_intent: the score loop over the categories, then the maximum and
      its first position. The history argument is accepted and not used. */
  method ClassifyIntent(query: string, history: string) returns (c: Classification)
    ensures c == Classify(query)
  {
    var queryLower := Lower(query);
    var keywordsByCategory := AllKeywords();
    var scores: seq<nat> := [];
    var i := 0;
    while i < |keywordsByCategory|
      invariant 0 <= i <= |keywordsByCategory|
      invariant |scores| == i
      invariant forall j :: 0 <= j < i ==> scores[j] == Score(queryLower, keywordsByCategory[j].1)
    {
      scores := scores + [Score(queryLower, keywordsByCategory[i].1)];
      i := i + 1;
    }
    assert scores == Scores(queryLower);
    FirstMaxIndexSpec(scores);
    var best := FirstMaxIndex(scores);
    if scores[best] > 0 {
      c := Category(keywordsByCategory[best].0);
    } else {
      c := Unclear;
    }
  }
}
