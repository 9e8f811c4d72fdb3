/** Whether a candidate repeats a story that was already published: local similarity, a shortlist and,
    for what remains doubtful, a semantic classifier that is trusted only when its answer is coherent. */
module StoryDeduplication {
  import opened EditorialSimilarity
  import opened Lists
  import opened Sorting
  import opened Wrappers

  /** A candidate or a published story: its title and context tokens and its fingerprint. */
  datatype Text = Text(title: seq<string>, context: seq<string>, fingerprint: string)

  datatype Story = Story(articleId: string, text: Text, publishedAt: int)

  datatype Similarity = Similarity(title: real, context: real, score: real)

  datatype Relation = Distinct | Duplicate | FollowUp | Uncertain

  datatype Semantic = SameStory | MeaningfulUpdate | Unrelated

  /** What the classifier call came back with, if there is a classifier. */
  datatype Reply = NoClassifier | CallFailed | Answered(relation: Semantic, matched: Option<string>, confidence: real)

  datatype Source = Deterministic | Fallback | Ai

  datatype Decision = Decision(relation: Relation, duplicateOf: Option<string>, confidence: real, source: Source,
                               classifierAttempted: bool)

  const MAX_SHORTLIST := 5
  const SHORTLIST_THRESHOLD := 0.12
  const CONTEXT_THRESHOLD := 0.65

  // ---- Similarity ----

  /** |left and right| / |left or right|, and 0 when either is empty. */
  function JaccardOf(left: set<string>, right: set<string>): real {
    if left == {} || right == {} then 0.0
    else |left * right| as real / (|left| + |right| - |left * right|) as real
  }

  lemma UnionSize(left: set<string>, right: set<string>)
    ensures |left| + |right| - |left * right| == |left + right|
  {
    assert left + right == left + (right - left);
    assert right == (right - left) + left * right;
  }

  lemma OneMoreToken(left: seq<string>, i: nat, right: set<string>)
    requires Lists.Distinct(left) && i < |left|
    ensures |TokenSet(left[..i + 1]) * right| == |TokenSet(left[..i]) * right| + (if left[i] in right then 1 else 0)
  {
    var before, token := TokenSet(left[..i]), left[i];
    assert token !in before;
    assert TokenSet(left[..i + 1]) == before + {token};
    assert (before + {token}) * right == before * right + (if token in right then {token} else {});
  }

  /** jaccard, on the tokens of the left set in some order. */
  method Jaccard(left: seq<string>, right: set<string>) returns (similarity: real)
    requires Lists.Distinct(left)
    ensures similarity == JaccardOf(TokenSet(left), right)
  {
    NonEmptyTokens(left);
    if left == [] || right == {} { return 0.0; }
    var intersection := 0;
    for i := 0 to |left|
      invariant intersection == |TokenSet(left[..i]) * right|
    {
      OneMoreToken(left, i, right);
      if left[i] in right { intersection := intersection + 1; }
    }
    assert left[..|left|] == left;
    DistinctSize(left);
    UnionSize(TokenSet(left), right);
    similarity := intersection as real / (|left| + |right| - intersection) as real;
  }

  lemma {:induction false} DistinctSize(tokens: seq<string>)
    requires Lists.Distinct(tokens)
    ensures |TokenSet(tokens)| == |tokens|
  {
    if tokens != [] {
      var rest := tokens[..|tokens| - 1];
      DistinctSize(rest);
      assert TokenSet(tokens) == TokenSet(rest) + {tokens[|tokens| - 1]};
    }
  }

  /** Symmetric, between 0 and 1, and 1 exactly for equal non-empty sets. */
  lemma JaccardIsASimilarity(left: set<string>, right: set<string>)
    ensures JaccardOf(left, right) == JaccardOf(right, left)
    ensures 0.0 <= JaccardOf(left, right) <= 1.0
    ensures JaccardOf(left, right) == 1.0 <==> left == right && left != {}
  {
    assert left * right == right * left;
    if left != {} && right != {} {
      UnionSize(left, right);
      SubsetSizes(left, right);
      FractionIsBounded(|left * right|, |left + right|);
      if left == right { assert left * right == left; }
    }
  }

  function SimilarityOf(a: Text, b: Text): Similarity {
    var title := JaccardOf(TokenSet(a.title), TokenSet(b.title));
    var context := JaccardOf(TokenSet(a.context), TokenSet(b.context));
    Similarity(Round4(title), Round4(context), Round4(0.72 * title + 0.28 * context))
  }

  // ---- The shortlist ----

  datatype Entry = Entry(story: Story, similarity: Similarity)

  predicate Closer(a: Entry, b: Entry) {
    if a.similarity.score != b.similarity.score then a.similarity.score > b.similarity.score
    else a.story.publishedAt > b.story.publishedAt
  }

  function CloserFirst(): (Entry, Entry) -> bool {
    (a: Entry, b: Entry) => Closer(a, b)
  }

  lemma CloserIsAnOrder()
    ensures IsOrder(CloserFirst())
  {
  }

  /** The stories that are similar enough, with their similarity. */
  function Similar(candidate: Text, stories: seq<Story>): seq<Entry> {
    if stories == [] then []
    else
      var last := stories[|stories| - 1];
      var entry := Entry(last, SimilarityOf(candidate, last.text));
      Similar(candidate, stories[..|stories| - 1]) + (if entry.similarity.score >= SHORTLIST_THRESHOLD then [entry] else [])
  }

  function Shortlist(candidate: Text, stories: seq<Story>): seq<Entry> {
    var sorted := StableSort(Similar(candidate, stories), CloserFirst());
    if |sorted| <= MAX_SHORTLIST then sorted else sorted[..MAX_SHORTLIST]
  }

  lemma {:induction false} SimilarIsExact(candidate: Text, stories: seq<Story>, entry: Entry)
    ensures entry in Similar(candidate, stories) <==>
      && entry.story in stories && entry.similarity == SimilarityOf(candidate, entry.story.text)
      && entry.similarity.score >= SHORTLIST_THRESHOLD
  {
    if stories != [] {
      SimilarIsExact(candidate, stories[..|stories| - 1], entry);
      assert stories == stories[..|stories| - 1] + [stories[|stories| - 1]];
    }
  }

  /** The shortlist holds the closest stories: at most five, closest first, all of them similar
      enough, and a similar story that is left out is no closer than any that is listed. */
  lemma ShortlistHoldsTheClosest(candidate: Text, stories: seq<Story>)
    ensures var shortlist := Shortlist(candidate, stories);
            && |shortlist| <= MAX_SHORTLIST
            && Sorted(shortlist, CloserFirst())
            && (forall e :: e in shortlist ==> e.story in stories && e.similarity.score >= SHORTLIST_THRESHOLD)
            && (forall e :: e in Similar(candidate, stories) && e !in shortlist ==>
                  |shortlist| == MAX_SHORTLIST && forall k :: 0 <= k < |shortlist| ==> !Closer(e, shortlist[k]))
  {
    hide StableSort, Similar, SimilarityOf, Closer;
    var similar := Similar(candidate, stories);
    var sorted := StableSort(similar, CloserFirst());
    CloserIsAnOrder();
    SortIsSorted(similar, CloserFirst());
    var shortlist := Shortlist(candidate, stories);
    forall e | e in shortlist ensures e.story in stories && e.similarity.score >= SHORTLIST_THRESHOLD {
      assert e in sorted && e in multiset(sorted) && e in similar;
      SimilarIsExact(candidate, stories, e);
    }
    forall e | e in similar && e !in shortlist
      ensures |shortlist| == MAX_SHORTLIST && forall k :: 0 <= k < |shortlist| ==> !Closer(e, shortlist[k])
    {
      assert e in multiset(sorted);
      var i :| 0 <= i < |sorted| && sorted[i] == e;
      assert |sorted| > MAX_SHORTLIST && i >= MAX_SHORTLIST;
      assert forall k :: 0 <= k < |shortlist| ==> !CloserFirst()(sorted[i], sorted[k]);
    }
  }

  // ---- The decision ----

  /** The first listed story with the same fingerprint and a close context. */
  function DeterministicMatch(candidate: Text, shortlist: seq<Entry>): Option<Entry> {
    if shortlist == [] then None
    else if shortlist[0].story.text.fingerprint == candidate.fingerprint && shortlist[0].similarity.context >= CONTEXT_THRESHOLD
      then Some(shortlist[0])
    else DeterministicMatch(candidate, shortlist[1..])
  }

  predicate IsListed(shortlist: seq<Entry>, articleId: Option<string>) {
    articleId.Some? && exists k :: 0 <= k < |shortlist| && shortlist[k].story.articleId == articleId.value
  }

  function Confidence(value: real): real {
    Round4(if value < 0.0 then 0.0 else if value > 1.0 then 1.0 else value)
  }

  /** evaluateStoryDuplicate. */
  function Evaluate(candidate: Text, stories: seq<Story>, reply: Reply): Decision {
    if stories == [] then Decision(Distinct, None, Confidence(1.0), Deterministic, false)
    else
      var shortlist := Shortlist(candidate, stories);
      match DeterministicMatch(candidate, shortlist)
      case Some(entry) => Decision(Duplicate, Some(entry.story.articleId), Confidence(1.0), Deterministic, false)
      case None =>
        if shortlist == [] then Decision(Distinct, None, Confidence(1.0), Deterministic, false)
        else
          var doubtful := Confidence(shortlist[0].similarity.score);
          match reply
          case NoClassifier => Decision(Uncertain, None, doubtful, Fallback, false)
          case CallFailed => Decision(Uncertain, None, doubtful, Fallback, true)
          case Answered(relation, matched, confidence) =>
            if !relation.Unrelated? && !IsListed(shortlist, matched) then Decision(Uncertain, None, doubtful, Fallback, true)
            else if relation.Unrelated? && matched.Some? then Decision(Uncertain, None, doubtful, Fallback, true)
            else
              Decision(match relation case SameStory => Duplicate case MeaningfulUpdate => FollowUp case Unrelated => Distinct,
                       if relation.Unrelated? then None else matched, Confidence(confidence), Ai, true)
  }

  predicate LetsThrough(decision: Decision) {
    decision.relation.Distinct? || decision.relation.FollowUp?
  }

  /** No published story is similar enough to be compared with. */
  predicate NothingSimilar(candidate: Text, stories: seq<Story>) {
    forall k :: 0 <= k < |stories| ==> SimilarityOf(candidate, stories[k].text).score < SHORTLIST_THRESHOLD
  }

  /** A classifier's answer that makes sense: unrelated to everything, or an update of a listed story. */
  predicate CoherentPass(reply: Reply, shortlist: seq<Entry>) {
    && reply.Answered?
    && ((reply.relation.Unrelated? && reply.matched.None?)
        || (reply.relation.MeaningfulUpdate? && IsListed(shortlist, reply.matched)))
  }

  lemma EmptyShortlist(candidate: Text, stories: seq<Story>)
    ensures Shortlist(candidate, stories) == [] <==> NothingSimilar(candidate, stories)
  {
    hide StableSort, Similar, SimilarityOf, Closer;
    var similar := Similar(candidate, stories);
    CloserIsAnOrder();
    SortIsSorted(similar, CloserFirst());
    assert |StableSort(similar, CloserFirst())| == |multiset(similar)| == |similar|;
    if NothingSimilar(candidate, stories) {
      if similar != [] { SimilarIsExact(candidate, stories, similar[0]); }
    } else {
      var k :| 0 <= k < |stories| && SimilarityOf(candidate, stories[k].text).score >= SHORTLIST_THRESHOLD;
      SimilarIsExact(candidate, stories, Entry(stories[k], SimilarityOf(candidate, stories[k].text)));
    }
  }

  /** Fail-closed: a candidate is let through exactly when nothing similar was published, or when it is
      no deterministic match and the classifier's answer is a coherent pass. */
  lemma DeduplicationIsFailClosed(candidate: Text, stories: seq<Story>, reply: Reply)
    ensures var shortlist := Shortlist(candidate, stories);
            LetsThrough(Evaluate(candidate, stories, reply)) <==>
              || NothingSimilar(candidate, stories)
              || (DeterministicMatch(candidate, shortlist).None? && CoherentPass(reply, shortlist))
  {
    hide SimilarityOf, Similar, StableSort, Shortlist, Confidence;
    EmptyShortlist(candidate, stories);
  }

  /** Whatever is called a duplicate or a follow-up is one of a listed story, and confidences lie
      between 0 and 1. */
  lemma DecisionsAreGrounded(candidate: Text, stories: seq<Story>, reply: Reply)
    ensures var d := Evaluate(candidate, stories, reply);
            && (d.relation.Duplicate? || d.relation.FollowUp? ==> IsListed(Shortlist(candidate, stories), d.duplicateOf))
            && (d.relation.Distinct? || d.relation.Uncertain? ==> d.duplicateOf.None?)
            && 0.0 <= d.confidence <= 1.0
            && (d.classifierAttempted ==> !reply.NoClassifier?)
  {
    forall x: real ensures 0.0 <= Confidence(x) <= 1.0 { ConfidenceIsBounded(x); }
    if stories != [] { MatchIsListed(candidate, Shortlist(candidate, stories)); }
  }

  /** A sensible confidence is only rounded. */
  lemma ConfidenceIsRounded(x: real)
    requires 0.0 <= x <= 1.0
    ensures -0.00005 <= Confidence(x) - x <= 0.00005
  {
    var steps := (x * 10000.0 + 0.5).Floor;
    assert Round4(x) * 10000.0 == steps as real;
  }

  lemma ConfidenceIsBounded(x: real)
    ensures 0.0 <= Confidence(x) <= 1.0
  {
    var held := if x < 0.0 then 0.0 else if x > 1.0 then 1.0 else x;
    RoundReaches(held, 0);
    RoundReaches(held, 10001);
    RoundIsAStep(held);
  }

  lemma {:induction false} MatchIsListed(candidate: Text, shortlist: seq<Entry>)
    ensures var m := DeterministicMatch(candidate, shortlist);
            m.Some? ==> IsListed(shortlist, Some(m.value.story.articleId))
  {
    if shortlist != [] {
      MatchIsListed(candidate, shortlist[1..]);
      var m := DeterministicMatch(candidate, shortlist[1..]);
      if m.Some? {
        var k :| 0 <= k < |shortlist[1..]| && shortlist[1..][k].story.articleId == m.value.story.articleId;
        assert shortlist[k + 1].story.articleId == m.value.story.articleId;
      }
    }
  }
}
