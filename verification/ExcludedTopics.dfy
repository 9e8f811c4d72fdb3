/** The excluded-topic evaluator and the final publication veto: a classifier's
    answer is normalised, and everything that is not a complete, well-formed and
    harmless answer is turned into a refusal. */
module ExcludedTopics {
  import opened Lists
  import opened Wrappers

  datatype Relation = MainSubject | Incidental | Unrelated | Uncertain

  /** One assessment as the classifier returned it. A field that is not a string is None. */
  datatype RawAssessment = RawAssessment(topicCode: Option<string>, relation: Option<string>)

  datatype Assessment = Assessment(topicCode: string, relation: Relation)

  /** What the classifier call did. `Answered(None)` is an answer without an assessment array. */
  datatype ClassifierReply =
    | NoClassifier
    | Threw
    | Answered(assessments: Option<seq<RawAssessment>>)

  datatype Decision =
    | Allow
    | Block(classification: Classification, topicCode: string)

  datatype Classification = ClassifierError | Assessed(relation: Relation)

  function CanonicalCode(raw: Option<string>, canonical: string -> string): string {
    match raw
    case None => ""
    case Some(text) => canonical(text)
  }

  function ParseRelation(text: string): Option<Relation> {
    if text == "main_subject" then Some(MainSubject)
    else if text == "incidental" then Some(Incidental)
    else if text == "unrelated" then Some(Unrelated)
    else if text == "uncertain" then Some(Uncertain)
    else None
  }

  function CanonicalCodes(raws: seq<RawAssessment>, canonical: string -> string): (codes: seq<string>)
    ensures |codes| == |raws|
    ensures forall i :: 0 <= i < |raws| ==> codes[i] == CanonicalCode(raws[i].topicCode, canonical)
  {
    seq(|raws|, i requires 0 <= i < |raws| => CanonicalCode(raws[i].topicCode, canonical))
  }

  predicate RelationKnown(raw: RawAssessment, canonical: string -> string) {
    raw.relation.Some? && ParseRelation(canonical(raw.relation.value)).Some?
  }

  predicate StructurallyValid(raws: seq<RawAssessment>, topicCodes: seq<string>, canonical: string -> string) {
    var codes := CanonicalCodes(raws, canonical);
    && |raws| == |topicCodes|
    && Distinct(codes)
    && (forall i :: 0 <= i < |codes| ==> codes[i] in topicCodes)
    && (forall i :: 0 <= i < |topicCodes| ==> topicCodes[i] in codes)
    && (forall i :: 0 <= i < |raws| ==> RelationKnown(raws[i], canonical))
  }

  function FindCode(codes: seq<string>, code: string): (i: nat)
    requires code in codes
    ensures i < |codes| && codes[i] == code
    ensures forall j :: 0 <= j < i ==> codes[j] != code
  {
    if codes[0] == code then 0 else 1 + FindCode(codes[1..], code)
  }

  function AllUncertain(topicCodes: seq<string>): (r: seq<Assessment>)
    ensures |r| == |topicCodes|
  {
    seq(|topicCodes|, i requires 0 <= i < |topicCodes| => Assessment(topicCodes[i], Uncertain))
  }

  function NormalizeAssessments(value: Option<seq<RawAssessment>>, topicCodes: seq<string>,
                                canonical: string -> string): (r: seq<Assessment>)
    ensures |r| == |topicCodes|
    ensures forall i :: 0 <= i < |r| ==> r[i].topicCode == topicCodes[i]
  {
    if value.None? || !StructurallyValid(value.value, topicCodes, canonical) then
      AllUncertain(topicCodes)
    else
      var raws := value.value;
      var codes := CanonicalCodes(raws, canonical);
      seq(|topicCodes|, i requires 0 <= i < |topicCodes| =>
        assert topicCodes[i] in codes;
        var raw := raws[FindCode(codes, topicCodes[i])];
        assert RelationKnown(raw, canonical);
        Assessment(topicCodes[i], ParseRelation(canonical(raw.relation.value)).value))
  }

  function EvaluateExcludedTopics(topicCodes: seq<string>, reply: ClassifierReply,
                                  canonical: string -> string): (r: seq<Assessment>)
    ensures |r| == |topicCodes|
    ensures forall i :: 0 <= i < |r| ==> r[i].topicCode == topicCodes[i]
  {
    if topicCodes == [] then []
    else match reply
      case NoClassifier => AllUncertain(topicCodes)
      case Threw => AllUncertain(topicCodes)
      case Answered(value) => NormalizeAssessments(value, topicCodes, canonical)
  }

  predicate Refuses(relation: Relation) {
    relation.MainSubject? || relation.Uncertain?
  }

  /** The first refusing assessment, as `Array.prototype.find` returns it. */
  function FindRefusal(assessments: seq<Assessment>): (r: Option<Assessment>)
    ensures r.None? <==> forall i :: 0 <= i < |assessments| ==> !Refuses(assessments[i].relation)
    ensures r.Some? ==> r.value in assessments && Refuses(r.value.relation)
    ensures r.Some? ==> exists k :: 0 <= k < |assessments| && assessments[k] == r.value
                          && forall j :: 0 <= j < k ==> !Refuses(assessments[j].relation)
  {
    if assessments == [] then None
    else if Refuses(assessments[0].relation) then Some(assessments[0])
    else
      var rest := FindRefusal(assessments[1..]);
      assert rest.Some? ==> exists k :: 0 <= k < |assessments| && assessments[k] == rest.value
                              && forall j :: 0 <= j < k ==> !Refuses(assessments[j].relation) by {
        if rest.Some? {
          var k :| 0 <= k < |assessments[1..]| && assessments[1..][k] == rest.value
                   && forall j :: 0 <= j < k ==> !Refuses(assessments[1..][j].relation);
          assert assessments[k + 1] == rest.value;
          assert forall j :: 1 <= j < k + 1 ==> assessments[j] == assessments[1..][j - 1];
        }
      }
      rest
  }

  /** The veto taken immediately before a publication claim. */
  function FinalPolicy(topicCodes: seq<string>, reply: ClassifierReply, canonical: string -> string): Decision {
    if topicCodes == [] then Allow
    else if !reply.Answered? then Block(ClassifierError, topicCodes[0])
    else match FindRefusal(EvaluateExcludedTopics(topicCodes, reply, canonical))
      case None => Allow
      case Some(refusal) => Block(Assessed(refusal.relation), refusal.topicCode)
  }

  /** An answer that clears the article: it assesses exactly the requested topics, each once,
      and finds each of them incidental or absent. */
  ghost predicate Clears(reply: ClassifierReply, topicCodes: seq<string>, canonical: string -> string) {
    && reply.Answered?
    && reply.assessments.Some?
    && var raws := reply.assessments.value;
       && multiset(CanonicalCodes(raws, canonical)) == multiset(topicCodes)
       && forall i :: 0 <= i < |raws| ==>
            && raws[i].relation.Some?
            && canonical(raws[i].relation.value) in {"incidental", "unrelated"}
  }

  lemma {:induction false} RepeatCount<T>(xs: seq<T>, i: nat, j: nat)
    requires i < j < |xs| && xs[i] == xs[j]
    ensures multiset(xs)[xs[i]] >= 2
  {
    assert xs == xs[..j] + xs[j..];
    assert xs[i] in xs[..j] by { assert xs[..j][i] == xs[i]; }
    assert xs[j] in xs[j..] by { assert xs[j..][0] == xs[j]; }
  }

  /** The four structural checks of the code say exactly that the codes are a rearrangement of the topics. */
  lemma SameCodesIffRearranged(codes: seq<string>, topicCodes: seq<string>)
    requires Distinct(topicCodes)
    ensures (&& |codes| == |topicCodes|
             && Distinct(codes)
             && (forall i :: 0 <= i < |codes| ==> codes[i] in topicCodes)
             && (forall i :: 0 <= i < |topicCodes| ==> topicCodes[i] in codes))
       <==> multiset(codes) == multiset(topicCodes)
  {
    if multiset(codes) == multiset(topicCodes) {
      assert |multiset(codes)| == |codes| && |multiset(topicCodes)| == |topicCodes|;
      forall i | 0 <= i < |codes| ensures codes[i] in topicCodes {
        assert codes[i] in multiset(codes);
      }
      forall i | 0 <= i < |topicCodes| ensures topicCodes[i] in codes {
        assert topicCodes[i] in multiset(topicCodes);
      }
      forall i, j | 0 <= i < j < |codes| ensures codes[i] != codes[j] {
        if codes[i] == codes[j] {
          RepeatCount(codes, i, j);
          DistinctCount(topicCodes, codes[i]);
        }
      }
    }
    if Distinct(codes)
      && (forall i :: 0 <= i < |codes| ==> codes[i] in topicCodes)
      && (forall i :: 0 <= i < |topicCodes| ==> topicCodes[i] in codes) {
      forall code ensures multiset(codes)[code] == multiset(topicCodes)[code] {
        DistinctCount(codes, code);
        DistinctCount(topicCodes, code);
      }
      assert multiset(codes) == multiset(topicCodes);
    }
  }

  /** A structurally valid answer clears the topics exactly when no normalised relation refuses. */
  lemma ValidAnswerClearsIffNothingRefuses(raws: seq<RawAssessment>, topicCodes: seq<string>,
                                           canonical: string -> string)
    requires Distinct(topicCodes) && StructurallyValid(raws, topicCodes, canonical)
    ensures (forall a :: a in NormalizeAssessments(Some(raws), topicCodes, canonical) ==> !Refuses(a.relation))
       <==> (forall i :: 0 <= i < |raws| ==> canonical(raws[i].relation.value) in {"incidental", "unrelated"})
  {
    var codes := CanonicalCodes(raws, canonical);
    var result := NormalizeAssessments(Some(raws), topicCodes, canonical);
    forall i | 0 <= i < |topicCodes|
      ensures topicCodes[i] in codes
      ensures var k := FindCode(codes, topicCodes[i]);
              Refuses(result[i].relation) <==> canonical(raws[k].relation.value) !in {"incidental", "unrelated"}
    {
      assert topicCodes[i] in codes;
      assert RelationKnown(raws[FindCode(codes, topicCodes[i])], canonical);
    }
    forall k | 0 <= k < |raws| ensures k == FindCode(codes, topicCodes[FindCode(topicCodes, codes[k])]) {
      assert codes[k] in topicCodes;
    }
  }

  /** Fail-closed: the veto lets an article through exactly when no topic is excluded or the
      classifier answered and its answer clears every excluded topic. */
  lemma VetoIsFailClosed(topicCodes: seq<string>, reply: ClassifierReply, canonical: string -> string)
    requires Distinct(topicCodes)
    ensures FinalPolicy(topicCodes, reply, canonical).Allow?
       <==> topicCodes == [] || Clears(reply, topicCodes, canonical)
  {
    if topicCodes != [] && reply.Answered? && reply.assessments.Some? {
      var raws := reply.assessments.value;
      if StructurallyValid(raws, topicCodes, canonical) {
        ValidAnswerClears(raws, topicCodes, canonical);
      } else {
        assert AllUncertain(topicCodes)[0] == Assessment(topicCodes[0], Uncertain);
        InvalidAnswerDoesNotClear(raws, topicCodes, canonical);
        hide StructurallyValid, Clears;
      }
    }
  }

  lemma ValidAnswerClears(raws: seq<RawAssessment>, topicCodes: seq<string>, canonical: string -> string)
    requires Distinct(topicCodes) && StructurallyValid(raws, topicCodes, canonical) && topicCodes != []
    ensures FinalPolicy(topicCodes, Answered(Some(raws)), canonical).Allow? <==> Clears(Answered(Some(raws)), topicCodes, canonical)
  {
    SameCodesIffRearranged(CanonicalCodes(raws, canonical), topicCodes);
    ValidAnswerClearsIffNothingRefuses(raws, topicCodes, canonical);
    hide NormalizeAssessments;
  }

  lemma InvalidAnswerDoesNotClear(raws: seq<RawAssessment>, topicCodes: seq<string>, canonical: string -> string)
    requires Distinct(topicCodes) && !StructurallyValid(raws, topicCodes, canonical)
    ensures !Clears(Answered(Some(raws)), topicCodes, canonical)
  {
    SameCodesIffRearranged(CanonicalCodes(raws, canonical), topicCodes);
    if exists i :: 0 <= i < |raws| && !RelationKnown(raws[i], canonical) {
      var i :| 0 <= i < |raws| && !RelationKnown(raws[i], canonical);
    } else {
      assert multiset(CanonicalCodes(raws, canonical)) != multiset(topicCodes);
    }
  }

  /** A refusal always names one of the excluded topics, and what it records is why: a topic found
      to be the main subject or uncertain, or a classifier that could not be asked. */
  lemma VetoNamesAnExcludedTopic(topicCodes: seq<string>, reply: ClassifierReply, canonical: string -> string)
    ensures var d := FinalPolicy(topicCodes, reply, canonical);
            d.Block? ==>
              && d.topicCode in topicCodes
              && (d.classification.ClassifierError? <==> !reply.Answered?)
              && (d.classification.Assessed? ==>
                    Assessment(d.topicCode, d.classification.relation)
                      in EvaluateExcludedTopics(topicCodes, reply, canonical))
  {
  }
}
