/** The evidence map of an enriched draft: every claim is matched to one entry, greedily, and every
    entry must quote the evidence it cites. */
module EvidenceMatching {
  import opened Lists
  import opened Wrappers

  datatype Claim = Claim(text: string, sourceUrl: string)

  datatype Entry = Entry(claim: string, sourceUrl: string, excerpt: string)

  datatype Evidence = Evidence(url: string, text: string)

  datatype Key = Key(claim: string, sourceUrl: string)

  datatype Problem = SchemaInvalid | NotCovering | NoMatch | UnsupportedSource | ExcerptMissing | StrayEntries

  const MAX_ENTRIES := 12

  function ClaimKey(normalize: string -> string): Claim -> Key {
    (claim: Claim) => Key(normalize(claim.text), claim.sourceUrl)
  }

  function EntryKey(normalize: string -> string): Entry -> Key {
    (entry: Entry) => Key(normalize(entry.claim), entry.sourceUrl)
  }

  predicate OccursAt(text: string, part: string, i: int) {
    0 <= i <= |text| - |part| && text[i..i + |part|] == part
  }

  predicate Contains(text: string, part: string) {
    exists i :: 0 <= i <= |text| - |part| && OccursAt(text, part, i)
  }

  lemma ContainsIsExact(text: string, part: string)
    ensures Contains(text, part) <==> exists before, after :: text == before + part + after
  {
    if Contains(text, part) {
      var i :| 0 <= i <= |text| - |part| && OccursAt(text, part, i);
      assert text == text[..i] + part + text[i + |part|..];
    }
    forall before, after | text == before + part + after ensures Contains(text, part) {
      assert OccursAt(text, part, |before|);
    }
  }

  /** The text for a URL; of several items for one URL the last one counts. */
  function TextFor(evidence: seq<Evidence>, url: string, normalize: string -> string): Option<string> {
    if evidence == [] then None
    else if evidence[|evidence| - 1].url == url then Some(normalize(evidence[|evidence| - 1].text))
    else TextFor(evidence[..|evidence| - 1], url, normalize)
  }

  /** The entry quotes non-empty evidence for the URL it cites. */
  predicate Supported(entry: Entry, evidence: seq<Evidence>, normalize: string -> string) {
    match TextFor(evidence, entry.sourceUrl, normalize)
    case None => false
    case Some(text) => text != "" && Contains(text, normalize(entry.excerpt))
  }

  /** What the map must be: the same claims, as often, for the same URLs, and every entry supported. */
  predicate Matches(claims: seq<Claim>, entries: seq<Entry>, evidence: seq<Evidence>, normalize: string -> string) {
    && 1 <= |entries| <= MAX_ENTRIES
    && multiset(EntryKeys(entries, normalize)) == multiset(ClaimKeys(claims, normalize))
    && forall i :: 0 <= i < |entries| ==> Supported(entries[i], evidence, normalize)
  }

  // ---- The greedy method ----

  /** findIndex on the entries that are still unmatched. */
  method FindEntry(unmatched: seq<Entry>, key: Key, normalize: string -> string) returns (index: Option<nat>)
    ensures index.None? <==> key !in EntryKeys(unmatched, normalize)
    ensures index.Some? ==> index.value < |unmatched| && EntryKey(normalize)(unmatched[index.value]) == key
  {
    for i := 0 to |unmatched|
      invariant forall j :: 0 <= j < i ==> EntryKeys(unmatched, normalize)[j] != key
    {
      if EntryKey(normalize)(unmatched[i]) == key {
        assert EntryKeys(unmatched, normalize)[i] == key;
        return Some(i);
      }
    }
    index := None;
  }

  function EntryKeys(entries: seq<Entry>, normalize: string -> string): seq<Key> {
    Map(EntryKey(normalize), entries)
  }

  function ClaimKeys(claims: seq<Claim>, normalize: string -> string): seq<Key> {
    Map(ClaimKey(normalize), claims)
  }

  /** The entries matched so far are supported, and they account for the claims seen so far. */
  ghost predicate Progress(keys: seq<Key>, entries: seq<Entry>, evidence: seq<Evidence>, normalize: string -> string,
                           seen: nat, unmatched: seq<Entry>)
    requires seen <= |keys|
  {
    && multiset(unmatched) <= multiset(entries)
    && multiset(EntryKeys(entries, normalize)) == multiset(EntryKeys(unmatched, normalize)) + multiset(keys[..seen])
    && forall entry :: entry in multiset(entries) - multiset(unmatched) ==> Supported(entry, evidence, normalize)
  }

  lemma MatchedEntryProgresses(keys: seq<Key>, entries: seq<Entry>, evidence: seq<Evidence>, normalize: string -> string,
                               seen: nat, unmatched: seq<Entry>, index: nat)
    requires seen < |keys| && index < |unmatched| && Progress(keys, entries, evidence, normalize, seen, unmatched)
    requires EntryKey(normalize)(unmatched[index]) == keys[seen]
    requires Supported(unmatched[index], evidence, normalize)
    ensures Progress(keys, entries, evidence, normalize, seen + 1, Without(unmatched, index))
  {
    hide Supported, EntryKeys, Without;
    WithoutSplits(unmatched, index);
    KeyRemoved(unmatched, index, normalize);
    assert keys[..seen + 1] == keys[..seen] + [keys[seen]];
    forall entry | entry in multiset(entries) - multiset(Without(unmatched, index)) ensures Supported(entry, evidence, normalize) {
      if entry != unmatched[index] { assert entry in multiset(entries) - multiset(unmatched); }
    }
  }

  lemma KeyRemoved(unmatched: seq<Entry>, index: nat, normalize: string -> string)
    requires index < |unmatched|
    ensures multiset(EntryKeys(unmatched, normalize))
         == multiset(EntryKeys(Without(unmatched, index), normalize)) + multiset{EntryKey(normalize)(unmatched[index])}
  {
    MapWithout(EntryKey(normalize), unmatched, index);
    WithoutSplits(EntryKeys(unmatched, normalize), index);
  }

  /** A claim without an entry of its own left means that the multisets differ. */
  lemma SurplusRefutes(all: seq<Key>, left: seq<Key>, keys: seq<Key>, seen: nat)
    requires seen < |keys| && multiset(all) == multiset(left) + multiset(keys[..seen])
    requires keys[seen] !in left
    ensures multiset(all) != multiset(keys)
  {
    assert keys == keys[..seen] + [keys[seen]] + keys[seen + 1..];
    assert multiset(keys)[keys[seen]] > multiset(keys[..seen])[keys[seen]];
    assert multiset(left)[keys[seen]] == 0;
  }

  /** validateEditorialEvidenceMap: the greedy pass accepts exactly the maps that match. */
  method ValidateEvidenceMap(claims: seq<Claim>, entries: seq<Entry>, evidence: seq<Evidence>, normalize: string -> string)
    returns (r: Result<seq<Entry>, Problem>)
    ensures r.Success? <==> Matches(claims, entries, evidence, normalize)
    ensures r.Success? ==> r.value == entries
  {
    hide Supported, EntryKeys;
    var keys := ClaimKeys(claims, normalize);
    KeyCounts(claims, entries, normalize);
    if !(1 <= |entries| <= MAX_ENTRIES) { return Failure(SchemaInvalid); }
    if |entries| != |claims| { return Failure(NotCovering); }
    var unmatched := entries;
    for seen := 0 to |claims|
      invariant Progress(keys, entries, evidence, normalize, seen, unmatched)
      invariant |unmatched| == |claims| - seen
    {
      var index := FindEntry(unmatched, keys[seen], normalize);
      if index.None? {
        SurplusRefutes(EntryKeys(entries, normalize), EntryKeys(unmatched, normalize), keys, seen);
        return Failure(NoMatch);
      }
      var problem := CheckEntry(unmatched[index.value], evidence, normalize);
      if problem.Some? {
        assert unmatched[index.value] in multiset(entries);
        return Failure(problem.value);
      }
      MatchedEntryProgresses(keys, entries, evidence, normalize, seen, unmatched, index.value);
      unmatched := Without(unmatched, index.value);
    }
    if unmatched != [] { return Failure(StrayEntries); }
    assert keys[..|claims|] == keys;
    EverythingMatched(claims, entries, evidence, normalize);
    r := Success(entries);
  }

  lemma KeyCounts(claims: seq<Claim>, entries: seq<Entry>, normalize: string -> string)
    ensures |multiset(EntryKeys(entries, normalize))| == |entries|
    ensures |multiset(ClaimKeys(claims, normalize))| == |claims|
  {
  }

  lemma EverythingMatched(claims: seq<Claim>, entries: seq<Entry>, evidence: seq<Evidence>, normalize: string -> string)
    requires 1 <= |entries| <= MAX_ENTRIES && Progress(ClaimKeys(claims, normalize), entries, evidence, normalize, |claims|, [])
    ensures Matches(claims, entries, evidence, normalize)
  {
    hide Supported;
    var keys := ClaimKeys(claims, normalize);
    assert keys[..|claims|] == keys;
    forall i | 0 <= i < |entries| ensures Supported(entries[i], evidence, normalize) {
      assert entries[i] in multiset(entries) - multiset([]);
    }
  }

  /** The two checks on the cited evidence. */
  method CheckEntry(entry: Entry, evidence: seq<Evidence>, normalize: string -> string) returns (problem: Option<Problem>)
    ensures problem.None? <==> Supported(entry, evidence, normalize)
  {
    var text := TextFor(evidence, entry.sourceUrl, normalize);
    if text.None? || text.value == "" { return Some(UnsupportedSource); }
    if !Contains(text.value, normalize(entry.excerpt)) { return Some(ExcerptMissing); }
    problem := None;
  }

  /** Neither the order of the claims nor that of the entries matters. */
  lemma OrderDoesNotMatter(claims: seq<Claim>, claims': seq<Claim>, entries: seq<Entry>, entries': seq<Entry>,
                           evidence: seq<Evidence>, normalize: string -> string)
    requires multiset(claims) == multiset(claims') && multiset(entries) == multiset(entries')
    ensures Matches(claims, entries, evidence, normalize) <==> Matches(claims', entries', evidence, normalize)
  {
    MapRearranged(ClaimKey(normalize), claims, claims');
    MapRearranged(EntryKey(normalize), entries, entries');
    assert |entries| == |multiset(entries)| == |multiset(entries')| == |entries'|;
    SupportDependsOnTheMultiset(entries, entries', evidence, normalize);
    hide Supported;
  }

  lemma SupportDependsOnTheMultiset(entries: seq<Entry>, entries': seq<Entry>, evidence: seq<Evidence>, normalize: string -> string)
    requires multiset(entries) == multiset(entries')
    ensures (forall i :: 0 <= i < |entries| ==> Supported(entries[i], evidence, normalize))
       <==> (forall i :: 0 <= i < |entries'| ==> Supported(entries'[i], evidence, normalize))
  {
    hide Supported;
    forall i | 0 <= i < |entries'| ensures entries'[i] in entries {
      assert entries'[i] in multiset(entries);
    }
    forall i | 0 <= i < |entries| ensures entries[i] in entries' {
      assert entries[i] in multiset(entries');
    }
  }
}
