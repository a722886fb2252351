/**
 * A property term store, and a lookup over it that prefetches terms for a
 * cross product of (entity, term type, language) into a buffer that later
 * single-term requests read.
 */
module PrefetchingTermLookups {
  import opened Basics
  import opened Terms

  datatype TermType = Label | Description | Alias

  /** A buffer slot: (entity, term type, language). */
  type TermKey = (EntityId, TermType, LanguageCode)

  /** What a prefetch leaves in a slot: the text, or the fact that there is none. */
  datatype BufferEntry = Buffered(text: string) | KnownAbsent

  /** `getPrefetchedTerm`'s three outcomes: the text, `false`, or `null`. */
  datatype PrefetchedTerm = Text(text: string) | PrefetchedAbsent | NotPrefetched

  /** The stored text of one term; for aliases, the first alias of the language. */
  function StoredTerm(terms: map<EntityId, Fingerprint>, key: TermKey): (r: Option<string>)
    ensures key.0 !in terms ==> r == None
    ensures key.0 in terms && key.1 == Label ==> r == if key.2 in terms[key.0].labels then Some(terms[key.0].labels[key.2]) else None
    ensures key.0 in terms && key.1 == Description ==> r == if key.2 in terms[key.0].descriptions then Some(terms[key.0].descriptions[key.2]) else None
  {
    var (id, termType, language) := key;
    if id !in terms then None
    else
      match termType
      case Label => if language in terms[id].labels then Some(terms[id].labels[language]) else None
      case Description => if language in terms[id].descriptions then Some(terms[id].descriptions[language]) else None
      case Alias =>
        if language in terms[id].aliases && terms[id].aliases[language] != [] then Some(terms[id].aliases[language][0]) else None
  }

  function EntryFor(terms: map<EntityId, Fingerprint>, key: TermKey): (e: BufferEntry)
    ensures e.Buffered? <==> StoredTerm(terms, key).Some?
    ensures e.Buffered? ==> e.text == StoredTerm(terms, key).value
  {
    match StoredTerm(terms, key)
    case Some(text) => Buffered(text)
    case None => KnownAbsent
  }

  /** The slots `prefetchTerms(ids, types, languages)` covers. */
  ghost function CrossProduct(ids: seq<EntityId>, types: seq<TermType>, languages: seq<LanguageCode>): (keys: set<TermKey>)
    ensures forall k :: k in keys <==> k.0 in ids && k.1 in types && k.2 in languages
  {
    set id, t, l | id in ids && t in types && l in languages :: (id, t, l)
  }

  /** The buffer after a prefetch: every covered slot filled from the store, every other slot as it was. */
  ghost function Prefetch(buffer: map<TermKey, BufferEntry>, terms: map<EntityId, Fingerprint>,
                          ids: seq<EntityId>, types: seq<TermType>, languages: seq<LanguageCode>): (b: map<TermKey, BufferEntry>)
    ensures b.Keys == buffer.Keys + CrossProduct(ids, types, languages)
    ensures forall k :: k in CrossProduct(ids, types, languages) ==> b[k] == EntryFor(terms, k)
    ensures forall k :: k in buffer && k !in CrossProduct(ids, types, languages) ==> b[k] == buffer[k]
  {
    var cross := CrossProduct(ids, types, languages);
    map k | k in buffer.Keys + cross :: if k in cross then EntryFor(terms, k) else buffer[k]
  }

  /** What `getPrefetchedTerm` answers from a buffer. */
  function Answer(buffer: map<TermKey, BufferEntry>, key: TermKey): (r: PrefetchedTerm)
    ensures r.NotPrefetched? <==> key !in buffer
    ensures r.PrefetchedAbsent? <==> key in buffer && buffer[key].KnownAbsent?
    ensures r.Text? ==> key in buffer && buffer[key] == Buffered(r.text)
  {
    if key !in buffer then NotPrefetched
    else match buffer[key]
      case Buffered(text) => Text(text)
      case KnownAbsent => PrefetchedAbsent
  }

  /**
   * After a prefetch, a covered slot answers the stored text, or `false`
   * when the store has none; an uncovered slot answers as before.
   */
  lemma PrefetchThenAnswer(buffer: map<TermKey, BufferEntry>, terms: map<EntityId, Fingerprint>,
                           ids: seq<EntityId>, types: seq<TermType>, languages: seq<LanguageCode>, key: TermKey)
    ensures key.0 in ids && key.1 in types && key.2 in languages ==>
              Answer(Prefetch(buffer, terms, ids, types, languages), key) ==
              match StoredTerm(terms, key) case Some(text) => Text(text) case None => PrefetchedAbsent
    ensures !(key.0 in ids && key.1 in types && key.2 in languages) ==>
              Answer(Prefetch(buffer, terms, ids, types, languages), key) == Answer(buffer, key)
  {
  }

  /** Prefetching the same terms twice leaves the buffer as one prefetch does. */
  lemma PrefetchIdempotent(buffer: map<TermKey, BufferEntry>, terms: map<EntityId, Fingerprint>,
                           ids: seq<EntityId>, types: seq<TermType>, languages: seq<LanguageCode>)
    ensures Prefetch(Prefetch(buffer, terms, ids, types, languages), terms, ids, types, languages) ==
            Prefetch(buffer, terms, ids, types, languages)
  {
  }

  /** Prefetching with no ids, no types or no languages changes nothing. */
  lemma PrefetchEmpty(buffer: map<TermKey, BufferEntry>, terms: map<EntityId, Fingerprint>,
                      ids: seq<EntityId>, types: seq<TermType>, languages: seq<LanguageCode>)
    requires ids == [] || types == [] || languages == []
    ensures Prefetch(buffer, terms, ids, types, languages) == buffer
  {
    assert CrossProduct(ids, types, languages) == {};
  }

  /** Storing a fingerprint for one entity sets its terms and leaves other entities' terms alone. */
  lemma StoreThenRead(terms: map<EntityId, Fingerprint>, id: EntityId, fingerprint: Fingerprint, key: TermKey)
    ensures key.0 == id ==> StoredTerm(terms[id := fingerprint], key) == StoredTerm(map[id := fingerprint], key)
    ensures key.0 != id ==> StoredTerm(terms[id := fingerprint], key) == StoredTerm(terms, key)
  {
  }

  /** The term store the lookup reads: the fingerprint stored per entity. */
  class TermStore {
    var terms: map<EntityId, Fingerprint>

    constructor ()
      ensures terms == map[]
    {
      terms := map[];
    }

    /** `storeTerms`: the entity's terms become those of the fingerprint. */
    method StoreTerms(id: EntityId, fingerprint: Fingerprint)
      modifies this
      ensures terms == old(terms)[id := fingerprint]
    {
      terms := terms[id := fingerprint];
    }
  }

  class PrefetchingTermLookup {
    const store: TermStore
    var buffer: map<TermKey, BufferEntry>

    constructor (termStore: TermStore)
      ensures store == termStore && buffer == map[]
    {
      store := termStore;
      buffer := map[];
    }

    /** `prefetchTerms`: fills every slot of the cross product from the store. */
    method PrefetchTerms(ids: seq<EntityId>, types: seq<TermType>, languages: seq<LanguageCode>)
      modifies this
      ensures buffer == Prefetch(old(buffer), store.terms, ids, types, languages)
    {
      buffer := map k | k in buffer.Keys + (set id, t, l | id in ids && t in types && l in languages :: (id, t, l)) ::
                  if k.0 in ids && k.1 in types && k.2 in languages then EntryFor(store.terms, k) else buffer[k];
    }

    /** `getPrefetchedTerm`: the buffered text, `false` (absent) or `null` (not prefetched). */
    method GetPrefetchedTerm(id: EntityId, termType: TermType, language: LanguageCode) returns (r: PrefetchedTerm)
      ensures r == Answer(buffer, (id, termType, language))
    {
      var key := (id, termType, language);
      if key !in buffer {
        return NotPrefetched;
      }
      r := if buffer[key].Buffered? then Text(buffer[key].text) else PrefetchedAbsent;
    }

    /** `getLabel`: the stored label of the language, or None (null). */
    method GetLabel(id: EntityId, language: LanguageCode) returns (r: Option<string>)
      ensures r == StoredTerm(store.terms, (id, Label, language))
    {
      r := StoredTerm(store.terms, (id, Label, language));
    }

    /** `getDescription`: the stored description of the language, or None (null). */
    method GetDescription(id: EntityId, language: LanguageCode) returns (r: Option<string>)
      ensures r == StoredTerm(store.terms, (id, Description, language))
    {
      r := StoredTerm(store.terms, (id, Description, language));
    }
  }

  /** A store holding P1 and P2 with one English label, description and alias each. */
  method ExampleStore() returns (store: TermStore)
    ensures fresh(store)
    ensures store.terms == map[
      "P1" := Fingerprint(map["en" := "property one"], map["en" := "the first property"], map["en" := ["P1"]]),
      "P2" := Fingerprint(map["en" := "property two"], map["en" := "the second property"], map["en" := ["P2"]])]
  {
    store := new TermStore();
    store.StoreTerms("P1", Fingerprint(map["en" := "property one"], map["en" := "the first property"], map["en" := ["P1"]]));
    store.StoreTerms("P2", Fingerprint(map["en" := "property two"], map["en" := "the second property"], map["en" := ["P2"]]));
  }

  /** Stored terms read back through the lookup. */
  method ExampleGetLabelAndDescription() returns (label1: Option<string>, label2: Option<string>,
                                                  description1: Option<string>, description2: Option<string>)
    ensures label1 == Some("property one") && label2 == Some("property two")
    ensures description1 == Some("the first property") && description2 == Some("the second property")
  {
    var store := ExampleStore();
    var lookup := new PrefetchingTermLookup(store);
    label1 := lookup.GetLabel("P1", "en");
    label2 := lookup.GetLabel("P2", "en");
    description1 := lookup.GetDescription("P1", "en");
    description2 := lookup.GetDescription("P2", "en");
  }

  /** Label, description and alias slots read back after a prefetch of all three types. */
  method ExamplePrefetch() returns (label1: PrefetchedTerm, description2: PrefetchedTerm, alias1: PrefetchedTerm)
    ensures label1 == Text("property one") && description2 == Text("the second property") && alias1 == Text("P1")
  {
    var store := ExampleStore();
    var lookup := new PrefetchingTermLookup(store);
    var ids, types, languages := ["P1", "P2"], [Label, Description, Alias], ["en"];
    lookup.PrefetchTerms(ids, types, languages);
    assert "P1" in ids && "P2" in ids && Label in types && Description in types && Alias in types && "en" in languages;
    PrefetchThenAnswer(map[], store.terms, ids, types, languages, ("P1", Label, "en"));
    PrefetchThenAnswer(map[], store.terms, ids, types, languages, ("P2", Description, "en"));
    PrefetchThenAnswer(map[], store.terms, ids, types, languages, ("P1", Alias, "en"));
    label1 := lookup.GetPrefetchedTerm("P1", Label, "en");
    description2 := lookup.GetPrefetchedTerm("P2", Description, "en");
    alias1 := lookup.GetPrefetchedTerm("P1", Alias, "en");
  }

  /** A slot that was never prefetched answers `null`. */
  method ExampleNotPrefetched() returns (r: PrefetchedTerm)
    ensures r == NotPrefetched
  {
    var store := ExampleStore();
    var lookup := new PrefetchingTermLookup(store);
    r := lookup.GetPrefetchedTerm("P1", Label, "en");
  }

  /** A prefetched slot the store has no term for answers `false`. */
  method ExampleDoesNotExist() returns (r: PrefetchedTerm)
    ensures r == PrefetchedAbsent
  {
    var store := ExampleStore();
    var lookup := new PrefetchingTermLookup(store);
    var ids, types, languages := ["P1", "P2"], [Label], ["en", "de"];
    lookup.PrefetchTerms(ids, types, languages);
    assert "P1" in ids && Label in types && "de" in languages;
    assert "de" !in store.terms["P1"].labels;
    PrefetchThenAnswer(map[], store.terms, ids, types, languages, ("P1", Label, "de"));
    r := lookup.GetPrefetchedTerm("P1", Label, "de");
  }
}
