/**
 * A term lookup that loads whole entities and keeps one fingerprint per
 * entity id for the lifetime of the lookup object.
 */
module EntityRetrievingTermLookups {
  import opened Basics
  import opened Terms

  /** What the entity lookup can return for an id: an entity with terms, or one without. */
  datatype Entity = FingerprintProvider(fingerprint: Fingerprint) | OtherEntity

  datatype TermLookupException = TermLookupException(entityId: EntityId, languages: seq<LanguageCode>, message: string)

  const EntityNotLoaded := "The entity could not be loaded"

  /**
   * `fetchFingerprint`: the entity lookup is a map (a missing id is the
   * lookup returning null); the languages only go into the exception.
   */
  function FetchFingerprint(entities: map<EntityId, Entity>, id: EntityId, languages: seq<LanguageCode>)
    : (r: Result<Fingerprint, TermLookupException>)
    ensures r.Failure? <==> id !in entities
    ensures r.Failure? ==> r.error == TermLookupException(id, languages, EntityNotLoaded)
    ensures r.Success? && entities[id].OtherEntity? ==> r.value == EmptyFingerprint
    ensures r.Success? && entities[id].FingerprintProvider? ==> r.value == entities[id].fingerprint
  {
    if id !in entities then Failure(TermLookupException(id, languages, EntityNotLoaded))
    else if entities[id].FingerprintProvider? then Success(entities[id].fingerprint)
    else Success(EmptyFingerprint)
  }

  /** `getByLanguage(...)->getText()`, with the out-of-bounds case as None (null). */
  function TermOf(terms: map<LanguageCode, string>, language: LanguageCode): (r: Option<string>)
    ensures r.Some? <==> language in terms
    ensures r.Some? ==> r.value == terms[language]
  {
    if language in terms then Some(terms[language]) else None
  }

  /** `array_intersect_key($terms, array_flip($languages))`. */
  function TermsIn(terms: map<LanguageCode, string>, languages: seq<LanguageCode>): (r: map<LanguageCode, string>)
    ensures forall l :: l in r <==> l in terms && l in languages
    ensures forall l :: l in r ==> r[l] == terms[l]
  {
    map l | l in terms && l in languages :: terms[l]
  }

  /** The single-language getter agrees with the multi-language getter on a one-language request. */
  lemma TermOfIsTermsInOne(terms: map<LanguageCode, string>, language: LanguageCode)
    ensures TermsIn(terms, [language]) == if TermOf(terms, language).Some? then map[language := terms[language]] else map[]
  {
    if language in terms {
      assert TermsIn(terms, [language]).Keys == {language};
    } else {
      assert TermsIn(terms, [language]).Keys == {};
    }
  }

  /** Requesting languages in another order, or repeated, gives the same terms. */
  lemma TermsInDependsOnLanguageSet(terms: map<LanguageCode, string>, a: seq<LanguageCode>, b: seq<LanguageCode>)
    requires forall l :: l in a <==> l in b
    ensures TermsIn(terms, a) == TermsIn(terms, b)
  {
  }

  /** An entity with no fingerprint has no label and no description in any language. */
  lemma NoFingerprintNoTerms(entities: map<EntityId, Entity>, id: EntityId, languages: seq<LanguageCode>)
    requires id in entities && entities[id].OtherEntity?
    ensures forall l :: TermOf(FetchFingerprint(entities, id, languages).value.labels, l) == None
    ensures forall l :: TermOf(FetchFingerprint(entities, id, languages).value.descriptions, l) == None
    ensures TermsIn(FetchFingerprint(entities, id, languages).value.labels, languages) == map[]
    ensures TermsIn(FetchFingerprint(entities, id, languages).value.descriptions, languages) == map[]
  {
  }

  function MapResult<A, B>(r: Result<A, TermLookupException>, f: A -> B): (m: Result<B, TermLookupException>)
    ensures m.Failure? <==> r.Failure?
    ensures m.Failure? ==> m.error == r.error
    ensures m.Success? ==> m.value == f(r.value)
  {
    match r
    case Success(v) => Success(f(v))
    case Failure(e) => Failure(e)
  }

  /**
   * One `getFingerprint` call on the cache for `id`: a cached id changes
   * nothing; otherwise the entity lookup is asked once and only a success
   * is kept.
   */
  ghost predicate CacheStep(cache: map<EntityId, Fingerprint>, log: seq<EntityId>,
                            cache': map<EntityId, Fingerprint>, log': seq<EntityId>,
                            id: EntityId, r: Result<Fingerprint, TermLookupException>)
  {
    if id in cache then cache' == cache && log' == log
    else log' == log + [id] && cache' == if r.Success? then cache[id := r.value] else cache
  }

  class EntityRetrievingTermLookup {
    const entities: map<EntityId, Entity>
    var fingerprints: map<EntityId, Fingerprint>
    /** Every id the entity lookup was asked for, in call order. */
    ghost var fetches: seq<EntityId>

    /**
     * The cache holds what the entity lookup returns, and every loadable
     * id was asked for once if it is cached and never if it is not.
     */
    ghost predicate Valid()
      reads this
    {
      (forall id :: id in fingerprints ==> id in entities && Success(fingerprints[id]) == FetchFingerprint(entities, id, [])) &&
      (forall id :: id in entities ==> multiset(fetches)[id] == if id in fingerprints then 1 else 0)
    }

    constructor (entityLookup: map<EntityId, Entity>)
      ensures Valid()
      ensures entities == entityLookup && fingerprints == map[] && fetches == []
    {
      entities := entityLookup;
      fingerprints := map[];
      fetches := [];
    }

    /** An entity that can be loaded is loaded at most once per lookup object. */
    lemma FetchedAtMostOnce(id: EntityId)
      requires Valid() && id in entities
      ensures multiset(fetches)[id] <= 1
    {
    }

    /** `getFingerprint`: the memo cache in front of `fetchFingerprint`. */
    method GetFingerprint(id: EntityId, languages: seq<LanguageCode>) returns (r: Result<Fingerprint, TermLookupException>)
      requires Valid()
      modifies this
      ensures Valid()
      ensures r == FetchFingerprint(entities, id, languages)
      ensures CacheStep(old(fingerprints), old(fetches), fingerprints, fetches, id, r)
    {
      if id !in fingerprints {
        fetches := fetches + [id];
        r := FetchFingerprint(entities, id, languages);
        if r.Failure? {
          return;
        }
        fingerprints := fingerprints[id := r.value];
      }
      r := Success(fingerprints[id]);
    }

    /** `getLabel`: the label in the language, or None (null) when there is none. */
    method GetLabel(id: EntityId, language: LanguageCode) returns (r: Result<Option<string>, TermLookupException>)
      requires Valid()
      modifies this
      ensures Valid()
      ensures r.Failure? <==> id !in entities
      ensures r.Failure? ==> r.error == TermLookupException(id, [language], EntityNotLoaded)
      ensures r.Success? ==> r.value == TermOf(FetchFingerprint(entities, id, [language]).value.labels, language)
      ensures CacheStep(old(fingerprints), old(fetches), fingerprints, fetches, id, FetchFingerprint(entities, id, [language]))
    {
      var fingerprint := GetFingerprint(id, [language]);
      r := MapResult(fingerprint, (f: Fingerprint) => TermOf(f.labels, language));
    }

    /** `getLabels`: the stored labels whose language was requested. */
    method GetLabels(id: EntityId, languages: seq<LanguageCode>) returns (r: Result<map<LanguageCode, string>, TermLookupException>)
      requires Valid()
      modifies this
      ensures Valid()
      ensures r.Failure? <==> id !in entities
      ensures r.Failure? ==> r.error == TermLookupException(id, languages, EntityNotLoaded)
      ensures r.Success? ==> r.value == TermsIn(FetchFingerprint(entities, id, languages).value.labels, languages)
      ensures CacheStep(old(fingerprints), old(fetches), fingerprints, fetches, id, FetchFingerprint(entities, id, languages))
    {
      var fingerprint := GetFingerprint(id, languages);
      r := MapResult(fingerprint, (f: Fingerprint) => TermsIn(f.labels, languages));
    }

    /** `getDescription`: the description in the language, or None (null) when there is none. */
    method GetDescription(id: EntityId, language: LanguageCode) returns (r: Result<Option<string>, TermLookupException>)
      requires Valid()
      modifies this
      ensures Valid()
      ensures r.Failure? <==> id !in entities
      ensures r.Failure? ==> r.error == TermLookupException(id, [language], EntityNotLoaded)
      ensures r.Success? ==> r.value == TermOf(FetchFingerprint(entities, id, [language]).value.descriptions, language)
      ensures CacheStep(old(fingerprints), old(fetches), fingerprints, fetches, id, FetchFingerprint(entities, id, [language]))
    {
      var fingerprint := GetFingerprint(id, [language]);
      r := MapResult(fingerprint, (f: Fingerprint) => TermOf(f.descriptions, language));
    }

    /** `getDescriptions`: the stored descriptions whose language was requested. */
    method GetDescriptions(id: EntityId, languages: seq<LanguageCode>) returns (r: Result<map<LanguageCode, string>, TermLookupException>)
      requires Valid()
      modifies this
      ensures Valid()
      ensures r.Failure? <==> id !in entities
      ensures r.Failure? ==> r.error == TermLookupException(id, languages, EntityNotLoaded)
      ensures r.Success? ==> r.value == TermsIn(FetchFingerprint(entities, id, languages).value.descriptions, languages)
      ensures CacheStep(old(fingerprints), old(fetches), fingerprints, fetches, id, FetchFingerprint(entities, id, languages))
    {
      var fingerprint := GetFingerprint(id, languages);
      r := MapResult(fingerprint, (f: Fingerprint) => TermsIn(f.descriptions, languages));
    }
  }

  /** Two lookups of the same entity load it once; the second is served from the cache. */
  method LabelThenDescription(entityLookup: map<EntityId, Entity>, id: EntityId, language: LanguageCode)
    returns (lookup: EntityRetrievingTermLookup,
             labelText: Result<Option<string>, TermLookupException>, descriptionText: Result<Option<string>, TermLookupException>)
    requires id in entityLookup
    ensures fresh(lookup) && lookup.fetches == [id] && lookup.fingerprints.Keys == {id}
    ensures labelText.Success? && descriptionText.Success?
    ensures labelText.value == TermOf(FetchFingerprint(entityLookup, id, []).value.labels, language)
    ensures descriptionText.value == TermOf(FetchFingerprint(entityLookup, id, []).value.descriptions, language)
  {
    lookup := new EntityRetrievingTermLookup(entityLookup);
    labelText := lookup.GetLabel(id, language);
    descriptionText := lookup.GetDescription(id, language);
  }
}
