/**
 * The `wbsearchentities` API module: it asks the search helper for one
 * result more than the page needs, turns each result into an entry array,
 * cuts the requested page out of the entries and decides whether to offer a
 * continuation.
 */
module SearchEntities {
  import opened Basics
  import opened Collections
  import opened PhpArrays

  /** An entity id: its serialization, entity type and local part. */
  datatype EntityRef = EntityRef(serialization: string, entityType: string, localPart: string)

  datatype Term = Term(languageCode: string, text: string)

  /**
   * A ranked search hit. For the match type "entityId" the matched term is
   * not used.
   */
  datatype TermSearchResult = TermSearchResult(
    entityId: EntityRef,
    matchedTermType: string,
    matchedTerm: Term,
    displayLabel: Option<Term>,
    displayDescription: Option<Term>,
    metaData: Assoc<string, Value>)

  datatype Title = Title(prefixedText: string, articleId: int, fullUrl: string)

  datatype EntitySource = EntitySource(sourceName: string, conceptBaseUri: string)

  /** One entry of the `search` list: a PHP array with string keys. */
  type Entry = Assoc<string, Value>

  datatype BuildError =
    | LogicException(message: string)
    /** `$titles[...]` has no title for the id, so the title methods are called on null. */
    | MissingTitle(serialization: string)

  const EntityIdMatch := "entityId"

  /** `getRepositoryOrEntitySourceName`: the source name, or '' when the type has no source. */
  function RepositoryName(sources: map<string, EntitySource>, entityType: string): (name: string)
    ensures entityType !in sources ==> name == ""
    ensures entityType in sources ==> name == sources[entityType].sourceName
  {
    if entityType !in sources then "" else sources[entityType].sourceName
  }

  /** `getConceptBaseUri`: the source's concept base URI; a LogicException when the type has no source. */
  function ConceptBaseUri(sources: map<string, EntitySource>, entityType: string): (r: Result<string, BuildError>)
    ensures r.Failure? <==> entityType !in sources
    ensures r.Failure? ==> r.error == LogicException("No source defined for entity of type: " + entityType)
    ensures r.Success? ==> r.value == sources[entityType].conceptBaseUri
  {
    if entityType !in sources then Failure(LogicException("No source defined for entity of type: " + entityType))
    else Success(sources[entityType].conceptBaseUri)
  }

  /** Without a source the repository name silently falls back to '', while the concept URI fails. */
  lemma NoSourceFallback(sources: map<string, EntitySource>, entityType: string)
    requires entityType !in sources
    ensures RepositoryName(sources, entityType) == "" && ConceptBaseUri(sources, entityType).Failure?
  {
  }

  /** Whether `buildTermSearchMatchEntry` throws for a result, and which error it throws first. */
  function EntryError(m: TermSearchResult, titles: map<string, Title>, sources: map<string, EntitySource>): (e: Option<BuildError>)
    ensures e.None? <==> m.entityId.entityType in sources && m.entityId.serialization in titles
    ensures m.entityId.entityType !in sources ==> e == Some(ConceptBaseUri(sources, m.entityId.entityType).error)
    ensures m.entityId.entityType in sources && m.entityId.serialization !in titles ==>
              e == Some(MissingTitle(m.entityId.serialization))
  {
    if m.entityId.entityType !in sources then Some(ConceptBaseUri(sources, m.entityId.entityType).error)
    else if m.entityId.serialization !in titles then Some(MissingTitle(m.entityId.serialization))
    else None
  }

  /** The keys the entry builder writes before copying the metadata. */
  const BaseKeys := ["repository", "id", "concepturi", "title", "pageid", "url"]

  /** The keys the entry builder writes after copying the metadata. */
  predicate WrittenAfterMetaData(k: string)
  {
    k == "label" || k == "description" || k == "match" || k == "aliases"
  }

  /** The five base keys and `url`, where the metadata did not replace them. */
  ghost predicate BaseKeysKept(entry: Entry, m: TermSearchResult, title: Title, source: EntitySource,
                               props: Option<seq<string>>, urlencode: string -> string)
  {
    var md := m.metaData;
    (!HasKey(md, "repository") ==> Get(entry, "repository") == Some(Str(source.sourceName))) &&
    (!HasKey(md, "id") ==> Get(entry, "id") == Some(Str(m.entityId.serialization))) &&
    (!HasKey(md, "concepturi") ==> Get(entry, "concepturi") == Some(Str(source.conceptBaseUri + urlencode(m.entityId.localPart)))) &&
    (!HasKey(md, "title") ==> Get(entry, "title") == Some(Str(title.prefixedText))) &&
    (!HasKey(md, "pageid") ==> Get(entry, "pageid") == Some(Int(title.articleId))) &&
    HasKey(entry, "id") &&
    (!HasKey(md, "url") ==> Get(entry, "url") == if props.Some? && "url" in props.value then Some(Str(title.fullUrl)) else None)
  }

  /** A metadata key keeps its value unless a later write replaces it. */
  ghost predicate MetaDataKept(entry: Entry, m: TermSearchResult)
  {
    forall k :: HasKey(m.metaData, k) && k != "match" && k != "aliases" &&
                !(k == "label" && m.displayLabel.Some?) && !(k == "description" && m.displayDescription.Some?) ==>
                Get(entry, k) == Get(m.metaData, k)
  }

  /** `label` and `description` come from the display terms, when there are any. */
  ghost predicate DisplayTermsSet(entry: Entry, m: TermSearchResult)
  {
    Get(entry, "label") == (if m.displayLabel.Some? then Some(Str(m.displayLabel.value.text)) else Get(m.metaData, "label")) &&
    Get(entry, "description") == (if m.displayDescription.Some? then Some(Str(m.displayDescription.value.text)) else Get(m.metaData, "description"))
  }

  /** `!array_key_exists('label', $entry) || $text != $entry['label']`, with PHP's loose `!=`. */
  predicate LabelDiffers(current: Option<Value>, text: string)
  {
    current.None? || !LooselyEqualsString(text, current.value)
  }

  /**
   * `match` holds the match type; an "entityId" match repeats the entry's
   * id as match text and only alias, a term match gives the term's language
   * and text, and lists the text as the only alias unless it is the label.
   */
  ghost predicate MatchSet(entry: Entry, m: TermSearchResult)
  {
    Get(entry, "match").Some? && Get(entry, "match").value.Dict? && HasKey(entry, "id") &&
    var mt := Get(entry, "match").value.entries;
    Get(mt, "type") == Some(Str(m.matchedTermType)) &&
    (m.matchedTermType == EntityIdMatch ==>
       Get(mt, "text") == Get(entry, "id") && Get(entry, "aliases") == Some(List([Get(entry, "id").value]))) &&
    (m.matchedTermType != EntityIdMatch ==>
       Get(mt, "language") == Some(Str(m.matchedTerm.languageCode)) &&
       Get(mt, "text") == Some(Str(m.matchedTerm.text)) &&
       Get(entry, "aliases") ==
         if LabelDiffers(Get(entry, "label"), m.matchedTerm.text) then Some(List([Str(m.matchedTerm.text)]))
         else Get(m.metaData, "aliases"))
  }

  /** The entry has no key besides the ones the builder writes and the metadata's. */
  ghost predicate NoOtherKeys(entry: Entry, m: TermSearchResult)
  {
    forall k :: k !in BaseKeys && !WrittenAfterMetaData(k) && !HasKey(m.metaData, k) ==> Get(entry, k) == None
  }

  /**
   * What `buildTermSearchMatchEntry` promises about its entry. Metadata keys
   * overwrite the keys written before them (the five base keys and `url`)
   * and are overwritten by the ones written after.
   */
  ghost predicate EntryShaped(entry: Entry, m: TermSearchResult, title: Title, source: EntitySource,
                              props: Option<seq<string>>, urlencode: string -> string)
  {
    BaseKeysKept(entry, m, title, source, props, urlencode) && MetaDataKept(entry, m) &&
    DisplayTermsSet(entry, m) && MatchSet(entry, m) && NoOtherKeys(entry, m)
  }

  /** The base keys and `url`, before the metadata is copied. */
  ghost predicate BaseShaped(entry: Entry, m: TermSearchResult, title: Title, source: EntitySource,
                             props: Option<seq<string>>, urlencode: string -> string)
  {
    Get(entry, "repository") == Some(Str(source.sourceName)) &&
    Get(entry, "id") == Some(Str(m.entityId.serialization)) &&
    Get(entry, "concepturi") == Some(Str(source.conceptBaseUri + urlencode(m.entityId.localPart))) &&
    Get(entry, "title") == Some(Str(title.prefixedText)) &&
    Get(entry, "pageid") == Some(Int(title.articleId)) &&
    Get(entry, "url") == (if props.Some? && "url" in props.value then Some(Str(title.fullUrl)) else None) &&
    forall k :: k !in BaseKeys ==> Get(entry, k) == None
  }

  /** `r` is `entry` with the metadata written over it. */
  ghost predicate MetaDataCopied(r: Entry, entry: Entry, md: Assoc<string, Value>)
  {
    (forall k :: HasKey(md, k) ==> Get(r, k) == Get(md, k)) &&
    (forall k :: !HasKey(md, k) ==> Get(r, k) == Get(entry, k))
  }

  /** `r` is `entry` with `label` and `description` set from the display terms. */
  ghost predicate DisplayTermsAdded(r: Entry, entry: Entry, m: TermSearchResult)
  {
    Get(r, "label") == (if m.displayLabel.Some? then Some(Str(m.displayLabel.value.text)) else Get(entry, "label")) &&
    Get(r, "description") == (if m.displayDescription.Some? then Some(Str(m.displayDescription.value.text)) else Get(entry, "description")) &&
    forall k :: k != "label" && k != "description" ==> Get(r, k) == Get(entry, k)
  }

  /** `r` is `entry` with `match` and `aliases` set as the match type asks. */
  ghost predicate MatchAdded(r: Entry, entry: Entry, m: TermSearchResult)
  {
    HasKey(entry, "id") && Get(r, "match").Some? && Get(r, "match").value.Dict? &&
    var mt := Get(r, "match").value.entries;
    Get(mt, "type") == Some(Str(m.matchedTermType)) &&
    (m.matchedTermType == EntityIdMatch ==>
       Get(mt, "text") == Get(entry, "id") && Get(r, "aliases") == Some(List([Get(entry, "id").value]))) &&
    (m.matchedTermType != EntityIdMatch ==>
       Get(mt, "language") == Some(Str(m.matchedTerm.languageCode)) &&
       Get(mt, "text") == Some(Str(m.matchedTerm.text)) &&
       Get(r, "aliases") ==
         if LabelDiffers(Get(entry, "label"), m.matchedTerm.text) then Some(List([Str(m.matchedTerm.text)]))
         else Get(entry, "aliases")) &&
    forall k :: k != "match" && k != "aliases" ==> Get(r, k) == Get(entry, k)
  }

  /** Copies the metadata into the entry, overwriting keys already there (the `foreach` over `getMetaData()`). */
  method CopyMetaData(entry: Entry, md: Assoc<string, Value>) returns (r: Entry)
    requires NoDuplicates(KeysOf(md))
    ensures MetaDataCopied(r, entry, md)
  {
    r := entry;
    for i := 0 to |md|
      invariant forall j :: 0 <= j < i ==> Get(r, md[j].0) == Some(md[j].1)
      invariant forall k :: k !in KeysOf(md)[..i] ==> Get(r, k) == Get(entry, k)
    {
      assert KeysOf(md)[..i + 1] == KeysOf(md)[..i] + [md[i].0];
      forall j | 0 <= j < i
        ensures md[j].0 != md[i].0
      {
        assert KeysOf(md)[j] == md[j].0 && KeysOf(md)[i] == md[i].0;
      }
      r := Set(r, md[i].0, md[i].1);
    }
    forall k | HasKey(md, k)
      ensures Get(r, k) == Get(md, k)
    {
      var j := FirstIndex(KeysOf(md), k);
      GetAt(md, j);
    }
    assert KeysOf(md)[..|md|] == KeysOf(md);
  }

  /** The entry's first five keys, then `url` when the props ask for it. */
  method BaseEntry(m: TermSearchResult, title: Title, source: EntitySource,
                   props: Option<seq<string>>, urlencode: string -> string) returns (entry: Entry)
    ensures BaseShaped(entry, m, title, source, props, urlencode)
  {
    entry := Set([], "repository", Str(source.sourceName));
    entry := Set(entry, "id", Str(m.entityId.serialization));
    entry := Set(entry, "concepturi", Str(source.conceptBaseUri + urlencode(m.entityId.localPart)));
    entry := Set(entry, "title", Str(title.prefixedText));
    entry := Set(entry, "pageid", Int(title.articleId));
    if props.Some? && "url" in props.value {
      entry := Set(entry, "url", Str(title.fullUrl));
    }
  }

  /** `label` and `description` from the display terms, when there are any. */
  method AddDisplayTerms(entry: Entry, m: TermSearchResult) returns (r: Entry)
    ensures DisplayTermsAdded(r, entry, m)
  {
    r := entry;
    if m.displayLabel.Some? {
      r := Set(r, "label", Str(m.displayLabel.value.text));
    }
    if m.displayDescription.Some? {
      r := Set(r, "description", Str(m.displayDescription.value.text));
    }
  }

  /** The match array the builder writes into: the metadata's string-keyed `match`, or a fresh one. */
  function PriorMatch(entry: Entry): Assoc<string, Value>
  {
    var current := Get(entry, "match");
    if current.Some? && current.value.Dict? then current.value.entries else []
  }

  /**
   * `match` and `aliases`: an "entityId" match repeats the entry's id, a
   * term match gives its language and text and lists the text as an alias
   * unless it is the label.
   */
  method AddMatch(entry: Entry, m: TermSearchResult) returns (r: Entry)
    requires HasKey(entry, "id")
    ensures MatchAdded(r, entry, m)
    ensures forall k :: k != "type" && k != "text" && (k != "language" || m.matchedTermType == EntityIdMatch) ==>
              Get(Get(r, "match").value.entries, k) == Get(PriorMatch(entry), k)
  {
    var matchArray := Set(PriorMatch(entry), "type", Str(m.matchedTermType));
    var typed := Set(entry, "match", Dict(matchArray));
    assert Get(typed, "id") == Get(entry, "id");
    assert Get(typed, "label") == Get(entry, "label") && Get(typed, "aliases") == Get(entry, "aliases");
    if m.matchedTermType == EntityIdMatch {
      r := AddIdMatch(typed, matchArray);
    } else {
      r := AddTermMatch(typed, matchArray, m.matchedTerm);
    }
  }

  /** The "entityId" branch: the entry's id becomes the match text and the only alias. */
  method AddIdMatch(entry: Entry, matchArray: Assoc<string, Value>) returns (r: Entry)
    requires HasKey(entry, "id")
    ensures Get(r, "match").Some? && Get(r, "match").value.Dict?
    ensures Get(Get(r, "match").value.entries, "text") == Get(entry, "id")
    ensures forall k :: k != "text" ==> Get(Get(r, "match").value.entries, k) == Get(matchArray, k)
    ensures Get(r, "aliases") == Some(List([Get(entry, "id").value]))
    ensures forall k :: k != "match" && k != "aliases" ==> Get(r, k) == Get(entry, k)
  {
    var idValue := Get(entry, "id").value;
    var texted := Set(matchArray, "text", idValue);
    r := Set(entry, "match", Dict(texted));
    r := Set(r, "aliases", List([idValue]));
  }

  /** A term match: its language and text, and the text as the only alias unless it is the label. */
  method AddTermMatch(entry: Entry, matchArray: Assoc<string, Value>, term: Term) returns (r: Entry)
    ensures Get(r, "match").Some? && Get(r, "match").value.Dict?
    ensures Get(Get(r, "match").value.entries, "language") == Some(Str(term.languageCode))
    ensures Get(Get(r, "match").value.entries, "text") == Some(Str(term.text))
    ensures forall k :: k != "language" && k != "text" ==> Get(Get(r, "match").value.entries, k) == Get(matchArray, k)
    ensures Get(r, "aliases") ==
              if LabelDiffers(Get(entry, "label"), term.text) then Some(List([Str(term.text)])) else Get(entry, "aliases")
    ensures forall k :: k != "match" && k != "aliases" ==> Get(r, k) == Get(entry, k)
  {
    var withLanguage := Set(matchArray, "language", Str(term.languageCode));
    var texted := Set(withLanguage, "text", Str(term.text));
    r := Set(entry, "match", Dict(texted));
    assert Get(r, "label") == Get(entry, "label");
    if !HasKey(r, "label") || !LooselyEqualsString(term.text, Get(r, "label").value) {
      r := Set(r, "aliases", List([Str(term.text)]));
    }
  }

  /** `buildTermSearchMatchEntry`. */
  method BuildTermSearchMatchEntry(m: TermSearchResult, titles: map<string, Title>, props: Option<seq<string>>,
                                   sources: map<string, EntitySource>, urlencode: string -> string)
    returns (r: Result<Entry, BuildError>)
    requires NoDuplicates(KeysOf(m.metaData))
    ensures r.Failure? <==> EntryError(m, titles, sources).Some?
    ensures r.Failure? ==> r.error == EntryError(m, titles, sources).value
    ensures r.Success? ==> EntryShaped(r.value, m, titles[m.entityId.serialization], sources[m.entityId.entityType], props, urlencode)
  {
    var id := m.entityId;
    var baseUri := ConceptBaseUri(sources, id.entityType);
    if baseUri.Failure? {
      return Failure(baseUri.error);
    }
    if id.serialization !in titles {
      return Failure(MissingTitle(id.serialization));
    }
    var title := titles[id.serialization];
    var source := sources[id.entityType];
    var base := BaseEntry(m, title, source, props, urlencode);
    var copied := CopyMetaData(base, m.metaData);
    var labelled := AddDisplayTerms(copied, m);
    IdKept(base, copied, labelled, m);
    var entry := AddMatch(labelled, m);
    EntryShapedByStages(base, copied, labelled, entry, m, title, source, props, urlencode);
    r := Success(entry);
  }

  /** The entry keeps an `id` through the metadata and the display terms. */
  lemma IdKept(base: Entry, copied: Entry, labelled: Entry, m: TermSearchResult)
    requires HasKey(base, "id")
    requires MetaDataCopied(copied, base, m.metaData)
    requires DisplayTermsAdded(labelled, copied, m)
    ensures HasKey(labelled, "id")
  {
    assert Get(labelled, "id") == Get(copied, "id");
    if !HasKey(m.metaData, "id") {
      assert Get(copied, "id") == Get(base, "id");
    }
  }

  /** The four stages of the entry builder together give an entry of the promised shape. */
  lemma EntryShapedByStages(base: Entry, copied: Entry, labelled: Entry, entry: Entry, m: TermSearchResult,
                            title: Title, source: EntitySource, props: Option<seq<string>>, urlencode: string -> string)
    requires BaseShaped(base, m, title, source, props, urlencode)
    requires MetaDataCopied(copied, base, m.metaData)
    requires DisplayTermsAdded(labelled, copied, m)
    requires MatchAdded(entry, labelled, m)
    ensures EntryShaped(entry, m, title, source, props, urlencode)
  {
    StagesKeepBaseKeys(base, copied, labelled, entry, m, title, source, props, urlencode);
    StagesKeepMetaData(base, copied, labelled, entry, m);
    StagesSetDisplayTerms(base, copied, labelled, entry, m);
    StagesSetMatch(base, copied, labelled, entry, m);
    StagesAddNoOtherKeys(base, copied, labelled, entry, m);
  }

  lemma StagesKeepBaseKeys(base: Entry, copied: Entry, labelled: Entry, entry: Entry, m: TermSearchResult,
                           title: Title, source: EntitySource, props: Option<seq<string>>, urlencode: string -> string)
    requires BaseShaped(base, m, title, source, props, urlencode)
    requires MetaDataCopied(copied, base, m.metaData)
    requires DisplayTermsAdded(labelled, copied, m)
    requires MatchAdded(entry, labelled, m)
    ensures BaseKeysKept(entry, m, title, source, props, urlencode)
  {
    BaseKeysWrittenBefore();
    KeptAfterMetaData(copied, labelled, entry, m, "repository");
    KeptAfterMetaData(copied, labelled, entry, m, "id");
    KeptAfterMetaData(copied, labelled, entry, m, "concepturi");
    KeptAfterMetaData(copied, labelled, entry, m, "title");
    KeptAfterMetaData(copied, labelled, entry, m, "pageid");
    KeptAfterMetaData(copied, labelled, entry, m, "url");
    if HasKey(m.metaData, "id") {
      assert Get(copied, "id") == Get(m.metaData, "id");
    } else {
      assert Get(copied, "id") == Get(base, "id");
    }
  }

  /** A key written before the metadata is not changed by the stages after it. */
  lemma KeptAfterMetaData(copied: Entry, labelled: Entry, entry: Entry, m: TermSearchResult, k: string)
    requires !WrittenAfterMetaData(k)
    requires DisplayTermsAdded(labelled, copied, m)
    requires MatchAdded(entry, labelled, m)
    ensures Get(entry, k) == Get(copied, k)
  {
    assert Get(entry, k) == Get(labelled, k);
  }

  /** No base key is written again after the metadata. */
  lemma BaseKeysWrittenBefore()
    ensures !WrittenAfterMetaData("repository") && !WrittenAfterMetaData("id") && !WrittenAfterMetaData("concepturi")
    ensures !WrittenAfterMetaData("title") && !WrittenAfterMetaData("pageid") && !WrittenAfterMetaData("url")
  {
  }

  /** The keys written after the metadata are not base keys. */
  lemma LaterKeysNotBase()
    ensures "label" !in BaseKeys && "description" !in BaseKeys && "match" !in BaseKeys && "aliases" !in BaseKeys
  {
  }

  lemma StagesKeepMetaData(base: Entry, copied: Entry, labelled: Entry, entry: Entry, m: TermSearchResult)
    requires MetaDataCopied(copied, base, m.metaData)
    requires DisplayTermsAdded(labelled, copied, m)
    requires MatchAdded(entry, labelled, m)
    ensures MetaDataKept(entry, m)
  {
    forall k | HasKey(m.metaData, k) && k != "match" && k != "aliases" &&
               !(k == "label" && m.displayLabel.Some?) && !(k == "description" && m.displayDescription.Some?)
      ensures Get(entry, k) == Get(m.metaData, k)
    {
      assert Get(entry, k) == Get(labelled, k);
      assert Get(labelled, k) == Get(copied, k);
    }
  }

  lemma StagesSetDisplayTerms(base: Entry, copied: Entry, labelled: Entry, entry: Entry, m: TermSearchResult)
    requires forall k :: k !in BaseKeys ==> Get(base, k) == None
    requires MetaDataCopied(copied, base, m.metaData)
    requires DisplayTermsAdded(labelled, copied, m)
    requires MatchAdded(entry, labelled, m)
    ensures DisplayTermsSet(entry, m)
  {
    assert Get(entry, "label") == Get(labelled, "label");
    assert Get(entry, "description") == Get(labelled, "description");
    LaterKeysNotBase();
  }

  lemma StagesSetMatch(base: Entry, copied: Entry, labelled: Entry, entry: Entry, m: TermSearchResult)
    requires forall k :: k !in BaseKeys ==> Get(base, k) == None
    requires MetaDataCopied(copied, base, m.metaData)
    requires DisplayTermsAdded(labelled, copied, m)
    requires MatchAdded(entry, labelled, m)
    ensures MatchSet(entry, m)
  {
    assert Get(entry, "id") == Get(labelled, "id");
    assert Get(entry, "label") == Get(labelled, "label");
    assert Get(labelled, "aliases") == Get(copied, "aliases");
    LaterKeysNotBase();
  }

  lemma StagesAddNoOtherKeys(base: Entry, copied: Entry, labelled: Entry, entry: Entry, m: TermSearchResult)
    requires forall k :: k !in BaseKeys ==> Get(base, k) == None
    requires MetaDataCopied(copied, base, m.metaData)
    requires DisplayTermsAdded(labelled, copied, m)
    requires MatchAdded(entry, labelled, m)
    ensures NoOtherKeys(entry, m)
  {
    forall k | k !in BaseKeys && !WrittenAfterMetaData(k) && !HasKey(m.metaData, k)
      ensures Get(entry, k) == None
    {
      assert Get(entry, k) == Get(labelled, k);
      assert Get(labelled, k) == Get(copied, k);
    }
  }

  // ---------------------------------------------------------------------
  // Search entries and paging

  /** The request parameters `execute` reads. */
  datatype Params = Params(search: string, language: string, strictLanguage: bool, entityType: string,
                           limit: nat, continuation: int, props: Option<seq<string>>)

  /** The parameters a request gives when only `search` and `language` are set. */
  function DefaultParams(search: string, language: string): (p: Params)
    ensures p.limit == 7 && p.continuation == 0 && p.entityType == "item" && p.props == Some(["url"]) && !p.strictLanguage
    ensures p.search == search && p.language == language
  {
    Params(search, language, false, "item", 7, 0, Some(["url"]))
  }

  datatype SearchRequest = SearchRequest(search: string, language: string, entityType: string, limit: int, strictLanguage: bool)

  /** The search helper, the title lookup, the entity sources and `wfUrlencode`. */
  datatype Services = Services(
    rankedSearch: SearchRequest -> seq<TermSearchResult>,
    titlesFor: seq<EntityRef> -> map<string, Title>,
    sources: map<string, EntitySource>,
    urlencode: string -> string)

  /** What `getSearchEntries` asks the search helper for: one result more than the page needs. */
  function HelperRequest(params: Params): (r: SearchRequest)
    ensures r.limit == params.continuation + params.limit + 1
    ensures r.search == params.search && r.language == params.language && r.entityType == params.entityType
    ensures r.strictLanguage == params.strictLanguage
  {
    SearchRequest(params.search, params.language, params.entityType, params.continuation + params.limit + 1, params.strictLanguage)
  }

  /** `getEntityIdsForTermSearchResults`: the ids of the results, in order. */
  function EntityIdsOf(results: seq<TermSearchResult>): (ids: seq<EntityRef>)
    ensures |ids| == |results| && forall i :: 0 <= i < |results| ==> ids[i] == results[i].entityId
  {
    seq(|results|, i requires 0 <= i < |results| => results[i].entityId)
  }

  ghost function Results(params: Params, services: Services): seq<TermSearchResult>
  {
    services.rankedSearch(HelperRequest(params))
  }

  ghost function Titles(params: Params, services: Services): map<string, Title>
  {
    services.titlesFor(EntityIdsOf(Results(params, services)))
  }

  /** A PHP array has unique keys, so result metadata does too. */
  ghost predicate WellFormed(results: seq<TermSearchResult>)
  {
    forall i :: 0 <= i < |results| ==> NoDuplicates(KeysOf(results[i].metaData))
  }

  /** The entry built for one result, when it can be built. */
  ghost predicate EntryFor(entry: Entry, m: TermSearchResult, titles: map<string, Title>, props: Option<seq<string>>, services: Services)
  {
    EntryError(m, titles, services.sources).None? &&
    EntryShaped(entry, m, titles[m.entityId.serialization], services.sources[m.entityId.entityType], props, services.urlencode)
  }

  /** The error of the first result whose entry cannot be built. */
  ghost predicate FirstError(e: BuildError, results: seq<TermSearchResult>, titles: map<string, Title>, services: Services)
  {
    exists i :: 0 <= i < |results| && EntryError(results[i], titles, services.sources) == Some(e) &&
      forall j :: 0 <= j < i ==> EntryError(results[j], titles, services.sources).None?
  }

  /** Appending the entry built for the next result keeps every entry aligned with its result. */
  lemma EntriesSnoc(entries: seq<Entry>, entry: Entry, results: seq<TermSearchResult>, titles: map<string, Title>,
                    props: Option<seq<string>>, services: Services)
    requires |entries| < |results|
    requires forall j :: 0 <= j < |entries| ==> EntryFor(entries[j], results[j], titles, props, services)
    requires EntryFor(entry, results[|entries|], titles, props, services)
    ensures forall j :: 0 <= j < |entries| + 1 ==> EntryFor((entries + [entry])[j], results[j], titles, props, services)
  {
    forall j | 0 <= j < |entries| + 1
      ensures EntryFor((entries + [entry])[j], results[j], titles, props, services)
    {
      if j < |entries| {
        assert (entries + [entry])[j] == entries[j];
      }
    }
  }

  /** `getSearchEntries`: one entry per result, in the helper's order; any failing entry fails the call. */
  method GetSearchEntries(params: Params, services: Services) returns (r: Result<seq<Entry>, BuildError>)
    requires WellFormed(Results(params, services))
    ensures r.Failure? <==> exists i :: 0 <= i < |Results(params, services)| &&
                                        EntryError(Results(params, services)[i], Titles(params, services), services.sources).Some?
    ensures r.Failure? ==> FirstError(r.error, Results(params, services), Titles(params, services), services)
    ensures r.Success? ==> (|r.value| == |Results(params, services)| &&
              forall i :: 0 <= i < |r.value| ==>
                EntryFor(r.value[i], Results(params, services)[i], Titles(params, services), params.props, services))
  {
    var results := services.rankedSearch(HelperRequest(params));
    var titles := services.titlesFor(EntityIdsOf(results));
    assert results == Results(params, services) && titles == Titles(params, services);
    var entries: seq<Entry> := [];
    for i := 0 to |results|
      invariant |entries| == i
      invariant forall j :: 0 <= j < i ==> EntryFor(entries[j], results[j], titles, params.props, services)
    {
      var entry := BuildTermSearchMatchEntry(results[i], titles, params.props, services.sources, services.urlencode);
      if entry.Failure? {
        assert FirstError(entry.error, results, titles, services);
        return Failure(entry.error);
      }
      EntriesSnoc(entries, entry.value, results, titles, params.props, services);
      entries := entries + [entry.value];
    }
    r := Success(entries);
  }

  /** Where `array_slice` starts for an offset: from the front, or counted from the end when negative. */
  function SliceStart(n: nat, offset: int): (start: nat)
    ensures start <= n
    ensures offset >= 0 ==> start == if offset <= n then offset else n
    ensures offset < 0 ==> start == if n + offset >= 0 then n + offset else 0
  {
    if offset >= 0 then (if offset <= n then offset else n)
    else if n + offset >= 0 then n + offset else 0
  }

  /** `array_slice($s, $offset, $length)` on a list, for a length that is not negative. */
  function PhpArraySlice<T>(s: seq<T>, offset: int, length: nat): (r: seq<T>)
    ensures |r| <= length
    ensures |r| == if |s| - SliceStart(|s|, offset) <= length then |s| - SliceStart(|s|, offset) else length
    ensures forall i :: 0 <= i < |r| ==> r[i] == s[SliceStart(|s|, offset) + i]
  {
    var start := SliceStart(|s|, offset);
    if |s| - start <= length then s[start..] else s[start..start + length]
  }

  /** For a continuation within the entries, the page is the window [from, from + limit). */
  lemma PageIsWindow<T>(s: seq<T>, from: nat, limit: nat)
    requires from <= |s|
    ensures PhpArraySlice(s, from, limit) == s[from..if from + limit <= |s| then from + limit else |s|]
  {
  }

  /** Two consecutive pages together are the page of twice the size: nothing is skipped or repeated. */
  lemma ConsecutivePages<T>(s: seq<T>, from: nat, limit: nat)
    ensures PhpArraySlice(s, from, limit) + PhpArraySlice(s, from + limit, limit) == PhpArraySlice(s, from, 2 * limit)
  {
    var a, b := PhpArraySlice(s, from, limit), PhpArraySlice(s, from + limit, limit);
    var c := PhpArraySlice(s, from, 2 * limit);
    assert |a + b| == |c|;
    forall i | 0 <= i < |c|
      ensures (a + b)[i] == c[i]
    {
      if i >= |a| {
        assert |a| == limit;
      }
    }
  }

  /** Slicing entries and results alike keeps each entry with its result. */
  lemma PageAligned(entries: seq<Entry>, results: seq<TermSearchResult>, offset: int, limit: nat,
                    titles: map<string, Title>, props: Option<seq<string>>, services: Services)
    requires |entries| == |results|
    requires forall i :: 0 <= i < |entries| ==> EntryFor(entries[i], results[i], titles, props, services)
    ensures |PhpArraySlice(entries, offset, limit)| == |PhpArraySlice(results, offset, limit)|
    ensures forall i :: 0 <= i < |PhpArraySlice(entries, offset, limit)| ==>
              EntryFor(PhpArraySlice(entries, offset, limit)[i], PhpArraySlice(results, offset, limit)[i], titles, props, services)
  {
    var start := SliceStart(|entries|, offset);
    forall i | 0 <= i < |PhpArraySlice(entries, offset, limit)|
      ensures EntryFor(PhpArraySlice(entries, offset, limit)[i], PhpArraySlice(results, offset, limit)[i], titles, props, services)
    {
      assert PhpArraySlice(entries, offset, limit)[i] == entries[start + i];
      assert PhpArraySlice(results, offset, limit)[i] == results[start + i];
    }
  }

  /** `search-continue` is offered when more results exist and the next offset is within the maximum. */
  predicate OffersContinuation(hits: int, params: Params, maxContinuation: int)
  {
    hits > params.continuation + params.limit && params.continuation + params.limit <= maxContinuation
  }

  /** The helper returns the first `limit` of the ranked results `all`, or all of them when there are fewer. */
  ghost predicate HelperTruncates(all: seq<TermSearchResult>, params: Params, services: Services)
  {
    var n := HelperRequest(params).limit;
    n >= 0 && Results(params, services) == if |all| <= n then all else all[..n]
  }

  /**
   * The over-fetch by one is what lets a page tell whether more results
   * exist: a helper that returns the first `continue + limit + 1` ranked
   * results returns more than `continue + limit` exactly when more than
   * `continue + limit` results exist, so `search-continue` is offered
   * exactly when another page has results.
   */
  lemma OverFetchDetectsMore(all: seq<TermSearchResult>, params: Params, services: Services, maxContinuation: int)
    requires params.continuation >= 0 && HelperTruncates(all, params, services)
    ensures |Results(params, services)| > params.continuation + params.limit <==> |all| > params.continuation + params.limit
    ensures OffersContinuation(|Results(params, services)|, params, maxContinuation) <==>
              |all| > params.continuation + params.limit && params.continuation + params.limit <= maxContinuation
  {
  }

  /**
   * With the defaults of `getAllowedParams` (limit 7, continue 0), the
   * helper is asked for 8 results, the page holds the first seven entries,
   * and `search-continue` is 7 exactly when an eighth result came back.
   */
  lemma DefaultPaging<T>(search: string, language: string, entries: seq<T>, maxContinuation: int)
    requires maxContinuation >= 7
    ensures HelperRequest(DefaultParams(search, language)).limit == 8
    ensures PhpArraySlice(entries, DefaultParams(search, language).continuation, DefaultParams(search, language).limit) ==
              if |entries| <= 7 then entries else entries[..7]
    ensures OffersContinuation(|entries|, DefaultParams(search, language), maxContinuation) <==> |entries| > 7
  {
    PageIsWindow(entries, 0, 7);
    assert entries[0..] == entries;
  }

  /** What `execute` adds to the API result. */
  datatype SearchResponse = SearchResponse(searchInfo: string, search: seq<Entry>, searchContinue: Option<int>, success: int)

  /**
   * `execute`: the entries, sliced to the requested page, with
   * `search-continue` set to the next offset when more results exist and
   * that offset does not exceed `maxContinuation` (`ApiBase::LIMIT_SML1`).
   */
  method Execute(params: Params, services: Services, maxContinuation: int) returns (r: Result<SearchResponse, BuildError>)
    requires WellFormed(Results(params, services))
    ensures r.Failure? <==> exists i :: 0 <= i < |Results(params, services)| &&
                                        EntryError(Results(params, services)[i], Titles(params, services), services.sources).Some?
    ensures r.Failure? ==> FirstError(r.error, Results(params, services), Titles(params, services), services)
    ensures r.Success? ==> r.value.searchInfo == params.search && r.value.success == 1
    ensures r.Success? ==>
              var page := PhpArraySlice(Results(params, services), params.continuation, params.limit);
              |r.value.search| == |page| &&
              forall i :: 0 <= i < |page| ==> EntryFor(r.value.search[i], page[i], Titles(params, services), params.props, services)
    ensures r.Success? ==>
              r.value.searchContinue ==
                if OffersContinuation(|Results(params, services)|, params, maxContinuation)
                then Some(params.continuation + params.limit) else None
  {
    var entries := GetSearchEntries(params, services);
    if entries.Failure? {
      return Failure(entries.error);
    }
    var hits := |entries.value|;
    var page := PhpArraySlice(entries.value, params.continuation, params.limit);
    PageAligned(entries.value, Results(params, services), params.continuation, params.limit,
                Titles(params, services), params.props, services);
    var nextContinuation := params.continuation + params.limit;
    var searchContinue := None;
    if hits > nextContinuation && nextContinuation <= maxContinuation {
      searchContinue := Some(nextContinuation);
    }
    r := Success(SearchResponse(params.search, page, searchContinue, 1));
  }
}
