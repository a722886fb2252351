# Wikibase core rules in Dafny

This project models eight small, self-contained parts of Wikibase and proves
properties about them:

- **StatementList** (`statement_list.dfy`). The ordered, non-unique list of
  statements of an entity. It is a class whose `statements` field is appended
  to in place. It offers whole-input validation on construction and three
  derived views: the property ids in first-occurrence order, one statement
  per main-snak hash, and the best-ranked statements per property.
- **EntityRetrievingTermLookup** (`entity_retrieving_term_lookup.dfy`). A term
  lookup with a per-object memo cache of fingerprints. It has single-language
  getters (a value or null) and multi-language getters (the intersection of
  the stored terms with the requested languages). A failed load throws and is
  not cached.
- **Id-range write dispatch** (`by_id_dispatching.dfy`). A table from upper
  bound to store, written in any key order, sends `storeTerms` and
  `deleteTerms` for an item to the store with the smallest bound at or above
  the item's number. The stores are modelled as a log of received calls.
- **Prefetching property term lookup** (`prefetching_term_lookup.dfy`). A
  term store, and a lookup that prefetches a cross product of (entity, term
  type, language) into a buffer. A slot then answers the text, `false`
  (prefetched but absent) or `null` (never prefetched).
- **wbsearchentities** (`search_entities.dfy`). The search helper is asked
  for one result more than the page needs. Each result is turned into an
  entry array by successive writes. The page is cut out with `array_slice`,
  and `search-continue` is emitted by a fixed rule.
- **Language-independent Lua bindings** (`lua_bindings.dfy`). Resolving a
  page title to an entity id, labels by language, sitelink page names and
  referenced entities. Each of these records the usages it causes.
- **Edit-permission error classification** (`permission_errors.dfy`). The
  query API's raw edit errors become protected-page or unknown errors, in
  order. Malformed answers become a technical problem.
- **Serialization callbacks** (`callback_factory.dfy`). Array-to-array
  transforms that add `_element`, `_type`, `_kvpkeyname` and `datatype`.

Shared definitions:

- `basics.dfy`: `Option` (a value or null), `Result` (a value or a thrown
  exception) and `Outcome`.
- `terms.dfy`: entity ids and fingerprints.
- `collections.dfy`: first-occurrence deduplication and the order it keeps.
- `php_arrays.dfy`: a PHP array as an ordered list of key/value pairs. A write
  `$a[$k] = $v` replaces the value in place when the key exists and appends
  otherwise.

External services are parameters of the model rather than calls: the entity
lookup, the search helper, the title lookup, the parsers, the sitelink and
revision lookups, the data type lookup and `wfUrlencode`.

## Model

| member | source | states |
|---|---|---|
| Collections.DedupFirstOccurrenceOrder | src/Statement/StatementList.php:86-94 | deduplication lists values in the order of their first occurrence in the input |
| PhpArrays.Set | src/Statement/StatementList.php:90-91 | after `$a[$k] = $v` the key reads `v` and every other key reads as before |
| PhpArrays.SetKeys | src/Statement/StatementList.php:90-91 | an existing key keeps its place and a new key goes last |
| StatementLists.StatementList.New | src/Statement/StatementList.php:38-40 | the constructor throws exactly when assertAreStatements rejects the input, with the same exception; otherwise the list holds the input's statements in input order |
| StatementLists.StatementList.AssertAreStatements | src/Statement/StatementList.php:68-78 | a non-iterable input fails with the first exception; any non-Statement element fails with the second; otherwise it passes |
| StatementLists.StatementList.AddStatements | src/Statement/StatementList.php:60-66 | on success the statements are appended in order; on failure the list is unchanged, so every element is checked before any is added |
| StatementLists.WrapPasses | src/Statement/StatementList.php:60-78 | an array made only of statements always passes the check |
| StatementLists.StatementList.AddStatement | src/Statement/StatementList.php:96-98 | the statement is appended at the end and earlier statements are unchanged |
| StatementLists.StatementList.AddNewStatement | src/Statement/StatementList.php:100-114 | appends a normal-rank statement with the given main snak, qualifiers, references and guid |
| StatementLists.NewStatement | src/Statement/StatementList.php:106-113 | the built statement has normal rank and the given main snak and guid; an array argument becomes a list of the same snaks, and null stays null |
| StatementLists.ToList | src/Statement/StatementList.php:107-108 | null stays null; an array and a list object both give their items |
| StatementLists.ArrayQualifiersAsList | tests/unit/Statement/StatementListTest.php:133-212 | qualifiers given as an array build the same statement as the same snaks given as a list |
| StatementLists.StatementList.GetPropertyIds | src/Statement/StatementList.php:86-94 | the keys of the returned array are the property ids deduplicated in first-occurrence order, and each value equals its key |
| StatementLists.PropertyIds | src/Statement/StatementList.php:89-91 | one property id per statement, in list order |
| StatementLists.PropertyIdsOnce | tests/unit/Statement/StatementListTest.php:22-44 | each property id is listed once, every statement's property is listed, nothing else is, the ids follow first-occurrence order, and an empty list gives none |
| StatementLists.StatementList.GetWithUniqueMainSnaks | src/Statement/StatementList.php:116-130 | a new list of the values of the hash-keyed array; the receiver is not changed |
| StatementLists.UniqueMainSnaksKeepsLast | tests/unit/Statement/StatementListTest.php:102-120 | one statement per main-snak hash: the last one with that hash, placed where the hash first occurs |
| StatementLists.IndexByHashKeys | src/Statement/StatementList.php:123-127 | the keys of the hash-keyed array are the hashes in first-occurrence order |
| StatementLists.IndexByHashGet | src/Statement/StatementList.php:123-127 | a hash reads the last statement that has it, and nothing when no statement has it |
| StatementLists.LastWithHash | src/Statement/StatementList.php:125-127 | finds the position of the last statement with a hash, or reports that none has it |
| StatementLists.Hashes | src/Statement/StatementList.php:125-127 | one main-snak hash per statement, in list order |
| StatementLists.StatementList.GetBestStatementPerProperty | src/Statement/StatementList.php:43-58 | a new list holding the best statements of each property, property after property in first-occurrence order; the receiver is not changed |
| StatementLists.StatementList.AddBestClaims | src/Statement/StatementList.php:53-55 | one round of the loop appends the best statements of one property |
| StatementLists.BestPerPropertyMembers | tests/unit/Statement/StatementListTest.php:74-100 | a statement is listed iff it is in the list, is not deprecated, and no statement of its property has a higher rank; all-deprecated properties contribute nothing |
| StatementLists.BestPerPropertyByProperty | src/Statement/StatementList.php:43-58 | restricted to one property, the result is exactly that property's best statements in list order |
| StatementLists.BestPerPropertyGrouped | src/Statement/StatementList.php:49-57 | the output is grouped by property in the order of the properties' first occurrences |
| StatementLists.Best | src/Statement/StatementList.php:43-48 | `getBestClaims`: exactly the non-deprecated statements that no statement outranks, each as often as it occurs in the list |
| StatementLists.MaxRank | tests/unit/Statement/StatementListTest.php:74-100 | the highest rank present, which some statement has; deprecated for no statements |
| StatementLists.WithRank | src/Statement/StatementList.php:43-48 | exactly the statements of one rank |
| StatementLists.WithRankCounts | src/Statement/StatementList.php:43-48 | each statement of the rank is kept as often as it occurs, and no other statement is kept |
| StatementLists.WithRankConcat | src/Statement/StatementList.php:43-48 | keeping one rank distributes over concatenation, so the kept statements stay in list order |
| StatementLists.WithRankSnoc | src/Statement/StatementList.php:43-48 | one more statement at the end is kept at the end iff it has the rank |
| StatementLists.ExampleMaxRank | tests/unit/Statement/StatementListTest.php:74-100 | the highest rank of property 1's preferred, normal and preferred statements is preferred |
| StatementLists.ExampleWithRank | tests/unit/Statement/StatementListTest.php:74-100 | keeping property 1's preferred statements drops the normal one and keeps the other two in order |
| StatementLists.ExampleBestInOrder | tests/unit/Statement/StatementListTest.php:74-100 | property 1's best statements are `one` then `three`, as the test expects |
| StatementLists.ForProperty | src/Statement/StatementList.php:53-54 | `getClaimsForProperty`: exactly the statements about the property |
| StatementLists.ForPropertyConcat | src/Statement/StatementList.php:53-54 | filtering by property distributes over concatenation |
| StatementLists.ForPropertyBestFor | src/Statement/StatementList.php:51-57 | filtering the result for one property picks out its round of the loop |
| StatementLists.ForPropertyUniform | src/Statement/StatementList.php:53-54 | statements that are all about one property filter to themselves or to nothing |
| StatementLists.BestForGrouped | src/Statement/StatementList.php:51-57 | each round adds statements about its own property after those of earlier rounds |
| StatementLists.StatementsOf | src/Statement/StatementList.php:63-65 | the statements of a validated array, one per element, in order |
| StatementLists.Wrap | src/Statement/StatementList.php:54 | a statement array holds exactly the given statements |
| EntityRetrievingTermLookups.EntityRetrievingTermLookup.GetFingerprint | lib/packages/wikibase/data-model-services/src/Lookup/EntityRetrievingTermLookup.php:124-132 | answers what fetching would; a cached id asks nothing; an uncached id is fetched once and only a success is cached; the cache stays consistent |
| EntityRetrievingTermLookups.EntityRetrievingTermLookup.FetchedAtMostOnce | lib/packages/wikibase/data-model-services/src/Lookup/EntityRetrievingTermLookup.php:124-132 | a loadable entity is fetched at most once per lookup object |
| EntityRetrievingTermLookups.FetchFingerprint | lib/packages/wikibase/data-model-services/src/Lookup/EntityRetrievingTermLookup.php:141-149 | an unloadable entity throws a TermLookupException; an entity without a fingerprint gives an empty one |
| EntityRetrievingTermLookups.NoFingerprintNoTerms | lib/packages/wikibase/data-model-services/src/Lookup/EntityRetrievingTermLookup.php:148 | an entity without a fingerprint has no label or description in any language |
| EntityRetrievingTermLookups.EntityRetrievingTermLookup.GetLabel | lib/packages/wikibase/data-model-services/src/Lookup/EntityRetrievingTermLookup.php:45-56 | throws iff the entity cannot be loaded; otherwise the label in the language, or null |
| EntityRetrievingTermLookups.EntityRetrievingTermLookup.GetLabels | lib/packages/wikibase/data-model-services/src/Lookup/EntityRetrievingTermLookup.php:67-74 | throws iff the entity cannot be loaded; otherwise exactly the stored labels of the requested languages |
| EntityRetrievingTermLookups.EntityRetrievingTermLookup.GetDescription | lib/packages/wikibase/data-model-services/src/Lookup/EntityRetrievingTermLookup.php:85-96 | the same as GetLabel, for descriptions |
| EntityRetrievingTermLookups.EntityRetrievingTermLookup.GetDescriptions | lib/packages/wikibase/data-model-services/src/Lookup/EntityRetrievingTermLookup.php:107-115 | the same as GetLabels, for descriptions |
| EntityRetrievingTermLookups.TermOf | lib/packages/wikibase/data-model-services/src/Lookup/EntityRetrievingTermLookup.php:51-55 | a term's text iff the language has one |
| EntityRetrievingTermLookups.TermsIn | lib/packages/wikibase/data-model-services/src/Lookup/EntityRetrievingTermLookup.php:73 | `array_intersect_key`: the keys are the stored languages among the requested, with their stored values |
| EntityRetrievingTermLookups.TermOfIsTermsInOne | lib/packages/wikibase/data-model-services/src/Lookup/EntityRetrievingTermLookup.php:45-74 | the single-language getter agrees with a one-language multi-language request |
| EntityRetrievingTermLookups.TermsInDependsOnLanguageSet | lib/packages/wikibase/data-model-services/src/Lookup/EntityRetrievingTermLookup.php:73 | the order and repetition of the requested languages do not matter |
| EntityRetrievingTermLookups.MapResult | lib/packages/wikibase/data-model-services/src/Lookup/EntityRetrievingTermLookup.php:46-54 | an exception passes through; a value is transformed |
| EntityRetrievingTermLookups.LabelThenDescription | lib/packages/wikibase/data-model-services/src/Lookup/EntityRetrievingTermLookup.php:124-132 | a label and then a description of the same entity load it once |
| ByIdDispatching.CoveringIndex | lib/tests/phpunit/Store/ByIdDispatchingItemTermStoreWriterTest.php:55-80 | the row with the smallest bound at or above the id; none iff every bound is below it |
| ByIdDispatching.SelectStore | lib/tests/phpunit/Store/ByIdDispatchingItemTermStoreWriterTest.php:55-80 | the store of a row whose bound is the smallest at or above the id; none iff every bound is below it |
| ByIdDispatching.SelectStoreIs | lib/tests/phpunit/Store/ByIdDispatchingItemTermStoreWriterTest.php:55-80 | the row with the smallest covering bound is the one chosen |
| ByIdDispatching.SelectStoreOrderIndependent | lib/tests/phpunit/Store/ByIdDispatchingItemTermStoreWriterTest.php:55-60 | two tables with the same rows route every id alike, whatever order they were written in |
| ByIdDispatching.ExampleTableAsSorted | lib/tests/phpunit/Store/ByIdDispatchingItemTermStoreWriterTest.php:55-60 | the test's table routes as if its bounds were sorted ascending |
| ByIdDispatching.ExampleRouting | lib/tests/phpunit/Store/ByIdDispatchingItemTermStoreWriterTest.php:62-80 | Q123, Q12345, Q200000 and Q1234567 go to stores 1, 2, 3 and 4; the 200000 bound is inclusive |
| ByIdDispatching.Forwarded | lib/tests/phpunit/Store/ByIdDispatchingItemTermStoreWriterTest.php:23-52 | at most one call, made exactly when a store is selected, to that store with the same id and operation |
| ByIdDispatching.SameRouting | lib/tests/phpunit/Store/ByIdDispatchingItemTermStoreWriterTest.php:83-86 | `storeTerms` and `deleteTerms` reach the same store |
| ByIdDispatching.ByIdDispatchingItemTermStoreWriter.Dispatch | lib/tests/phpunit/Store/ByIdDispatchingItemTermStoreWriterTest.php:62-80 | fails iff no store covers the id; otherwise exactly the selected store gets the call |
| ByIdDispatching.ByIdDispatchingItemTermStoreWriter.StoreTermsFor | lib/tests/phpunit/Store/ByIdDispatchingItemTermStoreWriterTest.php:84 | `storeTerms` is forwarded with the same item and fingerprint |
| ByIdDispatching.ByIdDispatchingItemTermStoreWriter.DeleteTermsFor | lib/tests/phpunit/Store/ByIdDispatchingItemTermStoreWriterTest.php:85 | `deleteTerms` is forwarded with the same item |
| ByIdDispatching.ExampleDeletions | lib/tests/phpunit/Store/ByIdDispatchingItemTermStoreWriterTest.php:23-80 | the four calls of the test reach each store once, for its own id |
| PrefetchingTermLookups.StoredTerm | lib/tests/phpunit/Store/Sql/Terms/PrefetchingPropertyTermLookupTest.php:64-80 | the stored label or description of an entity in a language, and nothing for an unknown entity |
| PrefetchingTermLookups.StoreThenRead | lib/tests/phpunit/Store/Sql/Terms/PrefetchingPropertyTermLookupTest.php:64-80 | storing one entity's terms sets that entity's terms and leaves other entities alone |
| PrefetchingTermLookups.TermStore.StoreTerms | lib/tests/phpunit/Store/Sql/Terms/PrefetchingPropertyTermLookupTest.php:64-80 | the entity's terms become the fingerprint's |
| PrefetchingTermLookups.PrefetchingTermLookup.GetLabel | lib/tests/phpunit/Store/Sql/Terms/PrefetchingPropertyTermLookupTest.php:87-93 | the stored label, or null |
| PrefetchingTermLookups.PrefetchingTermLookup.GetDescription | lib/tests/phpunit/Store/Sql/Terms/PrefetchingPropertyTermLookupTest.php:95-101 | the stored description, or null |
| PrefetchingTermLookups.ExampleGetLabelAndDescription | lib/tests/phpunit/Store/Sql/Terms/PrefetchingPropertyTermLookupTest.php:87-101 | after storing P1 and P2, their English labels and descriptions read back |
| PrefetchingTermLookups.CrossProduct | lib/tests/phpunit/Store/Sql/Terms/PrefetchingPropertyTermLookupTest.php:103-116 | exactly the slots whose entity, type and language are all requested |
| PrefetchingTermLookups.Prefetch | lib/tests/phpunit/Store/Sql/Terms/PrefetchingPropertyTermLookupTest.php:103-116 | every covered slot is filled from the store, and every other slot is kept |
| PrefetchingTermLookups.PrefetchingTermLookup.PrefetchTerms | lib/tests/phpunit/Store/Sql/Terms/PrefetchingPropertyTermLookupTest.php:103-116 | the buffer becomes the prefetch of the old buffer |
| PrefetchingTermLookups.EntryFor | lib/tests/phpunit/Store/Sql/Terms/PrefetchingPropertyTermLookupTest.php:103-130 | a slot holds the stored text when there is one, and is marked absent otherwise |
| PrefetchingTermLookups.Answer | lib/tests/phpunit/Store/Sql/Terms/PrefetchingPropertyTermLookupTest.php:103-130 | null iff never prefetched, false iff prefetched and absent, else the buffered text |
| PrefetchingTermLookups.PrefetchingTermLookup.GetPrefetchedTerm | lib/tests/phpunit/Store/Sql/Terms/PrefetchingPropertyTermLookupTest.php:103-130 | answers from the buffer in the three-valued way |
| PrefetchingTermLookups.PrefetchThenAnswer | lib/tests/phpunit/Store/Sql/Terms/PrefetchingPropertyTermLookupTest.php:103-130 | after a prefetch, a covered slot answers the stored text or false, and an uncovered slot answers as before |
| PrefetchingTermLookups.PrefetchIdempotent | lib/tests/phpunit/Store/Sql/Terms/PrefetchingPropertyTermLookupTest.php:137-141 | prefetching the same terms twice is the same as once |
| PrefetchingTermLookups.PrefetchEmpty | lib/tests/phpunit/Store/Sql/Terms/PrefetchingPropertyTermLookupTest.php:132-135 | prefetching with no ids, types or languages changes nothing |
| PrefetchingTermLookups.ExamplePrefetch | lib/tests/phpunit/Store/Sql/Terms/PrefetchingPropertyTermLookupTest.php:103-116 | after the test's prefetch, the label, description and alias slots answer the stored texts |
| PrefetchingTermLookups.ExampleNotPrefetched | lib/tests/phpunit/Store/Sql/Terms/PrefetchingPropertyTermLookupTest.php:118-120 | a slot never prefetched answers null |
| PrefetchingTermLookups.ExampleDoesNotExist | lib/tests/phpunit/Store/Sql/Terms/PrefetchingPropertyTermLookupTest.php:122-130 | a prefetched slot with no stored term answers false |
| SearchEntities.RepositoryName | repo/includes/Api/SearchEntities.php:172-178 | the source's name, or '' when the entity type has no source |
| SearchEntities.ConceptBaseUri | repo/includes/Api/SearchEntities.php:197-206 | the source's concept base URI; a LogicException naming the type iff there is no source |
| SearchEntities.NoSourceFallback | repo/includes/Api/SearchEntities.php:172-206 | without a source, the repository name falls back to '' while the concept URI throws |
| SearchEntities.EntryError | repo/includes/Api/SearchEntities.php:115-133 | building an entry fails iff the type has no source or the id has no title; a missing source is reported first |
| SearchEntities.CopyMetaData | repo/includes/Api/SearchEntities.php:131-133 | every metadata key reads its metadata value, and every other key is kept |
| SearchEntities.BaseEntry | repo/includes/Api/SearchEntities.php:120-130 | the five base keys hold the source name, id, concept URI, title and page id; `url` is present iff props is given and contains 'url'; no other key is present |
| SearchEntities.AddDisplayTerms | repo/includes/Api/SearchEntities.php:135-145 | `label` and `description` are set iff there is a display label or description; every other key is kept |
| SearchEntities.AddMatch | repo/includes/Api/SearchEntities.php:147-166 | `match.type` is the match type; an entityId match repeats the id as match text and only alias; a term match gives language and text, and sets aliases to [text] iff there is no label or the text differs from it under PHP's loose `!=`; every other entry of a string-keyed metadata `match` is kept |
| PhpArrays.LooseEqualityExamples | repo/includes/Api/SearchEntities.php:164 | the loose comparison the aliases rule uses: `"" == null`, `"abc" == true`, `"0" == false`, `"7" == 7`, and a string never equals an array |
| SearchEntities.BuildTermSearchMatchEntry | repo/includes/Api/SearchEntities.php:115-170 | fails iff the type has no source or the id has no title, with that error; otherwise the entry has the base, metadata, display-term and match keys as the rules say, and no other key |
| SearchEntities.EntryShapedByStages | repo/includes/Api/SearchEntities.php:120-166 | the four stages of successive writes together give an entry of the promised shape |
| SearchEntities.StagesKeepBaseKeys | repo/includes/Api/SearchEntities.php:120-133 | base keys survive unless the metadata replaces them |
| SearchEntities.StagesKeepMetaData | repo/includes/Api/SearchEntities.php:131-166 | a metadata key survives unless a later write replaces it |
| SearchEntities.StagesSetDisplayTerms | repo/includes/Api/SearchEntities.php:135-145 | `label` and `description` come from the display terms when there are any, and from the metadata otherwise |
| SearchEntities.StagesSetMatch | repo/includes/Api/SearchEntities.php:147-166 | the `match` and `aliases` rules hold on the final entry |
| SearchEntities.StagesAddNoOtherKeys | repo/includes/Api/SearchEntities.php:115-170 | the entry has no key besides the written ones and the metadata's |
| SearchEntities.DefaultParams | repo/includes/Api/SearchEntities.php:270-306 | the defaults: limit 7, continue 0, type 'item', props ['url'], not strict; DefaultPaging says what paging they give |
| SearchEntities.DefaultPaging | repo/includes/Api/SearchEntities.php:288-299 | with the defaults the helper is asked for 8 results, the page is the first seven entries, and `search-continue` is offered iff an eighth came back |
| SearchEntities.HelperRequest | repo/includes/Api/SearchEntities.php:80-86 | the helper is asked for continue + limit + 1 results with the request's search, language, type and strictness |
| SearchEntities.EntityIdsOf | repo/includes/Api/SearchEntities.php:101-106 | the results' entity ids, in order |
| SearchEntities.GetSearchEntries | repo/includes/Api/SearchEntities.php:79-95 | fails iff some result's entry cannot be built, with the first such error; otherwise one entry per result, in the helper's order |
| SearchEntities.SliceStart | repo/includes/Api/SearchEntities.php:237 | where `array_slice` starts: the offset clamped to the list, or counted from the end when negative |
| SearchEntities.PhpArraySlice | repo/includes/Api/SearchEntities.php:237 | at most `limit` elements, taken consecutively from the start position |
| SearchEntities.PageIsWindow | repo/includes/Api/SearchEntities.php:234-237 | for a continuation within the entries, the page is the window [continue, continue + limit) |
| SearchEntities.ConsecutivePages | repo/includes/Api/SearchEntities.php:237-239 | two consecutive pages together are one page of twice the size |
| SearchEntities.OverFetchDetectsMore | repo/includes/Api/SearchEntities.php:231-234 | for a helper that returns the first continue + limit + 1 ranked results, it returns more than continue + limit exactly when more exist, so `search-continue` is offered exactly when another page has results |
| SearchEntities.PageAligned | repo/includes/Api/SearchEntities.php:237 | slicing entries and results alike keeps each entry with its result |
| SearchEntities.Execute | repo/includes/Api/SearchEntities.php:211-265 | on success the page of entries; `search-continue` is continue + limit iff hits exceed it and it is at most the maximum; `searchinfo` and `success` are set; build errors propagate |
| LuaBindings.EffectiveSiteId | client/includes/DataAccess/Scribunto/WikibaseLanguageIndependentLuaBindings.php:137 | a null, empty or "0" global site id means the local site |
| LuaBindings.SitelinkUsage | client/includes/DataAccess/Scribunto/WikibaseLanguageIndependentLuaBindings.php:305-311 | a title usage iff the site is the local one, a sitelinks usage otherwise, on the given entity |
| LuaBindings.LanguageIndependentLuaBindings.TrackUsageForSitelink | client/includes/DataAccess/Scribunto/WikibaseLanguageIndependentLuaBindings.php:305-311 | exactly that usage is appended to the accumulator |
| LuaBindings.LocalHit | client/includes/DataAccess/Scribunto/WikibaseLanguageIndependentLuaBindings.php:139-145 | only the local site's titles are looked up, and a title that does not parse finds nothing |
| LuaBindings.ResolveEntityId | client/includes/DataAccess/Scribunto/WikibaseLanguageIndependentLuaBindings.php:136-171 | an id is found iff the local page, the sitelink or the sitelink of a changed normalized title finds one, tried in that order |
| LuaBindings.ResolvedFromALookup | client/includes/DataAccess/Scribunto/WikibaseLanguageIndependentLuaBindings.php:136-171 | a found id comes from one of the three lookups |
| LuaBindings.OtherSiteIgnoresTitles | client/includes/DataAccess/Scribunto/WikibaseLanguageIndependentLuaBindings.php:139-145 | for another site, the title lookups do not affect the result |
| LuaBindings.NoRetryWithoutNewTitle | client/includes/DataAccess/Scribunto/WikibaseLanguageIndependentLuaBindings.php:151-162 | a malformed title, or one that normalizing leaves unchanged, is not retried |
| LuaBindings.LanguageIndependentLuaBindings.GetEntityId | client/includes/DataAccess/Scribunto/WikibaseLanguageIndependentLuaBindings.php:136-171 | returns the resolved id; a found id records one sitelink usage, and no id records nothing |
| LuaBindings.IsValidEntityId | client/includes/DataAccess/Scribunto/WikibaseLanguageIndependentLuaBindings.php:191-199 | true iff the parser accepts the serialization |
| LuaBindings.LanguageIndependentLuaBindings.GetLabelByLanguage | client/includes/DataAccess/Scribunto/WikibaseLanguageIndependentLuaBindings.php:207-227 | nil with no usage for a language outside the terms languages or an unparseable id; otherwise a label usage is recorded before the lookup, and a failing lookup gives nil |
| LuaBindings.RedirectResolved | client/includes/DataAccess/Scribunto/WikibaseLanguageIndependentLuaBindings.php:253-265 | a redirect gives its target; anything else keeps the item |
| LuaBindings.FirstPageName | client/includes/DataAccess/Scribunto/WikibaseLanguageIndependentLuaBindings.php:278-283 | the first row's page name, or null iff there are no rows |
| LuaBindings.LanguageIndependentLuaBindings.GetSiteLinkPageName | client/includes/DataAccess/Scribunto/WikibaseLanguageIndependentLuaBindings.php:244-284 | nil for an invalid id; otherwise a sitelink usage on the resolved item, an all-usage on the original when it was a redirect, and the first row's page name |
| LuaBindings.ReferencedEntityId | client/includes/DataAccess/Scribunto/WikibaseLanguageIndependentLuaBindings.php:295-303 | false iff a resource limit was hit, nil iff nothing was found, else the serialization |
| PermissionErrors.Classify | client/data-bridge/tests/unit/data-access/ApiPageEditPermissionErrorsRepository.spec.ts:27-145 | protectedpage gives the right from params[0] with the semi-protection flag; any other code gives an unknown error copied verbatim; a non-raw error is a technical problem |
| PermissionErrors.ClassifyAll | client/data-bridge/tests/unit/data-access/ApiPageEditPermissionErrorsRepository.spec.ts:147-192 | one classified error per raw error, in order; fails iff some error cannot be classified |
| PermissionErrors.ClassifyAllConcat | client/data-bridge/tests/unit/data-access/ApiPageEditPermissionErrorsRepository.spec.ts:147-192 | classifying two parts gives the classification of the whole |
| PermissionErrors.ClassifyAllIsPerError | client/data-bridge/tests/unit/data-access/ApiPageEditPermissionErrorsRepository.spec.ts:147-192 | the classification is the per-error classifications, position by position |
| PermissionErrors.GetPermissionErrors | client/data-bridge/tests/unit/data-access/ApiPageEditPermissionErrorsRepository.spec.ts:194-276 | a rejection passes through; a missing page, missing actions or missing levels is a technical problem; an invalid page is TitleInvalid for the requested title; otherwise the classification |
| PermissionErrors.NoRawErrorsNoPermissionErrors | client/data-bridge/tests/unit/data-access/ApiPageEditPermissionErrorsRepository.spec.ts:11-25 | no edit errors give no permission errors |
| PermissionErrors.SemiProtectedIff | client/data-bridge/tests/unit/data-access/ApiPageEditPermissionErrorsRepository.spec.ts:27-115 | semi-protection iff the right is a semi-protected level or `editsemiprotected` |
| PermissionErrors.ExampleMultipleErrors | client/data-bridge/tests/unit/data-access/ApiPageEditPermissionErrorsRepository.spec.ts:147-192 | the test's two raw errors give the two expected errors, in order |
| PermissionErrors.ExampleCustomSemiProtection | client/data-bridge/tests/unit/data-access/ApiPageEditPermissionErrorsRepository.spec.ts:57-115 | a custom right listed among the levels is semi-protection |
| PermissionErrors.ExampleNonRawError | client/data-bridge/tests/unit/data-access/ApiPageEditPermissionErrorsRepository.spec.ts:259-276 | a protectedpage error without key and params is a technical problem |
| CallbackFactory.IndexTags | lib/tests/phpunit/Serialization/CallbackFactoryTest.php:31-39 | `_element` names the tag, and every other key is kept in place |
| CallbackFactory.ExampleIndexTags | lib/tests/phpunit/Serialization/CallbackFactoryTest.php:31-39 | `[]` becomes exactly `['_element' => 'tagName']` |
| CallbackFactory.SetArrayType | lib/tests/phpunit/Serialization/CallbackFactoryTest.php:44-58 | `_type` is set; `_kvpkeyname` is set iff a name is given; other keys are kept |
| CallbackFactory.ExampleSetArrayType | lib/tests/phpunit/Serialization/CallbackFactoryTest.php:44-58 | `[]` becomes `['_type' => 'default']`, plus `'_kvpkeyname' => name` when a name is given |
| CallbackFactory.AddDataTypeToSnak | lib/tests/phpunit/Serialization/CallbackFactoryTest.php:21-29 | a snak with a string `property` gets `datatype` from exactly one lookup of it, and keeps every other key |
| CallbackFactory.ExampleAddDataTypeToSnak | lib/tests/phpunit/Serialization/CallbackFactoryTest.php:76-90 | `['property' => 'P1']` gains `'datatype' => 'propertyDataType'` and keeps `property` |
| CallbackFactory.WithDataType | lib/tests/phpunit/Serialization/CallbackFactoryTest.php:61-74 | every snak of a group gets the data type and keeps its other keys |
| CallbackFactory.AddDataTypeToSnaksGroupedByProperty | lib/tests/phpunit/Serialization/CallbackFactoryTest.php:61-74 | groups keep their keys and order, each group's property is looked up once, and every snak gets its data type |
| CallbackFactory.GroupedAgreesWithSnak | lib/tests/phpunit/Serialization/CallbackFactoryTest.php:61-90 | a snak grouped under its own property ends up as the single-snak callback leaves it |
| CallbackFactory.ExampleGrouped | lib/tests/phpunit/Serialization/CallbackFactoryTest.php:61-74 | `['P1' => [[]]]` becomes `['P1' => [['datatype' => 'propertyDataType']]]` |

## Left out

- Database term tables, type-id interning, caches shared between requests, and service wiring. They are outside these rules.
- Hashing (`getHash`), entity-id and title parsing, title normalization, `wfUrlencode` and the data type lookup. They are functions given to the model, so their own behaviour is not modelled.
- The value of `ApiBase::LIMIT_SML1`. It is the `maxContinuation` parameter of `SearchEntities.Execute`.
- The ranking of the search helper. The helper is a function from the request to its results.
- SearchEntities.AddTermMatch: the label compared with the matched text can come from the metadata and have any type. `PhpArrays.LooselyEqualsString` models PHP 8's loose `==` for null, booleans, ints and arrays, and for strings character by character. Not modelled:
  - a numeric string compared with an int or with another numeric string is compared as text, where PHP compares the numbers (`"01" == "1"`, `"7.0" == 7`);
  - under PHP 7 a string compared with an int is converted to a number, so `"abc" == 0` and `"1abc" == 1` are true there, while the model calls them unequal. An int-valued metadata `label` can therefore give a different `aliases` result under PHP 7.
- SearchEntities.AddMatch: when the metadata holds a `match` value that is not a string-keyed array (`Dict`), the model starts a fresh match array. This covers non-arrays and lists. A list's items are therefore lost, where PHP writes `type`, `text` and `language` into the list and keeps its items. PHP's behaviour of writing into a non-array value is not modelled either.
- SearchEntities.Execute: the API result's indexed tag name and cache mode are output formatting and are left out.
- StatementLists.Best: the source asks the statements' `Claims` wrapper for its best claims. That class is not part of this model. The claim that each best statement appears as often as it occurs in the list assumes that `Claims` keeps statements that share a GUID. The tests give every statement its own GUID, so they do not fix this. The rank order (deprecated < normal < preferred < truth) comes from the statement list's doc comment and tests.
- StatementLists.StatementList.New: a Traversable given to the constructor or to `addStatements` is iterated twice, once to check its elements and once to append them. The model gives the same elements both times. It does not model a Generator, which cannot be rewound and throws on the second pass, or an iterator that yields different elements the second time.
- StatementLists.NewStatement: `new SnakList` and `new ReferenceList` are assumed to keep every item, duplicates included, in order. Those classes are not part of this model.
- StatementLists.StatementList.ToArray: it returns the `statements` field, so it has no contract of its own. The constructor's ensures states that the field keeps the input order.
- EntityRetrievingTermLookups.EntityRetrievingTermLookup.GetLabels: the result is a map, so it does not model the key order of the PHP array that `array_intersect_key` returns.
- EntityRetrievingTermLookups.EntityRetrievingTermLookup.GetDescriptions: likewise a map, without the key order of the PHP array.
- EntityRetrievingTermLookups.EntityRetrievingTermLookup.GetFingerprint: the entity lookup is a map from ids, where a missing id stands for the lookup returning null. An exception thrown by the entity lookup itself passes through the source unchanged and is not modelled.
- ByIdDispatching.ByIdDispatchingItemTermStoreWriter.Dispatch: the implementation class is not part of this model. Behaviour the test does not fix was chosen:
  - an id above every bound fails with NoStoreForId and calls no store;
  - the stores' return values are not modelled.
- PrefetchingTermLookups.StoredTerm: the test stores one alias per language, so it does not fix which alias answers an alias slot. The model uses the first alias of the language.
- PermissionErrors.GetPermissionErrors: the repository class is not part of this model. Where the tests do not fix the behaviour, the model chooses as follows:
  - the checks run in this order: rejection, missing page, invalid page, missing actions or levels, then classification;
  - only the first page is read;
  - TitleInvalid carries the requested title;
  - a protectedpage error without parameters is a technical problem;
  - an error missing only one of `key` and `params` is a technical problem, as the tested error missing both is.
- CallbackFactory.AddDataTypeToSnak: the callbacks' implementation is not part of this model. A snak without a string `property` is returned unchanged with no lookup. The grouped callback looks up each group's property once.
- LuaBindings.LanguageIndependentLuaBindings.GetEntityId: the id the title lookup returns is used as it is, whatever its entity type. In the source `trackUsageForSitelink` takes an `ItemId`, so a non-item id from the title lookup makes it throw a TypeError; entity ids are strings here, and that error is not modelled.
- LuaBindings.LanguageIndependentLuaBindings.GetSiteLinkPageName: sitelink rows are looked up by item id rather than by the numeric id the store uses.
- LuaBindings.LanguageIndependentLuaBindings.GetLabelByLanguage: the label lookup's exception is modelled as its Failure result.
- `getSetting` on the Lua bindings reads site configuration, which is left out.
- The usage accumulator's own deduplication is left out. `usages` lists every usage recorded, in order.
