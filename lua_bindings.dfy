/**
 * The language-independent Scribunto (Lua) bindings: resolving a page title
 * to an entity id, labels by language, sitelink page names and referenced
 * entities. The services the bindings are built with are functions, and the
 * usage accumulator is the sequence of usages recorded so far.
 */
module LuaBindings {
  import opened Basics
  import opened Terms

  type SiteId = string

  /** A usage recorded with the usage accumulator. */
  datatype Usage =
    | LabelUsage(entity: EntityId, language: LanguageCode)
    | TitleUsage(entity: EntityId)
    | SiteLinksUsage(entity: EntityId)
    | AllUsage(entity: EntityId)

  /** What the latest-revision lookup says about an item. */
  datatype RevisionLookupResult = ConcreteRevision | Redirect(target: EntityId) | NonexistentEntity

  /** The two resource limits the referenced-entity search can run into. */
  datatype Exhaustion = MaxReferenceDepthExhausted | MaxReferencedEntityVisitsExhausted

  /** A Lua return value that is a string, `nil` or `false`. */
  datatype LuaValue = LuaString(s: string) | LuaNil | LuaFalse

  /**
   * The services. A parser or lookup that throws, or returns null, gives
   * None; the label lookup's Failure is its `TermLookupException`.
   */
  datatype Lookups = Lookups(
    titleFromDbKey: string -> Option<string>,
    entityIdForTitle: string -> Option<EntityId>,
    itemIdForLink: (SiteId, string) -> Option<EntityId>,
    normalizePageTitle: string -> Option<string>,
    parseEntityId: string -> Option<EntityId>,
    parseItemId: string -> Option<EntityId>,
    termsLanguages: set<LanguageCode>,
    labelOf: (EntityId, LanguageCode) -> Result<Option<string>, string>,
    latestRevision: EntityId -> RevisionLookupResult,
    siteLinkRows: (EntityId, SiteId) -> seq<(SiteId, string)>,
    referencedEntityId: (EntityId, EntityId, seq<EntityId>) -> Result<Option<EntityId>, Exhaustion>)

  /** `$globalSiteId ?: $this->siteId`: null, "" and "0" are falsy and give the local site. */
  function EffectiveSiteId(globalSiteId: Option<SiteId>, localSiteId: SiteId): (site: SiteId)
    ensures globalSiteId.None? || globalSiteId.value == "" || globalSiteId.value == "0" ==> site == localSiteId
    ensures globalSiteId.Some? && globalSiteId.value != "" && globalSiteId.value != "0" ==> site == globalSiteId.value
  {
    match globalSiteId
    case None => localSiteId
    case Some(s) => if s == "" || s == "0" then localSiteId else s
  }

  /** The usage `trackUsageForSitelink` records: a title usage on the local site, a sitelinks usage elsewhere. */
  function SitelinkUsage(site: SiteId, localSiteId: SiteId, id: EntityId): (u: Usage)
    ensures u.TitleUsage? <==> site == localSiteId
    ensures u.SiteLinksUsage? <==> site != localSiteId
    ensures u.entity == id
  {
    if site == localSiteId then TitleUsage(id) else SiteLinksUsage(id)
  }

  /** The id the local page lookup finds; only the local site's pages are looked up. */
  function LocalHit(lookups: Lookups, localSiteId: SiteId, site: SiteId, pageTitle: string): (r: Option<EntityId>)
    ensures site != localSiteId ==> r == None
    ensures lookups.titleFromDbKey(pageTitle).None? ==> r == None
  {
    if site != localSiteId then None
    else match lookups.titleFromDbKey(pageTitle)
      case None => None
      case Some(title) => lookups.entityIdForTitle(title)
  }

  /**
   * The id `getEntityId` resolves a page title to: the local page's entity,
   * else the sitelink of the title as given, else the sitelink of the
   * normalized title, tried only when normalizing changes the title.
   */
  function ResolveEntityId(lookups: Lookups, localSiteId: SiteId, site: SiteId, pageTitle: string): (r: Option<EntityId>)
    ensures r.Some? <==>
              LocalHit(lookups, localSiteId, site, pageTitle).Some? ||
              lookups.itemIdForLink(site, pageTitle).Some? ||
              (lookups.normalizePageTitle(pageTitle).Some? && lookups.normalizePageTitle(pageTitle).value != pageTitle &&
               lookups.itemIdForLink(site, lookups.normalizePageTitle(pageTitle).value).Some?)
    ensures LocalHit(lookups, localSiteId, site, pageTitle).Some? ==> r == LocalHit(lookups, localSiteId, site, pageTitle)
    ensures LocalHit(lookups, localSiteId, site, pageTitle).None? && lookups.itemIdForLink(site, pageTitle).Some? ==>
              r == lookups.itemIdForLink(site, pageTitle)
  {
    var local := LocalHit(lookups, localSiteId, site, pageTitle);
    if local.Some? then local
    else
      var linked := lookups.itemIdForLink(site, pageTitle);
      if linked.Some? then linked
      else match lookups.normalizePageTitle(pageTitle)
        case None => None
        case Some(normalized) => if normalized == pageTitle then None else lookups.itemIdForLink(site, normalized)
  }

  /** Whatever the id found, it came from one of the three lookups, in the order they are tried. */
  lemma ResolvedFromALookup(lookups: Lookups, localSiteId: SiteId, site: SiteId, pageTitle: string)
    ensures var r := ResolveEntityId(lookups, localSiteId, site, pageTitle);
            r.Some? ==> r == LocalHit(lookups, localSiteId, site, pageTitle) ||
                        r == lookups.itemIdForLink(site, pageTitle) ||
                        (lookups.normalizePageTitle(pageTitle).Some? &&
                         r == lookups.itemIdForLink(site, lookups.normalizePageTitle(pageTitle).value))
  {
  }

  /** For another site, the local title lookups play no part. */
  lemma OtherSiteIgnoresTitles(lookups: Lookups, localSiteId: SiteId, site: SiteId, pageTitle: string,
                               titleFromDbKey: string -> Option<string>, entityIdForTitle: string -> Option<EntityId>)
    requires site != localSiteId
    ensures ResolveEntityId(lookups, localSiteId, site, pageTitle) ==
            ResolveEntityId(lookups.(titleFromDbKey := titleFromDbKey, entityIdForTitle := entityIdForTitle), localSiteId, site, pageTitle)
  {
  }

  /** A title that is malformed, or that normalizing leaves as it is, is not retried. */
  lemma NoRetryWithoutNewTitle(lookups: Lookups, localSiteId: SiteId, site: SiteId, pageTitle: string)
    requires lookups.normalizePageTitle(pageTitle).None? || lookups.normalizePageTitle(pageTitle) == Some(pageTitle)
    ensures ResolveEntityId(lookups, localSiteId, site, pageTitle).Some? <==>
            LocalHit(lookups, localSiteId, site, pageTitle).Some? || lookups.itemIdForLink(site, pageTitle).Some?
  {
  }

  /** `isValidEntityId`: true exactly when the entity id parser accepts the serialization. */
  function IsValidEntityId(lookups: Lookups, serialization: string): (r: bool)
    ensures r <==> lookups.parseEntityId(serialization).Some?
  {
    lookups.parseEntityId(serialization).Some?
  }

  /**
   * `getReferencedEntityId`: `false` when the search ran into a resource
   * limit, `nil` when none of the targets is referenced, else the id found.
   */
  function ReferencedEntityId(lookups: Lookups, fromId: EntityId, propertyId: EntityId, toIds: seq<EntityId>): (r: LuaValue)
    ensures r.LuaFalse? <==> lookups.referencedEntityId(fromId, propertyId, toIds).Failure?
    ensures r.LuaNil? <==> lookups.referencedEntityId(fromId, propertyId, toIds) == Success(None)
    ensures r.LuaString? <==> lookups.referencedEntityId(fromId, propertyId, toIds).Success? &&
                              lookups.referencedEntityId(fromId, propertyId, toIds).value.Some?
    ensures r.LuaString? ==> r.s == lookups.referencedEntityId(fromId, propertyId, toIds).value.value
  {
    match lookups.referencedEntityId(fromId, propertyId, toIds)
    case Failure(_) => LuaFalse
    case Success(None) => LuaNil
    case Success(Some(id)) => LuaString(id)
  }

  /** The item a sitelink lookup uses: the redirect target for a redirect, the item itself otherwise. */
  function RedirectResolved(revision: RevisionLookupResult, id: EntityId): (target: EntityId)
    ensures revision.Redirect? ==> target == revision.target
    ensures !revision.Redirect? ==> target == id
  {
    match revision
    case Redirect(t) => t
    case _ => id
  }

  /** The page name of the first sitelink row, if there is a row. */
  function FirstPageName(rows: seq<(SiteId, string)>): (r: Option<string>)
    ensures r.None? <==> rows == []
    ensures r.Some? ==> r.value == rows[0].1
  {
    if rows == [] then None else Some(rows[0].1)
  }

  class LanguageIndependentLuaBindings {
    const lookups: Lookups
    const siteId: SiteId
    /** What the usage accumulator has been given, in order. */
    var usages: seq<Usage>

    constructor (services: Lookups, localSiteId: SiteId)
      ensures lookups == services && siteId == localSiteId && usages == []
    {
      lookups := services;
      siteId := localSiteId;
      usages := [];
    }

    /** `trackUsageForSitelink`. */
    method TrackUsageForSitelink(site: SiteId, id: EntityId)
      modifies this
      ensures usages == old(usages) + [SitelinkUsage(site, siteId, id)]
    {
      if site == siteId {
        usages := usages + [TitleUsage(id)];
      } else {
        usages := usages + [SiteLinksUsage(id)];
      }
    }

    /**
     * `getEntityId`: the resolved id's serialization, with one sitelink usage
     * recorded for it; nothing is recorded when no id is found.
     */
    method GetEntityId(pageTitle: string, globalSiteId: Option<SiteId>) returns (r: Option<EntityId>)
      modifies this
      ensures r == ResolveEntityId(lookups, siteId, EffectiveSiteId(globalSiteId, siteId), pageTitle)
      ensures r.None? ==> usages == old(usages)
      ensures r.Some? ==> usages == old(usages) + [SitelinkUsage(EffectiveSiteId(globalSiteId, siteId), siteId, r.value)]
    {
      var site := EffectiveSiteId(globalSiteId, siteId);
      var itemId: Option<EntityId> := None;
      if site == siteId {
        var title := lookups.titleFromDbKey(pageTitle);
        if title.Some? {
          itemId := lookups.entityIdForTitle(title.value);
        }
      }
      if itemId.None? {
        itemId := lookups.itemIdForLink(site, pageTitle);
      }
      if itemId.None? {
        var normalized := lookups.normalizePageTitle(pageTitle);
        if normalized.None? {
          return None;
        }
        if normalized.value == pageTitle {
          return None;
        }
        itemId := lookups.itemIdForLink(site, normalized.value);
      }
      if itemId.None? {
        return None;
      }
      TrackUsageForSitelink(site, itemId.value);
      r := itemId;
    }

    /**
     * `getLabelByLanguage`: nil, with nothing recorded, for a language
     * outside the terms languages or an id that does not parse; otherwise a
     * label usage is recorded before the lookup, and a failing lookup gives nil.
     */
    method GetLabelByLanguage(prefixedEntityId: string, language: LanguageCode) returns (r: Option<string>)
      modifies this
      ensures language !in lookups.termsLanguages ==> r == None && usages == old(usages)
      ensures lookups.parseEntityId(prefixedEntityId).None? ==> r == None && usages == old(usages)
      ensures language in lookups.termsLanguages && lookups.parseEntityId(prefixedEntityId).Some? ==>
                var id := lookups.parseEntityId(prefixedEntityId).value;
                usages == old(usages) + [LabelUsage(id, language)] &&
                r == match lookups.labelOf(id, language) case Success(text) => text case Failure(_) => None
    {
      if language !in lookups.termsLanguages {
        return None;
      }
      var id := lookups.parseEntityId(prefixedEntityId);
      if id.None? {
        return None;
      }
      usages := usages + [LabelUsage(id.value, language)];
      var labelText := lookups.labelOf(id.value, language);
      if labelText.Failure? {
        return None;
      }
      r := labelText.value;
    }

    /**
     * `getSiteLinkPageName`: nil for an invalid item id; otherwise a sitelink
     * usage on the redirect-resolved item, an all-usage on the original item
     * when it is a redirect, and the page name of the first sitelink row.
     */
    method GetSiteLinkPageName(prefixedItemId: string, globalSiteId: Option<SiteId>) returns (r: Option<string>)
      modifies this
      ensures lookups.parseItemId(prefixedItemId).None? ==> r == None && usages == old(usages)
      ensures lookups.parseItemId(prefixedItemId).Some? ==>
                var id := lookups.parseItemId(prefixedItemId).value;
                var site := EffectiveSiteId(globalSiteId, siteId);
                var target := RedirectResolved(lookups.latestRevision(id), id);
                usages == old(usages) + [SitelinkUsage(site, siteId, target)] + (if target != id then [AllUsage(id)] else []) &&
                r == FirstPageName(lookups.siteLinkRows(target, site))
    {
      var site := EffectiveSiteId(globalSiteId, siteId);
      var itemId := lookups.parseItemId(prefixedItemId);
      if itemId.None? {
        return None;
      }
      var id := itemId.value;
      var target := RedirectResolved(lookups.latestRevision(id), id);
      TrackUsageForSitelink(site, target);
      if id != target {
        usages := usages + [AllUsage(id)];
      }
      var rows := lookups.siteLinkRows(target, site);
      if |rows| > 0 {
        return Some(rows[0].1);
      }
      r := None;
    }
  }
}
