/**
 * The popup of the first website blocker. The `blockedSites` and
 * `activeCollections` entries of extension storage and the site input box are
 * the fields of a `Popup`; each handler is a method that updates them the way
 * the storage callbacks do, one handler at a time.
 */
module Assignment1Popup {
  import opened Results
  import opened SiteList
  import opened SiteCollections

  /** What block-current-site did. */
  datatype TabOutcome =
    | NoTab                 // `tabs[0]` is missing: nothing happens
    | UrlError              // `new URL(tabs[0].url)` throws: nothing happens
    | CannotBlock           // the protocol does not start with `http`
    | Tried(add: AddOutcome)

  class Popup {
    /** The stored `blockedSites` array. */
    var blockedSites: seq<string>
    /** The stored `activeCollections` object. */
    var activeCollections: map<string, bool>
    /** The text in the site input box. */
    var siteInput: string
    /** `siteCollections`, in `Object.entries` order. */
    const collections: seq<Collection>

    /**
     * What every handler keeps: no site twice, no empty site, and well-formed
     * collections.
     */
    ghost predicate Valid()
      reads this
    {
      && NoDuplicates(blockedSites)
      && "" !in blockedSites
      && DistinctKeys(collections)
      && forall i :: 0 <= i < |collections| ==> "" !in collections[i].sites
    }

    /** The popup opening on what storage holds; a missing entry reads as empty (`|| []`, `|| {}`). */
    constructor (stored: Option<seq<string>>, active: Option<map<string, bool>>, collections: seq<Collection>)
      ensures blockedSites == (if stored.Some? then stored.value else [])
      ensures activeCollections == (if active.Some? then active.value else map[])
      ensures siteInput == ""
      ensures this.collections == collections
    {
      blockedSites := if stored.Some? then stored.value else [];
      activeCollections := if active.Some? then active.value else map[];
      siteInput := "";
      this.collections := collections;
    }

    /**
     * `addSite(predefinedSite)`: an empty site changes nothing; a site already
     * listed changes nothing; a new site is appended, the input is cleared when
     * it was typed, and the collection flags are recomputed from the new list.
     */
    twostate predicate AddSiteDone(predefined: Option<string>, outcome: AddOutcome)
      reads this
    {
      var site := SiteToAdd(predefined, old(siteInput));
      if site == "" || site in old(blockedSites) then
        && outcome == (if site == "" then Ignored else AlreadyBlocked(site))
        && blockedSites == old(blockedSites)
        && activeCollections == old(activeCollections)
        && siteInput == old(siteInput)
      else
        && outcome == Added(site)
        && blockedSites == old(blockedSites) + [site]
        && activeCollections == RefreshStates(old(activeCollections), collections, blockedSites)
        && siteInput == (if predefined.Some? && predefined.value != "" then old(siteInput) else "")
    }

    method AddSite(predefined: Option<string>) returns (outcome: AddOutcome)
      modifies this
      ensures AddSiteDone(predefined, outcome)
      ensures old(Valid()) ==> Valid()
    {
      var site := SiteToAdd(predefined, siteInput);
      if site == "" || site in blockedSites {
        outcome := if site == "" then Ignored else AlreadyBlocked(site);
        return;
      }
      AppendFreshKeepsList(blockedSites, site);
      blockedSites := blockedSites + [site];
      if !(predefined.Some? && predefined.value != "") {
        siteInput := "";
      }
      UpdateCollectionStates(blockedSites);
      outcome := Added(site);
    }

    /** `removeSite(siteToRemove)`: every equal entry is filtered out, then the flags are recomputed. */
    method RemoveSite(siteToRemove: string)
      modifies this
      ensures blockedSites == RemoveAll(old(blockedSites), siteToRemove)
      ensures activeCollections == RefreshStates(old(activeCollections), collections, blockedSites)
      ensures siteInput == old(siteInput)
      ensures old(Valid()) ==> Valid()
    {
      if NoDuplicates(blockedSites) {
        RemoveAllKeepsNoDuplicates(blockedSites, siteToRemove);
      }
      blockedSites := RemoveAll(blockedSites, siteToRemove);
      UpdateCollectionStates(blockedSites);
    }

    /**
     * `toggleCollection(key, collection, isEnabled)`: enabling appends each
     * collection site not yet listed, in collection order; disabling filters out
     * every listed site of the collection. Only the toggled flag changes.
     */
    method ToggleCollection(key: string, collection: Collection, isEnabled: bool)
      modifies this
      ensures isEnabled ==> blockedSites == AddAll(old(blockedSites), collection.sites)
      ensures !isEnabled ==> blockedSites == Without(old(blockedSites), collection.sites)
      ensures activeCollections == old(activeCollections)[key := isEnabled]
      ensures siteInput == old(siteInput)
      ensures old(Valid()) && "" !in collection.sites ==> Valid()
    {
      if isEnabled {
        var i := 0;
        while i < |collection.sites|
          invariant 0 <= i <= |collection.sites|
          invariant blockedSites == AddAll(old(blockedSites), collection.sites[..i])
          invariant activeCollections == old(activeCollections) && siteInput == old(siteInput)
        {
          var site := collection.sites[i];
          assert collection.sites[..i + 1][..i] == collection.sites[..i];
          if site !in blockedSites {
            blockedSites := blockedSites + [site];
          }
          i := i + 1;
        }
        assert collection.sites[..i] == collection.sites;
        AddAllShape(old(blockedSites), collection.sites);
        activeCollections := activeCollections[key := true];
      } else {
        if NoDuplicates(blockedSites) {
          WithoutKeepsNoDuplicates(blockedSites, collection.sites);
        }
        blockedSites := Without(blockedSites, collection.sites);
        activeCollections := activeCollections[key := false];
      }
    }

    /**
     * `updateCollectionStates(sites)`: each collection's flag becomes
     * whether all its sites are in `sites`; other stored flags are kept.
     */
    method UpdateCollectionStates(sites: seq<string>)
      modifies this`activeCollections
      ensures activeCollections == RefreshStates(old(activeCollections), collections, sites)
      ensures DistinctKeys(collections) ==>
                forall i :: 0 <= i < |collections| ==>
                  collections[i].key in activeCollections
                  && activeCollections[collections[i].key] == AllBlocked(collections[i].sites, sites)
    {
      var i := 0;
      while i < |collections|
        invariant 0 <= i <= |collections|
        invariant activeCollections == RefreshStates(old(activeCollections), collections[..i], sites)
      {
        var c := collections[i];
        assert collections[..i + 1][..i] == collections[..i];
        activeCollections := activeCollections[c.key := AllBlocked(c.sites, sites)];
        i := i + 1;
      }
      assert collections[..i] == collections;
      if DistinctKeys(collections) {
        RefreshStatesSetsFlags(old(activeCollections), collections, sites);
      }
    }

    /**
     * The block-current-site button: a page whose protocol starts with `http`
     * is added through `addSite` with its hostname, one leading `www.` removed.
     */
    method BlockCurrentSite(tabUrl: Option<string>, parseUrl: string -> Option<ParsedUrl>) returns (outcome: TabOutcome)
      modifies this
      ensures tabUrl.None? ==> outcome == NoTab
      ensures tabUrl.Some? && parseUrl(tabUrl.value).None? ==> outcome == UrlError
      ensures tabUrl.Some? && parseUrl(tabUrl.value).Some? ==>
                var site := CurrentTabSite(parseUrl(tabUrl.value).value);
                (site.None? ==> outcome == CannotBlock)
                && (site.Some? ==> outcome.Tried? && AddSiteDone(site, outcome.add))
      ensures !outcome.Tried? ==> unchanged(this)
      ensures old(Valid()) ==> Valid()
    {
      if tabUrl.None? {
        return NoTab;
      }
      var url := parseUrl(tabUrl.value);
      if url.None? {
        return UrlError;
      }
      var site := CurrentTabSite(url.value);
      if site.None? {
        return CannotBlock;
      }
      var added := AddSite(site);
      outcome := Tried(added);
    }
  }
}
