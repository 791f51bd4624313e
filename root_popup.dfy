/**
 * The popup of the minimal blocker at the top of the repository: typed text
 * is trimmed and lower-cased and stored as it is, with no URL clean-up.
 */
module RootPopup {
  import opened Results
  import opened Text
  import opened SiteList

  /** `siteInput.value.trim().toLowerCase()`. */
  function TypedSite(typed: string): string {
    Lower(JsTrim(typed))
  }

  /** Nothing is added exactly when the input is blank. */
  lemma TypedSiteEmptyIff(typed: string)
    ensures TypedSite(typed) == "" <==> AllSpace(typed, IsJsSpace)
  {
    TrimEmptyIff(typed, IsJsSpace);
  }

  /** The stored entry keeps scheme, `www.` and path: a trimmed lower-case URL is stored unchanged. */
  lemma TypedSiteKeepsUrl(typed: string)
    requires Bare(typed, IsJsSpace) && HasNoUpperCase(typed)
    ensures TypedSite(typed) == typed
  {
    TrimBareIsIdentity(typed, IsJsSpace);
    assert Lower(typed) == typed;
  }

  class Popup {
    /** The stored `blockedSites` array. */
    var blockedSites: seq<string>
    /** The text in the site input box. */
    var siteInput: string

    ghost predicate Valid()
      reads this
    {
      NoDuplicates(blockedSites) && "" !in blockedSites
    }

    /** The popup opening on what storage holds; a missing list reads as empty. */
    constructor (stored: Option<seq<string>>)
      ensures blockedSites == (if stored.Some? then stored.value else [])
      ensures siteInput == ""
    {
      blockedSites := if stored.Some? then stored.value else [];
      siteInput := "";
    }

    /**
     * The add button: a non-blank entry not yet listed is appended and the
     * input cleared; anything else changes nothing.
     */
    method Add() returns (added: bool)
      modifies this
      ensures added <==> TypedSite(old(siteInput)) != "" && TypedSite(old(siteInput)) !in old(blockedSites)
      ensures added ==> blockedSites == old(blockedSites) + [TypedSite(old(siteInput))] && siteInput == ""
      ensures !added ==> blockedSites == old(blockedSites) && siteInput == old(siteInput)
      ensures old(Valid()) ==> Valid()
    {
      var site := TypedSite(siteInput);
      if site == "" || site in blockedSites {
        return false;
      }
      AppendFreshKeepsList(blockedSites, site);
      blockedSites := blockedSites + [site];
      siteInput := "";
      added := true;
    }

    /** `removeSite(siteToRemove)`: every equal entry is filtered out. */
    method RemoveSite(siteToRemove: string)
      modifies this
      ensures blockedSites == RemoveAll(old(blockedSites), siteToRemove)
      ensures siteInput == old(siteInput)
      ensures old(Valid()) ==> Valid()
    {
      if NoDuplicates(blockedSites) {
        RemoveAllKeepsNoDuplicates(blockedSites, siteToRemove);
      }
      blockedSites := RemoveAll(blockedSites, siteToRemove);
    }
  }
}
