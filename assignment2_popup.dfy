/**
 * The popup of the second website blocker, which asks Gemini before blocking
 * the current tab. The stored `blockedSites` and `apiKey` entries and the two
 * input boxes are the fields of a `Popup`.
 */
module Assignment2Popup {
  import opened Results
  import opened Text
  import opened SiteList
  import opened DistractionCheck

  /** What block-current-site did. */
  datatype TabOutcome =
    | NoApiKey              // no usable key stored: 'Please save an API key first'
    | NoTab                 // `tabs[0]` is missing: nothing happens
    | UrlError              // `new URL(tabs[0].url)` throws: nothing happens
    | CannotBlock           // the protocol does not start with `http`
    | NotDistracting        // the model did not answer yes
    | Tried(add: AddOutcome)

  class Popup {
    /** The stored `blockedSites` array. */
    var blockedSites: seq<string>
    /** The stored `apiKey`. */
    var apiKey: Option<string>
    /** The text in the site input box. */
    var siteInput: string
    /** The text in the API key input box. */
    var apiKeyInput: string

    /** No site twice, no empty site, and a stored key is never empty. */
    ghost predicate Valid()
      reads this
    {
      NoDuplicates(blockedSites) && "" !in blockedSites && (apiKey.Some? ==> apiKey.value != "")
    }

    /** `!result.apiKey` is false: a key is stored and is not the empty string. */
    predicate HasApiKey()
      reads this
    {
      apiKey.Some? && apiKey.value != ""
    }

    /** The popup opening on what storage holds; a missing list reads as empty. */
    constructor (stored: Option<seq<string>>, storedKey: Option<string>)
      ensures blockedSites == (if stored.Some? then stored.value else [])
      ensures apiKey == storedKey
      ensures siteInput == "" && apiKeyInput == ""
    {
      blockedSites := if stored.Some? then stored.value else [];
      apiKey := storedKey;
      siteInput := "";
      apiKeyInput := "";
    }

    /** The save-key button: the trimmed key is stored only when it is not empty. */
    method SaveApiKey() returns (saved: bool)
      modifies this`apiKey
      ensures saved <==> JsTrim(apiKeyInput) != ""
      ensures apiKey == if saved then Some(JsTrim(apiKeyInput)) else old(apiKey)
      ensures old(Valid()) ==> Valid()
    {
      var key := JsTrim(apiKeyInput);
      saved := key != "";
      if saved {
        apiKey := Some(key);
      }
    }

    /**
     * `addSite(predefinedSite)`: an empty site or one already listed changes
     * nothing; a new site is appended and the input cleared when it was typed.
     */
    twostate predicate AddSiteDone(predefined: Option<string>, outcome: AddOutcome)
      reads this
    {
      var site := SiteToAdd(predefined, old(siteInput));
      && apiKey == old(apiKey) && apiKeyInput == old(apiKeyInput)
      && if site == "" || site in old(blockedSites) then
           && outcome == (if site == "" then Ignored else AlreadyBlocked(site))
           && blockedSites == old(blockedSites)
           && siteInput == old(siteInput)
         else
           && outcome == Added(site)
           && blockedSites == old(blockedSites) + [site]
           && siteInput == (if predefined.Some? && predefined.value != "" then old(siteInput) else "")
    }

    method AddSite(predefined: Option<string>) returns (outcome: AddOutcome)
      modifies this
      ensures AddSiteDone(predefined, outcome)
      ensures old(Valid()) ==> Valid()
    {
      var site := SiteToAdd(predefined, siteInput);
      if site == "" || site in blockedSites {
        outcome := if site == "" then Ignored else AlreadyBlocked(site);
        return;
      }
      Append(site, !(predefined.Some? && predefined.value != ""));
      outcome := Added(site);
    }

    /** Appending a new, non-empty site, and clearing the input box when asked. */
    method Append(site: string, clear: bool)
      requires site != "" && site !in blockedSites
      modifies this`blockedSites, this`siteInput
      ensures blockedSites == old(blockedSites) + [site]
      ensures siteInput == if clear then "" else old(siteInput)
      ensures old(Valid()) ==> Valid()
    {
      AppendFreshKeepsList(blockedSites, site);
      blockedSites := blockedSites + [site];
      if clear {
        siteInput := "";
      }
    }

    /** `removeSite(siteToRemove)`: every equal entry is filtered out. */
    method RemoveSite(siteToRemove: string)
      modifies this
      ensures blockedSites == RemoveAll(old(blockedSites), siteToRemove)
      ensures apiKey == old(apiKey) && siteInput == old(siteInput) && apiKeyInput == old(apiKeyInput)
      ensures old(Valid()) ==> Valid()
    {
      if NoDuplicates(blockedSites) {
        RemoveAllKeepsNoDuplicates(blockedSites, siteToRemove);
      }
      blockedSites := RemoveAll(blockedSites, siteToRemove);
    }

    /**
     * The block-current-site button: with a key stored and an `http` page open,
     * the hostname without one leading `www.` is put to the model, and added
     * through `addSite` only on a yes.
     */
    method BlockCurrentSite(tabUrl: Option<string>, parseUrl: string -> Option<ParsedUrl>,
                            gemini: (string, string) -> Option<string>) returns (outcome: TabOutcome)
      modifies this
      ensures var d := TabDecision(old(apiKey), tabUrl, parseUrl, gemini);
              && (d.Err? ==> outcome == d.error && unchanged(this))
              && (d.Ok? ==> outcome.Tried? && AddSiteDone(Some(d.value), outcome.add))
      ensures old(Valid()) ==> Valid()
    {
      var d := TabDecision(apiKey, tabUrl, parseUrl, gemini);
      if d.Err? {
        return d.error;
      }
      var added := AddSite(Some(d.value));
      outcome := Tried(added);
    }
  }

  /**
   * Where the block-current-site button stops, or the site it hands to
   * `addSite`: the key is checked first, then the tab, the URL, the protocol
   * and the model's verdict on the hostname.
   */
  function TabDecision(apiKey: Option<string>, tabUrl: Option<string>, parseUrl: string -> Option<ParsedUrl>,
                       gemini: (string, string) -> Option<string>): Result<string, TabOutcome>
  {
    if apiKey.None? || apiKey.value == "" then Err(NoApiKey)
    else if tabUrl.None? then Err(NoTab)
    else match parseUrl(tabUrl.value)
      case None => Err(UrlError)
      case Some(u) =>
        match CurrentTabSite(u)
        case None => Err(CannotBlock)
        case Some(site) => if CheckIfDistracting(site, apiKey.value, gemini) then Ok(site) else Err(NotDistracting)
  }

  /**
   * A site is handed to `addSite` exactly when a key is stored, the tab's URL
   * parses with an `http` protocol and the model calls the hostname, less one
   * leading `www.`, distracting; the button never stops with `Tried`.
   */
  lemma TabDecisionMeaning(apiKey: Option<string>, tabUrl: Option<string>, parseUrl: string -> Option<ParsedUrl>,
                           gemini: (string, string) -> Option<string>)
    ensures var d := TabDecision(apiKey, tabUrl, parseUrl, gemini);
            && (d.Ok? <==> apiKey.Some? && apiKey.value != "" && tabUrl.Some? && parseUrl(tabUrl.value).Some?
                           && StartsWith(parseUrl(tabUrl.value).value.protocol, "http")
                           && CheckIfDistracting(CurrentTabSite(parseUrl(tabUrl.value).value).value, apiKey.value, gemini))
            && (d.Ok? ==> var host := parseUrl(tabUrl.value).value.hostname;
                          d.value == if StartsWith(host, WwwPrefix) then host[|WwwPrefix|..] else host)
            && (d.Err? ==> !d.error.Tried?)
            && (apiKey.None? || apiKey.value == "" ==> d == Err(NoApiKey))
  {
    if apiKey.Some? && apiKey.value != "" && tabUrl.Some? && parseUrl(tabUrl.value).Some? {
      var u := parseUrl(tabUrl.value).value;
      if CurrentTabSite(u).Some? {
        var site := CurrentTabSite(u).value;
        var yes := CheckIfDistracting(site, apiKey.value, gemini);
        assert TabDecision(apiKey, tabUrl, parseUrl, gemini) == if yes then Ok(site) else Err(NotDistracting);
        if StartsWith(u.hostname, WwwPrefix) {
          assert u.hostname[|WwwPrefix|..] == site;
        }
      }
    }
  }
}
