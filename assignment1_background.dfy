/**
 * The background worker of the first website blocker: a URL is blocked when
 * some stored entry occurs in its lower-cased hostname, and two listeners
 * redirect a tab to the blocked page. The URL parser (`new URL(url)`) is a
 * parameter; `None` stands for the exception it throws on a malformed URL.
 */
module Assignment1Background {
  import opened Results
  import opened Text
  import opened SiteList

  /** `result.blockedSites || []`. */
  function StoredList(stored: Option<seq<string>>): seq<string> {
    if stored.Some? then stored.value else []
  }

  /** `blockedSites.some(site => hostname.includes(site))` with `hostname` lower-cased. */
  predicate MatchesList(sites: seq<string>, hostname: string)
    decreases |sites|
  {
    sites != [] && (Contains(Lower(hostname), sites[0]) || MatchesList(sites[1..], hostname))
  }

  /** The list matches exactly when some entry is a substring of the lower-cased hostname. */
  lemma {:induction false} MatchesListIff(sites: seq<string>, hostname: string)
    ensures MatchesList(sites, hostname) <==> exists i :: 0 <= i < |sites| && Contains(Lower(hostname), sites[i])
    decreases |sites|
  {
    if sites != [] {
      MatchesListIff(sites[1..], hostname);
      if exists i :: 0 <= i < |sites| && Contains(Lower(hostname), sites[i]) {
        var i :| 0 <= i < |sites| && Contains(Lower(hostname), sites[i]);
        if i > 0 { assert sites[1..][i - 1] == sites[i]; }
      }
    }
  }

  /** An entry that occurs in the hostname blocks it, wherever the entry sits in the list. */
  lemma ListedEntryMatches(sites: seq<string>, hostname: string, site: string)
    requires site in sites && Contains(Lower(hostname), site)
    ensures MatchesList(sites, hostname)
  {
    MatchesListIff(sites, hostname);
  }

  /** An empty entry occurs in every hostname, so it blocks every page. */
  lemma EmptyEntryBlocksEverything(sites: seq<string>, hostname: string)
    requires "" in sites
    ensures MatchesList(sites, hostname)
  {
    assert Occurs(Lower(hostname), "", 0);
    ContainsIff(Lower(hostname), "");
    ListedEntryMatches(sites, hostname, "");
  }

  /** An entry holding an upper-case letter never matches: the hostname is lower-cased first. */
  lemma UpperCaseEntryNeverMatches(hostname: string, site: string, k: nat)
    requires k < |site| && 'A' <= site[k] <= 'Z'
    ensures !Contains(Lower(hostname), site)
  {
    var h := Lower(hostname);
    ContainsIff(h, site);
    forall p | 0 <= p ensures !Occurs(h, site, p) {
      if p + |site| <= |h| {
        assert h[p..p + |site|][k] == h[p + k];
      }
    }
  }

  /** Matching is by substring, so an entry also blocks every hostname that merely contains it. */
  lemma SubstringMatchExample()
    ensures MatchesList(["x.io"], "ax.io")
  {
    assert Lower("ax.io") == "ax.io";
    assert Occurs("ax.io", "x.io", 1);
    ContainsIff("ax.io", "x.io");
  }

  /** `isBlocked(url)`: `None` when the URL does not parse, so the promise never settles. */
  function IsBlocked(stored: Option<seq<string>>, url: string, parseUrl: string -> Option<ParsedUrl>): (r: Option<bool>)
    ensures r.None? <==> parseUrl(url).None?
    ensures r.Some? ==> (r.value <==> exists i :: 0 <= i < |StoredList(stored)|
                                       && Contains(Lower(parseUrl(url).value.hostname), StoredList(stored)[i]))
  {
    match parseUrl(url)
    case None => None
    case Some(u) =>
      MatchesListIff(StoredList(stored), u.hostname);
      Some(MatchesList(StoredList(stored), u.hostname))
  }

  /** With no list stored, or an empty one, nothing is blocked. */
  lemma NothingStoredBlocksNothing(url: string, parseUrl: string -> Option<ParsedUrl>)
    ensures IsBlocked(None, url, parseUrl) != Some(true)
    ensures IsBlocked(Some([]), url, parseUrl) != Some(true)
  {
  }

  // ---------------------------------------------------------------------------
  // Listeners. `decide` is the worker's verdict on a URL; the result is the tab
  // to send to the blocked page, if any.
  // ---------------------------------------------------------------------------

  /** `webNavigation.onBeforeNavigate`: only main-frame navigations (`frameId === 0`) are checked. */
  function OnBeforeNavigate(tabId: int, url: string, frameId: int, decide: string -> Option<bool>): (r: Option<int>)
    ensures r.Some? <==> frameId == 0 && decide(url) == Some(true)
    ensures r.Some? ==> r.value == tabId
  {
    if frameId == 0 && decide(url) == Some(true) then Some(tabId) else None
  }

  /** `tabs.onUpdated`: checked only while loading and when the tab has a non-empty URL. */
  function OnTabUpdated(tabId: int, status: Option<string>, tabUrl: Option<string>, decide: string -> Option<bool>): (r: Option<int>)
    ensures r.Some? <==> status == Some("loading") && tabUrl.Some? && tabUrl.value != "" && decide(tabUrl.value) == Some(true)
    ensures r.Some? ==> r.value == tabId
  {
    if status == Some("loading") && tabUrl.Some? && tabUrl.value != "" && decide(tabUrl.value) == Some(true) then Some(tabId)
    else None
  }

  /** A sub-frame navigation never redirects, whatever the URL and the verdict. */
  lemma SubFramesNeverRedirect(tabId: int, url: string, frameId: int, decide: string -> Option<bool>)
    requires frameId != 0
    ensures OnBeforeNavigate(tabId, url, frameId, decide) == None
  {
  }
}
