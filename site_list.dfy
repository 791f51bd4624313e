/**
 * The blocked-site list kept by the website-blocker popups: how a typed or
 * detected site is normalised, and the list operations the popups perform on
 * the stored `blockedSites` array (append when absent, filter out, add or
 * remove a whole collection).
 */
module SiteList {
  import opened Text
  import opened Results

  const HttpScheme := "http://"
  const HttpsScheme := "https://"
  const WwwPrefix := "www."

  // ---------------------------------------------------------------------------
  // Normalisation
  // ---------------------------------------------------------------------------

  /** `replace(/^https?:\/\//, '')`: at most one leading scheme is removed. */
  function StripScheme(s: string): string {
    if StartsWith(s, HttpsScheme) then s[|HttpsScheme|..]
    else if StartsWith(s, HttpScheme) then s[|HttpScheme|..]
    else s
  }

  /** `replace(/^www\./, '')`: at most one leading `www.` is removed. */
  function StripWww(s: string): string {
    if StartsWith(s, WwwPrefix) then s[|WwwPrefix|..] else s
  }

  /** `split('/')[0]`: everything before the first `/`. */
  function StripPath(s: string): string {
    Split(s, "/")[0]
  }

  /** The site the popups store for a raw entry: scheme, then `www.`, then any path removed, in that order. */
  function Normalise(s: string): (r: string)
    ensures '/' !in r
    ensures |r| <= |s|
  {
    var u := StripWww(StripScheme(s));
    SplitFirstHasNoSeparator(u, "/");
    ContainsChar(Split(u, "/")[0], '/');
    StripPath(u)
  }

  /** The normalised site is the longest `/`-free prefix of the entry once scheme and `www.` are gone. */
  lemma NormaliseIsHostPart(s: string)
    ensures var u := StripWww(StripScheme(s));
            var r := Normalise(s);
            StartsWith(u, r) && '/' !in r && (|r| < |u| ==> u[|r|] == '/')
  {
    var u := StripWww(StripScheme(s));
    match Find(u, "/")
    case None =>
    case Some(i) =>
      assert u[i..i + 1] == "/";
  }

  /** Without a `/` there is no scheme to strip. */
  lemma NoSchemeWithoutSlash(s: string)
    requires '/' !in s
    ensures StripScheme(s) == s
  {
    assert !StartsWith(s, HttpsScheme) by { assert HttpsScheme[6] == '/'; }
    assert !StartsWith(s, HttpScheme) by { assert HttpScheme[5] == '/'; }
  }

  /** Without a `/` there is no path to strip. */
  lemma NoPathWithoutSlash(s: string)
    requires '/' !in s
    ensures StripPath(s) == s
  {
    ContainsChar(s, '/');
  }

  /** A bare host (no `/`, no leading `www.`) is stored as it is. */
  lemma NormaliseKeepsBareHost(s: string)
    requires '/' !in s && !StartsWith(s, WwwPrefix)
    ensures Normalise(s) == s
  {
    NoSchemeWithoutSlash(s);
    NoPathWithoutSlash(s);
  }

  /**
   * Normalising twice gives the same site exactly when the first result does not
   * itself start with `www.`; `www.www.example.com` loses one `www.` per pass.
   */
  lemma NormaliseIdempotentIff(s: string)
    ensures Normalise(Normalise(s)) == Normalise(s) <==> !StartsWith(Normalise(s), WwwPrefix)
  {
    var r := Normalise(s);
    if StartsWith(r, WwwPrefix) {
      NoSchemeWithoutSlash(r);
      var v := r[|WwwPrefix|..];
      assert StripWww(StripScheme(r)) == v;
      assert '/' !in v by { assert forall k :: 0 <= k < |v| ==> v[k] == r[k + 4]; }
      NoPathWithoutSlash(v);
      assert Normalise(r) == v;
      assert |v| < |r|;
    } else {
      NormaliseKeepsBareHost(r);
    }
  }

  /** `/` ends the host part. */
  lemma StripPathAtSlash(u: string, k: nat)
    requires k < |u| && u[k] == '/' && '/' !in u[..k]
    ensures StripPath(u) == u[..k]
  {
    SingleCharOccurs(u, '/', k);
    var i := Find(u, "/").value;
    SingleCharOccurs(u, '/', i);
  }

  /** A full URL is cut down to its host without `www.`. */
  lemma NormaliseFullUrl()
    ensures Normalise("https://www.x.io/p") == "x.io"
  {
    var s := "https://www.x.io/p";
    assert StripScheme(s) == "www.x.io/p" by {
      assert StartsWith(s, HttpsScheme);
    }
    assert StripWww("www.x.io/p") == "x.io/p" by {
      assert StartsWith("www.x.io/p", WwwPrefix);
    }
    var u := "x.io/p";
    assert u[..4] == "x.io";
    StripPathAtSlash(u, 4);
  }

  /** Two leading `www.` lose only one per pass. */
  lemma NormaliseDoubleWww()
    ensures Normalise("www.www.x.io") == "www.x.io"
  {
    var s := "www.www.x.io";
    assert '/' !in s;
    NoSchemeWithoutSlash(s);
    assert StartsWith(s, WwwPrefix);
    var v := s[4..];
    assert v == "www.x.io";
    assert '/' !in v;
    NoPathWithoutSlash(v);
  }

  /**
   * `predefinedSite || siteInput.value.trim().toLowerCase()` followed by the
   * normalisation: a non-empty predefined site (the current tab's host) is used
   * as given, otherwise the typed text trimmed and lower-cased.
   */
  function SiteToAdd(predefined: Option<string>, typed: string): string {
    var raw := if predefined.Some? && predefined.value != "" then predefined.value else Lower(JsTrim(typed));
    Normalise(raw)
  }

  predicate HasNoUpperCase(s: string) {
    forall i :: 0 <= i < |s| ==> !('A' <= s[i] <= 'Z')
  }

  lemma NormaliseKeepsNoUpperCase(s: string)
    requires HasNoUpperCase(s)
    ensures HasNoUpperCase(Normalise(s))
  {
    var u := StripWww(StripScheme(s));
    assert HasNoUpperCase(u) by {
      var v := StripScheme(s);
      assert v == s[|s| - |v|..];
      assert u == v[|v| - |u|..];
    }
    NormaliseIsHostPart(s);
    var r := Normalise(s);
    assert r == u[..|r|];
  }

  /** A typed site is stored in lower case. */
  lemma TypedSiteIsLowerCase(typed: string)
    ensures HasNoUpperCase(SiteToAdd(None, typed))
  {
    var raw := Lower(JsTrim(typed));
    assert SiteToAdd(None, typed) == Normalise(raw);
    LowerHasNoUpperCase(JsTrim(typed));
    NormaliseKeepsNoUpperCase(raw);
  }

  lemma LowerHasNoUpperCase(s: string)
    ensures HasNoUpperCase(Lower(s))
  {
    forall i | 0 <= i < |s| ensures !('A' <= Lower(s)[i] <= 'Z') {
      assert Lower(s)[i] == LowerChar(s[i]);
    }
  }

  /**
   * A predefined site (the tab's host) is not lower-cased: a bare host is
   * stored exactly as given, upper-case letters included, whatever was typed.
   */
  lemma PredefinedSiteKeepsCase(host: string, typed: string)
    requires host != "" && '/' !in host && !StartsWith(host, WwwPrefix)
    ensures SiteToAdd(Some(host), typed) == host
  {
    NormaliseKeepsBareHost(host);
  }

  // ---------------------------------------------------------------------------
  // The current tab
  // ---------------------------------------------------------------------------

  /** The two parts of a `new URL(...)` the extensions look at. */
  datatype ParsedUrl = ParsedUrl(protocol: string, hostname: string)

  /**
   * The block-current-site guard: only a protocol starting with `http` is
   * blockable, and then the hostname with one leading `www.` removed is the site.
   */
  function CurrentTabSite(url: ParsedUrl): (r: Option<string>)
    ensures r.Some? <==> StartsWith(url.protocol, "http")
    ensures r.Some? ==> !StartsWith(url.hostname, WwwPrefix) ==> r.value == url.hostname
    ensures r.Some? ==> StartsWith(url.hostname, WwwPrefix) ==> url.hostname == WwwPrefix + r.value
  {
    if StartsWith(url.protocol, "http") then Some(StripWww(url.hostname)) else None
  }

  /** What a popup reports after an add attempt (`showFeedback`), or nothing for an empty site. */
  datatype AddOutcome = Ignored | Added(site: string) | AlreadyBlocked(site: string)

  // ---------------------------------------------------------------------------
  // The list
  // ---------------------------------------------------------------------------

  predicate NoDuplicates(list: seq<string>) {
    forall i, j :: 0 <= i < j < |list| ==> list[i] != list[j]
  }

  /** `a` appears in `b` in the same relative order (greedy matching, which is complete). */
  predicate Subsequence(a: seq<string>, b: seq<string>)
    decreases |b|
  {
    if a == [] then true
    else if b == [] then false
    else if a[0] == b[0] then Subsequence(a[1..], b[1..])
    else Subsequence(a, b[1..])
  }

  /** `if (!blockedSites.includes(site)) blockedSites.push(site)`. */
  function AddIfAbsent(list: seq<string>, site: string): (r: seq<string>)
    ensures |r| == if site in list then |list| else |list| + 1
    ensures r[..|list|] == list
    ensures forall x :: x in r <==> x in list || x == site
  {
    if site in list then list else list + [site]
  }

  /** `blockedSites.filter(site => site !== siteToRemove)`. */
  function RemoveAll(list: seq<string>, site: string): (r: seq<string>)
    ensures site !in r
    ensures forall x :: x != site ==> (x in r <==> x in list)
    ensures multiset(r) == multiset(list)[site := 0]
  {
    if list == [] then []
    else
      assert list == [list[0]] + list[1..];
      if list[0] == site then RemoveAll(list[1..], site)
      else [list[0]] + RemoveAll(list[1..], site)
  }

  /** The `forEach` over a collection's sites, each appended when absent, taken as a left fold. */
  function AddAll(list: seq<string>, sites: seq<string>): seq<string>
    decreases |sites|
  {
    if sites == [] then list
    else AddIfAbsent(AddAll(list, sites[..|sites| - 1]), sites[|sites| - 1])
  }

  /** `blockedSites.filter(site => !collection.sites.includes(site))`. */
  function Without(list: seq<string>, sites: seq<string>): (r: seq<string>)
    ensures forall x :: x in r <==> x in list && x !in sites
  {
    if list == [] then []
    else if list[0] in sites then Without(list[1..], sites)
    else [list[0]] + Without(list[1..], sites)
  }

  /** `collection.sites.every(site => sites.includes(site))`. */
  predicate AllBlocked(collectionSites: seq<string>, sites: seq<string>) {
    forall i :: 0 <= i < |collectionSites| ==> collectionSites[i] in sites
  }

  // ---------------------------------------------------------------------------
  // Properties of the list operations
  // ---------------------------------------------------------------------------

  lemma AddIfAbsentKeepsNoDuplicates(list: seq<string>, site: string)
    requires NoDuplicates(list)
    ensures NoDuplicates(AddIfAbsent(list, site))
  {
  }

  /** A site not yet listed is appended without creating a duplicate or an empty entry. */
  lemma AppendFreshKeepsList(list: seq<string>, site: string)
    requires site !in list
    ensures NoDuplicates(list) ==> NoDuplicates(list + [site])
    ensures "" !in list && site != "" ==> "" !in list + [site]
  {
    if NoDuplicates(list) {
      AddIfAbsentKeepsNoDuplicates(list, site);
    }
  }

  lemma {:induction false} RemoveAllKeepsNoDuplicates(list: seq<string>, site: string)
    requires NoDuplicates(list)
    ensures NoDuplicates(RemoveAll(list, site))
  {
    if list != [] {
      RemoveAllKeepsNoDuplicates(list[1..], site);
      assert list[0] !in list[1..];
    }
  }

  /** Filtering distributes over concatenation, so the kept entries stay in their order. */
  lemma {:induction false} RemoveAllAppend(a: seq<string>, b: seq<string>, site: string)
    ensures RemoveAll(a + b, site) == RemoveAll(a, site) + RemoveAll(b, site)
  {
    if a == [] {
      assert a + b == b;
    } else {
      assert (a + b)[0] == a[0];
      assert (a + b)[1..] == a[1..] + b;
      RemoveAllAppend(a[1..], b, site);
    }
  }

  lemma {:induction false} SubsequenceOfTail(a: seq<string>, b: seq<string>)
    requires |b| > 0 && Subsequence(a, b[1..])
    ensures Subsequence(a, b)
    decreases |b|, 0
  {
    if a != [] && a[0] == b[0] {
      SubsequenceDropHead(a, b[1..]);
    }
  }

  lemma {:induction false} SubsequenceDropHead(a: seq<string>, t: seq<string>)
    requires a != [] && Subsequence(a, t)
    ensures Subsequence(a[1..], t)
    decreases |t|, 1
  {
    assert t != [];
    if a[0] == t[0] {
      SubsequenceOfTail(a[1..], t);
    } else {
      SubsequenceDropHead(a, t[1..]);
      SubsequenceOfTail(a[1..], t);
    }
  }

  lemma {:induction false} RemoveAllKeepsOrder(list: seq<string>, site: string)
    ensures Subsequence(RemoveAll(list, site), list)
  {
    if list != [] {
      RemoveAllKeepsOrder(list[1..], site);
      if list[0] == site {
        SubsequenceOfTail(RemoveAll(list[1..], site), list);
      } else {
        assert ([list[0]] + RemoveAll(list[1..], site))[1..] == RemoveAll(list[1..], site);
      }
    }
  }

  lemma {:induction false} WithoutKeepsOrder(list: seq<string>, sites: seq<string>)
    ensures Subsequence(Without(list, sites), list)
  {
    if list != [] {
      WithoutKeepsOrder(list[1..], sites);
      if list[0] in sites {
        SubsequenceOfTail(Without(list[1..], sites), list);
      } else {
        assert ([list[0]] + Without(list[1..], sites))[1..] == Without(list[1..], sites);
      }
    }
  }

  lemma {:induction false} WithoutKeepsNoDuplicates(list: seq<string>, sites: seq<string>)
    requires NoDuplicates(list)
    ensures NoDuplicates(Without(list, sites))
  {
    if list != [] {
      WithoutKeepsNoDuplicates(list[1..], sites);
      assert list[0] !in list[1..];
    }
  }

  lemma {:induction false} SubsequenceSnoc(a: seq<string>, b: seq<string>, s: string)
    requires Subsequence(a, b)
    ensures Subsequence(a, b + [s]) && Subsequence(a + [s], b + [s])
    decreases |b|
  {
    if a == [] {
      assert a + [s] == [s];
      if b == [] {
        assert b + [s] == [s];
        assert [s][1..] == [];
      } else if b[0] == s {
        assert (b + [s])[0] == s;
      } else {
        assert (b + [s])[1..] == b[1..] + [s];
        SubsequenceSnoc(a, b[1..], s);
      }
    } else if b == [] {
    } else if a[0] == b[0] {
      assert (a + [s])[1..] == a[1..] + [s];
      assert (b + [s])[1..] == b[1..] + [s];
      SubsequenceSnoc(a[1..], b[1..], s);
    } else {
      assert (b + [s])[1..] == b[1..] + [s];
      assert (a + [s])[0] == a[0];
      SubsequenceSnoc(a, b[1..], s);
    }
  }

  /**
   * Enabling a collection keeps every existing entry in place, adds exactly the
   * collection's sites (a union), appends them in the collection's order, and
   * adds no duplicate.
   */
  lemma {:induction false} AddAllShape(list: seq<string>, sites: seq<string>)
    ensures |AddAll(list, sites)| >= |list| && AddAll(list, sites)[..|list|] == list
    ensures forall x :: x in AddAll(list, sites) <==> x in list || x in sites
    ensures Subsequence(AddAll(list, sites)[|list|..], sites)
    ensures NoDuplicates(list) ==> NoDuplicates(AddAll(list, sites))
    decreases |sites|
  {
    if sites != [] {
      var init := sites[..|sites| - 1];
      var last := sites[|sites| - 1];
      AddAllShape(list, init);
      var prev := AddAll(list, init);
      assert sites == init + [last];
      assert forall x :: x in sites <==> x in init || x == last;
      if NoDuplicates(list) { AddIfAbsentKeepsNoDuplicates(prev, last); }
      SubsequenceSnoc(prev[|list|..], init, last);
      if last !in prev {
        assert (prev + [last])[|list|..] == prev[|list|..] + [last];
      }
    } else {
      assert list[|list|..] == [];
    }
  }

  /** After enabling, the collection counts as fully blocked. */
  lemma EnabledCollectionIsBlocked(list: seq<string>, sites: seq<string>)
    ensures AllBlocked(sites, AddAll(list, sites))
  {
    AddAllShape(list, sites);
  }

  /** After disabling, a non-empty collection no longer counts as fully blocked, manually added entries included. */
  lemma DisabledCollectionIsNotBlocked(list: seq<string>, sites: seq<string>)
    requires sites != []
    ensures !AllBlocked(sites, Without(list, sites))
    ensures forall x :: x in sites ==> x !in Without(list, sites)
  {
    assert sites[0] !in Without(list, sites);
  }

  /** The list operations never bring in the empty site when the added entries are not empty. */
  lemma NoEmptySiteAdded(list: seq<string>, site: string, sites: seq<string>)
    requires "" !in list && site != "" && "" !in sites
    ensures "" !in AddIfAbsent(list, site)
    ensures "" !in AddAll(list, sites)
    ensures "" !in RemoveAll(list, site) && "" !in Without(list, sites)
  {
    AddAllShape(list, sites);
  }
}
