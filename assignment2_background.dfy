/**
 * The background worker of the second website blocker: Chrome's own pages are
 * never blocked, listed sites always are, and every other page is put to
 * Gemini. `isBlocked` and the two listeners are the same code as in the first
 * blocker and are taken from `Assignment1Background`.
 */
module Assignment2Background {
  import opened Results
  import opened Text
  import opened SiteList
  import opened DistractionCheck
  import opened Assignment1Background

  /** `chromeInternalProtocols`. */
  const InternalPrefixes: seq<string> := ["chrome://", "chrome-extension://", "about:", "chrome-search://", "devtools://"]

  /** `prefixes.some(protocol => url.startsWith(protocol))`. */
  predicate StartsWithAny(url: string, prefixes: seq<string>)
    decreases |prefixes|
  {
    prefixes != [] && (StartsWith(url, prefixes[0]) || StartsWithAny(url, prefixes[1..]))
  }

  /** `isChromeInternalPage(url)`. */
  predicate IsChromeInternalPage(url: string) {
    StartsWithAny(url, InternalPrefixes)
  }

  /** A URL is internal exactly when it starts with one of the five prefixes. */
  lemma IsChromeInternalPageIff(url: string)
    ensures IsChromeInternalPage(url) <==>
              StartsWith(url, "chrome://") || StartsWith(url, "chrome-extension://") || StartsWith(url, "about:")
              || StartsWith(url, "chrome-search://") || StartsWith(url, "devtools://")
  {
    var p := InternalPrefixes;
    assert p[1..][1..][1..][1..][1..] == [];
    assert StartsWithAny(url, p[1..][1..][1..][1..]) <==> StartsWith(url, "devtools://");
    assert StartsWithAny(url, p[1..][1..][1..]) <==> StartsWith(url, "chrome-search://") || StartsWith(url, "devtools://");
  }

  /** Web pages are never exempt: no internal prefix starts with `h`. */
  lemma WebPageIsNotInternal(url: string)
    requires StartsWith(url, "http")
    ensures !IsChromeInternalPage(url)
  {
    IsChromeInternalPageIff(url);
    assert url[0] == 'h';
    assert !StartsWith(url, "chrome://") by { assert "chrome://"[0] == 'c'; }
    assert !StartsWith(url, "chrome-extension://") by { assert "chrome-extension://"[0] == 'c'; }
    assert !StartsWith(url, "about:") by { assert "about:"[0] == 'a'; }
    assert !StartsWith(url, "chrome-search://") by { assert "chrome-search://"[0] == 'c'; }
    assert !StartsWith(url, "devtools://") by { assert "devtools://"[0] == 'd'; }
  }

  /**
   * `checkWithGemini(site)`: false when no key is stored (or it is empty),
   * otherwise the yes/no verdict on the model's reply.
   */
  predicate CheckWithGemini(apiKey: Option<string>, site: string, gemini: (string, string) -> Option<string>) {
    apiKey.Some? && apiKey.value != "" && CheckIfDistracting(site, apiKey.value, gemini)
  }

  /** The model is asked only with a key, and its reply decides only as a padded `yes`. */
  lemma CheckWithGeminiMeaning(apiKey: Option<string>, site: string, gemini: (string, string) -> Option<string>)
    ensures CheckWithGemini(apiKey, site, gemini) <==>
              apiKey.Some? && apiKey.value != "" && gemini(apiKey.value, Prompt(site)).Some?
              && exists i: nat, j: nat :: var t := gemini(apiKey.value, Prompt(site)).value;
                   i <= j <= |t| && AllSpace(t[..i], IsJsSpace) && Lower(t[i..j]) == Yes && AllSpace(t[j..], IsJsSpace)
  {
    if apiKey.Some? && gemini(apiKey.value, Prompt(site)).Some? {
      IsYesIff(gemini(apiKey.value, Prompt(site)).value);
    }
  }

  /**
   * `shouldBlock(url)`: internal pages first, then the list, then the model on
   * the lower-cased hostname. `None` when the URL does not parse (the promise
   * is rejected and the listener does nothing).
   */
  function ShouldBlock(url: string, stored: Option<seq<string>>, apiKey: Option<string>,
                       parseUrl: string -> Option<ParsedUrl>, gemini: (string, string) -> Option<string>): Option<bool>
  {
    if IsChromeInternalPage(url) then Some(false)
    else match parseUrl(url)
      case None => None
      case Some(u) =>
        if IsBlocked(stored, url, parseUrl) == Some(true) then Some(true)
        else Some(CheckWithGemini(apiKey, Lower(u.hostname), gemini))
  }

  /** An internal page is never blocked, whatever the list, the key and the model say. */
  lemma InternalPageNeverBlocked(url: string, stored: Option<seq<string>>, apiKey: Option<string>,
                                 parseUrl: string -> Option<ParsedUrl>, gemini: (string, string) -> Option<string>)
    requires IsChromeInternalPage(url)
    ensures ShouldBlock(url, stored, apiKey, parseUrl, gemini) == Some(false)
  {
  }

  /** A listed page is blocked without the model being consulted: any two models give the same verdict. */
  lemma ListedPageBlockedWithoutModel(url: string, stored: Option<seq<string>>, apiKey: Option<string>,
                                      parseUrl: string -> Option<ParsedUrl>,
                                      gemini: (string, string) -> Option<string>, other: (string, string) -> Option<string>)
    requires !IsChromeInternalPage(url) && IsBlocked(stored, url, parseUrl) == Some(true)
    ensures ShouldBlock(url, stored, apiKey, parseUrl, gemini) == Some(true)
    ensures ShouldBlock(url, stored, apiKey, parseUrl, gemini) == ShouldBlock(url, stored, apiKey, parseUrl, other)
  {
  }

  /** Every other parsable page gets the model's verdict on its lower-cased hostname. */
  lemma OtherPagesGetModelVerdict(url: string, stored: Option<seq<string>>, apiKey: Option<string>,
                                  parseUrl: string -> Option<ParsedUrl>, gemini: (string, string) -> Option<string>)
    requires !IsChromeInternalPage(url) && parseUrl(url).Some? && IsBlocked(stored, url, parseUrl) == Some(false)
    ensures ShouldBlock(url, stored, apiKey, parseUrl, gemini)
            == Some(CheckWithGemini(apiKey, Lower(parseUrl(url).value.hostname), gemini))
  {
  }

  /** A page is blocked exactly when it is not internal, parses, and is listed or judged distracting. */
  lemma ShouldBlockIff(url: string, stored: Option<seq<string>>, apiKey: Option<string>,
                       parseUrl: string -> Option<ParsedUrl>, gemini: (string, string) -> Option<string>)
    ensures ShouldBlock(url, stored, apiKey, parseUrl, gemini) == Some(true) <==>
              && !IsChromeInternalPage(url)
              && parseUrl(url).Some?
              && (MatchesList(StoredList(stored), parseUrl(url).value.hostname)
                  || CheckWithGemini(apiKey, Lower(parseUrl(url).value.hostname), gemini))
  {
  }

  /** Without a stored key the second blocker decides like the first one, except that internal pages are exempt. */
  lemma NoKeyMeansListOnly(url: string, stored: Option<seq<string>>, apiKey: Option<string>,
                           parseUrl: string -> Option<ParsedUrl>, gemini: (string, string) -> Option<string>)
    requires apiKey.None? || apiKey.value == ""
    ensures ShouldBlock(url, stored, apiKey, parseUrl, gemini)
            == if IsChromeInternalPage(url) then Some(false) else IsBlocked(stored, url, parseUrl)
  {
  }
}
