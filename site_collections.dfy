/**
 * The predefined site collections (`siteCollections`) and the per-collection
 * "active" flags the first blocker popup keeps in storage.
 */
module SiteCollections {
  import opened SiteList

  /** One entry of `siteCollections`: its object key, display name and sites. */
  datatype Collection = Collection(key: string, name: string, sites: seq<string>)

  /** Object keys are unique. */
  predicate DistinctKeys(collections: seq<Collection>) {
    forall i, j :: 0 <= i < j < |collections| ==> collections[i].key != collections[j].key
  }

  predicate HasKey(collections: seq<Collection>, key: string) {
    exists i :: 0 <= i < |collections| && collections[i].key == key
  }

  /** `siteCollections`, in `Object.entries` order. */
  const All: seq<Collection> := [
    Collection("socialMedia", "Social Media", [
      "facebook.com", "instagram.com", "twitter.com", "tiktok.com", "linkedin.com",
      "reddit.com", "pinterest.com", "snapchat.com", "tumblr.com", "whatsapp.com"]),
    Collection("entertainment", "Entertainment", [
      "youtube.com", "netflix.com", "primevideo.com", "hotstar.com", "twitch.tv",
      "vimeo.com", "dailymotion.com", "zee5.com", "sonyliv.com"]),
    Collection("sports", "Sports", [
      "espn.com", "cricbuzz.com", "sports.ndtv.com", "goal.com", "nba.com",
      "fifa.com", "bcci.tv", "iplt20.com", "skysports.com"]),
    Collection("news", "News", [
      "news.google.com", "timesofindia.indiatimes.com", "ndtv.com", "indianexpress.com",
      "hindustantimes.com", "news18.com", "bbc.com", "cnn.com"]),
    Collection("gaming", "Gaming", [
      "miniclip.com", "poki.com", "gamespot.com", "ign.com", "steam.com",
      "epicgames.com", "friv.com", "y8.com"])
  ]

  lemma AllHasDistinctKeys()
    ensures DistinctKeys(All)
  {
  }

  /**
   * The `forEach` of `updateCollectionStates` over the collections, each
   * assignment `activeCollections[key] = allSitesBlocked` taken in order.
   */
  function RefreshStates(active: map<string, bool>, collections: seq<Collection>, sites: seq<string>): map<string, bool>
    decreases |collections|
  {
    if collections == [] then active
    else
      var last := collections[|collections| - 1];
      RefreshStates(active, collections[..|collections| - 1], sites)[last.key := AllBlocked(last.sites, sites)]
  }

  /** After the refresh, each collection's flag is true exactly when all its sites are in the list. */
  lemma {:induction false} RefreshStatesSetsFlags(active: map<string, bool>, collections: seq<Collection>, sites: seq<string>)
    requires DistinctKeys(collections)
    ensures forall i :: 0 <= i < |collections| ==>
              var m := RefreshStates(active, collections, sites);
              collections[i].key in m && m[collections[i].key] == AllBlocked(collections[i].sites, sites)
    decreases |collections|
  {
    if collections != [] {
      var init := collections[..|collections| - 1];
      assert DistinctKeys(init);
      RefreshStatesSetsFlags(active, init, sites);
    }
  }

  /** The flags of keys that are not collections are left as they were. */
  lemma {:induction false} RefreshStatesKeepsOthers(active: map<string, bool>, collections: seq<Collection>, sites: seq<string>)
    ensures forall k :: k in active && !HasKey(collections, k) ==>
              var m := RefreshStates(active, collections, sites);
              k in m && m[k] == active[k]
    decreases |collections|
  {
    if collections != [] {
      var init := collections[..|collections| - 1];
      RefreshStatesKeepsOthers(active, init, sites);
      forall k | HasKey(init, k) ensures HasKey(collections, k) {
        var i :| 0 <= i < |init| && init[i].key == k;
        assert collections[i].key == k;
      }
    }
  }

  /** No key other than the stored ones and the collections' keys appears. */
  lemma {:induction false} RefreshStatesKeys(active: map<string, bool>, collections: seq<Collection>, sites: seq<string>)
    ensures forall k :: k in RefreshStates(active, collections, sites) ==> k in active || HasKey(collections, k)
    decreases |collections|
  {
    if collections != [] {
      var n := |collections|;
      var init := collections[..n - 1];
      RefreshStatesKeys(active, init, sites);
      forall k | HasKey(init, k) ensures HasKey(collections, k) {
        var i :| 0 <= i < |init| && init[i].key == k;
        assert collections[i].key == k;
      }
      assert HasKey(collections, collections[n - 1].key);
    }
  }

  /** The three facts together, as the popup relies on them. */
  lemma RefreshStatesMeaning(active: map<string, bool>, collections: seq<Collection>, sites: seq<string>)
    requires DistinctKeys(collections)
    ensures forall i :: 0 <= i < |collections| ==>
              var m := RefreshStates(active, collections, sites);
              collections[i].key in m && m[collections[i].key] == AllBlocked(collections[i].sites, sites)
    ensures forall k :: k in active && !HasKey(collections, k) ==>
              var m := RefreshStates(active, collections, sites);
              k in m && m[k] == active[k]
    ensures forall k :: k in RefreshStates(active, collections, sites) ==> k in active || HasKey(collections, k)
  {
    RefreshStatesSetsFlags(active, collections, sites);
    RefreshStatesKeepsOthers(active, collections, sites);
    RefreshStatesKeys(active, collections, sites);
  }
}
