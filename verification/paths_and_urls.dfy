/**
  The base path and URL bindings of the application (`registerAppPaths`,
  `registerAppUrls`) and the `asset_url` override (`getAssetUrl`).

  `plugin_dir_path` and `plugin_dir_url` belong to the host; their results for
  the base file arrive here as the strings `base` and `url`.
*/
module PathsAndUrls {
  import opened Wrappers
  import opened AppState

  /** The application's `$prefix`: every derived path and URL sits below it. */
  const Prefix := "v2"

  /** Every key `registerAppPaths` binds. */
  const PathKeys: set<string> := {
    "path", "path.app", "path.config", "path.public", "path.framework", "path.resource",
    "path.storage", "path.asset", "path.language", "path.view", "path.vendor"
  }

  /** Every key `registerAppUrls` binds. */
  const UrlKeys: set<string> := {"url", "url.public", "url.resource", "url.asset", "url.vendor"}

  /** No key is both a path key and a URL key. */
  lemma PathAndUrlKeysDisjoint()
    ensures PathKeys !! UrlKeys
  {
  }

  /**
    PHP truthiness of the `asset_url` entry, restricted to the values it can
    take: missing, `null` and `false` are `None`; `""` and `"0"` are falsy strings.
  */
  predicate IsTruthy(assetUrl: Option<string>) {
    assetUrl.Some? && assetUrl.value != "" && assetUrl.value != "0"
  }

  /** `$this->appConfig['asset_url'] ?: $path`. */
  function GetAssetUrl(assetUrl: Option<string>, default: string): (r: string)
    ensures IsTruthy(assetUrl) ==> r == assetUrl.value
    ensures !IsTruthy(assetUrl) ==> r == default
    ensures r == default || Some(r) == assetUrl
  {
    if IsTruthy(assetUrl) then assetUrl.value else default
  }

  /** No key of the list is named again by a later entry. */
  predicate DistinctKeys(entries: seq<(string, string)>) {
    forall i, j | 0 <= i < j < |entries| :: entries[i].0 != entries[j].0
  }

  lemma DistinctLaterKeys(entries: seq<(string, string)>, i: nat)
    requires DistinctKeys(entries) && i < |entries|
    ensures entries[i].0 !in KeysOf(entries[i + 1..])
  {
    var rest := entries[i + 1..];
    forall j | 0 <= j < |rest|
      ensures rest[j].0 != entries[i].0
    {
      assert rest[j] == entries[i + 1 + j];
    }
  }

  /** In a list with distinct keys, binding every entry leaves each key holding its entry's value. */
  lemma BindEachDistinct(app: App, entries: seq<(string, string)>)
    requires DistinctKeys(entries)
    ensures forall i | 0 <= i < |entries| ::
      && entries[i].0 in BindEach(app, entries).bindings
      && BindEach(app, entries).bindings[entries[i].0] == entries[i].1
  {
    forall i | 0 <= i < |entries|
      ensures entries[i].0 in BindEach(app, entries).bindings
      ensures BindEach(app, entries).bindings[entries[i].0] == entries[i].1
    {
      DistinctLaterKeys(entries, i);
      BindEachLastWins(app, entries, i);
    }
  }

  /** The path bindings `registerAppPaths` makes, in its order. */
  function PathEntries(base: string): seq<(string, string)> {
    [ ("path", base),
      ("path.app", base + "/" + Prefix + "/" + "app/"),
      ("path.config", base + "/" + Prefix + "/" + "config/"),
      ("path.public", base + "/" + Prefix + "/" + "public/"),
      ("path.framework", base + "/" + Prefix + "/" + "framework/"),
      ("path.resource", base + "/" + Prefix + "/" + "resources/"),
      ("path.storage", base + "/" + Prefix + "/" + "storage/"),
      ("path.asset", base + "/" + Prefix + "/" + "resources/assets/"),
      ("path.language", base + "/" + Prefix + "/" + "resources/languages/"),
      ("path.view", base + "/" + Prefix + "/" + "resources/views/"),
      ("path.vendor", base + Prefix + "/vendor/") ]
  }

  lemma PathEntriesKeys(base: string)
    ensures KeysOf(PathEntries(base)) == PathKeys
  {
    var es := PathEntries(base);
    forall k | k in PathKeys
      ensures k in KeysOf(es)
    {
      var i := if k == "path" then 0 else if k == "path.app" then 1 else if k == "path.config" then 2
        else if k == "path.public" then 3 else if k == "path.framework" then 4
        else if k == "path.resource" then 5 else if k == "path.storage" then 6
        else if k == "path.asset" then 7 else if k == "path.language" then 8
        else if k == "path.view" then 9 else 10;
      assert es[i].0 == k;
    }
  }

  lemma PathEntriesDistinct(base: string)
    ensures DistinctKeys(PathEntries(base))
  {
  }

  /**
    `registerAppPaths`: binds every entry of `PathEntries`, first to last.
    Only the path keys are touched; the rest of the application is unchanged.
  */
  function RegisterAppPaths(app: App, base: string): (r: App)
    ensures r.bindings.Keys == app.bindings.Keys + PathKeys
    ensures forall k | k in app.bindings && k !in PathKeys :: r.bindings[k] == app.bindings[k]
    ensures r.engineBootedCallbacks == app.engineBootedCallbacks
    ensures r.pluginReadyCallbacks == app.pluginReadyCallbacks
    ensures r.isFacadeLoaderRegistered == app.isFacadeLoaderRegistered
    ensures r.trace == app.trace
  {
    PathEntriesKeys(base);
    BindEach(app, PathEntries(base))
  }

  /** The URL bindings `registerAppUrls` makes, in its order. */
  function UrlEntries(url: string, assetUrl: Option<string>): seq<(string, string)> {
    [ ("url", url),
      ("url.public", url + "/" + Prefix + "/public/"),
      ("url.resource", url + "/" + Prefix + "/resources/"),
      ("url.asset", GetAssetUrl(assetUrl, url + Prefix + "/resources/assets/")),
      ("url.vendor", url + Prefix + "/vendor/") ]
  }

  lemma UrlEntriesKeys(url: string, assetUrl: Option<string>)
    ensures KeysOf(UrlEntries(url, assetUrl)) == UrlKeys
  {
    var es := UrlEntries(url, assetUrl);
    forall k | k in UrlKeys
      ensures k in KeysOf(es)
    {
      var i := if k == "url" then 0 else if k == "url.public" then 1
        else if k == "url.resource" then 2 else if k == "url.asset" then 3 else 4;
      assert es[i].0 == k;
    }
  }

  lemma UrlEntriesDistinct(url: string, assetUrl: Option<string>)
    ensures DistinctKeys(UrlEntries(url, assetUrl))
  {
  }

  /**
    `registerAppUrls`: binds every entry of `UrlEntries`, first to last.
    Only the URL keys are touched; the rest of the application is unchanged.
  */
  function RegisterAppUrls(app: App, url: string, assetUrl: Option<string>): (r: App)
    ensures r.bindings.Keys == app.bindings.Keys + UrlKeys
    ensures forall k | k in app.bindings && k !in UrlKeys :: r.bindings[k] == app.bindings[k]
    ensures r.engineBootedCallbacks == app.engineBootedCallbacks
    ensures r.pluginReadyCallbacks == app.pluginReadyCallbacks
    ensures r.isFacadeLoaderRegistered == app.isFacadeLoaderRegistered
    ensures r.trace == app.trace
  {
    UrlEntriesKeys(url, assetUrl);
    BindEach(app, UrlEntries(url, assetUrl))
  }

  /** After `registerAppPaths`, every path entry holds its value: no later entry overwrites it. */
  lemma PathBindings(app: App, base: string)
    ensures var r := RegisterAppPaths(app, base).bindings;
      forall i | 0 <= i < |PathEntries(base)| ::
        PathEntries(base)[i].0 in r && r[PathEntries(base)[i].0] == PathEntries(base)[i].1
  {
    PathEntriesDistinct(base);
    BindEachDistinct(app, PathEntries(base));
  }

  lemma PrefixOfConcat(a: string, b: string)
    ensures IsPrefix(a, a + b)
  {
    assert (a + b)[..|a|] == a;
  }

  /** The values of the path entries between the first and the last start with `dir`. */
  lemma PathEntriesUnderDir(base: string)
    ensures forall i | 1 <= i <= 9 :: IsPrefix(base + "/" + Prefix + "/", PathEntries(base)[i].1)
  {
    var dir := base + "/" + Prefix + "/";
    var es := PathEntries(base);
    forall i | 1 <= i <= 9
      ensures IsPrefix(dir, es[i].1)
    {
      var sub := es[i].1[|dir|..];
      if i == 1 { sub := "app/"; }
      else if i == 2 { sub := "config/"; }
      else if i == 3 { sub := "public/"; }
      else if i == 4 { sub := "framework/"; }
      else if i == 5 { sub := "resources/"; }
      else if i == 6 { sub := "storage/"; }
      else if i == 7 { sub := "resources/assets/"; }
      else if i == 8 { sub := "resources/languages/"; }
      else { sub := "resources/views/"; }
      assert es[i].1 == dir + sub;
      PrefixOfConcat(dir, sub);
    }
  }

  /**
    `path` is the base itself, and `path.vendor` is the base followed directly
    by the prefix, with no separator between them.
  */
  lemma BaseAndVendorPaths(app: App, base: string)
    ensures var r := RegisterAppPaths(app, base).bindings;
      && "path" in r && r["path"] == base
      && "path.vendor" in r && r["path.vendor"] == base + Prefix + "/vendor/"
  {
    var es := PathEntries(base);
    PathEntriesDistinct(base);
    DistinctLaterKeys(es, 0);
    DistinctLaterKeys(es, 10);
    BindEachLastWins(app, es, 0);
    BindEachLastWins(app, es, 10);
  }

  /**
    Every other path (the entries between `path` and `path.vendor`) lies under
    the base, a separator, the prefix and a separator.
  */
  lemma PathsUnderBase(app: App, base: string)
    ensures var r := RegisterAppPaths(app, base).bindings;
      forall i | 1 <= i <= 9 ::
        PathEntries(base)[i].0 in r && IsPrefix(base + "/" + Prefix + "/", r[PathEntries(base)[i].0])
  {
    PathBindings(app, base);
    PathEntriesUnderDir(base);
  }

  /** After `registerAppUrls`, every URL entry holds its value: no later entry overwrites it. */
  lemma UrlBindings(app: App, url: string, assetUrl: Option<string>)
    ensures var r := RegisterAppUrls(app, url, assetUrl).bindings;
      forall i | 0 <= i < |UrlEntries(url, assetUrl)| ::
        && UrlEntries(url, assetUrl)[i].0 in r
        && r[UrlEntries(url, assetUrl)[i].0] == UrlEntries(url, assetUrl)[i].1
  {
    UrlEntriesDistinct(url, assetUrl);
    BindEachDistinct(app, UrlEntries(url, assetUrl));
  }

  /**
    `url.asset` is the configured `asset_url` when that value is truthy, and
    otherwise the default assets URL: the base URL directly followed by the
    prefix and `/resources/assets/`.
  */
  lemma AssetUrlBinding(app: App, url: string, assetUrl: Option<string>)
    ensures var r := RegisterAppUrls(app, url, assetUrl).bindings;
      && "url.asset" in r
      && (IsTruthy(assetUrl) ==> r["url.asset"] == assetUrl.value)
      && (!IsTruthy(assetUrl) ==> r["url.asset"] == url + Prefix + "/resources/assets/")
  {
    var es := UrlEntries(url, assetUrl);
    UrlEntriesDistinct(url, assetUrl);
    DistinctLaterKeys(es, 3);
    BindEachLastWins(app, es, 3);
  }

  /** The value of every URL entry but `url.asset` starts with the base URL. */
  lemma UrlEntriesUnderUrl(url: string, assetUrl: Option<string>)
    ensures forall i | 0 <= i < |UrlEntries(url, assetUrl)| && i != 3 ::
      IsPrefix(url, UrlEntries(url, assetUrl)[i].1)
    ensures !IsTruthy(assetUrl) ==> IsPrefix(url, UrlEntries(url, assetUrl)[3].1)
  {
    var es := UrlEntries(url, assetUrl);
    forall i | 0 <= i < |es|
      ensures i != 3 || !IsTruthy(assetUrl) ==> IsPrefix(url, es[i].1)
    {
      var rest := if i == 0 then "" else if i == 1 then "/" + Prefix + "/public/"
        else if i == 2 then "/" + Prefix + "/resources/"
        else if i == 3 then Prefix + "/resources/assets/" else Prefix + "/vendor/";
      if i != 3 || !IsTruthy(assetUrl) {
        assert es[i].1 == url + rest;
        PrefixOfConcat(url, rest);
      }
    }
  }

  /**
    Every URL other than `url.asset` starts with the base URL; so does
    `url.asset` unless a truthy `asset_url` replaces it.
  */
  lemma UrlsUnderBaseUrl(app: App, url: string, assetUrl: Option<string>)
    ensures var r := RegisterAppUrls(app, url, assetUrl).bindings;
      var es := UrlEntries(url, assetUrl);
      && (forall i | 0 <= i < |es| && i != 3 :: es[i].0 in r && IsPrefix(url, r[es[i].0]))
      && (!IsTruthy(assetUrl) ==> es[3].0 in r && IsPrefix(url, r[es[3].0]))
  {
    UrlBindings(app, url, assetUrl);
    UrlEntriesUnderUrl(url, assetUrl);
  }
}
