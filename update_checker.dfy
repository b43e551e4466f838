/**
 * The self-hosted update checker: release metadata fetched from a JSON
 * manifest and cached in a site transient, an update offer added to the
 * host's update-plugins transient when the manifest names a newer version,
 * and the plugin-information record answered for the plugin's own slug.
 */
module UpdateChecker {
  import opened Wrappers
  import opened Php

  const CacheKeyPrefix: string := "taxa_update_metadata_"
  /** Lifetime of the cached metadata: 12 hours, in seconds. */
  const CacheTtl: int := 12 * 3600
  const DefaultName: string := "Taxonomy API"
  /** The version compiled into the plugin (`TAXA_API_VERSION`). */
  const PluginVersion: string := "3.0.0"
  const PluginInformation: string := "plugin_information"

  /** The fields of the normalised metadata record. */
  const MetadataFields: set<string> :=
    {"name", "version", "author", "homepage", "download_url", "requires", "tested", "sections"}
  /** The fields of the plugin-information record. */
  const InfoFields: set<string> :=
    {"name", "slug", "version", "author", "homepage", "download_link", "requires", "tested", "sections"}

  /** What the HTTP GET of the manifest yields: an error, or a response body. */
  datatype HttpResponse = WpError | Response(body: string)

  /**
   * The collaborators consulted on a cache miss: the GET's outcome, the JSON
   * decoder (to associative arrays; null when the text is not JSON), and the
   * metadata filter through which other code may amend the record.
   */
  datatype Remote = Remote(
    response: HttpResponse,
    jsonDecode: string -> Value,
    metadataFilter: (map<string, Value>, map<string, Value>) -> map<string, Value>)

  /** Result of a metadata lookup: the metadata (None for null) and the cache afterwards. */
  datatype Lookup = Lookup(metadata: Option<map<string, Value>>, cache: map<string, Value>)

  /** The transient key: the fixed prefix followed by the hash of the manifest URL. */
  function CacheKey(url: string, md5: string -> string): (key: string)
    ensures |key| >= |CacheKeyPrefix| && key[..|CacheKeyPrefix|] == CacheKeyPrefix
    ensures key[|CacheKeyPrefix|..] == md5(url)
  {
    CacheKeyPrefix + md5(url)
  }

  /** Two manifest URLs share a cache entry exactly when their hashes agree. */
  lemma CacheKeySharedIffSameHash(url1: string, url2: string, md5: string -> string)
    ensures CacheKey(url1, md5) == CacheKey(url2, md5) <==> md5(url1) == md5(url2)
  {
  }

  /** The value a metadata field takes when the manifest leaves it out or sets it to null. */
  function FieldDefault(field: string): Value
  {
    if field == "name" then Str(DefaultName)
    else if field == "sections" then Array(map[])
    else Str("")
  }

  /**
   * The record built from a decoded manifest: exactly the metadata fields,
   * each taken from the manifest when present and not null, and otherwise
   * its default.
   */
  function NormalizeMetadata(data: map<string, Value>): (metadata: map<string, Value>)
    ensures metadata.Keys == MetadataFields
    ensures forall f :: f in metadata && f in data && !data[f].Null? ==> metadata[f] == data[f]
    ensures forall f :: f in metadata && (f !in data || data[f].Null?) ==> metadata[f] == FieldDefault(f)
  {
    map f | f in MetadataFields :: Coalesce(Get(data, f), FieldDefault(f))
  }

  /**
   * Normalisation leaves no field null and is a fixed point: a normalised
   * record read back as a manifest yields itself. It is never empty, so a
   * cached copy of it counts as a hit.
   */
  lemma NormalizeIdempotent(data: map<string, Value>)
    ensures forall f :: f in NormalizeMetadata(data) ==> !NormalizeMetadata(data)[f].Null?
    ensures NormalizeMetadata(NormalizeMetadata(data)) == NormalizeMetadata(data)
    ensures !Falsy(Array(NormalizeMetadata(data)))
  {
  }

  /** From a manifest that sets nothing: the default name, empty sections, empty strings elsewhere. */
  lemma EmptyManifestDefaults(data: map<string, Value>)
    requires forall f :: f in data ==> f !in MetadataFields || data[f].Null?
    ensures NormalizeMetadata(data)["name"] == Str("Taxonomy API")
    ensures NormalizeMetadata(data)["sections"] == Array(map[])
    ensures forall f :: f in MetadataFields && f != "name" && f != "sections" ==>
      NormalizeMetadata(data)[f] == Str("")
  {
  }

  /** A cached value is used only when it is a non-empty array. */
  function CachedMetadata(cached: Value): (hit: Option<map<string, Value>>)
    ensures hit.Some? <==> cached.Array? && !Falsy(cached)
    ensures hit.Some? ==> cached == Array(hit.value)
  {
    if cached.Array? && cached.entries != map[] then Some(cached.entries) else None
  }

  /**
   * The fetch path: null on an HTTP error, on a falsy body and when the body
   * does not decode to an array; otherwise the normalised record as the
   * metadata filter leaves it.
   */
  function FetchMetadata(remote: Remote): (metadata: Option<map<string, Value>>)
    ensures metadata.Some? <==>
      && remote.response.Response?
      && !Falsy(Str(remote.response.body))
      && remote.jsonDecode(remote.response.body).Array?
    ensures metadata.Some? ==>
      var data := remote.jsonDecode(remote.response.body).entries;
      metadata.value == remote.metadataFilter(NormalizeMetadata(data), data)
  {
    match remote.response
    case WpError => None
    case Response(body) =>
      if Falsy(Str(body)) then None
      else
        var data := remote.jsonDecode(body);
        if !data.Array? then None
        else Some(remote.metadataFilter(NormalizeMetadata(data.entries), data.entries))
  }

  /** Cache-or-fetch: the metadata and the cache after one `get_metadata` call. */
  function MetadataLookup(cache: map<string, Value>, key: string, remote: Remote): (r: Lookup)
    ensures CachedMetadata(Get(cache, key)).Some? ==> r == Lookup(CachedMetadata(Get(cache, key)), cache)
    ensures CachedMetadata(Get(cache, key)).None? ==> r.metadata == FetchMetadata(remote)
    ensures r.metadata.None? ==> r.cache == cache
    ensures r.cache != cache ==> r.metadata.Some? && r.cache == cache[key := Array(r.metadata.value)]
  {
    var hit := CachedMetadata(Get(cache, key));
    if hit.Some? then Lookup(hit, cache)
    else
      var fetched := FetchMetadata(remote);
      if fetched.Some? then Lookup(fetched, cache[key := Array(fetched.value)])
      else Lookup(None, cache)
  }

  /** A hit neither fetches nor writes: its outcome is the same whatever the remote would answer. */
  lemma HitIgnoresRemote(cache: map<string, Value>, key: string, remote1: Remote, remote2: Remote)
    requires CachedMetadata(Get(cache, key)).Some?
    ensures MetadataLookup(cache, key, remote1) == MetadataLookup(cache, key, remote2)
    ensures MetadataLookup(cache, key, remote1).cache == cache
  {
  }

  /**
   * Once a fetch has stored a non-empty record, the next lookup is a hit
   * that returns the same record and leaves the cache as it is.
   */
  lemma StoredMetadataIsReused(cache: map<string, Value>, key: string, remote1: Remote, remote2: Remote)
    requires CachedMetadata(Get(cache, key)).None?
    requires FetchMetadata(remote1).Some? && FetchMetadata(remote1).value != map[]
    ensures var first := MetadataLookup(cache, key, remote1);
      MetadataLookup(first.cache, key, remote2) == first
  {
  }

  /**
   * The version the host reports for the plugin (`checked[basename]`), or the
   * compiled-in version when the host has no non-null entry for it.
   */
  function CurrentVersion(checked: map<string, Value>, basename: string): (version: Value)
    ensures basename in checked && !checked[basename].Null? ==> version == checked[basename]
    ensures basename !in checked || checked[basename].Null? ==> version == Str(PluginVersion)
  {
    Coalesce(Get(checked, basename), Str(PluginVersion))
  }

  /** Whether the host's `checked` list is a non-empty array, the gate before any lookup. */
  predicate HasCheckedList(checked: Value)
  {
    checked.Array? && !Falsy(checked)
  }

  /**
   * Whether `version_compare` accepts a value: it takes strings, so scalars
   * are converted, while an array or an object makes it throw a TypeError.
   */
  predicate ComparableVersion(v: Value)
  {
    !v.Array? && !v.Object?
  }

  /** What `filter_update_plugins` decides once it has looked the metadata up. */
  datatype UpdateDecision =
    | NoUpdate
    | Offer(entry: Value)
    | VersionTypeError

  /**
   * The decision about `response[basename]`. No entry is due unless the
   * metadata is truthy and its version is non-empty. A version or current
   * version that `version_compare` cannot take makes it throw. Otherwise an
   * entry is due exactly when `newer` (the host's version comparison with
   * operator '>') ranks the version above the current one.
   */
  function UpdateOffer(
    checked: map<string, Value>, basename: string, slug: string,
    metadata: Option<map<string, Value>>, newer: (Value, Value) -> bool): (decision: UpdateDecision)
    ensures !decision.NoUpdate? ==>
      metadata.Some? && metadata.value != map[] && !Falsy(Get(metadata.value, "version"))
    ensures metadata.Some? && metadata.value != map[] && !Falsy(Get(metadata.value, "version")) ==>
      var version, current := Get(metadata.value, "version"), CurrentVersion(checked, basename);
      && (decision.VersionTypeError? <==> !ComparableVersion(version) || !ComparableVersion(current))
      && (decision.Offer? <==> ComparableVersion(version) && ComparableVersion(current) && newer(version, current))
    ensures decision.Offer? ==>
      && decision.entry.Object?
      && decision.entry.props.Keys == {"slug", "plugin", "new_version", "url", "package"}
      && decision.entry.props["slug"] == Str(slug)
      && decision.entry.props["plugin"] == Str(basename)
      && decision.entry.props["new_version"] == Get(metadata.value, "version")
      && decision.entry.props["url"] == Get(metadata.value, "homepage")
      && decision.entry.props["package"] == Get(metadata.value, "download_url")
  {
    if metadata.None? || metadata.value == map[] || Falsy(Get(metadata.value, "version")) then NoUpdate
    else
      var md := metadata.value;
      var version, current := Get(md, "version"), CurrentVersion(checked, basename);
      if !ComparableVersion(version) || !ComparableVersion(current) then VersionTypeError
      else if newer(version, current) then
        Offer(Object(map[
          "slug" := Str(slug),
          "plugin" := Str(basename),
          "new_version" := version,
          "url" := Get(md, "homepage"),
          "package" := Get(md, "download_url")
        ]))
      else NoUpdate
  }

  /** A manifest version of "0" is empty to PHP, so it never yields an offer. */
  lemma ZeroVersionNeverOffered(
    checked: map<string, Value>, basename: string, slug: string,
    metadata: map<string, Value>, newer: (Value, Value) -> bool)
    requires Get(metadata, "version") == Str("0")
    ensures UpdateOffer(checked, basename, slug, Some(metadata), newer).NoUpdate?
  {
  }

  /** Whether a plugins_api request asks for this plugin's information. */
  predicate RequestsOwnInfo(action: string, args: Value, slug: string)
  {
    action == PluginInformation && !Falsy(Prop(args, "slug")) && Prop(args, "slug") == Str(slug)
  }

  /** Only a non-empty slug other than "0" can ever be requested. */
  lemma OwnInfoNeedsTruthySlug(action: string, args: Value, slug: string)
    requires RequestsOwnInfo(action, args, slug)
    ensures args.Object? && slug != "" && slug != "0"
  {
  }

  /** The plugin-information record built from the metadata. */
  function PluginInfo(metadata: map<string, Value>, slug: string): (info: Value)
    ensures info.Object? && info.props.Keys == InfoFields
    ensures info.props["slug"] == Str(slug)
    ensures info.props["download_link"] == Get(metadata, "download_url")
    ensures forall f :: f in InfoFields && f != "slug" && f != "download_link" ==>
      info.props[f] == Get(metadata, f)
  {
    Object(map[
      "name" := Get(metadata, "name"),
      "slug" := Str(slug),
      "version" := Get(metadata, "version"),
      "author" := Get(metadata, "author"),
      "homepage" := Get(metadata, "homepage"),
      "download_link" := Get(metadata, "download_url"),
      "requires" := Get(metadata, "requires"),
      "tested" := Get(metadata, "tested"),
      "sections" := Get(metadata, "sections")
    ])
  }

  /** The answer to an own-slug request: the incoming result when the metadata is falsy. */
  function PluginsApiAnswer(result: Value, metadata: Option<map<string, Value>>, slug: string): (answer: Value)
    ensures metadata.None? || metadata.value == map[] ==> answer == result
    ensures metadata.Some? && metadata.value != map[] ==> answer == PluginInfo(metadata.value, slug)
  {
    if metadata.None? || metadata.value == map[] then result else PluginInfo(metadata.value, slug)
  }

  /**
   * The two hooks agree: for the same metadata, the update offer and the
   * information record carry the same version and download location.
   */
  lemma OfferMatchesInfo(
    checked: map<string, Value>, basename: string, slug: string,
    metadata: map<string, Value>, newer: (Value, Value) -> bool)
    requires UpdateOffer(checked, basename, slug, Some(metadata), newer).Offer?
    ensures var offer := UpdateOffer(checked, basename, slug, Some(metadata), newer).entry;
      var info := PluginInfo(metadata, slug);
      && offer.props["new_version"] == info.props["version"]
      && offer.props["package"] == info.props["download_link"]
      && offer.props["slug"] == info.props["slug"]
  {
  }

  /** The host's site-transient store. */
  class SiteCache {
    var entries: map<string, Value>

    constructor(entries: map<string, Value>)
      ensures this.entries == entries
    {
      this.entries := entries;
    }

    /** `get_site_transient`: a missing entry reads as a falsy value. */
    function Read(key: string): Value
      reads this
    {
      Get(entries, key)
    }

    /** `set_site_transient`; the expiry time is not modelled. */
    method Write(key: string, value: Value)
      modifies this
      ensures entries == old(entries)[key := value]
    {
      entries := entries[key := value];
    }
  }

  /** The update-plugins transient the host is about to save. */
  class UpdateTransient {
    var checked: Value
    var response: map<string, Value>

    constructor(checked: Value, response: map<string, Value>)
      ensures this.checked == checked && this.response == response
    {
      this.checked := checked;
      this.response := response;
    }
  }

  class Checker {
    const pluginFile: string
    const metadataUrl: string
    /** The plugin's path relative to the plugins directory (`plugin_basename`). */
    const pluginBasename: string
    const pluginSlug: string
    const cacheKey: string
    const cacheTtl: int

    /** `basenameOf` and `md5` stand for the host's `plugin_basename` and PHP's `md5`. */
    constructor(pluginFile: string, metadataUrl: string, basenameOf: string -> string, md5: string -> string)
      ensures this.pluginFile == pluginFile && this.metadataUrl == metadataUrl
      ensures cacheKey == CacheKey(metadataUrl, md5) && cacheTtl == CacheTtl
      ensures pluginBasename == basenameOf(pluginFile)
      ensures pluginSlug == Dirname(pluginBasename)
    {
      this.pluginFile := pluginFile;
      this.metadataUrl := metadataUrl;
      this.cacheKey := CacheKey(metadataUrl, md5);
      this.cacheTtl := CacheTtl;
      this.pluginBasename := basenameOf(pluginFile);
      this.pluginSlug := Dirname(basenameOf(pluginFile));
    }

    /** `get_metadata`: the cached record when there is a usable one, else a fetch that caches its success. */
    method GetMetadata(cache: SiteCache, remote: Remote) returns (metadata: Option<map<string, Value>>)
      modifies cache
      ensures Lookup(metadata, cache.entries) == MetadataLookup(old(cache.entries), cacheKey, remote)
    {
      var hit := CachedMetadata(cache.Read(cacheKey));
      if hit.Some? {
        return hit;
      }
      match remote.response
      case WpError =>
        return None;
      case Response(body) =>
        if Falsy(Str(body)) {
          return None;
        }
        var data := remote.jsonDecode(body);
        if !data.Array? {
          return None;
        }
        var record := NormalizeMetadata(data.entries);
        record := remote.metadataFilter(record, data.entries);
        cache.Write(cacheKey, Array(record));
        return Some(record);
    }

    /**
     * `filter_update_plugins`: adds this plugin's update entry to the
     * transient's response when one is due; nothing else in the transient
     * changes, and without a checked list the cache is not consulted. When
     * `version_compare` would throw, `typeError` is set and the response is
     * left as it was.
     */
    method FilterUpdatePlugins(transient: UpdateTransient, cache: SiteCache, remote: Remote, newer: (Value, Value) -> bool)
      returns (result: UpdateTransient, typeError: bool)
      modifies transient, cache
      ensures result == transient && transient.checked == old(transient.checked)
      ensures !HasCheckedList(old(transient.checked)) ==>
        !typeError && cache.entries == old(cache.entries) && transient.response == old(transient.response)
      ensures HasCheckedList(old(transient.checked)) ==>
        var lookup := MetadataLookup(old(cache.entries), cacheKey, remote);
        var decision := UpdateOffer(old(transient.checked).entries, pluginBasename, pluginSlug, lookup.metadata, newer);
        && cache.entries == lookup.cache
        && (typeError <==> decision.VersionTypeError?)
        && transient.response == if decision.Offer? then old(transient.response)[pluginBasename := decision.entry]
                                 else old(transient.response)
    {
      result, typeError := transient, false;
      if !HasCheckedList(transient.checked) {
        return;
      }
      var metadata := GetMetadata(cache, remote);
      var decision := UpdateOffer(transient.checked.entries, pluginBasename, pluginSlug, metadata, newer);
      match decision
      case NoUpdate =>
      case VersionTypeError =>
        typeError := true;
      case Offer(entry) =>
        transient.response := transient.response[pluginBasename := entry];
    }

    /**
     * `filter_plugins_api`: the incoming result for any request other than
     * plugin information about this plugin's slug (without touching the
     * cache); otherwise the information record, or the incoming result when
     * no metadata is available.
     */
    method FilterPluginsApi(result: Value, action: string, args: Value, cache: SiteCache, remote: Remote)
      returns (answer: Value)
      modifies cache
      ensures !RequestsOwnInfo(action, args, pluginSlug) ==>
        answer == result && cache.entries == old(cache.entries)
      ensures RequestsOwnInfo(action, args, pluginSlug) ==>
        var lookup := MetadataLookup(old(cache.entries), cacheKey, remote);
        cache.entries == lookup.cache && answer == PluginsApiAnswer(result, lookup.metadata, pluginSlug)
    {
      if action != PluginInformation || Falsy(Prop(args, "slug")) || Prop(args, "slug") != Str(pluginSlug) {
        return result;
      }
      var metadata := GetMetadata(cache, remote);
      if metadata.None? || metadata.value == map[] {
        return result;
      }
      answer := PluginInfo(metadata.value, pluginSlug);
    }
  }
}
