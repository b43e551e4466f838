# Taxonomy API: popularity rebuild and update checker, modelled in Dafny

This project models the two pieces of logic in the Taxonomy API WordPress plugin.

- **Popularity rebuild** (`taxa_facets_rebuild_popularity_from_daily_views`). The daily cron job first sets
  every facets row's `popularity` to 0. Then, through an inner join with an aggregate over the daily views
  table, it sets `popularity` to the sum of `views` for each post that has view rows dated on or after the
  window start. The window start is the UTC calendar day of the instant 30 days before now. The job skips
  all writes when the column guard reports the `popularity` column missing. The cron helpers that schedule
  the job once and unschedule it are modelled as well.
- **Update checker** (`Taxa_Plugin_Update_Checker`). It reads release metadata from a JSON manifest and
  caches it in a site transient. The key is `taxa_update_metadata_` followed by the hash of the manifest URL.
  The checker defaults missing or null fields, and it adds an update entry to the host's update-plugins
  transient when the manifest's version is newer. For a `plugin_information` request that names the
  plugin's own slug, it answers with an information record.

Layout:

- `wrappers.dfy` holds `Option`.
- `php.dfy` models the PHP value semantics the checker depends on: dynamic values, truthiness of
  `empty()`/`!`, `??`, array and property reads, and `dirname`.
- `popularity.dfy` holds the view log, the facets table as a class updated in place, the specification
  function `RebuiltRows`, the aggregate, and the lemmas about the rebuild.
- `cron.dfy` holds the schedule-once and clear-if-present pair.
- `update_checker.dfy` holds the cache, the transient, the `Checker` class and the pure functions that
  specify its three operations.

Collaborators outside the plugin are inputs. These are the current time, the view log, whether the column
guard function exists, the HTTP outcome, the JSON decoder, the metadata filter, the version comparison,
`plugin_basename` and `md5`. Days are integers counted from the epoch. Unix time maps to a day by floor
division by 86400.

Behaviour of the code that is easy to misread:

- Both filters return the incoming transient or `$result` unchanged. They do not return null.
- A cached value is reused only when it is a non-empty array. An empty cached array is falsy, so it
  triggers a fetch.
- A field is defaulted when it is missing and also when it is null.
- A version of `"0"` counts as empty, so it never produces an update offer.
- If the guard function `taxa_facets_column_exists` is not defined, the job runs without checking the
  column.

## Model

| member | source | states |
|---|---|---|
| `Php.Dirname` | taxonomy-api/includes/update-checker.php:24 | `dirname` gives "" for "", "." for a non-empty path with no '/', and otherwise a non-empty prefix of the path |
| `Php.DirnameOfFileInDirectory` | taxonomy-api/includes/update-checker.php:23-24 | the slug of a basename `dir/file` is `dir`, when `file` holds no '/' and `dir` does not end in '/' |
| `Popularity.WindowStart` | taxonomy-api/taxonomy-api.php:129 | the window starts on the calendar day 30 days before today, the day that holds the instant `now - 30*86400` |
| `Popularity.ZeroDefault` | taxonomy-api/taxonomy-api.php:131-146 | a post with no view row on or after the start has a windowed sum of 0 |
| `Popularity.WindowSumConcat` | taxonomy-api/taxonomy-api.php:141-144 | the windowed sum is additive over any split of the log into two parts |
| `Popularity.WindowBoundary` | taxonomy-api/taxonomy-api.php:129-143 | a row dated on the start day adds its views wherever it sits in the log; a row dated the day before adds nothing |
| `Popularity.WindowSumOrderFree` | taxonomy-api/taxonomy-api.php:141-144 | two logs that hold the same rows, in any order, have the same windowed sum for every post |
| `Popularity.HasRecentViewsOrderFree` | taxonomy-api/taxonomy-api.php:140-145 | whether the subquery forms a group for a post does not depend on the order of the rows |
| `Popularity.RebuildOrderFree` | taxonomy-api/taxonomy-api.php:131-146 | two logs that hold the same rows rebuild the table identically, so the views table behaves as a bag |
| `Popularity.ZeroedIsRebuildWithoutViews` | taxonomy-api/taxonomy-api.php:131-132 | when no view row falls inside the window, the rebuilt table is the zeroed table |
| `Popularity.RebuiltIsWindowSum` | taxonomy-api/taxonomy-api.php:131-146 | after a rebuild the rows and their other columns are unchanged, and each popularity equals the windowed sum, which is 0 without qualifying rows |
| `Popularity.RebuildForgetsPriorPopularity` | taxonomy-api/taxonomy-api.php:131-146 | two tables that differ only in popularity rebuild to the same table |
| `Popularity.RebuildIdempotent` | taxonomy-api/taxonomy-api.php:131-146 | rebuilding a rebuilt table with the same window and log changes nothing |
| `Popularity.AppendedUnknownPostsIgnored` | taxonomy-api/taxonomy-api.php:139-146 | appending view rows of posts without a facets row does not change the result |
| `Popularity.UnknownPostsIgnored` | taxonomy-api/taxonomy-api.php:139-146 | a views table holding the rows of a log plus rows of posts without a facets row, in any order, rebuilds like the log alone |
| `Popularity.RebuildExample` | taxonomy-api/taxonomy-api.php:129-146 | at noon on 2024-03-31 the window starts 2024-03-01; posts {1: 5, 2: 9} with 7 + 5 views for post 1 inside the window and 40 the day before become {1: 12, 2: 0} |
| `Popularity.AggregateWindow` | taxonomy-api/taxonomy-api.php:140-145 | the grouped subquery yields a sum exactly for the posts with qualifying rows, and that sum is the windowed sum |
| `Popularity.FacetsTable.ZeroPopularity` | taxonomy-api/taxonomy-api.php:132 | every row's popularity becomes 0; the keys and the other columns are unchanged |
| `Popularity.FacetsTable.JoinSums` | taxonomy-api/taxonomy-api.php:137-151 | rows whose post has a group get the group's sum; all other rows are unchanged and no row is added |
| `Popularity.FacetsTable.RebuildPopularity` | taxonomy-api/taxonomy-api.php:112-158 | when the guard reports the column missing, the job writes nothing and reports a skip; when the column is missing and there is no guard, it writes nothing and reports a failed query; when the column exists but the join statement fails, every row is left at 0 and a failed query is reported; otherwise the table becomes `RebuiltRows` of the old table at `WindowStart(now)` |
| `PopularityCron.AfterSchedule` | taxonomy-api/taxonomy-api.php:79-84 | a pending event is kept; with none pending, a daily event at now + 5 minutes is created |
| `PopularityCron.ScheduleIdempotent` | taxonomy-api/taxonomy-api.php:80-83 | scheduling a second time changes nothing |
| `PopularityCron.CronSchedule.ScheduleOnce` | taxonomy-api/taxonomy-api.php:79-84 | an event is created exactly when none was pending |
| `PopularityCron.CronSchedule.ClearScheduled` | taxonomy-api/taxonomy-api.php:89-94 | an unschedule happens exactly when an event was pending; afterwards none is pending |
| `UpdateChecker.CacheKey` | taxonomy-api/includes/update-checker.php:20 | the key is the prefix `taxa_update_metadata_` followed by the URL's hash |
| `UpdateChecker.CacheKeySharedIffSameHash` | taxonomy-api/includes/update-checker.php:20 | two manifest URLs share a cache key if and only if their hashes are equal |
| `UpdateChecker.NormalizeMetadata` | taxonomy-api/includes/update-checker.php:108-117 | the record has exactly the eight metadata fields; each comes from the manifest when present and non-null, and otherwise from its default |
| `UpdateChecker.NormalizeIdempotent` | taxonomy-api/includes/update-checker.php:108-117 | no normalised field is null, normalising again is a no-op, and the record is never empty |
| `UpdateChecker.EmptyManifestDefaults` | taxonomy-api/includes/update-checker.php:108-117 | a manifest that sets no field yields name `Taxonomy API`, empty sections and empty strings elsewhere |
| `UpdateChecker.CachedMetadata` | taxonomy-api/includes/update-checker.php:82-85 | a cached value is used exactly when it is a truthy array, and it is returned unchanged |
| `UpdateChecker.FetchMetadata` | taxonomy-api/includes/update-checker.php:87-119 | the fetch gives null exactly on an HTTP error, a falsy body, or a decode that is not an array; otherwise it gives the filtered normalised record |
| `UpdateChecker.MetadataLookup` | taxonomy-api/includes/update-checker.php:81-124 | a hit returns the cached record and leaves the cache unchanged; a miss returns the fetch result; only a successful fetch writes, and only at the key |
| `UpdateChecker.HitIgnoresRemote` | taxonomy-api/includes/update-checker.php:82-85 | on a hit the outcome is the same whatever the network would answer, so no fetch is made and nothing is written |
| `UpdateChecker.StoredMetadataIsReused` | taxonomy-api/includes/update-checker.php:82-123 | after a fetch stores a non-empty record, the next lookup is a hit that returns the same record without writing |
| `UpdateChecker.CurrentVersion` | taxonomy-api/includes/update-checker.php:37-38 | the current version is the host's non-null `checked[basename]`, and otherwise the compiled-in `3.0.0` |
| `UpdateChecker.UpdateOffer` | taxonomy-api/includes/update-checker.php:40-53 | nothing happens unless the metadata is truthy and its version non-empty; then an array or object version (or current version) makes `version_compare` throw, and otherwise an entry is due exactly when the version is newer than the current one; the entry carries slug, plugin, new_version, url (homepage) and package (download_url) |
| `UpdateChecker.ZeroVersionNeverOffered` | taxonomy-api/includes/update-checker.php:41-43 | a manifest version of "0" never yields an offer |
| `UpdateChecker.OwnInfoNeedsTruthySlug` | taxonomy-api/includes/update-checker.php:59-61 | an information request is answered only for an object argument, and only when the plugin slug is neither "" nor "0" |
| `UpdateChecker.PluginInfo` | taxonomy-api/includes/update-checker.php:68-78 | the record has the nine information fields: the own slug, `download_link` from `download_url`, and every other field copied from the metadata |
| `UpdateChecker.PluginsApiAnswer` | taxonomy-api/includes/update-checker.php:63-78 | falsy metadata leaves `$result` as it was; otherwise the answer is the information record |
| `UpdateChecker.OfferMatchesInfo` | taxonomy-api/includes/update-checker.php:45-78 | for the same metadata, the update entry and the information record agree on version, download location and slug |
| `UpdateChecker.SiteCache.Write` | taxonomy-api/includes/update-checker.php:121 | writing the transient replaces the entry at that key and no other |
| `UpdateChecker.Checker.constructor` | taxonomy-api/includes/update-checker.php:17-25 | the cache key is `CacheKey(url, md5)`, the TTL is 12 hours, and the slug is the `dirname` of the plugin basename |
| `UpdateChecker.Checker.GetMetadata` | taxonomy-api/includes/update-checker.php:81-124 | the method returns the metadata and leaves the cache exactly as `MetadataLookup` specifies |
| `UpdateChecker.Checker.FilterUpdatePlugins` | taxonomy-api/includes/update-checker.php:32-56 | without a non-empty checked array, nothing changes and the cache is not read; otherwise `response[basename]` is set exactly when `UpdateOffer` yields an entry, the type-error flag is raised exactly when it yields a `version_compare` error, and all other entries and `checked` are unchanged |
| `UpdateChecker.Checker.FilterPluginsApi` | taxonomy-api/includes/update-checker.php:58-79 | any request other than `plugin_information` for the own, non-empty slug gets `$result` back and leaves the cache untouched; otherwise the answer is `PluginsApiAnswer` of the looked-up metadata |

## Left out

- Plugin bootstrap is not modelled. This covers the `require_once` includes, reading the manifest-URL option and its filter, `register()`'s hook wiring, and the activation and deactivation hooks. It is registration with no logic.
- The network is not modelled. `wp_remote_get` and its 10-second timeout, `json_decode` and `md5` are inputs: the `Remote` value and the `md5` parameter.
- The metadata filter (`apply_filters`) is an abstract function from arrays to arrays. A callback that returns a non-array value is not modelled.
- `version_compare` is an abstract predicate named `newer`. PHP's ordering of qualifiers such as `alpha`, `RC` and `pl` is not part of this model.
- Transient expiry after 12 hours is not modelled. The host removes expired entries, so an entry is either present or absent.
- `gmdate` formatting and the `ymd` string comparison are not modelled. Days are integers, and for four-digit years `Y-m-d` strings compare in day order.
- The rebuild returns a report value in place of its `error_log` line. MySQL's affected-rows count (`rows_updated`) and the text of `last_error` are not modelled.
- The column guard `taxa_facets_column_exists` is taken to report the table's actual schema, so its answer is the table's `hasPopularityColumn`.
- The facets table is keyed by `post_id`, one row per post. View counts are integers, and SQL NULLs in `views` are not modelled.
- The two UPDATE statements are not atomic, and two cache misses can run at once. This concurrency is not modelled.
- In the cron helpers, `wp_next_scheduled` is modelled as "some event pending or none". Timestamps are taken to be truthy, as every real `time()` value is. Several pending events for the hook are not modelled.
- `UpdateChecker.Checker.FilterUpdatePlugins` reports the TypeError that `version_compare` throws for an array or object version as a returned flag. The exception's propagation into the host is not modelled.
- JSON floating-point numbers are not among the modelled PHP values.
