# Puppet Forge connector — a Dafny model

This project models the Puppet Forge backend of Perceval. The backend reads
the public module registry at `https://forge.puppet.com/` through its REST
API v3. It walks the modules pages from the most recently released module
down and stops at the first module updated before the from date. It
enriches every module it keeps with all of the module's releases and with
its owner's user data. Owner data is cached per username across fetches.

Two clients are modelled:

- the current client, in `puppetforge.py`;
- the legacy client, in `puppet_forge.py`.

Both page through a resource by following each page's
`pagination.next` cursor. They differ in one way: the current client stops
on a page without a `pagination` key, and the legacy client raises on it.

The modules, by file:

- `failures.dfy` holds the Python exceptions on the modelled paths and the
  `Option`/`Result`/`Outcome` wrappers.
- `json.dfy` holds decoded JSON values and the Python operations the
  connector applies to them: `in`, `[key]`, iteration, truth testing and
  item assignment. These are written out with their `KeyError` and
  `TypeError` paths.
- `http.dfy` holds requests, responses and `urijoin`. The registry is a
  function from requests to responses.
- `pagination.dfy` holds the `_fetch` generator shared by both clients:
  - `Pager` is the suspended generator frame;
  - `Advance` is one resumption;
  - `Walk` drains the generator;
  - `Rounds` is the legacy `do_fetch` loop, read round by round.

  The lemmas state how a drain follows cursors and how it ends.
- `client.dfy` holds the current `PuppetForgeClient`, as a class with a
  request log (`calls`). Its methods are proved equal to the functions of
  `pagination.dfy`.
- `legacy_client.dfy` holds the legacy `PuppetForgeClient`. Its `_fetch`
  is a `while` loop proved equal to `Rounds`, and so to `Walk`.
- `backend_spec.dfy` holds the backend as functions:
  - `parse_json` and the metadata extractors;
  - `Gather`, the releases loop;
  - `OwnerLookup`, the owner cache;
  - `Process`, one module's enrichment;
  - `Collect`, the whole of `fetch_items`.

  It also holds the lemmas stating what the backend promises.
- `backend.dfy` holds the `PuppetForge` class. Its fields are the page
  size, the client and the owner cache. Its loop methods are each proved
  equal to the function that specifies them.

Every request a client sends goes through a transport that serves at most
`quota` more requests. Past that bound a request fails with
`QuotaExhausted`. The bound is what makes every loop terminate in the
model, and every contract is stated for an arbitrary quota.

## Model

| member | source | states |
|---|---|---|
| Pagination.AdvanceYieldsOrEnds | perceval/backends/puppet/puppetforge.py:324-343 | One resumption that yields a page leaves the generator suspended right after that page. A resumption ends the generator exactly when it was already closed, or when the cursor of the last page says stop. |
| Pagination.WalkFollowsCursors | perceval/backends/puppet/puppetforge.py:320-343 | The first request of a drain is the start request. Every request is logged under the generator's resource. Every body yielded is the registry's successful answer to the request at the same position. Every later request is the base URL joined with the previous body's cursor, with parameters cleared. At most the last request goes unanswered. A drain sends a request exactly when the quota allows one. |
| Pagination.WalkEndsAsCursorSays | perceval/backends/puppet/puppetforge.py:328-343 | A drain finishes normally exactly when its last body's cursor says stop. It ends with one more request than bodies exactly when a failure status (400-599) aborted it; that request's status is the error raised. Any other failure is the error raised while reading the last cursor, or the quota running out. |
| Pagination.WalkSizes | perceval/backends/puppet/puppetforge.py:324-329 | A corollary of WalkFollowsCursors: a drain that may send a request sends at least one. It yields at most one body per request and leaves at most one request unanswered. |
| Pagination.WalkSettles | perceval/backends/puppet/puppetforge.py:320-343 | The drain does not depend on the quota beyond where it stops. Under a larger quota a drain yields the same pages and then possibly more. A drain that finished normally under a smaller quota yields the same pages and sends the same requests under any larger one. |
| Pagination.WalkStaysOnResource | perceval/backends/puppet/puppetforge.py:320-343 | Every request of a drain is logged under the resource the generator was started with. |
| Pagination.RoundsAreWalk | perceval/backends/puppet/puppet_forge.py:105-124 | The `do_fetch` loop, read round by round (request, raise on status, keep the body, follow or stop on the cursor), sends the same requests as the generator drain started on the joined `v3/<resource>` URL. It also gets the same bodies, the same outcome and the same quota left. |
| Pagination.RulesDifferOnlyWhenUnpaginated | perceval/backends/puppet/puppetforge.py:331-343 | The two clients read a body's cursor differently exactly on a decoded body for which `'pagination' in` is False. On such a body the current client stops, and the legacy client raises `KeyError('pagination')` on an object or `TypeError` on any other value. |
| Pagination.RulesWalkAlike | perceval/backends/puppet/puppet_forge.py:109-124 | When the registry never answers with an unpaginated body, both clients send identical requests and produce identical bodies and outcomes. |
| Pagination.UnpaginatedFirstPage | perceval/backends/puppet/puppetforge.py:331-343 | A first page that is an object without a `pagination` key is yielded by both clients, and neither sends a second request. The current client then finishes, and the legacy client raises `KeyError('pagination')`. |
| Pagination.CursorLeadsOnExactly | perceval/backends/puppet/puppetforge.py:331-343 | A page leads on to another request exactly when it decodes to an object whose `pagination` member is an object with a truthy `next` member. The cursor followed is that `next` value. |
| Pagination.Advance | perceval/backends/puppet/puppetforge.py:324-343 | A resumption spends one quota unit per request it sends. It sends exactly one request when it yields a page and none when the generator ends. |
| Pagination.Walk | perceval/backends/puppet/puppetforge.py:320-343 | The requests a drain sends plus the quota it leaves add up to the quota it was given. |
| ForgeClient.ModulesRequests | perceval/backends/puppet/puppetforge.py:270-281 | The first modules request goes to `<base>/v3/modules` with `limit` set to the page size and `sort_by=latest_release`. Every later request goes to the joined cursor of the page before it, with no parameters. |
| ForgeClient.ReleasesRequests | perceval/backends/puppet/puppetforge.py:283-296 | The releases drain of a module sends a request exactly when the quota allows one. Its first request goes to `<base>/v3/releases` with `module=<owner>-<name>`, `limit` set to the page size, `show_deleted=true` and `sort_by=release_date`. Every later request goes to the joined cursor of the page before it, with no parameters. |
| ForgeClient.UserIsFirstAnswer | perceval/backends/puppet/puppetforge.py:298-306 | When the user drain ends normally, `result[0]` cannot raise `IndexError`: it is the registry's answer to `<base>/v3/users/<user>`. |
| ForgeClient.PuppetForgeClient.constructor | perceval/backends/puppet/puppetforge.py:266-268 | The client keeps its base URL and page size, and starts with an empty request log. |
| ForgeClient.PuppetForgeClient.WithDefaultSize | perceval/backends/puppet/puppetforge.py:266-268 | Without a page size the client asks for MAX_ITEMS = 100 items per page, keeps its base URL and starts with an empty request log. |
| ForgeClient.PuppetForgeClient.Send | perceval/backends/puppet/puppetforge.py:325-329 | Sending logs the request and spends a quota unit. It yields the body unless the status is a failure, in which case it raises `HttpError` with that status. |
| ForgeClient.PuppetForgeClient.Next | perceval/backends/puppet/puppetforge.py:320-343 | One resumption of `_fetch` has the result, the new frame, the new log and the new quota that `Advance` specifies. |
| ForgeClient.PuppetForgeClient.Drain | perceval/backends/puppet/puppetforge.py:304 | Draining a generator returns the bodies and the outcome of `Walk`, and appends `Walk`'s requests to the log. |
| ForgeClient.PuppetForgeClient.User | perceval/backends/puppet/puppetforge.py:298-306 | `user(user)` drains `users/<user>` with no parameters. It returns the first page, the exception the drain raised, or `IndexError` when there is no page. |
| LegacyForgeClient.PuppetForgeClient.constructor | perceval/backends/puppet/puppet_forge.py:61-63 | The client keeps the base URL and the page size it is given. |
| LegacyForgeClient.PuppetForgeClient.WithDefaultSize | perceval/backends/puppet/puppet_forge.py:61-63 | Without a page size the client asks for MAX_ITEMS = 100 items per page. |
| LegacyForgeClient.PuppetForgeClient.Fetch | perceval/backends/puppet/puppet_forge.py:93-124 | The `do_fetch` loop returns the bodies and the outcome that `Rounds` specifies, and logs the same requests. The loop starts at the joined `v3/<resource>` URL, raises on a failure status, reads `['pagination']['next']` of every page, follows a truthy cursor with parameters cleared, and stops on a falsy one. |
| LegacyForgeClient.PuppetForgeClient.Modules | perceval/backends/puppet/puppet_forge.py:65-76 | `modules()` yields the pages of the legacy drain that starts with `limit` set to the page size and `sort_by=latest_release`. |
| LegacyForgeClient.PuppetForgeClient.Releases | perceval/backends/puppet/puppet_forge.py:78-91 | `releases(owner, module)` yields the pages of the legacy drain that starts with `module=<owner>-<module>`, the limit, `show_deleted=true` and `sort_by=release_date`. |
| BackendSpec.ParseJsonShapes | perceval/backends/puppet/puppetforge.py:189-205 | Text that does not decode raises. An object is unwrapped to its `results` member when it has one, and is returned unchanged otherwise. A list or string is returned unchanged unless `'results' in` it holds, in which case indexing it raises `TypeError`. Any other value raises `TypeError`. |
| BackendSpec.MetadataIdIsReleasesModule | perceval/backends/puppet/puppetforge.py:157-162 | A module's identifier is `<owner username>-<name>`, which is the `module` parameter its releases are requested with. |
| BackendSpec.UpdatedOnShapes | perceval/backends/puppet/puppetforge.py:164-178 | `metadata_updated_on` raises `TypeError` on an item that is not an object and `KeyError('updated_at')` when the key is missing. Otherwise it gives the timestamp of the `updated_at` string, or raises `DateError` when that value is not a date string. |
| BackendSpec.MetadataCategory | perceval/backends/puppet/puppetforge.py:180-187 | Every item is of the category `module`. |
| BackendSpec.FromTimestamp | perceval/backends/puppet/puppetforge.py:86-87 | A from date that is not given becomes DEFAULT_DATETIME, the epoch; a given one is kept. |
| BackendSpec.DefaultDateKeeps | perceval/backends/puppet/puppetforge.py:122-126 | Without a from date, a module is kept exactly when its `updated_at` reads as a date not before the epoch. |
| BackendSpec.EnrichSetsTwoMembers | perceval/backends/puppet/puppetforge.py:128-131 | The enriched module has `releases` bound to the releases list and `owner_data` bound to the owner's data. Every other member is unchanged, and no key is lost. |
| BackendSpec.Gather | perceval/backends/puppet/puppetforge.py:212-223 | The releases loop spends one quota unit per request it sends. |
| BackendSpec.GatherIsWalkThenParse | perceval/backends/puppet/puppetforge.py:212-223 | When every page parses, the releases of a module are the items of its release pages in page order, fetched with the drain's requests. Otherwise the loop raises the first parse error, having sent a prefix of those requests. |
| BackendSpec.OwnerLookup | perceval/backends/puppet/puppetforge.py:225-236 | An owner lookup spends one quota unit per request it sends. |
| BackendSpec.OwnerCache | perceval/backends/puppet/puppetforge.py:225-236 | A cached owner is returned with no request. A miss that succeeds caches exactly that owner's parsed data. A miss that fails leaves the cache unchanged. No cached entry ever changes. |
| BackendSpec.OwnerMissSendsOneRequest | perceval/backends/puppet/puppetforge.py:229-236 | An uncached owner whose user page is an object without pagination costs exactly one request, to `<base>/v3/users/<user>`, and returns that page parsed. |
| BackendSpec.Process | perceval/backends/puppet/puppetforge.py:128-133 | Enriching one module spends one quota unit per request it sends. |
| BackendSpec.ProcessEnriches | perceval/backends/puppet/puppetforge.py:128-133 | A module enriched without error has as `releases` the parsed items of a complete, normally finished drain of its release pages, started on its `<owner>-<name>`. Its owner is then cached, an entry it already had is kept, and that cache entry is its `owner_data`. Every other member of the module is kept. |
| BackendSpec.ReleasesUnique | perceval/backends/puppet/puppetforge.py:212-223 | A module has one list of releases: every quota under which its releases drain finishes normally gives the same parsed items. |
| BackendSpec.EnrichedHolds | perceval/backends/puppet/puppetforge.py:128-131 | An enriched module extends the module it came from. Its `owner_data` is the cache entry of its owner, and its `releases` are the parsed items of the finished releases drain, whatever the quota it finished under. |
| BackendSpec.ProcessGrowsCache | perceval/backends/puppet/puppetforge.py:128-131 | Enriching a module keeps every cached owner, and caches at most that module's own owner. |
| BackendSpec.Collect | perceval/backends/puppet/puppetforge.py:115-137 | `fetch_items` spends one quota unit per request it sends. |
| BackendSpec.CollectYieldsRecentPrefix | perceval/backends/puppet/puppetforge.py:115-137 | `fetch_items` yields a prefix of the modules it examines. Every yielded module is at least as recent as the from date. It is the examined module with `releases` bound to the parsed items of its complete releases drain and `owner_data` bound to its owner's entry in the final owner cache. At most one further module is examined, and when the fetch finishes with one, that module is strictly older than the from date. |
| BackendSpec.CollectCoversPages | perceval/backends/puppet/puppetforge.py:115-137 | The modules are examined in page order, and the pages visited are a prefix of the pages of the modules drain. A fetch that finishes without stopping at an older module has examined every module of every page of that drain, and the drain itself finished: the last page's cursor said stop, or the generator had already ended. |
| BackendSpec.CollectReadsDrain | perceval/backends/puppet/puppetforge.py:113-137 | The pages whose modules `fetch_items` visits are a prefix of the pages its generator yields. When the fetch finishes without stopping at an older module, they are all of those pages and the drain finished. |
| BackendSpec.FetchItemsReadsListing | perceval/backends/puppet/puppetforge.py:113-137 | `fetch_items` examines a prefix of the modules of the `<base>/v3/modules` listing, in order. When it finishes without stopping at an older module, it has examined every module of the listing, and the listing's drain finished. |
| BackendSpec.StopSendsNothing | perceval/backends/puppet/puppetforge.py:124-137 | At the first module older than the from date, `fetch_items` finishes. It sends no further request: no releases, no owner, no later module and no further page. |
| BackendSpec.CollectGrowsCache | perceval/backends/puppet/puppetforge.py:225-236 | Over a whole fetch, every cached owner keeps its data, and every new entry belongs to the owner of an examined module. |
| BackendSpec.OwnerLookupAsksOnMiss | perceval/backends/puppet/puppetforge.py:225-236 | An owner lookup sends requests only on a miss, and every request it sends asks for that owner's user data. |
| BackendSpec.ProcessAsksNoCachedOwner | perceval/backends/puppet/puppetforge.py:128-131 | Enriching one module never requests the user data of an owner already cached: the releases loop asks for no user, and the owner lookup asks only on a miss. |
| BackendSpec.CollectAsksNoCachedOwner | perceval/backends/puppet/puppetforge.py:115-137 | Over a whole run from a generator that is not a users generator, no request asks for the user data of an owner cached when the run started. |
| BackendSpec.FetchSkipsCachedOwners | perceval/backends/puppet/puppetforge.py:225-236 | An owner in the backend's cache when `fetch_items` starts is never requested: no request of the fetch goes to `users/<owner>`. |
| ForgeBackend.PuppetForge.constructor | perceval/backends/puppet/puppetforge.py:63-70 | The backend keeps its page size, has no client yet and starts with an empty owner cache. |
| ForgeBackend.PuppetForge.WithDefaultSize | perceval/backends/puppet/puppetforge.py:63-70 | Without a page size the backend uses MAX_ITEMS = 100. |
| ForgeBackend.PuppetForge.InitClient | perceval/backends/puppet/puppetforge.py:207-210 | The client is new, points at `https://forge.puppet.com/`, uses the backend's page size and has sent nothing. |
| ForgeBackend.PuppetForge.FetchAndParseReleases | perceval/backends/puppet/puppetforge.py:212-223 | The releases loop returns what `Gather` specifies: the gathered items or the first exception. It logs `Gather`'s requests. |
| ForgeBackend.PuppetForge.GetOrFetchOwner | perceval/backends/puppet/puppetforge.py:225-236 | The owner lookup returns what `OwnerLookup` specifies. The owner cache becomes `OwnerLookup`'s cache, and the method logs `OwnerLookup`'s requests. |
| ForgeBackend.PuppetForge.ProcessModule | perceval/backends/puppet/puppetforge.py:128-133 | One module's enrichment returns the module, the cache and the requests that `Process` specifies. |
| ForgeBackend.PuppetForge.FetchItems | perceval/backends/puppet/puppetforge.py:96-139 | The nested loops of `fetch_items` yield the modules, the outcome, the owner cache and the requests that `Collect` specifies. |
| ForgeBackend.PuppetForge.Fetch | perceval/backends/puppet/puppetforge.py:72-94 | `fetch` builds a fresh client for the registry and runs `fetch_items` from the given date, or from DEFAULT_DATETIME when none is given. |

## Left out

- The transport's quota is a bound of the model, not of the source. It stands for the Python generators' ability to run without end against a registry whose cursors never stop. Every drain, loop and fetch is stated for an arbitrary quota, and `QuotaExhausted` is the model's own failure.
- Generator laziness: the current client is modelled one resumption at a time (`Next`), so `fetch_items` interleaves its requests as the source does. The legacy client and `user` are drained eagerly, because nothing in the core consumes those generators page by page.
- LegacyForgeClient.PuppetForgeClient.Modules: its generator is drained eagerly, so a caller that stops consuming early is not modelled. The same holds for LegacyForgeClient.PuppetForgeClient.Releases.
- Date parsing (`str_to_datetime`, `datetime_to_utc`, `.timestamp()`) is the parameter `dateOf` from strings to UNIX timestamps. A string it cannot read raises `DateError`, and so does a non-string `updated_at`. Dates are integer timestamps; a from date is given as one.
- JSON decoding: a body stands for the value it decodes to, or for text that does not decode. Numbers are integers, and floating point is not modelled. A decoded object is assumed never to repeat a key.
- `urijoin` is modelled as trimming the slashes around each part and joining with `/`. The legacy client's `urljoin` is modelled by the same function. A non-string cursor goes through `str()`, which is the parameter `show`.
- HttpClient (its `fetch`, retries, rate limiting, session, archive and `ssl_verify`) is not part of this model. A request is logged, sent to the registry function, and raises `HttpError` on a status from 400 to 599, as `raise_for_status` does. `requests.get` in the legacy client is modelled the same way.
- The Backend envelope is not modelled: `Backend.fetch`, item metadata wrapping, origin, tag, `has_archiving` and `has_resuming`. `fetch` is modelled as building the client and running `fetch_items`.
- The command line (`PuppetForgeCommand`) is not modelled. Logging is not modelled beyond the request log `calls`.
- The registry is a pure function of the request. A registry whose answers change between requests is not modelled.
- ForgeBackend.PuppetForge.ProcessModule: a module whose owner or name is not a string raises `TypeError` before any request is sent. In the source this happens when the releases generator is first resumed, which is also before its first request, so the requests and the outcome are the same.
- `nmodules` only feeds a log line, so it is not modelled.
- BackendSpec.FetchSkipsCachedOwners: it states that an owner cached when the fetch starts is never requested. That each owner's user data is fetched at most once per fetch follows from the cache, since a miss that succeeds caches the owner before the next module, but the model does not state this as one lemma.
