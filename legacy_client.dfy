/**
 * PuppetForgeClient of puppet_forge.py, the earlier client: a base URL
 * and a page size, `modules` and `releases` with the same request shapes
 * as the current client, and a `_fetch` loop that reads
 * `['pagination']['next']` of every page unconditionally.
 */
module LegacyForgeClient {
  import opened Failures
  import opened Json
  import opened Http
  import opened Pagination
  import ForgeClient

  /** Items asked for per page unless the caller says otherwise. */
  const MaxItems: int := 100

  /** The registry the client talks to by default. */
  const PuppetForgeUrl: string := "https://forge.puppet.com/"

  class PuppetForgeClient {
    const baseUrl: string
    const maxItems: int
    const server: Server
    const show: Json -> string
    /** Every request sent so far, in order. */
    var calls: seq<Call>
    /** How many more requests the transport serves. */
    var quota: nat

    function World(): Env
    {
      Env(server, baseUrl, show)
    }

    /** `PuppetForgeClient(base_url, max_items)`. */
    constructor (baseUrl: string, maxItems: int, server: Server, show: Json -> string, quota: nat)
      ensures this.baseUrl == baseUrl && this.maxItems == maxItems
      ensures this.server == server && this.show == show
      ensures calls == [] && this.quota == quota
    {
      this.baseUrl := baseUrl;
      this.maxItems := maxItems;
      this.server := server;
      this.show := show;
      calls := [];
      this.quota := quota;
    }

    /** `PuppetForgeClient(base_url)`: the page size defaults to MAX_ITEMS. */
    constructor WithDefaultSize(baseUrl: string, server: Server, show: Json -> string, quota: nat)
      ensures this.baseUrl == baseUrl && maxItems == MaxItems
      ensures this.server == server && this.show == show
      ensures calls == [] && this.quota == quota
    {
      this.baseUrl := baseUrl;
      maxItems := MaxItems;
      this.server := server;
      this.show := show;
      calls := [];
      this.quota := quota;
    }

    /**
     * `_fetch(resource, params)` run to its end: request, raise on a failure
     * status, yield the body, then follow `['pagination']['next']` with the
     * parameters cleared, or stop when it is empty.
     */
    method Fetch(resource: string, params: Params) returns (bodies: seq<Body>, outcome: Outcome)
      modifies this
      ensures var t := Rounds(World(), Legacy, resource, Request(UriJoin([baseUrl, "v3", resource]), params), old(quota));
        bodies == t.bodies && outcome == t.outcome && calls == old(calls) + t.calls && quota == t.quota
    {
      var url := UriJoin([baseUrl, "v3", resource]);
      var ps := params;
      var doFetch := true;
      bodies := [];
      ghost var goal := Rounds(World(), Legacy, resource, Request(url, ps), quota);
      ghost var sent: seq<Call> := [];
      ghost var left := quota;
      while doFetch
        invariant calls == old(calls) + sent && quota == left
        invariant doFetch ==> goal == Prefixed(sent, bodies, Rounds(World(), Legacy, resource, Request(url, ps), left))
        invariant !doFetch ==> goal == Trace(sent, bodies, Finished, left)
        decreases left, doFetch
      {
        var req := Request(url, ps);
        if quota == 0 {
          RoundsOutOfQuota(World(), Legacy, resource, goal, sent, bodies, req);
          return bodies, Failed(QuotaExhausted);
        }
        ghost var sent0, bodies0, q0 := sent, bodies, left;
        var r := server(req);
        Concatenated(old(calls), sent, [Call(resource, req)]);
        calls := calls + [Call(resource, req)];
        sent := sent + [Call(resource, req)];
        quota := quota - 1;
        left := left - 1;
        if IsHttpFailure(r.status) {
          RoundsRaise(World(), Legacy, resource, goal, sent0, bodies0, req, q0, r.status);
          return bodies, Failed(HttpError(r.status));
        }
        bodies := bodies + [r.body];
        var cursor := NextCursor(Legacy, r.body);
        if cursor.Err? {
          RoundsBadCursor(World(), Legacy, resource, goal, sent0, bodies0, req, q0, r.body, cursor.error);
          return bodies, Failed(cursor.error);
        }
        if cursor.value.Some? {
          url := NextUrl(World(), cursor.value.value);
          ps := map[];
          RoundsGoOn(World(), Legacy, resource, goal, sent0, bodies0, req, q0, r.body, cursor.value.value, left);
        } else {
          RoundsStop(World(), Legacy, resource, goal, sent0, bodies0, req, q0, r.body);
          doFetch := false;
        }
      }
      outcome := Finished;
    }

    /** `modules()`: the modules pages, drained. */
    method Modules() returns (bodies: seq<Body>, outcome: Outcome)
      modifies this
      ensures var t := Walk(World(), Legacy, ForgeClient.ModulesPager(baseUrl, maxItems), old(quota));
        bodies == t.bodies && outcome == t.outcome && calls == old(calls) + t.calls && quota == t.quota
    {
      var params := map["limit" := PInt(maxItems), "sort_by" := PStr("latest_release")];
      RoundsAreWalk(World(), Legacy, "modules", Request(UriJoin([baseUrl, "v3", "modules"]), params), quota);
      bodies, outcome := Fetch("modules", params);
    }

    /** `releases(owner, module)`: the release pages of one module, drained. */
    method Releases(owner: string, name: string) returns (bodies: seq<Body>, outcome: Outcome)
      modifies this
      ensures var t := Walk(World(), Legacy, ForgeClient.ReleasesPager(baseUrl, owner, name, maxItems), old(quota));
        bodies == t.bodies && outcome == t.outcome && calls == old(calls) + t.calls && quota == t.quota
    {
      var params := map["module" := PStr(owner + "-" + name), "limit" := PInt(maxItems),
                        "show_deleted" := PStr("true"), "sort_by" := PStr("release_date")];
      RoundsAreWalk(World(), Legacy, "releases", Request(UriJoin([baseUrl, "v3", "releases"]), params), quota);
      bodies, outcome := Fetch("releases", params);
    }
  }
}
