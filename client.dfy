/**
 * PuppetForgeClient of puppetforge.py: the request shapes of `modules`,
 * `releases` and `user`, and the `_fetch` generator run one resumption at
 * a time (Next) or to its end (Drain, User). Every request sent is appended
 * to `calls`, the log the source writes before each request.
 */
module ForgeClient {
  import opened Failures
  import opened Json
  import opened Http
  import opened Pagination

  /** The registry the backend talks to. */
  const PuppetForgeUrl: string := "https://forge.puppet.com/"

  /** Items asked for per page unless the caller says otherwise. */
  const MaxItems: int := 100

  /** `_fetch('modules', {limit, sort_by: latest_release})`, before its first resumption. */
  function ModulesPager(base: string, maxItems: int): Pager
  {
    Start(base, "modules", map["limit" := PInt(maxItems), "sort_by" := PStr("latest_release")])
  }

  /** `_fetch('releases', {module: owner-name, limit, show_deleted: 'true', sort_by: release_date})`. */
  function ReleasesPager(base: string, owner: string, name: string, maxItems: int): Pager
  {
    Start(base, "releases", map["module" := PStr(owner + "-" + name), "limit" := PInt(maxItems),
                                "show_deleted" := PStr("true"), "sort_by" := PStr("release_date")])
  }

  /** `_fetch('users/' + user, {})`. */
  function UserPager(base: string, user: string): Pager
  {
    Start(base, "users/" + user, map[])
  }

  /** `result[0]` on the list of pages a drain produced, or the exception the drain raised. */
  function FirstPage(t: Trace): Result<Body>
  {
    if t.outcome.Failed? then Err(t.outcome.error)
    else if |t.bodies| == 0 then Err(IndexError)
    else Ok(t.bodies[0])
  }

  /** `after` is the request the cursor of `before` leads to: the joined cursor URL, with no parameters. */
  predicate CursorLed(env: Env, resource: string, before: Body, after: Call)
  {
    && NextCursor(Current, before).Ok?
    && NextCursor(Current, before).value.Some?
    && after == Call(resource, Request(NextUrl(env, NextCursor(Current, before).value.value), map[]))
  }

  /**
   * The request shapes of the modules generator: the first request goes to
   * `<base>/v3/modules` with the limit and the sort order, and every later
   * one to the joined cursor of the page before it with no parameters.
   */
  lemma ModulesRequests(env: Env, maxItems: int, quota: nat)
    ensures var t := Walk(env, Current, ModulesPager(env.baseUrl, maxItems), quota);
      && (quota > 0 <==> |t.calls| > 0)
      && |t.calls| <= |t.bodies| + 1
      && (|t.calls| > 0 ==>
            t.calls[0] == Call("modules", Request(UriJoin([env.baseUrl, "v3", "modules"]),
                                                  map["limit" := PInt(maxItems), "sort_by" := PStr("latest_release")])))
      && (forall j :: 0 <= j < |t.calls| - 1 ==> CursorLed(env, "modules", t.bodies[j], t.calls[j + 1]))
  {
    var first := Request(UriJoin([env.baseUrl, "v3", "modules"]),
                         map["limit" := PInt(maxItems), "sort_by" := PStr("latest_release")]);
    var t := Walk(env, Current, Fresh("modules", first), quota);
    WalkFollowsCursors(env, Current, "modules", first, quota);
    forall j | 0 <= j < |t.calls| - 1
      ensures CursorLed(env, "modules", t.bodies[j], t.calls[j + 1])
    {
      assert FollowsAt(env, Current, t.calls, t.bodies, j + 1);
      assert t.calls[j + 1].resource == "modules";
    }
  }

  /**
   * The request shapes of the releases generator of one module: the first
   * request goes to `<base>/v3/releases` with the module's `<owner>-<name>`,
   * the limit, deleted releases included and the release-date order, and
   * every later one to the joined cursor of the page before it with no
   * parameters.
   */
  lemma ReleasesRequests(env: Env, owner: string, name: string, maxItems: int, quota: nat)
    ensures var t := Walk(env, Current, ReleasesPager(env.baseUrl, owner, name, maxItems), quota);
      && (quota > 0 <==> |t.calls| > 0)
      && |t.calls| <= |t.bodies| + 1
      && (|t.calls| > 0 ==>
            t.calls[0] == Call("releases", Request(UriJoin([env.baseUrl, "v3", "releases"]),
                                                   map["module" := PStr(owner + "-" + name), "limit" := PInt(maxItems),
                                                       "show_deleted" := PStr("true"), "sort_by" := PStr("release_date")])))
      && (forall j :: 0 <= j < |t.calls| - 1 ==> CursorLed(env, "releases", t.bodies[j], t.calls[j + 1]))
  {
    var first := Request(UriJoin([env.baseUrl, "v3", "releases"]),
                         map["module" := PStr(owner + "-" + name), "limit" := PInt(maxItems),
                             "show_deleted" := PStr("true"), "sort_by" := PStr("release_date")]);
    var t := Walk(env, Current, Fresh("releases", first), quota);
    WalkFollowsCursors(env, Current, "releases", first, quota);
    forall j | 0 <= j < |t.calls| - 1
      ensures CursorLed(env, "releases", t.bodies[j], t.calls[j + 1])
    {
      assert FollowsAt(env, Current, t.calls, t.bodies, j + 1);
      assert t.calls[j + 1].resource == "releases";
    }
  }

  /**
   * A user drain that ended normally produced at least one page, so
   * `result[0]` never raises IndexError there: it is the registry's answer
   * to `<base>/v3/users/<user>`.
   */
  lemma UserIsFirstAnswer(env: Env, user: string, quota: nat)
    requires Walk(env, Current, UserPager(env.baseUrl, user), quota).outcome == Finished
    ensures FirstPage(Walk(env, Current, UserPager(env.baseUrl, user), quota)) ==
      Ok(env.server(Request(UriJoin([env.baseUrl, "v3", "users/" + user]), map[])).body)
  {
    var first := Request(UriJoin([env.baseUrl, "v3", "users/" + user]), map[]);
    var t := Walk(env, Current, Fresh("users/" + user, first), quota);
    WalkFollowsCursors(env, Current, "users/" + user, first, quota);
    if quota > 0 {
      WalkEndsAsCursorSays(env, Current, "users/" + user, first, quota);
      assert AnsweredAt(env, t.calls, t.bodies, 0);
    }
  }

  /** The client: the base URL and page size it was built with, the registry, and the request log. */
  class PuppetForgeClient {
    const baseUrl: string
    const maxItems: int
    const server: Server
    const show: Json -> string
    /** Every request sent so far, in order. */
    var calls: seq<Call>
    /** How many more requests the transport serves. */
    var quota: nat

    /** What the client sees of the world. */
    function World(): Env
    {
      Env(server, baseUrl, show)
    }

    constructor (baseUrl: string, maxItems: int, server: Server, show: Json -> string, quota: nat)
      ensures this.baseUrl == baseUrl && this.maxItems == maxItems
      ensures this.server == server && this.show == show
      ensures calls == [] && this.quota == quota
    {
      this.baseUrl := baseUrl;
      this.maxItems := maxItems;
      this.server := server;
      this.show := show;
      calls := [];
      this.quota := quota;
    }

    /** `PuppetForgeClient(base_url)`: the page size defaults to MAX_ITEMS. */
    constructor WithDefaultSize(baseUrl: string, server: Server, show: Json -> string, quota: nat)
      ensures this.baseUrl == baseUrl && maxItems == MaxItems
      ensures this.server == server && this.show == show
      ensures calls == [] && this.quota == quota
    {
      this.baseUrl := baseUrl;
      maxItems := MaxItems;
      this.server := server;
      this.show := show;
      calls := [];
      this.quota := quota;
    }

    /** `modules()`: a generator that has not run yet. */
    function Modules(): Pager
    {
      ModulesPager(baseUrl, maxItems)
    }

    /** `releases(owner, module)`: a generator that has not run yet. */
    function Releases(owner: string, name: string): Pager
    {
      ReleasesPager(baseUrl, owner, name, maxItems)
    }

    /** `self.fetch(url, payload=params)`: log the request, send it, and yield the body unless the status fails. */
    method Send(resource: string, req: Request) returns (y: Yield, next: Pager)
      modifies this
      ensures var s := Pagination.Send(World(), resource, req, old(quota));
        y == s.out && next == s.next && calls == old(calls) + s.calls && quota == s.quota
    {
      if quota == 0 {
        return Fail(QuotaExhausted), Closed;
      }
      calls := calls + [Call(resource, req)];
      quota := quota - 1;
      var r := server(req);
      if IsHttpFailure(r.status) {
        return Fail(HttpError(r.status)), Closed;
      }
      return Page(r.body), Active(resource, req.url, req.params, Some(r.body));
    }

    /**
     * One resumption of `_fetch`: after a yielded body, read its cursor and
     * stop, raise, or request the joined cursor URL with no parameters.
     */
    method Next(p: Pager) returns (y: Yield, next: Pager)
      modifies this
      ensures var s := Advance(World(), Current, p, old(quota));
        y == s.out && next == s.next && calls == old(calls) + s.calls && quota == s.quota
    {
      match p {
        case Closed =>
          return Done, Closed;
        case Active(resource, url, params, last) =>
          var req := Request(url, params);
          if last.Some? {
            var cursor := NextCursor(Current, last.value);
            if cursor.Err? {
              return Fail(cursor.error), Closed;
            }
            if cursor.value.None? {
              return Done, Closed;
            }
            req := Request(NextUrl(World(), cursor.value.value), map[]);
          }
          y, next := Send(resource, req);
      }
    }

    /** `[page for page in generator]`: resume until the generator ends or raises. */
    method Drain(p: Pager) returns (bodies: seq<Body>, outcome: Outcome)
      modifies this
      ensures var t := Walk(World(), Current, p, old(quota));
        bodies == t.bodies && outcome == t.outcome && calls == old(calls) + t.calls && quota == t.quota
    {
      ghost var goal := Walk(World(), Current, p, quota);
      ghost var sent: seq<Call> := [];
      var cur := p;
      bodies := [];
      while true
        invariant calls == old(calls) + sent
        invariant goal == Prefixed(sent, bodies, Walk(World(), Current, cur, quota))
        decreases quota
      {
        ghost var s := Advance(World(), Current, cur, quota);
        DrainStep(World(), Current, goal, sent, bodies, cur, quota, s.calls, s.out, s.next, s.quota);
        var y, next := Next(cur);
        if y.Done? {
          return bodies, Finished;
        }
        Concatenated(old(calls), sent, s.calls);
        sent := sent + s.calls;
        if y.Fail? {
          return bodies, Failed(y.error);
        }
        bodies := bodies + [y.body];
        cur := next;
      }
    }

    /** `user(user)`: drain the user generator and take its first page. */
    method User(user: string) returns (r: Result<Body>)
      modifies this
      ensures var t := Walk(World(), Current, UserPager(baseUrl, user), old(quota));
        r == FirstPage(t) && calls == old(calls) + t.calls && quota == t.quota
    {
      var bodies, outcome := Drain(UserPager(baseUrl, user));
      if outcome.Failed? {
        return Err(outcome.error);
      }
      if |bodies| == 0 {
        return Err(IndexError);
      }
      return Ok(bodies[0]);
    }
  }
}
