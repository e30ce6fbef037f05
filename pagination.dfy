/**
 * The `_fetch` generator shared by the two clients: request a resource,
 * yield the body, then read the `pagination.next` cursor of that body and
 * either follow it (with the parameters cleared) or stop.
 *
 * The generator's suspended frame is a Pager value, one resumption is
 * Advance, and draining it to the end is Walk. The two clients differ only
 * in how they read the cursor (Rule).
 */
module Pagination {
  import opened Failures
  import opened Json
  import opened Http

  /**
   * Current: puppetforge.py, which stops on a page without a 'pagination'
   * key. Legacy: puppet_forge.py, which looks the key up unconditionally.
   */
  datatype Rule = Current | Legacy

  /**
   * The suspended generator. `last` is the body yielded last, whose cursor
   * is read on the next resumption; None before the first request.
   */
  datatype Pager =
    | Active(resource: string, url: string, params: Params, last: Option<Body>)
    | Closed

  /** A generator about to send `req`. */
  function Fresh(resource: string, req: Request): Pager
  {
    Active(resource, req.url, req.params, None)
  }

  /** The generator as `_fetch(resource, params)` creates it. */
  function Start(base: string, resource: string, params: Params): Pager
  {
    Fresh(resource, Request(UriJoin([base, "v3", resource]), params))
  }

  /** `json_data['pagination']['next']` followed by `if next_url:`. */
  function CursorIn(j: Json): Result<Option<Json>>
  {
    match GetItem(j, "pagination")
    case Err(e) => Err(e)
    case Ok(pagination) =>
      match GetItem(pagination, "next")
      case Err(e) => Err(e)
      case Ok(next) => Ok(if Truthy(next) then Some(next) else None)
  }

  /** The cursor of a yielded body: Some to go on, None to stop, or the exception raised. */
  function NextCursor(rule: Rule, body: Body): (r: Result<Option<Json>>)
    ensures r.Err? ==> !r.error.HttpError? && r.error != QuotaExhausted
  {
    match body
    case Malformed => Err(JsonDecodeError)
    case Doc(j) =>
      match rule
      case Legacy => CursorIn(j)
      case Current =>
        match Contains(j, "pagination")
        case Err(e) => Err(e)
        case Ok(present) => if present then CursorIn(j) else Ok(None)
  }

  /** `urijoin(self.base_url, next_url)`. */
  function NextUrl(env: Env, cursor: Json): string
  {
    UriJoin([env.baseUrl, if cursor.JStr? then cursor.s else env.show(cursor)])
  }

  /** The request that follows a body, when its cursor says to go on: the joined URL and no parameters. */
  function Continuation(env: Env, rule: Rule, body: Body): Option<Request>
  {
    match NextCursor(rule, body)
    case Ok(Some(n)) => Some(Request(NextUrl(env, n), map[]))
    case _ => None
  }

  /** What one resumption of the generator produces. */
  datatype Yield = Page(body: Body) | Done | Fail(error: Error)

  /** The requests sent by one resumption, what it produced, the new frame and the remaining quota. */
  datatype Advanced = Advanced(calls: seq<Call>, out: Yield, next: Pager, quota: nat)

  /** Send one request and yield its body unless the status is a failure. */
  function Send(env: Env, resource: string, req: Request, quota: nat): (s: Advanced)
    ensures s.quota + |s.calls| == quota
    ensures s.out.Page? ==> |s.calls| == 1
    ensures !s.out.Done?
  {
    if quota == 0 then Advanced([], Fail(QuotaExhausted), Closed, 0)
    else
      var resp := env.server(req);
      if IsHttpFailure(resp.status) then
        Advanced([Call(resource, req)], Fail(HttpError(resp.status)), Closed, quota - 1)
      else
        Advanced([Call(resource, req)], Page(resp.body), Active(resource, req.url, req.params, Some(resp.body)), quota - 1)
  }

  /** One resumption: read the cursor of the last body (if any), then send the next request or stop. */
  function Advance(env: Env, rule: Rule, p: Pager, quota: nat): (s: Advanced)
    ensures s.quota + |s.calls| == quota
    ensures s.out.Page? ==> |s.calls| == 1
    ensures s.out.Done? ==> s.calls == []
  {
    match p
    case Closed => Advanced([], Done, Closed, quota)
    case Active(resource, url, params, last) =>
      match last
      case None => Send(env, resource, Request(url, params), quota)
      case Some(b) =>
        match NextCursor(rule, b)
        case Err(e) => Advanced([], Fail(e), Closed, quota)
        case Ok(None) => Advanced([], Done, Closed, quota)
        case Ok(Some(n)) => Send(env, resource, Request(NextUrl(env, n), map[]), quota)
  }

  /** The requests sent, the bodies yielded, how the drain ended and the quota left. */
  datatype Trace = Trace(calls: seq<Call>, bodies: seq<Body>, outcome: Outcome, quota: nat)

  /** Drain the generator: `[page for page in self._fetch(resource, params)]`. */
  function Walk(env: Env, rule: Rule, p: Pager, quota: nat): (t: Trace)
    ensures t.quota + |t.calls| == quota
    decreases quota
  {
    var s := Advance(env, rule, p, quota);
    match s.out
    case Page(b) =>
      var t := Walk(env, rule, s.next, s.quota);
      Trace(s.calls + t.calls, [b] + t.bodies, t.outcome, t.quota)
    case Done => Trace([], [], Finished, quota)
    case Fail(e) => Trace(s.calls, [], Failed(e), s.quota)
  }

  /**
   * A resumption yields a page only to be resumed after that page, and ends
   * only when the generator was closed or the cursor of its last page says stop.
   */
  lemma AdvanceYieldsOrEnds(env: Env, rule: Rule, p: Pager, quota: nat)
    ensures var s := Advance(env, rule, p, quota);
      && (s.out.Page? ==> s.next.Active? && s.next.last == Some(s.out.body))
      && (s.out.Done? <==> p.Closed? || (p.last.Some? && NextCursor(rule, p.last.value) == Ok(None)))
  {
  }

  /** The trace `t` preceded by the requests `cs` and bodies `bs` already produced. */
  function Prefixed(cs: seq<Call>, bs: seq<Body>, t: Trace): Trace
  {
    Trace(cs + t.calls, bs + t.bodies, t.outcome, t.quota)
  }

  /** Appending one more element of `xs` to a copy of its first `i` elements. */
  lemma ExtendedByOne<T>(a: seq<T>, xs: seq<T>, i: nat)
    requires i < |xs|
    ensures (a + xs[..i]) + [xs[i]] == a + xs[..i + 1]
  {
    assert xs[..i + 1] == xs[..i] + [xs[i]];
  }

  /** Appending to a log in two steps is appending once. */
  lemma Concatenated<T>(a: seq<T>, b: seq<T>, c: seq<T>)
    ensures (a + b) + c == a + (b + c)
  {
  }

  lemma PrefixedTwice(cs: seq<Call>, bs: seq<Body>, cs2: seq<Call>, bs2: seq<Body>, t: Trace)
    ensures Prefixed(cs, bs, Prefixed(cs2, bs2, t)) == Prefixed(cs + cs2, bs + bs2, t)
  {
    assert cs + (cs2 + t.calls) == (cs + cs2) + t.calls;
    assert bs + (bs2 + t.bodies) == (bs + bs2) + t.bodies;
  }

  /** A drain is its first resumption followed, after a page, by the drain of the rest. */
  lemma WalkStep(env: Env, rule: Rule, p: Pager, quota: nat)
    ensures var s := Advance(env, rule, p, quota);
      && (s.out.Page? ==> Walk(env, rule, p, quota) == Prefixed(s.calls, [s.out.body], Walk(env, rule, s.next, s.quota)))
      && (s.out.Done? ==> Walk(env, rule, p, quota) == Trace([], [], Finished, quota))
      && (s.out.Fail? ==> Walk(env, rule, p, quota) == Trace(s.calls, [], Failed(s.out.error), s.quota))
  {
  }

  /** A resumption that yielded the body `b`: the drain is that round followed by the drain of `next`. */
  lemma WalkPage(env: Env, rule: Rule, p: Pager, quota: nat, calls: seq<Call>, b: Body, next: Pager, left: nat)
    requires Advance(env, rule, p, quota) == Advanced(calls, Page(b), next, left)
    ensures Walk(env, rule, p, quota) == Prefixed(calls, [b], Walk(env, rule, next, left))
  {
    WalkStep(env, rule, p, quota);
  }

  /** A resumption allowed a request behaves the same under a larger quota; one that ends never needed any. */
  lemma AdvanceMore(env: Env, rule: Rule, p: Pager, q1: nat, q2: nat)
    requires q1 <= q2
    ensures var s1, s2 := Advance(env, rule, p, q1), Advance(env, rule, p, q2);
      && (q1 > 0 ==> s1.calls == s2.calls && s1.out == s2.out && s1.next == s2.next)
      && (s1.out.Done? ==> s2.out.Done?)
  {
  }

  /**
   * A drain under a larger quota yields the same pages and then possibly
   * more; a drain that finished under the smaller quota is the whole drain.
   */
  lemma {:induction false} WalkSettles(env: Env, rule: Rule, p: Pager, q1: nat, q2: nat)
    requires q1 <= q2
    ensures var t1, t2 := Walk(env, rule, p, q1), Walk(env, rule, p, q2);
      && t1.bodies <= t2.bodies
      && (t1.outcome == Finished ==> t2.outcome == Finished && t2.bodies == t1.bodies && t2.calls == t1.calls)
    decreases q1
  {
    var s1, s2 := Advance(env, rule, p, q1), Advance(env, rule, p, q2);
    AdvanceMore(env, rule, p, q1, q2);
    WalkStep(env, rule, p, q1);
    WalkStep(env, rule, p, q2);
    if s1.out.Page? {
      var r1, r2 := Walk(env, rule, s1.next, s1.quota), Walk(env, rule, s2.next, s2.quota);
      WalkSettles(env, rule, s1.next, s1.quota, s2.quota);
      assert ([s1.out.body] + r2.bodies)[..1 + |r1.bodies|] == [s1.out.body] + r2.bodies[..|r1.bodies|];
    }
  }

  /** Every request a resumption sends is for the generator's resource, and it stays on that resource. */
  lemma AdvanceStaysOnResource(env: Env, rule: Rule, p: Pager, quota: nat)
    ensures var s := Advance(env, rule, p, quota);
      && (forall c :: c in s.calls ==> p.Active? && c.resource == p.resource)
      && (s.next.Active? ==> p.Active? && s.next.resource == p.resource)
  {
  }

  /** Every request of a drain is for the generator's resource. */
  lemma {:induction false} WalkStaysOnResource(env: Env, rule: Rule, p: Pager, quota: nat)
    ensures forall c :: c in Walk(env, rule, p, quota).calls ==> p.Active? && c.resource == p.resource
    decreases quota
  {
    var s := Advance(env, rule, p, quota);
    AdvanceStaysOnResource(env, rule, p, quota);
    WalkStep(env, rule, p, quota);
    if s.out.Page? {
      WalkStaysOnResource(env, rule, s.next, s.quota);
    }
  }

  /**
   * One round of a drain that has already produced `cs` and `bs`: the
   * resumption that sent `calls` and gave `y` ends the drain, or leaves the
   * drain of `next` to do.
   */
  lemma DrainStep(env: Env, rule: Rule, goal: Trace, cs: seq<Call>, bs: seq<Body>, p: Pager, quota: nat,
                  calls: seq<Call>, y: Yield, next: Pager, left: nat)
    requires Advance(env, rule, p, quota) == Advanced(calls, y, next, left)
    requires goal == Prefixed(cs, bs, Walk(env, rule, p, quota))
    ensures y.Done? ==> goal == Trace(cs, bs, Finished, quota)
    ensures y.Fail? ==> goal == Trace(cs + calls, bs, Failed(y.error), left)
    ensures y.Page? ==> left < quota && goal == Prefixed(cs + calls, bs + [y.body], Walk(env, rule, next, left))
  {
    WalkStep(env, rule, p, quota);
    if y.Page? {
      PrefixedTwice(cs, bs, calls, [y.body], Walk(env, rule, next, left));
    } else {
      assert cs + [] == cs && bs + [] == bs;
    }
  }

  /** The registry answered `req` with a success status and this body. */
  ghost predicate Answered(env: Env, req: Request, body: Body)
  {
    !IsHttpFailure(env.server(req).status) && env.server(req).body == body
  }

  /**
   * `calls` and `bodies` follow the registry's cursors from `first`: one
   * body per successful request, in request order; every request after the
   * first is the continuation of the body before it; at most one request
   * (the last) went unanswered.
   */
  ghost predicate Chained(env: Env, rule: Rule, resource: string, first: Request, calls: seq<Call>, bodies: seq<Body>)
  {
    && |bodies| <= |calls| <= |bodies| + 1
    && (|calls| > 0 ==> calls[0] == Call(resource, first))
    && (forall i :: 0 <= i < |calls| ==> calls[i].resource == resource)
    && (forall i :: 0 <= i < |bodies| ==> AnsweredAt(env, calls, bodies, i))
    && (forall i :: 0 < i < |calls| ==> FollowsAt(env, rule, calls, bodies, i))
  }

  /** Request `i` was answered with body `i`. */
  ghost predicate AnsweredAt(env: Env, calls: seq<Call>, bodies: seq<Body>, i: nat)
    requires i < |calls| && i < |bodies|
  {
    Answered(env, calls[i].request, bodies[i])
  }

  /** Request `i` is the continuation of body `i - 1`. */
  ghost predicate FollowsAt(env: Env, rule: Rule, calls: seq<Call>, bodies: seq<Body>, i: nat)
    requires 0 < i < |calls| && i - 1 < |bodies|
  {
    Continuation(env, rule, bodies[i - 1]) == Some(calls[i].request)
  }

  /** Resuming after a body behaves as a fresh generator for its continuation, or ends. */
  lemma ResumeWalk(env: Env, rule: Rule, resource: string, url: string, params: Params, b: Body, quota: nat)
    ensures NextCursor(rule, b).Err? ==>
      Walk(env, rule, Active(resource, url, params, Some(b)), quota) == Trace([], [], Failed(NextCursor(rule, b).error), quota)
    ensures NextCursor(rule, b) == Ok(None) ==>
      Walk(env, rule, Active(resource, url, params, Some(b)), quota) == Trace([], [], Finished, quota)
    ensures Continuation(env, rule, b).Some? ==>
      Walk(env, rule, Active(resource, url, params, Some(b)), quota) ==
      Walk(env, rule, Fresh(resource, Continuation(env, rule, b).value), quota)
  {
  }

  /** A fresh generator whose first request succeeds: that body, then the walk its cursor leads to, if any. */
  lemma WalkFresh(env: Env, rule: Rule, resource: string, first: Request, quota: nat)
    requires quota > 0 && !IsHttpFailure(env.server(first).status)
    ensures var b := env.server(first).body;
      Continuation(env, rule, b).Some? ==>
        Walk(env, rule, Fresh(resource, first), quota) ==
        Prefixed([Call(resource, first)], [b], Walk(env, rule, Fresh(resource, Continuation(env, rule, b).value), quota - 1))
    ensures var b := env.server(first).body;
      Continuation(env, rule, b).None? ==>
        Walk(env, rule, Fresh(resource, first), quota) ==
        Trace([Call(resource, first)], [b],
              if NextCursor(rule, b).Err? then Failed(NextCursor(rule, b).error) else Finished, quota - 1)
  {
    var b := env.server(first).body;
    WalkPage(env, rule, Fresh(resource, first), quota,
             [Call(resource, first)], b, Active(resource, first.url, first.params, Some(b)), quota - 1);
    ResumeWalk(env, rule, resource, first.url, first.params, b, quota - 1);
  }

  /**
   * The `do_fetch` loop read as rounds: send `req`, raise on a failure
   * status, keep the body, then raise, stop or go round again as the
   * cursor says.
   */
  function Rounds(env: Env, rule: Rule, resource: string, req: Request, quota: nat): (t: Trace)
    decreases quota
  {
    if quota == 0 then Trace([], [], Failed(QuotaExhausted), 0)
    else
      var r := env.server(req);
      if IsHttpFailure(r.status) then Trace([Call(resource, req)], [], Failed(HttpError(r.status)), quota - 1)
      else
        match NextCursor(rule, r.body)
        case Err(e) => Trace([Call(resource, req)], [r.body], Failed(e), quota - 1)
        case Ok(None) => Trace([Call(resource, req)], [r.body], Finished, quota - 1)
        case Ok(Some(n)) =>
          Prefixed([Call(resource, req)], [r.body], Rounds(env, rule, resource, Request(NextUrl(env, n), map[]), quota - 1))
  }

  /** `do_fetch` with no requests left to send. */
  lemma RoundsOutOfQuota(env: Env, rule: Rule, resource: string, goal: Trace, cs: seq<Call>, bs: seq<Body>, req: Request)
    requires goal == Prefixed(cs, bs, Rounds(env, rule, resource, req, 0))
    ensures goal == Trace(cs, bs, Failed(QuotaExhausted), 0)
  {
    assert cs + [] == cs && bs + [] == bs;
  }

  /** One round of `do_fetch` whose request fails: `raise_for_status` ends the loop. */
  lemma RoundsRaise(env: Env, rule: Rule, resource: string, goal: Trace, cs: seq<Call>, bs: seq<Body>,
                    req: Request, quota: nat, status: int)
    requires goal == Prefixed(cs, bs, Rounds(env, rule, resource, req, quota))
    requires quota > 0 && env.server(req).status == status && IsHttpFailure(status)
    ensures goal == Trace(cs + [Call(resource, req)], bs, Failed(HttpError(status)), quota - 1)
  {
    assert bs + [] == bs;
  }

  /** One round of `do_fetch` whose body has no readable cursor: the lookup raises. */
  lemma RoundsBadCursor(env: Env, rule: Rule, resource: string, goal: Trace, cs: seq<Call>, bs: seq<Body>,
                        req: Request, quota: nat, b: Body, e: Error)
    requires goal == Prefixed(cs, bs, Rounds(env, rule, resource, req, quota))
    requires quota > 0 && !IsHttpFailure(env.server(req).status) && env.server(req).body == b
    requires NextCursor(rule, b) == Err(e)
    ensures goal == Trace(cs + [Call(resource, req)], bs + [b], Failed(e), quota - 1)
  {
  }

  /** One round of `do_fetch` whose body's cursor is empty: the loop stops. */
  lemma RoundsStop(env: Env, rule: Rule, resource: string, goal: Trace, cs: seq<Call>, bs: seq<Body>,
                   req: Request, quota: nat, b: Body)
    requires goal == Prefixed(cs, bs, Rounds(env, rule, resource, req, quota))
    requires quota > 0 && !IsHttpFailure(env.server(req).status) && env.server(req).body == b
    requires NextCursor(rule, b) == Ok(None)
    ensures goal == Trace(cs + [Call(resource, req)], bs + [b], Finished, quota - 1)
  {
  }

  /** One round of `do_fetch` when the body's cursor leads to a next request. */
  lemma RoundsGoOn(env: Env, rule: Rule, resource: string, goal: Trace, cs: seq<Call>, bs: seq<Body>,
                   req: Request, quota: nat, b: Body, n: Json, left: nat)
    requires goal == Prefixed(cs, bs, Rounds(env, rule, resource, req, quota))
    requires quota == left + 1 && !IsHttpFailure(env.server(req).status) && env.server(req).body == b
    requires NextCursor(rule, b) == Ok(Some(n))
    ensures goal == Prefixed(cs + [Call(resource, req)], bs + [b],
                             Rounds(env, rule, resource, Request(NextUrl(env, n), map[]), left))
  {
    var rest := Rounds(env, rule, resource, Request(NextUrl(env, n), map[]), left);
    RoundsOnward(env, rule, resource, req, b, n, left);
    PrefixedTwice(cs, bs, [Call(resource, req)], [b], rest);
  }

  /** A round whose body's cursor leads on is that request and body, then the rounds from the cursor. */
  lemma RoundsOnward(env: Env, rule: Rule, resource: string, req: Request, b: Body, n: Json, left: nat)
    requires !IsHttpFailure(env.server(req).status) && env.server(req).body == b
    requires NextCursor(rule, b) == Ok(Some(n))
    ensures Rounds(env, rule, resource, req, left + 1) ==
      Prefixed([Call(resource, req)], [b], Rounds(env, rule, resource, Request(NextUrl(env, n), map[]), left))
  {
    RoundsUnfold(env, rule, resource, req, left + 1, b, n);
  }

  /** The same, with the quota left written as `quota - 1`. */
  lemma RoundsUnfold(env: Env, rule: Rule, resource: string, req: Request, quota: nat, b: Body, n: Json)
    requires quota > 0 && !IsHttpFailure(env.server(req).status) && env.server(req).body == b
    requires NextCursor(rule, b) == Ok(Some(n))
    ensures Rounds(env, rule, resource, req, quota) ==
      Prefixed([Call(resource, req)], [b], Rounds(env, rule, resource, Request(NextUrl(env, n), map[]), quota - 1))
  {
  }

  /** The loop and the generator agree on their first round, and after it when they agree on the rest. */
  lemma RoundsFirstIsWalk(env: Env, rule: Rule, resource: string, req: Request, quota: nat)
    requires quota > 0 && !IsHttpFailure(env.server(req).status) && Continuation(env, rule, env.server(req).body).Some? ==>
      var next := Continuation(env, rule, env.server(req).body).value;
      Rounds(env, rule, resource, next, quota - 1) == Walk(env, rule, Fresh(resource, next), quota - 1)
    ensures Rounds(env, rule, resource, req, quota) == Walk(env, rule, Fresh(resource, req), quota)
  {
    if quota > 0 && !IsHttpFailure(env.server(req).status) {
      WalkFresh(env, rule, resource, req, quota);
    }
  }

  /**
   * The loop and the generator agree: the rounds of `do_fetch` are the drain
   * of the fresh generator. By induction on the quota: Dafny's automatic
   * induction supplies the agreement after the first round.
   */
  lemma RoundsAreWalk(env: Env, rule: Rule, resource: string, req: Request, quota: nat)
    ensures Rounds(env, rule, resource, req, quota) == Walk(env, rule, Fresh(resource, req), quota)
    decreases quota
  {
    RoundsFirstIsWalk(env, rule, resource, req, quota);
  }

  /**
   * How a drain ended, as its cursors say: it finished exactly after a body
   * whose cursor says stop; a failure status aborted it before that body was
   * yielded; otherwise it raised what reading the last cursor raised, or the
   * quota ran out.
   */
  ghost predicate EndsAsCursorSays(env: Env, rule: Rule, t: Trace)
  {
    && (t.outcome == Finished <==>
          |t.calls| == |t.bodies| > 0 && NextCursor(rule, t.bodies[|t.bodies| - 1]) == Ok(None))
    && (|t.calls| == |t.bodies| + 1 <==> t.outcome.Failed? && t.outcome.error.HttpError?)
    && (|t.calls| == |t.bodies| + 1 ==>
          IsHttpFailure(env.server(t.calls[|t.bodies|].request).status) &&
          t.outcome == Failed(HttpError(env.server(t.calls[|t.bodies|].request).status)))
    && (t.outcome.Failed? && |t.calls| == |t.bodies| ==>
          (t.outcome.error == QuotaExhausted && t.quota == 0) ||
          (|t.bodies| > 0 && NextCursor(rule, t.bodies[|t.bodies| - 1]) == Err(t.outcome.error)))
  }

  /** A chain extended at the front by an answered request stays a chain. */
  lemma ConsChain(env: Env, rule: Rule, resource: string, first: Request, b: Body, calls: seq<Call>, bodies: seq<Body>,
                  cs: seq<Call>, bs: seq<Body>)
    requires Answered(env, first, b)
    requires |calls| > 0 ==>
      Continuation(env, rule, b).Some? && Chained(env, rule, resource, Continuation(env, rule, b).value, calls, bodies)
    requires |calls| == 0 ==> bodies == []
    requires cs == [Call(resource, first)] + calls && bs == [b] + bodies
    ensures Chained(env, rule, resource, first, cs, bs)
  {
    forall i | 0 < i < |cs| ensures FollowsAt(env, rule, cs, bs, i) {
      if i > 1 {
        assert FollowsAt(env, rule, calls, bodies, i - 1);
        assert cs[i] == calls[i - 1];
        assert bs[i - 1] == bodies[i - 2];
      }
    }
    forall i | 0 <= i < |bs| ensures AnsweredAt(env, cs, bs, i) {
      if i > 0 {
        assert AnsweredAt(env, calls, bodies, i - 1);
      }
    }
    forall i | 0 <= i < |cs| ensures cs[i].resource == resource {
      if i > 0 {
        assert cs[i] == calls[i - 1];
      }
    }
  }

  /** Prefixing an answered request to a drain that sent requests keeps how it ended. */
  lemma ConsEnding(env: Env, rule: Rule, resource: string, first: Request, b: Body, rest: Trace, t: Trace)
    requires Answered(env, first, b)
    requires 0 < |rest.calls| && |rest.bodies| <= |rest.calls| && EndsAsCursorSays(env, rule, rest)
    requires t == Prefixed([Call(resource, first)], [b], rest)
    ensures EndsAsCursorSays(env, rule, t)
  {
    if |rest.calls| == |rest.bodies| + 1 {
      assert t.calls[|t.bodies|] == rest.calls[|rest.bodies|];
    }
    if |rest.bodies| > 0 {
      assert t.bodies[|t.bodies| - 1] == rest.bodies[|rest.bodies| - 1];
    }
  }

  /** A drain of one answered request ends as the cursor of its body says, or on the quota. */
  lemma EndsAlone(env: Env, rule: Rule, resource: string, first: Request, b: Body, t: Trace)
    requires Answered(env, first, b)
    requires t.calls == [Call(resource, first)] && t.bodies == [b]
    requires t.outcome == Finished <==> NextCursor(rule, b) == Ok(None)
    requires t.outcome.Failed? ==>
      !t.outcome.error.HttpError? &&
      ((t.outcome.error == QuotaExhausted && t.quota == 0) || NextCursor(rule, b) == Err(t.outcome.error))
    ensures EndsAsCursorSays(env, rule, t)
  {
  }

  /** A drain whose first request is not sent, or fails, holds that request alone (if sent) and no body. */
  lemma WalkUnanswered(env: Env, rule: Rule, resource: string, first: Request, quota: nat)
    requires quota == 0 || IsHttpFailure(env.server(first).status)
    ensures var t := Walk(env, rule, Fresh(resource, first), quota);
      && t.bodies == []
      && t.calls == (if quota == 0 then [] else [Call(resource, first)])
  {
  }

  /** A first page whose cursor gives no continuation: the chain of that one request and body. */
  lemma ChainOfLastPage(env: Env, rule: Rule, resource: string, first: Request, quota: nat)
    requires quota > 0 && !IsHttpFailure(env.server(first).status)
    requires Continuation(env, rule, env.server(first).body).None?
    ensures var t := Walk(env, rule, Fresh(resource, first), quota);
      && Chained(env, rule, resource, first, t.calls, t.bodies)
      && (quota > 0 <==> |t.calls| > 0)
  {
    var t := Walk(env, rule, Fresh(resource, first), quota);
    WalkFresh(env, rule, resource, first, quota);
    ConsChain(env, rule, resource, first, env.server(first).body, [], [], t.calls, t.bodies);
  }

  /** A first page whose cursor leads on: its request and body in front of the chain after it. */
  lemma ChainAfterNext(env: Env, rule: Rule, resource: string, first: Request, quota: nat)
    requires quota > 0 && !IsHttpFailure(env.server(first).status)
    requires Continuation(env, rule, env.server(first).body).Some?
    requires var rest := Walk(env, rule, Fresh(resource, Continuation(env, rule, env.server(first).body).value), quota - 1);
      && Chained(env, rule, resource, Continuation(env, rule, env.server(first).body).value, rest.calls, rest.bodies)
      && (quota - 1 > 0 <==> |rest.calls| > 0)
    ensures var t := Walk(env, rule, Fresh(resource, first), quota);
      && Chained(env, rule, resource, first, t.calls, t.bodies)
      && (quota > 0 <==> |t.calls| > 0)
  {
    var b := env.server(first).body;
    var rest := Walk(env, rule, Fresh(resource, Continuation(env, rule, b).value), quota - 1);
    var t := Walk(env, rule, Fresh(resource, first), quota);
    WalkFresh(env, rule, resource, first, quota);
    ConsChain(env, rule, resource, first, b, rest.calls, rest.bodies, t.calls, t.bodies);
  }

  /**
   * The pagination loop yields one body per request, in request order, and
   * follows each non-empty cursor with the joined URL and empty parameters.
   */
  lemma {:induction false} WalkFollowsCursors(env: Env, rule: Rule, resource: string, first: Request, quota: nat)
    ensures var t := Walk(env, rule, Fresh(resource, first), quota);
      && Chained(env, rule, resource, first, t.calls, t.bodies)
      && (quota > 0 <==> |t.calls| > 0)
    decreases quota
  {
    if quota == 0 || IsHttpFailure(env.server(first).status) {
      WalkUnanswered(env, rule, resource, first, quota);
    } else if Continuation(env, rule, env.server(first).body).None? {
      ChainOfLastPage(env, rule, resource, first, quota);
    } else {
      WalkFollowsCursors(env, rule, resource, Continuation(env, rule, env.server(first).body).value, quota - 1);
      ChainAfterNext(env, rule, resource, first, quota);
    }
  }

  /**
   * A drain that was allowed a request sent one, and it holds at most one
   * unanswered request: a corollary of WalkFollowsCursors.
   */
  lemma WalkSizes(env: Env, rule: Rule, resource: string, first: Request, quota: nat)
    requires quota > 0
    ensures var t := Walk(env, rule, Fresh(resource, first), quota);
      0 < |t.calls| && |t.bodies| <= |t.calls| <= |t.bodies| + 1
  {
    WalkFollowsCursors(env, rule, resource, first, quota);
  }

  /** A first page whose cursor gives no continuation ends the drain, as its cursor says. */
  lemma EndsAfterLastPage(env: Env, rule: Rule, resource: string, first: Request, quota: nat)
    requires quota > 0 && !IsHttpFailure(env.server(first).status)
    requires Continuation(env, rule, env.server(first).body).None?
    ensures EndsAsCursorSays(env, rule, Walk(env, rule, Fresh(resource, first), quota))
  {
    var b := env.server(first).body;
    WalkFresh(env, rule, resource, first, quota);
    EndsAlone(env, rule, resource, first, b, Walk(env, rule, Fresh(resource, first), quota));
  }

  /** A first request that fails aborts the drain with its status, before any body. */
  lemma EndsRefused(env: Env, rule: Rule, resource: string, first: Request, quota: nat)
    requires quota > 0 && IsHttpFailure(env.server(first).status)
    ensures EndsAsCursorSays(env, rule, Walk(env, rule, Fresh(resource, first), quota))
  {
  }

  /** A first page whose cursor leads on, with no request left for it: the quota ends the drain. */
  lemma EndsOnQuota(env: Env, rule: Rule, resource: string, first: Request)
    requires !IsHttpFailure(env.server(first).status) && Continuation(env, rule, env.server(first).body).Some?
    ensures EndsAsCursorSays(env, rule, Walk(env, rule, Fresh(resource, first), 1))
  {
    var b := env.server(first).body;
    var rest := Walk(env, rule, Fresh(resource, Continuation(env, rule, b).value), 0);
    WalkFresh(env, rule, resource, first, 1);
    assert rest == Trace([], [], Failed(QuotaExhausted), 0);
    assert [Call(resource, first)] + rest.calls == [Call(resource, first)] && [b] + rest.bodies == [b];
    EndsAlone(env, rule, resource, first, b, Walk(env, rule, Fresh(resource, first), 1));
  }

  /** A first page whose cursor leads on: the drain ends as the drain after it does. */
  lemma EndsAfterNext(env: Env, rule: Rule, resource: string, first: Request, quota: nat)
    requires quota > 1 && !IsHttpFailure(env.server(first).status)
    requires Continuation(env, rule, env.server(first).body).Some?
    requires EndsAsCursorSays(env, rule,
                              Walk(env, rule, Fresh(resource, Continuation(env, rule, env.server(first).body).value), quota - 1))
    ensures EndsAsCursorSays(env, rule, Walk(env, rule, Fresh(resource, first), quota))
  {
    var b := env.server(first).body;
    var next := Continuation(env, rule, b).value;
    WalkFresh(env, rule, resource, first, quota);
    WalkSizes(env, rule, resource, next, quota - 1);
    ConsEnding(env, rule, resource, first, b, Walk(env, rule, Fresh(resource, next), quota - 1),
               Walk(env, rule, Fresh(resource, first), quota));
  }

  /** How the pagination loop ends (EndsAsCursorSays), for every drain that sent a request. */
  lemma {:induction false} WalkEndsAsCursorSays(env: Env, rule: Rule, resource: string, first: Request, quota: nat)
    requires quota > 0
    ensures EndsAsCursorSays(env, rule, Walk(env, rule, Fresh(resource, first), quota))
    decreases quota
  {
    var b := env.server(first).body;
    if IsHttpFailure(env.server(first).status) {
      EndsRefused(env, rule, resource, first, quota);
    } else if Continuation(env, rule, b).None? {
      EndsAfterLastPage(env, rule, resource, first, quota);
    } else if quota == 1 {
      EndsOnQuota(env, rule, resource, first);
    } else {
      WalkEndsAsCursorSays(env, rule, resource, Continuation(env, rule, b).value, quota - 1);
      EndsAfterNext(env, rule, resource, first, quota);
    }
  }

  /** A decoded body on which `'pagination' in json_data` answers False. */
  predicate Unpaginated(b: Body)
  {
    b.Doc? && Contains(b.json, "pagination") == Ok(false)
  }

  /**
   * The two clients read cursors alike except on an unpaginated body, where
   * the current one stops and the legacy one raises (KeyError on an object,
   * TypeError on a list or a string).
   */
  lemma RulesDifferOnlyWhenUnpaginated(b: Body)
    ensures NextCursor(Current, b) != NextCursor(Legacy, b) <==> Unpaginated(b)
    ensures Unpaginated(b) ==>
      && NextCursor(Current, b) == Ok(None)
      && NextCursor(Legacy, b) == Err(if b.json.JObj? then KeyError("pagination") else TypeError)
  {
  }

  /**
   * Under either rule the generator goes on after a body exactly when the
   * body is an object whose 'pagination' member is an object with a truthy
   * 'next' member, and it goes on with that member as the cursor.
   */
  lemma CursorLeadsOnExactly(rule: Rule, b: Body)
    ensures NextCursor(rule, b).Ok? && NextCursor(rule, b).value.Some? <==>
      && b.Doc? && b.json.JObj?
      && Lookup(b.json.members, "pagination").Some?
      && Lookup(b.json.members, "pagination").value.JObj?
      && Lookup(Lookup(b.json.members, "pagination").value.members, "next").Some?
      && Truthy(Lookup(Lookup(b.json.members, "pagination").value.members, "next").value)
    ensures NextCursor(rule, b).Ok? && NextCursor(rule, b).value.Some? ==>
      NextCursor(rule, b).value.value == Lookup(Lookup(b.json.members, "pagination").value.members, "next").value
  {
  }

  /** When the registry never answers an unpaginated body, both clients drain a generator identically. */
  lemma {:induction false} RulesWalkAlike(env: Env, p: Pager, quota: nat)
    requires forall req :: !Unpaginated(env.server(req).body)
    requires p.Active? && p.last.Some? ==> !Unpaginated(p.last.value)
    ensures Walk(env, Current, p, quota) == Walk(env, Legacy, p, quota)
    decreases quota
  {
    var s := Advance(env, Current, p, quota);
    if p.Active? && p.last.Some? {
      RulesDifferOnlyWhenUnpaginated(p.last.value);
    }
    assert Advance(env, Legacy, p, quota) == s;
    if s.out.Page? {
      RulesWalkAlike(env, s.next, s.quota);
    }
  }

  /**
   * A first page that is an object without a 'pagination' key: the current
   * client yields it and finishes; the legacy client yields it and then
   * raises KeyError('pagination'). Neither sends a second request.
   */
  lemma UnpaginatedFirstPage(env: Env, resource: string, first: Request, quota: nat)
    requires quota > 0 && !IsHttpFailure(env.server(first).status)
    requires env.server(first).body.Doc? && env.server(first).body.json.JObj?
    requires "pagination" !in Keys(env.server(first).body.json.members)
    ensures var b := env.server(first).body;
      && Walk(env, Current, Fresh(resource, first), quota) == Trace([Call(resource, first)], [b], Finished, quota - 1)
      && Walk(env, Legacy, Fresh(resource, first), quota) ==
         Trace([Call(resource, first)], [b], Failed(KeyError("pagination")), quota - 1)
  {
    var b := env.server(first).body;
    WalkFresh(env, Current, resource, first, quota);
    WalkFresh(env, Legacy, resource, first, quota);
  }
}
