/**
 * The PuppetForge backend of puppetforge.py: its page size, its owner cache
 * `_owners` (kept across fetches), the client it builds when a fetch starts,
 * and the loops of `fetch_items`, `__fetch_and_parse_releases` and
 * `__get_or_fetch_owner`. Each method is proved equal to the function of
 * module BackendSpec that specifies it; the properties of the backend are
 * the lemmas about those functions.
 */
module ForgeBackend {
  import opened Failures
  import opened Json
  import opened Http
  import opened Pagination
  import opened ForgeClient
  import opened BackendSpec

  /** `for x in xs: acc.append(x)`. */
  method AppendEach(acc: seq<Json>, xs: seq<Json>) returns (r: seq<Json>)
    ensures r == acc + xs
  {
    r := acc;
    var i := 0;
    while i < |xs|
      invariant 0 <= i <= |xs|
      invariant r == acc + xs[..i]
    {
      ExtendedByOne(acc, xs, i);
      r := r + [xs[i]];
      i := i + 1;
    }
    assert xs[..i] == xs;
  }

  class PuppetForge {
    /** `max_items`: the page size handed to the client. */
    const maxItems: int
    /** `self.client`: none until a fetch builds one. */
    var client: PuppetForgeClient?
    /** `self._owners`: owner data by username. */
    var owners: map<string, Json>

    /** `PuppetForge(max_items)`. */
    constructor (maxItems: int)
      ensures this.maxItems == maxItems && client == null && owners == map[]
    {
      this.maxItems := maxItems;
      client := null;
      owners := map[];
    }

    /** `PuppetForge()`: the page size defaults to MAX_ITEMS. */
    constructor WithDefaultSize()
      ensures maxItems == MaxItems && client == null && owners == map[]
    {
      maxItems := MaxItems;
      client := null;
      owners := map[];
    }

    /** `_init_client`: a client for the public registry with this backend's page size. */
    method InitClient(server: Server, show: Json -> string, quota: nat)
      modifies this`client
      ensures client != null && fresh(client)
      ensures client.baseUrl == PuppetForgeUrl && client.maxItems == maxItems
      ensures client.server == server && client.show == show
      ensures client.calls == [] && client.quota == quota
    {
      client := new PuppetForgeClient(PuppetForgeUrl, maxItems, server, show, quota);
    }

    /**
     * `__fetch_and_parse_releases(owner, module)`: every release of every
     * releases page, in order; the first failure of a request, a cursor or a
     * page's parsing ends it.
     */
    method FetchAndParseReleases(owner: string, name: string) returns (r: Result<seq<Json>>)
      requires client != null
      modifies client
      ensures var h := Gather(client.World(), client.Releases(owner, name), old(client.quota));
        && r == (if h.outcome.Failed? then Err(h.outcome.error) else Ok(h.items))
        && client.calls == old(client.calls) + h.calls && client.quota == h.quota
    {
      var c := client;
      var pager := c.Releases(owner, name);
      var releases: seq<Json> := [];
      ghost var env := c.World();
      ghost var goal := Gather(env, pager, c.quota);
      ghost var sent: seq<Call> := [];
      ghost var left := c.quota;
      assert [] + goal.items == goal.items && [] + goal.calls == goal.calls;
      while true
        invariant c.calls == old(c.calls) + sent && c.quota == left
        invariant goal == Gathered(releases, sent, Gather(env, pager, left))
        decreases left
      {
        ghost var s := Advance(env, Current, pager, left);
        GatherStep(env, goal, releases, sent, pager, left, s.calls, s.out, s.next, s.quota);
        var y, next := c.Next(pager);
        if y.Done? {
          return Ok(releases);
        }
        Concatenated(old(c.calls), sent, s.calls);
        sent := sent + s.calls;
        left := s.quota;
        if y.Fail? {
          return Err(y.error);
        }
        var page := ParseItems(y.body);
        if page.Err? {
          return Err(page.error);
        }
        releases := AppendEach(releases, page.value);
        pager := next;
      }
    }

    /**
     * `__get_or_fetch_owner(owner)`: the cached data when the username is
     * cached; otherwise the parsed first page of the user request, which is
     * then cached.
     */
    method GetOrFetchOwner(owner: string) returns (r: Result<Json>)
      requires client != null
      modifies this`owners, client
      ensures var o := OwnerLookup(client.World(), old(owners), owner, old(client.quota));
        && r == o.data && owners == o.owners
        && client.calls == old(client.calls) + o.calls && client.quota == o.quota
    {
      if owner in owners {
        assert client.calls == old(client.calls) + [];
        return Ok(owners[owner]);
      }
      var raw := client.User(owner);
      if raw.Err? {
        return Err(raw.error);
      }
      var data := ParseJson(raw.value);
      if data.Err? {
        return Err(data.error);
      }
      owners := owners[owner := data.value];
      return Ok(data.value);
    }

    /**
     * The body of the inner loop of `fetch_items` for a module recent enough:
     * read its owner's username and its name, fetch its releases, then its
     * owner's data, and return the module with both set.
     */
    method ProcessModule(m: Json) returns (r: Result<Json>)
      requires client != null
      modifies this`owners, client
      ensures var st := Process(client.World(), client.maxItems, m, old(owners), old(client.quota));
        && r == st.enriched && owners == st.owners
        && client.calls == old(client.calls) + st.calls && client.quota == st.quota
    {
      var key := ModuleKey(m);
      if key.Err? {
        assert client.calls == old(client.calls) + [];
        return Err(key.error);
      }
      ghost var env := client.World();
      ghost var h := Gather(env, client.Releases(key.value.0, key.value.1), client.quota);
      var releases := FetchAndParseReleases(key.value.0, key.value.1);
      if releases.Err? {
        return Err(releases.error);
      }
      ghost var o := OwnerLookup(env, owners, key.value.0, h.quota);
      var data := GetOrFetchOwner(key.value.0);
      Concatenated(old(client.calls), h.calls, o.calls);
      if data.Err? {
        return Err(data.error);
      }
      return Ok(Enrich(m.members, releases.value, data.value));
    }

    /**
     * `fetch_items`: walk the modules pages; for each module of a page, stop
     * everything at the first one updated before `fromTs`, and otherwise
     * yield it enriched with its releases and its owner's data.
     */
    method FetchItems(dateOf: string -> Option<int>, fromTs: int) returns (items: seq<Json>, outcome: Outcome)
      requires client != null
      modifies this`owners, client
      ensures var r := Collect(client.World(), dateOf, client.maxItems, fromTs, client.Modules(), [], old(owners),
                               old(client.quota));
        && items == r.out && outcome == r.outcome && owners == r.owners
        && client.calls == old(client.calls) + r.calls && client.quota == r.quota
    {
      var c := client;
      var pages := c.Modules();
      items := [];
      ghost var env := c.World();
      ghost var left := c.quota;
      ghost var goal := Collect(env, dateOf, c.maxItems, fromTs, pages, [], owners, left);
      ghost var examined: seq<Json> := [];
      ghost var seen: seq<Body> := [];
      ghost var sent: seq<Call> := [];
      assert goal == Joined(items, examined, seen, sent, goal);
      var stopFetching := false;
      while true
        invariant c.calls == old(c.calls) + sent && c.quota == left
        invariant goal == Joined(items, examined, seen, sent, Collect(env, dateOf, c.maxItems, fromTs, pages, [], owners, left))
        decreases left
      {
        ghost var s := Advance(env, Current, pages, left);
        CollectPageStep(env, dateOf, c.maxItems, fromTs, goal, items, examined, seen, sent, pages, owners, left,
                        s.calls, s.out, s.next, s.quota);
        var y, next := c.Next(pages);
        if y.Done? {
          return items, Finished;
        }
        ghost var q0 := left;
        Concatenated(old(c.calls), sent, s.calls);
        sent := sent + s.calls;
        left := s.quota;
        if y.Fail? {
          return items, Failed(y.error);
        }
        var parsed := ParseItems(y.body);
        if parsed.Err? {
          return items, Failed(parsed.error);
        }
        seen := seen + [y.body];
        pages := next;
        var modules := parsed.value;
        var i := 0;
        while i < |modules|
          invariant 0 <= i <= |modules|
          invariant c.calls == old(c.calls) + sent && c.quota == left
          invariant left < q0
          invariant !stopFetching
          invariant goal == Joined(items, examined, seen, sent,
                                   Collect(env, dateOf, c.maxItems, fromTs, pages, modules[i..], owners, left))
          decreases |modules| - i
        {
          var m := modules[i];
          var updated := UpdatedOn(dateOf, m);
          if updated.Err? || fromTs > updated.value {
            CollectModuleEnds(env, dateOf, c.maxItems, fromTs, goal, items, examined, seen, sent,
                              pages, modules[i..], owners, left, m);
            examined := examined + [m];
            if updated.Err? {
              return items, Failed(updated.error);
            }
            stopFetching := true;
            break;
          }
          ghost var owners0, q1 := owners, left;
          ghost var st := Process(env, c.maxItems, m, owners, left);
          var enriched := ProcessModule(m);
          CollectModuleProcessed(env, dateOf, c.maxItems, fromTs, goal, items, examined, seen, sent,
                                 pages, modules[i..], owners0, q1, m, st);
          Concatenated(old(c.calls), sent, st.calls);
          examined := examined + [m];
          sent := sent + st.calls;
          left := st.quota;
          if enriched.Err? {
            return items, Failed(enriched.error);
          }
          items := items + [enriched.value];
          assert modules[i..][1..] == modules[i + 1..];
          i := i + 1;
        }
        if stopFetching {
          return items, Finished;
        }
        assert modules[i..] == [];
      }
    }

    /**
     * `fetch(from_date)`: a missing from date means the beginning of time;
     * build the client and run `fetch_items` from that date.
     */
    method Fetch(fromDate: Option<int>, dateOf: string -> Option<int>, server: Server, show: Json -> string, quota: nat)
      returns (items: seq<Json>, outcome: Outcome)
      modifies this
      ensures client != null && fresh(client)
      ensures var r := Collect(Env(server, PuppetForgeUrl, show), dateOf, maxItems, FromTimestamp(fromDate),
                               ModulesPager(PuppetForgeUrl, maxItems), [], old(owners), quota);
        && items == r.out && outcome == r.outcome && owners == r.owners
        && client.calls == r.calls && client.quota == r.quota
    {
      var fromTs := FromTimestamp(fromDate);
      InitClient(server, show, quota);
      items, outcome := FetchItems(dateOf, fromTs);
      assert client.calls == [] + client.calls;
    }
  }
}
