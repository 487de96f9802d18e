/** Resource discovery of `request_resources`: every connected gateway is asked
    in turn (through the MCP client's `list_tools()` when the agent has one,
    otherwise through the gateway's own `search_resources`), each reply's
    entries are converted to resources tagged with the gateway's id, and the
    results are concatenated in gateway order without de-duplication. A
    gateway that raises contributes what was converted before the exception. */
module Discovery {
  import opened Schemas

  /** A connected gateway agent; `search` is its `search_resources`, answered
      by the gateway and not modelled further. */
  datatype Gateway = Gateway(id: string, name: string, search: seq<string> -> Reply<seq<Descriptor>>)

  /** The agent's MCP client, whose `list_tools()` answers without arguments. */
  datatype ToolLister = ToolLister(listTools: Reply<seq<Descriptor>>)

  /** The resource built from one reply entry that has a name. `uuid4()` is
      evaluated as the default of `res.get("id", ...)` whether or not the entry
      has an id, so every entry draws the fresh value `nextFresh`. */
  function ToResource(d: Descriptor, gatewayId: string, nextFresh: nat): Resource
    requires d.name.Some?
  {
    Resource(if d.id.Some? then Given(d.id.value) else Uuid(nextFresh),
             d.name.value, d.capabilities.GetOr([]), d.endpoint.GetOr(""), d, gatewayId)
  }

  /** What one gateway's `try` block leaves behind: the resources appended, the
      next fresh value, and whether an exception ended it. */
  datatype Batch = Batch(resources: seq<Resource>, nextFresh: nat, raised: bool)

  /** The conversion loop over one reply: entries are converted in order until
      one lacks a `name` (the `KeyError` of `res["name"]`). */
  function Convert(gatewayId: string, ds: seq<Descriptor>, nextFresh: nat): (b: Batch)
    ensures b.nextFresh >= nextFresh
  {
    if ds == [] then Batch([], nextFresh, false)
    else
      var b := Convert(gatewayId, ds[..|ds| - 1], nextFresh);
      var d := ds[|ds| - 1];
      if b.raised then b
      else if d.name.None? then Batch(b.resources, b.nextFresh + 1, true)
      else Batch(b.resources + [ToResource(d, gatewayId, b.nextFresh)], b.nextFresh + 1, false)
  }

  /** The converted prefix: each entry of it has a name and becomes the resource
      drawing the fresh value of its position; the loop raised exactly when it
      stopped short, at an entry without a name; every entry tried drew one
      fresh value. */
  lemma {:induction false} ConvertSpec(gatewayId: string, ds: seq<Descriptor>, nextFresh: nat)
    ensures var b := Convert(gatewayId, ds, nextFresh);
      && |b.resources| <= |ds|
      && (forall i :: 0 <= i < |b.resources| ==>
            ds[i].name.Some? && b.resources[i] == ToResource(ds[i], gatewayId, nextFresh + i))
      && (b.raised <==> |b.resources| < |ds|)
      && (b.raised ==> ds[|b.resources|].name.None?)
      && b.nextFresh == nextFresh + if b.raised then |b.resources| + 1 else |ds|
  {
    if ds != [] {
      var n := |ds| - 1;
      ConvertSpec(gatewayId, ds[..n], nextFresh);
      var b := Convert(gatewayId, ds[..n], nextFresh);
      assert forall i :: 0 <= i < |b.resources| ==> ds[..n][i] == ds[i];
    }
  }

  /** Once an entry has raised, the entries after it are never looked at. */
  lemma {:induction false} ConvertStopped(gatewayId: string, ds: seq<Descriptor>, j: nat, nextFresh: nat)
    requires j <= |ds| && Convert(gatewayId, ds[..j], nextFresh).raised
    ensures Convert(gatewayId, ds, nextFresh) == Convert(gatewayId, ds[..j], nextFresh)
    decreases |ds|
  {
    if j < |ds| {
      var n := |ds| - 1;
      assert ds[..n][..j] == ds[..j];
      ConvertStopped(gatewayId, ds[..n], j, nextFresh);
    } else {
      assert ds[..j] == ds;
    }
  }

  /** The reply the agent gets for gateway `g`. */
  function Ask(g: Gateway, mcp: Option<ToolLister>, reqs: seq<string>): Reply<seq<Descriptor>> {
    if mcp.Some? then mcp.value.listTools else g.search(reqs)
  }

  /** One gateway's contribution: nothing when the call itself raised. */
  function Query(g: Gateway, mcp: Option<ToolLister>, reqs: seq<string>, nextFresh: nat): Batch {
    match Ask(g, mcp, reqs)
    case Raised(_) => Batch([], nextFresh, true)
    case Returned(ds) => Convert(g.id, ds, nextFresh)
  }

  datatype Found = Found(resources: seq<Resource>, nextFresh: nat)

  /** The gateway loop of `request_resources`: `all_resources` and the next
      fresh value after asking every gateway of `gws` in order. */
  function Discover(gws: seq<Gateway>, mcp: Option<ToolLister>, reqs: seq<string>, nextFresh: nat): (f: Found)
    ensures f.nextFresh >= nextFresh
  {
    if gws == [] then Found([], nextFresh)
    else
      var f := Discover(gws[..|gws| - 1], mcp, reqs, nextFresh);
      var b := Query(gws[|gws| - 1], mcp, reqs, f.nextFresh);
      Found(f.resources + b.resources, b.nextFresh)
  }

  /** Asking one more gateway appends its contribution. */
  lemma DiscoverSnoc(gws: seq<Gateway>, g: Gateway, mcp: Option<ToolLister>, reqs: seq<string>, nextFresh: nat)
    ensures var f := Discover(gws, mcp, reqs, nextFresh);
      var b := Query(g, mcp, reqs, f.nextFresh);
      Discover(gws + [g], mcp, reqs, nextFresh) == Found(f.resources + b.resources, b.nextFresh)
  {
    var s := gws + [g];
    assert s[..|s| - 1] == gws && s[|s| - 1] == g;
  }

  /** Asking `a` then `b` is asking `a` and then asking `b` from where `a` left
      off: the results are concatenated, never merged or de-duplicated. */
  lemma {:induction false} DiscoverAppend(a: seq<Gateway>, b: seq<Gateway>, mcp: Option<ToolLister>, reqs: seq<string>, nextFresh: nat)
    ensures var fa := Discover(a, mcp, reqs, nextFresh);
      var fb := Discover(b, mcp, reqs, fa.nextFresh);
      Discover(a + b, mcp, reqs, nextFresh) == Found(fa.resources + fb.resources, fb.nextFresh)
  {
    if b == [] {
      assert a + b == a;
    } else {
      var n := |b| - 1;
      var fa := Discover(a, mcp, reqs, nextFresh);
      var fm := Discover(b[..n], mcp, reqs, fa.nextFresh);
      var q := Query(b[n], mcp, reqs, fm.nextFresh);
      assert Discover(a + b[..n], mcp, reqs, nextFresh) == Found(fa.resources + fm.resources, fm.nextFresh) by {
        DiscoverAppend(a, b[..n], mcp, reqs, nextFresh);
      }
      assert Discover(a + b, mcp, reqs, nextFresh) == Found(fa.resources + fm.resources + q.resources, q.nextFresh) by {
        assert a + b == (a + b[..n]) + [b[n]];
        DiscoverSnoc(a + b[..n], b[n], mcp, reqs, nextFresh);
      }
      assert Discover(b, mcp, reqs, fa.nextFresh) == Found(fm.resources + q.resources, q.nextFresh) by {
        assert b == b[..n] + [b[n]];
        DiscoverSnoc(b[..n], b[n], mcp, reqs, fa.nextFresh);
      }
      assert fa.resources + fm.resources + q.resources == fa.resources + (fm.resources + q.resources);
    }
  }

  /** A gateway whose call raises is skipped: the outcome is that of asking the
      other gateways alone, and the ones after it are still asked. */
  lemma RaisingGatewaySkipped(a: seq<Gateway>, g: Gateway, b: seq<Gateway>, mcp: Option<ToolLister>, reqs: seq<string>, nextFresh: nat)
    requires Ask(g, mcp, reqs).Raised?
    ensures Discover(a + [g] + b, mcp, reqs, nextFresh) == Discover(a + b, mcp, reqs, nextFresh)
  {
    var fa := Discover(a, mcp, reqs, nextFresh);
    DiscoverAppend(a + [g], b, mcp, reqs, nextFresh);
    DiscoverAppend(a, [g], mcp, reqs, nextFresh);
    DiscoverAppend(a, b, mcp, reqs, nextFresh);
    assert [g][..0] == [];
    assert Discover([g], mcp, reqs, fa.nextFresh) == Found([], fa.nextFresh);
  }

  /** Every discovered resource is tagged with the id of a gateway that was asked. */
  lemma {:induction false} DiscoveredFromGateways(gws: seq<Gateway>, mcp: Option<ToolLister>, reqs: seq<string>, nextFresh: nat)
    ensures forall r :: r in Discover(gws, mcp, reqs, nextFresh).resources ==>
      exists i :: 0 <= i < |gws| && r.gatewayId == gws[i].id
  {
    if gws != [] {
      var n := |gws| - 1;
      DiscoveredFromGateways(gws[..n], mcp, reqs, nextFresh);
      var f := Discover(gws[..n], mcp, reqs, nextFresh);
      var b := Query(gws[n], mcp, reqs, f.nextFresh);
      forall r | r in b.resources ensures r.gatewayId == gws[n].id {
        var k :| 0 <= k < |b.resources| && b.resources[k] == r;
        match Ask(gws[n], mcp, reqs) {
          case Raised(_) =>
          case Returned(ds) => ConvertSpec(gws[n].id, ds, f.nextFresh);
        }
      }
      forall r | r in f.resources ensures exists i :: 0 <= i < |gws| && r.gatewayId == gws[i].id {
        var i :| 0 <= i < n && r.gatewayId == gws[..n][i].id;
        assert r.gatewayId == gws[i].id;
      }
    }
  }
}
