/** The agent's local resource pool `local_resources`: a dictionary keyed by
    resource id whose iteration order is insertion order, so a key that is
    overwritten keeps its original position. */
module LocalPool {
  import opened Schemas
  import opened Matching

  datatype Pool = Pool(order: seq<Id>, entries: map<Id, Resource>) {
    /** Keys listed once each, in insertion order, and every resource stored
        under its own id. */
    ghost predicate Valid() {
      && (forall i, j :: 0 <= i < j < |order| ==> order[i] != order[j])
      && (forall id :: id in entries <==> id in order)
      && (forall id :: id in entries ==> entries[id].id == id)
    }
  }

  const Empty := Pool([], map[])

  /** `self.local_resources[resource.id] = resource` */
  function Put(p: Pool, r: Resource): (q: Pool)
    ensures p.Valid() ==> q.Valid()
  {
    Pool(if r.id in p.entries then p.order else p.order + [r.id], p.entries[r.id := r])
  }

  /** The caching loop of `request_resources`, one `Put` per resource in order. */
  function PutAll(p: Pool, rs: seq<Resource>): (q: Pool)
    ensures p.Valid() ==> q.Valid()
  {
    if rs == [] then p else Put(PutAll(p, rs[..|rs| - 1]), rs[|rs| - 1])
  }

  /** `_find_local_resource` as a value: the first pooled resource, in
      insertion order from position `i`, that shares a requirement. */
  function HitFrom(p: Pool, reqs: seq<string>, i: nat): Option<Resource>
    requires i <= |p.order|
    decreases |p.order| - i
  {
    if i == |p.order| then None
    else if p.order[i] in p.entries && Matches(p.entries[p.order[i]], reqs) then Some(p.entries[p.order[i]])
    else HitFrom(p, reqs, i + 1)
  }

  function LocalHit(p: Pool, reqs: seq<string>): Option<Resource> {
    HitFrom(p, reqs, 0)
  }

  lemma {:induction false} HitFromSpec(p: Pool, reqs: seq<string>, i: nat)
    requires p.Valid() && i <= |p.order|
    ensures HitFrom(p, reqs, i).None? <==>
      forall j :: i <= j < |p.order| ==> !Matches(p.entries[p.order[j]], reqs)
    ensures HitFrom(p, reqs, i).Some? ==>
      exists k :: i <= k < |p.order| && HitFrom(p, reqs, i).value == p.entries[p.order[k]]
        && Matches(p.entries[p.order[k]], reqs)
        && forall j :: i <= j < k ==> !Matches(p.entries[p.order[j]], reqs)
    decreases |p.order| - i
  {
    if i < |p.order| && !Matches(p.entries[p.order[i]], reqs) {
      HitFromSpec(p, reqs, i + 1);
    }
  }

  /** The local lookup finds nothing exactly when no pooled resource shares a
      requirement; otherwise it returns the earliest inserted one that does. */
  lemma LocalHitSpec(p: Pool, reqs: seq<string>)
    requires p.Valid()
    ensures LocalHit(p, reqs).None? <==>
      forall id :: id in p.entries ==> !Matches(p.entries[id], reqs)
    ensures LocalHit(p, reqs).Some? ==>
      exists k :: 0 <= k < |p.order| && LocalHit(p, reqs).value == p.entries[p.order[k]]
        && Matches(p.entries[p.order[k]], reqs)
        && forall j :: 0 <= j < k ==> !Matches(p.entries[p.order[j]], reqs)
  {
    HitFromSpec(p, reqs, 0);
    if LocalHit(p, reqs).None? {
      forall id | id in p.entries ensures !Matches(p.entries[id], reqs) {
        var j :| 0 <= j < |p.order| && p.order[j] == id;
      }
    }
  }

  /** Storing resources never moves the keys already pooled: the old order is
      a prefix of the new one. */
  lemma {:induction false} PutAllKeepsOrder(p: Pool, rs: seq<Resource>)
    requires p.Valid()
    ensures |p.order| <= |PutAll(p, rs).order| && PutAll(p, rs).order[..|p.order|] == p.order
  {
    if rs != [] {
      PutAllKeepsOrder(p, rs[..|rs| - 1]);
      var q := PutAll(p, rs[..|rs| - 1]);
      assert (q.order + [rs[|rs| - 1].id])[..|q.order|] == q.order;
    }
  }

  /** The ids of `rs` in order of first appearance, skipping those in `seen`. */
  function FirstIds(rs: seq<Resource>, seen: set<Id>): seq<Id> {
    if rs == [] then []
    else if rs[0].id in seen then FirstIds(rs[1..], seen)
    else [rs[0].id] + FirstIds(rs[1..], seen + {rs[0].id})
  }

  /** Caching one resource and then the rest is caching them all. */
  lemma {:induction false} PutAllCons(p: Pool, r: Resource, rs: seq<Resource>)
    ensures PutAll(p, [r] + rs) == PutAll(Put(p, r), rs)
  {
    if rs == [] {
      assert ([r] + rs)[..0] == [];
    } else {
      var init, last := rs[..|rs| - 1], rs[|rs| - 1];
      var s := [r] + rs;
      assert s[..|s| - 1] == [r] + init && s[|s| - 1] == last;
      PutAllCons(p, r, init);
      calc {
        PutAll(p, s);
        Put(PutAll(p, [r] + init), last);
        Put(PutAll(Put(p, r), init), last);
        PutAll(Put(p, r), rs);
      }
    }
  }

  /** Storing resources appends the ids not pooled before, each at its first
      appearance in `rs`; a repeated id keeps the position it first got. */
  lemma {:induction false} PutAllOrder(p: Pool, rs: seq<Resource>)
    ensures PutAll(p, rs).order == p.order + FirstIds(rs, p.entries.Keys)
    decreases |rs|
  {
    if rs != [] {
      var r, rest := rs[0], rs[1..];
      var q := Put(p, r);
      assert [r] + rest == rs;
      PutAllCons(p, r, rest);
      PutAllOrder(q, rest);
      assert q.entries.Keys == p.entries.Keys + {r.id};
      if r.id in p.entries {
        assert p.entries.Keys + {r.id} == p.entries.Keys;
        assert FirstIds(rs, p.entries.Keys) == FirstIds(rest, p.entries.Keys);
      } else {
        assert FirstIds(rs, p.entries.Keys) == [r.id] + FirstIds(rest, q.entries.Keys);
        assert q.order == p.order + [r.id];
        assert p.order + [r.id] + FirstIds(rest, q.entries.Keys)
          == p.order + ([r.id] + FirstIds(rest, q.entries.Keys));
      }
    }
  }

  /** After caching `rs`, the pool holds exactly the old ids and those of `rs`. */
  lemma PutAllDomain(p: Pool, rs: seq<Resource>, id: Id)
    ensures id in PutAll(p, rs).entries <==> id in p.entries || exists i :: 0 <= i < |rs| && rs[i].id == id
  {
    if id in p.entries {
      PutAllKeepsKeys(p, rs, id);
    } else {
      PutAllNewKeys(p, rs, id);
    }
  }

  /** Caching never removes an id already pooled. */
  lemma {:induction false} PutAllKeepsKeys(p: Pool, rs: seq<Resource>, id: Id)
    requires id in p.entries
    ensures id in PutAll(p, rs).entries
  {
    if rs != [] {
      PutAllKeepsKeys(p, rs[..|rs| - 1], id);
    }
  }

  /** An id not pooled before is pooled afterwards exactly when `rs` mentions it. */
  lemma {:induction false} PutAllNewKeys(p: Pool, rs: seq<Resource>, id: Id)
    requires id !in p.entries
    ensures id in PutAll(p, rs).entries <==> exists i :: 0 <= i < |rs| && rs[i].id == id
  {
    if rs != [] {
      var init, last := rs[..|rs| - 1], rs[|rs| - 1];
      PutAllNewKeys(p, init, id);
      if exists i :: 0 <= i < |init| && init[i].id == id {
        var i :| 0 <= i < |init| && init[i].id == id;
        assert rs[i].id == id;
      }
      if exists i :: 0 <= i < |rs| && rs[i].id == id {
        var i :| 0 <= i < |rs| && rs[i].id == id;
        if i < |init| {
          assert init[i].id == id;
        }
      }
    }
  }

  /** Ids that `rs` does not mention keep their old entry. */
  lemma {:induction false} PutAllUntouched(p: Pool, rs: seq<Resource>, id: Id)
    requires p.Valid() && id in p.entries
    requires forall i :: 0 <= i < |rs| ==> rs[i].id != id
    ensures id in PutAll(p, rs).entries && PutAll(p, rs).entries[id] == p.entries[id]
  {
    if rs != [] {
      PutAllUntouched(p, rs[..|rs| - 1], id);
    }
  }

  /** Each id seen in `rs` ends up holding the last resource of `rs` with that
      id: storing overwrites. */
  lemma {:induction false} PutAllLastWins(p: Pool, rs: seq<Resource>, i: nat)
    requires p.Valid() && i < |rs|
    requires forall j :: i < j < |rs| ==> rs[j].id != rs[i].id
    ensures rs[i].id in PutAll(p, rs).entries && PutAll(p, rs).entries[rs[i].id] == rs[i]
  {
    if i < |rs| - 1 {
      var init := rs[..|rs| - 1];
      PutAllLastWins(p, init, i);
    }
  }

  /** Round trip: a resource stored into a pool where nothing shared the
      requirements yet is what the local lookup then returns, unchanged. */
  lemma PutThenLookup(p: Pool, r: Resource, reqs: seq<string>)
    requires p.Valid() && LocalHit(p, reqs).None? && Matches(r, reqs)
    ensures LocalHit(Put(p, r), reqs) == Some(r)
  {
    var q := Put(p, r);
    LocalHitSpec(p, reqs);
    LocalHitSpec(q, reqs);
    assert r.id in q.entries && q.entries[r.id] == r;
  }
}
