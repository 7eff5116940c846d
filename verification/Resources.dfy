/** The resource manager: the inventory saved before an operation runs, and the
    removal of whatever appeared since. */
module Resources {
  import opened Order
  import opened Wrappers

  datatype Kind = Service | Container | Network | Volume

  datatype ResourceSet = ResourceSet(services: seq<string>, containers: seq<string>, networks: seq<string>, volumes: seq<string>)

  function Of(r: ResourceSet, kind: Kind): seq<string> {
    match kind
    case Service => r.services
    case Container => r.containers
    case Network => r.networks
    case Volume => r.volumes
  }

  const BY_NAME: (string, string) -> bool := (a, b) => Less(a, b)

  lemma NamesAreOrdered()
    ensures Strict(BY_NAME)
  {
    forall a: string, b: string ensures !Less(a, a) && (a == b || Less(a, b) || Less(b, a)) { LessIsTotal(a, b); }
    forall a: string, b: string, c: string | Less(a, b) && Less(b, c) ensures Less(a, c) { LessIsTransitive(a, b, c); }
  }

  method UniqueSorted(values: seq<string>) returns (result: seq<string>)
    ensures Ascending(BY_NAME, result)
    ensures forall x :: x in result <==> x in values && x != ""
  {
    var seen: set<string> := {};
    result := [];
    for i := 0 to |values|
      invariant Distinct(result)
      invariant forall x :: x in result <==> x in values[..i] && x != ""
      invariant forall x :: x in seen <==> x in result
    {
      if values[i] != "" && values[i] !in seen {
        seen := seen + {values[i]};
        result := result + [values[i]];
      }
    }
    NamesAreOrdered();
    SortedAscends(BY_NAME, result);
    result := Sorted(BY_NAME, result);
  }

  method Subtract(current: seq<string>, baseline: seq<string>) returns (result: seq<string>)
    ensures forall x :: x in result <==> x in current && x !in baseline && x != ""
  {
    var guarded: set<string> := {};
    for i := 0 to |baseline|
      invariant forall x :: x in guarded <==> x in baseline[..i]
    {
      guarded := guarded + {baseline[i]};
    }
    result := [];
    for i := 0 to |current|
      invariant forall x :: x in result <==> x in current[..i] && x !in baseline && x != ""
    {
      if current[i] !in guarded && current[i] != "" {
        result := result + [current[i]];
      }
    }
  }

  method Normalize(r: ResourceSet) returns (n: ResourceSet)
    ensures forall kind :: Normal(Of(n, kind), Of(r, kind))
  {
    var services := UniqueSorted(r.services);
    var containers := UniqueSorted(r.containers);
    var networks := UniqueSorted(r.networks);
    var volumes := UniqueSorted(r.volumes);
    n := ResourceSet(services, containers, networks, volumes);
  }

  ghost predicate Normal(n: seq<string>, ids: seq<string>) {
    Ascending(BY_NAME, n) && forall x :: x in n <==> x in ids && x != ""
  }

  /** The identifiers of `ids` beyond the baseline, in ascending order. */
  ghost predicate Beyond(n: seq<string>, ids: seq<string>, baseline: seq<string>) {
    Ascending(BY_NAME, n) && forall x :: x in n <==> x in ids && x !in baseline && x != ""
  }

  method Difference(current: ResourceSet, baseline: ResourceSet) returns (d: ResourceSet)
    ensures forall kind :: Beyond(Of(d, kind), Of(current, kind), Of(baseline, kind))
  {
    var services := Subtract(current.services, baseline.services);
    var containers := Subtract(current.containers, baseline.containers);
    var networks := Subtract(current.networks, baseline.networks);
    var volumes := Subtract(current.volumes, baseline.volumes);
    var raw := ResourceSet(services, containers, networks, volumes);
    d := Normalize(raw);
    forall kind ensures Beyond(Of(d, kind), Of(current, kind), Of(baseline, kind)) {
      assert Normal(Of(d, kind), Of(raw, kind));
    }
  }

  datatype Call = Remove(kind: Kind, id: string)

  function Calls(kind: Kind, ids: seq<string>): seq<Call> {
    seq(|ids|, i requires 0 <= i < |ids| => Remove(kind, ids[i]))
  }

  /** Docker: between any two calls others may create and remove resources, every
      answer may be an error, and a failed removal may have removed the resource. */
  class Docker {
    var present: ResourceSet
    ghost var calls: seq<Call>
    ghost var answers: seq<ResourceSet>   // the inventories it has given
    ghost var errors: nat                 // the calls it has failed

    method Inventory() returns (r: Option<ResourceSet>)
      modifies `present, `answers, `errors
      ensures r.Some? ==> r.value == present
      ensures answers == if r.Some? then old(answers) + [present] else old(answers)
      ensures errors == old(errors) + if r.Some? then 0 else 1
    {
      present := *;
      if * {
        r, answers := Some(present), answers + [present];
      } else {
        r, errors := None, errors + 1;
      }
    }

    method RemoveOne(kind: Kind, id: string) returns (ok: bool)
      modifies `present, `calls, `errors
      ensures calls == old(calls) + [Remove(kind, id)]
      ensures ok ==> id !in Of(present, kind)
      ensures errors == old(errors) + if ok then 0 else 1
    {
      present := *;
      calls := calls + [Remove(kind, id)];
      ok := id !in Of(present, kind);
      if * {
        ok := false;
      }
      if !ok {
        errors := errors + 1;
      }
    }
  }

  method RemoveAll(docker: Docker, kind: Kind, ids: seq<string>) returns (ok: bool)
    modifies docker`present, docker`calls, docker`errors
    ensures docker.calls == old(docker.calls) + Calls(kind, ids)
    ensures docker.errors >= old(docker.errors) && (ok <==> docker.errors == old(docker.errors))
  {
    ok := true;
    for i := 0 to |ids|
      invariant docker.calls == old(docker.calls) + Calls(kind, ids[..i])
      invariant docker.errors >= old(docker.errors) && (ok <==> docker.errors == old(docker.errors))
    {
      var removed := docker.RemoveOne(kind, ids[i]);
      assert Calls(kind, ids[..i + 1]) == Calls(kind, ids[..i]) + [Remove(kind, ids[i])];
      if !removed {
        ok := false;
      }
    }
    assert ids[..|ids|] == ids;
  }

  /** What the store says about the baseline of an operation. */
  datatype Saved = Found(baseline: ResourceSet) | NotFound | Unreadable

  /** The baseline after a preparation is the one saved before, or the current
      inventory normalized. It fails exactly when the store cannot say whether
      there is one, or Docker gives no inventory, or the store does not take it. */
  method Prepare(docker: Docker, saved: Saved, stores: bool) returns (ok: bool, baseline: Option<ResourceSet>)
    modifies docker`present, docker`answers, docker`errors
    ensures ok <==> baseline.Some?
    ensures ok <==> saved.Found? || (saved.NotFound? && docker.errors == old(docker.errors) && stores)
    ensures saved.Found? ==> baseline == Some(saved.baseline)
    ensures saved.NotFound? && ok ==>
              && |docker.answers| == |old(docker.answers)| + 1
              && forall kind :: Normal(Of(baseline.value, kind), Of(docker.answers[|old(docker.answers)|], kind))
    ensures !saved.NotFound? ==> docker.answers == old(docker.answers)
  {
    if saved.Found? {
      return true, Some(saved.baseline);
    }
    if saved.Unreadable? {
      return false, None;
    }
    var resources := docker.Inventory();
    if resources.None? {
      return false, None;
    }
    var normal := Normalize(resources.value);
    if !stores {
      return false, None;
    }
    return true, Some(normal);
  }

  /** No resource beyond the baseline is left. */
  ghost predicate Clean(present: ResourceSet, baseline: ResourceSet) {
    forall kind, x :: x in Of(present, kind) && x != "" ==> x in Of(baseline, kind)
  }

  /** Removals in dependency order. */
  function Removals(owned: ResourceSet): seq<Call> {
    Calls(Service, owned.services) + Calls(Container, owned.containers) + Calls(Network, owned.networks) + Calls(Volume, owned.volumes)
  }

  /** A cleanup succeeds exactly when its grace period was not cut short, no call
      failed, and nothing beyond the baseline was left at its end; without a
      baseline it succeeds at once. Whatever it reports, it asked for the removal of nothing, or of exactly
      what its first inventory had beyond the baseline: services before
      containers before networks before volumes, each resource once. */
  method Cleanup(docker: Docker, isJob: bool, waited: bool, saved: Saved) returns (ok: bool, ghost owned: ResourceSet)
    modifies docker
    ensures !saved.Found? ==> (ok <==> saved.NotFound?) && docker.calls == old(docker.calls) && docker.answers == old(docker.answers)
    ensures saved.Found? ==>
              (ok <==> (isJob ==> waited) && docker.errors == old(docker.errors) && Clean(docker.present, saved.baseline))
    ensures saved.Found? && ok ==> |docker.answers| == |old(docker.answers)| + 2
    ensures saved.Found? && (ok || docker.calls != old(docker.calls)) ==>
              && docker.calls == old(docker.calls) + Removals(owned)
              && |old(docker.answers)| < |docker.answers|
              && forall kind :: Beyond(Of(owned, kind), Of(docker.answers[|old(docker.answers)|], kind), Of(saved.baseline, kind))
  {
    owned := ResourceSet([], [], [], []);
    if !saved.Found? {
      return saved.NotFound?, owned;
    }
    var baseline := saved.baseline;
    if isJob && !waited {
      return false, owned;
    }
    var current := docker.Inventory();
    if current.None? {
      return false, owned;
    }
    var found := Difference(current.value, baseline);
    owned := found;
    var services := RemoveAll(docker, Service, found.services);
    var containers := RemoveAll(docker, Container, found.containers);
    var networks := RemoveAll(docker, Network, found.networks);
    var volumes := RemoveAll(docker, Volume, found.volumes);
    assert docker.calls == old(docker.calls) + Removals(found);
    var remaining := docker.Inventory();
    if remaining.None? {
      return false, owned;
    }
    var left := Difference(remaining.value, baseline);
    NothingLeft(left, docker.present, baseline);
    ok := services && containers && networks && volumes && left == ResourceSet([], [], [], []);
  }

  lemma NothingLeft(left: ResourceSet, present: ResourceSet, baseline: ResourceSet)
    requires forall kind :: Beyond(Of(left, kind), Of(present, kind), Of(baseline, kind))
    ensures left == ResourceSet([], [], [], []) <==> Clean(present, baseline)
  {
    if left == ResourceSet([], [], [], []) {
      forall kind, x | x in Of(present, kind) && x != "" ensures x in Of(baseline, kind) {
        assert Beyond(Of(left, kind), Of(present, kind), Of(baseline, kind)) && Of(left, kind) == [];
      }
    }
    if left != ResourceSet([], [], [], []) {
      assert Of(left, Service) != [] || Of(left, Container) != [] || Of(left, Network) != [] || Of(left, Volume) != [];
      var kind :| Of(left, kind) != [];
      assert Beyond(Of(left, kind), Of(present, kind), Of(baseline, kind)) && Of(left, kind)[0] in Of(left, kind);
    }
  }

  /** So no call of a cleanup names a resource of the baseline. */
  lemma RemovalsAreBeyond(seen: ResourceSet, owned: ResourceSet, baseline: ResourceSet, c: Call)
    requires forall kind :: Beyond(Of(owned, kind), Of(seen, kind), Of(baseline, kind))
    ensures c in Removals(owned) <==> c.id in Of(seen, c.kind) && c.id !in Of(baseline, c.kind) && c.id != ""
  {
    InCalls(Service, owned.services, c);
    InCalls(Container, owned.containers, c);
    InCalls(Network, owned.networks, c);
    InCalls(Volume, owned.volumes, c);
    assert Beyond(Of(owned, c.kind), Of(seen, c.kind), Of(baseline, c.kind));
  }

  /** What depends on a resource goes before it. */
  function Rank(kind: Kind): nat {
    match kind
    case Service => 0
    case Container => 1
    case Network => 2
    case Volume => 3
  }

  /** The calls of a cleanup come in the order of dependencies, and none twice. */
  lemma RemovalsInOrder(owned: ResourceSet, i: nat, j: nat)
    requires i < j < |Removals(owned)| && forall kind :: Ascending(BY_NAME, Of(owned, kind))
    ensures Rank(Removals(owned)[i].kind) <= Rank(Removals(owned)[j].kind)
    ensures Removals(owned)[i] != Removals(owned)[j]
  {
    var calls := Removals(owned);
    var a, b, c := |owned.services|, |owned.services| + |owned.containers|, |owned.services| + |owned.containers| + |owned.networks|;
    assert forall n :: 0 <= n < |calls| ==>
      calls[n] == if n < a then Remove(Service, owned.services[n])
                  else if n < b then Remove(Container, owned.containers[n - a])
                  else if n < c then Remove(Network, owned.networks[n - b])
                  else Remove(Volume, owned.volumes[n - c]);
    if calls[i].kind == calls[j].kind {
      NamesAreOrdered();
      assert Ascending(BY_NAME, Of(owned, calls[i].kind));
    }
  }

  lemma InCalls(kind: Kind, ids: seq<string>, c: Call)
    ensures c in Calls(kind, ids) <==> c.kind == kind && c.id in ids
  {
    if c.kind == kind && c.id in ids {
      var i :| 0 <= i < |ids| && ids[i] == c.id;
      assert Calls(kind, ids)[i] == c;
    }
  }
}
