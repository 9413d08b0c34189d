/** Root volumes and scan order of the instances (vulnerability/fetcher.go). */
module InstanceFetcher {
  import opened Sequences

  datatype Volume = Volume(id: string, instanceId: string, device: string, size: int)

  /** A described instance, with its root volume if it is known. */
  datatype Instance = Instance(id: string, rootDeviceName: string, root: Option<Volume>)

  /** The instance as the fetcher handles it; its root volume is set in place. */
  class Ec2Instance {
    const instanceId: string
    const rootDeviceName: string
    var rootVolume: Option<Volume>

    constructor (instanceId: string, rootDeviceName: string)
      ensures this.instanceId == instanceId && this.rootDeviceName == rootDeviceName && rootVolume == None
    {
      this.instanceId := instanceId;
      this.rootDeviceName := rootDeviceName;
      rootVolume := None;
    }

    function Value(): (ins: Instance)
      reads this
    {
      Instance(instanceId, rootDeviceName, rootVolume)
    }
  }

  /** The first volume in the list that is attached to the instance as its root device. */
  function RootOf(instanceId: string, device: string, volumes: seq<Volume>): (r: Option<Volume>) {
    if volumes == [] then None
    else if volumes[0].instanceId == instanceId && volumes[0].device == device then Some(volumes[0])
    else RootOf(instanceId, device, volumes[1..])
  }

  /** The volumes of one instance, in list order. */
  function VolumesOf(instanceId: string, volumes: seq<Volume>): (r: seq<Volume>) {
    if volumes == [] then []
    else (if volumes[0].instanceId == instanceId then [volumes[0]] else []) + VolumesOf(instanceId, volumes[1..])
  }

  lemma {:induction false} VolumesOfSnoc(instanceId: string, volumes: seq<Volume>, v: Volume)
    ensures VolumesOf(instanceId, volumes + [v]) ==
            VolumesOf(instanceId, volumes) + (if v.instanceId == instanceId then [v] else [])
  {
    if volumes != [] {
      VolumesOfSnoc(instanceId, volumes[1..], v);
      assert (volumes + [v])[1..] == volumes[1..] + [v];
    }
  }

  /** Searching an instance's own volumes by device finds what searching all volumes finds. */
  lemma {:induction false} RootOfVolumesOf(instanceId: string, device: string, volumes: seq<Volume>)
    ensures RootOf(instanceId, device, VolumesOf(instanceId, volumes)) == RootOf(instanceId, device, volumes)
  {
    if volumes != [] {
      RootOfVolumesOf(instanceId, device, volumes[1..]);
      if volumes[0].instanceId == instanceId {
        assert VolumesOf(instanceId, volumes)[1..] == VolumesOf(instanceId, volumes[1..]);
      } else {
        assert VolumesOf(instanceId, volumes) == VolumesOf(instanceId, volumes[1..]);
      }
    }
  }

  lemma {:induction false} VolumesOfOwner(instanceId: string, volumes: seq<Volume>)
    ensures forall v :: v in VolumesOf(instanceId, volumes) ==> v.instanceId == instanceId
  {
    if volumes != [] {
      VolumesOfOwner(instanceId, volumes[1..]);
    }
  }

  /** An instance gets its first matching volume and keeps what it had if there is none. */
  function Attached(ins: Instance, volumes: seq<Volume>): (r: Instance) {
    var found := RootOf(ins.id, ins.rootDeviceName, volumes);
    if found.Some? then ins.(root := found) else ins
  }

  predicate IsRootOf(v: Volume, ins: Instance) { v.instanceId == ins.id && v.device == ins.rootDeviceName }

  /** Volume number `k` is the first in the list that is the instance's root device. */
  predicate FirstRootAt(volumes: seq<Volume>, ins: Instance, k: nat) {
    k < |volumes| && IsRootOf(volumes[k], ins) && forall j :: 0 <= j < k ==> !IsRootOf(volumes[j], ins)
  }

  predicate NoRoot(volumes: seq<Volume>, ins: Instance) {
    forall k :: 0 <= k < |volumes| ==> !IsRootOf(volumes[k], ins)
  }

  /** `ins` is `before` with the root volume it is to have: the first volume in the list that is its root
      device, and what it had if there is none. */
  ghost predicate RootedAs(ins: Instance, before: Instance, volumes: seq<Volume>) {
    && ins.id == before.id && ins.rootDeviceName == before.rootDeviceName
    && (forall k: nat :: FirstRootAt(volumes, before, k) ==> ins.root == Some(volumes[k]))
    && (NoRoot(volumes, before) ==> ins.root == before.root)
  }

  lemma {:induction false} RootOfMeans(ins: Instance, volumes: seq<Volume>)
    ensures var found := RootOf(ins.id, ins.rootDeviceName, volumes);
            && (forall k: nat :: FirstRootAt(volumes, ins, k) ==> found == Some(volumes[k]))
            && (NoRoot(volumes, ins) <==> found.None?)
  {
    if volumes != [] {
      var rest := volumes[1..];
      RootOfMeans(ins, rest);
      assert forall k :: 0 < k < |volumes| ==> volumes[k] == rest[k - 1];
      assert forall k :: 0 <= k < |rest| ==> rest[k] == volumes[k + 1];
      forall k: nat | FirstRootAt(volumes, ins, k)
        ensures RootOf(ins.id, ins.rootDeviceName, volumes) == Some(volumes[k])
      {
        if k > 0 {
          assert FirstRootAt(rest, ins, k - 1);
        }
      }
    }
  }

  lemma AttachedMeans(ins: Instance, volumes: seq<Volume>)
    ensures RootedAs(Attached(ins, volumes), ins, volumes)
  {
    hide RootOf, FirstRootAt, NoRoot;
    RootOfMeans(ins, volumes);
  }

  function AttachedAll(instances: seq<Instance>, volumes: seq<Volume>): (r: seq<Instance>) {
    seq(|instances|, i requires 0 <= i < |instances| => Attached(instances[i], volumes))
  }

  /** The map after one more volume of its instance. */
  function Grouped(mapping: map<string, seq<Volume>>, vol: Volume): (r: map<string, seq<Volume>>) {
    mapping[vol.instanceId := ListAt(mapping, vol.instanceId) + [vol]]
  }

  lemma GroupOne(mapping: map<string, seq<Volume>>, volumes: seq<Volume>, vol: Volume, key: string)
    requires ListAt(mapping, key) == VolumesOf(key, volumes)
    ensures ListAt(Grouped(mapping, vol), key) == VolumesOf(key, volumes + [vol])
  {
    VolumesOfSnoc(key, volumes, vol);
  }

  method GroupByInstance(volumes: seq<Volume>) returns (mapping: map<string, seq<Volume>>)
    ensures forall key: string :: ListAt(mapping, key) == VolumesOf(key, volumes)
  {
    mapping := map[];
    var i := 0;
    while i < |volumes|
      invariant 0 <= i <= |volumes|
      invariant forall key: string :: ListAt(mapping, key) == VolumesOf(key, volumes[..i])
    {
      var vol := volumes[i];
      assert volumes[..i + 1] == volumes[..i] + [vol];
      forall key: string {
        GroupOne(mapping, volumes[..i], vol, key);
      }
      mapping := Grouped(mapping, vol);
      i := i + 1;
    }
    assert volumes[..i] == volumes;
  }

  /** Every instance gets its first matching volume as root volume and keeps what it had if there is
      none; if the volumes could not be listed, nothing changes. */
  method AttachRootVolumes(instances: seq<Ec2Instance>, described: Option<seq<Volume>>) returns (ok: bool)
    modifies instances
    ensures ok == described.Some?
    ensures !ok ==> forall ins :: ins in instances ==> ins.rootVolume == old(ins.rootVolume)
    ensures ok ==> forall ins :: ins in instances ==> RootedAs(ins.Value(), old(ins.Value()), described.value)
  {
    hide RootOf, VolumesOf, ListAt, RootedAs;
    if described.None? {
      return false;
    }
    var mapping := GroupByInstance(described.value);
    var i := 0;
    while i < |instances|
      invariant 0 <= i <= |instances|
      invariant forall ins :: ins in instances[..i] ==> ins.Value() == Attached(old(ins.Value()), described.value)
      invariant forall ins :: ins in instances && ins !in instances[..i] ==> ins.rootVolume == old(ins.rootVolume)
    {
      var ins := instances[i];
      assert instances[..i + 1] == instances[..i] + [ins];
      RootOfVolumesOf(ins.instanceId, ins.rootDeviceName, described.value);
      VolumesOfOwner(ins.instanceId, described.value);
      AttachOne(ins, ListAt(mapping, ins.instanceId));
      i := i + 1;
    }
    assert instances[..i] == instances;
    forall ins | ins in instances ensures RootedAs(ins.Value(), old(ins.Value()), described.value) {
      AttachedMeans(old(ins.Value()), described.value);
    }
    ok := true;
  }

  /** The inner loop: the first of the instance's volumes on its root device. */
  method AttachOne(ins: Ec2Instance, own: seq<Volume>)
    requires forall v :: v in own ==> v.instanceId == ins.instanceId
    modifies ins
    ensures ins.Value() == Attached(old(ins.Value()), own)
  {
    var j := 0;
    while j < |own|
      invariant 0 <= j <= |own|
      invariant ins.rootVolume == old(ins.rootVolume)
      invariant RootOf(ins.instanceId, ins.rootDeviceName, own[j..]) == RootOf(ins.instanceId, ins.rootDeviceName, own)
    {
      if own[j].device == ins.rootDeviceName {
        ins.rootVolume := Some(own[j]);
        break;
      }
      j := j + 1;
    }
  }

  // --- the order given to sort.Slice ---

  predicate Before(x: Option<Volume>, y: Option<Volume>) {
    if x.None? then false
    else if y.None? then true
    else x.value.size < y.value.size
  }

  /** What sorting by `Before` achieves: no later element belongs before an earlier one. */
  predicate SortedByBefore(roots: seq<Option<Volume>>) {
    forall i, j :: 0 <= i < j < |roots| ==> !Before(roots[j], roots[i])
  }

  /** The first `k` have a root volume, in non-decreasing size, and the others have none. */
  predicate SmallestFirst(roots: seq<Option<Volume>>, k: nat) {
    && k <= |roots|
    && (forall i :: 0 <= i < |roots| ==> (roots[i].Some? <==> i < k))
    && (forall i, j :: 0 <= i < j < k ==> roots[i].value.size <= roots[j].value.size)
  }

  /** The comparison is a strict weak order, as sort.Slice requires: irreflexive, transitive, and
      incomparability is transitive. */
  lemma BeforeIsStrictWeakOrder(x: Option<Volume>, y: Option<Volume>, z: Option<Volume>)
    ensures !Before(x, x)
    ensures Before(x, y) && Before(y, z) ==> Before(x, z)
    ensures !Before(x, y) && !Before(y, x) && !Before(y, z) && !Before(z, y) ==> !Before(x, z) && !Before(z, x)
  {
  }

  function CountSome(roots: seq<Option<Volume>>): (n: nat)
    ensures n <= |roots|
  {
    if roots == [] then 0 else (if roots[0].Some? then 1 else 0) + CountSome(roots[1..])
  }

  /** Sorted by `Before` means: instances with a root volume first, smallest first, the rest last. */
  lemma {:induction false} SortedMeans(roots: seq<Option<Volume>>)
    ensures SortedByBefore(roots) <==> SmallestFirst(roots, CountSome(roots))
  {
    if roots != [] {
      var rest := roots[1..];
      SortedMeans(rest);
      if SortedByBefore(roots) {
        assert SortedByBefore(rest);
        assert forall i :: 0 <= i < |rest| ==> rest[i] == roots[i + 1];
        if roots[0].None? {
          assert forall i :: 0 < i < |roots| ==> !Before(roots[i], roots[0]);
        }
      }
      if SmallestFirst(roots, CountSome(roots)) {
        forall i, j | 0 <= i < j < |roots| ensures !Before(roots[j], roots[i]) {
        }
      }
    }
  }

  function Roots(instances: seq<Instance>): (r: seq<Option<Volume>>) {
    seq(|instances|, i requires 0 <= i < |instances| => instances[i].root)
  }

  /** What sort.Slice promises; it need not be stable. */
  ghost predicate SortedPermutation(before: seq<Instance>, after: seq<Instance>) {
    multiset(after) == multiset(before) && SortedByBefore(Roots(after))
  }

  lemma SortedCons(x: Instance, rest: seq<Instance>)
    requires SortedByBefore(Roots(rest)) && forall y :: y in rest ==> !Before(y.root, x.root)
    ensures SortedByBefore(Roots([x] + rest))
  {
    assert Roots([x] + rest) == [x.root] + Roots(rest);
    forall j | 0 <= j < |rest| ensures !Before(Roots(rest)[j], x.root) {
      assert rest[j] in rest;
    }
  }

  lemma SortedTail(xs: seq<Instance>)
    requires xs != [] && SortedByBefore(Roots(xs))
    ensures SortedByBefore(Roots(xs[1..]))
    ensures forall y :: y in xs ==> !Before(y.root, xs[0].root)
  {
    assert forall i :: 0 <= i < |xs| - 1 ==> Roots(xs[1..])[i] == Roots(xs)[i + 1];
    forall y | y in xs ensures !Before(y.root, xs[0].root) {
      var i :| 0 <= i < |xs| && xs[i] == y;
      assert Roots(xs)[i] == y.root && Roots(xs)[0] == xs[0].root;
    }
  }

  lemma {:induction false} Inserted(x: Instance, xs: seq<Instance>) returns (r: seq<Instance>)
    requires SortedByBefore(Roots(xs))
    ensures SortedPermutation([x] + xs, r)
  {
    if xs == [] || !Before(xs[0].root, x.root) {
      r := [x] + xs;
      if xs != [] {
        SortedTail(xs);
      }
      forall y | y in xs ensures !Before(y.root, x.root) {
        BeforeIsStrictWeakOrder(y.root, xs[0].root, x.root);
      }
      SortedCons(x, xs);
    } else {
      var head, rest := xs[0], xs[1..];
      assert xs == [head] + rest;
      SortedTail(xs);
      var tail := Inserted(x, rest);
      r := [head] + tail;
      forall y | y in tail ensures !Before(y.root, head.root) {
        assert y in multiset(tail) && y in multiset([x] + rest);
        BeforeIsStrictWeakOrder(head.root, x.root, head.root);
      }
      SortedCons(head, tail);
    }
  }

  /** The comparison allows every list of instances to be sorted. */
  lemma {:induction false} CanBeSorted(xs: seq<Instance>) returns (r: seq<Instance>)
    ensures SortedPermutation(xs, r)
  {
    if xs == [] {
      r := [];
    } else {
      r := CanBeSorted(xs[1..]);
      r := Inserted(xs[0], r);
      assert xs == [xs[0]] + xs[1..];
    }
  }
}
