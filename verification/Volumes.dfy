/** Volumes mounted on one node, by storage driver, against the driver's attach limit. */
module Volumes {
  import opened HostPorts

  /** Storage driver -> claims mounted through it. */
  type VolumeSet = map<string, set<string>>

  function Mounted(u: VolumeSet, driver: string): set<string> { if driver in u then u[driver] else {} }

  function Union(u: VolumeSet, v: VolumeSet): VolumeSet {
    map d | d in u.Keys + v.Keys :: Mounted(u, d) + Mounted(v, d)
  }

  predicate Subset(u: VolumeSet, v: VolumeSet) { forall d :: d in u ==> d in v && u[d] <= v[d] }

  predicate Exceeds(u: VolumeSet, limits: map<string, int>) {
    exists d :: d in u && d in limits && |u[d]| > limits[d]
  }

  /** Limits are kept iff no driver has more claims than it may attach; as many as it may attach is not too many. */
  lemma KeepsLimitsIff(u: VolumeSet, limits: map<string, int>)
    ensures !Exceeds(u, limits) <==> forall d :: d in u && d in limits ==> |Mounted(u, d)| <= limits[d]
  {}

  /** Everything a pod mounts is in the aggregate. */
  predicate Covers(volumes: VolumeSet, podVolumes: map<PodKey, VolumeSet>) {
    forall k :: k in podVolumes ==> Subset(podVolumes[k], volumes)
  }

  /** ... and everything in the aggregate is mounted by some pod. */
  predicate Minimal(volumes: VolumeSet, podVolumes: map<PodKey, VolumeSet>) {
    forall d, c :: d in volumes && c in volumes[d] ==> exists k :: k in podVolumes && c in Mounted(podVolumes[k], d)
  }

  /** `u` joined with `v` one driver at a time, in any order. */
  method InsertAll(u: VolumeSet, v: VolumeSet) returns (result: VolumeSet)
    ensures result == Union(u, v)
  {
    hide Union;
    result := u;
    var todo := v.Keys;
    UnionNothing(u, v);
    while todo != {}
      invariant todo <= v.Keys
      invariant result == Union(u, v - todo)
      decreases todo
    {
      var d :| d in todo;
      UnionOneMore(u, v, todo, d);
      result := result[d := Mounted(result, d) + v[d]];
      todo := todo - {d};
    }
    assert v - todo == v;
  }

  lemma UnionNothing(u: VolumeSet, v: VolumeSet)
    ensures u == Union(u, v - v.Keys)
  {
    forall d | d in u ensures u[d] == Mounted(u, d) + Mounted(v - v.Keys, d) {}
  }

  lemma UnionOneMore(u: VolumeSet, v: VolumeSet, todo: set<string>, d: string)
    requires d in todo && todo <= v.Keys
    ensures var r := Union(u, v - todo); Union(u, v - (todo - {d})) == r[d := Mounted(r, d) + v[d]]
  {
    hide Mounted;
    var r, r' := Union(u, v - todo), Union(u, v - (todo - {d}));
    assert r'.Keys == r.Keys + {d};
    forall e | e in r' ensures r'[e] == if e == d then Mounted(r, d) + v[d] else r[e] {
      MountedWithout(v, todo, e);
      MountedWithout(v, todo - {d}, e);
      MountedUnion(u, v - todo, d);
    }
  }

  lemma MountedWithout(v: VolumeSet, drivers: set<string>, e: string)
    ensures Mounted(v - drivers, e) == if e in drivers then {} else Mounted(v, e)
    ensures e in v ==> Mounted(v, e) == v[e]
  {}

  lemma MountedUnion(u: VolumeSet, v: VolumeSet, d: string)
    ensures Mounted(Union(u, v), d) == Mounted(u, d) + Mounted(v, d)
  {}

  class VolumeUsage {
    var volumes: VolumeSet
    var podVolumes: map<PodKey, VolumeSet>
    var limits: map<string, int>

    predicate Valid() reads this { Covers(volumes, podVolumes) }

    constructor ()
      ensures Valid() && volumes == map[] && podVolumes == map[] && limits == map[]
    {
      volumes, podVolumes, limits := map[], map[], map[];
    }

    /** A copy of another node's usage. */
    constructor Of(volumes: VolumeSet, podVolumes: map<PodKey, VolumeSet>, limits: map<string, int>)
      ensures this.volumes == volumes && this.podVolumes == podVolumes && this.limits == limits
    {
      this.volumes, this.podVolumes, this.limits := volumes, podVolumes, limits;
    }

    method ExceedsLimits(vols: VolumeSet) returns (exceeds: bool)
      ensures exceeds == Exceeds(Union(volumes, vols), limits)
    {
      hide Union;
      var total := InsertAll(volumes, vols);
      var todo := total.Keys;
      while todo != {}
        invariant todo <= total.Keys
        invariant forall d :: d in total && d !in todo && d in limits ==> |total[d]| <= limits[d]
        decreases todo
      {
        var d :| d in todo;
        todo := todo - {d};
        if d in limits && |total[d]| > limits[d] {
          return true;
        }
      }
      exceeds := false;
    }

    /** A pod added again replaces its own entry, but the aggregate keeps what it mounted before. */
    method Add(pod: PodKey, vols: VolumeSet)
      modifies this
      ensures limits == old(limits) && (old(Valid()) ==> Valid())
      ensures volumes == Union(old(volumes), vols) && podVolumes == old(podVolumes)[pod := vols]
    {
      podVolumes := podVolumes[pod := vols];
      volumes := Union(volumes, vols);
    }

    /** Volumes may be shared between pods, so removing a pod rebuilds the aggregate from those that remain. */
    method DeletePod(pod: PodKey)
      modifies this
      ensures Valid() && limits == old(limits) && podVolumes == old(podVolumes) - {pod}
      ensures Minimal(volumes, podVolumes)
    {
      podVolumes := podVolumes - {pod};
      volumes := map[];
      var todo := podVolumes.Keys;
      while todo != {}
        invariant podVolumes == old(podVolumes) - {pod} && limits == old(limits) && todo <= podVolumes.Keys
        invariant forall k :: k in podVolumes && k !in todo ==> Subset(podVolumes[k], volumes)
        invariant Minimal(volumes, podVolumes)
        decreases todo
      {
        var k :| k in todo;
        todo := todo - {k};
        var joined := InsertAll(volumes, podVolumes[k]);
        forall d, c | d in joined && c in joined[d]
          ensures exists p :: p in podVolumes && c in Mounted(podVolumes[p], d)
        {
          assert c in Mounted(volumes, d) || c in Mounted(podVolumes[k], d);
        }
        volumes := joined;
      }
    }
  }
}
