/** Host ports claimed on one node: two pods on a node may not claim overlapping ports. */
module HostPorts {

  /** A pod's namespace and name. */
  datatype PodKey = PodKey(namespace: string, name: string)

  /** A host address; every spelling of the unspecified address is the same value. */
  datatype IP = Unspecified | Address(text: string)

  datatype HostPort = HostPort(ip: IP, port: int, protocol: string)
  {
    predicate Matches(other: HostPort) {
      protocol == other.protocol && port == other.port &&
      (ip == other.ip || ip.Unspecified? || other.ip.Unspecified?)
    }
  }

  /** The addresses that a port is claimed on. */
  predicate Claims(p: HostPort, address: string) { p.ip.Unspecified? || p.ip.text == address }

  /** Two ports overlap iff there is an address on which both are claimed for the same protocol. */
  lemma MatchesIff(a: HostPort, b: HostPort)
    ensures a.Matches(b) <==>
            a.protocol == b.protocol && a.port == b.port && exists s :: Claims(a, s) && Claims(b, s)
    ensures a.Matches(b) == b.Matches(a)
  {
    if a.ip.Unspecified? && b.ip.Unspecified? {
      assert Claims(a, "") && Claims(b, "");
    } else {
      var s := if a.ip.Address? then a.ip.text else b.ip.text;
      assert a.Matches(b) ==> Claims(a, s) && Claims(b, s);
    }
  }

  type Reservations = map<PodKey, seq<HostPort>>

  /** Whether a port of `ports` overlaps a port reserved by a pod other than `pod`. */
  predicate Conflicts(reserved: Reservations, pod: PodKey, ports: seq<HostPort>) {
    exists k, i, j ::
      k in reserved && k != pod && 0 <= i < |ports| && 0 <= j < |reserved[k]| && ports[i].Matches(reserved[k][j])
  }

  /** No two pods hold overlapping ports. */
  predicate PairwiseFree(reserved: Reservations) {
    forall k, l, i, j ::
      k in reserved && l in reserved && k != l && 0 <= i < |reserved[k]| && 0 <= j < |reserved[l]| ==>
        !reserved[k][i].Matches(reserved[l][j])
  }

  lemma ReserveKeepsFree(reserved: Reservations, pod: PodKey, ports: seq<HostPort>)
    requires PairwiseFree(reserved) && !Conflicts(reserved, pod, ports)
    ensures PairwiseFree(reserved[pod := ports])
  {
    var r: Reservations := reserved[pod := ports];
    forall k, l, i, j |
      k in r && l in r && k != l && 0 <= i < |r[k]| && 0 <= j < |r[l]|
      ensures !r[k][i].Matches(r[l][j])
    {
      if k == pod {
        assert !ports[i].Matches(reserved[l][j]);
      } else if l == pod {
        assert !ports[j].Matches(reserved[k][i]);
      }
    }
  }

  class HostPortUsage {
    var reserved: Reservations

    constructor ()
      ensures reserved == map[]
    {
      reserved := map[];
    }

    /** A copy of another node's reservations. */
    constructor Of(reserved: Reservations)
      ensures this.reserved == reserved
    {
      this.reserved := reserved;
    }

    method Add(pod: PodKey, ports: seq<HostPort>)
      modifies this
      ensures reserved == old(reserved)[pod := ports]
      ensures old(PairwiseFree(reserved)) && !old(Conflicts(reserved, pod, ports)) ==> PairwiseFree(reserved)
    {
      ghost var before := reserved;
      reserved := reserved[pod := ports];
      if PairwiseFree(before) && !Conflicts(before, pod, ports) {
        ReserveKeepsFree(before, pod, ports);
      }
    }

    /** The three nested loops of the conflict test, walking the reserved map in any order. */
    method FindConflict(pod: PodKey, ports: seq<HostPort>) returns (found: bool)
      ensures found == Conflicts(reserved, pod, ports)
    {
      for i := 0 to |ports|
        invariant forall a, k, j ::
          0 <= a < i && k in reserved && k != pod && 0 <= j < |reserved[k]| ==> !ports[a].Matches(reserved[k][j])
      {
        var todo := reserved.Keys;
        while todo != {}
          invariant todo <= reserved.Keys
          invariant forall k, j ::
            k in reserved && k !in todo && k != pod && 0 <= j < |reserved[k]| ==> !ports[i].Matches(reserved[k][j])
          decreases todo
        {
          var k :| k in todo;
          todo := todo - {k};
          for j := 0 to |reserved[k]|
            invariant k != pod ==> forall b :: 0 <= b < j ==> !ports[i].Matches(reserved[k][b])
          {
            if ports[i].Matches(reserved[k][j]) && k != pod {
              return true;
            }
          }
        }
      }
      found := false;
    }

    method DeletePod(pod: PodKey)
      modifies this
      ensures reserved == old(reserved) - {pod}
      ensures old(PairwiseFree(reserved)) ==> PairwiseFree(reserved)
    {
      reserved := reserved - {pod};
    }
  }
}
