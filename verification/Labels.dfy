/** The label keys and values the scheduler treats specially. */
module Labels {

  const HOSTNAME := "kubernetes.io/hostname"
  const ZONE := "topology.kubernetes.io/zone"
  const REGION := "topology.kubernetes.io/region"
  const INSTANCE_TYPE := "node.kubernetes.io/instance-type"
  const ARCH := "kubernetes.io/arch"
  const OS := "kubernetes.io/os"
  const WINDOWS_BUILD := "node.kubernetes.io/windows-build"
  const NODE_POOL := "karpenter.sh/nodepool"
  const CAPACITY_TYPE := "karpenter.sh/capacity-type"

  const SPOT := "spot"
  const ON_DEMAND := "on-demand"

  const WELL_KNOWN: set<string> :=
    {NODE_POOL, ZONE, REGION, INSTANCE_TYPE, ARCH, OS, CAPACITY_TYPE, WINDOWS_BUILD}

  /** Deprecated spellings of a key, rewritten whenever a requirement is built. */
  function Normalize(key: string): string {
    if key == "failure-domain.beta.kubernetes.io/zone" then ZONE
    else if key == "beta.kubernetes.io/arch" then ARCH
    else if key == "beta.kubernetes.io/os" then OS
    else if key == "beta.kubernetes.io/instance-type" then INSTANCE_TYPE
    else if key == "failure-domain.beta.kubernetes.io/region" then REGION
    else key
  }

  predicate Canonical(key: string) { Normalize(key) == key }

  lemma NormalizeIsCanonical(key: string)
    ensures Canonical(Normalize(key))
  {
    assert ZONE[0] == 't' && REGION[0] == 't' && INSTANCE_TYPE[0] == 'n' && ARCH[0] == 'k' && OS[0] == 'k';
  }

  lemma CapacityTypeIsCanonical()
    ensures Canonical(CAPACITY_TYPE) && CAPACITY_TYPE in WELL_KNOWN
  {
    assert CAPACITY_TYPE[0] == 'k';
  }

  lemma HostnameIsCanonical()
    ensures Canonical(HOSTNAME)
  {
    assert HOSTNAME[0] == 'k';
  }
}
