/** The records of pkg/model the orchestration core reads and writes. Only the fields the core
    touches are kept. */
module Model {
  import opened Outcomes

  /** The DigitalOcean part of a Kube: where it runs and which droplet is its master
      (0 when there is none). */
  datatype DOConfig = DOConfig(region: string, sshKeyFingerprint: string, masterID: int)

  datatype Node = Node(
    id: int,
    kubeID: int,
    name: string,
    size: string,
    providerID: string,
    externalIP: string,
    outOfDisk: bool,
    cpuUsage: int,
    ramUsage: int,
    cpuLimit: int,
    ramLimit: int)

  /** A node record as the minion step creates it: only the kube and the size are set. */
  function NewNode(kubeID: int, size: string): Node
  {
    Node(0, kubeID, "", size, "", "", false, 0, 0, 0, 0)
  }

  datatype Kube = Kube(
    id: int,
    uuid: string,
    name: string,
    username: string,
    password: string,
    ready: bool,
    provider: string,
    masterNodeSize: string,
    nodeSizes: seq<string>,
    doConfig: DOConfig,
    masterPublicIP: string,
    entrypoints: seq<int>,
    nodes: seq<Node>,
    volumes: seq<int>)

  // ---------------------------------------------------------------------------
  // Entrypoint (pkg/model/entrypoint.go)
  // ---------------------------------------------------------------------------

  /** A character the pattern [\w-] accepts: an ASCII letter, digit, underscore or hyphen. */
  predicate NameChar(c: char)
  {
    'a' <= c <= 'z' || 'A' <= c <= 'Z' || '0' <= c <= '9' || c == '_' || c == '-'
  }

  /** The validation rule on Entrypoint.Name: non-empty, at most 21 characters, and matching
      ^[\w-]+$. */
  predicate ValidName(name: string)
  {
    0 < |name| <= 21 && forall i :: 0 <= i < |name| ==> NameChar(name[i])
  }

  const ProviderPrefix: string := "sg-"

  /** The provider id BeforeCreate derives from a name. */
  function ProviderIDFor(name: string): (id: string)
    ensures |id| == |name| + 3
    ensures ValidName(name) ==> |id| <= 24
    ensures ValidName(name) ==> forall i :: 0 <= i < |id| ==> NameChar(id[i])
  {
    ProviderPrefix + name
  }

  /** Strip the "sg-" prefix; None when the id does not carry it. */
  function NameOfProviderID(id: string): (name: Option<string>)
    ensures name.Some? <==> |id| >= 3 && id[..3] == ProviderPrefix
    ensures name.Some? ==> ProviderPrefix + name.value == id
  {
    if |id| >= 3 && id[..3] == ProviderPrefix then Some(id[3..]) else None
  }

  /** Stripping the prefix from a derived provider id gives back the name. */
  lemma ProviderIDRoundTrip(name: string)
    ensures NameOfProviderID(ProviderIDFor(name)) == Some(name)
  {
    var id := ProviderIDFor(name);
    assert id[..3] == ProviderPrefix;
    assert id[3..] == name;
  }

  /** Different names give different provider ids. */
  lemma ProviderIDInjective(a: string, b: string)
    ensures ProviderIDFor(a) == ProviderIDFor(b) ==> a == b
  {
    if ProviderIDFor(a) == ProviderIDFor(b) {
      ProviderIDRoundTrip(a);
      ProviderIDRoundTrip(b);
    }
  }

  class Entrypoint {
    var kubeID: int
    var name: string
    var providerID: string
    var address: string

    constructor (kubeID: int, name: string)
      ensures this.kubeID == kubeID && this.name == name && providerID == "" && address == ""
    {
      this.kubeID := kubeID;
      this.name := name;
      providerID := "";
      address := "";
    }

    /** BeforeCreate: the provider id becomes "sg-" followed by the name; nothing else
        changes and nil is returned. Since the id depends only on the name, which it leaves
        alone, a second call changes nothing. */
    method BeforeCreate() returns (err: Outcome)
      modifies this`providerID
      ensures err == Ok
      ensures providerID == ProviderIDFor(name)
      ensures NameOfProviderID(providerID) == Some(name)
    {
      providerID := ProviderPrefix + name;
      ProviderIDRoundTrip(name);
      err := Ok;
    }
  }

  /** Two calls of BeforeCreate leave the same provider id as one. */
  method BeforeCreateTwice(e: Entrypoint) returns (first: string, second: string)
    modifies e
    ensures first == second == ProviderIDFor(e.name)
    ensures e.name == old(e.name) && e.kubeID == old(e.kubeID) && e.address == old(e.address)
  {
    var _ := e.BeforeCreate();
    first := e.providerID;
    var _ := e.BeforeCreate();
    second := e.providerID;
  }
}
