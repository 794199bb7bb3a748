/** Admission of a package runtime as a serving engine.  Six reads are made one after another while
    the outside world moves on; the world is a function from time, and each read sees it at a time of
    its own. */
module Admission {
  import opened Options
  import opened ConnectionRef
  import opened RuntimeOperations

  datatype Authority = Authority(authority: string, protocol: string, generation: int, capabilities: seq<string>)

  datatype Status = Status(binding: string, installation: string, state: string, generation: int, connectionRef: string)

  datatype Installation = Installation(
    recordVersion: int, id: string, package: string, version: string, state: string, capabilities: seq<string>,
    manifestDigest: string, artifactDigest: string, archiveDigest: string)

  datatype Metadata = Metadata(package: string, version: string, capability: string, interface: string, transport: string)

  /** What the reads would return at one moment; a missing entry is a failing read. */
  datatype World = World(
    authority: Option<Authority>,
    sdkGeneration: int,
    statuses: map<string, Status>,
    installations: map<string, Installation>,
    metadata: map<string, Metadata>)

  const AUTHORITY := "platform_package_runtime"
  const CONTROL_PROTOCOL := "cy-package-runtime.control.v1"
  const CAPABILITY_ID := "execution.engine.v1"
  const INTERFACE_VERSION := "1"
  const HTTP_TRANSPORT := "http"

  predicate Lower(c: char) {
    'a' <= c <= 'z'
  }

  predicate Upper(c: char) {
    'A' <= c <= 'Z'
  }

  predicate Digit(c: char) {
    '0' <= c <= '9'
  }

  predicate BindingId(id: string) {
    && 2 <= |id| <= 128
    && (Lower(id[0]) || Upper(id[0]) || Digit(id[0]))
    && forall i | 1 <= i < |id| :: Lower(id[i]) || Digit(id[i]) || id[i] in "_.-"
  }

  predicate PackageVersion(v: string) {
    1 <= |v| <= 128 && forall i | 0 <= i < |v| :: Lower(v[i]) || Upper(v[i]) || Digit(v[i]) || v[i] in ".+-"
  }

  predicate Sha256(d: string) {
    && |d| == 71 && d[..7] == "sha256:"
    && forall i | 7 <= i < |d| :: Digit(d[i]) || 'a' <= d[i] <= 'f'
  }

  predicate RequiredString(v: string) {
    0 < |v| <= 2048 && forall i | 0 <= i < |v| :: v[i] as int >= 0x20 && v[i] as int != 0x7F
  }

  function AuthorityGeneration(w: World): Option<int> {
    match w.authority
    case None => None
    case Some(a) =>
      if a.authority == AUTHORITY && a.protocol == CONTROL_PROTOCOL && a.generation > 0
         && w.sdkGeneration == a.generation && a.capabilities != [] then Some(a.generation) else None
  }

  predicate RunningStatus(s: Status, binding: string) {
    && RequiredString(s.installation) && s.binding == binding && s.state == "RUNNING"
    && BindingId(s.installation) && s.generation > 0 && RequiredString(s.connectionRef)
  }

  function ReadStatus(w: World, binding: string): Option<Status> {
    if binding in w.statuses && RunningStatus(w.statuses[binding], binding) then Some(w.statuses[binding]) else None
  }

  predicate VerifiedInstallation(i: Installation, id: string) {
    && RequiredString(i.version) && i.recordVersion == 1 && i.id == id && i.package == PACKAGE_ID
    && PackageVersion(i.version) && i.state == "INSTALLED" && CAPABILITY_ID in i.capabilities
    && Sha256(i.manifestDigest) && Sha256(i.artifactDigest) && Sha256(i.archiveDigest)
  }

  function ReadInstallation(w: World, id: string): Option<Installation> {
    if id in w.installations && VerifiedInstallation(w.installations[id], id) then Some(w.installations[id]) else None
  }

  function ExpectedMetadata(version: string): Metadata {
    Metadata(PACKAGE_ID, version, CAPABILITY_ID, INTERFACE_VERSION, HTTP_TRANSPORT)
  }

  predicate MetadataMatches(w: World, url: string, version: string) {
    url in w.metadata && w.metadata[url] == ExpectedMetadata(version)
  }

  /** The worlds the six reads see, in the order the reads are made. */
  datatype Reads = Reads(authority: World, status: World, installation: World, metadata: World, again: World, last: World)

  /** `package_runtime_engine`: the control URL of the admitted engine, if it is admitted. */
  function Admit(binding: string, credentialUsable: bool, r: Reads): Option<string> {
    if !BindingId(binding) then None
    else
      match (AuthorityGeneration(r.authority), ReadStatus(r.status, binding))
      case (Some(generation), Some(status)) => (
        match (ReadInstallation(r.installation, status.installation), ControlUrl(status.connectionRef))
        case (Some(installation), Some(url)) =>
          if !credentialUsable || !MetadataMatches(r.metadata, url, installation.version) then None
          else (
            match ReadStatus(r.again, binding)
            case None => None
            case Some(latest) =>
              if latest.installation != status.installation || latest.generation != status.generation
                 || latest.connectionRef != status.connectionRef then None
              else if AuthorityGeneration(r.last) != Some(generation) then None
              else Some(url))
        case _ => None)
      case _ => None
  }

  /** One moment at which everything admission asks for is true together, and the URL it then means. */
  predicate Consistent(w: World, binding: string, url: string) {
    && BindingId(binding)
    && AuthorityGeneration(w).Some?
    && ReadStatus(w, binding).Some?
    && var status := ReadStatus(w, binding).value;
    && ReadInstallation(w, status.installation).Some?
    && ControlUrl(status.connectionRef) == Some(url)
    && MetadataMatches(w, url, ReadInstallation(w, status.installation).value.version)
  }

  // ----- the world over time

  datatype Times = Times(authority: nat, status: nat, installation: nat, metadata: nat, again: nat, last: nat)

  predicate Ordered(t: Times) {
    t.authority <= t.status <= t.installation <= t.metadata <= t.again <= t.last
  }

  function ReadsAt(world: nat -> World, t: Times): Reads {
    Reads(world(t.authority), world(t.status), world(t.installation), world(t.metadata), world(t.again), world(t.last))
  }

  function CatalogGeneration(w: World): Option<int> {
    if w.authority.Some? then Some(w.authority.value.generation) else None
  }

  function RuntimeGeneration(w: World, binding: string): Option<int> {
    if binding in w.statuses then Some(w.statuses[binding].generation) else None
  }

  /** A generation that has been left never comes back. */
  ghost predicate NeverRepeats(world: nat -> World, binding: string) {
    && (forall i: nat, k: nat, j: nat | i <= k <= j && CatalogGeneration(world(i)) == CatalogGeneration(world(j)) ::
          CatalogGeneration(world(k)) == CatalogGeneration(world(i)))
    && (forall i: nat, k: nat, j: nat | i <= k <= j && RuntimeGeneration(world(i), binding) == RuntimeGeneration(world(j), binding) ::
          RuntimeGeneration(world(k), binding) == RuntimeGeneration(world(i), binding))
  }

  /** Within one generation the documents it covers stay the same. */
  ghost predicate GenerationsCover(world: nat -> World, binding: string) {
    && (forall i: nat, j: nat | CatalogGeneration(world(i)) == CatalogGeneration(world(j)) ::
          world(i).authority == world(j).authority && world(i).sdkGeneration == world(j).sdkGeneration
          && world(i).installations == world(j).installations)
    && (forall i: nat, j: nat | RuntimeGeneration(world(i), binding) == RuntimeGeneration(world(j), binding) ::
          (binding in world(i).statuses <==> binding in world(j).statuses)
          && (binding in world(i).statuses && binding in world(j).statuses ==>
                world(i).statuses[binding] == world(j).statuses[binding]))
  }

  /** An engine is admitted only if one authority generation lasted over all six reads and one runtime
      generation from the first status read to the last, whatever the world did in between. */
  lemma AdmittedUnderOneGeneration(world: nat -> World, t: Times, binding: string, usable: bool)
    requires Ordered(t) && NeverRepeats(world, binding)
    requires Admit(binding, usable, ReadsAt(world, t)).Some?
    ensures forall k: nat | t.authority <= k <= t.last :: CatalogGeneration(world(k)) == CatalogGeneration(world(t.authority))
    ensures forall k: nat | t.status <= k <= t.again :: RuntimeGeneration(world(k), binding) == RuntimeGeneration(world(t.status), binding)
    ensures CatalogGeneration(world(t.authority)).Some? && RuntimeGeneration(world(t.status), binding).Some?
  {
    AdmittedGenerations(ReadsAt(world, t), binding, usable);
  }

  lemma AdmittedGenerations(r: Reads, binding: string, usable: bool)
    requires Admit(binding, usable, r).Some?
    ensures CatalogGeneration(r.authority).Some? && CatalogGeneration(r.last) == CatalogGeneration(r.authority)
    ensures RuntimeGeneration(r.status, binding).Some? && RuntimeGeneration(r.again, binding) == RuntimeGeneration(r.status, binding)
  {
    hide BindingId, RunningStatus, VerifiedInstallation, ControlUrl, MetadataMatches;
  }

  /** Six reads at six different times are then as good as one look: at the moment the metadata was
      read, everything admission asks for was true together. */
  lemma AdmittedMeansConsistent(world: nat -> World, t: Times, binding: string, usable: bool)
    requires Ordered(t) && NeverRepeats(world, binding) && GenerationsCover(world, binding)
    requires Admit(binding, usable, ReadsAt(world, t)).Some?
    ensures Consistent(world(t.metadata), binding, Admit(binding, usable, ReadsAt(world, t)).value)
  {
    hide BindingId, RunningStatus, VerifiedInstallation, ControlUrl, NeverRepeats, GenerationsCover;
    AdmittedUnderOneGeneration(world, t, binding, usable);
    CoveredAt(world, t.authority, t.metadata, binding);
    CoveredAt(world, t.installation, t.metadata, binding);
    CoveredAt(world, t.status, t.metadata, binding);
  }

  lemma CoveredAt(world: nat -> World, i: nat, j: nat, binding: string)
    requires GenerationsCover(world, binding)
    ensures CatalogGeneration(world(i)) == CatalogGeneration(world(j)) ==>
              world(i).authority == world(j).authority && world(i).sdkGeneration == world(j).sdkGeneration
              && world(i).installations == world(j).installations
    ensures RuntimeGeneration(world(i), binding) == RuntimeGeneration(world(j), binding) ==>
              (binding in world(i).statuses <==> binding in world(j).statuses)
              && (binding in world(i).statuses && binding in world(j).statuses ==>
                    world(i).statuses[binding] == world(j).statuses[binding])
  {
  }

  /** In a world that stands still, admission is exactly consistency. */
  lemma StillWorldAdmitted(w: World, binding: string, url: string)
    ensures Admit(binding, true, Reads(w, w, w, w, w, w)) == Some(url) <==> Consistent(w, binding, url)
  {
    hide BindingId, RunningStatus, VerifiedInstallation, ControlUrl, MetadataMatches;
  }

  /** That generations never repeat is needed: with a runtime that leaves its generation and comes
      back to it between the two status reads, the engine is admitted all the same. */
  lemma RepeatedGenerationUnseen(w: World, binding: string, url: string)
    returns (r: Reads)
    requires Consistent(w, binding, url)
    ensures Admit(binding, true, r) == Some(url)
    ensures RuntimeGeneration(r.status, binding) != RuntimeGeneration(r.installation, binding)
  {
    hide BindingId, RunningStatus, VerifiedInstallation, ControlUrl, MetadataMatches;
    var status := w.statuses[binding];
    var moved := w.(statuses := w.statuses[binding := status.(generation := status.generation + 1)]);
    r := Reads(w, w, moved, w, w, w);
  }
}
