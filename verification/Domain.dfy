/** Optional values, as the source's `None`. */
module Options {
  datatype Option<+T> = None | Some(value: T)
}

/** The Product resources the deployment lifecycle reads and writes.  Identifiers, engine references
    and URLs are opaque, so numbers stand for them; message texts and timestamps are left out. */
module Domain {
  import opened Options

  type DeploymentId = nat
  type EndpointId = nat
  type ExecutionRef = nat
  type Url = nat
  type NodeRef = nat

  datatype DesiredState = Active | StopRequested

  datatype ObservedState = Starting | Ready | Degraded | Failed | Stopping | Stopped

  datatype EndpointState = Provisioning | Serving | Unhealthy | Retired

  datatype FailureCode = StartFailed | ExecutionUnavailable

  datatype Phase = QUEUED | LOADING | PROBING | READY | FAILED | STOPPING | RELEASED

  datatype Deployment = Deployment(
    desired: DesiredState,
    observed: ObservedState,
    node: NodeRef,
    endpointId: Option<EndpointId>,
    failure: Option<FailureCode>,
    version: nat)

  datatype Endpoint = Endpoint(owner: DeploymentId, state: EndpointState, url: Url, version: nat)

  /** What an engine hands back for a prepared or a started execution. */
  datatype EngineHandle = EngineHandle(ref: ExecutionRef, url: Url)

  datatype Event = Event(sequence: nat, phase: Phase)

  /** What the activity broker has on record for an open task. */
  datatype TaskState = Accepted | Dispatching | Canceling
}
