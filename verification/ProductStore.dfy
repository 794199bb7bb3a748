/** The deployment tables of the Product store.  Each function below is one transaction
    (`with self._lock, self._connection`), so one atomic step. */
module ProductStore {
  import opened Options
  import opened Domain

  datatype LedgerRow = LedgerRow(digest: string, resource: DeploymentId)

  datatype Tables = Tables(
    deployments: map<DeploymentId, Deployment>,
    endpoints: map<EndpointId, Endpoint>,
    evidence: map<DeploymentId, ExecutionRef>,
    events: map<DeploymentId, seq<Event>>,
    ledger: map<string, LedgerRow>)

  const EMPTY := Tables(map[], map[], map[], map[], map[])

  datatype Resolution = Fresh | Replay(resource: DeploymentId) | Conflict

  /** A request without a key is always fresh; a known key replays only an equal body. */
  function ResolveIdempotency(t: Tables, key: Option<string>, digest: string): Resolution {
    if key.None? || key.value !in t.ledger then Fresh
    else if t.ledger[key.value].digest != digest then Conflict
    else Replay(t.ledger[key.value].resource)
  }

  function CreateIntent(t: Tables, id: DeploymentId, row: Deployment, key: Option<string>, digest: string): Tables {
    t.(deployments := t.deployments[id := row],
       ledger := if key.None? then t.ledger else t.ledger[key.value := LedgerRow(digest, id)])
  }

  function SaveDeployment(t: Tables, id: DeploymentId, row: Deployment): Tables {
    t.(deployments := t.deployments[id := row])
  }

  /** `INSERT OR REPLACE` under `UNIQUE(deployment_id)`: a row of the same deployment under another
      endpoint id would be deleted. */
  function ReplaceEndpoint(endpoints: map<EndpointId, Endpoint>, key: EndpointId, row: Endpoint)
    : map<EndpointId, Endpoint>
  {
    (map e | e in endpoints && endpoints[e].owner != row.owner :: endpoints[e])[key := row]
  }

  function SavePair(t: Tables, id: DeploymentId, row: Deployment, key: EndpointId, endpoint: Endpoint,
                    ref: Option<ExecutionRef>): Tables
  {
    t.(deployments := t.deployments[id := row],
       endpoints := ReplaceEndpoint(t.endpoints, key, endpoint),
       evidence := if ref.None? then t.evidence else t.evidence[id := ref.value])
  }

  function EventsOf(t: Tables, id: DeploymentId): seq<Event> {
    if id in t.events then t.events[id] else []
  }

  /** `COALESCE(MAX(sequence), 0)`. */
  function MaxSequence(log: seq<Event>): nat {
    if log == [] then 0
    else
      var rest := MaxSequence(log[..|log| - 1]);
      var last := log[|log| - 1].sequence;
      if last > rest then last else rest
  }

  function AppendEvent(t: Tables, id: DeploymentId, phase: Phase): Tables {
    var log := EventsOf(t, id);
    t.(events := t.events[id := log + [Event(MaxSequence(log) + 1, phase)]])
  }

  /** Numbered 1..n without gaps. */
  ghost predicate Dense(log: seq<Event>) {
    forall i | 0 <= i < |log| :: log[i].sequence == i + 1
  }

  lemma {:induction false} MaxOfDense(log: seq<Event>)
    requires Dense(log)
    ensures MaxSequence(log) == |log|
  {
    if log != [] {
      MaxOfDense(log[..|log| - 1]);
    }
  }

  /** The state `list_active_activity_tasks` reports for a row, if it reports the row at all. */
  function TaskMark(observed: ObservedState): Option<TaskState> {
    match observed
    case Stopping => Some(Canceling)
    case Starting => Some(Dispatching)
    case _ => None
  }

  /** `list_active_activity_tasks`, restricted to deployments. */
  function ActiveTasks(t: Tables): map<DeploymentId, TaskState> {
    map id | id in t.deployments && TaskMark(t.deployments[id].observed).Some?
      :: TaskMark(t.deployments[id].observed).value
  }

  /** The store object: every method is one transaction over the tables it holds. */
  class ReactorStore {
    var deployments: map<DeploymentId, Deployment>
    var endpoints: map<EndpointId, Endpoint>
    var evidence: map<DeploymentId, ExecutionRef>
    var events: map<DeploymentId, seq<Event>>
    var ledger: map<string, LedgerRow>

    ghost function Contents(): Tables
      reads this
    {
      Tables(deployments, endpoints, evidence, events, ledger)
    }

    constructor ()
      ensures Contents() == EMPTY
    {
      deployments, endpoints, evidence, events, ledger := map[], map[], map[], map[], map[];
    }

    method Resolve(key: Option<string>, digest: string) returns (r: Resolution)
      ensures r == ResolveIdempotency(Contents(), key, digest)
    {
      if key == None {
        return Fresh;
      }
      if key.value !in ledger {
        return Fresh;
      }
      var row := ledger[key.value];
      if row.digest != digest {
        return Conflict;
      }
      return Replay(row.resource);
    }

    /** The intent and its replay key are committed together. */
    method PersistIntent(id: DeploymentId, row: Deployment, key: Option<string>, digest: string)
      requires ResolveIdempotency(Contents(), key, digest).Fresh?
      modifies this
      ensures Contents() == CreateIntent(old(Contents()), id, row, key, digest)
    {
      deployments := deployments[id := row];
      if key.Some? {
        ledger := ledger[key.value := LedgerRow(digest, id)];
      }
    }

    method WriteDeployment(id: DeploymentId, row: Deployment)
      modifies this
      ensures Contents() == SaveDeployment(old(Contents()), id, row)
    {
      deployments := deployments[id := row];
    }

    method WritePair(id: DeploymentId, row: Deployment, key: EndpointId, endpoint: Endpoint, ref: Option<ExecutionRef>)
      modifies this
      ensures Contents() == SavePair(old(Contents()), id, row, key, endpoint, ref)
      ensures key in endpoints && endpoints[key] == endpoint
    {
      deployments := deployments[id := row];
      endpoints := ReplaceEndpoint(endpoints, key, endpoint);
      if ref.Some? {
        evidence := evidence[id := ref.value];
      }
    }

    /** The next number is read and the row inserted in one transaction. */
    method RecordEvent(id: DeploymentId, phase: Phase) returns (event: Event)
      modifies this
      ensures Contents() == AppendEvent(old(Contents()), id, phase)
      ensures EventsOf(Contents(), id) == EventsOf(old(Contents()), id) + [event]
    {
      var log := if id in events then events[id] else [];
      var highest := 0;
      for i := 0 to |log|
        invariant highest == MaxSequence(log[..i])
      {
        assert log[..i + 1][..i] == log[..i];
        if log[i].sequence > highest {
          highest := log[i].sequence;
        }
      }
      assert log[..|log|] == log;
      event := Event(highest + 1, phase);
      events := events[id := log + [event]];
    }
  }
}
