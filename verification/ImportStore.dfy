/** The model-import tables of the Product store; each function is one transaction. */
module ImportStore {
  import opened Options

  type ImportId = nat
  type Binding = string

  datatype Workspace = Workspace(organization: string, workspace: string)

  datatype ImportState = Validating | Imported | Rejected

  datatype ModelImport = ModelImport(binding: Binding, state: ImportState, version: nat)

  /** The replay ledger is keyed by the scope and the caller's key; `None` is the legacy scope. */
  datatype LedgerKey = LedgerKey(scope: Option<Workspace>, key: string)

  datatype LedgerRow = LedgerRow(digest: string, resource: ImportId)

  datatype Tables = Tables(
    imports: map<ImportId, ModelImport>,
    scopes: map<ImportId, Workspace>,
    ledger: map<LedgerKey, LedgerRow>)

  const EMPTY := Tables(map[], map[], map[])

  type Grants = set<(Binding, Workspace)>

  datatype Resolution = Fresh | Replay(resource: ImportId) | Conflict | NotGranted | ScopeConflict

  function Resolve(t: Tables, scope: Option<Workspace>, key: Option<string>, digest: string): Resolution {
    if key.None? || LedgerKey(scope, key.value) !in t.ledger then Fresh
    else
      var row := t.ledger[LedgerKey(scope, key.value)];
      if row.digest != digest then Conflict else Replay(row.resource)
  }

  function ScopeOf(t: Tables, id: ImportId): Option<Workspace> {
    if id in t.scopes then Some(t.scopes[id]) else None
  }

  predicate Granted(grants: Grants, scope: Option<Workspace>, binding: Binding) {
    scope.Some? ==> (binding, scope.value) in grants
  }

  /** What the commit of an intent decides before it writes. */
  function CommitOutcome(t: Tables, grants: Grants, scope: Option<Workspace>, key: Option<string>, digest: string,
                         binding: Binding): Resolution
  {
    if !Granted(grants, scope, binding) then NotGranted
    else
      var resolution := Resolve(t, scope, key, digest);
      if resolution.Replay? && ScopeOf(t, resolution.resource) != scope then ScopeConflict else resolution
  }

  function Inserted(t: Tables, id: ImportId, row: ModelImport, scope: Option<Workspace>, key: Option<string>, digest: string)
    : Tables
  {
    Tables(
      t.imports[id := row],
      if scope.Some? then t.scopes[id := scope.value] else t.scopes,
      if key.Some? then t.ledger[LedgerKey(scope, key.value) := LedgerRow(digest, id)] else t.ledger)
  }

  function Saved(t: Tables, id: ImportId, row: ModelImport): Tables {
    t.(imports := t.imports[id := row])
  }

  /** The legacy view joins no scope row, a workspace's view exactly its own. */
  function View(t: Tables, scope: Option<Workspace>): set<ImportId> {
    if scope.None? then set id | id in t.imports && id !in t.scopes
    else set id | id in t.imports && id in t.scopes && t.scopes[id] == scope.value
  }

  /** The active tasks that the store reports for imports: one, running, for each import being validated. */
  function ActiveTasks(t: Tables): set<ImportId> {
    set id | id in t.imports && t.imports[id].state == Validating
  }

  class ModelImportStore {
    var imports: map<ImportId, ModelImport>
    var scopes: map<ImportId, Workspace>
    var ledger: map<LedgerKey, LedgerRow>

    ghost function Contents(): Tables
      reads this
    {
      Tables(imports, scopes, ledger)
    }

    constructor ()
      ensures Contents() == EMPTY
    {
      imports, scopes, ledger := map[], map[], map[];
    }

    method ResolveRequest(scope: Option<Workspace>, key: Option<string>, digest: string) returns (r: Resolution)
      ensures r == Resolve(Contents(), scope, key, digest)
    {
      if key == None {
        return Fresh;
      }
      var known := LedgerKey(scope, key.value);
      if known !in ledger {
        return Fresh;
      }
      var row := ledger[known];
      if row.digest != digest {
        return Conflict;
      }
      return Replay(row.resource);
    }

    /** One transaction: the grant and the ledger are looked at again, and the import, its scope and its
        replay key are written together or not at all. */
    method CommitIntent(id: ImportId, row: ModelImport, scope: Option<Workspace>, key: Option<string>, digest: string,
                        grants: Grants)
      returns (r: Resolution)
      modifies this
      ensures r == CommitOutcome(old(Contents()), grants, scope, key, digest, row.binding)
      ensures Contents() == if r.Fresh? then Inserted(old(Contents()), id, row, scope, key, digest) else old(Contents())
    {
      if scope.Some? && (row.binding, scope.value) !in grants {
        return NotGranted;
      }
      r := ResolveRequest(scope, key, digest);
      if r.Conflict? {
        return;
      }
      if r.Replay? {
        var owner := if r.resource in scopes then Some(scopes[r.resource]) else None;
        if owner != scope {
          return ScopeConflict;
        }
        return;
      }
      imports := imports[id := row];
      if key.Some? {
        ledger := ledger[LedgerKey(scope, key.value) := LedgerRow(digest, id)];
      }
      if scope.Some? {
        scopes := scopes[id := scope.value];
      }
    }

    method Save(id: ImportId, row: ModelImport)
      modifies this
      ensures Contents() == Saved(old(Contents()), id, row)
    {
      imports := imports[id := row];
    }

    method Get(id: ImportId, scope: Option<Workspace>) returns (r: Option<ModelImport>)
      ensures r == if id in View(Contents(), scope) then Some(imports[id]) else None
    {
      if id !in imports {
        return None;
      }
      if scope.None? {
        return if id !in scopes then Some(imports[id]) else None;
      }
      return if id in scopes && scopes[id] == scope.value then Some(imports[id]) else None;
    }
  }
}
