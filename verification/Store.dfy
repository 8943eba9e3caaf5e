/** The transactional secret store. */
module Store {
  import opened Types
  import opened Crypto

  datatype SecretKind = Pat | OAuth2 | ApiKey | BasicAuth | SshKey | ClientCert | Opaque

  datatype StoredSecret = StoredSecret(
    id: SecretId,
    sealed: Sealed,
    kind: SecretKind,
    description: Option<string>,
    createdAt: Time,
    updatedAt: Time,
    version: nat)

  /** A secret without its ciphertext. */
  datatype SecretMetadata = SecretMetadata(
    id: SecretId,
    name: SecretName,
    kind: SecretKind,
    description: Option<string>,
    createdAt: Time,
    updatedAt: Time,
    version: nat)

  function MetadataOf(name: SecretName, r: StoredSecret): SecretMetadata {
    SecretMetadata(r.id, name, r.kind, r.description, r.createdAt, r.updatedAt, r.version)
  }

  /** What is told about a secret is everything but its ciphertext. */
  lemma MetadataDescribes(name: SecretName, r: StoredSecret)
    ensures var m := MetadataOf(name, r);
      && m.name == name && m.id == r.id && m.kind == r.kind && m.description == r.description
      && m.createdAt == r.createdAt && m.updatedAt == r.updatedAt && m.version == r.version
  {
  }

  /** The secrets table; the name column is unique. */
  type Table = map<SecretName, StoredSecret>

  datatype BatchUpdateItem = BatchUpdateItem(name: SecretName, sealed: Sealed)

  function Rewritten(r: StoredSecret, sealed: Sealed, now: Time): StoredSecret {
    r.(sealed := sealed, updatedAt := now, version := r.version + 1)
  }

  /** The table after a list of updates, or nothing if one of them names a missing row. */
  function ApplyBatch(t: Table, updates: seq<BatchUpdateItem>, now: Time): (r: Option<Table>)
    ensures r.Some? ==> r.value.Keys == t.Keys
    ensures r.Some? <==> forall i | 0 <= i < |updates| :: updates[i].name in t
  {
    if updates == [] then Some(t)
    else
      var last := updates[|updates| - 1];
      match ApplyBatch(t, updates[..|updates| - 1], now)
      case Some(done) =>
        if last.name in done then Some(done[last.name := Rewritten(done[last.name], last.sealed, now)]) else None
      case None => None
  }

  predicate Distinct(updates: seq<BatchUpdateItem>) {
    forall i, j | 0 <= i < j < |updates| :: updates[i].name != updates[j].name
  }

  /** A batch over distinct names rewrites exactly those rows, once each. */
  lemma {:induction false} ApplyBatchEffect(t: Table, updates: seq<BatchUpdateItem>, now: Time)
    requires Distinct(updates)
    requires ApplyBatch(t, updates, now).Some?
    ensures var out := ApplyBatch(t, updates, now).value;
      && (forall i | 0 <= i < |updates| ::
            out[updates[i].name] == Rewritten(t[updates[i].name], updates[i].sealed, now))
      && (forall n | n in t && (forall i | 0 <= i < |updates| :: updates[i].name != n) :: out[n] == t[n])
  {
    if updates != [] {
      var init := updates[..|updates| - 1];
      ApplyBatchEffect(t, init, now);
      forall n | n in t && (forall i | 0 <= i < |updates| :: updates[i].name != n)
        ensures ApplyBatch(t, updates, now).value[n] == t[n]
      {
        assert forall i | 0 <= i < |init| :: init[i].name == updates[i].name;
      }
      assert ApplyBatch(t, init, now).value[updates[|updates| - 1].name] == t[updates[|updates| - 1].name];
    }
  }

  class SecretStore {
    var table: Table

    constructor ()
      ensures table == map[]
    {
      table := map[];
    }

    /** `reachable` says whether the database answers. */
    method Put(name: SecretName, sealed: Sealed, kind: SecretKind, description: Option<string>,
               id: SecretId, now: Time, reachable: bool) returns (r: Result<StoredSecret>)
      modifies this
      ensures r.Ok? <==> reachable && name !in old(table)
      ensures r.Ok? ==>
        r.value == StoredSecret(id, sealed, kind, description, now, now, 1) && table == old(table)[name := r.value]
      ensures r.Err? ==>
        table == old(table) && r.error == if reachable then SecretAlreadyExists(name) else Storage
    {
      if !reachable {
        return Err(Storage);
      }
      if name in table {
        return Err(SecretAlreadyExists(name));
      }
      var row := StoredSecret(id, sealed, kind, description, now, now, 1);
      table := table[name := row];
      return Ok(row);
    }

    method Get(name: SecretName, reachable: bool) returns (r: Result<StoredSecret>)
      ensures r == if !reachable then Err(Storage)
                   else if name in table then Ok(table[name]) else Err(SecretNotFound(name))
    {
      if !reachable {
        return Err(Storage);
      }
      if name !in table {
        return Err(SecretNotFound(name));
      }
      return Ok(table[name]);
    }

    method Delete(name: SecretName, reachable: bool) returns (r: Result<()>)
      modifies this
      ensures r.Ok? <==> reachable && name in old(table)
      ensures table == if r.Ok? then old(table) - {name} else old(table)
      ensures r.Err? ==> r.error == if reachable then SecretNotFound(name) else Storage
    {
      if !reachable {
        return Err(Storage);
      }
      if name !in table {
        return Err(SecretNotFound(name));
      }
      table := table - {name};
      return Ok(());
    }

    /** Every name once, in whatever order the database yields them. */
    method List(reachable: bool) returns (r: Result<seq<SecretMetadata>>)
      ensures r.Ok? <==> reachable
      ensures r.Err? ==> r.error == Storage
      ensures r.Ok? ==>
        && (forall n | n in table :: MetadataOf(n, table[n]) in r.value)
        && (forall i | 0 <= i < |r.value| ::
              r.value[i].name in table && r.value[i] == MetadataOf(r.value[i].name, table[r.value[i].name]))
        && forall i, j | 0 <= i < j < |r.value| :: r.value[i].name != r.value[j].name
    {
      if !reachable {
        return Err(Storage);
      }
      var rows: seq<SecretMetadata> := [];
      var left := table.Keys;
      while left != {}
        invariant left <= table.Keys
        invariant forall n | n in table && n !in left :: MetadataOf(n, table[n]) in rows
        invariant forall i | 0 <= i < |rows| ::
          && rows[i].name in table && rows[i].name !in left
          && rows[i] == MetadataOf(rows[i].name, table[rows[i].name])
        invariant forall i, j | 0 <= i < j < |rows| :: rows[i].name != rows[j].name
        decreases |left|
      {
        var n :| n in left;
        rows := rows + [MetadataOf(n, table[n])];
        left := left - {n};
      }
      return Ok(rows);
    }

    /**
     * All updates in one transaction.  `failAt` is the statement at which the database gives up:
     * an index into the list, the length of the list for the commit, or more for no failure.
     */
    method BatchUpdate(updates: seq<BatchUpdateItem>, now: Time, failAt: nat) returns (r: Result<()>)
      modifies this
      ensures r.Ok? <==> failAt > |updates| && ApplyBatch(old(table), updates, now).Some?
      ensures r.Ok? ==> Some(table) == ApplyBatch(old(table), updates, now)
      ensures r.Err? ==> table == old(table)
      ensures r.Err? && ApplyBatch(old(table), updates, now).Some? ==> r.error == Storage
    {
      var tx := table;
      for i := 0 to |updates|
        invariant i <= failAt
        invariant Some(tx) == ApplyBatch(table, updates[..i], now)
        invariant table == old(table)
      {
        if i == failAt {
          return Err(Storage);
        }
        var item := updates[i];
        if item.name !in tx {
          return Err(SecretNotFound(item.name));
        }
        tx := tx[item.name := Rewritten(tx[item.name], item.sealed, now)];
        assert updates[..i + 1][..i] == updates[..i];
      }
      assert updates[..|updates|] == updates;
      if failAt == |updates| {
        return Err(Storage);
      }
      table := tx;
      return Ok(());
    }
  }
}
