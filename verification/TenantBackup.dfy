/** Backup and restore of one tenant (internal/dbbackup/service.go). A table maps primary keys to rows;
    every tenant table has a tenant_id column. */
module TenantBackup {
  import opened Options

  type TenantId = nat
  type Pk = nat

  const FORMAT_TENANT_JSON := "tenant_json"

  datatype Row = Row(tenant: Option<TenantId>, data: string)

  type Table = map<Pk, Row>

  datatype Column = Column(table: string, isTenantId: bool, baseTable: bool)

  datatype Keyed = Keyed(pk: Pk, row: Row)

  datatype Archive = Archive(format: string, tenant: Option<TenantId>, tables: map<string, seq<Keyed>>)

  predicate SafeChar(c: char) {
    'a' <= c <= 'z' || '0' <= c <= '9' || c == '_'
  }

  predicate SafeIdent(name: string) {
    name != "" && forall i :: 0 <= i < |name| ==> SafeChar(name[i])
  }

  function Mine(t: Table, tenant: TenantId): Table {
    map pk | pk in t && t[pk].tenant == Some(tenant) :: t[pk]
  }

  /** The tenant's own row in `tenants`. */
  function Itself(t: Table, tenant: TenantId): Table {
    map pk | pk in t && pk == tenant :: t[pk]
  }

  function Others(t: Table, tenant: TenantId): Table {
    map pk | pk in t && t[pk].tenant != Some(tenant) :: t[pk]
  }

  predicate DistinctKeys(rows: seq<Keyed>) {
    forall i, j :: 0 <= i < j < |rows| ==> rows[i].pk != rows[j].pk
  }

  /** `rows` lists exactly the rows of `t`, each once. */
  ghost predicate Lists(rows: seq<Keyed>, t: Table) {
    && DistinctKeys(rows)
    && (forall i :: 0 <= i < |rows| ==> rows[i].pk in t && t[rows[i].pk] == rows[i].row)
    && (forall pk :: pk in t ==> exists i :: 0 <= i < |rows| && rows[i].pk == pk)
  }

  /** `r` is `t` with the rows added. */
  ghost predicate Filled(r: Table, t: Table, rows: seq<Keyed>) {
    && (forall pk :: pk in t ==> pk in r && r[pk] == t[pk])
    && (forall i :: 0 <= i < |rows| ==> rows[i].pk in r && r[rows[i].pk] == rows[i].row)
    && (forall pk :: pk in r ==> pk in t || exists i :: 0 <= i < |rows| && rows[i].pk == pk)
  }

  /** No row collides with `t` or another row, and the database refuses none for other reasons. */
  predicate Insertable(t: Table, rows: seq<Keyed>, refused: set<Keyed>) {
    && DistinctKeys(rows)
    && forall i :: 0 <= i < |rows| ==> rows[i].pk !in t && rows[i] !in refused
  }

  /** `tenantTables`: base tables with a tenant_id column and a plain name, in catalogue order. */
  function TenantTables(catalogue: seq<Column>): seq<string> {
    if catalogue == [] then []
    else
      var c := catalogue[0];
      if Listed(c) then [c.table] + TenantTables(catalogue[1..])
      else TenantTables(catalogue[1..])
  }

  predicate Listed(c: Column) {
    c.isTenantId && c.baseTable && SafeIdent(c.table)
  }

  lemma {:induction false} TenantTablesSnoc(catalogue: seq<Column>, c: Column)
    ensures TenantTables(catalogue + [c])
            == if Listed(c) then TenantTables(catalogue) + [c.table] else TenantTables(catalogue)
  {
    if catalogue == [] {
      assert (catalogue + [c])[1..] == [];
    } else {
      assert (catalogue + [c])[1..] == catalogue[1..] + [c];
      TenantTablesSnoc(catalogue[1..], c);
    }
  }

  method ListTenantTables(catalogue: seq<Column>) returns (names: seq<string>)
    ensures names == TenantTables(catalogue)
  {
    names := [];
    for i := 0 to |catalogue|
      invariant names == TenantTables(catalogue[..i])
    {
      TenantTablesSnoc(catalogue[..i], catalogue[i]);
      assert catalogue[..i + 1] == catalogue[..i] + [catalogue[i]];
      if catalogue[i].isTenantId && catalogue[i].baseTable {
        if SafeIdent(catalogue[i].table) {
          names := names + [catalogue[i].table];
        }
      }
    }
    assert catalogue[..|catalogue|] == catalogue;
  }

  /** A table is copied exactly when it is a plainly named base table with a tenant_id column; a catalogue
      that lists each such column once gives each table once. */
  lemma {:induction false} TenantTablesAre(catalogue: seq<Column>)
    ensures forall t :: t in TenantTables(catalogue) <==>
              exists c :: c in catalogue && c.isTenantId && c.baseTable && c.table == t && t != ""
                          && forall i :: 0 <= i < |t| ==> 'a' <= t[i] <= 'z' || '0' <= t[i] <= '9' || t[i] == '_'
    ensures (forall i, j :: 0 <= i < j < |catalogue| && Listed(catalogue[i]) && Listed(catalogue[j])
               ==> catalogue[i].table != catalogue[j].table)
            ==> forall i, j :: 0 <= i < j < |TenantTables(catalogue)|
                               ==> TenantTables(catalogue)[i] != TenantTables(catalogue)[j]
  {
    ListedTables(catalogue);
    if forall i, j :: 0 <= i < j < |catalogue| && Listed(catalogue[i]) && Listed(catalogue[j])
         ==> catalogue[i].table != catalogue[j].table {
      ListedOnce(catalogue);
    }
  }

  lemma {:induction false} ListedTables(catalogue: seq<Column>)
    ensures forall t :: t in TenantTables(catalogue) <==> exists c :: c in catalogue && Listed(c) && c.table == t
  {
    hide Listed;
    if catalogue != [] {
      var c, rest := catalogue[0], catalogue[1..];
      ListedTables(rest);
      assert forall d :: d in catalogue <==> d == c || d in rest;
    }
  }

  lemma {:induction false} ListedOnce(catalogue: seq<Column>)
    requires forall i, j :: 0 <= i < j < |catalogue| && Listed(catalogue[i]) && Listed(catalogue[j])
               ==> catalogue[i].table != catalogue[j].table
    ensures forall i, j :: 0 <= i < j < |TenantTables(catalogue)|
                           ==> TenantTables(catalogue)[i] != TenantTables(catalogue)[j]
  {
    hide Listed;
    if catalogue != [] {
      var c, rest := catalogue[0], catalogue[1..];
      assert forall j :: 0 <= j < |rest| ==> rest[j] == catalogue[j + 1];
      ListedOnce(rest);
      ListedTables(rest);
      assert Listed(c) ==> c.table !in TenantTables(rest);
    }
  }

  /** The tables a restore rewrites. */
  predicate Covered(names: seq<string>, table: string) {
    table in names && table != "tenants"
  }

  predicate Acceptable(arch: Archive, tenant: TenantId) {
    arch.format == FORMAT_TENANT_JSON && (arch.tenant.Some? ==> arch.tenant.value == tenant)
  }

  function RowsOf(arch: Archive, table: string): seq<Keyed> {
    if table in arch.tables then arch.tables[table] else []
  }

  lemma OneMoreRow(t: Table, r: Table, rows: seq<Keyed>, i: nat, refused: set<Keyed>)
    requires i < |rows| && Insertable(t, rows[..i], refused) && Filled(r, t, rows[..i])
    ensures rows[i].pk in r || rows[i] in refused ==> !Insertable(t, rows, refused)
    ensures rows[i].pk !in r && rows[i] !in refused ==>
              Insertable(t, rows[..i + 1], refused) && Filled(r[rows[i].pk := rows[i].row], t, rows[..i + 1])
  {
    if rows[i].pk in r || rows[i] in refused {
      CannotInsert(t, r, rows, i, refused);
    } else {
      assert rows[..i + 1] == rows[..i] + [rows[i]];
      CanInsert(t, r, rows[..i], rows[i], refused);
    }
  }

  lemma CannotInsert(t: Table, r: Table, rows: seq<Keyed>, i: nat, refused: set<Keyed>)
    requires i < |rows| && Filled(r, t, rows[..i]) && (rows[i].pk in r || rows[i] in refused)
    ensures !Insertable(t, rows, refused)
  {
    if rows[i].pk in r && rows[i].pk !in t {
      var j :| 0 <= j < i && rows[..i][j].pk == rows[i].pk;
      assert rows[j].pk == rows[i].pk;
    }
  }

  lemma CanInsert(t: Table, r: Table, done: seq<Keyed>, row: Keyed, refused: set<Keyed>)
    requires Insertable(t, done, refused) && Filled(r, t, done) && row.pk !in r && row !in refused
    ensures Insertable(t, done + [row], refused) && Filled(r[row.pk := row.row], t, done + [row])
  {
    var more := done + [row];
    assert forall j :: 0 <= j < |done| ==> done[j] == more[j] && more[j].pk in r;
    assert more[|done|] == row;
  }

  class Database {
    var tables: map<string, Table>
    const names: seq<string>

    ghost predicate Valid()
      reads this
    {
      && "tenants" in tables
      && (forall i :: 0 <= i < |names| ==> names[i] in tables)
      && (forall i, j :: 0 <= i < j < |names| ==> names[i] != names[j])
    }

    /** `selectJSON`: some listing of the rows. */
    static method SelectRows(t: Table) returns (rows: seq<Keyed>)
      ensures Lists(rows, t)
    {
      rows := [];
      var todo := t.Keys;
      while todo != {}
        invariant todo <= t.Keys && DistinctKeys(rows)
        invariant forall i :: 0 <= i < |rows| ==> rows[i].pk in t && rows[i].pk !in todo && t[rows[i].pk] == rows[i].row
        invariant forall pk :: pk in t && pk !in todo ==> exists i :: 0 <= i < |rows| && rows[i].pk == pk
      {
        var pk :| pk in todo;
        ghost var before := rows;
        todo := todo - {pk};
        rows := rows + [Keyed(pk, t[pk])];
        assert rows[|before|].pk == pk;
        assert forall i :: 0 <= i < |before| ==> rows[i] == before[i];
      }
    }

    /** The tenant's rows of every tenant table, one table after the other. */
    method CreateTenantBackup(tenant: TenantId) returns (arch: Archive)
      requires Valid()
      ensures arch.format == "tenant_json" && arch.tenant == Some(tenant)
      ensures "tenants" in arch.tables
              && Lists(arch.tables["tenants"],
                       if tenant in tables["tenants"] then map[tenant := tables["tenants"][tenant]] else map[])
      ensures forall t :: t in names && t != "tenants" ==>
                t in arch.tables && Lists(arch.tables[t], Mine(tables[t], tenant))
      ensures Acceptable(arch, tenant) && BackupOf(arch, tables, names, tenant)
    {
      var self := SelectRows(Itself(tables["tenants"], tenant));
      assert Itself(tables["tenants"], tenant)
             == if tenant in tables["tenants"] then map[tenant := tables["tenants"][tenant]] else map[];
      var saved := map["tenants" := self];
      for i := 0 to |names|
        invariant "tenants" in saved && saved["tenants"] == self
        invariant forall j :: 0 <= j < i && names[j] != "tenants" ==>
                    names[j] in saved && Lists(saved[names[j]], Mine(tables[names[j]], tenant))
      {
        if names[i] != "tenants" {
          var rows := SelectRows(Mine(tables[names[i]], tenant));
          saved := saved[names[i] := rows];
        }
      }
      arch := Archive(FORMAT_TENANT_JSON, Some(tenant), saved);
    }

    /** Inserts row by row; stops at the first the database refuses. */
    static method InsertRows(t: Table, rows: seq<Keyed>, refused: set<Keyed>) returns (ok: bool, r: Table)
      ensures ok <==> Insertable(t, rows, refused)
      ensures ok ==> Filled(r, t, rows)
    {
      r := t;
      for i := 0 to |rows|
        invariant Insertable(t, rows[..i], refused)
        invariant Filled(r, t, rows[..i])
      {
        OneMoreRow(t, r, rows, i, refused);
        if rows[i].pk in r || rows[i] in refused {
          return false, r;
        }
        r := r[rows[i].pk := rows[i].row];
      }
      assert rows[..|rows|] == rows;
      ok := true;
    }

    /** Deletes the tenant's rows and inserts the archived ones, in one transaction. */
    method RestoreTenant(tenant: TenantId, arch: Archive, refused: set<Keyed>) returns (ok: bool)
      requires Valid()
      modifies this`tables
      ensures Valid()
      ensures ok <==> && arch.format == "tenant_json" && (arch.tenant.Some? ==> arch.tenant.value == tenant)
                      && forall t :: t in names && t != "tenants" ==>
                        Insertable(Others(old(tables)[t], tenant), RowsOf(arch, t), refused)
      ensures !ok ==> tables == old(tables)
      ensures ok ==> Restored(tables, old(tables), names, tenant, arch)
    {
      if arch.format != FORMAT_TENANT_JSON {
        return false;
      }
      if arch.tenant.Some? && arch.tenant.value != tenant {
        return false;
      }
      var tx := DeleteRows(tables, names, tenant);
      ok, tx := InsertArchive(tx, names, arch, refused);
      if ok {
        tables := tx;
      }
    }

    /** First loop of the transaction. */
    static method DeleteRows(start: map<string, Table>, names: seq<string>, tenant: TenantId)
      returns (tx: map<string, Table>)
      requires forall i :: 0 <= i < |names| ==> names[i] in start
      ensures tx.Keys == start.Keys
      ensures forall t :: t in tx ==> tx[t] == if Covered(names, t) then Others(start[t], tenant) else start[t]
    {
      tx := start;
      for i := 0 to |names|
        invariant tx.Keys == start.Keys
        invariant forall t :: t in tx ==> tx[t] == if Covered(names[..i], t) then Others(start[t], tenant) else start[t]
      {
        assert forall t :: t in names[..i + 1] <==> t in names[..i] || t == names[i];
        if names[i] != "tenants" {
          tx := tx[names[i] := Others(start[names[i]], tenant)];
        }
      }
      assert names[..|names|] == names;
    }

    /** Second loop of the transaction; the first refused row ends it. */
    static method InsertArchive(start: map<string, Table>, names: seq<string>, arch: Archive, refused: set<Keyed>)
      returns (ok: bool, tx: map<string, Table>)
      requires forall i :: 0 <= i < |names| ==> names[i] in start
      requires forall i, j :: 0 <= i < j < |names| ==> names[i] != names[j]
      ensures tx.Keys == start.Keys
      ensures ok <==> forall t :: Covered(names, t) ==> Insertable(start[t], RowsOf(arch, t), refused)
      ensures ok ==> forall t :: t in tx ==>
                if Covered(names, t) then Filled(tx[t], start[t], RowsOf(arch, t)) else tx[t] == start[t]
    {
      tx := start;
      for i := 0 to |names|
        invariant tx.Keys == start.Keys
        invariant forall t :: Covered(names[..i], t) ==> t in start && Insertable(start[t], RowsOf(arch, t), refused)
        invariant forall t :: t in tx ==>
                    if Covered(names[..i], t) then Filled(tx[t], start[t], RowsOf(arch, t)) else tx[t] == start[t]
      {
        var t := names[i];
        assert t !in names[..i];
        assert forall u :: u in names[..i + 1] <==> u in names[..i] || u == t;
        if t != "tenants" {
          var fine, filled := InsertRows(tx[t], RowsOf(arch, t), refused);
          if !fine {
            assert Covered(names, t);
            return false, tx;
          }
          tx := tx[t := filled];
        }
      }
      assert names[..|names|] == names;
      ok := true;
    }
  }

  /** Tenant tables hold the other tenants' rows and the archived ones; all other tables are untouched. */
  ghost predicate Restored(after: map<string, Table>, before: map<string, Table>, names: seq<string>,
                           tenant: TenantId, arch: Archive) {
    && after.Keys == before.Keys
    && (forall t :: t in before && !Covered(names, t) ==> after[t] == before[t])
    && (forall t :: t in before && Covered(names, t) ==> Filled(after[t], Others(before[t], tenant), RowsOf(arch, t)))
  }

  /** What `CreateTenantBackup` promises about its archive. */
  ghost predicate BackupOf(arch: Archive, source: map<string, Table>, names: seq<string>, tenant: TenantId) {
    forall t :: Covered(names, t) ==> t in source && t in arch.tables && Lists(arch.tables[t], Mine(source[t], tenant))
  }

  /** Restoring a backup into any database with the same tables gives back exactly the tenant's rows of
      the backup, leaves every other tenant's rows and every other table as they were, and succeeds
      exactly when no archived key has meanwhile been taken by another tenant's row. */
  lemma BackupRestoreRoundTrip(source: map<string, Table>, before: map<string, Table>, after: map<string, Table>,
                               names: seq<string>, tenant: TenantId, arch: Archive)
    requires BackupOf(arch, source, names, tenant) && source.Keys == before.Keys
    requires Restored(after, before, names, tenant, arch)
    ensures forall t :: Covered(names, t) ==>
              Mine(after[t], tenant) == Mine(source[t], tenant) &&
              (Insertable(Others(before[t], tenant), arch.tables[t], {}) ==>
                 Others(after[t], tenant) == Others(before[t], tenant))
    ensures forall t :: Covered(names, t) ==>
              (Insertable(Others(before[t], tenant), arch.tables[t], {}) <==>
               forall pk :: pk in Mine(source[t], tenant) ==> pk !in Others(before[t], tenant))
  {
    forall t | Covered(names, t)
      ensures Mine(after[t], tenant) == Mine(source[t], tenant)
      ensures Insertable(Others(before[t], tenant), arch.tables[t], {}) ==>
                Others(after[t], tenant) == Others(before[t], tenant)
      ensures Insertable(Others(before[t], tenant), arch.tables[t], {}) <==>
              forall pk :: pk in Mine(source[t], tenant) ==> pk !in Others(before[t], tenant)
    {
      TableRoundTrip(source[t], before[t], after[t], tenant, arch.tables[t]);
    }
  }

  /** Row by row: in every listed table but `tenants` the tenant's rows are those of the backup and the other
      rows those of before; every other table is as before. */
  lemma RestoredRowByRow(source: map<string, Table>, before: map<string, Table>, after: map<string, Table>,
                         names: seq<string>, tenant: TenantId, arch: Archive, t: string, pk: Pk)
    requires BackupOf(arch, source, names, tenant) && source.Keys == before.Keys
    requires Restored(after, before, names, tenant, arch) && t in before
    ensures t in after && t in source
    ensures t !in names || t == "tenants" ==> after[t] == before[t]
    ensures t in names && t != "tenants" && pk in after[t] && after[t][pk].tenant == Some(tenant)
            ==> pk in source[t] && source[t][pk] == after[t][pk]
    ensures t in names && t != "tenants" && pk in source[t] && source[t][pk].tenant == Some(tenant)
            ==> pk in after[t] && after[t][pk] == source[t][pk]
    ensures t in names && t != "tenants" && pk in after[t] && after[t][pk].tenant != Some(tenant)
            ==> pk in before[t] && before[t][pk] == after[t][pk]
    ensures t in names && t != "tenants" && pk in before[t] && before[t][pk].tenant != Some(tenant)
            ==> pk in after[t] && after[t][pk] == before[t][pk]
  {
    if t in names && t != "tenants" {
      RowRestored(source[t], before[t], after[t], tenant, arch.tables[t], pk);
    }
  }

  lemma RowRestored(source: Table, before: Table, after: Table, tenant: TenantId, rows: seq<Keyed>, pk: Pk)
    requires Lists(rows, Mine(source, tenant)) && Filled(after, Others(before, tenant), rows)
    ensures pk in after && after[pk].tenant == Some(tenant) ==> pk in source && source[pk] == after[pk]
    ensures pk in source && source[pk].tenant == Some(tenant) ==> pk in after && after[pk] == source[pk]
    ensures pk in after && after[pk].tenant != Some(tenant) ==> pk in before && before[pk] == after[pk]
    ensures pk in before && before[pk].tenant != Some(tenant) ==> pk in after && after[pk] == before[pk]
  {
    MineComesBack(source, before, after, tenant, rows);
    assert pk in Mine(after, tenant) <==> pk in after && after[pk].tenant == Some(tenant);
    assert pk in Mine(source, tenant) <==> pk in source && source[pk].tenant == Some(tenant);
    assert pk in Mine(source, tenant) ==>
        Mine(source, tenant)[pk] == source[pk] && Mine(after, tenant)[pk] == after[pk];
    assert forall i :: 0 <= i < |rows| ==> rows[i].row.tenant == Some(tenant);
  }

  lemma TableRoundTrip(source: Table, before: Table, after: Table, tenant: TenantId, rows: seq<Keyed>)
    requires Lists(rows, Mine(source, tenant))
    requires Filled(after, Others(before, tenant), rows)
    ensures Mine(after, tenant) == Mine(source, tenant)
    ensures Insertable(Others(before, tenant), rows, {}) ==> Others(after, tenant) == Others(before, tenant)
    ensures Insertable(Others(before, tenant), rows, {}) <==>
              forall pk :: pk in Mine(source, tenant) ==> pk !in Others(before, tenant)
  {
    MineComesBack(source, before, after, tenant, rows);
    OthersStay(source, before, after, tenant, rows);
    InsertableIff(source, before, tenant, rows);
  }

  lemma MineComesBack(source: Table, before: Table, after: Table, tenant: TenantId, rows: seq<Keyed>)
    requires Lists(rows, Mine(source, tenant))
    requires Filled(after, Others(before, tenant), rows)
    ensures Mine(after, tenant) == Mine(source, tenant)
  {
    forall pk | pk in Mine(after, tenant)
      ensures pk in Mine(source, tenant) && Mine(source, tenant)[pk] == after[pk]
    {
    }
    forall pk | pk in Mine(source, tenant)
      ensures pk in Mine(after, tenant)
    {
      var i :| 0 <= i < |rows| && rows[i].pk == pk;
    }
  }

  lemma OthersStay(source: Table, before: Table, after: Table, tenant: TenantId, rows: seq<Keyed>)
    requires Lists(rows, Mine(source, tenant))
    requires Filled(after, Others(before, tenant), rows)
    ensures Insertable(Others(before, tenant), rows, {}) ==> Others(after, tenant) == Others(before, tenant)
  {
  }

  /** A restore of the listed rows is possible exactly when none of their keys is another tenant's now. */
  lemma InsertableIff(source: Table, before: Table, tenant: TenantId, rows: seq<Keyed>)
    requires Lists(rows, Mine(source, tenant))
    ensures Insertable(Others(before, tenant), rows, {}) <==>
              forall pk :: pk in Mine(source, tenant) ==> pk !in Others(before, tenant)
  {
  }

  /** Restoring the same backup again changes nothing. */
  lemma RestoreIsIdempotent(source: map<string, Table>, before: map<string, Table>,
                            once: map<string, Table>, twice: map<string, Table>,
                            names: seq<string>, tenant: TenantId, arch: Archive)
    requires BackupOf(arch, source, names, tenant) && source.Keys == before.Keys
    requires forall t :: Covered(names, t) ==> Insertable(Others(before[t], tenant), arch.tables[t], {})
    requires Restored(once, before, names, tenant, arch) && Restored(twice, once, names, tenant, arch)
    ensures twice == once
    ensures forall t :: Covered(names, t) ==> Insertable(Others(once[t], tenant), arch.tables[t], {})
  {
    BackupRestoreRoundTrip(source, before, once, names, tenant, arch);
    BackupRestoreRoundTrip(source, once, twice, names, tenant, arch);
    forall t | t in once
      ensures twice[t] == once[t]
    {
      if Covered(names, t) {
        Halves(once[t], twice[t], tenant);
      }
    }
  }

  lemma Halves(a: Table, b: Table, tenant: TenantId)
    requires Mine(a, tenant) == Mine(b, tenant) && Others(a, tenant) == Others(b, tenant)
    ensures a == b
  {
    assert forall pk :: pk in a <==> pk in Mine(a, tenant) || pk in Others(a, tenant);
    assert forall pk :: pk in b <==> pk in Mine(b, tenant) || pk in Others(b, tenant);
    forall pk | pk in a
      ensures pk in b && a[pk] == b[pk]
    {
      if pk in Mine(a, tenant) {
        assert Mine(a, tenant)[pk] == a[pk] && Mine(b, tenant)[pk] == b[pk];
      } else {
        assert Others(a, tenant)[pk] == a[pk] && Others(b, tenant)[pk] == b[pk];
      }
    }
  }
}
