/** Detection and repair of duplicate schema rows: rows of the schemas table
    that share (name, parent_id, parent_type), which a unique index on those
    columns would forbid. Repair keeps one schema per key, merges the
    datasets of the removed duplicates into it by name, and re-points every
    reference to a removed schema or dataset at its survivor. */
module DuplicateSchemaValidator {
  import opened Wrappers
  import opened Sequences

  /** A row of the schemas table. Soft-deleted rows are rows like any other:
      the key ignores the deletion mark, so it is not modelled. */
  datatype Schema = Schema(id: nat, name: string, parentId: nat, parentType: string)

  datatype SchemaKey = SchemaKey(name: string, parentId: nat, parentType: string)

  function Key(s: Schema): SchemaKey {
    SchemaKey(s.name, s.parentId, s.parentType)
  }

  /** A row of the datasets table (tables, views and chorus views alike). */
  datatype Dataset = Dataset(id: nat, name: string, schemaId: nat)

  /** Columns holding a schema id: a workfile's execution schema and a workspace's sandbox. */
  datatype SchemaRefKind = WorkfileExecutionSchema | WorkspaceSandbox

  datatype SchemaRef = SchemaRef(kind: SchemaRefKind, owner: nat, schemaId: nat)

  /** Columns holding a dataset id. */
  datatype DatasetRefKind =
    | ActivityEntity
    | EventTarget1
    | EventTarget2
    | WorkspaceBoundDataset
    | ImportScheduleSource
    | ImportSource

  datatype DatasetRef = DatasetRef(kind: DatasetRefKind, owner: nat, datasetId: nat)

  ghost predicate KeysDistinct(schemas: seq<Schema>) {
    forall i, j :: 0 <= i < j < |schemas| ==> Key(schemas[i]) != Key(schemas[j])
  }

  predicate HasKey(schemas: seq<Schema>, k: SchemaKey) {
    exists i :: 0 <= i < |schemas| && Key(schemas[i]) == k
  }

  predicate HasSchemaId(schemas: seq<Schema>, id: nat) {
    exists i :: 0 <= i < |schemas| && schemas[i].id == id
  }

  ghost predicate DatasetIdsDistinct(datasets: seq<Dataset>) {
    forall i, j :: 0 <= i < j < |datasets| ==> datasets[i].id != datasets[j].id
  }

  /** True when no two schemas share a key. */
  function NoDuplicates(schemas: seq<Schema>): (r: bool)
    ensures r <==> KeysDistinct(schemas)
  {
    if schemas == [] then true
    else !HasKey(schemas[1..], Key(schemas[0])) && NoDuplicates(schemas[1..])
  }

  /** `DuplicateSchemaValidator.run`: true when the unique index exists or
      no two schemas share a key. */
  function Check(uniqueIndex: bool, schemas: seq<Schema>): (ok: bool)
    ensures ok <==> uniqueIndex || KeysDistinct(schemas)
  {
    uniqueIndex || NoDuplicates(schemas)
  }

  /** The schemas kept by the repair: of each group sharing a key, the first in table order. */
  function Survivors(schemas: seq<Schema>): (r: seq<Schema>)
    ensures |r| <= |schemas|
  {
    if schemas == [] then []
    else
      var kept := Survivors(schemas[..|schemas| - 1]);
      var s := schemas[|schemas| - 1];
      if HasKey(kept, Key(s)) then kept else kept + [s]
  }

  /** The survivors are rows of the original table, no two share a key,
      and every key of the original table survives. */
  lemma {:induction false} SurvivorsSound(schemas: seq<Schema>)
    ensures KeysDistinct(Survivors(schemas))
    ensures forall i :: 0 <= i < |Survivors(schemas)| ==> Survivors(schemas)[i] in schemas
    ensures forall i :: 0 <= i < |schemas| ==> HasKey(Survivors(schemas), Key(schemas[i]))
  {
    if schemas != [] {
      var prefix := schemas[..|schemas| - 1];
      SurvivorsSound(prefix);
      var kept := Survivors(prefix);
      var s := schemas[|schemas| - 1];
      var r := Survivors(schemas);
      forall i | 0 <= i < |r| ensures r[i] in schemas {
        if i < |kept| {
          assert r[i] == kept[i] && kept[i] in prefix;
        }
      }
      forall i | 0 <= i < |schemas| ensures HasKey(r, Key(schemas[i])) {
        if i < |prefix| {
          assert schemas[i] == prefix[i];
          var j :| 0 <= j < |kept| && Key(kept[j]) == Key(prefix[i]);
          assert r[j] == kept[j];
        } else if !HasKey(kept, Key(s)) {
          assert r[|kept|] == s;
        }
      }
    }
  }

  /** Of each key, the survivor is the first row in table order with that key. */
  lemma {:induction false} SurvivorIsFirst(schemas: seq<Schema>, i: nat)
    requires i < |schemas|
    requires forall j :: 0 <= j < i ==> Key(schemas[j]) != Key(schemas[i])
    ensures schemas[i] in Survivors(schemas)
  {
    var prefix := schemas[..|schemas| - 1];
    var kept := Survivors(prefix);
    if i < |prefix| {
      assert forall j :: 0 <= j < i ==> prefix[j] == schemas[j];
      SurvivorIsFirst(prefix, i);
    } else {
      SurvivorsSound(prefix);
      assert Survivors(schemas) == kept + [schemas[i]];
    }
  }

  /** The first schema row with this id. */
  function IndexOfSchemaId(schemas: seq<Schema>, id: nat): (r: Option<nat>)
    ensures r.Some? ==> r.value < |schemas| && schemas[r.value].id == id
    ensures r.None? <==> !HasSchemaId(schemas, id)
  {
    FindFirst(schemas, (s: Schema) => s.id == id)
  }

  /** The first schema row with this key. */
  function IndexOfKey(schemas: seq<Schema>, k: SchemaKey): (r: Option<nat>)
    ensures r.Some? ==> r.value < |schemas| && Key(schemas[r.value]) == k
    ensures r.None? <==> !HasKey(schemas, k)
  {
    FindFirst(schemas, (s: Schema) => Key(s) == k)
  }

  /** The survivor of a schema id: the kept schema with the same key; ids
      not in the schemas table are left as they are. */
  function RedirectSchema(schemas: seq<Schema>, kept: seq<Schema>, id: nat): (r: nat)
    ensures !HasSchemaId(schemas, id) ==> r == id
    ensures r == id || HasSchemaId(kept, r)
  {
    match IndexOfSchemaId(schemas, id)
    case None => id
    case Some(i) =>
      match IndexOfKey(kept, Key(schemas[i]))
      case None => id
      case Some(j) => kept[j].id
  }

  ghost predicate SchemaIdsDistinct(schemas: seq<Schema>) {
    forall i, j :: 0 <= i < j < |schemas| ==> schemas[i].id != schemas[j].id
  }

  /** A reference to an existing schema is redirected to a surviving
      schema with the same key. */
  lemma RedirectSchemaSound(schemas: seq<Schema>, i: nat)
    requires i < |schemas|
    requires SchemaIdsDistinct(schemas)
    ensures exists j :: 0 <= j < |Survivors(schemas)| && Key(Survivors(schemas)[j]) == Key(schemas[i])
                        && Survivors(schemas)[j].id == RedirectSchema(schemas, Survivors(schemas), schemas[i].id)
  {
    var kept := Survivors(schemas);
    SurvivorsSound(schemas);
    var found := IndexOfSchemaId(schemas, schemas[i].id);
    assert found.Some?;
    assert found.value == i;
    var k := IndexOfKey(kept, Key(schemas[i]));
    assert k.Some?;
  }

  /** The state of the dataset merge: the datasets kept so far and, for
      every dataset seen, the id of the dataset that replaces it. */
  datatype Merge = Merge(kept: seq<Dataset>, replacement: map<nat, nat>)

  /** Position of the kept dataset named `name` in schema `schemaId`. */
  function FindDataset(kept: seq<Dataset>, schemaId: nat, name: string): (r: Option<nat>)
    ensures r.Some? ==> r.value < |kept| && kept[r.value].schemaId == schemaId && kept[r.value].name == name
    ensures r.None? ==> forall j :: 0 <= j < |kept| ==> kept[j].schemaId != schemaId || kept[j].name != name
  {
    FindFirst(kept, (e: Dataset) => e.schemaId == schemaId && e.name == name)
  }

  /** The dataset merge, in table order: a dataset moves to the survivor of
      its schema, unless the survivor already holds a dataset of that name,
      which then replaces it. */
  function MergeDatasets(schemas: seq<Schema>, kept: seq<Schema>, datasets: seq<Dataset>): (m: Merge)
    ensures |m.kept| <= |datasets|
    ensures m.replacement.Keys == DatasetIds(datasets)
  {
    if datasets == [] then Merge([], map[])
    else
      var m := MergeDatasets(schemas, kept, datasets[..|datasets| - 1]);
      var d := datasets[|datasets| - 1];
      var target := RedirectSchema(schemas, kept, d.schemaId);
      match FindDataset(m.kept, target, d.name)
      case Some(j) => Merge(m.kept, m.replacement[d.id := m.kept[j].id])
      case None => Merge(m.kept + [d.(schemaId := target)], m.replacement[d.id := d.id])
  }

  /** The ids of a table's rows. */
  function DatasetIds(datasets: seq<Dataset>): (ids: set<nat>)
    ensures forall i :: 0 <= i < |datasets| ==> datasets[i].id in ids
  {
    if datasets == [] then {} else DatasetIds(datasets[..|datasets| - 1]) + {datasets[|datasets| - 1].id}
  }

  ghost predicate NamesDistinctPerSchema(datasets: seq<Dataset>) {
    forall i, j :: 0 <= i < j < |datasets| ==>
      datasets[i].schemaId != datasets[j].schemaId || datasets[i].name != datasets[j].name
  }

  /** Same-named datasets of one schema collapse into one: no schema holds
      two kept datasets of one name. */
  lemma {:induction false} MergeNamesDistinct(schemas: seq<Schema>, kept: seq<Schema>, datasets: seq<Dataset>)
    ensures NamesDistinctPerSchema(MergeDatasets(schemas, kept, datasets).kept)
  {
    if datasets != [] {
      MergeNamesDistinct(schemas, kept, datasets[..|datasets| - 1]);
    }
  }

  /** `e` is one of the original datasets moved to the survivor of its schema. */
  ghost predicate IsMovedOriginal(schemas: seq<Schema>, kept: seq<Schema>, datasets: seq<Dataset>, e: Dataset) {
    exists i :: 0 <= i < |datasets| && e == datasets[i].(schemaId := RedirectSchema(schemas, kept, datasets[i].schemaId))
  }

  /** Every kept dataset is an original one, moved to the survivor of its schema. */
  lemma {:induction false} MergeKeepsOriginals(schemas: seq<Schema>, kept: seq<Schema>, datasets: seq<Dataset>)
    ensures forall j :: 0 <= j < |MergeDatasets(schemas, kept, datasets).kept| ==>
              IsMovedOriginal(schemas, kept, datasets, MergeDatasets(schemas, kept, datasets).kept[j])
  {
    if datasets != [] {
      var prefix := datasets[..|datasets| - 1];
      var m0 := MergeDatasets(schemas, kept, prefix);
      MergeKeepsOriginals(schemas, kept, prefix);
      var m := MergeDatasets(schemas, kept, datasets);
      forall j | 0 <= j < |m.kept| ensures IsMovedOriginal(schemas, kept, datasets, m.kept[j]) {
        if j < |m0.kept| {
          assert m.kept[j] == m0.kept[j];
          assert IsMovedOriginal(schemas, kept, prefix, m0.kept[j]);
          var i :| 0 <= i < |prefix| && m0.kept[j] == prefix[i].(schemaId := RedirectSchema(schemas, kept, prefix[i].schemaId));
          assert datasets[i] == prefix[i];
        } else {
          var last := |datasets| - 1;
          assert m.kept[j] == datasets[last].(schemaId := RedirectSchema(schemas, kept, datasets[last].schemaId));
        }
      }
    }
  }

  /** Kept dataset `j` replaces dataset `d`: same name, in the survivor of `d`'s schema. */
  ghost predicate Replaces(schemas: seq<Schema>, kept: seq<Schema>, m: Merge, j: int, d: Dataset) {
    0 <= j < |m.kept| && d.id in m.replacement && m.kept[j].id == m.replacement[d.id]
    && m.kept[j].name == d.name && m.kept[j].schemaId == RedirectSchema(schemas, kept, d.schemaId)
  }

  ghost predicate Replaced(schemas: seq<Schema>, kept: seq<Schema>, m: Merge, d: Dataset) {
    exists j :: Replaces(schemas, kept, m, j, d)
  }

  /** Every original dataset is replaced by a kept one of the same name in
      the survivor of its schema, and the replacement map covers exactly the
      original ids. */
  lemma {:induction false} MergeReplacementSound(schemas: seq<Schema>, kept: seq<Schema>, datasets: seq<Dataset>)
    requires DatasetIdsDistinct(datasets)
    ensures forall i :: 0 <= i < |datasets| ==> Replaced(schemas, kept, MergeDatasets(schemas, kept, datasets), datasets[i])
  {
    if datasets != [] {
      var prefix := datasets[..|datasets| - 1];
      MergeReplacementSound(schemas, kept, prefix);
      var m0 := MergeDatasets(schemas, kept, prefix);
      var m := MergeDatasets(schemas, kept, datasets);
      var d := datasets[|datasets| - 1];
      var target := RedirectSchema(schemas, kept, d.schemaId);
      forall i | 0 <= i < |datasets| ensures Replaced(schemas, kept, m, datasets[i]) {
        if i == |datasets| - 1 {
          match FindDataset(m0.kept, target, d.name)
          case Some(j) => assert Replaces(schemas, kept, m, j, d);
          case None => assert Replaces(schemas, kept, m, |m0.kept|, d);
        } else {
          assert datasets[i] == prefix[i];
          assert datasets[i].id != d.id;
          assert Replaced(schemas, kept, m0, prefix[i]);
          var j :| Replaces(schemas, kept, m0, j, prefix[i]);
          assert m.kept[j] == m0.kept[j];
          assert Replaces(schemas, kept, m, j, datasets[i]);
        }
      }
    }
  }

  /** Distinct kept datasets have distinct ids. */
  lemma {:induction false} MergeIdsDistinct(schemas: seq<Schema>, kept: seq<Schema>, datasets: seq<Dataset>)
    requires DatasetIdsDistinct(datasets)
    ensures DatasetIdsDistinct(MergeDatasets(schemas, kept, datasets).kept)
  {
    if datasets != [] {
      var prefix := datasets[..|datasets| - 1];
      MergeIdsDistinct(schemas, kept, prefix);
      MergeKeepsOriginals(schemas, kept, prefix);
      var m0 := MergeDatasets(schemas, kept, prefix);
      var d := datasets[|datasets| - 1];
      forall j | 0 <= j < |m0.kept| ensures m0.kept[j].id != d.id {
        assert IsMovedOriginal(schemas, kept, prefix, m0.kept[j]);
        var i :| 0 <= i < |prefix| && m0.kept[j] == prefix[i].(schemaId := RedirectSchema(schemas, kept, prefix[i].schemaId));
        assert prefix[i] == datasets[i];
      }
    }
  }

  /** The key of the schema row with this id, if there is one. */
  function SchemaKeyOf(schemas: seq<Schema>, id: nat): (k: Option<SchemaKey>)
    ensures k.Some? <==> HasSchemaId(schemas, id)
  {
    match IndexOfSchemaId(schemas, id)
    case None => None
    case Some(i) => Some(Key(schemas[i]))
  }

  lemma SchemaKeyOfRow(schemas: seq<Schema>, i: nat)
    requires i < |schemas| && SchemaIdsDistinct(schemas)
    ensures SchemaKeyOf(schemas, schemas[i].id) == Some(Key(schemas[i]))
  {
  }

  /** The survivors keep the distinct ids of the original rows. */
  lemma SurvivorIdsDistinct(schemas: seq<Schema>)
    requires SchemaIdsDistinct(schemas)
    ensures SchemaIdsDistinct(Survivors(schemas))
  {
    var kept := Survivors(schemas);
    SurvivorsSound(schemas);
    forall a, b | 0 <= a < b < |kept| ensures kept[a].id != kept[b].id {
      var p :| 0 <= p < |schemas| && schemas[p] == kept[a];
      var q :| 0 <= q < |schemas| && schemas[q] == kept[b];
      assert Key(kept[a]) != Key(kept[b]);
    }
  }

  /** A schema id a reference would hold after the repair: one that named a
      schema now names the survivor of that schema's key. */
  lemma RedirectKeepsKey(schemas: seq<Schema>, id: nat)
    requires SchemaIdsDistinct(schemas) && HasSchemaId(schemas, id)
    ensures SchemaKeyOf(Survivors(schemas), RedirectSchema(schemas, Survivors(schemas), id)) == SchemaKeyOf(schemas, id)
  {
    var kept := Survivors(schemas);
    var i :| 0 <= i < |schemas| && schemas[i].id == id;
    RedirectSchemaSound(schemas, i);
    SurvivorIdsDistinct(schemas);
    var j :| 0 <= j < |kept| && Key(kept[j]) == Key(schemas[i]) && kept[j].id == RedirectSchema(schemas, kept, id);
    SchemaKeyOfRow(kept, j);
    SchemaKeyOfRow(schemas, i);
  }

  /** Schema row `k` shares its key with no other row. */
  ghost predicate Unduplicated(schemas: seq<Schema>, k: nat) {
    k < |schemas| && forall j :: 0 <= j < |schemas| && j != k ==> Key(schemas[j]) != Key(schemas[k])
  }

  /** The survivor of a schema that has no duplicate is the schema itself,
      and no other schema id is redirected to it. */
  lemma RedirectToUnique(schemas: seq<Schema>, k: nat, id: nat)
    requires SchemaIdsDistinct(schemas) && Unduplicated(schemas, k)
    ensures RedirectSchema(schemas, Survivors(schemas), schemas[k].id) == schemas[k].id
    ensures RedirectSchema(schemas, Survivors(schemas), id) == schemas[k].id ==> id == schemas[k].id
  {
    var kept := Survivors(schemas);
    SurvivorsSound(schemas);
    RedirectSchemaSound(schemas, k);
    var j :| 0 <= j < |kept| && Key(kept[j]) == Key(schemas[k]) && kept[j].id == RedirectSchema(schemas, kept, schemas[k].id);
    var p :| 0 <= p < |schemas| && schemas[p] == kept[j];
    assert p == k;
    if HasSchemaId(schemas, id) && RedirectSchema(schemas, kept, id) == schemas[k].id {
      var i :| 0 <= i < |schemas| && schemas[i].id == id;
      RedirectSchemaSound(schemas, i);
      var q :| 0 <= q < |kept| && Key(kept[q]) == Key(schemas[i]) && kept[q].id == RedirectSchema(schemas, kept, id);
      SurvivorIdsDistinct(schemas);
      assert q == j;
      assert i == k;
    }
  }

  /** When no dataset of an unduplicated schema bears `name`, the merge keeps
      none of that name in it. */
  lemma NoNamesake(schemas: seq<Schema>, datasets: seq<Dataset>, k: nat, name: string)
    requires SchemaIdsDistinct(schemas) && Unduplicated(schemas, k)
    requires forall p :: 0 <= p < |datasets| && datasets[p].schemaId == schemas[k].id ==> datasets[p].name != name
    ensures forall j :: 0 <= j < |MergeDatasets(schemas, Survivors(schemas), datasets).kept| ==>
              MergeDatasets(schemas, Survivors(schemas), datasets).kept[j].schemaId != schemas[k].id
              || MergeDatasets(schemas, Survivors(schemas), datasets).kept[j].name != name
  {
    var kept := Survivors(schemas);
    var m := MergeDatasets(schemas, kept, datasets);
    MergeKeepsOriginals(schemas, kept, datasets);
    forall j | 0 <= j < |m.kept| ensures m.kept[j].schemaId != schemas[k].id || m.kept[j].name != name {
      assert IsMovedOriginal(schemas, kept, datasets, m.kept[j]);
      var p :| 0 <= p < |datasets| && m.kept[j] == datasets[p].(schemaId := RedirectSchema(schemas, kept, datasets[p].schemaId));
      RedirectToUnique(schemas, k, datasets[p].schemaId);
    }
  }

  /** The merge leaves the datasets of a schema without duplicates alone:
      each stays in its schema, under its own id, and replaces itself. */
  lemma {:induction false} MergeKeepsUnduplicated(schemas: seq<Schema>, datasets: seq<Dataset>, k: nat, i: nat)
    requires SchemaIdsDistinct(schemas) && DatasetIdsDistinct(datasets) && NamesDistinctPerSchema(datasets)
    requires Unduplicated(schemas, k) && i < |datasets| && datasets[i].schemaId == schemas[k].id
    ensures datasets[i] in MergeDatasets(schemas, Survivors(schemas), datasets).kept
    ensures MergeDatasets(schemas, Survivors(schemas), datasets).replacement[datasets[i].id] == datasets[i].id
  {
    var kept := Survivors(schemas);
    var prefix := datasets[..|datasets| - 1];
    var d := datasets[|datasets| - 1];
    if i == |datasets| - 1 {
      RedirectToUnique(schemas, k, d.schemaId);
      forall p | 0 <= p < |prefix| && prefix[p].schemaId == schemas[k].id ensures prefix[p].name != d.name {
        assert prefix[p] == datasets[p];
      }
      NoNamesake(schemas, prefix, k, d.name);
      assert FindDataset(MergeDatasets(schemas, kept, prefix).kept, d.schemaId, d.name).None?;
      assert d.(schemaId := d.schemaId) == d;
      assert MergeDatasets(schemas, kept, datasets).kept == MergeDatasets(schemas, kept, prefix).kept + [d];
    } else {
      assert prefix[i] == datasets[i];
      MergeKeepsUnduplicated(schemas, prefix, k, i);
      assert d.id != datasets[i].id;
    }
  }

  /** Re-points every schema reference at the survivor of its schema. */
  function RelinkSchemaRefs(schemas: seq<Schema>, kept: seq<Schema>, refs: seq<SchemaRef>): seq<SchemaRef> {
    seq(|refs|, i requires 0 <= i < |refs| => refs[i].(schemaId := RedirectSchema(schemas, kept, refs[i].schemaId)))
  }

  /** The dataset that replaces `id`; ids of no dataset are left as they are. */
  function ReplaceDataset(m: Merge, id: nat): nat {
    if id in m.replacement then m.replacement[id] else id
  }

  /** Re-points every dataset reference at the dataset that replaces it. */
  function RelinkDatasetRefs(m: Merge, refs: seq<DatasetRef>): seq<DatasetRef> {
    seq(|refs|, i requires 0 <= i < |refs| => refs[i].(datasetId := ReplaceDataset(m, refs[i].datasetId)))
  }

  /** The tables the repair reads and writes. */
  datatype Catalog = Catalog(
    uniqueIndex: bool,
    schemas: seq<Schema>,
    datasets: seq<Dataset>,
    schemaRefs: seq<SchemaRef>,
    datasetRefs: seq<DatasetRef>)

  /** The integrity the database itself keeps: distinct row ids, at most one
      dataset of each name in a schema, and distinct keys once the unique
      index exists. */
  ghost predicate WellFormed(c: Catalog) {
    && (c.uniqueIndex ==> KeysDistinct(c.schemas))
    && SchemaIdsDistinct(c.schemas)
    && DatasetIdsDistinct(c.datasets)
    && NamesDistinctPerSchema(c.datasets)
  }

  /** The catalog after removing duplicate schemas, merging their datasets
      and re-pointing every reference. */
  function Repaired(c: Catalog): (r: Catalog)
    ensures r.uniqueIndex == c.uniqueIndex
    ensures |r.schemas| <= |c.schemas| && |r.datasets| <= |c.datasets|
    ensures |r.schemaRefs| == |c.schemaRefs| && |r.datasetRefs| == |c.datasetRefs|
  {
    var kept := Survivors(c.schemas);
    var m := MergeDatasets(c.schemas, kept, c.datasets);
    Catalog(c.uniqueIndex, kept, m.kept,
            RelinkSchemaRefs(c.schemas, kept, c.schemaRefs), RelinkDatasetRefs(m, c.datasetRefs))
  }

  /** The dataset with this id has this name and lies in a schema of this key. */
  ghost predicate DatasetAt(c: Catalog, id: nat, name: string, k: Option<SchemaKey>) {
    exists j :: 0 <= j < |c.datasets| && c.datasets[j].id == id && c.datasets[j].name == name
                && SchemaKeyOf(c.schemas, c.datasets[j].schemaId) == k
  }

  /** What the repair guarantees: one schema per key and every key kept;
      well-formedness kept; every reference that named a schema names the
      survivor of the same key; every reference that named a dataset names a
      kept dataset of the same name whose schema has the same key as before;
      references and rows keep their number and their owners. */
  lemma {:induction false} RepairedSound(c: Catalog)
    requires WellFormed(c)
    ensures var r := Repaired(c);
            && WellFormed(r) && KeysDistinct(r.schemas)
            && (forall i :: 0 <= i < |c.schemas| ==> HasKey(r.schemas, Key(c.schemas[i])))
            && |r.schemaRefs| == |c.schemaRefs| && |r.datasetRefs| == |c.datasetRefs|
    ensures forall i :: 0 <= i < |c.schemaRefs| && HasSchemaId(c.schemas, c.schemaRefs[i].schemaId) ==>
              Repaired(c).schemaRefs[i].kind == c.schemaRefs[i].kind
              && Repaired(c).schemaRefs[i].owner == c.schemaRefs[i].owner
              && SchemaKeyOf(Repaired(c).schemas, Repaired(c).schemaRefs[i].schemaId) == SchemaKeyOf(c.schemas, c.schemaRefs[i].schemaId)
    ensures forall i, k :: 0 <= i < |c.datasetRefs| && 0 <= k < |c.datasets| && c.datasets[k].id == c.datasetRefs[i].datasetId
                           && HasSchemaId(c.schemas, c.datasets[k].schemaId) ==>
              Repaired(c).datasetRefs[i].kind == c.datasetRefs[i].kind
              && Repaired(c).datasetRefs[i].owner == c.datasetRefs[i].owner
              && DatasetAt(Repaired(c), Repaired(c).datasetRefs[i].datasetId, c.datasets[k].name,
                           SchemaKeyOf(c.schemas, c.datasets[k].schemaId))
  {
    var kept := Survivors(c.schemas);
    var m := MergeDatasets(c.schemas, kept, c.datasets);
    var r := Repaired(c);
    SurvivorsSound(c.schemas);
    SurvivorIdsDistinct(c.schemas);
    MergeIdsDistinct(c.schemas, kept, c.datasets);
    MergeReplacementSound(c.schemas, kept, c.datasets);
    MergeNamesDistinct(c.schemas, kept, c.datasets);
    forall i | 0 <= i < |c.schemaRefs| && HasSchemaId(c.schemas, c.schemaRefs[i].schemaId)
      ensures SchemaKeyOf(r.schemas, r.schemaRefs[i].schemaId) == SchemaKeyOf(c.schemas, c.schemaRefs[i].schemaId)
    {
      RedirectKeepsKey(c.schemas, c.schemaRefs[i].schemaId);
    }
    forall i, k | 0 <= i < |c.datasetRefs| && 0 <= k < |c.datasets| && c.datasets[k].id == c.datasetRefs[i].datasetId
                  && HasSchemaId(c.schemas, c.datasets[k].schemaId)
      ensures DatasetAt(r, r.datasetRefs[i].datasetId, c.datasets[k].name, SchemaKeyOf(c.schemas, c.datasets[k].schemaId))
    {
      var d := c.datasets[k];
      assert Replaced(c.schemas, kept, m, d);
      var j :| Replaces(c.schemas, kept, m, j, d);
      assert r.datasetRefs[i].datasetId == m.kept[j].id;
      RedirectKeepsKey(c.schemas, d.schemaId);
    }
  }

  /** Keeps the first schema of each key, in one pass over the table. */
  method KeepFirstPerKey(schemas: seq<Schema>) returns (kept: seq<Schema>)
    ensures kept == Survivors(schemas)
  {
    kept := [];
    var i := 0;
    while i < |schemas|
      invariant 0 <= i <= |schemas|
      invariant kept == Survivors(schemas[..i])
    {
      if !HasKey(kept, Key(schemas[i])) {
        kept := kept + [schemas[i]];
      }
      assert schemas[..i + 1][..i] == schemas[..i];
      i := i + 1;
    }
    assert schemas[..|schemas|] == schemas;
  }

  /** Moves or merges every dataset into the survivor of its schema, in one
      pass over the table. */
  method MoveDatasets(schemas: seq<Schema>, kept: seq<Schema>, datasets: seq<Dataset>) returns (merged: Merge)
    ensures merged == MergeDatasets(schemas, kept, datasets)
  {
    merged := Merge([], map[]);
    var n := 0;
    while n < |datasets|
      invariant 0 <= n <= |datasets|
      invariant merged == MergeDatasets(schemas, kept, datasets[..n])
    {
      var d := datasets[n];
      var target := RedirectSchema(schemas, kept, d.schemaId);
      match FindDataset(merged.kept, target, d.name) {
        case Some(j) =>
          merged := Merge(merged.kept, merged.replacement[d.id := merged.kept[j].id]);
        case None =>
          merged := Merge(merged.kept + [d.(schemaId := target)], merged.replacement[d.id := d.id]);
      }
      assert datasets[..n + 1][..n] == datasets[..n];
      n := n + 1;
    }
    assert datasets[..|datasets|] == datasets;
  }

  /** Re-points workfile execution schemas and workspace sandboxes. */
  method RepointSchemaRefs(schemas: seq<Schema>, kept: seq<Schema>, refs: seq<SchemaRef>) returns (r: seq<SchemaRef>)
    ensures r == RelinkSchemaRefs(schemas, kept, refs)
  {
    r := [];
    var k := 0;
    while k < |refs|
      invariant 0 <= k <= |refs|
      invariant |r| == k
      invariant forall t :: 0 <= t < k ==> r[t] == refs[t].(schemaId := RedirectSchema(schemas, kept, refs[t].schemaId))
    {
      r := r + [refs[k].(schemaId := RedirectSchema(schemas, kept, refs[k].schemaId))];
      k := k + 1;
    }
  }

  /** Re-points activities, event targets, bound datasets, import schedules and imports. */
  method RepointDatasetRefs(m: Merge, refs: seq<DatasetRef>) returns (r: seq<DatasetRef>)
    ensures r == RelinkDatasetRefs(m, refs)
  {
    r := [];
    var k := 0;
    while k < |refs|
      invariant 0 <= k <= |refs|
      invariant |r| == k
      invariant forall t :: 0 <= t < k ==> r[t] == refs[t].(datasetId := ReplaceDataset(m, refs[t].datasetId))
    {
      r := r + [refs[k].(datasetId := ReplaceDataset(m, refs[k].datasetId))];
      k := k + 1;
    }
  }

  /** The schemas table, the datasets table and the tables that refer to
      them, as `DuplicateSchemaValidator.run_and_fix` repairs them in place. */
  class SchemaCatalog {
    var uniqueIndex: bool
    var schemas: seq<Schema>
    var datasets: seq<Dataset>
    var schemaRefs: seq<SchemaRef>
    var datasetRefs: seq<DatasetRef>

    function State(): Catalog
      reads this
    {
      Catalog(uniqueIndex, schemas, datasets, schemaRefs, datasetRefs)
    }

    /** `DuplicateSchemaValidator.run_and_fix`: when the check fails, keeps
        the first schema of each key, merges the datasets of the others into
        it, re-points every reference, and answers true. */
    method RunAndFix() returns (ok: bool)
      requires WellFormed(State())
      modifies this
      ensures ok
      ensures WellFormed(State()) && KeysDistinct(schemas)
      ensures State() == if old(Check(uniqueIndex, schemas)) then old(State()) else Repaired(old(State()))
    {
      if Check(uniqueIndex, schemas) {
        return true;
      }
      ghost var before := State();
      var kept := KeepFirstPerKey(schemas);
      var merged := MoveDatasets(schemas, kept, datasets);
      var newSchemaRefs := RepointSchemaRefs(schemas, kept, schemaRefs);
      var newDatasetRefs := RepointDatasetRefs(merged, datasetRefs);
      schemas, datasets, schemaRefs, datasetRefs := kept, merged.kept, newSchemaRefs, newDatasetRefs;
      assert State() == Repaired(before);
      RepairedSound(before);
      ok := Check(uniqueIndex, schemas);
    }
  }
}
