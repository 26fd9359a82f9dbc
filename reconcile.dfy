/**
 * The schema reconciliation ("CUD operations") that version 0.2.4 of the
 * processing tool performs on its output layer once the input layer has been
 * processed: resolve the output path, create the missing target fields, copy
 * the target columns from the input rows keyed by OBJECTID, then delete every
 * user field outside the target schema. When the output does not exist it is
 * copied from the input instead.
 *
 * The output table is host state that the script changes in place, so it is a
 * class; `AddField`, `DeleteField` and the update cursor are its methods. The
 * input table is only read, so it is a value.
 */
module Reconcile {
  import opened Seqs
  import opened LayerProcessing

  // ------------------------------------------------------------------ output path

  /** `arcpy.env.workspace or <project>.defaultGeodatabase`: an unset workspace falls through. */
  function DefaultGdb(workspace: string, projectGdb: string): (g: string)
    ensures workspace != "" ==> g == workspace
    ensures workspace == "" ==> g == projectGdb
  {
    if workspace != "" then workspace else projectGdb
  }

  /** A bare layer name: no `/`, no `\` and no `.` anywhere in it. */
  predicate IsBareName(name: string)
  {
    '/' !in name && '\\' !in name && '.' !in name
  }

  /** The output path: a bare name is placed in the default geodatabase; anything else is used as given. */
  function ResolveOutputPath(outputLayer: string, defaultGdb: string): string
  {
    if IsBareName(outputLayer) then defaultGdb + "/" + outputLayer else outputLayer
  }

  /**
   * The resolved path always ends with the layer text; it is the text itself
   * exactly when the text already names a path, and otherwise it is the
   * geodatabase, a `/`, and the name.
   */
  lemma ResolveOutputPathSpec(outputLayer: string, defaultGdb: string)
    ensures var p := ResolveOutputPath(outputLayer, defaultGdb);
      && |outputLayer| <= |p|
      && p[|p| - |outputLayer|..] == outputLayer
      && (p == outputLayer <==> !IsBareName(outputLayer))
      && (IsBareName(outputLayer) ==>
            |p| == |defaultGdb| + 1 + |outputLayer| && p[..|defaultGdb|] == defaultGdb && p[|defaultGdb|] == '/')
  {
    var p := ResolveOutputPath(outputLayer, defaultGdb);
    if IsBareName(outputLayer) {
      assert p == (defaultGdb + "/") + outputLayer;
      assert p[|p| - |outputLayer|..] == outputLayer;
      assert p[..|defaultGdb|] == defaultGdb;
      assert |p| != |outputLayer|;
    }
  }

  // ------------------------------------------------------------------ tables

  /** A row: its OBJECTID and its cells by field name. */
  datatype Row = Row(oid: int, cells: map<string, Cell>)

  /** A table the script only reads: its field names and rows. */
  datatype Table = Table(fields: seq<string>, rows: seq<Row>)

  const SystemFields: seq<string> := ["OBJECTID", "Shape", "Shape_Area", "Shape_Length"]

  /** The sample subset of the import fields that this phase reconciles towards. */
  const TargetFields: seq<string> := ["srrtrealder", "srrtreslag", "srrbmo", "srrmhoyde"]

  /** The elements of a list as a set. */
  function Elems(names: seq<string>): set<string>
  {
    set n | n in names
  }

  /** Null cells for the given fields. */
  function NullCells(names: seq<string>): map<string, Cell>
  {
    map n | n in names :: NullCell
  }

  /** Every row with a null column for each of `names`, as `AddField` leaves them. */
  function AddedColumns(rows: seq<Row>, names: seq<string>): (r: seq<Row>)
    ensures |r| == |rows|
  {
    seq(|rows|, i requires 0 <= i < |rows| => rows[i].(cells := rows[i].cells + NullCells(names)))
  }

  /** Every row without the columns `names`, as `DeleteField` leaves them. */
  function DroppedColumns(rows: seq<Row>, names: seq<string>): (r: seq<Row>)
    ensures |r| == |rows|
  {
    seq(|rows|, i requires 0 <= i < |rows| => rows[i].(cells := rows[i].cells - Elems(names)))
  }

  lemma NullCellsSnoc(names: seq<string>, name: string)
    ensures NullCells(names) + NullCells([name]) == NullCells(names + [name])
  {
    assert (NullCells(names) + NullCells([name])).Keys == NullCells(names + [name]).Keys;
  }

  lemma AddedColumnsSnoc(rows: seq<Row>, names: seq<string>, name: string)
    ensures AddedColumns(AddedColumns(rows, names), [name]) == AddedColumns(rows, names + [name])
  {
    var a, b := AddedColumns(AddedColumns(rows, names), [name]), AddedColumns(rows, names + [name]);
    NullCellsSnoc(names, name);
    forall i | 0 <= i < |rows|
      ensures a[i] == b[i]
    {
      var c := rows[i].cells;
      assert a[i].cells == (c + NullCells(names)) + NullCells([name]);
      assert b[i].cells == c + (NullCells(names) + NullCells([name]));
    }
  }

  /** Adding no column changes no row. */
  lemma AddedNoColumns(rows: seq<Row>)
    ensures AddedColumns(rows, []) == rows
  {
    assert NullCells([]) == map[];
    forall i | 0 <= i < |rows|
      ensures AddedColumns(rows, [])[i] == rows[i]
    {
      assert rows[i].cells + map[] == rows[i].cells;
    }
  }

  /** Dropping no column changes no row. */
  lemma DroppedNoColumns(rows: seq<Row>)
    ensures DroppedColumns(rows, []) == rows
  {
    assert Elems([]) == {};
    forall i | 0 <= i < |rows|
      ensures DroppedColumns(rows, [])[i] == rows[i]
    {
      assert rows[i].cells - {} == rows[i].cells;
    }
  }

  lemma DroppedColumnsSnoc(rows: seq<Row>, names: seq<string>, name: string)
    ensures DroppedColumns(DroppedColumns(rows, names), [name]) == DroppedColumns(rows, names + [name])
  {
    var a, b := DroppedColumns(DroppedColumns(rows, names), [name]), DroppedColumns(rows, names + [name]);
    forall i | 0 <= i < |rows|
      ensures a[i] == b[i]
    {
      assert a[i].cells == b[i].cells;
    }
  }

  /** Dropping the fields of `names`, then `name`, is dropping the fields of `names + [name]`. */
  lemma {:induction false} DropMore(xs: seq<string>, names: seq<string>, name: string)
    ensures Filter(Filter(xs, Not(InList(names))), Not(InList([name]))) == Filter(xs, Not(InList(names + [name])))
  {
    if xs != [] {
      var init, last := xs[..|xs| - 1], xs[|xs| - 1];
      var p, q := Not(InList(names)), Not(InList([name]));
      DropMore(init, names, name);
      assert Not(InList(names + [name]))(last) == (p(last) && q(last));
      if p(last) {
        FilterSnoc(Filter(init, p), last, q);
      } else {
        assert Filter(xs, p) == Filter(init, p);
      }
    }
  }

  // ------------------------------------------------------------------ values keyed by OBJECTID

  /** `dict(zip(fields, row_values))`: the row's cells for `fields`, None values included. */
  function Project(row: Row, fields: seq<string>): (m: map<string, Cell>)
    ensures m.Keys <= Elems(fields)
    ensures forall f :: f in m ==> f in row.cells && m[f] == row.cells[f]
  {
    map f | f in fields && f in row.cells :: row.cells[f]
  }

  /** A row that has every requested field projects to exactly those fields. */
  lemma ProjectKeys(row: Row, fields: seq<string>)
    requires forall f :: f in fields ==> f in row.cells
    ensures Project(row, fields).Keys == Elems(fields)
  {
  }

  /** `input_data`: each input row's projection under its OBJECTID; a later row with the same OBJECTID wins. */
  function InputData(rows: seq<Row>, fields: seq<string>): map<int, map<string, Cell>>
  {
    if rows == [] then map[]
    else InputData(rows[..|rows| - 1], fields)[rows[|rows| - 1].oid := Project(rows[|rows| - 1], fields)]
  }

  /**
   * The keys are the OBJECTIDs of the rows, and each maps to the projection of
   * the last row carrying it.
   */
  lemma {:induction false} InputDataSpec(rows: seq<Row>, fields: seq<string>, oid: int)
    ensures oid in InputData(rows, fields) <==> exists i :: 0 <= i < |rows| && rows[i].oid == oid
    ensures oid in InputData(rows, fields) ==>
      exists i :: 0 <= i < |rows| && rows[i].oid == oid && InputData(rows, fields)[oid] == Project(rows[i], fields)
                  && forall j :: i < j < |rows| ==> rows[j].oid != oid
  {
    if rows != [] {
      var n := |rows|;
      var init := rows[..n - 1];
      InputDataSpec(init, fields, oid);
      if rows[n - 1].oid != oid && oid in InputData(rows, fields) {
        var i :| 0 <= i < |init| && init[i].oid == oid && InputData(init, fields)[oid] == Project(init[i], fields)
                 && forall j :: i < j < |init| ==> init[j].oid != oid;
        assert rows[i] == init[i];
        forall j | i < j < n
          ensures rows[j].oid != oid
        {
          if j < n - 1 {
            assert rows[j] == init[j];
          }
        }
      }
      if exists i :: 0 <= i < n && rows[i].oid == oid {
        var i :| 0 <= i < n && rows[i].oid == oid;
        if i < n - 1 {
          assert init[i] == rows[i];
        }
      }
      if exists i :: 0 <= i < |init| && init[i].oid == oid {
        var i :| 0 <= i < |init| && init[i].oid == oid;
        assert rows[i] == init[i];
      }
    }
  }

  /** Whether the update cursor finds the row's OBJECTID among the input data. */
  function Matched(data: map<int, map<string, Cell>>): Row -> bool
  {
    (row: Row) => row.oid in data
  }

  /** One pass of the update cursor over a row: a matched row takes the input values; any other is left alone. */
  function Rewrite(row: Row, data: map<int, map<string, Cell>>): Row
  {
    if row.oid in data then row.(cells := row.cells + data[row.oid]) else row
  }

  /**
   * A rewritten row keeps its OBJECTID; if it matched, every field the input
   * supplies now holds the input's value (None included) and every other cell
   * is as it was; if it did not match, nothing changed.
   */
  lemma RewriteSpec(row: Row, data: map<int, map<string, Cell>>)
    ensures Rewrite(row, data).oid == row.oid
    ensures row.oid !in data ==> Rewrite(row, data) == row
    ensures row.oid in data ==>
      && Rewrite(row, data).cells.Keys == row.cells.Keys + data[row.oid].Keys
      && (forall f :: f in data[row.oid] ==> Rewrite(row, data).cells[f] == data[row.oid][f])
      && (forall f :: f in row.cells && f !in data[row.oid] ==> Rewrite(row, data).cells[f] == row.cells[f])
  {
  }

  function Rewritten(rows: seq<Row>, data: map<int, map<string, Cell>>): (r: seq<Row>)
    ensures |r| == |rows|
  {
    seq(|rows|, i requires 0 <= i < |rows| => Rewrite(rows[i], data))
  }

  // ------------------------------------------------------------------ the reference schema

  /** `user_fields`: the existing fields other than the four system fields, compared exactly. */
  function UserFields(existing: seq<string>): seq<string>
  {
    Filter(existing, Not(InList(SystemFields)))
  }

  /** `fields_created`: the target fields absent from the existing ones, in target order. */
  function Missing(existing: seq<string>): seq<string>
  {
    Filter(TargetFields, Not(InList(existing)))
  }

  /** `fields_to_delete`: the user fields outside the target schema. */
  function ToDelete(existing: seq<string>): seq<string>
  {
    Filter(UserFields(existing), Not(InList(TargetFields)))
  }

  /** The fields actually deleted: those whose deletion does not raise. */
  function Removed(existing: seq<string>, deleteRaises: string -> bool): seq<string>
  {
    Filter(ToDelete(existing), Not(deleteRaises))
  }

  /** The output's fields after reconciliation. */
  function FinalFields(existing: seq<string>, deleteRaises: string -> bool): seq<string>
  {
    Filter(existing + Missing(existing), Not(InList(Removed(existing, deleteRaises))))
  }

  /** Whether a target field is in the output, either from the start or because it was created. */
  function Present(existing: seq<string>, created: seq<string>): string -> bool
  {
    f => f in existing || f in created
  }

  /** `all_target_fields` is every target field: each one existed or was just created. */
  lemma AllTargetsPresent(existing: seq<string>)
    ensures Filter(TargetFields, Present(existing, Missing(existing))) == TargetFields
  {
    forall i | 0 <= i < |TargetFields|
      ensures Present(existing, Missing(existing))(TargetFields[i])
    {
      FilterIn(TargetFields, Not(InList(existing)), TargetFields[i]);
    }
    FilterAll(TargetFields, Present(existing, Missing(existing)));
  }

  /** `available_source_fields`: the target fields that are data fields of the input. */
  function Available(allTarget: seq<string>, inputFields: seq<string>): seq<string>
  {
    Filter(allTarget, InList(Filter(inputFields, Not(InList(SystemFields)))))
  }

  lemma AvailableIn(allTarget: seq<string>, inputFields: seq<string>, f: string)
    ensures f in Available(allTarget, inputFields) <==> f in allTarget && f in inputFields && f !in SystemFields
  {
    FilterIn(inputFields, Not(InList(SystemFields)), f);
    FilterIn(allTarget, InList(Filter(inputFields, Not(InList(SystemFields)))), f);
  }

  /** No target field is a system field. */
  lemma TargetsAreUserFields(f: string)
    requires f in TargetFields
    ensures f !in SystemFields
  {
    assert f[0] == 's';
  }

  lemma MissingIn(existing: seq<string>, f: string)
    ensures f in Missing(existing) <==> f in TargetFields && f !in existing
  {
    FilterIn(TargetFields, Not(InList(existing)), f);
  }

  lemma ToDeleteIn(existing: seq<string>, f: string)
    ensures f in ToDelete(existing) <==> f in existing && f !in SystemFields && f !in TargetFields
  {
    FilterIn(UserFields(existing), Not(InList(TargetFields)), f);
    FilterIn(existing, Not(InList(SystemFields)), f);
  }

  lemma RemovedIn(existing: seq<string>, deleteRaises: string -> bool, f: string)
    ensures f in Removed(existing, deleteRaises) <==>
              f in existing && f !in SystemFields && f !in TargetFields && !deleteRaises(f)
  {
    FilterIn(ToDelete(existing), Not(deleteRaises), f);
    ToDeleteIn(existing, f);
  }

  /** A field is in the output afterwards exactly when it existed or was created, and was not deleted. */
  lemma FinalIn(existing: seq<string>, deleteRaises: string -> bool, f: string)
    ensures f in FinalFields(existing, deleteRaises) <==>
              (f in existing || f in Missing(existing)) && f !in Removed(existing, deleteRaises)
  {
    FilterIn(existing + Missing(existing), Not(InList(Removed(existing, deleteRaises))), f);
  }

  /** Reconciliation never deletes a system or target field. */
  lemma KeepsSystemAndTargets(existing: seq<string>, deleteRaises: string -> bool, f: string)
    requires f in existing && (f in SystemFields || f in TargetFields)
    ensures f in FinalFields(existing, deleteRaises)
  {
    FinalIn(existing, deleteRaises, f);
    RemovedIn(existing, deleteRaises, f);
  }

  /**
   * When no deletion raises, the non-system fields afterwards are exactly the
   * target fields.
   */
  lemma FinalSchema(existing: seq<string>, deleteRaises: string -> bool, f: string)
    requires forall g :: g in ToDelete(existing) ==> !deleteRaises(g)
    ensures f in UserFields(FinalFields(existing, deleteRaises)) <==> f in TargetFields
  {
    FilterIn(FinalFields(existing, deleteRaises), Not(InList(SystemFields)), f);
    FinalIn(existing, deleteRaises, f);
    RemovedIn(existing, deleteRaises, f);
    MissingIn(existing, f);
    if f in TargetFields {
      TargetsAreUserFields(f);
    }
    ToDeleteIn(existing, f);
    if f in ToDelete(existing) {
      assert !deleteRaises(f);
    }
  }

  // ------------------------------------------------------------------ the output table

  /** The output feature class, which the script changes in place through the host. */
  class OutputTable {
    var fields: seq<string>
    var rows: seq<Row>

    constructor (fields: seq<string>, rows: seq<Row>)
      ensures this.fields == fields && this.rows == rows
    {
      this.fields := fields;
      this.rows := rows;
    }

    /** `AddField_management`: a new field, null in every row. */
    method AddField(name: string)
      modifies this
      ensures fields == old(fields) + [name]
      ensures rows == AddedColumns(old(rows), [name])
    {
      fields := fields + [name];
      rows := AddedColumns(rows, [name]);
    }

    /** `DeleteField_management` that succeeds: the field leaves the schema and every row. */
    method DeleteField(name: string)
      modifies this
      ensures fields == Filter(old(fields), Not(InList([name])))
      ensures rows == DroppedColumns(old(rows), [name])
    {
      fields := Filter(fields, Not(InList([name])));
      rows := DroppedColumns(rows, [name]);
    }

    /** The update cursor loop: each row whose OBJECTID has input data is rewritten and counted. */
    method UpdateRows(data: map<int, map<string, Cell>>) returns (updated: nat)
      modifies this
      ensures fields == old(fields)
      ensures rows == Rewritten(old(rows), data)
      ensures updated == |Filter(old(rows), Matched(data))|
    {
      ghost var rows0 := rows;
      updated := 0;
      var i := 0;
      while i < |rows|
        invariant 0 <= i <= |rows| && |rows| == |rows0| && fields == old(fields)
        invariant rows[..i] == Rewritten(rows0[..i], data)
        invariant forall k :: i <= k < |rows| ==> rows[k] == rows0[k]
        invariant updated == |Filter(rows0[..i], Matched(data))|
      {
        assert rows0[..i + 1] == rows0[..i] + [rows0[i]];
        FilterSnoc(rows0[..i], rows0[i], Matched(data));
        var row := rows[i];
        assert row == rows0[i];
        if row.oid in data {
          rows := rows[i := row.(cells := row.cells + data[row.oid])];
          updated := updated + 1;
        }
        assert rows[i] == Rewrite(rows0[i], data);
        assert rows[..i + 1] == rows[..i] + [rows[i]];
        assert rows[..i + 1] == Rewritten(rows0[..i + 1], data);
        i := i + 1;
      }
      assert rows0[..i] == rows0;
    }
  }

  /** The create loop: every target field the output lacks is added, in target order. */
  method CreateFields(out: OutputTable) returns (created: seq<string>)
    modifies out
    ensures created == Missing(old(out.fields))
    ensures out.fields == old(out.fields) + created
    ensures out.rows == AddedColumns(old(out.rows), created)
  {
    var existing := out.fields;
    ghost var rows0 := out.rows;
    created := [];
    var k := 0;
    AddedNoColumns(rows0);
    while k < |TargetFields|
      invariant 0 <= k <= |TargetFields|
      invariant created == Filter(TargetFields[..k], Not(InList(existing)))
      invariant out.fields == existing + created
      invariant out.rows == AddedColumns(rows0, created)
    {
      var field := TargetFields[k];
      assert TargetFields[..k + 1] == TargetFields[..k] + [field];
      FilterSnoc(TargetFields[..k], field, Not(InList(existing)));
      if field !in existing {
        AddedColumnsSnoc(rows0, created, field);
        out.AddField(field);
        created := created + [field];
      }
      k := k + 1;
    }
    assert TargetFields[..k] == TargetFields;
  }

  /** The search cursor loop that fills `input_data`. */
  method ReadInputData(rows: seq<Row>, fields: seq<string>) returns (data: map<int, map<string, Cell>>)
    ensures data == InputData(rows, fields)
  {
    data := map[];
    var i := 0;
    while i < |rows|
      invariant 0 <= i <= |rows|
      invariant data == InputData(rows[..i], fields)
    {
      assert rows[..i + 1][..i] == rows[..i];
      data := data[rows[i].oid := Project(rows[i], fields)];
      i := i + 1;
    }
    assert rows[..i] == rows;
  }

  /**
   * The update step: the target fields that are also input data fields are
   * copied from the input rows with the same OBJECTID; with no such field,
   * nothing is read or written.
   */
  method TransferValues(out: OutputTable, input: Table, allTarget: seq<string>) returns (updated: nat)
    modifies out
    ensures out.fields == old(out.fields)
    ensures var available := Available(allTarget, input.fields);
      && (available == [] ==> updated == 0 && out.rows == old(out.rows))
      && (available != [] ==>
            var data := InputData(input.rows, available);
            out.rows == Rewritten(old(out.rows), data) && updated == |Filter(old(out.rows), Matched(data))|)
  {
    var inputDataFields := Filter(input.fields, Not(InList(SystemFields)));
    var available := Filter(allTarget, InList(inputDataFields));
    updated := 0;
    if available != [] {
      var data := ReadInputData(input.rows, available);
      updated := out.UpdateRows(data);
    }
  }

  /** The delete loop: a deletion that raises is only reported, and the loop goes on. */
  method DeleteFields(out: OutputTable, toDelete: seq<string>, deleteRaises: string -> bool)
    returns (deleted: nat, undeletable: seq<string>)
    modifies out
    ensures deleted == |Filter(toDelete, Not(deleteRaises))|
    ensures undeletable == Filter(toDelete, deleteRaises)
    ensures out.fields == Filter(old(out.fields), Not(InList(Filter(toDelete, Not(deleteRaises)))))
    ensures out.rows == DroppedColumns(old(out.rows), Filter(toDelete, Not(deleteRaises)))
  {
    ghost var fields0, rows0 := out.fields, out.rows;
    ghost var removed: seq<string> := [];
    deleted, undeletable := 0, [];
    FilterAll(fields0, Not(InList(removed)));
    DroppedNoColumns(rows0);
    var k := 0;
    while k < |toDelete|
      invariant 0 <= k <= |toDelete|
      invariant removed == Filter(toDelete[..k], Not(deleteRaises))
      invariant deleted == |removed|
      invariant undeletable == Filter(toDelete[..k], deleteRaises)
      invariant out.fields == Filter(fields0, Not(InList(removed)))
      invariant out.rows == DroppedColumns(rows0, removed)
    {
      var field := toDelete[k];
      assert toDelete[..k + 1] == toDelete[..k] + [field];
      FilterSnoc(toDelete[..k], field, Not(deleteRaises));
      FilterSnoc(toDelete[..k], field, deleteRaises);
      if deleteRaises(field) {
        undeletable := undeletable + [field];
      } else {
        DropMore(fields0, removed, field);
        DroppedColumnsSnoc(rows0, removed, field);
        out.DeleteField(field);
        removed := removed + [field];
        deleted := deleted + 1;
      }
      k := k + 1;
    }
    assert toDelete[..k] == toDelete;
  }

  /**
   * The reconciliation of an existing output: create, update, delete. The
   * counts are those the completion message reports.
   */
  method ReconcileOutput(out: OutputTable, input: Table, deleteRaises: string -> bool)
    returns (created: seq<string>, updated: nat, deleted: nat, undeletable: seq<string>)
    modifies out
    ensures created == Missing(old(out.fields))
    ensures deleted == |Removed(old(out.fields), deleteRaises)| <= |ToDelete(old(out.fields))|
    ensures undeletable == Filter(ToDelete(old(out.fields)), deleteRaises)
    ensures out.fields == FinalFields(old(out.fields), deleteRaises)
    ensures RowsReconciled(old(out.fields), old(out.rows), input, deleteRaises, updated, out.rows)
  {
    var existing := out.fields;
    var userFields := Filter(existing, Not(InList(SystemFields)));
    created := CreateFields(out);
    var allTarget := Filter(TargetFields, Present(existing, created));
    AllTargetsPresent(existing);
    updated := 0;
    if allTarget != [] {
      updated := TransferValues(out, input, allTarget);
    }
    var toDelete := Filter(userFields, Not(InList(TargetFields)));
    deleted, undeletable := DeleteFields(out, toDelete, deleteRaises);
    FilterPartition(toDelete, deleteRaises);
    assert Filter(toDelete, Not(Not(deleteRaises))) == Filter(toDelete, deleteRaises) by {
      FilterSame(toDelete, Not(Not(deleteRaises)), deleteRaises);
    }
  }

  /**
   * The rows after reconciliation and the count of updated rows: the created
   * columns are added, the transferable values of matching input rows are
   * written (nothing is written when no target field is transferable), and the
   * removed columns are dropped.
   */
  predicate RowsReconciled(fields: seq<string>, rows: seq<Row>, input: Table, deleteRaises: string -> bool,
                           updated: nat, rows': seq<Row>)
  {
    var data := InputData(input.rows, Available(TargetFields, input.fields));
    var added := AddedColumns(rows, Missing(fields));
    && (Available(TargetFields, input.fields) == [] ==>
          updated == 0 && rows' == DroppedColumns(added, Removed(fields, deleteRaises)))
    && (Available(TargetFields, input.fields) != [] ==>
          updated == |Filter(added, Matched(data))|
          && rows' == DroppedColumns(Rewritten(added, data), Removed(fields, deleteRaises)))
  }

  /** What the output step did. */
  datatype Phase2Output =
    | Copied
    | Reconciled(created: seq<string>, updated: nat, deleted: nat, undeletable: seq<string>)

  /**
   * The output step after a successful processing run: resolve the path; an
   * output that exists is reconciled, one that does not is copied from the
   * input.
   */
  method WriteOutput(outputLayer: string, workspace: string, projectGdb: string, outputExists: string -> bool,
                     out: OutputTable, input: Table, deleteRaises: string -> bool)
    returns (outputPath: string, r: Phase2Output)
    modifies out
    ensures outputPath == ResolveOutputPath(outputLayer, DefaultGdb(workspace, projectGdb))
    ensures r.Copied? <==> !outputExists(outputPath)
    ensures r.Copied? ==> out.fields == input.fields && out.rows == input.rows
    ensures r.Reconciled? ==>
      && r.created == Missing(old(out.fields))
      && out.fields == FinalFields(old(out.fields), deleteRaises)
      && r.deleted == |Removed(old(out.fields), deleteRaises)|
      && r.undeletable == Filter(ToDelete(old(out.fields)), deleteRaises)
      && RowsReconciled(old(out.fields), old(out.rows), input, deleteRaises, r.updated, out.rows)
  {
    if IsBareName(outputLayer) {
      var defaultGdb := DefaultGdb(workspace, projectGdb);
      outputPath := defaultGdb + "/" + outputLayer;
    } else {
      outputPath := outputLayer;
    }
    if outputExists(outputPath) {
      var created, updated, deleted, undeletable := ReconcileOutput(out, input, deleteRaises);
      r := Reconciled(created, updated, deleted, undeletable);
    } else {
      out.fields, out.rows := input.fields, input.rows;
      r := Copied;
    }
  }
}
