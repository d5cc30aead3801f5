/**
 What a packed value decodes to: the exact condition under which compaction
 loses nothing, and the size guarantee.
 */
module Lossless {
  import opened Json
  import opened Wrappers
  import opened Compaction

  /** Decoding w gives back v, as maps and sequences. */
  ghost predicate Kept(w: Json, v: Json) {
    Expand(w).Some? && Mean(Expand(w).value) == Mean(v)
  }

  /** The exact domain of losslessness, read off the encoder's own guards. No dict
      may look like a table, except the rows of a list that becomes a table; such a
      list may hold no row that was itself a list, and the entries its rows share
      may not look like a table. */
  predicate Safe(v: Json)
    decreases v
  {
    match v
    case Obj(fields) => !LooksLikeTable(fields) && forall i | 0 <= i < |fields| :: Safe(fields[i].value)
    case Arr(items) =>
      var records := PackAll(items);
      if BecomesTable(records) then
        && (forall i | 0 <= i < |items| :: items[i].Obj? && SafeEntries(items[i].fields))
        && !LooksLikeTable(Shared(records))
      else
        forall i | 0 <= i < |items| :: Safe(items[i])
    case _ => true
  }

  predicate SafeEntries(fields: seq<Field>)
    decreases fields
  {
    forall j | 0 <= j < |fields| :: Safe(fields[j].value)
  }

  // ---- Lists and plain dicts ----

  lemma ListKept(ws: seq<Json>, vs: seq<Json>)
    requires |ws| == |vs|
    ensures Kept(Arr(ws), Arr(vs)) <==> forall i | 0 <= i < |vs| :: Kept(ws[i], vs[i])
  {
    var r := ExpandAll(ws);
    if r.Some? {
      assert MeanAll(r.value) == MeanAll(vs) <==> forall i | 0 <= i < |vs| :: MeanAll(r.value)[i] == MeanAll(vs)[i];
    }
  }

  lemma MeanFieldsAt(fields: seq<Field>, i: nat)
    requires DistinctKeys(fields) && i < |fields|
    ensures HasKey(fields, fields[i].key) && IndexOf(fields, fields[i].key) == i
    ensures fields[i].key in MeanFields(fields) && MeanFields(fields)[fields[i].key] == Mean(fields[i].value)
  {
    MeanEntry(fields, fields[i].key);
  }

  lemma FreshUpdateEqual<V>(m: map<string, V>, n: map<string, V>, k: string, x: V, y: V)
    requires k !in m && k !in n
    ensures m[k := x] == n[k := y] <==> m == n && x == y
  {
    var m', n' := m[k := x], n[k := y];
    assert m == m' - {k} && n == n' - {k};
    if m' == n' {
      assert m'[k] == n'[k];
    }
  }

  lemma {:induction false} MeanFieldsEqual(a: seq<Field>, b: seq<Field>)
    requires |a| == |b| && DistinctKeys(a) && forall i | 0 <= i < |b| :: a[i].key == b[i].key
    ensures MeanFields(a) == MeanFields(b) <==> forall i | 0 <= i < |b| :: Mean(a[i].value) == Mean(b[i].value)
  {
    if a != [] {
      var n := |a| - 1;
      MeanFieldsEqual(a[..n], b[..n]);
      NewKey(a);
      NewKey(b);
      MeanEntry(a[..n], a[n].key);
      MeanEntry(b[..n], a[n].key);
      hide *;
      FreshUpdateEqual(MeanFields(a[..n]), MeanFields(b[..n]), a[n].key, Mean(a[n].value), Mean(b[n].value));
      assert (forall i | 0 <= i < n + 1 :: Mean(a[i].value) == Mean(b[i].value)) <==>
             (forall i | 0 <= i < n :: Mean(a[..n][i].value) == Mean(b[..n][i].value)) && Mean(a[n].value) == Mean(b[n].value);
    }
  }

  /** The last entry's key is new, and its meaning is put beside the others'. */
  lemma NewKey(fields: seq<Field>)
    requires fields != [] && DistinctKeys(fields)
    ensures !HasKey(fields[..|fields| - 1], fields[|fields| - 1].key)
    ensures var last := fields[|fields| - 1];
            MeanFields(fields) == MeanFields(fields[..|fields| - 1])[last.key := Mean(last.value)]
  {
    hide Mean;
  }

  lemma DictKept(ws: seq<Field>, vs: seq<Field>)
    requires |ws| == |vs| && (forall i | 0 <= i < |vs| :: ws[i].key == vs[i].key)
    requires DistinctKeys(vs) && !LooksLikeTable(ws)
    ensures Kept(Obj(ws), Obj(vs)) <==> forall i | 0 <= i < |vs| :: Kept(ws[i].value, vs[i].value)
  {
    hide MeanFields, DistinctKeys, LooksLikeTable;
    var r := ExpandFields(ws);
    if r.Some? {
      MeanFieldsEqual(vs, r.value);
      assert forall i | 0 <= i < |vs| :: Kept(ws[i].value, vs[i].value) <==> Mean(r.value[i].value) == Mean(vs[i].value);
    }
  }

  lemma TableLikeBecomesList(fields: seq<Field>)
    requires LooksLikeTable(fields)
    ensures Expand(Obj(fields)).Some? ==> Expand(Obj(fields)).value.Arr?
  {
  }

  lemma LookalikeLost(ws: seq<Field>, vs: seq<Field>)
    requires LooksLikeTable(ws)
    ensures !Kept(Obj(ws), Obj(vs))
  {
    TableLikeBecomesList(ws);
  }

  // ---- The columns of a table ----

  lemma AppendGet(fields: seq<Field>, f: Field, k: string)
    ensures HasKey(fields + [f], k) <==> HasKey(fields, k) || f.key == k
    ensures HasKey(fields + [f], k) ==> Get(fields + [f], k) == if f.key == k then f.value else Get(fields, k)
  {
    var r := fields + [f];
    assert r[|fields|] == f;
    if HasKey(fields, k) {
      assert r[IndexOf(fields, k)].key == k;
    }
  }

  lemma {:induction false} PickGet(fields: seq<Field>, keys: set<string>, k: string)
    ensures HasKey(Pick(fields, keys), k) <==> HasKey(fields, k) && k in keys
    ensures HasKey(Pick(fields, keys), k) ==> Get(Pick(fields, keys), k) == Get(fields, k)
  {
    if fields != [] {
      var rest, f := fields[..|fields| - 1], fields[|fields| - 1];
      PickGet(rest, keys, k);
      AppendGet(Pick(rest, keys), f, k);
      AppendGet(rest, f, k);
      assert fields == rest + [f];
      assert Pick(rest, keys) + [] == Pick(rest, keys);
    }
  }

  lemma {:induction false} OthersDistinct(fields: seq<Field>, keys: set<string>)
    requires DistinctKeys(fields)
    ensures Distinct(Others(fields, keys))
  {
    if fields != [] {
      var rest, f := fields[..|fields| - 1], fields[|fields| - 1];
      OthersDistinct(rest, keys);
      OthersAreKeys(rest, keys, f.key);
    }
  }

  predicate Distinct(names: seq<string>) {
    forall i, j | 0 <= i < j < |names| :: names[i] != names[j]
  }

  lemma PutGet(fields: seq<Field>, key: string, value: Json, k: string)
    ensures HasKey(Put(fields, key, value), k) <==> HasKey(fields, k) || k == key
    ensures HasKey(Put(fields, key, value), k) ==>
              Get(Put(fields, key, value), k) == if k == key then value else Get(fields, k)
  {
    var r := Put(fields, key, value);
    if HasKey(fields, key) {
      assert r[IndexOf(fields, key)].key == key;
      assert forall i | 0 <= i < |fields| :: r[i].key == fields[i].key;
      if HasKey(fields, k) {
        assert r[IndexOf(fields, k)].key == k;
      }
    } else {
      assert r[|fields|].key == key;
      if HasKey(fields, k) {
        assert r[IndexOf(fields, k)].key == k;
      }
    }
  }

  lemma {:induction false} MergeGet(common: seq<Field>, names: seq<string>, cells: seq<Json>, k: string)
    requires |names| == |cells| && Distinct(names)
    ensures HasKey(Merge(common, names, cells), k) <==> HasKey(common, k) || k in names
    ensures k !in names && HasKey(common, k) ==> Get(Merge(common, names, cells), k) == Get(common, k)
    ensures forall j | 0 <= j < |names| && names[j] == k :: Get(Merge(common, names, cells), k) == cells[j]
  {
    if names != [] {
      var n := |names| - 1;
      MergeGet(common, names[..n], cells[..n], k);
      PutGet(Merge(common, names[..n], cells[..n]), names[n], cells[n], k);
      assert names == names[..n] + [names[n]];
    }
  }

  // ---- What a table decodes to ----

  /** One row of the original list, entry by entry expanded. */
  ghost predicate RowOf(row: Json, record: Json)
    requires record.Obj?
  {
    && row.Obj?
    && (forall k :: HasKey(row.fields, k) <==> HasKey(record.fields, k))
    && (forall k | HasKey(record.fields, k) :: Expand(Get(record.fields, k)) == Some(Get(row.fields, k)))
  }

  ghost predicate AllExpand(fields: seq<Field>) {
    forall k | HasKey(fields, k) :: Expand(Get(fields, k)).Some?
  }

  lemma {:induction false} ConstantColumn(records: seq<Json>, i: nat, k: string)
    requires Tabular(records) && i < |records| && HasKey(records[0].fields, k) && Constant(records, k)
    ensures HasKey(records[i].fields, k) && Get(records[i].fields, k) == Get(records[0].fields, k)
  {
    if i > 0 {
      PrintInjective(Get(records[i].fields, k), Get(records[0].fields, k));
    }
  }

  lemma TableParts(columns: Json, rows: Json, shared: seq<Field>)
    ensures var t := TableEntries(columns, rows, shared);
            && LooksLikeTable(t)
            && Get(t, "columns") == columns
            && t[IndexOf(t, "rows")].value == rows
            && (HasKey(t, "shared") <==> shared != [])
            && (shared != [] ==> t[IndexOf(t, "shared")].value == Obj(shared))
  {
    var t := TableEntries(columns, rows, shared);
    assert t[0].key == "format" && t[1].key == "columns" && t[2].key == "rows";
    assert |t| == 4 ==> t[3].key == "shared";
    assert "format"[0] == 'f' && "columns"[0] == 'c' && "rows"[0] == 'r' && "shared"[0] == 's';
  }

  lemma ColumnNamesOfStrings(names: seq<string>)
    ensures ColumnNames(Arr(Strings(names))) == Some(names)
  {
    assert ColumnNames(Arr(Strings(names))).value == names;
  }

  /** The decoder's two inputs, when the table is the encoder's. */
  lemma EntriesExpand(names: seq<string>, rows: seq<Json>, shared: seq<Field>)
    requires rows != []
    ensures Expand(Obj(TableEntries(Arr(Strings(names)), Arr(rows), shared))) ==
            match (Expand(Obj(shared)), CellsOfAll(rows))
            case (Some(Obj(common)), Some(cells)) => Assemble(common, Some(names), cells)
            case _ => None
  {
    var columns := Arr(Strings(names));
    var t := TableEntries(columns, Arr(rows), shared);
    TableParts(columns, Arr(rows), shared);
    ColumnNamesOfStrings(names);
    assert Expand(Obj([])) == Some(Obj([])) by {
      assert ExpandFields([]) == Some([]);
    }
    assert RowCells(Arr(rows)) == CellsOfAll(rows);
    hide TableEntries, LooksLikeTable, Assemble, CellsOfAll, ExpandFields, Strings;
    var s := if HasKey(t, "shared") then Expand(t[IndexOf(t, "shared")].value) else Some(Obj([]));
    assert s == Expand(Obj(shared));
  }

  lemma RowCellsExpand(records: seq<Json>, i: nat)
    requires Tabular(records) && i < |records| && DistinctKeys(records[0].fields)
    ensures CellsOf(Row(records, i)).Some? <==>
            forall k | HasKey(records[i].fields, k) && k !in ConstantKeys(records) :: Expand(Get(records[i].fields, k)).Some?
  {
    VaryingAreColumns(records, i);
    var fields, names := records[i].fields, Varying(records);
    CellsExpand(fields, names);
    hide HasKey, Get, Expand, SameKeys, Others, ConstantKeys;
    forall k ensures HasKey(fields, k) && k !in ConstantKeys(records) <==> k in names {
      SameColumns(records, i, k);
      OthersAreKeys(records[0].fields, ConstantKeys(records), k);
    }
  }

  lemma CellsExpand(fields: seq<Field>, names: seq<string>)
    requires HasAll(fields, names)
    ensures CellsOf(Arr(Cells(fields, names))).Some? <==>
            forall k | k in names :: HasKey(fields, k) && Expand(Get(fields, k)).Some?
  {
    hide HasKey, Get;
    var cells := Cells(fields, names);
    assert forall j | 0 <= j < |names| :: cells[j] == Get(fields, names[j]);
  }

  lemma ExpandedEntry(fields: seq<Field>, common: seq<Field>, k: string)
    requires ExpandFields(fields) == Some(common)
    ensures HasKey(common, k) <==> HasKey(fields, k)
    ensures HasKey(fields, k) ==> Expand(Get(fields, k)) == Some(Get(common, k))
  {
    ExpandedKeys(fields, common);
    hide ExpandFields, Expand;
    SameIndex(fields, common, k);
  }

  lemma ExpandedKeys(fields: seq<Field>, common: seq<Field>)
    requires ExpandFields(fields) == Some(common)
    ensures |common| == |fields|
    ensures forall i | 0 <= i < |fields| :: common[i].key == fields[i].key && Expand(fields[i].value) == Some(common[i].value)
  {
  }

  /** Fields with the same keys hold each key in the same place. */
  lemma {:induction false} SameIndex(a: seq<Field>, b: seq<Field>, k: string)
    requires |a| == |b| && forall i | 0 <= i < |a| :: a[i].key == b[i].key
    ensures HasKey(a, k) <==> HasKey(b, k)
    ensures HasKey(a, k) ==> IndexOf(a, k) == IndexOf(b, k)
  {
    if i :| 0 <= i < |a| && a[i].key == k {
      assert b[i].key == k;
    }
    if i :| 0 <= i < |b| && b[i].key == k {
      assert a[i].key == k;
    }
  }

  /** A decoded row has exactly the record's entries, each expanded. */
  lemma RowDecoded(records: seq<Json>, i: nat, common: seq<Field>, cells: seq<Json>)
    requires Tabular(records) && i < |records| && DistinctKeys(records[0].fields)
    requires ExpandFields(Shared(records)) == Some(common)
    requires CellsOf(Row(records, i)) == Some(cells)
    ensures |cells| == |Varying(records)|
    ensures RowOf(Obj(Merge(common, Varying(records), cells)), records[i])
  {
    var names, keys, columns := Varying(records), ConstantKeys(records), records[0].fields;
    VaryingAreColumns(records, i);
    OthersDistinct(columns, keys);
    var row := Merge(common, names, cells);
    forall k
      ensures HasKey(row, k) <==> HasKey(records[i].fields, k)
      ensures HasKey(records[i].fields, k) ==> Expand(Get(records[i].fields, k)) == Some(Get(row, k))
    {
      MergeGet(common, names, cells, k);
      ExpandedEntry(Shared(records), common, k);
      PickGet(columns, keys, k);
      OthersAreKeys(columns, keys, k);
      assert HasKey(columns, k) <==> HasKey(records[i].fields, k);
      if k in keys {
        ConstantColumn(records, i, k);
      }
    }
  }

  /** The encoder's table decodes exactly when its shared entries do and every entry of every record does. */
  lemma {:induction false} TableDecodes(records: seq<Json>)
    requires Tabular(records) && DistinctKeys(records[0].fields)
    ensures Expand(Table(records)).Some? <==>
            !LooksLikeTable(Shared(records)) && forall i | 0 <= i < |records| :: AllExpand(records[i].fields)
    ensures Expand(Table(records)).Some? ==>
              var rows := Expand(Table(records)).value;
              rows.Arr? && |rows.items| == |records| && forall i | 0 <= i < |records| :: RowOf(rows.items[i], records[i])
  {
    var shared, keys := Shared(records), ConstantKeys(records);
    EntriesExpand(Varying(records), Rows(records), shared);
    forall i | 0 <= i < |records| ensures CellsOf(Rows(records)[i]).Some? <==> forall k | HasKey(records[i].fields, k) && k !in keys :: Expand(Get(records[i].fields, k)).Some? {
      RowCellsExpand(records, i);
    }
    if LooksLikeTable(shared) {
      TableLikeBecomesList(shared);
    } else {
      SharedExpands(records);
      hide Table, Merge, Varying, Shared;
      if ExpandFields(shared).Some? && CellsOfAll(Rows(records)).Some? {
        var common, cells := ExpandFields(shared).value, CellsOfAll(Rows(records)).value;
        forall i | 0 <= i < |records|
          ensures |cells[i]| == |Varying(records)| && RowOf(Obj(Merge(common, Varying(records), cells[i])), records[i])
        {
          RowDecoded(records, i, common, cells[i]);
        }
      }
    }
  }

  lemma {:induction false} PickDistinct(fields: seq<Field>, keys: set<string>)
    requires DistinctKeys(fields)
    ensures DistinctKeys(Pick(fields, keys))
  {
    if fields != [] {
      var rest, f := fields[..|fields| - 1], fields[|fields| - 1];
      PickDistinct(rest, keys);
      PickGet(rest, keys, f.key);
    }
  }

  lemma AllEntriesExpand(fields: seq<Field>)
    requires DistinctKeys(fields)
    ensures ExpandFields(fields).Some? <==> AllExpand(fields)
  {
    forall j | 0 <= j < |fields| ensures HasKey(fields, fields[j].key) && IndexOf(fields, fields[j].key) == j {
    }
  }

  lemma SameColumns(records: seq<Json>, i: nat, k: string)
    requires Tabular(records) && i < |records|
    ensures HasKey(records[0].fields, k) <==> HasKey(records[i].fields, k)
    ensures k in ConstantKeys(records) ==> HasKey(records[0].fields, k) && Constant(records, k)
  {
  }

  lemma SharedExpands(records: seq<Json>)
    requires Tabular(records) && DistinctKeys(records[0].fields)
    ensures ExpandFields(Shared(records)).Some? <==>
            forall i, k | 0 <= i < |records| && HasKey(records[i].fields, k) && k in ConstantKeys(records) ::
              Expand(Get(records[i].fields, k)).Some?
  {
    hide Expand, SameKeys, Constant, HasKey, Get, ConstantKeys;
    var shared, keys, columns := Shared(records), ConstantKeys(records), records[0].fields;
    PickDistinct(columns, keys);
    AllEntriesExpand(shared);
    forall i, k | 0 <= i < |records| && HasKey(records[i].fields, k) && k in keys
      ensures HasKey(shared, k) && Get(shared, k) == Get(records[i].fields, k)
    {
      SameColumns(records, i, k);
      PickGet(columns, keys, k);
      ConstantColumn(records, i, k);
    }
    forall k | HasKey(shared, k) ensures HasKey(columns, k) && k in keys && Get(shared, k) == Get(columns, k) {
      PickGet(columns, keys, k);
    }
  }

  ghost predicate EntriesKept(ws: seq<Field>, vs: seq<Field>) {
    forall k | HasKey(vs, k) :: HasKey(ws, k) && Kept(Get(ws, k), Get(vs, k))
  }

  lemma MapsAgree<K, V>(m: map<K, V>, n: map<K, V>)
    ensures m == n <==> (forall k :: k in m <==> k in n) && forall k | k in n :: k in m && m[k] == n[k]
  {
  }

  lemma RowMeans(row: Json, record: Json, v: Json)
    requires record.Obj? && RowOf(row, record)
    requires v.Obj? ==> forall k :: HasKey(v.fields, k) <==> HasKey(record.fields, k)
    ensures Mean(row) == Mean(v) <==> v.Obj? && EntriesKept(record.fields, v.fields)
  {
    if v.Obj? {
      hide HasKey, MeanFields, Get, Expand;
      var m, n := MeanFields(row.fields), MeanFields(v.fields);
      forall k
        ensures k in n <==> HasKey(v.fields, k)
        ensures k in m <==> HasKey(row.fields, k)
        ensures k in n ==> k in m && n[k] == Mean(Get(v.fields, k)) && m[k] == Mean(Get(row.fields, k))
      {
        MeanEntry(row.fields, k);
        MeanEntry(v.fields, k);
      }
      MapsAgree(m, n);
    }
  }

  lemma TableKept(records: seq<Json>, vs: seq<Json>)
    requires Tabular(records) && |vs| == |records| && DistinctKeys(records[0].fields)
    requires forall i | 0 <= i < |vs| && vs[i].Obj? ::
               forall k :: HasKey(vs[i].fields, k) <==> HasKey(records[i].fields, k)
    ensures Kept(Table(records), Arr(vs)) <==>
            && !LooksLikeTable(Shared(records))
            && forall i | 0 <= i < |vs| :: vs[i].Obj? && EntriesKept(records[i].fields, vs[i].fields)
  {
    TableDecodes(records);
    var r := Expand(Table(records));
    hide Expand, Table, Shared, LooksLikeTable, HasKey, Get, SameKeys;
    if r.Some? {
      var rows := r.value.items;
      forall i | 0 <= i < |vs|
        ensures MeanAll(rows)[i] == MeanAll(vs)[i] <==> vs[i].Obj? && EntriesKept(records[i].fields, vs[i].fields)
      {
        RowMeans(rows[i], records[i], vs[i]);
      }
      assert MeanAll(rows) == MeanAll(vs) <==> forall i | 0 <= i < |vs| :: MeanAll(rows)[i] == MeanAll(vs)[i];
    } else if (forall i | 0 <= i < |vs| :: vs[i].Obj? && EntriesKept(records[i].fields, vs[i].fields)) {
      forall i | 0 <= i < |records| ensures AllExpand(records[i].fields) {
        forall k | HasKey(records[i].fields, k) ensures Expand(Get(records[i].fields, k)).Some? {
          assert HasKey(vs[i].fields, k) && Kept(Get(records[i].fields, k), Get(vs[i].fields, k));
        }
      }
    }
  }

  // ---- The theorem ----

  lemma PackedEntry(fields: seq<Field>, k: string)
    ensures HasKey(PackFields(fields), k) <==> HasKey(fields, k)
    ensures HasKey(fields, k) ==> Get(PackFields(fields), k) == Pack(Get(fields, k))
  {
    var r := PackFields(fields);
    assert forall i | 0 <= i < |fields| :: r[i].key == fields[i].key;
    if HasKey(fields, k) {
      assert r[IndexOf(fields, k)].key == k;
    }
  }

  lemma PackedString(v: Json)
    ensures Pack(v).Str? ==> v == Pack(v)
    ensures v.Str? ==> Pack(v) == v
  {
    hide BecomesTable;
  }

  lemma PackKeepsTableLook(fields: seq<Field>)
    ensures LooksLikeTable(PackFields(fields)) <==> LooksLikeTable(fields)
  {
    hide Pack, PackFields, Get, HasKey;
    PackedEntry(fields, "format");
    PackedEntry(fields, "columns");
    PackedEntry(fields, "rows");
    if HasKey(fields, "format") {
      PackedString(Get(fields, "format"));
    }
  }

  lemma TableKeysDistinct(columns: Json, rows: Json, shared: seq<Field>)
    ensures DistinctKeys(TableEntries(columns, rows, shared))
  {
    var t := TableEntries(columns, rows, shared);
    assert t[0].key == "format" && t[1].key == "columns" && t[2].key == "rows";
    assert |t| == 4 ==> t[3].key == "shared";
    assert "format"[0] == 'f' && "columns"[0] == 'c' && "rows"[0] == 'r' && "shared"[0] == 's';
  }

  lemma PackedKeysDistinct(v: Json)
    requires IsValue(v) && Pack(v).Obj?
    ensures DistinctKeys(Pack(v).fields)
  {
    if v.Arr? {
      var records := PackAll(v.items);
      hide TableEntries, Worthwhile, PackAll, DistinctKeys;
      assert Tabular(records);
      TableKeysDistinct(Arr(Strings(Varying(records))), Arr(Rows(records)), Shared(records));
    } else {
      assert forall i | 0 <= i < |v.fields| :: PackFields(v.fields)[i].key == v.fields[i].key;
    }
  }

  lemma EntriesKeptByIndex(fields: seq<Field>)
    requires DistinctKeys(fields)
    ensures EntriesKept(PackFields(fields), fields) <==> forall j | 0 <= j < |fields| :: Lossless(fields[j].value)
  {
    forall j | 0 <= j < |fields|
      ensures HasKey(fields, fields[j].key) && Get(fields, fields[j].key) == fields[j].value
      ensures Get(PackFields(fields), fields[j].key) == Pack(fields[j].value)
    {
      MeanFieldsAt(fields, j);
      PackedEntry(fields, fields[j].key);
    }
    forall k | HasKey(fields, k)
      ensures HasKey(PackFields(fields), k) && Get(PackFields(fields), k) == Pack(Get(fields, k))
    {
      PackedEntry(fields, k);
    }
  }

  ghost predicate Lossless(v: Json) {
    Kept(Pack(v), v)
  }

  /** Compaction is lossless on exactly the safe values. */
  lemma {:induction false} LosslessIffSafe(v: Json)
    requires IsValue(v)
    ensures Lossless(v) <==> Safe(v)
    decreases v
  {
    hide Kept, LooksLikeTable, BecomesTable, Table, DistinctKeys;
    match v
    case Obj(fields) =>
      PackKeepsTableLook(fields);
      if LooksLikeTable(fields) {
        LookalikeLost(PackFields(fields), fields);
      } else {
        DictKept(PackFields(fields), fields);
        forall i | 0 <= i < |fields| ensures Lossless(fields[i].value) <==> Safe(fields[i].value) {
          LosslessIffSafe(fields[i].value);
        }
      }
    case Arr(items) =>
      if BecomesTable(PackAll(items)) {
        PackedListLosslessIffSafe(items);
      } else {
        ListKept(PackAll(items), items);
        forall i | 0 <= i < |items| ensures Lossless(items[i]) <==> Safe(items[i]) {
          LosslessIffSafe(items[i]);
        }
      }
    case _ => ScalarLossless(v);
  }

  lemma ScalarLossless(v: Json)
    requires !v.Arr? && !v.Obj?
    ensures Lossless(v)
  {
  }

  lemma {:induction false} PackedListLosslessIffSafe(items: seq<Json>)
    requires IsValue(Arr(items)) && BecomesTable(PackAll(items))
    ensures Lossless(Arr(items)) <==> Safe(Arr(items))
    decreases items
  {
    hide Kept, LooksLikeTable, Worthwhile, Table, DistinctKeys, HasKey, SameKeys, EntriesKept, Shared;
    var records := PackAll(items);
    PackedKeysDistinct(items[0]);
    forall i, k | 0 <= i < |items| && items[i].Obj?
      ensures HasKey(items[i].fields, k) <==> HasKey(records[i].fields, k)
    {
      PackedEntry(items[i].fields, k);
    }
    TableKept(records, items);
    forall i | 0 <= i < |items| && items[i].Obj?
      ensures EntriesKept(records[i].fields, items[i].fields) <==> SafeEntries(items[i].fields)
    {
      EntriesKeptByIndex(items[i].fields);
      assert IsValue(items[i]);
      forall j | 0 <= j < |items[i].fields|
        ensures Lossless(items[i].fields[j].value) <==> Safe(items[i].fields[j].value)
      {
        LosslessIffSafe(items[i].fields[j].value);
      }
    }
  }

  // ---- The domain a caller can see without running the encoder ----

  /** No dict looks like a table and no list sits directly in a list. */
  predicate Plain(v: Json)
    decreases v
  {
    match v
    case Obj(fields) => !LooksLikeTable(fields) && forall i | 0 <= i < |fields| :: Plain(fields[i].value)
    case Arr(items) => forall i | 0 <= i < |items| :: !items[i].Arr? && Plain(items[i])
    case _ => true
  }

  lemma SharedLookIsEveryRowsLook(records: seq<Json>)
    requires Tabular(records) && LooksLikeTable(Shared(records))
    ensures LooksLikeTable(records[0].fields)
  {
    PickGet(records[0].fields, ConstantKeys(records), "format");
    PickGet(records[0].fields, ConstantKeys(records), "columns");
    PickGet(records[0].fields, ConstantKeys(records), "rows");
  }

  lemma {:induction false} PlainIsSafe(v: Json)
    requires Plain(v)
    ensures Safe(v)
    decreases v
  {
    hide LooksLikeTable, Worthwhile, Shared;
    match v
    case Obj(fields) =>
      forall i | 0 <= i < |fields| ensures Safe(fields[i].value) {
        PlainIsSafe(fields[i].value);
      }
    case Arr(items) =>
      forall i | 0 <= i < |items|
        ensures Safe(items[i])
        ensures items[i].Obj? ==> SafeEntries(items[i].fields)
      {
        PlainIsSafe(items[i]);
      }
      if BecomesTable(PackAll(items)) {
        forall i | 0 <= i < |items| ensures items[i].Obj? {
          assert PackAll(items)[i].Obj?;
        }
        if LooksLikeTable(Shared(PackAll(items))) {
          SharedLookIsEveryRowsLook(PackAll(items));
          PackKeepsTableLook(items[0].fields);
        }
      }
    case _ =>
  }

  /** Every plain JSON value survives: row count, duplicates, missing versus null, true versus 1. */
  lemma {:induction false} CompactionIsLossless(v: Json)
    requires IsValue(v) && Plain(v)
    ensures Expand(Pack(v)).Some? && Mean(Expand(Pack(v)).value) == Mean(v)
  {
    PlainIsSafe(v);
    LosslessIffSafe(v);
  }

  /** The text handed to the model determines the facts: whatever value reads back
      from it decodes to the original. */
  lemma {:induction false} ModelTextCarriesTheFacts(v: Json, readBack: Json)
    requires IsValue(v) && Safe(v)
    requires Print(readBack) == Print(Pack(v))
    ensures Expand(readBack).Some? && Mean(Expand(readBack).value) == Mean(v)
  {
    PrintInjective(readBack, Pack(v));
    LosslessIffSafe(v);
  }

  // ---- Compaction never grows ----

  lemma {:induction false} ItemsNoLonger(a: seq<Json>, b: seq<Json>)
    requires |a| == |b| && forall i | 0 <= i < |a| :: |Print(a[i])| <= |Print(b[i])|
    ensures |PrintItems(a)| <= |PrintItems(b)|
  {
    if |a| > 1 {
      ItemsNoLonger(a[1..], b[1..]);
    }
  }

  lemma {:induction false} FieldsNoLonger(a: seq<Field>, b: seq<Field>)
    requires |a| == |b|
    requires forall i | 0 <= i < |a| :: a[i].key == b[i].key && |Print(a[i].value)| <= |Print(b[i].value)|
    ensures |PrintFields(a)| <= |PrintFields(b)|
  {
    if |a| > 1 {
      FieldsNoLonger(a[1..], b[1..]);
    }
  }

  lemma {:induction false} NeverGrows(v: Json)
    ensures |Print(Pack(v))| <= |Print(v)|
    decreases v
  {
    hide Tabular, Table;
    match v
    case Obj(fields) =>
      forall i | 0 <= i < |fields| ensures |Print(PackFields(fields)[i].value)| <= |Print(fields[i].value)| {
        NeverGrows(fields[i].value);
      }
      FieldsNoLonger(PackFields(fields), fields);
    case Arr(items) =>
      forall i | 0 <= i < |items| ensures |Print(PackAll(items)[i])| <= |Print(items[i])| {
        NeverGrows(items[i]);
      }
      ItemsNoLonger(PackAll(items), items);
    case _ =>
  }

  // ---- What is lost outside the domain ----

  predicate PlainText(s: string) {
    forall i | 0 <= i < |s| :: ' ' <= s[i] && s[i] != '"' && s[i] != '\\'
  }

  lemma {:induction false} QuoteLength(s: string)
    ensures |Quote(s)| >= |s| + 2
    ensures PlainText(s) ==> |Quote(s)| == |s| + 2
  {
    if s != "" {
      QuoteLength(s[1..]);
    }
  }

  function TripleEntries(r: Json): seq<Field>
    requires r.Obj?
  {
    TableEntries(Arr([]), Arr([Arr([]), Arr([]), Arr([])]), r.fields)
  }

  lemma TripleConstant(r: Json, key: string)
    requires r.Obj? && r.fields != [] && HasKey(r.fields, key)
    ensures Tabular([r, r, r]) && Constant([r, r, r], key)
  {
  }

  /** Three copies of a dict make a table in which every entry is shared. */
  lemma TripleTable(r: Json)
    requires r.Obj? && r.fields != []
    ensures Tabular([r, r, r]) && Table([r, r, r]) == Obj(TripleEntries(r))
  {
    hide Constant, SameKeys, Cells;
    var records := [r, r, r];
    assert HasKey(r.fields, r.fields[0].key);
    TripleConstant(r, r.fields[0].key);
    var keys := ConstantKeys(records);
    forall f | f in r.fields ensures f.key in keys {
      var i :| 0 <= i < |r.fields| && r.fields[i] == f;
      assert HasKey(r.fields, f.key);
      TripleConstant(r, f.key);
    }
    AllShared(r.fields, keys);
    assert Varying(records) == [];
    forall i | 0 <= i < 3 ensures Rows(records)[i] == Arr([]) {
      assert Row(records, i).items == [] by { NoCells(records, i); }
    }
    assert Rows(records) == [Arr([]), Arr([]), Arr([])];
    assert Strings([]) == [];
  }

  lemma NoCells(records: seq<Json>, i: nat)
    requires Tabular(records) && i < |records| && Varying(records) == []
    ensures Row(records, i) == Arr([])
  {
    VaryingAreColumns(records, i);
    assert Cells(records[i].fields, []) == [];
  }

  /** Repeating one dict of 36 or more printed characters three times packs into a table. */
  lemma TriplePacks(r: Json)
    requires r.Obj? && r.fields != []
    requires |Print(r)| >= 36
    ensures BecomesTable([r, r, r]) && Table([r, r, r]) == Obj(TripleEntries(r))
    ensures |Print(Obj(TripleEntries(r)))| == |Print(r)| + 59
    ensures DistinctKeys(TripleEntries(r)) && TripleEntries(r) != []
  {
    TripleTable(r);
    TripleLength(r);
    ThreeItems(r);
    TableKeysDistinct(Arr([]), Arr([Arr([]), Arr([]), Arr([])]), r.fields);
    hide Table, Tabular, PrintFields, DistinctKeys;
    assert |Print(Arr([r, r, r]))| == 3 * |Print(r)| + 4;
  }

  lemma {:induction false} AllShared(fields: seq<Field>, keys: set<string>)
    requires forall f | f in fields :: f.key in keys
    ensures Pick(fields, keys) == fields && Others(fields, keys) == []
  {
    if fields != [] {
      AllShared(fields[..|fields| - 1], keys);
      assert fields == fields[..|fields| - 1] + [fields[|fields| - 1]];
    }
  }

  lemma ThreeItems(r: Json)
    ensures |PrintItems([r, r, r])| == 3 * |Print(r)| + 2
  {
    assert [r, r, r][1..] == [r, r] && [r, r][1..] == [r];
    assert PrintItems([r]) == Print(r);
  }

  lemma FieldsLength(f: Field, rest: seq<Field>)
    ensures |PrintFields([f] + rest)| ==
            |Quote(f.key)| + 1 + |Print(f.value)| + if rest == [] then 0 else 1 + |PrintFields(rest)|
  {
    assert ([f] + rest)[1..] == rest;
  }

  lemma NameLengths()
    ensures |Quote("format")| == 8 && |Print(Str("table"))| == 7 && |Quote("columns")| == 9
    ensures |Quote("rows")| == 6 && |Quote("shared")| == 8
  {
    hide Quote;
    QuoteLength("format");
    QuoteLength("table");
    QuoteLength("columns");
    QuoteLength("rows");
    QuoteLength("shared");
  }

  lemma EmptyListLengths()
    ensures |Print(Arr([]))| == 2 && |Print(Arr([Arr([]), Arr([]), Arr([])]))| == 10
  {
    assert |Print(Arr([]))| == 2;
    ThreeItems(Arr([]));
    hide PrintItems;
    assert |Print(Arr([Arr([]), Arr([]), Arr([])]))| == |PrintItems([Arr([]), Arr([]), Arr([])])| + 2;
  }

  lemma TripleLength(r: Json)
    requires r.Obj? && r.fields != []
    ensures |Print(Obj(TripleEntries(r)))| == |Print(r)| + 59
  {
    var rows := Arr([Arr([]), Arr([]), Arr([])]);
    var a, b, c, d := Field("format", Str("table")), Field("columns", Arr([])), Field("rows", rows), Field("shared", r);
    var all := [a] + ([b] + ([c] + ([d] + [])));
    assert TripleEntries(r) == all;
    hide *;
    NameLengths();
    EmptyListLengths();
    FieldsLength(a, [b] + ([c] + ([d] + [])));
    FieldsLength(b, [c] + ([d] + []));
    FieldsLength(c, [d] + []);
    FieldsLength(d, []);
    PrintObjLength(all);
  }

  lemma PrintObjLength(fields: seq<Field>)
    ensures |Print(Obj(fields))| == |PrintFields(fields)| + 2
  {
  }

  lemma PackTriple(r: Json, packed: Json)
    requires Pack(r) == packed
    ensures PackAll([r, r, r]) == [packed, packed, packed]
  {
  }

  const PRODUCT: string := "whole milk, one litre, organic"
  const MILK := Obj([Field("product", Str(PRODUCT))])

  /** Three lists that each become a table are packed again, as if the tables were
      records, and one decoding pass does not undo that. No dict here looks like a table. */
  lemma {:induction false} ListOfListsIsLost()
    ensures var v := Arr([Arr([MILK, MILK, MILK]), Arr([MILK, MILK, MILK]), Arr([MILK, MILK, MILK])]);
            IsValue(v) && !LooksLikeTable(MILK.fields) && !Lossless(v)
  {
    var list := Arr([MILK, MILK, MILK]);
    var t := Obj(TripleEntries(MILK));
    MilkFacts();
    hide *;
    TriplePacks(MILK);
    PackTriple(MILK, MILK);
    PackedList([MILK, MILK, MILK]);
    TriplePacks(t);
    PackTriple(list, t);
    ValueTriple(MILK);
    ValueTriple(list);
    ListRowIsUnsafe([list, list, list]);
    LosslessIffSafe(Arr([list, list, list]));
  }

  lemma PackedList(items: seq<Json>)
    requires BecomesTable(PackAll(items))
    ensures Pack(Arr(items)) == Table(PackAll(items))
  {
  }

  lemma ValueTriple(v: Json)
    requires IsValue(v)
    ensures IsValue(Arr([v, v, v]))
  {
  }

  lemma ListRowIsUnsafe(items: seq<Json>)
    requires BecomesTable(PackAll(items)) && items != [] && items[0].Arr?
    ensures !Safe(Arr(items))
  {
    hide BecomesTable, LooksLikeTable, Shared, PackAll;
    assert !items[0].Obj?;
  }

  lemma MilkFacts()
    ensures |Print(MILK)| >= 36 && Pack(MILK) == MILK && IsValue(MILK) && !LooksLikeTable(MILK.fields)
  {
    MilkLength();
    hide Print, Quote, Escape;
    assert "product"[0] == 'p' && "rows"[0] == 'r';
    assert PackFields(MILK.fields) == MILK.fields;
  }

  lemma MilkLength()
    ensures |Print(MILK)| >= 36
  {
    var f := Field("product", Str(PRODUCT));
    assert MILK.fields == [f] + [];
    assert |PRODUCT| == 30;
    hide *;
    QuoteLength(PRODUCT);
    QuoteLength("product");
    QuotedLength(PRODUCT);
    FieldsLength(f, []);
    PrintObjLength([f] + []);
  }

  lemma QuotedLength(s: string)
    ensures Print(Str(s)) == Quote(s)
  {
  }

  /** A dict that already looks like a table comes back as a list. */
  lemma {:induction false} LookalikeIsLost()
    ensures var v := Obj([Field("format", Str("table")), Field("columns", Arr([])), Field("rows", Arr([]))]);
            IsValue(v) && !Lossless(v)
  {
    var fields := TableEntries(Arr([]), Arr([]), []);
    TableKeysDistinct(Arr([]), Arr([]), []);
    TableParts(Arr([]), Arr([]), []);
    assert fields == [Field("format", Str("table")), Field("columns", Arr([])), Field("rows", Arr([]))];
    assert IsValue(Arr([])) && IsValue(Str("table"));
    LosslessIffSafe(Obj(fields));
  }
}
