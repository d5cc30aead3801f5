/** What a packed list looks like, in terms of its records alone (app/agents/context.py). */
module TableShape {
  import opened Json
  import opened Compaction
  import opened Selections
  import Lossless

  /** What a table entry holds; nothing if it has no such entry. */
  function SharedOf(t: Json): seq<Field> {
    if t.Obj? && HasKey(t.fields, "shared") && Get(t.fields, "shared").Obj? then Get(t.fields, "shared").fields else []
  }

  /** Every record holds the same value at k. */
  predicate SameEverywhere(records: seq<Json>, k: string) {
    && records != []
    && (forall i | 0 <= i < |records| :: records[i].Obj? && HasKey(records[i].fields, k))
    && (forall i | 0 <= i < |records| :: Get(records[i].fields, k) == Get(records[0].fields, k))
  }

  lemma ConstantIsSame(records: seq<Json>, k: string)
    requires Tabular(records) && HasKey(records[0].fields, k)
    ensures Constant(records, k) <==> SameEverywhere(records, k)
  {
    if Constant(records, k) {
      forall i | 0 <= i < |records|
        ensures HasKey(records[i].fields, k) && Get(records[i].fields, k) == Get(records[0].fields, k)
      {
        Lossless.ConstantColumn(records, i, k);
      }
    }
  }

  lemma ConstantKeysAre(records: seq<Json>, k: string)
    requires Tabular(records)
    ensures k in ConstantKeys(records) <==> HasKey(records[0].fields, k) && SameEverywhere(records, k)
  {
    if HasKey(records[0].fields, k) {
      ConstantIsSame(records, k);
      var i :| 0 <= i < |records[0].fields| && records[0].fields[i].key == k;
      assert records[0].fields[i] in records[0].fields;
    }
  }

  lemma SharedOfTable(records: seq<Json>)
    requires Tabular(records)
    ensures SharedOf(Table(records)) == Shared(records)
  {
    Lossless.TableParts(Arr(Strings(Varying(records))), Arr(Rows(records)), Shared(records));
    hide Shared, Varying, Rows, TableEntries, Strings;
  }

  /** A key stands under "shared" exactly when every record holds the same value at it, and with that value. */
  lemma {:induction false} SharedIff(records: seq<Json>, k: string)
    requires Tabular(records)
    ensures HasKey(SharedOf(Table(records)), k) <==> SameEverywhere(records, k)
    ensures SameEverywhere(records, k) ==> Get(SharedOf(Table(records)), k) == Get(records[0].fields, k)
  {
    SharedOfTable(records);
    ConstantKeysAre(records, k);
    Lossless.PickGet(records[0].fields, ConstantKeys(records), k);
  }

  function OtherPlaces(fields: seq<Field>, keys: set<string>): iset<nat> {
    iset i: nat | i < |fields| && fields[i].key !in keys
  }

  /** These names are the keys at those places. */
  ghost predicate NamedAt(names: seq<string>, fields: seq<Field>, at: seq<nat>) {
    && |names| == |at|
    && forall j | 0 <= j < |at| :: at[j] < |fields| && names[j] == fields[at[j]].key
  }

  lemma {:induction false} OthersSelect(fields: seq<Field>, keys: set<string>) returns (at: seq<nat>)
    ensures Selects(at, |fields|, OtherPlaces(fields, keys)) && NamedAt(Others(fields, keys), fields, at)
  {
    if fields == [] {
      at := [];
    } else {
      var n, front := |fields| - 1, fields[..|fields| - 1];
      var before := OthersSelect(front, keys);
      assert forall i: nat | i < n :: i in OtherPlaces(front, keys) <==> i in OtherPlaces(fields, keys);
      assert n in OtherPlaces(fields, keys) <==> fields[n].key !in keys;
      OthersAtLast(fields, keys, before);
      hide OtherPlaces, Selects, NamedAt, Others;
      SelectSame(before, n, OtherPlaces(front, keys), OtherPlaces(fields, keys));
      at := SelectNext(before, n, OtherPlaces(fields, keys));
    }
  }

  lemma OthersAtLast(fields: seq<Field>, keys: set<string>, before: seq<nat>)
    requires fields != [] && NamedAt(Others(fields[..|fields| - 1], keys), fields[..|fields| - 1], before)
    ensures NamedAt(Others(fields, keys), fields, if fields[|fields| - 1].key in keys then before else before + [|fields| - 1])
  {
    var n, names := |fields| - 1, Others(fields[..|fields| - 1], keys);
    assert names + [] == names;
    assert Others(fields, keys) == if fields[n].key in keys then names else names + [fields[n].key];
    hide Others;
    NamedInLonger(names, fields, before);
  }

  lemma NamedInLonger(names: seq<string>, fields: seq<Field>, before: seq<nat>)
    requires fields != [] && NamedAt(names, fields[..|fields| - 1], before)
    ensures NamedAt(names, fields, before)
    ensures NamedAt(names + [fields[|fields| - 1].key], fields, before + [|fields| - 1])
  {
    var front := fields[..|fields| - 1];
    assert forall j | 0 <= j < |before| :: front[before[j]] == fields[before[j]];
  }

  /** The places of the first record where some record differs. */
  function Differing(records: seq<Json>): iset<nat>
    requires Tabular(records)
  {
    iset i: nat | i < |records[0].fields| && !SameEverywhere(records, records[0].fields[i].key)
  }

  /** The names listed under "columns". */
  ghost predicate Names(columns: Json, fields: seq<Field>, at: seq<nat>) {
    && columns.Arr? && |columns.items| == |at|
    && forall j | 0 <= j < |at| :: at[j] < |fields| && columns.items[j] == Str(fields[at[j]].key)
  }

  /** A row holds the record's values at those keys. */
  ghost predicate Holds(row: Json, record: Json, fields: seq<Field>, at: seq<nat>) {
    && row.Arr? && record.Obj? && |row.items| == |at|
    && forall j | 0 <= j < |at| :: at[j] < |fields| && HasKey(record.fields, fields[at[j]].key)
                                && row.items[j] == Get(record.fields, fields[at[j]].key)
  }

  /** The table in full: "columns" lists the keys at which some record differs, in the first record's order;
      row i holds record i's values at those keys; "shared" is there when some key does not differ; nothing else. */
  lemma {:induction false} TableIs(records: seq<Json>) returns (at: seq<nat>, columns: Json, rows: seq<Json>)
    requires Tabular(records)
    ensures Selects(at, |records[0].fields|, Differing(records))
    ensures Names(columns, records[0].fields, at)
    ensures |rows| == |records| && forall i | 0 <= i < |records| :: Holds(rows[i], records[i], records[0].fields, at)
    ensures Table(records) == Obj([Field("format", Str("table")), Field("columns", columns), Field("rows", Arr(rows))]
              + if SharedOf(Table(records)) == [] then [] else [Field("shared", Obj(SharedOf(Table(records))))])
  {
    var fields, keys := records[0].fields, ConstantKeys(records);
    at := OthersSelect(fields, keys);
    SharedOfTable(records);
    forall i: nat | i < |fields| ensures i in OtherPlaces(fields, keys) <==> i in Differing(records) {
      KeyAt(records, i);
    }
    SelectSame(at, |fields|, OtherPlaces(fields, keys), Differing(records));
    columns, rows := Arr(Strings(Varying(records))), Rows(records);
    forall i | 0 <= i < |records| ensures Holds(rows[i], records[i], fields, at) {
      RowHolds(records, i, at);
    }
    ColumnsNamed(records, at);
    hide Selects, Differing, ConstantKeys, Others, Shared, Names, Holds, Rows, Varying, Strings;
  }

  lemma ColumnsNamed(records: seq<Json>, at: seq<nat>)
    requires Tabular(records) && NamedAt(Varying(records), records[0].fields, at)
    ensures Names(Arr(Strings(Varying(records))), records[0].fields, at)
  {
    hide Varying;
  }

  lemma RowHolds(records: seq<Json>, i: nat, at: seq<nat>)
    requires Tabular(records) && i < |records| && NamedAt(Varying(records), records[0].fields, at)
    ensures Holds(Rows(records)[i], records[i], records[0].fields, at)
  {
    VaryingAreColumns(records, i);
    hide Varying, Get;
  }

  lemma KeyAt(records: seq<Json>, i: nat)
    requires Tabular(records) && i < |records[0].fields|
    ensures var k := records[0].fields[i].key; k in ConstantKeys(records) <==> SameEverywhere(records, k)
  {
    ConstantKeysAre(records, records[0].fields[i].key);
  }

  /** And "shared" holds the first record's other entries, in its order, each once. */
  lemma {:induction false} SharedIs(records: seq<Json>) returns (at: seq<nat>)
    requires Tabular(records)
    ensures Selects(at, |records[0].fields|, Agreeing(records))
    ensures PickedAt(SharedOf(Table(records)), records[0].fields, at)
  {
    var fields, keys := records[0].fields, ConstantKeys(records);
    at := PickSelect(fields, keys);
    SharedOfTable(records);
    forall i: nat | i < |fields| ensures i in KeyPlaces(fields, keys) <==> i in Agreeing(records) {
      KeyAt(records, i);
    }
    SelectSame(at, |fields|, KeyPlaces(fields, keys), Agreeing(records));
  }

  /** The places of the first record where all records agree. */
  function Agreeing(records: seq<Json>): iset<nat>
    requires Tabular(records)
  {
    iset i: nat | i < |records[0].fields| && SameEverywhere(records, records[0].fields[i].key)
  }

  function KeyPlaces(fields: seq<Field>, keys: set<string>): iset<nat> {
    iset i: nat | i < |fields| && fields[i].key in keys
  }

  ghost predicate PickedAt(picked: seq<Field>, fields: seq<Field>, at: seq<nat>) {
    && |picked| == |at|
    && forall j | 0 <= j < |at| :: at[j] < |fields| && picked[j] == fields[at[j]]
  }

  lemma {:induction false} PickSelect(fields: seq<Field>, keys: set<string>) returns (at: seq<nat>)
    ensures Selects(at, |fields|, KeyPlaces(fields, keys)) && PickedAt(Pick(fields, keys), fields, at)
  {
    if fields == [] {
      at := [];
    } else {
      var n, front := |fields| - 1, fields[..|fields| - 1];
      var before := PickSelect(front, keys);
      assert forall i: nat | i < n :: i in KeyPlaces(front, keys) <==> i in KeyPlaces(fields, keys);
      assert n in KeyPlaces(fields, keys) <==> fields[n].key in keys;
      PickedAtLast(fields, keys, before);
      hide KeyPlaces, Selects, PickedAt, Pick;
      SelectSame(before, n, KeyPlaces(front, keys), KeyPlaces(fields, keys));
      at := SelectNext(before, n, KeyPlaces(fields, keys));
    }
  }

  lemma PickedAtLast(fields: seq<Field>, keys: set<string>, before: seq<nat>)
    requires fields != [] && PickedAt(Pick(fields[..|fields| - 1], keys), fields[..|fields| - 1], before)
    ensures PickedAt(Pick(fields, keys), fields, if fields[|fields| - 1].key in keys then before + [|fields| - 1] else before)
  {
    var n, front := |fields| - 1, fields[..|fields| - 1];
    var picked := Pick(front, keys);
    assert picked + [] == picked;
    assert Pick(fields, keys) == if fields[n].key in keys then picked + [fields[n]] else picked;
    hide Pick;
    PickedInLonger(picked, fields, before);
  }

  lemma PickedInLonger(picked: seq<Field>, fields: seq<Field>, before: seq<nat>)
    requires fields != [] && PickedAt(picked, fields[..|fields| - 1], before)
    ensures PickedAt(picked, fields, before)
    ensures PickedAt(picked + [fields[|fields| - 1]], fields, before + [|fields| - 1])
  {
    var front := fields[..|fields| - 1];
    assert forall j | 0 <= j < |before| :: front[before[j]] == fields[before[j]];
  }

  // ---- When a list is packed ----

  /** A list of at least three dicts with the same, nonempty set of keys. */
  lemma {:induction false} TabularIff(records: seq<Json>)
    ensures Tabular(records) <==>
      && |records| >= 3 && (forall i | 0 <= i < |records| :: records[i].Obj?) && records[0].fields != []
      && (forall i, k | 0 <= i < |records| :: HasKey(records[i].fields, k) <==> HasKey(records[0].fields, k))
  {
    if Tabular(records) {
      forall i, k | 0 <= i < |records| ensures HasKey(records[i].fields, k) <==> HasKey(records[0].fields, k) {
        Lossless.SameColumns(records, i, k);
      }
    }
    if |records| >= 3 && (forall i | 0 <= i < |records| :: records[i].Obj?)
       && (forall i, k | 0 <= i < |records| :: HasKey(records[i].fields, k) <==> HasKey(records[0].fields, k)) {
      forall i | 0 <= i < |records| ensures SameKeys(records[0].fields, records[i].fields) {
        OwnKeys(records[0].fields);
        OwnKeys(records[i].fields);
      }
    }
  }

  lemma OwnKeys(fields: seq<Field>)
    ensures forall j | 0 <= j < |fields| :: HasKey(fields, fields[j].key)
  {
  }

  /** A packed list is its packed items, or their table exactly when they have one and it prints to less than
      85% of their text. */
  lemma {:induction false} PackedListIs(items: seq<Json>, records: seq<Json>)
    requires |records| == |items| && forall i | 0 <= i < |items| :: records[i] == Pack(items[i])
    ensures Pack(Arr(items)) ==
      if Tabular(records) && 100 * |Print(Table(records))| < 85 * |Print(Arr(records))| then Table(records) else Arr(records)
  {
    assert PackAll(items) == records;
    hide Print, Table;
  }

  /** Dicts are packed entry by entry, and everything else stays. */
  lemma {:induction false} PackedElsewhere(v: Json)
    ensures v.Obj? ==>
      && Pack(v).Obj? && |Pack(v).fields| == |v.fields|
      && forall i | 0 <= i < |v.fields| :: Pack(v).fields[i] == Field(v.fields[i].key, Pack(v.fields[i].value))
    ensures !v.Obj? && !v.Arr? ==> Pack(v) == v
  {
  }

  // ---- What the decoder makes of a table with one row ----

  /** A row needs exactly one cell for every column; otherwise decoding fails. */
  lemma {:induction false} RowsAreStrict(names: seq<string>, cells: seq<Json>)
    ensures Expand(Obj([Field("format", Str("table")), Field("columns", Arr(Strings(names))), Field("rows", Arr([Arr(cells)]))])).Some?
            ==> |cells| == |names|
  {
    var t := TableEntries(Arr(Strings(names)), Arr([Arr(cells)]), []);
    assert t == [Field("format", Str("table")), Field("columns", Arr(Strings(names))), Field("rows", Arr([Arr(cells)]))];
    Lossless.EntriesExpand(names, [Arr(cells)], []);
    hide Expand, TableEntries, Strings;
  }
}
