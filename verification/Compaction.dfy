/**
 Table compaction of JSON evidence: _pack_records (app/agents/context.py) and
 the decoder the tests hold it to, expand_tables (tests/prompt_support.py).
 */
module Compaction {
  import opened Json
  import opened Wrappers

  // ---- Dict access ----

  predicate HasKey(fields: seq<Field>, key: string) {
    exists i :: 0 <= i < |fields| && fields[i].key == key
  }

  function IndexOf(fields: seq<Field>, key: string): (i: nat)
    requires HasKey(fields, key)
    ensures i < |fields| && fields[i].key == key
    ensures forall j | i < j < |fields| :: fields[j].key != key
  {
    if fields[|fields| - 1].key == key then |fields| - 1 else IndexOf(fields[..|fields| - 1], key)
  }

  function Get(fields: seq<Field>, key: string): Json
    requires HasKey(fields, key)
  {
    fields[IndexOf(fields, key)].value
  }

  // ---- The encoder ----

  predicate SameKeys(a: seq<Field>, b: seq<Field>) {
    && (forall i | 0 <= i < |a| :: HasKey(b, a[i].key))
    && (forall i | 0 <= i < |b| :: HasKey(a, b[i].key))
  }

  /** Three or more dicts, all with the same nonempty set of keys. */
  predicate Tabular(records: seq<Json>) {
    && |records| >= 3
    && (forall i | 0 <= i < |records| :: records[i].Obj?)
    && records[0].fields != []
    && (forall i | 0 <= i < |records| :: SameKeys(records[0].fields, records[i].fields))
  }

  /** Is the column a constant? Decided on printed text. */
  predicate Constant(records: seq<Json>, key: string)
    requires Tabular(records) && HasKey(records[0].fields, key)
  {
    forall i | 1 <= i < |records| :: Print(Get(records[i].fields, key)) == Print(Get(records[0].fields, key))
  }

  function ConstantKeys(records: seq<Json>): set<string>
    requires Tabular(records)
  {
    set f | f in records[0].fields && Constant(records, f.key) :: f.key
  }

  /** The entries whose key is in keys, in order. */
  function Pick(fields: seq<Field>, keys: set<string>): seq<Field> {
    if fields == [] then [] else
      var f := fields[|fields| - 1];
      Pick(fields[..|fields| - 1], keys) + if f.key in keys then [f] else []
  }

  /** The other keys, in order. */
  function Others(fields: seq<Field>, keys: set<string>): seq<string> {
    if fields == [] then [] else
      var f := fields[|fields| - 1];
      Others(fields[..|fields| - 1], keys) + if f.key in keys then [] else [f.key]
  }

  function Shared(records: seq<Json>): seq<Field>
    requires Tabular(records)
  {
    Pick(records[0].fields, ConstantKeys(records))
  }

  function Varying(records: seq<Json>): seq<string>
    requires Tabular(records)
  {
    Others(records[0].fields, ConstantKeys(records))
  }

  function Strings(names: seq<string>): (r: seq<Json>)
  {
    seq(|names|, i requires 0 <= i < |names| => Str(names[i]))
  }

  predicate HasAll(fields: seq<Field>, names: seq<string>) {
    forall j | 0 <= j < |names| :: HasKey(fields, names[j])
  }

  function Cells(fields: seq<Field>, names: seq<string>): seq<Json>
    requires HasAll(fields, names)
  {
    seq(|names|, j requires 0 <= j < |names| => Get(fields, names[j]))
  }

  lemma OthersAreKeys(fields: seq<Field>, keys: set<string>, name: string)
    ensures name in Others(fields, keys) <==> HasKey(fields, name) && name !in keys
  {
    if fields != [] {
      var last := fields[|fields| - 1];
      OthersAreKeys(fields[..|fields| - 1], keys, name);
      assert HasKey(fields, name) <==> HasKey(fields[..|fields| - 1], name) || last.key == name;
    }
  }

  lemma VaryingAreColumns(records: seq<Json>, i: nat)
    requires Tabular(records) && i < |records|
    ensures HasAll(records[i].fields, Varying(records))
  {
    forall j | 0 <= j < |Varying(records)| ensures HasKey(records[i].fields, Varying(records)[j]) {
      OthersAreKeys(records[0].fields, ConstantKeys(records), Varying(records)[j]);
    }
  }

  function Row(records: seq<Json>, i: nat): Json
    requires Tabular(records) && i < |records|
  {
    VaryingAreColumns(records, i);
    Arr(Cells(records[i].fields, Varying(records)))
  }

  function Rows(records: seq<Json>): (r: seq<Json>)
    requires Tabular(records)
    ensures |r| == |records| && forall i | 0 <= i < |records| :: r[i] == Row(records, i)
  {
    seq(|records|, i requires 0 <= i < |records| => Row(records, i))
  }

  function TableEntries(columns: Json, rows: Json, shared: seq<Field>): seq<Field> {
    [Field("format", Str("table")), Field("columns", columns), Field("rows", rows)]
    + if shared == [] then [] else [Field("shared", Obj(shared))]
  }

  function Table(records: seq<Json>): Json
    requires Tabular(records)
  {
    Obj(TableEntries(Arr(Strings(Varying(records))), Arr(Rows(records)), Shared(records)))
  }

  /** The guard that keeps a table: under 85% of the records' own text. */
  predicate Worthwhile(records: seq<Json>)
    requires Tabular(records)
  {
    |Print(Table(records))| * 100 < |Print(Arr(records))| * 85
  }

  predicate BecomesTable(records: seq<Json>) {
    Tabular(records) && Worthwhile(records)
  }

  function PackList(records: seq<Json>): Json {
    if BecomesTable(records) then Table(records) else Arr(records)
  }

  function Pack(v: Json): Json
    decreases v
  {
    match v
    case Obj(fields) => Obj(PackFields(fields))
    case Arr(items) => PackList(PackAll(items))
    case _ => v
  }

  function PackAll(items: seq<Json>): (r: seq<Json>)
    decreases items
    ensures |r| == |items| && forall i | 0 <= i < |items| :: r[i] == Pack(items[i])
  {
    if items == [] then [] else [Pack(items[0])] + PackAll(items[1..])
  }

  function PackFields(fields: seq<Field>): (r: seq<Field>)
    decreases fields
    ensures |r| == |fields|
    ensures forall i | 0 <= i < |fields| :: r[i] == Field(fields[i].key, Pack(fields[i].value))
  {
    if fields == [] then [] else [Field(fields[0].key, Pack(fields[0].value))] + PackFields(fields[1..])
  }

  // ---- The decoder; None is a Python exception ----

  predicate LooksLikeTable(fields: seq<Field>) {
    && HasKey(fields, "format") && Get(fields, "format") == Str("table")
    && HasKey(fields, "columns") && HasKey(fields, "rows")
  }

  function Chars(s: string): seq<Json> {
    seq(|s|, i requires 0 <= i < |s| => Str([s[i]]))
  }

  function KeyStrings(fields: seq<Field>): seq<Json> {
    seq(|fields|, i requires 0 <= i < |fields| => Str(fields[i].key))
  }

  function Expand(v: Json): Option<Json>
    decreases v, 2
  {
    match v
    case Arr(items) =>
      (match ExpandAll(items) case None => None case Some(xs) => Some(Arr(xs)))
    case Obj(fields) =>
      if LooksLikeTable(fields) then
        var rows := RowCells(fields[IndexOf(fields, "rows")].value);
        if rows.None? then None
        else if rows.value == [] then Some(Arr([]))
        else
          var shared := if HasKey(fields, "shared")
                        then Expand(fields[IndexOf(fields, "shared")].value) else Some(Obj([]));
          (match shared
           case Some(Obj(common)) => Assemble(common, ColumnNames(Get(fields, "columns")), rows.value)
           case _ => None)
      else
        (match ExpandFields(fields) case None => None case Some(fs) => Some(Obj(fs)))
    case _ => Some(v)
  }

  function ExpandAll(items: seq<Json>): (r: Option<seq<Json>>)
    decreases items, 1
    ensures r.Some? <==> forall i | 0 <= i < |items| :: Expand(items[i]).Some?
    ensures r.Some? ==> |r.value| == |items| && forall i | 0 <= i < |items| :: Expand(items[i]) == Some(r.value[i])
  {
    if items == [] then Some([]) else
      match (Expand(items[0]), ExpandAll(items[1..]))
      case (Some(x), Some(xs)) => Some([x] + xs)
      case _ => None
  }

  function ExpandFields(fields: seq<Field>): (r: Option<seq<Field>>)
    decreases fields, 1
    ensures r.Some? <==> forall i | 0 <= i < |fields| :: Expand(fields[i].value).Some?
    ensures r.Some? ==> |r.value| == |fields| && forall i | 0 <= i < |fields| ::
              r.value[i].key == fields[i].key && Expand(fields[i].value) == Some(r.value[i].value)
  {
    if fields == [] then Some([]) else
      match (Expand(fields[0].value), ExpandFields(fields[1..]))
      case (Some(x), Some(fs)) => Some([Field(fields[0].key, x)] + fs)
      case _ => None
  }

  /** Iterating value["rows"], each row iterated and its items expanded. */
  function RowCells(rows: Json): Option<seq<seq<Json>>>
    decreases rows, 1
  {
    match rows
    case Arr(items) => CellsOfAll(items)
    case Str(s) => Some(seq(|s|, i requires 0 <= i < |s| => Chars([s[i]])))
    case Obj(fields) => Some(seq(|fields|, i requires 0 <= i < |fields| => Chars(fields[i].key)))
    case _ => None
  }

  function CellsOfAll(rows: seq<Json>): (r: Option<seq<seq<Json>>>)
    decreases rows, 1
    ensures r.Some? <==> forall i | 0 <= i < |rows| :: CellsOf(rows[i]).Some?
    ensures r.Some? ==> |r.value| == |rows| && forall i | 0 <= i < |rows| :: CellsOf(rows[i]) == Some(r.value[i])
  {
    if rows == [] then Some([]) else
      match (CellsOf(rows[0]), CellsOfAll(rows[1..]))
      case (Some(x), Some(xs)) => Some([x] + xs)
      case _ => None
  }

  function CellsOf(row: Json): Option<seq<Json>>
    decreases row, 1
  {
    match row
    case Arr(items) => ExpandAll(items)
    case Str(s) => Some(Chars(s))
    case Obj(fields) => Some(KeyStrings(fields))
    case _ => None
  }

  /** value["columns"] as dict keys; keys that are not strings are outside JSON. */
  function ColumnNames(columns: Json): Option<seq<string>> {
    match columns
    case Arr(items) =>
      if forall i | 0 <= i < |items| :: items[i].Str?
      then Some(seq(|items|, i requires 0 <= i < |items| => items[i].s)) else None
    case Str(s) => Some(seq(|s|, i requires 0 <= i < |s| => [s[i]]))
    case Obj(fields) => Some(seq(|fields|, i requires 0 <= i < |fields| => fields[i].key))
    case _ => None
  }

  function Put(fields: seq<Field>, key: string, value: Json): seq<Field> {
    if HasKey(fields, key) then fields[IndexOf(fields, key) := Field(key, value)]
    else fields + [Field(key, value)]
  }

  /** {**common, **dict(zip(names, cells))} */
  function Merge(common: seq<Field>, names: seq<string>, cells: seq<Json>): seq<Field>
    requires |names| == |cells|
  {
    if names == [] then common
    else Put(Merge(common, names[..|names| - 1], cells[..|names| - 1]), names[|names| - 1], cells[|names| - 1])
  }

  function Assemble(common: seq<Field>, names: Option<seq<string>>, rows: seq<seq<Json>>): (r: Option<Json>)
  {
    if names.Some? && forall i | 0 <= i < |rows| :: |rows[i]| == |names.value|
    then Some(Arr(seq(|rows|, i requires 0 <= i < |rows| => Obj(Merge(common, names.value, rows[i])))))
    else None
  }

  // ---- What a value means: lists are sequences, dicts are maps ----

  datatype Meaning =
    | MNull
    | MBool(b: bool)
    | MInt(n: int)
    | MFloat(text: string)
    | MStr(s: string)
    | MArr(items: seq<Meaning>)
    | MObj(entries: map<string, Meaning>)

  function Mean(v: Json): Meaning
    decreases v
  {
    match v
    case Null => MNull
    case Bool(b) => MBool(b)
    case Int(n) => MInt(n)
    case Float(text) => MFloat(text)
    case Str(s) => MStr(s)
    case Arr(items) => MArr(MeanAll(items))
    case Obj(fields) => MObj(MeanFields(fields))
  }

  function MeanAll(items: seq<Json>): (r: seq<Meaning>)
    decreases items
    ensures |r| == |items| && forall i | 0 <= i < |items| :: r[i] == Mean(items[i])
  {
    if items == [] then [] else [Mean(items[0])] + MeanAll(items[1..])
  }

  function MeanFields(fields: seq<Field>): map<string, Meaning>
    decreases fields
  {
    if fields == [] then map[] else
      MeanFields(fields[..|fields| - 1])[fields[|fields| - 1].key := Mean(fields[|fields| - 1].value)]
  }

  lemma {:induction false} MeanEntry(fields: seq<Field>, k: string)
    ensures k in MeanFields(fields) <==> HasKey(fields, k)
    ensures HasKey(fields, k) ==> MeanFields(fields)[k] == Mean(fields[IndexOf(fields, k)].value)
  {
    if fields != [] {
      var rest := fields[..|fields| - 1];
      MeanEntry(rest, k);
      assert HasKey(fields, k) <==> HasKey(rest, k) || k == fields[|fields| - 1].key;
    }
  }
}
