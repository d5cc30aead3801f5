/** The text a cached result is kept as, and the key it is kept under (app/cache/idempotency.py). */
module ReplayCodec {
  import opened Wrappers
  import opened Numerals
  import opened Json

  /** Sign, digits and exponent, as Decimal keeps them. */
  datatype Decimal = Decimal(negative: bool, digits: nat, exponent: int)

  /** What a write returns: JSON values, and decimals besides. */
  datatype Value =
    | Nothing
    | Truth(b: bool)
    | Whole(n: int)
    | Binary(text: FloatText)
    | Text(s: string)
    | Exact(d: Decimal)
    | List(items: seq<Value>)
    | Dict(entries: seq<Entry>)

  datatype Entry = Entry(key: string, value: Value)

  const TAG: string := "__decimal__"

  /** How Decimal writes itself, and what Decimal(x) makes of any value; it may raise. */
  datatype Decimals = Decimals(show: Decimal -> string, read: Value -> Option<Decimal>)

  ghost predicate Faithful(ds: Decimals) {
    forall d :: ds.read(Text(ds.show(d))) == Some(d)
  }

  // ---- _DecimalPreservingEncoder ----

  function Encode(ds: Decimals, v: Value): Json
    decreases v
  {
    match v
    case Nothing => Null
    case Truth(b) => Bool(b)
    case Whole(n) => Int(n)
    case Binary(text) => Float(text)
    case Text(s) => Str(s)
    case Exact(d) => Obj([Field(TAG, Str(ds.show(d)))])
    case List(items) => Arr(EncodeItems(ds, items))
    case Dict(entries) => Obj(EncodeEntries(ds, entries))
  }

  function EncodeItems(ds: Decimals, items: seq<Value>): seq<Json>
    decreases items
  {
    if items == [] then [] else [Encode(ds, items[0])] + EncodeItems(ds, items[1..])
  }

  function EncodeEntries(ds: Decimals, entries: seq<Entry>): seq<Field>
    decreases entries
  {
    if entries == [] then [] else [Field(entries[0].key, Encode(ds, entries[0].value))] + EncodeEntries(ds, entries[1..])
  }

  // ---- json.loads with _decimal_object_hook; the hook sees inner objects first ----

  function Hook(ds: Decimals, entries: seq<Entry>): Option<Value> {
    if Tagged(entries) then
      match ds.read(entries[0].value)
      case Some(d) => Some(Exact(d))
      case None => None
    else Some(Dict(entries))
  }

  predicate Tagged(entries: seq<Entry>) {
    |entries| == 1 && entries[0].key == TAG
  }

  function Decode(ds: Decimals, j: Json): Option<Value>
    decreases j
  {
    match j
    case Null => Some(Nothing)
    case Bool(b) => Some(Truth(b))
    case Int(n) => Some(Whole(n))
    case Float(text) => Some(Binary(text))
    case Str(s) => Some(Text(s))
    case Arr(items) =>
      (match DecodeItems(ds, items)
       case Some(values) => Some(List(values))
       case None => None)
    case Obj(fields) =>
      (match DecodeFields(ds, fields)
       case Some(entries) => Hook(ds, entries)
       case None => None)
  }

  function DecodeItems(ds: Decimals, items: seq<Json>): Option<seq<Value>>
    decreases items
  {
    if items == [] then Some([]) else
      match (Decode(ds, items[0]), DecodeItems(ds, items[1..]))
      case (Some(v), Some(rest)) => Some([v] + rest)
      case _ => None
  }

  function DecodeFields(ds: Decimals, fields: seq<Field>): Option<seq<Entry>>
    decreases fields
  {
    if fields == [] then Some([]) else
      match (Decode(ds, fields[0].value), DecodeFields(ds, fields[1..]))
      case (Some(v), Some(rest)) => Some([Entry(fields[0].key, v)] + rest)
      case _ => None
  }

  // ---- When a replay returns what was committed ----

  /** A dict, at any depth, whose only key is the tag. */
  predicate HasTaggedDict(v: Value)
    decreases v
  {
    match v
    case List(items) => exists i :: 0 <= i < |items| && HasTaggedDict(items[i])
    case Dict(entries) => Tagged(entries) || exists i :: 0 <= i < |entries| && HasTaggedDict(entries[i].value)
    case _ => false
  }

  predicate SomeTagged(items: seq<Value>) {
    exists i :: 0 <= i < |items| && HasTaggedDict(items[i])
  }

  predicate SomeEntryTagged(entries: seq<Entry>) {
    exists i :: 0 <= i < |entries| && HasTaggedDict(entries[i].value)
  }

  /** Decoding the encoded result gives it back, decimals included, exactly when it holds no
      dict whose only key is the tag. */
  lemma {:induction false} ReplayIsFaithfulIff(ds: Decimals, v: Value)
    requires Faithful(ds)
    ensures Decode(ds, Encode(ds, v)) == Some(v) <==> !HasTaggedDict(v)
    decreases v
  {
    match v
    case List(items) => ItemsReplay(ds, items);
    case Dict(entries) => EntriesReplay(ds, entries);
    case Exact(d) =>
      var fields := [Field(TAG, Str(ds.show(d)))];
      assert fields[1..] == [] && DecodeFields(ds, []) == Some([]);
      assert Decode(ds, fields[0].value) == Some(Text(ds.show(d)));
      assert [Entry(TAG, Text(ds.show(d)))] + [] == [Entry(TAG, Text(ds.show(d)))];
      assert DecodeFields(ds, fields) == Some([Entry(TAG, Text(ds.show(d)))]);
    case _ =>
  }

  lemma {:induction false} ItemsReplay(ds: Decimals, items: seq<Value>)
    requires Faithful(ds)
    ensures DecodeItems(ds, EncodeItems(ds, items)) == Some(items) <==> !SomeTagged(items)
    decreases items
  {
    if items != [] {
      ReplayIsFaithfulIff(ds, items[0]);
      ItemsReplay(ds, items[1..]);
      hide HasTaggedDict;
      assert SomeTagged(items) <==> HasTaggedDict(items[0]) || SomeTagged(items[1..]);
      assert EncodeItems(ds, items)[1..] == EncodeItems(ds, items[1..]);
      assert items == [items[0]] + items[1..];
    }
  }

  lemma {:induction false} EntriesReplay(ds: Decimals, entries: seq<Entry>)
    requires Faithful(ds)
    ensures DecodeFields(ds, EncodeEntries(ds, entries)) == Some(entries) <==> !SomeEntryTagged(entries)
    ensures DecodeFields(ds, EncodeEntries(ds, entries)).Some? ==>
      Tagged(DecodeFields(ds, EncodeEntries(ds, entries)).value) == Tagged(entries)
    decreases entries
  {
    if entries != [] {
      ReplayIsFaithfulIff(ds, entries[0].value);
      EntriesReplay(ds, entries[1..]);
      hide HasTaggedDict;
      assert SomeEntryTagged(entries) <==> HasTaggedDict(entries[0].value) || SomeEntryTagged(entries[1..]);
      assert EncodeEntries(ds, entries)[1..] == EncodeEntries(ds, entries[1..]);
      assert entries == [entries[0]] + entries[1..];
    }
  }

  /** How a decimal, a dict and a list are written. */
  lemma {:induction false} EncodedForms(ds: Decimals, v: Value)
    ensures v.Exact? ==> Encode(ds, v) == Obj([Field("__decimal__", Str(ds.show(v.d)))])
    ensures v.List? ==> Encode(ds, v).Arr? && |Encode(ds, v).items| == |v.items|
    ensures v.Dict? ==> Encode(ds, v).Obj? && |Encode(ds, v).fields| == |v.entries|
  {
    match v
    case List(items) => ItemsCount(ds, items);
    case Dict(entries) => EntriesCount(ds, entries);
    case _ =>
  }

  lemma {:induction false} ItemsCount(ds: Decimals, items: seq<Value>)
    ensures |EncodeItems(ds, items)| == |items|
  {
    hide Encode;
    if items != [] {
      ItemsCount(ds, items[1..]);
    }
  }

  lemma {:induction false} EntriesCount(ds: Decimals, entries: seq<Entry>)
    ensures |EncodeEntries(ds, entries)| == |entries|
  {
    hide Encode;
    if entries != [] {
      EntriesCount(ds, entries[1..]);
    }
  }

  /** Two results kept as the same text are replayed as the same value. */
  lemma {:induction false} TextCarriesTheResult(ds: Decimals, v: Value, w: Value)
    requires Faithful(ds) && !HasTaggedDict(v) && !HasTaggedDict(w)
    requires Print(Encode(ds, v)) == Print(Encode(ds, w))
    ensures v == w
  {
    PrintInjective(Encode(ds, v), Encode(ds, w));
    ReplayIsFaithfulIff(ds, v);
    ReplayIsFaithfulIff(ds, w);
  }

  // ---- validate_idempotency_key and scoped_write_key ----

  predicate ValidKey(key: string) {
    key != "" && ':' !in key && |key| <= 128
  }

  /** The text that is hashed; None when the key is refused. */
  function ScopeText(user: int, operation: string, key: string): Option<string> {
    if ValidKey(key) then Some(IntText(user) + ":" + operation + ":" + key) else None
  }

  /** A key is refused when it is empty, holds a colon or is longer than 128; otherwise user, operation and
      key are joined by colons. */
  lemma {:induction false} ScopeTextIs(user: nat, operation: string, key: string)
    ensures ScopeText(user, operation, key) ==
      if key == "" || ':' in key || |key| > 128 then None else Some(Numerals.Decimal(user) + ":" + operation + ":" + key)
  {
  }

  /** Where a text without colons ends. */
  lemma ColonSplits(a: string, x: string, b: string, y: string)
    requires ':' !in a && ':' !in b && a + ":" + x == b + ":" + y
    ensures a == b && x == y
  {
    var s, t := a + ":" + x, b + ":" + y;
    assert s[|a|] == ':' && t[|b|] == ':';
    assert forall i | 0 <= i < |a| :: s[i] == a[i] && s[i] != ':';
    assert forall i | 0 <= i < |b| :: t[i] == b[i] && t[i] != ':';
    assert |a| == |b|;
    assert a == s[..|a|] && b == t[..|b|];
    assert x == s[|a| + 1..] && y == t[|b| + 1..];
  }

  /** Different users, operations or client keys are never hashed from the same text. */
  lemma {:induction false} ScopeTextInjective(u: int, f: string, k: string, v: int, g: string, l: string)
    requires ':' !in f && ':' !in g && ValidKey(k) && ValidKey(l)
    requires ScopeText(u, f, k) == ScopeText(v, g, l)
    ensures u == v && f == g && k == l
  {
    assert IntText(u) + ":" + f + ":" + k == IntText(u) + ":" + (f + ":" + k);
    assert IntText(v) + ":" + g + ":" + l == IntText(v) + ":" + (g + ":" + l);
    ColonSplits(IntText(u), f + ":" + k, IntText(v), g + ":" + l);
    ColonSplits(f, k, g, l);
    IntTextInjective(u, v);
  }
}
