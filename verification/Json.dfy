/**
 JSON values as Python's json module reads them, and the compact text that
 context_json writes for them (RFC 8259, sections 4 to 7).
 */
module Json {
  import opened Numerals
  import opened Wrappers

  /** The text repr() gives a float. Two floats are the same value exactly when
      this text is the same, so the text stands for the float. */
  type FloatText = s: string | IsFloatText(s) witness "NaN"

  predicate IsFloatText(s: string) {
    && s != []
    && (IsDigit(s[0]) || s[0] in "-NI")
    && Token(s)
    && (s[0] in "NI" || exists i :: 0 < i < |s| && !IsDigit(s[i]) && s[i] != '-')
  }

  predicate Token(s: string) {
    forall i | 0 <= i < |s| :: s[i] !in ",]}"
  }

  datatype Json =
    | Null
    | Bool(b: bool)
    | Int(n: int)
    | Float(text: FloatText)
    | Str(s: string)
    | Arr(items: seq<Json>)
    | Obj(fields: seq<Field>)

  /** One entry of a dict; a dict keeps its entries in insertion order. */
  datatype Field = Field(key: string, value: Json)

  /** Python dicts have no repeated key, at any depth. */
  predicate IsValue(v: Json) {
    match v
    case Arr(items) => forall i | 0 <= i < |items| :: IsValue(items[i])
    case Obj(fields) => DistinctKeys(fields) && forall i | 0 <= i < |fields| :: IsValue(fields[i].value)
    case _ => true
  }

  predicate DistinctKeys(fields: seq<Field>) {
    forall i, j | 0 <= i < j < |fields| :: fields[i].key != fields[j].key
  }

  // ---- The printer: json.dumps(..., ensure_ascii=False, separators=(",", ":")) ----

  function HexDigit(d: nat): char
    requires d < 16
  {
    "0123456789abcdef"[d]
  }

  /** The letter of a two-character escape. */
  function ShortEscape(c: char): Option<char> {
    if c == '"' || c == '\\' then Some(c)
    else if c == '\n' then Some('n')
    else if c == '\r' then Some('r')
    else if c == '\t' then Some('t')
    else if c == 8 as char then Some('b')
    else if c == 12 as char then Some('f')
    else None
  }

  function EscapeChar(c: char): (s: string)
    ensures s != []
  {
    if ShortEscape(c).Some? then ['\\', ShortEscape(c).value]
    else if c < ' ' then ['\\', 'u', '0', '0', HexDigit(c as nat / 16), HexDigit(c as nat % 16)]
    else [c]
  }

  function Escape(s: string): string {
    if s == "" then "" else EscapeChar(s[0]) + Escape(s[1..])
  }

  function Quote(s: string): string {
    ['"'] + (Escape(s) + ['"'])
  }

  function Print(v: Json): (s: string)
    decreases v
  {
    match v
    case Null => "null"
    case Bool(b) => if b then "true" else "false"
    case Int(n) => IntText(n)
    case Float(text) => text
    case Str(s) => Quote(s)
    case Arr(items) => ['['] + (PrintItems(items) + [']'])
    case Obj(fields) => ['{'] + (PrintFields(fields) + ['}'])
  }

  function PrintItems(items: seq<Json>): string
    decreases items
  {
    if items == [] then ""
    else if |items| == 1 then Print(items[0])
    else Print(items[0]) + ([','] + PrintItems(items[1..]))
  }

  function PrintFields(fields: seq<Field>): string
    decreases fields
  {
    if fields == [] then ""
    else
      var first := Quote(fields[0].key) + ([':'] + Print(fields[0].value));
      if |fields| == 1 then first else first + ([','] + PrintFields(fields[1..]))
  }

  // ---- Unique readability: no two values share a printed text ----

  /** What can follow a value inside a larger text: nothing, or a delimiter. */
  predicate Ends(x: string) {
    x == "" || x[0] in ",]}"
  }

  lemma Peel(p: string, x: string, q: string, y: string)
    requires p + x == q + y
    requires |p| == |q|
    ensures p == q && x == y
  {
    assert p == (p + x)[..|p|] && q == (q + y)[..|q|];
    assert x == (p + x)[|p|..] && y == (q + y)[|q|..];
  }

  lemma Overlap(p: string, x: string, q: string, y: string)
    requires p + x == q + y
    ensures forall i | 0 <= i < |p| && i < |q| :: p[i] == q[i]
    ensures |p| < |q| ==> x != "" && x[0] == q[|p|]
  {
    forall i | 0 <= i < |p| && i < |q| ensures p[i] == q[i] {
      assert (p + x)[i] == p[i] && (q + y)[i] == q[i];
    }
    assert |p| < |q| ==> (p + x)[|p|] == x[0] && (q + y)[|p|] == q[|p|];
  }

  /** The escapes form a prefix code. */
  lemma EscapeCharCode(c: char, d: char)
    requires forall i | 0 <= i < |EscapeChar(c)| && i < |EscapeChar(d)| :: EscapeChar(c)[i] == EscapeChar(d)[i]
    ensures c == d
  {
    var s, t := EscapeChar(c), EscapeChar(d);
    assert s[0] == t[0];
    assert |s| > 1 && |t| > 1 ==> s[1] == t[1];
    assert |s| > 5 && |t| > 5 ==> s[4] == t[4] && s[5] == t[5];
    EscapeKind(c);
    EscapeKind(d);
    hide EscapeChar;
    if |s| == 2 {
      ShortEscapeInjective(c, d);
    }
    if |s| == 6 {
      HexCode(c, d);
    }
  }

  lemma EscapeKind(c: char)
    ensures var s := EscapeChar(c);
            if ShortEscape(c).Some? then s == ['\\', ShortEscape(c).value] && ShortEscape(c).value != 'u'
            else if c < ' ' then |s| == 6 && s[0] == '\\' && s[1] == 'u' && s[4] == HexDigit(c as nat / 16) && s[5] == HexDigit(c as nat % 16)
            else s == [c] && c != '\\'
  {
  }

  lemma ShortEscapeInjective(c: char, d: char)
    requires ShortEscape(c).Some? && ShortEscape(d) == ShortEscape(c)
    ensures c == d
  {
  }

  lemma HexCode(c: char, d: char)
    requires c < ' ' && d < ' '
    requires HexDigit(c as nat / 16) == HexDigit(d as nat / 16) && HexDigit(c as nat % 16) == HexDigit(d as nat % 16)
    ensures c == d
  {
  }

  /** Two quoted strings with anything after them agree only if both parts do. */
  lemma {:induction false} EscapeUnique(s: string, t: string, x: string, y: string)
    requires Escape(s) + (['"'] + x) == Escape(t) + (['"'] + y)
    ensures s == t && x == y
    decreases |s| + |t|
  {
    var l, r := ['"'] + x, ['"'] + y;
    EscapeHead(s, l);
    EscapeHead(t, r);
    if s == "" || t == "" {
      assert s == t == "";
      Peel("", l, "", r);
      Peel(['"'], x, ['"'], y);
    } else {
      Overlap(EscapeChar(s[0]), Escape(s[1..]) + l, EscapeChar(t[0]), Escape(t[1..]) + r);
      EscapeCharCode(s[0], t[0]);
      Peel(EscapeChar(s[0]), Escape(s[1..]) + l, EscapeChar(t[0]), Escape(t[1..]) + r);
      EscapeUnique(s[1..], t[1..], x, y);
      assert s == [s[0]] + s[1..] && t == [t[0]] + t[1..];
    }
  }

  lemma EscapeHead(s: string, l: string)
    requires l != ""
    ensures s != "" ==> Escape(s) + l == EscapeChar(s[0]) + (Escape(s[1..]) + l)
    ensures (Escape(s) + l)[0] == if s == "" then l[0] else EscapeChar(s[0])[0]
    ensures s != "" ==> EscapeChar(s[0])[0] != '"'
  {
    if s != "" {
      Assoc(EscapeChar(s[0]), Escape(s[1..]), l);
    }
  }

  lemma QuoteUnique(s: string, t: string, x: string, y: string)
    requires Quote(s) + x == Quote(t) + y
    ensures s == t && x == y
  {
    Bracketed(['"'], Escape(s), ['"'], x);
    Bracketed(['"'], Escape(t), ['"'], y);
    Peel(['"'], Escape(s) + (['"'] + x), ['"'], Escape(t) + (['"'] + y));
    EscapeUnique(s, t, x, y);
  }

  lemma Bracketed(open: string, body: string, close: string, x: string)
    ensures (open + (body + close)) + x == open + (body + (close + x))
  {
    Assoc(open, body + close, x);
    Assoc(body, close, x);
  }

  /** A number, null, true or false stops at the first delimiter. */
  lemma TokenUnique(s: string, t: string, x: string, y: string)
    requires s + x == t + y
    requires Ends(x) && Ends(y) && Token(s) && Token(t)
    ensures s == t && x == y
  {
    Overlap(s, x, t, y);
    Overlap(t, y, s, x);
    Peel(s, x, t, y);
  }

  datatype Kind = KNull | KTrue | KFalse | KNumber | KString | KArray | KObject

  function KindOf(v: Json): Kind {
    match v
    case Null => KNull
    case Bool(b) => if b then KTrue else KFalse
    case Int(_) => KNumber
    case Float(_) => KNumber
    case Str(_) => KString
    case Arr(_) => KArray
    case Obj(_) => KObject
  }

  predicate Starts(c: char, k: Kind) {
    match k
    case KNull => c == 'n'
    case KTrue => c == 't'
    case KFalse => c == 'f'
    case KNumber => IsDigit(c) || c in "-NI"
    case KString => c == '"'
    case KArray => c == '['
    case KObject => c == '{'
  }

  lemma FirstChar(v: Json)
    ensures Print(v) != "" && Starts(Print(v)[0], KindOf(v))
    ensures Print(v)[0] !in ",]}"
  {
    if v.Int? {
      assert IntText(v.n)[0] in IntText(v.n);
    }
  }

  lemma ScalarUnique(a: Json, b: Json, x: string, y: string)
    requires Print(a) + x == Print(b) + y
    requires Ends(x) && Ends(y)
    requires !(a.Str? || a.Arr? || a.Obj?) && KindOf(a) == KindOf(b)
    ensures a == b && x == y
  {
    ScalarToken(a);
    ScalarToken(b);
    TokenUnique(Print(a), Print(b), x, y);
    if a.Int? && b.Int? {
      IntTextInjective(a.n, b.n);
    }
  }

  lemma ScalarToken(a: Json)
    requires !(a.Str? || a.Arr? || a.Obj?)
    ensures Token(Print(a))
    ensures a.Int? ==> !IsFloatText(Print(a))
  {
    if a.Int? {
      var s := IntText(a.n);
      forall i | 0 <= i < |s| ensures IsDigit(s[i]) || s[i] == '-' {
        assert s[i] in s;
      }
    }
  }

  lemma {:induction false} PrintUnique(a: Json, b: Json, x: string, y: string)
    requires Print(a) + x == Print(b) + y
    requires Ends(x) && Ends(y)
    ensures a == b && x == y
    decreases a, 1
  {
    FirstChar(a);
    FirstChar(b);
    Overlap(Print(a), x, Print(b), y);
    assert KindOf(a) == KindOf(b);
    match a
    case Str(s) => QuoteUnique(s, b.s, x, y);
    case Arr(items) =>
      var p, q := PrintItems(items), PrintItems(b.items);
      Bracketed(['['], p, [']'], x);
      Bracketed(['['], q, [']'], y);
      Peel(['['], p + ([']'] + x), ['['], q + ([']'] + y));
      ItemsUnique(items, b.items, x, y);
    case Obj(fields) =>
      var p, q := PrintFields(fields), PrintFields(b.fields);
      Bracketed(['{'], p, ['}'], x);
      Bracketed(['{'], q, ['}'], y);
      Peel(['{'], p + (['}'] + x), ['{'], q + (['}'] + y));
      FieldsUnique(fields, b.fields, x, y);
    case _ => ScalarUnique(a, b, x, y);
  }

  /** The text after the first of several entries: the list's close, or a comma and the rest. */
  function AfterFirst(rest: string, more: bool, close: string): string {
    if more then [','] + (rest + close) else close
  }

  lemma AfterFirstUnique(p: string, m: bool, q: string, n: bool, x: string, y: string)
    requires x != "" && y != "" && x[0] != ',' && y[0] != ','
    requires AfterFirst(p, m, x) == AfterFirst(q, n, y)
    ensures m == n
    ensures if m then p + x == q + y else x == y
  {
    if m && n {
      Peel([','], p + x, [','], q + y);
    }
  }

  lemma {:induction false} ItemsUnique(a: seq<Json>, b: seq<Json>, x: string, y: string)
    requires PrintItems(a) + ([']'] + x) == PrintItems(b) + ([']'] + y)
    ensures a == b && x == y
    decreases a, 0
  {
    var l, r := [']'] + x, [']'] + y;
    ItemsHead(a, l);
    ItemsHead(b, r);
    if a == [] || b == [] {
      assert a == b == [];
      Peel("", l, "", r);
      Peel([']'], x, [']'], y);
    } else {
      PrintUnique(a[0], b[0], AfterFirst(PrintItems(a[1..]), |a| > 1, l), AfterFirst(PrintItems(b[1..]), |b| > 1, r));
      AfterFirstUnique(PrintItems(a[1..]), |a| > 1, PrintItems(b[1..]), |b| > 1, l, r);
      if |a| > 1 {
        ItemsUnique(a[1..], b[1..], x, y);
      } else {
        Peel([']'], x, [']'], y);
      }
      assert a == [a[0]] + a[1..] && b == [b[0]] + b[1..];
    }
  }

  lemma ItemsHead(a: seq<Json>, close: string)
    requires close != ""
    ensures a != [] ==> PrintItems(a) + close == Print(a[0]) + AfterFirst(PrintItems(a[1..]), |a| > 1, close)
    ensures a != [] ==> (PrintItems(a) + close)[0] !in ",]}"
    ensures a == [] ==> (PrintItems(a) + close)[0] == close[0]
  {
    if a != [] {
      FirstChar(a[0]);
      Assoc(Print(a[0]), [','] + PrintItems(a[1..]), close);
      Assoc([','], PrintItems(a[1..]), close);
    }
  }

  lemma {:induction false} FieldsUnique(a: seq<Field>, b: seq<Field>, x: string, y: string)
    requires PrintFields(a) + (['}'] + x) == PrintFields(b) + (['}'] + y)
    ensures a == b && x == y
    decreases a, 0
  {
    var l, r := ['}'] + x, ['}'] + y;
    FieldsHead(a, l);
    FieldsHead(b, r);
    if a == [] || b == [] {
      assert a == b == [];
      Peel("", l, "", r);
      Peel(['}'], x, ['}'], y);
    } else {
      var x' := AfterFirst(PrintFields(a[1..]), |a| > 1, l);
      var y' := AfterFirst(PrintFields(b[1..]), |b| > 1, r);
      var p, q := Print(a[0].value) + x', Print(b[0].value) + y';
      QuoteUnique(a[0].key, b[0].key, [':'] + p, [':'] + q);
      Peel([':'], p, [':'], q);
      PrintUnique(a[0].value, b[0].value, x', y');
      AfterFirstUnique(PrintFields(a[1..]), |a| > 1, PrintFields(b[1..]), |b| > 1, l, r);
      if |a| > 1 {
        FieldsUnique(a[1..], b[1..], x, y);
      } else {
        Peel(['}'], x, ['}'], y);
      }
      assert a == [a[0]] + a[1..] && b == [b[0]] + b[1..];
    }
  }

  lemma FieldsHead(a: seq<Field>, close: string)
    requires close != ""
    ensures a != [] ==>
      PrintFields(a) + close ==
      Quote(a[0].key) + ([':'] + (Print(a[0].value) + AfterFirst(PrintFields(a[1..]), |a| > 1, close)))
    ensures (PrintFields(a) + close)[0] == if a == [] then close[0] else '"'
  {
    if a != [] {
      var key, value, rest := Quote(a[0].key), Print(a[0].value), PrintFields(a[1..]);
      var first := key + ([':'] + value);
      Assoc(first, [','] + rest, close);
      Assoc([','], rest, close);
      Assoc(key, [':'] + value, AfterFirst(rest, |a| > 1, close));
      Assoc([':'], value, AfterFirst(rest, |a| > 1, close));
    }
  }

  /** context_json never gives two values the same text. */
  lemma {:induction false} PrintInjective(a: Json, b: Json)
    requires Print(a) == Print(b)
    ensures a == b
  {
    assert Print(a) + "" == Print(b) + "";
    PrintUnique(a, b, "", "");
  }

  // ---- The forms of the printed text ----

  function Commas(parts: seq<string>): string {
    if parts == [] then "" else if |parts| == 1 then parts[0] else parts[0] + "," + Commas(parts[1..])
  }

  lemma {:induction false} ItemsForm(items: seq<Json>)
    ensures PrintItems(items) == Commas(seq(|items|, i requires 0 <= i < |items| => Print(items[i])))
  {
    var parts := seq(|items|, i requires 0 <= i < |items| => Print(items[i]));
    if |items| > 1 {
      ItemsForm(items[1..]);
      assert parts[1..] == seq(|items[1..]|, i requires 0 <= i < |items[1..]| => Print(items[1..][i]));
    }
  }

  lemma {:induction false} FieldsForm(fields: seq<Field>)
    ensures PrintFields(fields)
            == Commas(seq(|fields|, i requires 0 <= i < |fields| => Quote(fields[i].key) + ":" + Print(fields[i].value)))
  {
    var parts := seq(|fields|, i requires 0 <= i < |fields| => Quote(fields[i].key) + ":" + Print(fields[i].value));
    if fields != [] {
      assert Quote(fields[0].key) + ([':'] + Print(fields[0].value)) == parts[0];
    }
    if |fields| > 1 {
      FieldsForm(fields[1..]);
      assert parts[1..] == seq(|fields[1..]|, i requires 0 <= i < |fields[1..]| =>
                                 Quote(fields[1..][i].key) + ":" + Print(fields[1..][i].value));
    }
  }

  /** The printed text of every kind of value, without white space. */
  lemma {:induction false} PrintForms(v: Json)
    ensures match v
            case Null => Print(v) == "null"
            case Bool(b) => Print(v) == if b then "true" else "false"
            case Int(n) => Print(v) == (if n < 0 then "-" + Decimal(-n) else Decimal(n))
            case Float(text) => Print(v) == text
            case Str(s) => Print(v) == Quote(s)
            case Arr(items) => Print(v) == "[" + Commas(seq(|items|, i requires 0 <= i < |items| => Print(items[i]))) + "]"
            case Obj(fields) =>
              Print(v) == "{" + Commas(seq(|fields|, i requires 0 <= i < |fields| =>
                                             Quote(fields[i].key) + ":" + Print(fields[i].value))) + "}"
  {
    match v
    case Arr(items) => ItemsForm(items);
    case Obj(fields) => FieldsForm(fields);
    case _ =>
  }

  /** A quoted text is its characters between quotes: the seven with an escape of their own, other control
      characters by their code in four hexadecimal digits, and everything else as it is. */
  lemma {:induction false} QuoteForm(s: string, c: char)
    ensures Quote("") == "\"\""
    ensures Quote(s + [c]) == Quote(s)[..|Quote(s)| - 1] + (
      if c == '"' then "\\\"" else if c == '\\' then "\\\\" else if c == '\n' then "\\n" else if c == '\r' then "\\r"
      else if c == '\t' then "\\t" else if c == 8 as char then "\\b" else if c == 12 as char then "\\f"
      else if c < ' ' then "\\u00" + ["0123456789abcdef"[c as nat / 16], "0123456789abcdef"[c as nat % 16]]
      else [c]) + "\""
  {
    EscapeMore(s, c);
    EscapeCharForm(c);
    hide EscapeChar, ShortEscape, HexDigit, Escape;
    assert Quote(s)[..|Quote(s)| - 1] == ['"'] + Escape(s);
    EscapeNothing();
  }

  lemma EscapeNothing()
    ensures Escape("") == ""
  {
  }

  lemma {:induction false} EscapeMore(s: string, c: char)
    ensures Escape(s + [c]) == Escape(s) + EscapeChar(c)
  {
    if s == "" {
      assert s + [c] == [c] && [c][1..] == "";
    } else {
      assert (s + [c])[1..] == s[1..] + [c];
      EscapeMore(s[1..], c);
    }
  }

  lemma EscapeCharForm(c: char)
    ensures EscapeChar(c) ==
      if c == '"' then "\\\"" else if c == '\\' then "\\\\" else if c == '\n' then "\\n" else if c == '\r' then "\\r"
      else if c == '\t' then "\\t" else if c == 8 as char then "\\b" else if c == 12 as char then "\\f"
      else if c < ' ' then "\\u00" + ["0123456789abcdef"[c as nat / 16], "0123456789abcdef"[c as nat % 16]]
      else [c]
  {
  }
}
