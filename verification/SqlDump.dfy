/** Reading SQL dumps: field values and INSERT statements
    (scripts/legacy-migration/import-sql.ts:66-110). */
module SqlDump {
  import opened Text
  import opened SqlScanner

  /** A parsed field. `Inexact` keeps the literal of a number whose conversion
      to a double is left open: a decimal, or an integer beyond 2^53 - 1. */
  datatype Value = Null | Number(n: int) | Inexact(literal: string) | Str(s: string)

  type Row = map<string, Value>
  type Tables = map<string, seq<Row>>

  const MAX_SAFE := 0x1F_FFFF_FFFF_FFFF

  // ---------------------------------------------------------------------
  // parseValue

  function Unescape(c: char): char {
    match c
    case '0' => '\0'
    case 'n' => '\n'
    case 'r' => '\r'
    case 't' => '\t'
    case 'b' => '\U{8}'
    case 'Z' => '\U{1a}'
    case _ => c
  }

  /** The text between the quotes of a literal, with its escapes undone. */
  function Unquote(s: string): string {
    if s == "" then ""
    else if s[0] == '\\' && |s| > 1 then [Unescape(s[1])] + Unquote(s[2..])
    else if s[0] == '\'' && |s| > 1 && s[1] == '\'' then "'" + Unquote(s[2..])
    else [s[0]] + Unquote(s[1..])
  }

  predicate IsDigit(c: char) { '0' <= c <= '9' }

  predicate Digits(s: string) { s != "" && forall i :: 0 <= i < |s| ==> IsDigit(s[i]) }

  function Unsigned(s: string): string { if s != "" && s[0] == '-' then s[1..] else s }

  predicate IsInteger(s: string) { Digits(Unsigned(s)) }

  predicate IsDecimal(s: string) {
    var u := Unsigned(s);
    var dot := Find(u, '.', 0);
    dot < |u| && Digits(u[..dot]) && Digits(u[dot + 1..])
  }

  function Natural(s: string): nat
    requires s == "" || Digits(s)
  {
    if s == "" then 0 else 10 * Natural(s[..|s| - 1]) + (s[|s| - 1] as int - '0' as int)
  }

  function Numeral(s: string): Value
    requires IsInteger(s)
  {
    var n: int := Natural(Unsigned(s));
    if n > MAX_SAFE then Inexact(s) else Number(if s[0] == '-' then -n else n)
  }

  predicate IsNull(s: string) { |s| == 4 && MatchesAt(s, 0, "NULL") }

  predicate IsQuoted(s: string) { s != "" && s[0] == '\'' && s[|s| - 1] == '\'' }

  function Interior(s: string): string
    requires IsQuoted(s)
  {
    if |s| >= 2 then s[1..|s| - 1] else ""
  }

  function ValueOf(s: string): Value {
    if IsNull(s) then Null
    else if IsQuoted(s) then Str(Unquote(Interior(s)))
    else if IsInteger(s) then Numeral(s)
    else if IsDecimal(s) then Inexact(s)
    else Str(s)
  }

  /** What is left to read of a quoted literal when the loop stands at `index`. */
  ghost function Unread(value: string, index: nat): string
    requires IsQuoted(value) && |value| >= 2 && 1 <= index
  {
    if index < |value| then value[index..|value| - 1] else ""
  }

  lemma UnreadStep(value: string, index: nat)
    requires IsQuoted(value) && 1 <= index < |value| - 1
    ensures value[index] == '\\' && index + 1 < |value| - 1 ==>
      Unquote(Unread(value, index)) == [Unescape(value[index + 1])] + Unquote(Unread(value, index + 2))
    ensures value[index] == '\'' && value[index + 1] == '\'' ==>
      Unquote(Unread(value, index)) == "'" + Unquote(Unread(value, index + 2))
    ensures (value[index] != '\\' || index + 1 == |value| - 1) && !(value[index] == '\'' && value[index + 1] == '\'') ==>
      Unquote(Unread(value, index)) == [value[index]] + Unquote(Unread(value, index + 1))
  {
    var rest := Unread(value, index);
    assert rest[1..] == Unread(value, index + 1);
    if |rest| > 1 {
      assert rest[2..] == Unread(value, index + 2);
    }
  }

  lemma Regroup(a: string, b: string, c: string)
    ensures a + (b + c) == (a + b) + c
  {
  }

  method ParseQuoted(value: string) returns (output: string)
    requires IsQuoted(value)
    ensures output == Unquote(Interior(value))
  {
    output := "";
    var index := 1;
    while index < |value| - 1
      invariant 1 <= index
      invariant |value| == 1 ==> output == ""
      invariant |value| >= 2 ==> output + Unquote(Unread(value, index)) == Unquote(Interior(value))
    {
      UnreadStep(value, index);
      var piece := [value[index]];
      if value[index] == '\\' && index + 1 < |value| - 1 {
        index := index + 1;
        piece := [Unescape(value[index])];
      } else if value[index] == '\'' && value[index + 1] == '\'' {
        piece := "'";
        index := index + 1;
      }
      index := index + 1;
      Regroup(output, piece, Unquote(Unread(value, index)));
      output := output + piece;
    }
  }

  method ParseValue(value: string) returns (v: Value)
    ensures v == ValueOf(value)
  {
    if IsNull(value) {
      return Null;
    }
    if IsQuoted(value) {
      var output := ParseQuoted(value);
      return Str(output);
    }
    if IsInteger(value) {
      return Numeral(value);
    }
    if IsDecimal(value) {
      return Inexact(value);
    }
    return Str(value);
  }

  // ---------------------------------------------------------------------
  // The INSERT header

  /** A matched header: its two captures and the index just after it. */
  datatype Header = Header(table: string, columns: string, end: nat)

  /** A captured piece of the text and the index just after its closing mark. */
  datatype Capture = Capture(text: string, end: nat)

  /** Spaces, `open`, the text up to the next `close`, and `close`, at `i`. */
  function CaptureAt(s: string, i: nat, open: char, close: char): (c: Option<Capture>)
    ensures c.Some? ==> i < c.value.end <= |s|
  {
    if i > |s| then None else
      var a := SkipSpaces(s, i);
      if a == |s| || s[a] != open then None else
        var b := Find(s, close, a + 1);
        if b == |s| then None else Some(Capture(s[a + 1..b], b + 1))
  }

  /** The header pattern anchored at `i`. Every repeated class excludes the
      character that follows it, so the match is unique. */
  function HeaderAt(s: string, i: nat): (h: Option<Header>)
    ensures h.Some? ==> i < h.value.end <= |s|
  {
    if !MatchesAt(s, i, "INSERT INTO") || SkipSpaces(s, i + 11) == i + 11 then None else
      var name := CaptureAt(s, i + 11, '`', '`');
      if name.None? || name.value.text == "" then None else
        var columns := CaptureAt(s, name.value.end, '(', ')');
        if columns.None? then None else
          var e := SkipSpaces(s, columns.value.end);
          if !MatchesAt(s, e, "VALUES") then None
          else Some(Header(name.value.text, columns.value.text, SkipSpaces(s, e + 6)))
  }

  /** The leftmost header that starts at or after `i`. */
  function NextHeader(s: string, i: nat): (h: Option<Header>)
    ensures h.Some? ==> i < h.value.end <= |s|
    decreases |s| - i
  {
    if i >= |s| then None
    else if HeaderAt(s, i).Some? then HeaderAt(s, i)
    else NextHeader(s, i + 1)
  }

  /** `text.split(',')` */
  function SplitOn(s: string, c: char): seq<string>
    decreases |s|
  {
    var j := Find(s, c, 0);
    if j == |s| then [s] else [s[..j]] + SplitOn(s[j + 1..], c)
  }

  function Without(s: string, c: char): string {
    if s == "" then "" else (if s[0] == c then "" else [s[0]]) + Without(s[1..], c)
  }

  function ColumnNames(text: string): (names: seq<string>)
    ensures |names| == |SplitOn(text, ',')|
  {
    var parts := SplitOn(text, ',');
    seq(|parts|, i requires 0 <= i < |parts| => Without(Trim(parts[i]), '`'))
  }

  // ---------------------------------------------------------------------
  // parseDump

  const PROTO := "__proto__"

  /** A row under construction: its own fields, and whether it inherits the accessor
      `__proto__`, as a fresh object does. */
  datatype Object = Object(own: Row, inherits: bool)

  const FRESH := Object(map[], true)

  /** An assignment to a field. To the inherited accessor it sets no field; a null cuts
      the object off from the accessor, and anything else leaves it as it is. */
  function Assigned(o: Object, column: string, v: Value): Object {
    if column == PROTO && o.inherits then o.(inherits := v != Null) else o.(own := o.own[column := v])
  }

  /** The row that assigns the fields to the columns from left to right; a
      missing field is null and a repeated column keeps its last field. */
  function RowUpTo(columns: seq<string>, fields: seq<string>, n: nat): Object
    requires n <= |columns|
  {
    if n == 0 then FRESH
    else Assigned(RowUpTo(columns, fields, n - 1), columns[n - 1], ValueOf(if n - 1 < |fields| then fields[n - 1] else "NULL"))
  }

  function RowsOf(columns: seq<string>, tuples: seq<seq<string>>): (rows: seq<Row>)
    ensures |rows| == |tuples|
    ensures forall i :: 0 <= i < |rows| ==> rows[i] == RowUpTo(columns, tuples[i], |columns|).own
  {
    seq(|tuples|, i requires 0 <= i < |tuples| => RowUpTo(columns, tuples[i], |columns|).own)
  }

  function Lookup(tables: Tables, name: string): seq<Row> { if name in tables then tables[name] else [] }

  /** The tables after the statement whose header is `h`. */
  function AfterStatement(s: string, h: Header, tables: Tables): Tables
    requires h.end <= |s|
  {
    var body := s[h.end..];
    var rows := RowsOf(ColumnNames(h.columns), TupleFields(body[..FirstBare(body, ';')]));
    tables[h.table := Lookup(tables, h.table) + rows]
  }

  function StatementStop(s: string, h: Header): nat
    requires h.end <= |s|
  {
    h.end + FirstBare(s[h.end..], ';')
  }

  function ReadFrom(s: string, pos: nat, tables: Tables): Tables
    decreases |s| - pos
  {
    match NextHeader(s, pos)
    case None => tables
    case Some(h) => ReadFrom(s, StatementStop(s, h) + 1, AfterStatement(s, h, tables))
  }

  method ReadRows(columns: seq<string>, fields: seq<seq<string>>) returns (rows: seq<Row>)
    ensures rows == RowsOf(columns, fields)
  {
    hide ValueOf;
    rows := [];
    var t := 0;
    while t < |fields|
      invariant 0 <= t <= |fields|
      invariant rows == RowsOf(columns, fields)[..t]
    {
      var row := FRESH;
      var index := 0;
      while index < |columns|
        invariant 0 <= index <= |columns|
        invariant row == RowUpTo(columns, fields[t], index)
      {
        var v := ParseValue(if index < |fields[t]| then fields[t][index] else "NULL");
        row := Assigned(row, columns[index], v);
        index := index + 1;
      }
      rows := rows + [row.own];
      t := t + 1;
    }
  }

  method ParseDump(source: string) returns (tables: Tables)
    ensures tables == ReadFrom(source, 0, map[])
  {
    hide NextHeader, ColumnNames, TupleFields, FirstBare, RowsOf;
    tables := map[];
    var lastIndex := 0;
    var found := NextHeader(source, lastIndex);
    while found.Some?
      invariant found == NextHeader(source, lastIndex)
      invariant ReadFrom(source, 0, map[]) == ReadFrom(source, lastIndex, tables)
      decreases |source| - lastIndex
    {
      var h := found.value;
      var end := StatementEnd(source, h.end);
      var columns := ColumnNames(h.columns);
      assert source[h.end..end] == source[h.end..][..end - h.end];
      var fields := Tuples(source[h.end..end]);
      var rows := ReadRows(columns, fields);
      tables := tables[h.table := Lookup(tables, h.table) + rows];
      lastIndex := end + 1;
      found := NextHeader(source, lastIndex);
    }
  }
}
