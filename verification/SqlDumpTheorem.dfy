/** Parsing undoes printing for whole dumps. */
module SqlDumpTheorem {
  import opened Text
  import opened SqlScanner
  import opened SqlDump
  import opened SqlRoundTrip

  /** A written INSERT statement: `gap` is any text before it that does not
      contain the phrase INSERT INTO, such as comments and table definitions. */
  datatype Insert = Insert(gap: string, table: string, columns: seq<string>, rows: seq<seq<Literal>>) {
    ghost predicate Valid() {
      && Silent(gap)
      && table != "" && '`' !in table
      && columns != [] && (forall i :: 0 <= i < |columns| ==> GoodColumn(columns[i]))
      && ValidRows(rows) && (forall i :: 0 <= i < |rows| ==> |rows[i]| == |columns|)
    }
  }

  predicate GoodColumn(name: string) { '`' !in name && ',' !in name && ')' !in name }

  const PHRASE := "INSERT INTO"

  /** No INSERT phrase starts inside `gap`, even one that runs into the next statement. */
  ghost predicate Silent(gap: string) {
    forall k :: 0 <= k < |gap| ==> !MatchesAt(gap + PHRASE, k, PHRASE)
  }

  function Quoted(columns: seq<string>): (r: seq<string>)
    ensures |r| == |columns|
    ensures forall i :: 0 <= i < |r| ==> r[i] == "`" + columns[i] + "`"
  {
    seq(|columns|, i requires 0 <= i < |columns| => "`" + columns[i] + "`")
  }

  function ColumnsText(columns: seq<string>): string { Join(Quoted(columns), ", ") }

  /** The part of the header after the table name, followed by `rest`. */
  function AfterTable(columns: string, rest: string): string {
    " (" + (columns + (")" + (" VALUES " + rest)))
  }

  /** The header of a statement, followed by `rest`. */
  function HeaderText(table: string, columns: string, rest: string): (s: string)
    ensures |s| == 25 + |table| + |columns| + |rest|
  {
    PHRASE + (" `" + (table + ("`" + AfterTable(columns, rest))))
  }

  /** A whole statement, followed by `rest`. */
  function StatementText(st: Insert, rest: string): string {
    HeaderText(st.table, ColumnsText(st.columns), TuplesText(st.rows) + (";" + rest))
  }

  function DumpText(stmts: seq<Insert>, tail: string): string {
    if stmts == [] then tail
    else stmts[0].gap + StatementText(stmts[0], DumpText(stmts[1..], tail))
  }

  // ---------------------------------------------------------------------
  // Column lists

  /** Splitting "`a`, `b`, ..." at the commas and cleaning the pieces gives the
      names back; `lead` is the space left by a cut. */
  lemma {:induction false} NamesReadBack(lead: string, columns: seq<string>)
    requires columns != [] && forall i :: 0 <= i < |columns| ==> GoodColumn(columns[i])
    requires lead == "" || lead == " "
    ensures ColumnNames(lead + ColumnsText(columns)) == columns
    decreases |columns|
  {
    var name := "`" + columns[0] + "`";
    OneNameReadsBack(lead, columns[0]);
    if |columns| == 1 {
      NoCut(lead + name);
      assert ColumnsText(columns) == name;
    } else {
      ColumnsCons(columns);
      NamesReadBack(" ", columns[1..]);
      NamesStep(lead, name, columns, " " + ColumnsText(columns[1..]));
    }
  }

  lemma NamesStep(lead: string, name: string, columns: seq<string>, more: string)
    requires columns != [] && ',' !in lead + name && Without(Trim(lead + name), '`') == columns[0]
    requires ColumnNames(more) == columns[1..]
    ensures ColumnNames(lead + (name + ("," + more))) == columns
  {
    FirstCut(lead + name, more);
    assert lead + (name + ("," + more)) == (lead + name) + ("," + more);
    assert columns == [columns[0]] + columns[1..];
  }

  lemma ColumnsCons(columns: seq<string>)
    requires |columns| > 1
    ensures ColumnsText(columns) == ("`" + columns[0] + "`") + ("," + (" " + ColumnsText(columns[1..])))
  {
    var q := Quoted(columns);
    assert q == [q[0]] + Quoted(columns[1..]);
    JoinCons(q[0], Quoted(columns[1..]), ", ");
  }

  lemma NoCut(s: string)
    requires ',' !in s
    ensures ColumnNames(s) == [Without(Trim(s), '`')]
  {
    assert forall j :: 0 <= j < |s| ==> s[j] in s;
    FindIs(s, ',', 0, |s|);
  }

  lemma FirstCut(piece: string, more: string)
    requires ',' !in piece
    ensures ColumnNames(piece + ("," + more)) == [Without(Trim(piece), '`')] + ColumnNames(more)
  {
    var s := piece + ("," + more);
    forall k | 0 <= k < |piece| ensures s[k] != ',' {
      assert s[k] == piece[k];
    }
    FindIs(s, ',', 0, |piece|);
    assert s[..|piece|] == piece && s[|piece| + 1..] == more;
  }

  lemma OneNameReadsBack(lead: string, name: string)
    requires GoodColumn(name) && (lead == "" || lead == " ")
    ensures Without(Trim(lead + ("`" + name + "`")), '`') == name
    ensures ',' !in lead + ("`" + name + "`") && ')' !in lead + ("`" + name + "`")
  {
    hide Trim;
    var w := "`" + name + "`";
    TrimPadded(lead, w);
    WithoutConcat("`" + name, "`");
    WithoutConcat("`", name);
    WithoutAbsent(name);
    assert Without("`", '`') == "" by {
      assert "`"[1..] == "";
    }
  }

  lemma {:induction false} WithoutConcat(a: string, b: string)
    ensures Without(a + b, '`') == Without(a, '`') + Without(b, '`')
  {
    if a == "" {
      assert a + b == b;
    } else {
      WithoutConcat(a[1..], b);
      assert (a + b)[1..] == a[1..] + b;
    }
  }

  lemma {:induction false} WithoutAbsent(s: string)
    requires '`' !in s
    ensures Without(s, '`') == s
  {
    if s != "" {
      WithoutAbsent(s[1..]);
    }
  }

  lemma {:induction false} ColumnsHaveNoClose(columns: seq<string>)
    requires forall i :: 0 <= i < |columns| ==> GoodColumn(columns[i])
    ensures ')' !in ColumnsText(columns)
  {
    if columns != [] {
      var n := |columns| - 1;
      ColumnsHaveNoClose(columns[..n]);
      assert Quoted(columns)[..n] == Quoted(columns[..n]);
      OneNameReadsBack("", columns[n]);
      if n > 0 {
        assert ColumnsText(columns) == ColumnsText(columns[..n]) + ", " + Quoted(columns)[n];
      }
    }
  }

  // ---------------------------------------------------------------------
  // Headers

  /** The text `t` stands in `s` at `i`. */
  ghost predicate Holds(s: string, i: nat, t: string) {
    i + |t| <= |s| && s[i..i + |t|] == t
  }

  lemma HoldsSplit(s: string, i: nat, a: string, b: string)
    requires Holds(s, i, a + b)
    ensures Holds(s, i, a) && Holds(s, i + |a|, b)
  {
    assert s[i..i + |a|] == (a + b)[..|a|];
    assert s[i + |a|..i + |a| + |b|] == (a + b)[|a|..];
  }

  lemma CaptureReads(s: string, i: nat, open: char, close: char, t: string, rest: string)
    requires Holds(s, i, [' ', open] + (t + ([close] + rest)))
    requires !IsSpace(open) && close !in t
    ensures CaptureAt(s, i, open, close) == Some(Capture(t, i + 3 + |t|)) && SkipSpaces(s, i) == i + 1
    ensures Holds(s, i + 3 + |t|, rest)
  {
    HoldsSplit(s, i, [' ', open], t + ([close] + rest));
    assert s[i] == s[i..i + 2][0] && s[i + 1] == s[i..i + 2][1];
    HoldsSplit(s, i + 2, t, [close] + rest);
    var b := i + 2 + |t|;
    HoldsSplit(s, b, [close], rest);
    assert s[b] == s[b..b + 1][0];
    SkipsTo(s, i, i + 1);
    forall k | i + 2 <= k < b ensures s[k] != close {
      assert s[i + 2..b][k - i - 2] == s[k];
      assert t[k - i - 2] in t;
    }
    FindIs(s, close, i + 2, b);
  }

  lemma WordMatches(s: string, i: nat, word: string, rest: string)
    requires Holds(s, i, word + rest) && forall k :: 0 <= k < |word| ==> Upper(word[k]) == word[k]
    ensures MatchesAt(s, i, word) && Holds(s, i + |word|, rest)
  {
    HoldsSplit(s, i, word, rest);
    forall k | 0 <= k < |word| ensures Upper(s[i + k]) == word[k] {
      assert s[i..i + |word|][k] == s[i + k];
    }
  }

  lemma ValuesMatch(s: string, i: nat, rest: string)
    requires Holds(s, i, " VALUES " + rest) && rest != "" && !IsSpace(rest[0])
    ensures SkipSpaces(s, i) == i + 1 && MatchesAt(s, i + 1, "VALUES") && SkipSpaces(s, i + 7) == i + 8
    ensures Holds(s, i + 8, rest)
  {
    var w := " VALUES ";
    HoldsSplit(s, i, w, rest);
    assert s[i] == s[i..i + 8][0] == w[0] && s[i + 1] == s[i..i + 8][1] == w[1] && s[i + 7] == s[i..i + 8][7] == w[7];
    assert s[i + 8] == s[i + 8..i + 8 + |rest|][0];
    forall k | 0 <= k < 6 ensures Upper(s[i + 1 + k]) == "VALUES"[k] {
      assert s[i + 1 + k] == s[i..i + 8][1 + k] == w[1 + k] == "VALUES"[k];
    }
    SkipsTo(s, i, i + 1);
    SkipsTo(s, i + 7, i + 8);
  }

  lemma HeaderFrom(s: string, i: nat, table: string, columns: string, b: nat, d: nat)
    requires MatchesAt(s, i, PHRASE) && SkipSpaces(s, i + 11) == i + 12 && table != ""
    requires CaptureAt(s, i + 11, '`', '`') == Some(Capture(table, b))
    requires CaptureAt(s, b, '(', ')') == Some(Capture(columns, d))
    requires SkipSpaces(s, d) == d + 1 && MatchesAt(s, d + 1, "VALUES") && SkipSpaces(s, d + 7) == d + 8
    ensures HeaderAt(s, i) == Some(Header(table, columns, d + 8))
  {
    hide CaptureAt, SkipSpaces, MatchesAt;
  }

  lemma HeaderMatches(s: string, i: nat, table: string, columns: string, rest: string)
    requires Holds(s, i, HeaderText(table, columns, rest))
    requires table != "" && '`' !in table && ')' !in columns && rest != "" && !IsSpace(rest[0])
    ensures HeaderAt(s, i) == Some(Header(table, columns, i + 25 + |table| + |columns|))
    ensures Holds(s, i + 25 + |table| + |columns|, rest)
  {
    HeaderWalk(s, i, table, columns, rest, AfterTable(columns, rest));
  }

  lemma HeaderWalk(s: string, i: nat, table: string, columns: string, rest: string, p2: string)
    requires Holds(s, i, PHRASE + (" `" + (table + ("`" + p2)))) && p2 == AfterTable(columns, rest)
    requires table != "" && '`' !in table && ')' !in columns && rest != "" && !IsSpace(rest[0])
    ensures HeaderAt(s, i) == Some(Header(table, columns, i + 25 + |table| + |columns|))
    ensures Holds(s, i + 25 + |table| + |columns|, rest)
  {
    hide HeaderAt, CaptureAt, SkipSpaces, Find, MatchesAt, Holds;
    var b, d := i + 14 + |table|, i + 17 + |table| + |columns|;
    assert MatchesAt(s, i, PHRASE) && SkipSpaces(s, i + 11) == i + 12
           && CaptureAt(s, i + 11, '`', '`') == Some(Capture(table, b)) && Holds(s, b, p2) by {
      WordMatches(s, i, PHRASE, " `" + (table + ("`" + p2)));
      CaptureReads(s, i + 11, '`', '`', table, p2);
    }
    assert CaptureAt(s, b, '(', ')') == Some(Capture(columns, d)) && Holds(s, d, " VALUES " + rest) by {
      CaptureReads(s, b, '(', ')', columns, " VALUES " + rest);
    }
    ValuesMatch(s, d, rest);
    HeaderFrom(s, i, table, columns, b, d);
  }

  lemma {:induction false} SkipGap(s: string, from: nat, to: nat)
    requires from <= to <= |s|
    requires forall k :: from <= k < to ==> HeaderAt(s, k).None?
    ensures NextHeader(s, from) == NextHeader(s, to)
    ensures to < |s| && HeaderAt(s, to).Some? ==> NextHeader(s, from) == HeaderAt(s, to)
    decreases |s| - from
  {
    if from < to {
      SkipGap(s, from + 1, to);
    }
  }

  lemma PhraseShifts(s: string, k: nat, t: string, j: nat)
    requires k + 11 <= |s| && j + 11 <= |t| && s[k..k + 11] == t[j..j + 11]
    requires !MatchesAt(t, j, PHRASE)
    ensures HeaderAt(s, k).None?
  {
    var x :| 0 <= x < 11 && Upper(t[j + x]) != PHRASE[x];
    assert s[k..k + 11][x] == s[k + x] && t[j..j + 11][x] == t[j + x];
  }

  lemma SilentGap(pre: string, gap: string, next: string, k: nat)
    requires Silent(gap) && PHRASE <= next && |pre| <= k < |pre| + |gap|
    ensures HeaderAt(pre + (gap + next), k).None?
  {
    hide HeaderAt, MatchesAt, Silent;
    var s, t, j := pre + (gap + next), gap + PHRASE, k - |pre|;
    assert t == s[|pre|..][..|t|];
    assert s[k..k + 11] == s[|pre|..][j..j + 11] == t[j..j + 11];
    SilentAt(gap, j);
    PhraseShifts(s, k, t, j);
  }

  lemma SilentAt(gap: string, j: nat)
    requires Silent(gap) && j < |gap|
    ensures !MatchesAt(gap + PHRASE, j, PHRASE)
  {
  }

  lemma GapSkipped(pre: string, gap: string, next: string)
    requires Silent(gap) && PHRASE <= next && next != ""
    ensures HeaderAt(pre + (gap + next), |pre| + |gap|).Some? ==>
      NextHeader(pre + (gap + next), |pre|) == HeaderAt(pre + (gap + next), |pre| + |gap|)
  {
    hide *;
    forall k | |pre| <= k < |pre| + |gap| ensures HeaderAt(pre + (gap + next), k).None? {
      SilentGap(pre, gap, next, k);
    }
    SkipGap(pre + (gap + next), |pre|, |pre| + |gap|);
  }

  lemma SilentTail(pre: string, tail: string)
    requires Silent(tail)
    ensures NextHeader(pre + tail, |pre|).None?
  {
    forall k | |pre| <= k < |pre + tail| ensures HeaderAt(pre + tail, k).None? {
      TailAt(pre, tail, k);
    }
    SkipGap(pre + tail, |pre|, |pre + tail|);
  }

  lemma TailAt(pre: string, tail: string, k: nat)
    requires Silent(tail) && |pre| <= k < |pre + tail|
    ensures HeaderAt(pre + tail, k).None?
  {
    var s, t, j := pre + tail, tail + PHRASE, k - |pre|;
    SilentAt(tail, j);
    if k + 11 <= |s| {
      assert s[k..k + 11] == tail[j..j + 11] == t[j..j + 11];
      PhraseShifts(s, k, t, j);
    }
  }

  // ---------------------------------------------------------------------
  // What a dump means

  function RowFrom(columns: seq<string>, row: seq<Literal>, n: nat): Object
    requires n <= |columns| == |row|
  {
    if n == 0 then FRESH else Assigned(RowFrom(columns, row, n - 1), columns[n - 1], row[n - 1].Meaning())
  }

  function RowsFrom(columns: seq<string>, rows: seq<seq<Literal>>): (r: seq<Row>)
    requires forall i :: 0 <= i < |rows| ==> |rows[i]| == |columns|
    ensures |r| == |rows|
    ensures forall i :: 0 <= i < |r| ==> r[i] == RowFrom(columns, rows[i], |columns|).own
  {
    seq(|rows|, i requires 0 <= i < |rows| => RowFrom(columns, rows[i], |columns|).own)
  }

  ghost predicate DistinctNames(columns: seq<string>) { forall i, j :: 0 <= i < j < |columns| ==> columns[i] != columns[j] }

  lemma {:induction false} RowFromNames(columns: seq<string>, row: seq<Literal>, n: nat)
    requires n <= |columns| == |row| && DistinctNames(columns)
    ensures RowFrom(columns, row, n).own.Keys == (set i | 0 <= i < n :: columns[i]) - {PROTO}
    ensures PROTO !in columns[..n] ==> RowFrom(columns, row, n).inherits
  {
    hide Literal.Meaning;
    if n > 0 {
      RowFromNames(columns, row, n - 1);
      NamesBefore(columns, n);
      assert columns[n - 1] !in columns[..n - 1];
    }
  }

  lemma {:induction false} RowFromField(columns: seq<string>, row: seq<Literal>, n: nat, i: nat)
    requires i < n <= |columns| == |row| && DistinctNames(columns) && columns[i] != PROTO
    ensures var own := RowFrom(columns, row, n).own; columns[i] in own && own[columns[i]] == row[i].Meaning()
  {
    hide Literal.Meaning;
    if i < n - 1 {
      RowFromField(columns, row, n - 1, i);
      assert columns[i] != columns[n - 1];
    }
  }

  /** With distinct columns a row maps each column to the field written for it, and
      nothing else, except that a column named `__proto__` is not there. */
  lemma RowFromDistinct(columns: seq<string>, row: seq<Literal>, n: nat)
    requires n <= |columns| == |row| && DistinctNames(columns)
    ensures RowFrom(columns, row, n).own.Keys == (set i | 0 <= i < n :: columns[i]) - {PROTO}
    ensures forall i :: 0 <= i < n && columns[i] != PROTO ==>
      columns[i] in RowFrom(columns, row, n).own && RowFrom(columns, row, n).own[columns[i]] == row[i].Meaning()
  {
    hide Literal.Meaning, RowFrom;
    RowFromNames(columns, row, n);
    forall i | 0 <= i < n && columns[i] != PROTO
      ensures columns[i] in RowFrom(columns, row, n).own && RowFrom(columns, row, n).own[columns[i]] == row[i].Meaning()
    {
      RowFromField(columns, row, n, i);
    }
  }

  lemma NamesBefore(columns: seq<string>, n: nat)
    requires 0 < n <= |columns|
    ensures (set i | 0 <= i < n :: columns[i]) == (set i | 0 <= i < n - 1 :: columns[i]) + {columns[n - 1]}
    ensures columns[..n] == columns[..n - 1] + [columns[n - 1]]
  {
  }

  /** The rows written for `table`, in order, across all its statements. */
  ghost function RowsFor(stmts: seq<Insert>, table: string): seq<Row>
    requires forall i :: 0 <= i < |stmts| ==> stmts[i].Valid()
  {
    if stmts == [] then []
    else
      assert stmts[0].Valid();
      (if stmts[0].table == table then RowsFrom(stmts[0].columns, stmts[0].rows) else []) + RowsFor(stmts[1..], table)
  }

  lemma {:induction false} FieldsBecomeRow(columns: seq<string>, row: seq<Literal>, n: nat)
    requires n <= |columns| == |row| && ValidRow(row)
    ensures RowUpTo(columns, Texts(row), n) == RowFrom(columns, row, n)
  {
    hide ValueOf, Literal.Text, Literal.Meaning;
    if n > 0 {
      FieldsBecomeRow(columns, row, n - 1);
      assert row[n - 1].Valid() && Texts(row)[n - 1] == row[n - 1].Text();
      LiteralReadsBack(row[n - 1]);
    }
  }

  lemma TextHolds(pre: string, gap: string, text: string)
    ensures Holds(pre + (gap + text), |pre| + |gap|, text)
  {
  }

  lemma HoldsToEnd(s: string, i: nat, t: string)
    requires Holds(s, i, t) && i + |t| == |s|
    ensures s[i..] == t
  {
  }

  lemma HeaderFound(pre: string, gap: string, text: string, table: string, columns: string, post: string)
    requires Silent(gap) && text == HeaderText(table, columns, post) && PHRASE <= text
    requires table != "" && '`' !in table && ')' !in columns && post != "" && !IsSpace(post[0])
    ensures var s := pre + (gap + text);
      var h := Header(table, columns, |pre| + |gap| + 25 + |table| + |columns|);
      NextHeader(s, |pre|) == Some(h) && h.end <= |s| && s[h.end..] == post
  {
    hide NextHeader, HeaderAt, Holds, HeaderText, Silent;
    var s := pre + (gap + text);
    var i := |pre| + |gap|;
    TextHolds(pre, gap, text);
    HeaderMatches(s, i, table, columns, post);
    HoldsToEnd(s, i + 25 + |table| + |columns|, post);
    GapSkipped(pre, gap, text);
  }

  lemma StatementShape(st: Insert, rest: string)
    requires st.Valid()
    ensures var post := TuplesText(st.rows) + (";" + rest);
      && Silent(st.gap) && st.table != "" && '`' !in st.table && ')' !in ColumnsText(st.columns)
      && StatementText(st, rest) == HeaderText(st.table, ColumnsText(st.columns), post) && PHRASE <= StatementText(st, rest)
      && post != "" && !IsSpace(post[0])
  {
    hide Silent, ColumnsText, TuplesText;
    ColumnsHaveNoClose(st.columns);
    TuplesStart(st.rows, rest);
  }

  lemma StatementReadsBack(pre: string, st: Insert, rest: string, tables: Tables)
    requires st.Valid()
    ensures var s := pre + (st.gap + StatementText(st, rest));
      var next := NextHeader(s, |pre|);
      && next.Some?
      && StatementStop(s, next.value) + 1 + |rest| == |s| && s[|s| - |rest|..] == rest
      && AfterStatement(s, next.value, tables) == AfterInsert(tables, st)
  {
    hide NextHeader, AfterStatement, StatementStop, AfterInsert, StatementText, HeaderText, ColumnsText, TuplesText, Silent, IsSpace;
    var s := pre + (st.gap + StatementText(st, rest));
    var columns := ColumnsText(st.columns);
    var post := TuplesText(st.rows) + (";" + rest);
    StatementShape(st, rest);
    HeaderFound(pre, st.gap, StatementText(st, rest), st.table, columns, post);
    var h := NextHeader(s, |pre|).value;
    AfterBody(s, h, st, rest, tables);
  }

  lemma BodyStops(s: string, h: Header, rows: seq<seq<Literal>>, rest: string)
    requires ValidRows(rows) && h.end <= |s| && s[h.end..] == TuplesText(rows) + (";" + rest)
    ensures StatementStop(s, h) + 1 + |rest| == |s| && s[|s| - |rest|..] == rest
  {
    TuplesReadBack(rows, rest, s[h.end..]);
    hide TuplesText, FirstBare, TupleFields, ValidRows;
    assert s[|s| - |rest|..] == s[h.end..][|s| - |rest| - h.end..];
  }

  lemma ColumnsReadBack(columns: seq<string>)
    requires columns != [] && forall i :: 0 <= i < |columns| ==> GoodColumn(columns[i])
    ensures ColumnNames(ColumnsText(columns)) == columns
  {
    NamesReadBack("", columns);
    hide ColumnsText, ColumnNames;
    assert "" + ColumnsText(columns) == ColumnsText(columns);
  }

  lemma AfterBody(s: string, h: Header, st: Insert, rest: string, tables: Tables)
    requires st.Valid() && h.table == st.table && h.columns == ColumnsText(st.columns)
    requires h.end <= |s| && s[h.end..] == TuplesText(st.rows) + (";" + rest)
    ensures StatementStop(s, h) + 1 + |rest| == |s| && s[|s| - |rest|..] == rest
    ensures AfterStatement(s, h, tables) == AfterInsert(tables, st)
  {
    hide TuplesText, ColumnsText, ColumnNames, FirstBare, TupleFields, RowsOf, RowsFrom, ValidRows, GoodColumn, Silent;
    BodyStops(s, h, st.rows, rest);
    TuplesReadBack(st.rows, rest, s[h.end..]);
    ColumnsReadBack(st.columns);
    RowsBecome(st.columns, st.rows);
  }

  lemma TuplesStart(rows: seq<seq<Literal>>, rest: string)
    ensures var t := TuplesText(rows) + (";" + rest); t[0] == '(' || t[0] == ';'
  {
    if rows != [] {
      var q := TupleTexts(rows);
      if |rows| > 1 {
        assert q == [q[0]] + q[1..];
        JoinCons(q[0], q[1..], ",");
      }
    }
  }

  lemma RowsBecome(columns: seq<string>, rows: seq<seq<Literal>>)
    requires ValidRows(rows) && forall i :: 0 <= i < |rows| ==> |rows[i]| == |columns|
    ensures RowsOf(columns, TupleFields(TuplesText(rows))) == RowsFrom(columns, rows)
  {
    TuplesReadBack(rows, "", TuplesText(rows) + (";" + ""));
    forall i | 0 <= i < |rows|
      ensures RowUpTo(columns, Texts(rows[i]), |columns|) == RowFrom(columns, rows[i], |columns|)
    {
      FieldsBecomeRow(columns, rows[i], |columns|);
    }
  }

  // ---------------------------------------------------------------------
  // The round trip

  /** For every sequence of valid statements, with any gaps between them and any
      silent tail, parsing the printed dump gives for each table the rows written
      for it, in order, and no other table. */
  lemma DumpRoundTrip(stmts: seq<Insert>, tail: string)
    requires (forall i :: 0 <= i < |stmts| ==> stmts[i].Valid()) && Silent(tail)
    ensures var tables := ReadFrom(DumpText(stmts, tail), 0, map[]);
      forall t :: (t in tables <==> Named(stmts, t))
               && Lookup(tables, t) == RowsFor(stmts, t)
  {
    hide ReadFrom, DumpText, RowsFor;
    assert "" + DumpText(stmts, tail) == DumpText(stmts, tail);
    ReadRest("", stmts, tail, map[]);
  }

  ghost function AfterInsert(tables: Tables, st: Insert): Tables
    requires st.Valid()
  {
    tables[st.table := Lookup(tables, st.table) + RowsFrom(st.columns, st.rows)]
  }

  /** What `r` must hold once `stmts` have been read into `tables`. */
  ghost predicate Loaded(r: Tables, tables: Tables, stmts: seq<Insert>)
    requires forall i :: 0 <= i < |stmts| ==> stmts[i].Valid()
  {
    forall t :: (t in r <==> t in tables || Named(stmts, t))
             && Lookup(r, t) == Lookup(tables, t) + RowsFor(stmts, t)
  }

  lemma {:induction false} ReadRest(pre: string, stmts: seq<Insert>, tail: string, tables: Tables)
    requires (forall i :: 0 <= i < |stmts| ==> stmts[i].Valid()) && Silent(tail)
    ensures Loaded(ReadFrom(pre + DumpText(stmts, tail), |pre|, tables), tables, stmts)
    decreases |stmts|
  {
    hide NextHeader, AfterStatement, StatementStop, ReadFrom, StatementText, AfterInsert, Loaded;
    if stmts == [] {
      NothingLeft(pre, tail, tables);
    } else {
      var st := stmts[0];
      assert st.Valid();
      var more := DumpText(stmts[1..], tail);
      var s := pre + DumpText(stmts, tail);
      StatementReadsBack(pre, st, more, tables);
      var pre' := RestStarts(s, pre, st.gap, StatementText(st, more), more);
      ReadRest(pre', stmts[1..], tail, AfterInsert(tables, st));
      ReadOn(s, |pre|, |pre'|, tables, AfterInsert(tables, st));
      LoadStep(ReadFrom(s, |pre|, tables), tables, stmts);
    }
  }

  lemma NothingLeft(pre: string, tail: string, tables: Tables)
    requires Silent(tail)
    ensures Loaded(ReadFrom(pre + DumpText([], tail), |pre|, tables), tables, [])
  {
    hide HeaderAt;
    SilentTail(pre, tail);
  }

  lemma RestStarts(s: string, pre: string, gap: string, text: string, more: string) returns (pre': string)
    requires s == pre + (gap + text) && |more| <= |s| && s[|s| - |more|..] == more
    ensures s == pre' + more
  {
    pre' := s[..|s| - |more|];
  }

  lemma ReadOn(s: string, pos: nat, pos': nat, tables: Tables, tables': Tables)
    requires var next := NextHeader(s, pos);
      next.Some? && StatementStop(s, next.value) + 1 == pos' && AfterStatement(s, next.value, tables) == tables'
    ensures ReadFrom(s, pos, tables) == ReadFrom(s, pos', tables')
  {
    hide NextHeader, AfterStatement, FirstBare;
  }

  lemma LoadStep(r: Tables, tables: Tables, stmts: seq<Insert>)
    requires stmts != [] && stmts[0].Valid() && forall i :: 0 <= i < |stmts| ==> stmts[i].Valid()
    requires Loaded(r, AfterInsert(tables, stmts[0]), stmts[1..])
    ensures Loaded(r, tables, stmts)
  {
    forall t ensures (t in r <==> t in tables || Named(stmts, t)) && Lookup(r, t) == Lookup(tables, t) + RowsFor(stmts, t) {
      RowsAdd(stmts, t, tables);
    }
  }

  ghost predicate Named(stmts: seq<Insert>, t: string) {
    exists i :: 0 <= i < |stmts| && stmts[i].table == t
  }

  lemma NamedFirst(stmts: seq<Insert>, t: string)
    requires stmts != []
    ensures Named(stmts, t) <==> stmts[0].table == t || Named(stmts[1..], t)
  {
    var rest := stmts[1..];
    assert forall i :: 0 <= i < |rest| ==> rest[i] == stmts[i + 1];
    if Named(stmts, t) && stmts[0].table != t {
      var i :| 0 <= i < |stmts| && stmts[i].table == t;
      assert rest[i - 1].table == t;
    }
  }

  lemma LookupAdds(tables: Tables, name: string, mine: seq<Row>, more: seq<Row>, t: string)
    ensures Lookup(tables[name := Lookup(tables, name) + mine], t) + more
         == Lookup(tables, t) + ((if name == t then mine else []) + more)
  {
    if name == t {
      assert (Lookup(tables, t) + mine) + more == Lookup(tables, t) + (mine + more);
    } else {
      assert [] + more == more;
    }
  }

  lemma RowsAdd(stmts: seq<Insert>, t: string, tables: Tables)
    requires stmts != [] && stmts[0].Valid() && forall i :: 0 <= i < |stmts| ==> stmts[i].Valid()
    ensures Named(stmts, t) <==> stmts[0].table == t || Named(stmts[1..], t)
    ensures Lookup(AfterInsert(tables, stmts[0]), t) + RowsFor(stmts[1..], t) == Lookup(tables, t) + RowsFor(stmts, t)
  {
    NamedFirst(stmts, t);
    var st := stmts[0];
    assert |st.rows| == |RowsFrom(st.columns, st.rows)|;
    hide GoodColumn, Silent, ValidRows, RowsFrom, Named, Lookup, Insert.Valid;
    LookupAdds(tables, st.table, RowsFrom(st.columns, st.rows), RowsFor(stmts[1..], t), t);
  }

  /** The escaping of the dump tool, for arbitrary strings. */
  function Dumped(v: Value): Literal {
    match v
    case Null => NullLit
    case Number(n) => IntLit(n)
    case Str(s) => StrLit(EscapeAll(s))
    case Inexact(t) => StrLit(EscapeAll(t))
  }

  function EscapeAll(s: string): (g: seq<Glyph>)
    ensures |g| == |s| && forall i :: 0 <= i < |g| ==> g[i] == EscapeOne(s[i])
  {
    seq(|s|, i requires 0 <= i < |s| => EscapeOne(s[i]))
  }

  function EscapeOne(c: char): Glyph {
    match c
    case '\0' => Escape('0')
    case '\n' => Escape('n')
    case '\r' => Escape('r')
    case '\U{1a}' => Escape('Z')
    case '"' => Escape('"')
    case '\'' => Escape('\'')
    case '\\' => Escape('\\')
    case _ => Plain(c)
  }

  /** Escaping writes a valid literal for every string and every safe integer,
      so the round trip covers all of them. */
  lemma DumpedMeans(v: Value)
    requires !v.Inexact? && (v.Number? ==> -MAX_SAFE <= v.n <= MAX_SAFE)
    ensures Dumped(v).Valid() && Dumped(v).Meaning() == v
  {
    if v.Str? {
      EscapedMeans(v.s);
    }
  }

  lemma {:induction false} EscapedMeans(s: string)
    ensures GlyphMeaning(EscapeAll(s)) == s
  {
    if s != "" {
      EscapedMeans(s[1..]);
      assert EscapeAll(s)[1..] == EscapeAll(s[1..]);
    }
  }

  // ---------------------------------------------------------------------
  // The round trip on values

  /** One INSERT of rows of values. */
  datatype Batch = Batch(table: string, columns: seq<string>, rows: seq<seq<Value>>)

  /** Null, a safe integer, or any string. */
  predicate Storable(v: Value) { !v.Inexact? && (v.Number? ==> -MAX_SAFE <= v.n <= MAX_SAFE) }

  ghost predicate Printable(b: Batch) {
    && b.table != "" && '`' !in b.table
    && b.columns != [] && (forall i :: 0 <= i < |b.columns| ==> GoodColumn(b.columns[i]))
    && (forall i :: 0 <= i < |b.rows| ==> |b.rows[i]| == |b.columns| && forall j :: 0 <= j < |b.rows[i]| ==> Storable(b.rows[i][j]))
  }

  function Literals(row: seq<Value>): (r: seq<Literal>)
    ensures |r| == |row| && forall j :: 0 <= j < |r| ==> r[j] == Dumped(row[j])
  {
    seq(|row|, j requires 0 <= j < |row| => Dumped(row[j]))
  }

  function LiteralRows(rows: seq<seq<Value>>): (r: seq<seq<Literal>>)
    ensures |r| == |rows| && forall i :: 0 <= i < |r| ==> r[i] == Literals(rows[i])
  {
    seq(|rows|, i requires 0 <= i < |rows| => Literals(rows[i]))
  }

  /** The batch as the dump tool writes it, on a line of its own. */
  function Written(b: Batch): Insert { Insert("\n", b.table, b.columns, LiteralRows(b.rows)) }

  function WrittenAll(batches: seq<Batch>): (r: seq<Insert>)
    ensures |r| == |batches| && forall i :: 0 <= i < |r| ==> r[i] == Written(batches[i])
  {
    seq(|batches|, i requires 0 <= i < |batches| => Written(batches[i]))
  }

  /** The row the values are assigned to. */
  function RowOf(columns: seq<string>, values: seq<Value>, n: nat): Object
    requires n <= |columns| == |values|
  {
    if n == 0 then FRESH else Assigned(RowOf(columns, values, n - 1), columns[n - 1], values[n - 1])
  }

  /** The row that was printed: it maps the columns to the values. */
  function PrintedRow(columns: seq<string>, values: seq<Value>, n: nat): Row
    requires n <= |columns| == |values|
  {
    if n == 0 then map[] else PrintedRow(columns, values, n - 1)[columns[n - 1] := values[n - 1]]
  }

  /** No column is named `__proto__`, or a null in one comes before another. */
  predicate Whole(columns: seq<string>, values: seq<Value>)
    requires |columns| == |values|
  {
    PROTO in columns ==> exists i, j :: 0 <= i < j < |columns| && columns[i] == columns[j] == PROTO && values[i] == Null
  }

  /** What is read is what was printed, but for the field `__proto__`. */
  lemma {:induction false} RestAsPrinted(columns: seq<string>, values: seq<Value>, n: nat)
    requires n <= |columns| == |values|
    ensures RowOf(columns, values, n).own - {PROTO} == PrintedRow(columns, values, n) - {PROTO}
  {
    if n > 0 {
      RestAsPrinted(columns, values, n - 1);
      SetBeside(RowOf(columns, values, n - 1).own, PrintedRow(columns, values, n - 1), columns[n - 1], values[n - 1]);
    }
  }

  lemma SetBeside(a: Row, b: Row, column: string, v: Value)
    requires a - {PROTO} == b - {PROTO}
    ensures a[column := v] - {PROTO} == b[column := v] - {PROTO}
    ensures column == PROTO ==> a - {PROTO} == b[column := v] - {PROTO}
  {
    assert forall r: Row :: column != PROTO ==> r[column := v] - {PROTO} == (r - {PROTO})[column := v];
    assert column == PROTO ==> b[column := v] - {PROTO} == b - {PROTO};
    assert column == PROTO ==> a[column := v] - {PROTO} == a - {PROTO};
  }

  /** That field is there only when an assignment to it follows one of null. */
  lemma {:induction false} ReadAsPrinted(columns: seq<string>, values: seq<Value>, n: nat)
    requires n <= |columns| == |values|
    ensures var o, printed := RowOf(columns, values, n), PrintedRow(columns, values, n);
      && (PROTO in printed <==> PROTO in columns[..n])
      && (o.inherits <==> forall i :: 0 <= i < n && columns[i] == PROTO ==> values[i] != Null)
      && (PROTO in o.own <==> exists i, j :: 0 <= i < j < n && columns[i] == columns[j] == PROTO && values[i] == Null)
      && (PROTO in o.own ==> PROTO in printed && o.own[PROTO] == printed[PROTO])
  {
    if n > 0 {
      ReadAsPrinted(columns, values, n - 1);
      assert columns[..n] == columns[..n - 1] + [columns[n - 1]];
    }
  }

  lemma WholeIsPrinted(columns: seq<string>, values: seq<Value>)
    requires |columns| == |values|
    ensures RowOf(columns, values, |columns|).own == PrintedRow(columns, values, |columns|) <==> Whole(columns, values)
  {
    var o, printed := RowOf(columns, values, |columns|), PrintedRow(columns, values, |columns|);
    RestAsPrinted(columns, values, |columns|);
    ReadAsPrinted(columns, values, |columns|);
    hide RowOf, PrintedRow;
    assert columns[..|columns|] == columns;
    if PROTO in o.own <==> PROTO in printed {
      forall c | c in printed ensures c in o.own && o.own[c] == printed[c] {
        assert c != PROTO ==> c in printed - {PROTO} && (o.own - {PROTO})[c] == (printed - {PROTO})[c];
      }
      forall c | c in o.own ensures c in printed {
        assert c != PROTO ==> c in o.own - {PROTO};
      }
    }
  }

  ghost function RowsOfBatch(b: Batch): (r: seq<Row>)
    requires Printable(b)
    ensures |r| == |b.rows| && forall i :: 0 <= i < |r| ==> r[i] == RowOf(b.columns, b.rows[i], |b.columns|).own
  {
    seq(|b.rows|, i requires 0 <= i < |b.rows| => RowOf(b.columns, b.rows[i], |b.columns|).own)
  }

  ghost function PrintedRows(b: Batch): (r: seq<Row>)
    requires Printable(b)
    ensures |r| == |b.rows| && forall i :: 0 <= i < |r| ==> r[i] == PrintedRow(b.columns, b.rows[i], |b.columns|)
  {
    seq(|b.rows|, i requires 0 <= i < |b.rows| => PrintedRow(b.columns, b.rows[i], |b.columns|))
  }

  /** The rows printed for `table` across all batches, in order. */
  ghost function PrintedIn(batches: seq<Batch>, table: string): seq<Row>
    requires forall i :: 0 <= i < |batches| ==> Printable(batches[i])
  {
    if batches == [] then []
    else (if batches[0].table == table then PrintedRows(batches[0]) else []) + PrintedIn(batches[1..], table)
  }

  ghost predicate WholeBatch(b: Batch)
    requires Printable(b)
  {
    forall i :: 0 <= i < |b.rows| ==> Whole(b.columns, b.rows[i])
  }

  lemma BatchIsPrinted(b: Batch)
    requires Printable(b)
    ensures RowsOfBatch(b) == PrintedRows(b) <==> WholeBatch(b)
  {
    hide Whole, RowOf, PrintedRow;
    var read, printed := RowsOfBatch(b), PrintedRows(b);
    forall i | 0 <= i < |b.rows| ensures read[i] == printed[i] <==> Whole(b.columns, b.rows[i]) {
      WholeIsPrinted(b.columns, b.rows[i]);
    }
  }

  lemma ConcatsEqual<T>(a: seq<T>, b: seq<T>, c: seq<T>, d: seq<T>)
    requires |a| == |c|
    ensures a + b == c + d <==> a == c && b == d
  {
    if a + b == c + d {
      assert a == (a + b)[..|a|] && c == (c + d)[..|c|];
      assert b == (a + b)[|a|..] && d == (c + d)[|c|..];
    }
  }

  lemma {:induction false} TableIsPrinted(batches: seq<Batch>, table: string)
    requires forall i :: 0 <= i < |batches| ==> Printable(batches[i])
    ensures RowsIn(batches, table) == PrintedIn(batches, table)
      <==> forall i :: 0 <= i < |batches| && batches[i].table == table ==> WholeBatch(batches[i])
  {
    hide Printable, WholeBatch, RowsOfBatch, PrintedRows;
    if batches != [] {
      var first, rest := batches[0], batches[1..];
      TableIsPrinted(rest, table);
      BatchIsPrinted(first);
      ConcatsEqual(if first.table == table then RowsOfBatch(first) else [], RowsIn(rest, table),
                   if first.table == table then PrintedRows(first) else [], PrintedIn(rest, table));
      assert forall i :: 1 <= i < |batches| ==> batches[i] == rest[i - 1];
      assert forall i :: 0 <= i < |rest| ==> rest[i] == batches[i + 1];
    }
  }

  /** The rows of `table` across all batches, in order. */
  ghost function RowsIn(batches: seq<Batch>, table: string): seq<Row>
    requires forall i :: 0 <= i < |batches| ==> Printable(batches[i])
  {
    if batches == [] then []
    else (if batches[0].table == table then RowsOfBatch(batches[0]) else []) + RowsIn(batches[1..], table)
  }

  lemma {:induction false} WrittenRow(columns: seq<string>, values: seq<Value>, n: nat)
    requires n <= |columns| == |values| && forall j :: 0 <= j < |values| ==> Storable(values[j])
    ensures RowFrom(columns, Literals(values), n) == RowOf(columns, values, n)
  {
    hide Dumped, Literal.Meaning;
    if n > 0 {
      WrittenRow(columns, values, n - 1);
      DumpedMeans(values[n - 1]);
    }
  }

  lemma WrittenIsValid(b: Batch)
    requires Printable(b)
    ensures Written(b).Valid() && RowsFrom(b.columns, LiteralRows(b.rows)) == RowsOfBatch(b)
  {
    hide Dumped, Literal.Valid, GoodColumn;
    assert Silent("\n") by {
      assert Upper(("\n" + PHRASE)[0 + 0]) != PHRASE[0];
    }
    hide Silent;
    forall i, j | 0 <= i < |b.rows| && 0 <= j < |b.rows[i]| ensures LiteralRows(b.rows)[i][j].Valid() {
      DumpedMeans(b.rows[i][j]);
    }
    forall i | 0 <= i < |b.rows| ensures RowFrom(b.columns, Literals(b.rows[i]), |b.columns|) == RowOf(b.columns, b.rows[i], |b.columns|) {
      WrittenRow(b.columns, b.rows[i], |b.columns|);
    }
  }

  lemma {:induction false} WrittenRows(batches: seq<Batch>, table: string)
    requires forall i :: 0 <= i < |batches| ==> Printable(batches[i])
    ensures forall i :: 0 <= i < |batches| ==> WrittenAll(batches)[i].Valid()
    ensures RowsFor(WrittenAll(batches), table) == RowsIn(batches, table)
  {
    hide Printable, RowsFrom, RowsOfBatch;
    forall i | 0 <= i < |batches| ensures WrittenAll(batches)[i].Valid() {
      WrittenIsValid(batches[i]);
    }
    if batches != [] {
      WrittenIsValid(batches[0]);
      assert WrittenAll(batches)[1..] == WrittenAll(batches[1..]);
      WrittenRows(batches[1..], table);
    }
  }

  /** For every sequence of batches over well-formed names, of nulls, safe integers and
      arbitrary strings: parsing the escaped dump returns, for each table, its rows in
      order, across repeated statements, and no other table. The rows are exactly those
      printed if and only if none of them has a column `__proto__`, save one that is
      repeated after a null. */
  lemma ParseUndoesPrint(batches: seq<Batch>, table: string)
    requires forall i :: 0 <= i < |batches| ==> Printable(batches[i])
    ensures var tables := ReadFrom(DumpText(WrittenAll(batches), ""), 0, map[]);
      && (table in tables <==> exists i :: 0 <= i < |batches| && batches[i].table == table)
      && Lookup(tables, table) == RowsIn(batches, table)
      && (Lookup(tables, table) == PrintedIn(batches, table)
          <==> forall i :: 0 <= i < |batches| && batches[i].table == table ==> WholeBatch(batches[i]))
  {
    hide Printable, Insert.Valid, ReadFrom, DumpText, RowsFor, RowsIn, PrintedIn, WholeBatch, Lookup;
    TableIsPrinted(batches, table);
    WrittenRows(batches, table);
    var stmts := WrittenAll(batches);
    DumpRoundTrip(stmts, "");
    assert Named(stmts, table) <==> exists i :: 0 <= i < |batches| && batches[i].table == table by {
      assert forall i :: 0 <= i < |batches| ==> stmts[i].table == batches[i].table;
    }
  }

  /** Such a column is lost. */
  lemma ProtoIsLost()
    ensures var b := Batch("t", ["id", PROTO], [[Number(1), Str("a")]]);
      Lookup(ReadFrom(DumpText(WrittenAll([b]), ""), 0, map[]), "t") == [map["id" := Number(1)]]
  {
    var b := Batch("t", ["id", PROTO], [[Number(1), Str("a")]]);
    ProtoPrints(b);
    hide ReadFrom, DumpText, WrittenAll, Lookup, Printable, RowOf, RowsOfBatch;
    ParseUndoesPrint([b], "t");
    assert [b][1..] == [] && RowsIn([b], "t") == RowsOfBatch(b) + [];
  }

  lemma ProtoPrints(b: Batch)
    requires b == Batch("t", ["id", PROTO], [[Number(1), Str("a")]])
    ensures Printable(b) && RowsOfBatch(b) == [map["id" := Number(1)]]
  {
    assert RowOf(b.columns, b.rows[0], 1) == Object(map["id" := Number(1)], true);
  }
}
