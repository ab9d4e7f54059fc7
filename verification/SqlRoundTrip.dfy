/** A printer of SQL dumps, and the proof that the reader of
    scripts/legacy-migration/import-sql.ts undoes it. */
module SqlRoundTrip {
  import opened Text
  import opened SqlScanner
  import opened SqlDump

  // ---------------------------------------------------------------------
  // Literals

  /** One written character of a string literal. */
  datatype Glyph = Plain(c: char) | Doubled | Escape(c: char) {
    predicate Valid() { Plain? ==> c != '\'' && c != '\\' }
    function Text(): string {
      match this
      case Plain(c) => [c]
      case Doubled => "''"
      case Escape(c) => ['\\', c]
    }
    function Meaning(): char {
      match this
      case Plain(c) => c
      case Doubled => '\''
      case Escape(c) => Unescape(c)
    }
  }

  datatype Literal = NullLit | IntLit(n: int) | StrLit(glyphs: seq<Glyph>) {
    predicate Valid() {
      && (IntLit? ==> -MAX_SAFE <= n <= MAX_SAFE)
      && (StrLit? ==> forall i :: 0 <= i < |glyphs| ==> glyphs[i].Valid())
    }
    function Text(): string {
      match this
      case NullLit => "NULL"
      case IntLit(n) => IntText(n)
      case StrLit(glyphs) => "'" + GlyphText(glyphs) + "'"
    }
    function Meaning(): Value {
      match this
      case NullLit => Null
      case IntLit(n) => Number(n)
      case StrLit(glyphs) => Str(GlyphMeaning(glyphs))
    }
  }

  function GlyphText(glyphs: seq<Glyph>): string {
    if glyphs == [] then "" else glyphs[0].Text() + GlyphText(glyphs[1..])
  }

  function GlyphMeaning(glyphs: seq<Glyph>): (s: string)
    ensures |s| == |glyphs|
  {
    if glyphs == [] then "" else [glyphs[0].Meaning()] + GlyphMeaning(glyphs[1..])
  }

  function NatText(n: nat): (s: string)
    ensures Digits(s)
    ensures Natural(s) == n
  {
    var last := ('0' as int + n % 10) as char;
    if n < 10 then [last]
    else
      var s := NatText(n / 10) + [last];
      assert s[..|s| - 1] == NatText(n / 10);
      s
  }

  function IntText(n: int): string { if n < 0 then "-" + NatText(-n) else NatText(n) }

  lemma {:induction false} UnquoteGlyphs(glyphs: seq<Glyph>)
    requires forall i :: 0 <= i < |glyphs| ==> glyphs[i].Valid()
    ensures Unquote(GlyphText(glyphs)) == GlyphMeaning(glyphs)
  {
    if glyphs != [] {
      UnquoteGlyphs(glyphs[1..]);
      var t := GlyphText(glyphs);
      assert t[|glyphs[0].Text()|..] == GlyphText(glyphs[1..]);
      assert t[0] == glyphs[0].Text()[0];
      if !glyphs[0].Plain? {
        assert t[1] == glyphs[0].Text()[1];
      }
    }
  }

  lemma NullStartsWithN(t: string)
    ensures IsNull(t) ==> Upper(t[0]) == 'N'
  {
    if IsNull(t) {
      assert Upper(t[0 + 0]) == "NULL"[0];
    }
  }

  /** Every written form of a value reads back as that value. */
  lemma LiteralReadsBack(l: Literal)
    requires l.Valid()
    ensures ValueOf(l.Text()) == l.Meaning()
  {
    NullStartsWithN(l.Text());
    match l
    case NullLit =>
    case StrLit(glyphs) =>
      assert Interior(l.Text()) == GlyphText(glyphs);
      UnquoteGlyphs(glyphs);
    case IntLit(n) =>
      var t := l.Text();
      var u := NatText(if n < 0 then -n else n);
      assert Digits(u) && IsDigit(u[0]);
      if n < 0 {
        assert t[1..] == u;
      }
      assert Unsigned(t) == u;
  }

  // ---------------------------------------------------------------------
  // Literals under the scanners

  /** Read from state `q`, `t` has none of `marks` outside a literal. */
  ghost predicate Tame(q: Quote, t: string, marks: string) {
    t == "" ||
    (Tame(q, t[..|t| - 1], marks) && (Step(Run(q, t[..|t| - 1]), t[|t| - 1]) == Outside ==> t[|t| - 1] !in marks))
  }

  ghost predicate Done(q: Quote) { q == Outside || q == Closing }

  lemma {:induction false} TameConcat(q: Quote, a: string, b: string, marks: string)
    requires Tame(q, a, marks) && Tame(Run(q, a), b, marks)
    ensures Tame(q, a + b, marks)
  {
    if b == "" {
      assert a + b == a;
    } else {
      var h := b[..|b| - 1];
      TameConcat(q, a, h, marks);
      RunConcat(q, a, h);
      assert (a + b)[..|a + b| - 1] == a + h;
    }
  }

  lemma {:induction false} TameAt(q: Quote, t: string, marks: string, k: nat)
    requires Tame(q, t, marks) && k < |t|
    ensures Step(Run(q, t[..k]), t[k]) == Outside ==> t[k] !in marks
  {
    if k < |t| - 1 {
      TameAt(q, t[..|t| - 1], marks, k);
      assert t[..|t| - 1][..k] == t[..k];
    }
  }

  lemma OneMark(q: Quote, c: char, marks: string)
    ensures Run(q, [c]) == Step(q, c)
    ensures c !in marks ==> Tame(q, [c], marks)
  {
    assert [c][..0] == "";
  }

  lemma {:induction false} GlyphsStayInside(glyphs: seq<Glyph>, marks: string)
    requires forall i :: 0 <= i < |glyphs| ==> glyphs[i].Valid()
    ensures Run(Inside, GlyphText(glyphs)) == Inside
    ensures Tame(Inside, GlyphText(glyphs), marks)
  {
    if glyphs != [] {
      var g := glyphs[0].Text();
      assert g[..0] == "" && (|g| == 2 ==> g[..1] == [g[0]]);
      OneMark(Inside, g[0], marks);
      RunStep(Inside, g, 0);
      if |g| == 2 {
        RunStep(Inside, g, 1);
      }
      assert g[..|g|] == g;
      GlyphsStayInside(glyphs[1..], marks);
      RunConcat(Inside, g, GlyphText(glyphs[1..]));
      TameConcat(Inside, g, GlyphText(glyphs[1..]), marks);
    }
  }

  const MARKS := ",();"

  lemma {:induction false} PlainText(t: string)
    requires forall k :: 0 <= k < |t| ==> t[k] != '\'' && t[k] !in MARKS
    ensures Run(Outside, t) == Outside && Tame(Outside, t, MARKS)
  {
    if t != "" {
      PlainText(t[..|t| - 1]);
      OneMark(Outside, t[|t| - 1], MARKS);
      TameConcat(Outside, t[..|t| - 1], [t[|t| - 1]], MARKS);
      assert t == t[..|t| - 1] + [t[|t| - 1]];
    }
  }

  lemma LiteralIsTame(l: Literal)
    requires l.Valid()
    ensures Done(Run(Outside, l.Text())) && Tame(Outside, l.Text(), MARKS)
  {
    match l
    case NullLit => PlainText("NULL");
    case IntLit(n) => PlainText(l.Text());
    case StrLit(glyphs) =>
      GlyphsStayInside(glyphs, MARKS);
      OneMark(Outside, '\'', MARKS);
      OneMark(Inside, '\'', MARKS);
      RunConcat(Outside, "'", GlyphText(glyphs));
      RunConcat(Outside, "'" + GlyphText(glyphs), "'");
      TameConcat(Outside, "'", GlyphText(glyphs), MARKS);
      TameConcat(Outside, "'" + GlyphText(glyphs), "'", MARKS);
  }

  lemma LiteralIsTrim(l: Literal)
    requires l.Valid()
    ensures l.Text() != "" && Trim(l.Text()) == l.Text()
  {
    var t := l.Text();
    if l.IntLit? {
      var u := NatText(if l.n < 0 then -l.n else l.n);
      assert IsDigit(u[0]) && IsDigit(u[|u| - 1]);
      assert t[|t| - 1] == u[|u| - 1];
    }
    assert t != "" && !IsSpace(t[0]) && !IsSpace(t[|t| - 1]);
    TrimPadded("", t);
    assert "" + t == t;
  }

  lemma {:induction false} FieldsPassTame(f: Fields, t: string)
    requires Tame(f.q, t, ",")
    ensures FieldRun(f, t) == Fields(Run(f.q, t), f.done, f.cur + t)
  {
    if t != "" {
      var h := t[..|t| - 1];
      FieldsPassTame(f, h);
      assert t == h + [t[|t| - 1]];
    } else {
      assert f.cur + t == f.cur;
    }
  }

  lemma {:induction false} GroupsPassTame(g: Groups, t: string)
    requires Tame(g.q, t, "()")
    ensures GroupRun(g, t) == Groups(Run(g.q, t), g.depth, if g.body.Some? then Some(g.body.value + t) else None, g.done)
  {
    if t != "" {
      var h := t[..|t| - 1];
      GroupsPassTame(g, h);
      assert t == h + [t[|t| - 1]];
      if g.body.Some? {
        assert g.body.value + t == (g.body.value + h) + [t[|t| - 1]];
      }
    } else if g.body.Some? {
      assert g.body.value + t == g.body.value;
    }
  }

  lemma {:induction false} TameFewer(q: Quote, t: string, marks: string, fewer: string)
    requires Tame(q, t, marks) && forall c :: c in fewer ==> c in marks
    ensures Tame(q, t, fewer)
  {
    if t != "" {
      TameFewer(q, t[..|t| - 1], marks, fewer);
    }
  }

  // ---------------------------------------------------------------------
  // Rows

  function Texts(row: seq<Literal>): (r: seq<string>)
    ensures |r| == |row|
    ensures forall i :: 0 <= i < |r| ==> r[i] == row[i].Text()
  {
    seq(|row|, i requires 0 <= i < |row| => row[i].Text())
  }

  function RowText(row: seq<Literal>): string { Join(Texts(row), ",") }

  ghost predicate ValidRow(row: seq<Literal>) {
    row != [] && forall i :: 0 <= i < |row| ==> row[i].Valid()
  }

  /** The text `t` read as fields: its last field is still open. */
  ghost predicate ReadsAs(t: string, done: seq<string>, cur: string) {
    && Done(Run(Outside, t)) && Tame(Outside, t, "();")
    && FieldRun(Fields(Outside, [], ""), t) == Fields(Run(Outside, t), done, cur)
  }

  lemma AppendComma(t: string, done: seq<string>, cur: string)
    requires ReadsAs(t, done, cur)
    ensures ReadsAs(t + ",", done + [cur], "")
    ensures Run(Outside, t + ",") == Outside
  {
    OneMark(Run(Outside, t), ',', "();");
    RunConcat(Outside, t, ",");
    TameConcat(Outside, t, ",", "();");
    FieldRunConcat(Fields(Outside, [], ""), t, ",");
    assert ","[..0] == "";
  }

  lemma AppendLiteral(t: string, done: seq<string>, l: Literal)
    requires ReadsAs(t, done, "") && Run(Outside, t) == Outside && l.Valid()
    ensures ReadsAs(t + l.Text(), done, l.Text())
  {
    LiteralIsTame(l);
    TameFewer(Outside, l.Text(), MARKS, ",");
    TameFewer(Outside, l.Text(), MARKS, "();");
    RunConcat(Outside, t, l.Text());
    TameConcat(Outside, t, l.Text(), "();");
    FieldRunConcat(Fields(Outside, [], ""), t, l.Text());
    FieldsPassTame(Fields(Outside, done, ""), l.Text());
    assert "" + l.Text() == l.Text();
  }

  lemma RowSnoc(row: seq<Literal>, l: Literal)
    ensures Texts(row + [l]) == Texts(row) + [l.Text()]
    ensures RowText(row + [l]) == if row == [] then l.Text() else (RowText(row) + ",") + l.Text()
  {
    assert Texts(row + [l])[..|row|] == Texts(row);
  }

  lemma {:induction false} RowReadsAs(row: seq<Literal>, l: Literal)
    requires (row == [] || ValidRow(row)) && l.Valid()
    ensures ReadsAs(RowText(row + [l]), Texts(row), l.Text())
  {
    RowSnoc(row, l);
    if row == [] {
      AppendLiteral("", [], l);
      assert "" + l.Text() == l.Text();
    } else {
      var init, last := row[..|row| - 1], row[|row| - 1];
      assert row == init + [last];
      RowReadsAs(init, last);
      RowSnoc(init, last);
      AppendComma(RowText(row), Texts(init), last.Text());
      AppendLiteral(RowText(row) + ",", Texts(row), l);
    }
  }

  lemma RowScans(row: seq<Literal>)
    requires ValidRow(row)
    ensures Done(Run(Outside, RowText(row))) && Tame(Outside, RowText(row), "();")
    ensures Pieces(RowText(row)) == Texts(row)
  {
    var init, last := row[..|row| - 1], row[|row| - 1];
    assert row == init + [last];
    RowReadsAs(init, last);
    RowSnoc(init, last);
  }

  lemma RowReadsBack(row: seq<Literal>)
    requires ValidRow(row)
    ensures TrimAll(Pieces(RowText(row))) == Texts(row)
  {
    RowScans(row);
    forall i | 0 <= i < |row| ensures Trim(row[i].Text()) == row[i].Text() {
      LiteralIsTrim(row[i]);
    }
  }

  function TupleTexts(rows: seq<seq<Literal>>): (r: seq<string>)
    ensures |r| == |rows|
    ensures forall i :: 0 <= i < |r| ==> r[i] == "(" + RowText(rows[i]) + ")"
  {
    seq(|rows|, i requires 0 <= i < |rows| => "(" + RowText(rows[i]) + ")")
  }

  function RowTexts(rows: seq<seq<Literal>>): (r: seq<string>)
    ensures |r| == |rows|
    ensures forall i :: 0 <= i < |r| ==> r[i] == RowText(rows[i])
  {
    seq(|rows|, i requires 0 <= i < |rows| => RowText(rows[i]))
  }

  function TuplesText(rows: seq<seq<Literal>>): string { Join(TupleTexts(rows), ",") }

  ghost predicate ValidRows(rows: seq<seq<Literal>>) {
    forall i :: 0 <= i < |rows| ==> ValidRow(rows[i])
  }

  /** The text `t` read as groups: `done` are closed and none is open. */
  ghost predicate GroupsAs(t: string, done: seq<string>) {
    && Run(Outside, t) == Outside && Tame(Outside, t, ";")
    && GroupRun(NO_GROUPS, t) == Groups(Outside, 0, None, done)
  }

  lemma AppendMark(t: string, g: Groups, c: char)
    requires Done(Run(Outside, t)) && Tame(Outside, t, ";") && GroupRun(NO_GROUPS, t) == g && g.q == Run(Outside, t)
    requires c in ",()"
    ensures Run(Outside, t + [c]) == Outside && Tame(Outside, t + [c], ";")
    ensures GroupRun(NO_GROUPS, t + [c]) == GroupStep(g, c)
  {
    OneMark(Run(Outside, t), c, ";");
    RunConcat(Outside, t, [c]);
    TameConcat(Outside, t, [c], ";");
    GroupRunConcat(NO_GROUPS, t, [c]);
    assert [c][..0] == "";
  }

  lemma AppendBody(t: string, done: seq<string>, row: seq<Literal>)
    requires Run(Outside, t) == Outside && Tame(Outside, t, ";") && ValidRow(row)
    requires GroupRun(NO_GROUPS, t) == Groups(Outside, 1, Some(""), done)
    ensures Done(Run(Outside, t + RowText(row))) && Tame(Outside, t + RowText(row), ";")
    ensures GroupRun(NO_GROUPS, t + RowText(row))
         == Groups(Run(Outside, t + RowText(row)), 1, Some(RowText(row)), done)
  {
    var r := RowText(row);
    RowScans(row);
    TameFewer(Outside, r, "();", ";");
    TameFewer(Outside, r, "();", "()");
    RunConcat(Outside, t, r);
    TameConcat(Outside, t, r, ";");
    GroupRunConcat(NO_GROUPS, t, r);
    GroupsPassTame(Groups(Outside, 1, Some(""), done), r);
    assert "" + r == r;
  }

  lemma AppendTuple(t: string, done: seq<string>, row: seq<Literal>)
    requires GroupsAs(t, done) && ValidRow(row)
    ensures GroupsAs(t + ("(" + RowText(row) + ")"), done + [RowText(row)])
  {
    hide Tame, GroupRun, Run, RowText;
    var r := RowText(row);
    AppendMark(t, Groups(Outside, 0, None, done), '(');
    var u := t + "(";
    AppendBody(u, done, row);
    AppendMark(u + r, Groups(Run(Outside, u + r), 1, Some(r), done), ')');
    assert t + ("(" + r + ")") == (u + r) + ")";
  }

  lemma TuplesSnoc(rows: seq<seq<Literal>>, row: seq<Literal>)
    ensures RowTexts(rows + [row]) == RowTexts(rows) + [RowText(row)]
    ensures TuplesText(rows + [row])
         == (if rows == [] then "" else TuplesText(rows) + ",") + ("(" + RowText(row) + ")")
  {
    assert TupleTexts(rows + [row])[..|rows|] == TupleTexts(rows);
  }

  lemma {:induction false} TuplesScan(rows: seq<seq<Literal>>)
    requires ValidRows(rows)
    ensures GroupsAs(TuplesText(rows), RowTexts(rows))
  {
    if rows != [] {
      var init, last := rows[..|rows| - 1], rows[|rows| - 1];
      assert rows == init + [last];
      TuplesScan(init);
      TuplesSnoc(init, last);
      var t := TuplesText(init);
      if init != [] {
        AppendMark(t, Groups(Outside, 0, None, RowTexts(init)), ',');
        t := t + ",";
      }
      AppendTuple(t, RowTexts(init), last);
    }
  }

  /** The printed rows of a statement, followed by `;` and any text, end where
      they should and give their fields back. */
  lemma TuplesReadBack(rows: seq<seq<Literal>>, rest: string, s: string)
    requires ValidRows(rows) && s == TuplesText(rows) + (";" + rest)
    ensures FirstBare(s, ';') == |TuplesText(rows)| <= |s| && s[..FirstBare(s, ';')] == TuplesText(rows)
    ensures |TupleFields(TuplesText(rows))| == |rows|
    ensures forall i :: 0 <= i < |rows| ==> TupleFields(TuplesText(rows))[i] == Texts(rows[i])
  {
    TuplesScan(rows);
    StopsAtMark(TuplesText(rows), rest, s);
    forall i | 0 <= i < |rows| ensures TupleFields(TuplesText(rows))[i] == Texts(rows[i]) {
      RowReadsBack(rows[i]);
    }
  }

  lemma StopsAtMark(t: string, rest: string, s: string)
    requires Run(Outside, t) == Outside && Tame(Outside, t, ";") && s == t + (";" + rest)
    ensures FirstBare(s, ';') == |t| && s[..|t|] == t
  {
    assert s[..|t|] == t && s[|t|] == ';' && Bare(s, |t|);
    forall k | 0 <= k < |t| && s[k] == ';' ensures !Bare(s, k) {
      assert s[..k] == t[..k] && s[k] == t[k];
      TameAt(Outside, t, ";", k);
    }
  }
}
