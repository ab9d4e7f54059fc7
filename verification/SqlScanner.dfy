/** The hand-written scanners of the SQL dump reader
    (scripts/legacy-migration/import-sql.ts:41-95) against one quote automaton. */
module SqlScanner {
  import opened Text

  /** Where a character-by-character reader stands. `Closing` has just read a
      quote that ends the literal unless another quote follows. */
  datatype Quote = Outside | Inside | Escaped | Closing

  function Step(q: Quote, c: char): Quote {
    match q
    case Outside => if c == '\'' then Inside else Outside
    case Inside => if c == '\\' then Escaped else if c == '\'' then Closing else Inside
    case Escaped => Inside
    case Closing => if c == '\'' then Inside else Outside
  }

  function Run(q: Quote, s: string): Quote {
    if s == "" then q else Step(Run(q, s[..|s| - 1]), s[|s| - 1])
  }

  lemma RunStep(q: Quote, s: string, i: nat)
    requires i < |s|
    ensures Run(q, s[..i + 1]) == Step(Run(q, s[..i]), s[i])
  {
    assert s[..i + 1][..i] == s[..i];
  }

  lemma {:induction false} RunConcat(q: Quote, a: string, b: string)
    ensures Run(q, a + b) == Run(Run(q, a), b)
  {
    if b == "" {
      assert a + b == a;
    } else {
      RunConcat(q, a, b[..|b| - 1]);
      assert (a + b)[..|a + b| - 1] == a + b[..|b| - 1];
    }
  }

  /** The character at `k` lies outside every literal of `s`. */
  predicate Bare(s: string, k: nat) {
    k < |s| && Step(Run(Outside, s[..k]), s[k]) == Outside
  }

  /** A scan restarted on a slice that begins outside a literal sees the same
      bare characters as the scan of the whole text. */
  lemma Restart(s: string, p: nat, k: nat)
    requires p <= |s| && k <= |s| - p
    requires Run(Outside, s[..p]) == Outside || (Run(Outside, s[..p]) == Closing && Bare(s, p))
    ensures k > 0 ==> Run(Outside, s[p..p + k]) == Run(Outside, s[..p + k])
    ensures Bare(s[p..], k) <==> Bare(s, p + k)
  {
    if k > 0 {
      RestartRun(s, p, k);
    }
    assert s[p..][..k] == s[p..p + k];
    if k < |s| - p {
      assert s[p..][k] == s[p + k];
    }
    if k == 0 {
      assert s[p..p + k] == "";
    }
  }

  lemma {:induction false} RestartRun(s: string, p: nat, k: nat)
    requires p <= |s| && 0 < k <= |s| - p
    requires Run(Outside, s[..p]) == Outside || (Run(Outside, s[..p]) == Closing && Bare(s, p))
    ensures Run(Outside, s[p..p + k]) == Run(Outside, s[..p + k])
  {
    var t := s[p..p + k];
    assert s[..p + k][..p + k - 1] == s[..p + k - 1];
    assert t[..k - 1] == s[p..p + k - 1];
    if k == 1 {
      assert t[..0] == "";
      assert s[p..p + 1][0] == s[p];
    } else {
      RestartRun(s, p, k - 1);
    }
  }

  // ---------------------------------------------------------------------
  // statementEnd

  /** The least index of a bare `c` at or after `i`, or the length. */
  function FirstBareFrom(s: string, c: char, i: nat): (k: nat)
    requires i <= |s|
    ensures i <= k <= |s|
    ensures k < |s| ==> Bare(s, k) && s[k] == c
    ensures forall j :: i <= j < k && s[j] == c ==> !Bare(s, j)
    decreases |s| - i
  {
    if i < |s| && !(Bare(s, i) && s[i] == c) then FirstBareFrom(s, c, i + 1) else i
  }

  function FirstBare(s: string, c: char): (k: nat)
    ensures k <= |s|
  {
    FirstBareFrom(s, c, 0)
  }

  /** What the scanners' `quoted` flag says at `index`, in automaton terms. An
      escape at the very end moves the index past the text. */
  ghost predicate Synced(s: string, index: nat, quoted: bool) {
    && index <= |s| + 1
    && (index <= |s| && quoted ==> Run(Outside, s[..index]) == Inside)
    && (index <= |s| && !quoted ==> Run(Outside, s[..index]) in {Outside, Closing})
    && (index < |s| && !quoted && Run(Outside, s[..index]) == Closing ==> s[index] != '\'')
  }

  /** One step of the shared quote discipline keeps the flag in step with the
      automaton; `skip` tells whether the loop jumps over the next character. */
  lemma SyncStep(s: string, index: nat, quoted: bool)
    requires index < |s| && Synced(s, index, quoted)
    ensures quoted ==> !Bare(s, index)
    ensures !quoted ==> (Bare(s, index) <==> s[index] != '\'')
    ensures !quoted ==> Synced(s, index + 1, s[index] == '\'')
    ensures quoted && (s[index] == '\\' || (s[index] == '\'' && index + 1 < |s| && s[index + 1] == '\'')) ==>
      Synced(s, index + 2, true) && !Bare(s, index + 1)
    ensures quoted && s[index] == '\'' && !(index + 1 < |s| && s[index + 1] == '\'') ==> Synced(s, index + 1, false)
    ensures quoted && s[index] != '\'' && s[index] != '\\' ==> Synced(s, index + 1, true)
  {
    RunStep(Outside, s, index);
    if index + 1 < |s| {
      RunStep(Outside, s, index + 1);
    }
  }

  method StatementEnd(source: string, start: nat) returns (end: nat)
    ensures start <= |source| ==> end == start + FirstBare(source[start..], ';')
    ensures start > |source| ==> end == |source|
  {
    var quoted := false;
    var index := start;
    ghost var s := if start <= |source| then source[start..] else "";
    while index < |source|
      invariant start <= |source| ==> start <= index <= |source| + 1 && Synced(s, index - start, quoted)
      invariant start <= |source| ==> forall j :: 0 <= j < index - start && j < |s| && s[j] == ';' ==> !Bare(s, j)
    {
      var character := source[index];
      SyncStep(s, index - start, quoted);
      if quoted {
        if character == '\\' {
          index := index + 1;
        } else if character == '\'' {
          if index + 1 < |source| && source[index + 1] == '\'' {
            index := index + 1;
          } else {
            quoted := false;
          }
        }
      } else if character == '\'' {
        quoted := true;
      } else if character == ';' {
        return index;
      }
      index := index + 1;
    }
    return |source|;
  }

  // ---------------------------------------------------------------------
  // splitFields

  /** A one-pass field reader: it closes a field at each bare comma. */
  datatype Fields = Fields(q: Quote, done: seq<string>, cur: string)

  function FieldStep(f: Fields, c: char): Fields {
    var q := Step(f.q, c);
    if q == Outside && c == ',' then Fields(q, f.done + [f.cur], "")
    else Fields(q, f.done, f.cur + [c])
  }

  function FieldRun(f: Fields, s: string): Fields {
    if s == "" then f else FieldStep(FieldRun(f, s[..|s| - 1]), s[|s| - 1])
  }

  /** The pieces of `s` between its bare commas, untrimmed. */
  function Pieces(s: string): seq<string> {
    var f := FieldRun(Fields(Outside, [], ""), s);
    f.done + [f.cur]
  }

  function TrimAll(pieces: seq<string>): (r: seq<string>)
    ensures |r| == |pieces|
    ensures forall i :: 0 <= i < |r| ==> r[i] == Trim(pieces[i])
  {
    seq(|pieces|, i requires 0 <= i < |pieces| => Trim(pieces[i]))
  }

  lemma FieldRunStep(f: Fields, s: string, i: nat)
    requires i < |s|
    ensures FieldRun(f, s[..i + 1]) == FieldStep(FieldRun(f, s[..i]), s[i])
  {
    assert s[..i + 1][..i] == s[..i];
  }

  lemma {:induction false} FieldRunQuote(f: Fields, s: string)
    ensures FieldRun(f, s).q == Run(f.q, s)
  {
    if s != "" {
      FieldRunQuote(f, s[..|s| - 1]);
    }
  }

  lemma {:induction false} FieldRunConcat(f: Fields, a: string, b: string)
    ensures FieldRun(f, a + b) == FieldRun(FieldRun(f, a), b)
  {
    if b == "" {
      assert a + b == a;
    } else {
      FieldRunConcat(f, a, b[..|b| - 1]);
      assert (a + b)[..|a + b| - 1] == a + b[..|b| - 1];
    }
  }

  /** The reader after `index` characters holds the open field `value[start..index]`. */
  ghost predicate Reading(value: string, start: int, index: nat, done: seq<string>) {
    0 <= start <= index <= |value|
    && FieldRun(Fields(Outside, [], ""), value[..index]) == Fields(Run(Outside, value[..index]), done, value[start..index])
  }

  lemma ReadOn(value: string, start: int, index: nat, done: seq<string>)
    requires index < |value| && Reading(value, start, index, done)
    requires !(Bare(value, index) && value[index] == ',')
    ensures Reading(value, start, index + 1, done)
  {
    RunStep(Outside, value, index);
    FieldRunStep(Fields(Outside, [], ""), value, index);
    assert value[start..index + 1] == value[start..index] + [value[index]];
  }

  lemma ReadComma(value: string, start: int, index: nat, done: seq<string>)
    requires index < |value| && Reading(value, start, index, done)
    requires Bare(value, index) && value[index] == ','
    ensures Reading(value, index + 1, index + 1, done + [value[start..index]])
  {
    RunStep(Outside, value, index);
    FieldRunStep(Fields(Outside, [], ""), value, index);
    assert value[index + 1..index + 1] == "";
  }

  method SplitFields(value: string) returns (fields: seq<string>)
    ensures fields == TrimAll(Pieces(value))
  {
    fields := [];
    var start := 0;
    var quoted := false;
    var index := 0;
    ghost var done: seq<string> := [];
    assert value[..0] == "";
    while index < |value|
      invariant Synced(value, index, quoted)
      invariant Reading(value, start, if index <= |value| then index else |value|, done)
      invariant fields == TrimAll(done)
    {
      var character := value[index];
      SyncStep(value, index, quoted);
      if quoted {
        ReadOn(value, start, index, done);
        if character == '\\' {
          index := index + 1;
        } else if character == '\'' {
          if index + 1 < |value| && value[index + 1] == '\'' {
            index := index + 1;
          } else {
            quoted := false;
          }
        }
        if index < |value| && quoted && (character == '\\' || character == '\'') {
          ReadOn(value, start, index, done);
        }
      } else if character == '\'' {
        ReadOn(value, start, index, done);
        quoted := true;
      } else if character == ',' {
        ReadComma(value, start, index, done);
        done := done + [value[start..index]];
        fields := fields + [Trim(value[start..index])];
        start := index + 1;
      } else {
        ReadOn(value, start, index, done);
      }
      index := index + 1;
    }
    assert value[..|value|] == value;
    fields := fields + [Trim(value[start..])];
  }

  /** Where the `i`-th separator falls when the pieces are joined by commas. */
  function CutAt(pieces: seq<string>, i: nat): nat
    requires i < |pieces|
  {
    |Join(pieces[..i + 1], ",")|
  }

  /** The pieces joined by commas give the text back, and the joining commas are
      exactly the bare ones. */
  lemma PiecesAreTheBareCuts(s: string)
    ensures Join(Pieces(s), ",") == s
    ensures forall k :: 0 <= k < |s| ==>
      ((Bare(s, k) && s[k] == ',') <==> exists i :: 0 <= i < |Pieces(s)| - 1 && CutAt(Pieces(s), i) == k)
  {
    CutsOfPrefix(s);
  }

  ghost predicate CutsAgree(s: string, pieces: seq<string>) {
    forall k :: 0 <= k < |s| ==>
      ((Bare(s, k) && s[k] == ',') <==> exists i :: 0 <= i < |pieces| - 1 && CutAt(pieces, i) == k)
  }

  lemma {:induction false} CutsOfPrefix(s: string)
    ensures Join(Pieces(s), ",") == s
    ensures CutsAgree(s, Pieces(s))
  {
    if s != "" {
      var n := |s| - 1;
      var t := s[..n];
      CutsOfPrefix(t);
      FieldRunQuote(Fields(Outside, [], ""), t);
      var f := FieldRun(Fields(Outside, [], ""), t);
      if Bare(s, n) && s[n] == ',' {
        CutAdded(s, Pieces(t));
        assert Pieces(s) == Pieces(t) + [""];
      } else {
        JoinLast(f.done, f.cur, [s[n]]);
        CutKept(s, f.done, f.cur);
      }
    }
  }

  lemma CutAdded(s: string, p: seq<string>)
    requires s != "" && p != [] && Join(p, ",") == s[..|s| - 1] && CutsAgree(s[..|s| - 1], p)
    requires Bare(s, |s| - 1) && s[|s| - 1] == ','
    ensures Join(p + [""], ",") == s && CutsAgree(s, p + [""])
  {
    var n, p' := |s| - 1, p + [""];
    assert p'[..|p|] == p && p[..|p|] == p;
    BareOfPrefix(s);
    forall i | 0 <= i < |p| ensures CutAt(p', i) == CutAt(p, i) {
      assert p'[..i + 1] == p[..i + 1];
    }
    assert CutAt(p', |p| - 1) == n;
  }

  lemma CutKept(s: string, done: seq<string>, cur: string)
    requires s != "" && Join(done + [cur], ",") == s[..|s| - 1] && CutsAgree(s[..|s| - 1], done + [cur])
    requires !(Bare(s, |s| - 1) && s[|s| - 1] == ',')
    ensures CutsAgree(s, done + [cur + [s[|s| - 1]]])
  {
    var n, p, p' := |s| - 1, done + [cur], done + [cur + [s[|s| - 1]]];
    BareOfPrefix(s);
    forall i | 0 <= i < |p| - 1 ensures CutAt(p', i) == CutAt(p, i) < n {
      assert p'[..i + 1] == p[..i + 1];
      JoinGrows(p, i);
    }
  }

  lemma BareOfPrefix(s: string)
    requires s != ""
    ensures forall k :: 0 <= k < |s| - 1 ==> Bare(s, k) == Bare(s[..|s| - 1], k)
  {
    forall k | 0 <= k < |s| - 1 ensures Bare(s, k) == Bare(s[..|s| - 1], k) {
      assert s[..|s| - 1][..k] == s[..k];
    }
  }

  lemma JoinLast(done: seq<string>, cur: string, more: string)
    ensures Join(done + [cur + more], ",") == Join(done + [cur], ",") + more
  {
    if done != [] {
      assert (done + [cur + more])[..|done|] == done;
      assert (done + [cur])[..|done|] == done;
    }
  }

  lemma {:induction false} JoinGrows(p: seq<string>, i: nat)
    requires i + 1 < |p|
    ensures CutAt(p, i) < |Join(p, ",")|
    decreases |p|
  {
    var q := p[..|p| - 1];
    assert Join(p, ",") == Join(q, ",") + "," + p[|p| - 1];
    if i + 1 == |q| {
      assert p[..i + 1] == q;
    } else {
      JoinGrows(q, i);
      assert q[..i + 1] == p[..i + 1];
    }
  }

  // ---------------------------------------------------------------------
  // tuples

  /** A one-pass reader of top-level parenthesised groups. `body` is the group
      being read, if any. */
  datatype Groups = Groups(q: Quote, depth: int, body: Option<string>, done: seq<string>)

  function Extend(body: Option<string>, c: char): Option<string> {
    if body.Some? then Some(body.value + [c]) else None
  }

  function GroupStep(g: Groups, c: char): Groups {
    var q := Step(g.q, c);
    if q == Outside && c == '(' then
      Groups(q, g.depth + 1, if g.depth == 0 then Some("") else Extend(g.body, c), g.done)
    else if q == Outside && c == ')' then
      if g.depth == 1 && g.body.Some? then Groups(q, 0, None, g.done + [g.body.value])
      else Groups(q, g.depth - 1, Extend(g.body, c), g.done)
    else Groups(q, g.depth, Extend(g.body, c), g.done)
  }

  function GroupRun(g: Groups, s: string): Groups {
    if s == "" then g else GroupStep(GroupRun(g, s[..|s| - 1]), s[|s| - 1])
  }

  const NO_GROUPS := Groups(Outside, 0, None, [])

  /** The fields of every top-level group of `s`. */
  function TupleFields(s: string): seq<seq<string>> {
    FieldsOf(GroupRun(NO_GROUPS, s).done)
  }

  function FieldsOf(bodies: seq<string>): (r: seq<seq<string>>)
    ensures |r| == |bodies|
    ensures forall i :: 0 <= i < |r| ==> r[i] == TrimAll(Pieces(bodies[i]))
  {
    seq(|bodies|, i requires 0 <= i < |bodies| => TrimAll(Pieces(bodies[i])))
  }

  lemma GroupRunStep(g: Groups, s: string, i: nat)
    requires i < |s|
    ensures GroupRun(g, s[..i + 1]) == GroupStep(GroupRun(g, s[..i]), s[i])
  {
    assert s[..i + 1][..i] == s[..i];
  }

  lemma {:induction false} GroupRunConcat(g: Groups, a: string, b: string)
    ensures GroupRun(g, a + b) == GroupRun(GroupRun(g, a), b)
  {
    if b == "" {
      assert a + b == a;
    } else {
      GroupRunConcat(g, a, b[..|b| - 1]);
      assert (a + b)[..|a + b| - 1] == a + b[..|b| - 1];
    }
  }

  /** The reader after `index` characters is at `depth`; its open group, if any,
      is `value[start..index]`. */
  ghost predicate Grouping(value: string, start: int, index: nat, depth: int, done: seq<string>) {
    && -1 <= start <= index <= |value|
    && (start >= 0 ==> depth >= 1)
    && GroupRun(NO_GROUPS, value[..index])
       == Groups(Run(Outside, value[..index]), depth, if start >= 0 then Some(value[start..index]) else None, done)
  }

  lemma GroupOn(value: string, start: int, index: nat, depth: int, done: seq<string>)
    requires index < |value| && Grouping(value, start, index, depth, done)
    ensures !(Bare(value, index) && value[index] in "()") ==> Grouping(value, start, index + 1, depth, done)
    ensures Bare(value, index) && value[index] == '(' ==>
      Grouping(value, if depth == 0 then index + 1 else start, index + 1, depth + 1, done)
    ensures Bare(value, index) && value[index] == ')' ==>
      if depth == 1 && start >= 0 then Grouping(value, -1, index + 1, 0, done + [value[start..index]])
      else Grouping(value, start, index + 1, depth - 1, done)
  {
    RunStep(Outside, value, index);
    GroupRunStep(NO_GROUPS, value, index);
    if start >= 0 {
      assert value[start..index + 1] == value[start..index] + [value[index]];
    }
    assert value[index + 1..index + 1] == "";
  }

  method Tuples(value: string) returns (result: seq<seq<string>>)
    ensures result == TupleFields(value)
  {
    hide Pieces, TrimAll, Bare;
    result := [];
    var tupleStart := -1;
    var depth := 0;
    var quoted := false;
    var index := 0;
    ghost var done: seq<string> := [];
    assert value[..0] == "";
    while index < |value|
      invariant Synced(value, index, quoted)
      invariant Grouping(value, tupleStart, if index <= |value| then index else |value|, depth, done)
      invariant result == FieldsOf(done)
    {
      var character := value[index];
      SyncStep(value, index, quoted);
      GroupOn(value, tupleStart, index, depth, done);
      if quoted {
        if character == '\\' {
          index := index + 1;
        } else if character == '\'' {
          if index + 1 < |value| && value[index + 1] == '\'' {
            index := index + 1;
          } else {
            quoted := false;
          }
        }
        if index < |value| && quoted && (character == '\\' || character == '\'') {
          GroupOn(value, tupleStart, index, depth, done);
        }
      } else if character == '\'' {
        quoted := true;
      } else if character == '(' {
        if depth == 0 {
          tupleStart := index + 1;
        }
        depth := depth + 1;
      } else if character == ')' {
        depth := depth - 1;
        if depth == 0 && tupleStart >= 0 {
          var fields := SplitFields(value[tupleStart..index]);
          result := result + [fields];
          done := done + [value[tupleStart..index]];
          tupleStart := -1;
        }
      }
      index := index + 1;
    }
    assert value[..|value|] == value;
  }
}
