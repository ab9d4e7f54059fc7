/** HLS playlist text as the gateway reads it: lines, and the URI attributes of
    tag lines (RFC 8216, sections 4.1 and 4.2). */
module Playlist {
  import opened Text

  // ---------------------------------------------------------------------
  // Lines

  function DropCr(s: string): string {
    if s != "" && s[|s| - 1] == '\r' then s[..|s| - 1] else s
  }

  /** `source.split(/\r?\n/)` */
  function Lines(s: string): (lines: seq<string>)
    ensures |lines| > 0
    decreases |s|
  {
    var j := Find(s, '\n', 0);
    if j == |s| then [s] else [DropCr(s[..j])] + Lines(s[j + 1..])
  }

  /** Every line as it was, except that a carriage return now standing before a
      line feed is absorbed. */
  function Absorbed(lines: seq<string>): seq<string>
    requires lines != []
  {
    if |lines| == 1 then lines else [DropCr(lines[0])] + Absorbed(lines[1..])
  }

  lemma {:induction false} LinesOfJoin(lines: seq<string>)
    requires lines != [] && forall i :: 0 <= i < |lines| ==> '\n' !in lines[i]
    ensures Lines(Join(lines, "\n")) == Absorbed(lines)
  {
    hide Lines, DropCr;
    if |lines| == 1 {
      OneLine(lines[0]);
    } else {
      var rest := lines[1..];
      LinesOfJoin(rest);
      assert lines == [lines[0]] + rest;
      JoinCons(lines[0], rest, "\n");
      LinesCons(Join(lines, "\n"), lines[0], Join(rest, "\n"));
    }
  }

  lemma {:induction false} AbsorbedAt(lines: seq<string>, i: nat)
    requires i < |lines|
    ensures |Absorbed(lines)| == |lines|
    ensures Absorbed(lines)[i] == if i < |lines| - 1 then DropCr(lines[i]) else lines[i]
  {
    if |lines| > 1 {
      AbsorbedAt(lines[1..], if i > 0 then i - 1 else 0);
    }
  }

  lemma OneLine(s: string)
    requires '\n' !in s
    ensures Lines(s) == [s]
  {
    FindIs(s, '\n', 0, |s|);
  }

  lemma LinesCons(s: string, first: string, more: string)
    requires s == first + "\n" + more && '\n' !in first
    ensures Lines(s) == [DropCr(first)] + Lines(more)
  {
    forall k | 0 <= k < |first| ensures s[k] != '\n' {
      assert s[k] == first[k];
    }
    FindIs(s, '\n', 0, |first|);
    assert s[..|first|] == first && s[|first| + 1..] == more;
  }

  lemma {:induction false} LinesHaveNoFeed(s: string)
    ensures forall i :: 0 <= i < |Lines(s)| ==> '\n' !in Lines(s)[i]
    decreases |s|
  {
    var j := Find(s, '\n', 0);
    FoundFirst(s, '\n', 0);
    assert '\n' !in s[..j];
    if j < |s| {
      LinesHaveNoFeed(s[j + 1..]);
    } else {
      assert s[..j] == s;
    }
  }

  /** `line.trim().startsWith('#')` */
  predicate IsTag(line: string) { Trim(line) != "" && Trim(line)[0] == '#' }

  predicate IsBlank(line: string) { Trim(line) == "" }

  // ---------------------------------------------------------------------
  // URI attributes

  /** A tag line is characters and URI attributes; `open` is the matched
      `URI="` in its own case. */
  datatype Token = Char(c: char) | Ref(open: string, uri: string) {
    function Text(): string {
      match this
      case Char(c) => [c]
      case Ref(open, uri) => open + (uri + "\"")
    }
  }

  const OPEN := "URI=\""

  /** The closing quote of the attribute the pattern matches at `i`, if any: the
      value is not empty and runs to the next quote. */
  function RefAt(s: string, i: nat): (q: Option<nat>)
    ensures q.Some? ==> i + 5 < q.value < |s| && s[q.value] == '"'
  {
    if !MatchesAt(s, i, OPEN) then None
    else
      var q := Find(s, '"', i + 5);
      if q == i + 5 || q == |s| then None else Some(q)
  }

  /** Reading from the left, a match is taken wherever one starts. */
  function Tokens(s: string): seq<Token>
    decreases |s|
  {
    if s == "" then []
    else match RefAt(s, 0)
      case Some(q) => [Ref(s[..5], s[5..q])] + Tokens(s[q + 1..])
      case None => [Char(s[0])] + Tokens(s[1..])
  }

  function Show(ts: seq<Token>): string {
    if ts == [] then "" else ts[0].Text() + Show(ts[1..])
  }

  predicate GoodUri(uri: string) { uri != "" && '"' !in uri }

  ghost predicate GoodTokens(ts: seq<Token>) {
    forall i :: 0 <= i < |ts| && ts[i].Ref? ==> |ts[i].open| == 5 && MatchesAt(ts[i].open, 0, OPEN) && GoodUri(ts[i].uri)
  }

  /** The same line with other attribute values. */
  ghost predicate Alike(a: seq<Token>, b: seq<Token>) {
    && |a| == |b|
    && forall i :: 0 <= i < |a| ==>
         if a[i].Char? then b[i] == a[i] else b[i].Ref? && b[i].open == a[i].open
  }

  lemma {:induction false} TokensShow(s: string)
    ensures Show(Tokens(s)) == s && GoodTokens(Tokens(s))
    decreases |s|
  {
    hide RefAt, Token.Text;
    if s != "" {
      match RefAt(s, 0)
      case Some(q) =>
        TokensShow(s[q + 1..]);
        RefTaken(s, q);
        ShowCons(Ref(s[..5], s[5..q]), Tokens(s[q + 1..]));
      case None =>
        TokensShow(s[1..]);
        CharText(s[0]);
        ShowCons(Char(s[0]), Tokens(s[1..]));
    }
  }

  lemma RefTaken(s: string, q: nat)
    requires RefAt(s, 0) == Some(q)
    ensures 5 < q < |s| && Ref(s[..5], s[5..q]).Text() + s[q + 1..] == s
    ensures MatchesAt(s[..5], 0, OPEN) && GoodUri(s[5..q])
  {
    FoundFirst(s, '"', 5);
    RefOpens(s);
  }

  lemma RefOpens(s: string)
    requires MatchesAt(s, 0, OPEN)
    ensures MatchesAt(s[..5], 0, OPEN)
  {
    forall k | 0 <= k < 5 ensures Upper(s[..5][0 + k]) == OPEN[k] {
      assert Upper(s[0 + k]) == OPEN[k];
    }
  }

  lemma ShowCons(t: Token, ts: seq<Token>)
    ensures Show([t] + ts) == t.Text() + Show(ts)
  {
    assert ([t] + ts)[1..] == ts;
  }

  lemma {:induction false} ShowConcat(a: seq<Token>, b: seq<Token>)
    ensures Show(a + b) == Show(a) + Show(b)
  {
    hide Token.Text;
    if a == [] {
      assert a + b == b;
    } else {
      ShowConcat(a[1..], b);
      ShowCons(a[0], a[1..] + b);
      assert a + b == [a[0]] + (a[1..] + b);
    }
  }

  // ---------------------------------------------------------------------
  // Matching again after the values have changed

  /** Whatever the values, the first five characters stay the same. */
  lemma {:induction false} HeadKept(a: seq<Token>, b: seq<Token>, k: nat)
    requires GoodTokens(a) && GoodTokens(b) && Alike(a, b) && k < 5
    ensures k < |Show(a)| <==> k < |Show(b)|
    ensures k < |Show(a)| ==> Show(a)[k] == Show(b)[k]
  {
    if a != [] {
      assert a == [a[0]] + a[1..] && b == [b[0]] + b[1..];
      if a[0].Char? && k > 0 {
        HeadKept(a[1..], b[1..], k - 1);
      }
    }
  }

  lemma NoMatchKept(c: char, a: seq<Token>, b: seq<Token>)
    requires GoodTokens(a) && GoodTokens(b) && Alike(a, b)
    requires RefAt([c] + Show(a), 0).None?
    ensures RefAt([c] + Show(b), 0).None?
  {
    var s, t := [c] + Show(a), [c] + Show(b);
    if MatchesAt(t, 0, OPEN) {
      assert |s| >= 5 by {
        HeadKept(a, b, 3);
      }
      forall k | 0 <= k < 5 ensures Upper(s[0 + k]) == OPEN[k] {
        assert Upper(t[0 + k]) == OPEN[k];
        if k > 0 {
          HeadKept(a, b, k - 1);
        }
      }
      assert MatchesAt(s, 0, OPEN);
      var q := Find(s, '"', 5);
      FoundFirst(s, '"', 5);
      if q == 5 && q < |s| {
        HeadKept(a, b, 4);
        FindIs(t, '"', 5, 5);
      } else {
        // no quote at all after the opening one: nothing was replaced
        QuoteFree(c, a, b);
      }
    }
  }

  lemma QuoteFree(c: char, a: seq<Token>, b: seq<Token>)
    requires GoodTokens(a) && GoodTokens(b) && Alike(a, b)
    requires |Show(a)| >= 4 && Find([c] + Show(a), '"', 5) == |[c] + Show(a)|
    ensures Show(b) == Show(a)
  {
    var s := [c] + Show(a);
    FoundFirst(s, '"', 5);
    assert forall k :: 4 <= k < |Show(a)| ==> Show(a)[k] == s[k + 1] != '"';
    NoLateQuote(a, b, 4);
  }

  lemma RefHasQuote(a: seq<Token>)
    requires GoodTokens(a) && a != [] && a[0].Ref?
    ensures var k := |a[0].Text()| - 1; 6 <= k < |Show(a)| && Show(a)[k] == '"'
  {
    assert a[0].Text()[|a[0].Text()| - 1] == '"';
  }

  lemma {:induction false} NoLateQuote(a: seq<Token>, b: seq<Token>, n: nat)
    requires GoodTokens(a) && Alike(a, b) && n <= 5
    requires forall k :: n <= k < |Show(a)| ==> Show(a)[k] != '"'
    ensures Show(b) == Show(a)
  {
    if a != [] {
      if a[0].Ref? {
        RefHasQuote(a);
      } else {
        var m := if n > 0 then n - 1 else 0;
        forall k | m <= k < |Show(a[1..])| ensures Show(a[1..])[k] != '"' {
          assert Show(a)[k + 1] == Show(a[1..])[k];
        }
        NoLateQuote(a[1..], b[1..], m);
      }
    }
  }

  lemma CharShown(c: char, a: seq<Token>, b: seq<Token>)
    requires GoodTokens(a) && GoodTokens(b) && Alike(a, b) && RefAt([c] + Show(a), 0).None?
    ensures Tokens([c] + Show(b)) == [Char(c)] + Tokens(Show(b))
  {
    NoMatchKept(c, a, b);
    assert ([c] + Show(b))[1..] == Show(b);
  }

  /** A line with its attribute values replaced is matched at exactly the same
      places, and nowhere else. */
  lemma {:induction false} TokensKept(s: string, b: seq<Token>)
    requires GoodTokens(b) && Alike(Tokens(s), b)
    ensures Tokens(Show(b)) == b
    decreases |s|
  {
    hide RefAt, Token.Text;
    if s != "" {
      var a := Tokens(s);
      assert b == [b[0]] + b[1..];
      match RefAt(s, 0)
      case Some(q) =>
        assert a[1..] == Tokens(s[q + 1..]);
        TokensKept(s[q + 1..], b[1..]);
        RefShown(b);
      case None =>
        assert a[1..] == Tokens(s[1..]);
        TokensKept(s[1..], b[1..]);
        TokensShow(s[1..]);
        assert s == [s[0]] + Show(a[1..]);
        CharShown(s[0], a[1..], b[1..]);
        assert Show(b) == [s[0]] + Show(b[1..]) by {
          ShowCons(b[0], b[1..]);
          CharText(s[0]);
        }
    }
  }

  lemma CharText(c: char)
    ensures Char(c).Text() == [c]
  {
  }

  lemma RefShown(b: seq<Token>)
    requires GoodTokens(b) && b != [] && b[0].Ref?
    ensures Tokens(Show(b)) == [b[0]] + Tokens(Show(b[1..]))
  {
    var t, open, uri := Show(b), b[0].open, b[0].uri;
    assert t == open + (uri + "\"") + Show(b[1..]);
    forall k | 0 <= k < 5 ensures Upper(t[0 + k]) == OPEN[k] {
      assert Upper(open[0 + k]) == OPEN[k];
    }
    var q := 5 + |uri|;
    assert t[5..q] == uri && t[q] == '"' && t[q + 1..] == Show(b[1..]) && t[..5] == open;
    forall k | 5 <= k < q ensures t[k] != '"' {
      assert t[k] == uri[k - 5];
    }
    FindIs(t, '"', 5, q);
  }

  // ---------------------------------------------------------------------
  // A carriage return at the end of a line

  /** A carriage return that is not part of a line break. */
  predicate EndsInCr(s: string) { s != "" && s[|s| - 1] == '\r' }

  lemma RefAtWithCr(s: string)
    requires s != ""
    ensures RefAt(s + "\r", 0) == RefAt(s, 0)
  {
    var t := s + "\r";
    if MatchesAt(t, 0, OPEN) {
      assert Upper(t[0 + 4]) == OPEN[4];
      forall k | 0 <= k < 5 ensures k < |s| && Upper(s[0 + k]) == OPEN[k] {
        assert Upper(t[0 + k]) == OPEN[k];
      }
      assert MatchesAt(s, 0, OPEN);
    } else if MatchesAt(s, 0, OPEN) {
      forall k | 0 <= k < 5 ensures Upper(t[0 + k]) == OPEN[k] {
        assert Upper(s[0 + k]) == OPEN[k];
      }
      assert MatchesAt(t, 0, OPEN);
    }
    if MatchesAt(s, 0, OPEN) {
      var q := Find(s, '"', 5);
      FoundFirst(s, '"', 5);
      FindIs(t, '"', 5, if q == |s| then |t| else q);
    }
  }

  lemma FirstToken(s: string)
    requires s != ""
    ensures match RefAt(s, 0)
      case Some(q) => Tokens(s) == [Ref(s[..5], s[5..q])] + Tokens(s[q + 1..])
      case None => Tokens(s) == [Char(s[0])] + Tokens(s[1..])
  {
  }

  lemma TokensOfCr()
    ensures Tokens("") == [] && Tokens("\r") == [Char('\r')]
  {
    var t := "\r";
    assert t[1..] == "" && RefAt(t, 0).None?;
  }

  /** It is one more character, in no attribute. */
  lemma {:induction false} TokensWithCr(s: string)
    ensures Tokens(s + "\r") == Tokens(s) + [Char('\r')]
    decreases |s|
  {
    hide RefAt, Tokens;
    if s == "" {
      TokensOfCr();
      assert s + "\r" == "\r";
    } else {
      RefAtWithCr(s);
      FirstToken(s);
      FirstToken(s + "\r");
      match RefAt(s, 0)
      case Some(q) =>
        SplitWithCr(s, q);
        TokensWithCr(s[q + 1..]);
      case None =>
        assert (s + "\r")[0] == s[0] && (s + "\r")[1..] == s[1..] + "\r";
        TokensWithCr(s[1..]);
    }
  }

  lemma SplitWithCr(s: string, q: nat)
    requires 5 <= q < |s|
    ensures var t := s + "\r"; t[..5] == s[..5] && t[5..q] == s[5..q] && t[q + 1..] == s[q + 1..] + "\r"
  {
  }

  /** Trimming takes it away in any case. */
  lemma TrimDropsCr(s: string)
    ensures Trim(DropCr(s)) == Trim(s)
  {
    if EndsInCr(s) {
      var t, j := DropCr(s), SkipSpaces(s, 0);
      Skipped(s, 0);
      if j < |s| {
        SkipsTo(t, 0, j);
        assert s[j..][..|s[j..]| - 1] == t[j..];
      } else {
        SkipsTo(t, 0, |t|);
      }
    }
  }
}
