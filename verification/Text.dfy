/** Strings as the scripts see them: sequences of characters, with the
    whitespace of `String.prototype.trim` and of `\s`. */
module Text {

  datatype Option<+T> = None | Some(value: T)

  /** `field ?? otherwise` */
  function Or<T>(field: Option<T>, otherwise: T): T { if field.Some? then field.value else otherwise }

  predicate IsSpace(c: char) {
    || '\t' <= c <= '\r' || c == ' ' || c == '\U{00a0}' || c == '\U{1680}'
    || '\U{2000}' <= c <= '\U{200a}' || c == '\U{2028}' || c == '\U{2029}'
    || c == '\U{202f}' || c == '\U{205f}' || c == '\U{3000}' || c == '\U{feff}'
  }

  /** The first index at or after `i` that holds no space. */
  function SkipSpaces(s: string, i: nat): (j: nat)
    requires i <= |s|
    ensures i <= j <= |s|
    decreases |s| - i
  {
    if i < |s| && IsSpace(s[i]) then SkipSpaces(s, i + 1) else i
  }

  lemma {:induction false} SkipsTo(s: string, i: nat, j: nat)
    requires i <= j <= |s| && (forall k :: i <= k < j ==> IsSpace(s[k])) && (j < |s| ==> !IsSpace(s[j]))
    ensures SkipSpaces(s, i) == j
    decreases j - i
  {
    if i < j {
      SkipsTo(s, i + 1, j);
    }
  }

  lemma {:induction false} Skipped(s: string, i: nat)
    requires i <= |s|
    ensures forall k :: i <= k < SkipSpaces(s, i) ==> IsSpace(s[k])
    ensures SkipSpaces(s, i) < |s| ==> !IsSpace(s[SkipSpaces(s, i)])
    decreases |s| - i
  {
    if i < |s| && IsSpace(s[i]) {
      Skipped(s, i + 1);
    }
  }

  function TrimEnd(s: string): (t: string)
    ensures |t| <= |s|
  {
    if s != "" && IsSpace(s[|s| - 1]) then TrimEnd(s[..|s| - 1]) else s
  }

  function Trim(s: string): string {
    TrimEnd(s[SkipSpaces(s, 0)..])
  }

  lemma {:induction false} TrimEndKeeps(s: string)
    requires s != "" && !IsSpace(s[0])
    ensures TrimEnd(s) != "" && TrimEnd(s)[0] == s[0]
  {
    if |s| > 1 && IsSpace(s[|s| - 1]) {
      TrimEndKeeps(s[..|s| - 1]);
    }
  }

  lemma TrimPadded(lead: string, s: string)
    requires forall k :: 0 <= k < |lead| ==> IsSpace(lead[k])
    requires s != "" && !IsSpace(s[0]) && !IsSpace(s[|s| - 1])
    ensures Trim(lead + s) == s
  {
    assert (lead + s)[|lead|] == s[0];
    assert forall k :: 0 <= k < |lead| ==> (lead + s)[k] == lead[k];
    SkipsTo(lead + s, 0, |lead|);
    assert (lead + s)[|lead|..] == s;
  }

  /** `pieces.join(sep)` */
  function Join(pieces: seq<string>, sep: string): string {
    if pieces == [] then ""
    else if |pieces| == 1 then pieces[0]
    else Join(pieces[..|pieces| - 1], sep) + sep + pieces[|pieces| - 1]
  }

  /** ASCII upper case; a case-insensitive pattern of ASCII letters matches
      nothing outside ASCII. */
  function Upper(c: char): char {
    if 'a' <= c <= 'z' then (c as int - 32) as char else c
  }

  /** `s.toLowerCase()` on ASCII letters. */
  function Lower(s: string): string { seq(|s|, i requires 0 <= i < |s| => if 'A' <= s[i] <= 'Z' then (s[i] as int + 32) as char else s[i]) }

  /** `s` holds the upper-case `word` at index `i`, in any case. */
  predicate MatchesAt(s: string, i: nat, word: string) {
    i + |word| <= |s| && forall k :: 0 <= k < |word| ==> Upper(s[i + k]) == word[k]
  }

  /** The first index at or after `i` that holds `c`, or the length. */
  function Find(s: string, c: char, i: nat): (j: nat)
    requires i <= |s|
    ensures i <= j <= |s|
    ensures j < |s| ==> s[j] == c
    decreases |s| - i
  {
    if i < |s| && s[i] != c then Find(s, c, i + 1) else i
  }

  lemma {:induction false} FindIs(s: string, c: char, i: nat, j: nat)
    requires i <= j <= |s| && (j < |s| ==> s[j] == c) && forall k :: i <= k < j ==> s[k] != c
    ensures Find(s, c, i) == j
    decreases j - i
  {
    if i < j {
      FindIs(s, c, i + 1, j);
    }
  }

  lemma {:induction false} FoundFirst(s: string, c: char, i: nat)
    requires i <= |s|
    ensures forall k :: i <= k < Find(s, c, i) ==> s[k] != c
    decreases |s| - i
  {
    if i < |s| && s[i] != c {
      FoundFirst(s, c, i + 1);
    }
  }

  lemma {:induction false} JoinCons(p: string, ps: seq<string>, sep: string)
    requires ps != []
    ensures Join([p] + ps, sep) == p + sep + Join(ps, sep)
  {
    var all := [p] + ps;
    assert all[..|all| - 1] == [p] + ps[..|ps| - 1];
    if |ps| > 1 {
      JoinCons(p, ps[..|ps| - 1], sep);
    }
  }
}
