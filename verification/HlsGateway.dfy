/** The HLS manifest rewriter and its resource registry
    (src/media-gateway/media-gateway.service.ts:28-63). */
module HlsGateway {
  import opened Text
  import opened Playlist

  /** A registered upstream reference. */
  datatype Resource = Resource(sessionId: string, mediaAssetId: string, upstreamUrl: string, expiresAt: int)

  /** One rewrite: `resolve` is URL resolution against the manifest's own URL
      followed by the provider's allow-list, and fails when either throws. */
  datatype Context = Context(sessionId: string, mediaAssetId: string, now: int, ttl: nat, resolve: string -> Option<string>)

  predicate IsIdChar(c: char) { '0' <= c <= '9' || 'a' <= c <= 'f' || c == '-' }

  /** The alphabet of `randomUUID`. */
  predicate IsId(s: string) { s != "" && forall i :: 0 <= i < |s| ==> IsIdChar(s[i]) }

  function Prefix(sessionId: string): string { "/media-gateway/sessions/" + (sessionId + "/resources/") }

  function PathOf(sessionId: string, id: string): string { Prefix(sessionId) + id }

  /** What the gateway serves for `path` in a session at time `at`
      (media-gateway.service.ts:30-32). */
  function Reads(registry: map<string, Resource>, sessionId: string, mediaAssetId: string, at: int, path: string): Option<string> {
    var p := Prefix(sessionId);
    if !(p <= path) || path[|p|..] !in registry then None
    else
      var r := registry[path[|p|..]];
      if r.sessionId != sessionId || r.mediaAssetId != mediaAssetId || r.expiresAt <= at then None
      else Some(r.upstreamUrl)
  }

  /** A tag line with every attribute value replaced by its meaning under `f`. */
  function MapRefs(ts: seq<Token>, f: string -> Option<string>): Option<string> {
    if ts == [] then Some("")
    else match ts[0]
      case Char(c) =>
        var rest := MapRefs(ts[1..], f);
        if rest.None? then None else Some([c] + rest.value)
      case Ref(open, uri) =>
        var v, rest := f(uri), MapRefs(ts[1..], f);
        if v.None? || rest.None? then None else Some(open + (v.value + "\"") + rest.value)
  }

  /** A playlist line with its references given their meaning under `f`. */
  function LineUnder(line: string, f: string -> Option<string>): Option<string> {
    if IsBlank(line) then Some(line)
    else if IsTag(line) then MapRefs(Tokens(line), f)
    else f(Trim(line))
  }

  /** `path` is registered for the upstream reference `url`. */
  ghost predicate Registered(registry: map<string, Resource>, ctx: Context, path: string, url: string) {
    var p := Prefix(ctx.sessionId);
    && p <= path && IsId(path[|p|..]) && path[|p|..] in registry
    && registry[path[|p|..]] == Resource(ctx.sessionId, ctx.mediaAssetId, url, ctx.now + ctx.ttl * 1000)
  }

  ghost predicate Grew(before: map<string, Resource>, after: map<string, Resource>) {
    forall id :: id in before ==> id in after && after[id] == before[id]
  }

  /** `b` is `a` with each attribute value replaced by a registered path. */
  ghost predicate Paired(a: seq<Token>, b: seq<Token>, registry: map<string, Resource>, ctx: Context) {
    && Alike(a, b) && GoodTokens(b)
    && forall i :: 0 <= i < |a| && a[i].Ref? ==>
         ctx.resolve(a[i].uri).Some? && Registered(registry, ctx, b[i].uri, ctx.resolve(a[i].uri).value)
  }

  function Reader(registry: map<string, Resource>, ctx: Context, at: int): string -> Option<string> {
    path => Reads(registry, ctx.sessionId, ctx.mediaAssetId, at, path)
  }

  lemma {:induction false} PairedMeans(a: seq<Token>, b: seq<Token>, registry: map<string, Resource>, ctx: Context, at: int)
    requires Paired(a, b, registry, ctx) && at < ctx.now + ctx.ttl * 1000
    ensures MapRefs(b, Reader(registry, ctx, at)) == MapRefs(a, ctx.resolve) && MapRefs(a, ctx.resolve).Some?
  {
    if a != [] {
      PairedMeans(a[1..], b[1..], registry, ctx, at);
    }
  }

  /** The start of a tag line is never inside an attribute. */
  lemma {:induction false} TagKept(a: seq<Token>, b: seq<Token>, n: nat)
    requires GoodTokens(a) && Alike(a, b) && n < |Show(a)| && Show(a)[n] == '#'
    requires forall k :: 0 <= k < n ==> IsSpace(Show(a)[k])
    ensures n < |Show(b)| && Show(b)[n] == '#' && forall k :: 0 <= k < n ==> IsSpace(Show(b)[k])
    decreases n
  {
    assert a == [a[0]] + a[1..] && b == [b[0]] + b[1..];
    if a[0].Ref? {
      RefStart(a);
    } else if n == 0 {
      assert Show(b) == [a[0].c] + Show(b[1..]);
    } else {
      assert Show(a) == [a[0].c] + Show(a[1..]) && Show(b) == [a[0].c] + Show(b[1..]);
      assert forall k :: 0 <= k < n - 1 ==> Show(a[1..])[k] == Show(a)[k + 1];
      TagKept(a[1..], b[1..], n - 1);
      forall k | 0 <= k < n ensures IsSpace(Show(b)[k]) {
        if k == 0 {
          assert Show(b)[0] == Show(a)[0];
        } else {
          assert Show(b)[k] == Show(b[1..])[k - 1];
        }
      }
    }
  }

  lemma RefStart(a: seq<Token>)
    requires GoodTokens(a) && a != [] && a[0].Ref?
    ensures Show(a) != "" && !IsSpace(Show(a)[0]) && Show(a)[0] != '#'
  {
    assert Upper(a[0].open[0 + 0]) == OPEN[0];
  }

  lemma TagLine(s: string)
    ensures IsTag(s) <==> SkipSpaces(s, 0) < |s| && s[SkipSpaces(s, 0)] == '#'
    ensures IsBlank(s) ==> !IsTag(s)
  {
    var j := SkipSpaces(s, 0);
    Skipped(s, 0);
    if j < |s| {
      TrimEndKeeps(s[j..]);
    }
  }

  /** A tag line rewritten through its registered paths reads back as the line
      with its references resolved. */
  lemma TagReadsBack(line: string, b: seq<Token>, registry: map<string, Resource>, ctx: Context, at: int)
    requires IsTag(line) && Paired(Tokens(line), b, registry, ctx) && at < ctx.now + ctx.ttl * 1000
    ensures LineUnder(Show(b), Reader(registry, ctx, at)) == LineUnder(line, ctx.resolve)
  {
    hide MapRefs, Tokens, Paired, Reads;
    assert Alike(Tokens(line), b) && GoodTokens(b) by {
      PairedIsAlike(Tokens(line), b, registry, ctx);
    }
    TokensShow(line);
    TagLine(line);
    Skipped(line, 0);
    TagKept(Tokens(line), b, SkipSpaces(line, 0));
    SkipsTo(Show(b), 0, SkipSpaces(line, 0));
    TagLine(Show(b));
    TagLine(line);
    TokensKept(line, b);
    PairedMeans(Tokens(line), b, registry, ctx, at);
  }

  lemma PairedIsAlike(a: seq<Token>, b: seq<Token>, registry: map<string, Resource>, ctx: Context)
    requires Paired(a, b, registry, ctx)
    ensures Alike(a, b) && GoodTokens(b)
  {
  }

  lemma NotInConcat(c: char, a: string, b: string)
    requires c !in a && c !in b
    ensures c !in a + b
  {
  }

  lemma IdIsPlain(id: string, c: char)
    requires IsId(id) && (c == '"' || c == '\n')
    ensures c !in id
  {
    forall i | 0 <= i < |id| ensures id[i] != c {
      assert IsIdChar(id[i]);
    }
  }

  lemma PathLacks(sessionId: string, id: string, c: char)
    requires IsId(sessionId) && IsId(id) && (c == '"' || c == '\n')
    ensures c !in PathOf(sessionId, id)
  {
    hide IsId;
    IdIsPlain(sessionId, c);
    IdIsPlain(id, c);
    NotInConcat(c, sessionId, "/resources/");
    NotInConcat(c, "/media-gateway/sessions/", sessionId + "/resources/");
    NotInConcat(c, Prefix(sessionId), id);
  }

  lemma PathEnds(sessionId: string, id: string)
    requires IsId(id)
    ensures var p := PathOf(sessionId, id); p != "" && p[0] == '/' && p[|p| - 1] == id[|id| - 1] && !IsSpace(p[|p| - 1])
  {
    assert IsIdChar(id[|id| - 1]);
  }

  lemma PathIsPlain(sessionId: string, id: string)
    requires IsId(sessionId) && IsId(id)
    ensures var p := PathOf(sessionId, id);
      GoodUri(p) && '\n' !in p && !IsBlank(p) && !IsTag(p) && Trim(p) == p
  {
    PathLacks(sessionId, id, '"');
    PathLacks(sessionId, id, '\n');
    PathEnds(sessionId, id);
    hide PathOf, IsId, Trim;
    var p := PathOf(sessionId, id);
    TrimPadded("", p);
    assert "" + p == p;
  }

  /** A reference line rewritten to its path reads back as the resolved reference. */
  lemma ReferenceReadsBack(line: string, id: string, registry: map<string, Resource>, ctx: Context, at: int)
    requires !IsBlank(line) && !IsTag(line) && ctx.resolve(Trim(line)).Some?
    requires IsId(ctx.sessionId) && IsId(id) && at < ctx.now + ctx.ttl * 1000
    requires Registered(registry, ctx, PathOf(ctx.sessionId, id), ctx.resolve(Trim(line)).value)
    ensures LineUnder(PathOf(ctx.sessionId, id), Reader(registry, ctx, at)) == LineUnder(line, ctx.resolve)
  {
    PathIsPlain(ctx.sessionId, id);
  }

  lemma GrewPaired(a: seq<Token>, b: seq<Token>, before: map<string, Resource>, after: map<string, Resource>, ctx: Context)
    requires Paired(a, b, before, ctx) && Grew(before, after)
    ensures Paired(a, b, after, ctx)
  {
  }

  // ---------------------------------------------------------------------
  // Pattern matches by index

  datatype Match = Match(index: nat, quote: nat)

  /** `value.matchAll(/(URI=")([^"]+)(")/gi)` from index `i` on. */
  function AllMatches(s: string, i: nat): (ms: seq<Match>)
    requires i <= |s|
    ensures forall k :: 0 <= k < |ms| ==> i <= ms[k].index && RefAt(s, ms[k].index) == Some(ms[k].quote)
    decreases |s| - i
  {
    if i == |s| then []
    else match RefAt(s, i)
      case Some(q) => [Match(i, q)] + AllMatches(s, q + 1)
      case None => AllMatches(s, i + 1)
  }

  function Chars(s: string): (ts: seq<Token>)
    ensures |ts| == |s| && forall i :: 0 <= i < |ts| ==> ts[i] == Char(s[i])
  {
    seq(|s|, i requires 0 <= i < |s| => Char(s[i]))
  }

  lemma {:induction false} CharsShow(s: string)
    ensures Show(Chars(s)) == s
  {
    if s != "" {
      CharsShow(s[1..]);
      assert Chars(s)[1..] == Chars(s[1..]);
    }
  }

  lemma RefAtSlice(s: string, i: nat)
    requires i < |s|
    ensures RefAt(s[i..], 0).Some? <==> RefAt(s, i).Some?
    ensures RefAt(s, i).Some? ==> RefAt(s, i).value == i + RefAt(s[i..], 0).value
  {
    var t := s[i..];
    if i + 5 <= |s| {
      assert t[0] == s[i] && t[1] == s[i + 1] && t[2] == s[i + 2] && t[3] == s[i + 3] && t[4] == s[i + 4];
      assert MatchesAt(t, 0, OPEN) == MatchesAt(s, i, OPEN) by {
        assert forall k :: 0 <= k < 5 ==> t[0 + k] == t[k];
        assert t[..5] == s[i..i + 5];
        MatchSlice(s, i, t, 0);
        MatchSlice(t, 0, s, i);
      }
      FoundFirst(t, '"', 5);
      var q := Find(t, '"', 5);
      assert forall k :: i + 5 <= k < i + q ==> s[k] == t[k - i];
      FindIs(s, '"', i + 5, i + q);
    }
  }

  lemma MatchSlice(s: string, i: nat, t: string, j: nat)
    requires i + 5 <= |s| && j + 5 <= |t| && s[i..i + 5] == t[j..j + 5]
    ensures MatchesAt(s, i, OPEN) ==> MatchesAt(t, j, OPEN)
  {
    if MatchesAt(s, i, OPEN) {
      forall k | 0 <= k < 5 ensures Upper(t[j + k]) == OPEN[k] {
        assert s[i..i + 5][k] == t[j..j + 5][k];
        assert Upper(s[i + k]) == OPEN[k];
      }
    }
  }

  /** The tokens from `i` are the characters up to the first match, the match,
      and the tokens after it. */
  ghost predicate Broken(s: string, i: nat, m: Match)
    requires i <= m.index && m.index + 5 <= m.quote < |s|
  {
    Tokens(s[i..]) == Chars(s[i..m.index]) + ([Ref(s[m.index..m.index + 5], s[m.index + 5..m.quote])] + Tokens(s[m.quote + 1..]))
  }

  lemma {:induction false} TokensByMatch(s: string, i: nat)
    requires i <= |s|
    ensures var ms := AllMatches(s, i);
      if ms == [] then Tokens(s[i..]) == Chars(s[i..])
      else ms[1..] == AllMatches(s, ms[0].quote + 1) && Broken(s, i, ms[0])
    decreases |s| - i
  {
    hide RefAt, Tokens, Broken, Chars, MatchesAt;
    if i < |s| {
      RefAtSlice(s, i);
      match RefAt(s, i)
      case Some(q) => MatchHere(s, i, q);
      case None =>
        TokensByMatch(s, i + 1);
        NoMatchHere(s, i);
        if AllMatches(s, i) == [] {
          CharsCons(s, i);
        } else {
          MatchLater(s, i, AllMatches(s, i)[0]);
        }
    } else {
      NoTokens();
      assert s[i..] == "" && Chars("") == [];
    }
  }

  lemma CharsCons(s: string, i: nat)
    requires i < |s|
    ensures Chars(s[i..]) == [Char(s[i])] + Chars(s[i + 1..])
  {
  }

  lemma NoTokens()
    ensures Tokens("") == []
  {
  }

  lemma NoMatchHere(s: string, i: nat)
    requires i < |s| && RefAt(s, i).None?
    ensures Tokens(s[i..]) == [Char(s[i])] + Tokens(s[i + 1..])
  {
    hide RefAt;
    RefAtSlice(s, i);
    assert s[i..][1..] == s[i + 1..];
  }

  lemma MatchLater(s: string, i: nat, m: Match)
    requires i < m.index && m.index + 5 <= m.quote < |s|
    requires Tokens(s[i..]) == [Char(s[i])] + Tokens(s[i + 1..]) && Broken(s, i + 1, m)
    ensures Broken(s, i, m)
  {
    hide Tokens;
    assert Chars(s[i..m.index]) == [Char(s[i])] + Chars(s[i + 1..m.index]);
  }

  lemma MatchHere(s: string, i: nat, q: nat)
    requires i < |s| && RefAt(s, i) == Some(q)
    ensures Broken(s, i, Match(i, q))
  {
    hide RefAt;
    RefAtSlice(s, i);
    var t := s[i..];
    assert t[..5] == s[i..i + 5] && t[5..q - i] == s[i + 5..q] && t[q - i + 1..] == s[q + 1..];
    assert Chars(s[i..i]) == [];
  }

  lemma BrokenFurther(s: string, i: nat, m: Match, a: seq<Token>)
    requires i <= m.index && m.index + 5 <= m.quote < |s| && Broken(s, i, m) && Tokens(s) == a + Tokens(s[i..])
    ensures var added := Chars(s[i..m.index]) + [Ref(s[m.index..m.index + 5], s[m.index + 5..m.quote])];
      && Tokens(s) == (a + added) + Tokens(s[m.quote + 1..])
      && Tokens(s)[|a + added| - 1] == Ref(s[m.index..m.index + 5], s[m.index + 5..m.quote])
  {
    hide Tokens, Chars;
  }

  lemma MatchOpens(s: string, m: Match)
    requires RefAt(s, m.index) == Some(m.quote)
    ensures MatchesAt(s[m.index..m.index + 5], 0, OPEN)
  {
    var t := s[m.index..m.index + 5];
    forall k | 0 <= k < 5 ensures Upper(t[0 + k]) == OPEN[k] {
      assert Upper(s[m.index + k]) == OPEN[k];
    }
  }

  lemma PairedNone(registry: map<string, Resource>, ctx: Context)
    ensures Paired([], [], registry, ctx) && Show([]) == ""
  {
  }

  /** Copying the gap before a match and writing a registered path for it keeps
      the lines paired. */
  lemma PairedMore(a: seq<Token>, b: seq<Token>, gap: string, open: string, uri: string, path: string,
                   registry: map<string, Resource>, ctx: Context)
    requires Paired(a, b, registry, ctx) && |open| == 5 && MatchesAt(open, 0, OPEN) && GoodUri(path)
    requires ctx.resolve(uri).Some? && Registered(registry, ctx, path, ctx.resolve(uri).value)
    ensures Paired(a + (Chars(gap) + [Ref(open, uri)]), b + (Chars(gap) + [Ref(open, path)]), registry, ctx)
  {
    hide Registered, GoodUri, MatchesAt;
  }

  lemma ShowMore(b: seq<Token>, gap: string, open: string, path: string)
    ensures Show(b + (Chars(gap) + [Ref(open, path)])) == (Show(b) + gap) + (open + (path + "\""))
  {
    hide Chars;
    CharsShow(gap);
    ShowCons(Ref(open, path), []);
    assert [Ref(open, path)] + [] == [Ref(open, path)];
    ShowConcat(Chars(gap), [Ref(open, path)]);
    ShowConcat(b, Chars(gap) + [Ref(open, path)]);
  }

  lemma PairedGap(a: seq<Token>, b: seq<Token>, gap: string, registry: map<string, Resource>, ctx: Context)
    requires Paired(a, b, registry, ctx)
    ensures Paired(a + Chars(gap), b + Chars(gap), registry, ctx)
  {
    hide Registered, GoodUri, MatchesAt;
  }

  lemma PairedTail(a: seq<Token>, b: seq<Token>, gap: string, registry: map<string, Resource>, ctx: Context)
    requires Paired(a, b, registry, ctx)
    ensures Paired(a + Chars(gap), b + Chars(gap), registry, ctx) && Show(b + Chars(gap)) == Show(b) + gap
  {
    hide Paired, Chars, Show;
    PairedGap(a, b, gap, registry, ctx);
    CharsShow(gap);
    ShowConcat(b, Chars(gap));
  }

  // ---------------------------------------------------------------------
  // Whole playlists

  /** What the rewriter makes of one line. */
  ghost predicate RewrittenLine(line: string, o: string, registry: map<string, Resource>, ctx: Context) {
    if IsBlank(line) then o == line
    else if IsTag(line) then exists b :: Paired(Tokens(line), b, registry, ctx) && o == Show(b)
    else ctx.resolve(Trim(line)).Some? && Registered(registry, ctx, o, ctx.resolve(Trim(line)).value)
  }

  lemma GrewLine(line: string, o: string, before: map<string, Resource>, after: map<string, Resource>, ctx: Context)
    requires RewrittenLine(line, o, before, ctx) && Grew(before, after)
    ensures RewrittenLine(line, o, after, ctx)
  {
    if IsTag(line) && !IsBlank(line) {
      var b :| Paired(Tokens(line), b, before, ctx) && o == Show(b);
      GrewPaired(Tokens(line), b, before, after, ctx);
    }
  }

  /** Until the capability expires, a rewritten line read through the registry
      means what the original means with its references resolved. */
  lemma LineReadsBack(line: string, o: string, registry: map<string, Resource>, ctx: Context, at: int)
    requires RewrittenLine(line, o, registry, ctx) && IsId(ctx.sessionId) && at < ctx.now + ctx.ttl * 1000
    ensures LineUnder(o, Reader(registry, ctx, at)) == LineUnder(line, ctx.resolve)
    ensures LineUnder(line, ctx.resolve).Some?
  {
    TagLine(line);
    if IsTag(line) {
      var b :| Paired(Tokens(line), b, registry, ctx) && o == Show(b);
      TagReadsBack(line, b, registry, ctx, at);
      PairedMeans(Tokens(line), b, registry, ctx, at);
    } else if !IsBlank(line) {
      var id := o[|Prefix(ctx.sessionId)|..];
      assert o == PathOf(ctx.sessionId, id);
      ReferenceReadsBack(line, id, registry, ctx, at);
    }
  }

  lemma {:induction false} MapRefsFails(ts: seq<Token>, f: string -> Option<string>, i: nat)
    requires i < |ts| && ts[i].Ref? && f(ts[i].uri).None?
    ensures MapRefs(ts, f).None?
  {
    if i > 0 {
      MapRefsFails(ts[1..], f, i - 1);
    }
  }

  lemma PathHasNoFeed(path: string, url: string, registry: map<string, Resource>, ctx: Context)
    requires Registered(registry, ctx, path, url) && IsId(ctx.sessionId)
    ensures '\n' !in path
  {
    hide IsId, Prefix, GoodUri, IsBlank, IsTag, Trim;
    var p := Prefix(ctx.sessionId);
    PathIsPlain(ctx.sessionId, path[|p|..]);
    SplitsAt(p, path);
  }

  lemma SplitsAt(p: string, s: string)
    requires p <= s
    ensures s == p + s[|p|..]
  {
  }

  /** A rewritten line is still one line. */
  lemma LineHasNoFeed(line: string, o: string, registry: map<string, Resource>, ctx: Context)
    requires RewrittenLine(line, o, registry, ctx) && IsId(ctx.sessionId) && '\n' !in line
    ensures '\n' !in o
  {
    hide IsBlank, IsTag, Paired, Registered, Tokens, Show, IsId, Trim;
    if !IsBlank(line) && IsTag(line) {
      var b :| Paired(Tokens(line), b, registry, ctx) && o == Show(b);
      TokensShow(line);
      ShowHasNoFeed(Tokens(line), b, registry, ctx);
    } else if !IsBlank(line) {
      PathHasNoFeed(o, ctx.resolve(Trim(line)).value, registry, ctx);
    }
  }

  lemma {:induction false} ShowHasNoFeed(a: seq<Token>, b: seq<Token>, registry: map<string, Resource>, ctx: Context)
    requires Paired(a, b, registry, ctx) && IsId(ctx.sessionId) && '\n' !in Show(a)
    ensures '\n' !in Show(b)
  {
    if a != [] {
      assert Show(a) == a[0].Text() + Show(a[1..]) && Show(b) == b[0].Text() + Show(b[1..]);
      ShowHasNoFeed(a[1..], b[1..], registry, ctx);
      if a[0].Ref? {
        var id := b[0].uri[|Prefix(ctx.sessionId)|..];
        PathIsPlain(ctx.sessionId, id);
        assert b[0].uri == PathOf(ctx.sessionId, id);
        assert '\n' !in a[0].open;
      }
    }
  }

  // ---------------------------------------------------------------------
  // The service

  class MediaGateway {
    const uuid: nat -> string
    var drawn: nat
    var registry: map<string, Resource>

    constructor (ids: nat -> string)
      requires (forall i :: IsId(ids(i))) && forall i, j :: i != j ==> ids(i) != ids(j)
      ensures Valid() && registry == map[]
    {
      uuid, drawn, registry := ids, 0, map[];
    }

    /** `randomUUID` never repeats, and every registered id was drawn. */
    ghost predicate Valid()
      reads this
    {
      && (forall i :: IsId(uuid(i)))
      && (forall i, j :: i != j ==> uuid(i) != uuid(j))
      && (forall id :: id in registry ==> exists i: nat :: i < drawn && uuid(i) == id)
    }

    method ResourceUrl(upstreamUrl: string, ctx: Context) returns (path: string)
      requires Valid() && IsId(ctx.sessionId)
      modifies this
      ensures Valid() && Grew(old(registry), registry)
      ensures Registered(registry, ctx, path, upstreamUrl)
      ensures path == PathOf(ctx.sessionId, uuid(old(drawn))) && GoodUri(path)
      ensures registry.Keys == old(registry).Keys + {uuid(old(drawn))} && uuid(old(drawn)) !in old(registry)
    {
      var id := uuid(drawn);
      drawn := drawn + 1;
      registry := registry[id := Resource(ctx.sessionId, ctx.mediaAssetId, upstreamUrl, ctx.now + ctx.ttl * 1000)];
      path := PathOf(ctx.sessionId, id);
      PathIsPlain(ctx.sessionId, id);
      assert path[|Prefix(ctx.sessionId)|..] == id;
    }

    /** Rewrites the attributes of one tag line; `b` is the written line as tokens. */
    method ReplaceUriAttributes(line: string, ctx: Context) returns (out: Option<string>, ghost b: seq<Token>)
      requires Valid() && IsId(ctx.sessionId)
      modifies this
      ensures Valid() && Grew(old(registry), registry)
      ensures out.Some? ==> out.value == Show(b) && Paired(Tokens(line), b, registry, ctx)
      ensures out.None? ==> MapRefs(Tokens(line), ctx.resolve).None?
    {
      hide Tokens, MapRefs, RefAt, AllMatches, Show, Chars, Paired, Registered, Broken, IsId, PathOf, MatchesAt, GoodUri, Valid;
      var matches := AllMatches(line, 0);
      var output := "";
      var cursor: nat := 0;
      ghost var a: seq<Token> := [];
      b := [];
      var k := 0;
      assert line[0..] == line;
      PairedNone(registry, ctx);
      assert a + Tokens(line[0..]) == Tokens(line[0..]);
      while k < |matches|
        invariant 0 <= k <= |matches| && cursor <= |line|
        invariant matches[k..] == AllMatches(line, cursor)
        invariant Tokens(line) == a + Tokens(line[cursor..])
        invariant Valid() && Grew(old(registry), registry)
        invariant Paired(a, b, registry, ctx) && output == Show(b)
      {
        var m := matches[k];
        assert m == AllMatches(line, cursor)[0];
        TokensByMatch(line, cursor);
        MatchOpens(line, m);
        var open, uri := line[m.index..m.index + 5], line[m.index + 5..m.quote];
        ghost var gap := line[cursor..m.index];
        ghost var added := Chars(gap) + [Ref(open, uri)];
        BrokenFurther(line, cursor, m, a);
        output := output + line[cursor..m.index];
        var upstream := ctx.resolve(uri);
        if upstream.None? {
          MapRefsFails(Tokens(line), ctx.resolve, |a + added| - 1);
          return None, b;
        }
        ghost var before := registry;
        var path := ResourceUrl(upstream.value, ctx);
        GrewPaired(a, b, before, registry, ctx);
        PairedMore(a, b, gap, open, uri, path, registry, ctx);
        ShowMore(b, gap, open, path);
        output := output + (open + (path + "\""));
        a, b := a + added, b + (Chars(gap) + [Ref(open, path)]);
        cursor := m.quote + 1;
        k := k + 1;
      }
      TokensByMatch(line, cursor);
      PairedTail(a, b, line[cursor..], registry, ctx);
      b := b + Chars(line[cursor..]);
      out := Some(output + line[cursor..]);
    }

    /** A line by its kind; it is not written if and only if a reference does not resolve. */
    method RewriteLine(line: string, ctx: Context) returns (out: Option<string>)
      requires Valid() && IsId(ctx.sessionId)
      modifies this
      ensures Valid() && Grew(old(registry), registry)
      ensures out.None? <==> LineUnder(line, ctx.resolve).None?
      ensures out.Some? ==> RewrittenLine(line, out.value, registry, ctx)
    {
      hide Tokens, MapRefs, Paired, Trim;
      TagLine(line);
      if IsBlank(line) {
        out := Some(line);
      } else if IsTag(line) {
        ghost var b;
        out, b := ReplaceUriAttributes(line, ctx);
      } else {
        var upstream := ctx.resolve(Trim(line));
        if upstream.None? {
          return None;
        }
        var path := ResourceUrl(upstream.value, ctx);
        out := Some(path);
      }
      if out.Some? {
        LineResolves(line, out.value, registry, ctx);
      }
    }

    /** Rewrites a playlist; `o` is the list of written lines. A reference that
        does not resolve, and only that, makes the rewrite fail. */
    method RewriteHls(source: string, ctx: Context) returns (body: Option<string>, ghost o: seq<string>)
      requires Valid() && IsId(ctx.sessionId)
      modifies this
      ensures Valid() && Grew(old(registry), registry)
      ensures body.None? <==> exists i :: 0 <= i < |Lines(source)| && LineUnder(Lines(source)[i], ctx.resolve).None?
      ensures body.Some? ==> |o| == |Lines(source)| && body.value == Join(o, "\n") && Lines(body.value) == Absorbed(o)
      ensures body.Some? ==> forall i :: 0 <= i < |o| ==> RewrittenLine(Lines(source)[i], o[i], registry, ctx)
    {
      hide RewrittenLine, LineUnder, Registered, IsId;
      var lines := Lines(source);
      LinesHaveNoFeed(source);
      o := [];
      var rewritten: seq<string> := [];
      var i := 0;
      while i < |lines|
        invariant 0 <= i <= |lines| && rewritten == o && |o| == i
        invariant Valid() && Grew(old(registry), registry)
        invariant forall k :: 0 <= k < i ==> RewrittenLine(lines[k], o[k], registry, ctx)
      {
        var line := lines[i];
        ghost var before := registry;
        var out := RewriteLine(line, ctx);
        if out.None? {
          assert LineUnder(Lines(source)[i], ctx.resolve).None?;
          return None, o;
        }
        rewritten := rewritten + [out.value];
        GrewLines(lines, o, before, registry, ctx);
        o := rewritten;
        i := i + 1;
      }
      WrittenLines(lines, o, registry, ctx);
      body := Some(Join(rewritten, "\n"));
    }
  }

  lemma LineResolves(line: string, o: string, registry: map<string, Resource>, ctx: Context)
    requires RewrittenLine(line, o, registry, ctx) && IsId(ctx.sessionId)
    ensures LineUnder(line, ctx.resolve).Some?
  {
    LineReadsBack(line, o, registry, ctx, ctx.now + ctx.ttl * 1000 - 1);
  }

  lemma GrewLines(lines: seq<string>, o: seq<string>, before: map<string, Resource>, after: map<string, Resource>, ctx: Context)
    requires |o| <= |lines| && Grew(before, after)
    requires forall k :: 0 <= k < |o| ==> RewrittenLine(lines[k], o[k], before, ctx)
    ensures forall k :: 0 <= k < |o| ==> RewrittenLine(lines[k], o[k], after, ctx)
  {
    hide RewrittenLine, Grew;
    forall k | 0 <= k < |o| ensures RewrittenLine(lines[k], o[k], after, ctx) {
      GrewLine(lines[k], o[k], before, after, ctx);
    }
  }

  lemma WrittenLines(lines: seq<string>, o: seq<string>, registry: map<string, Resource>, ctx: Context)
    requires 0 < |o| == |lines| && IsId(ctx.sessionId) && forall k :: 0 <= k < |o| ==> '\n' !in lines[k]
    requires forall k :: 0 <= k < |o| ==> RewrittenLine(lines[k], o[k], registry, ctx)
    ensures Lines(Join(o, "\n")) == Absorbed(o) && forall k :: 0 <= k < |o| ==> LineUnder(lines[k], ctx.resolve).Some?
  {
    hide RewrittenLine, LineUnder, IsId, Lines;
    forall k | 0 <= k < |o| ensures '\n' !in o[k] && LineUnder(lines[k], ctx.resolve).Some? {
      LineHasNoFeed(lines[k], o[k], registry, ctx);
      LineResolves(lines[k], o[k], registry, ctx);
    }
    LinesOfJoin(o);
  }

  lemma AlikeEnds(a: seq<Token>, b: seq<Token>)
    requires Alike(a, b) && !EndsInCr(Show(a))
    ensures !EndsInCr(Show(b))
  {
    if a != [] {
      var n := |a| - 1;
      assert a == a[..n] + [a[n]] && b == b[..n] + [b[n]];
      ShowConcat(a[..n], [a[n]]);
      ShowConcat(b[..n], [b[n]]);
      LastText(a[n]);
      LastText(b[n]);
    }
  }

  lemma LastText(t: Token)
    ensures Show([t]) == t.Text() && t.Text() != ""
    ensures t.Text()[|t.Text()| - 1] == if t.Char? then t.c else '"'
  {
    assert [t][1..] == [];
  }

  lemma PathEndsPlainly(path: string, url: string, registry: map<string, Resource>, ctx: Context)
    requires Registered(registry, ctx, path, url)
    ensures !EndsInCr(path)
  {
    var p := Prefix(ctx.sessionId);
    hide Prefix;
    var id := path[|p|..];
    assert IsIdChar(id[|id| - 1]);
    assert path[|path| - 1] == id[|id| - 1];
  }

  lemma LineEndsPlainly(line: string, o: string, registry: map<string, Resource>, ctx: Context)
    requires RewrittenLine(line, o, registry, ctx) && !EndsInCr(line)
    ensures !EndsInCr(o)
  {
    hide IsBlank, IsTag, Paired, Registered, Tokens, Show, Trim, EndsInCr;
    if !IsBlank(line) && IsTag(line) {
      var b :| Paired(Tokens(line), b, registry, ctx) && o == Show(b);
      TokensShow(line);
      PairedIsAlike(Tokens(line), b, registry, ctx);
      AlikeEnds(Tokens(line), b);
    } else if !IsBlank(line) {
      PathEndsPlainly(o, ctx.resolve(Trim(line)).value, registry, ctx);
    }
  }

  lemma NothingDropped(s: string)
    requires !EndsInCr(s)
    ensures DropCr(s) == s
  {
  }

  /** What ends a line goes on ending it: without the carriage return, the written
      line is the one written for the line without it. */
  lemma CrRewritten(line: string, o: string, registry: map<string, Resource>, ctx: Context)
    requires RewrittenLine(line, o, registry, ctx)
    ensures RewrittenLine(DropCr(line), DropCr(o), registry, ctx)
  {
    TrimDropsCr(line);
    if !EndsInCr(line) {
      LineEndsPlainly(line, o, registry, ctx);
      NothingDropped(line);
      NothingDropped(o);
    } else if !IsBlank(line) && IsTag(line) {
      TagCrRewritten(line, o, registry, ctx);
    } else if !IsBlank(line) {
      PathEndsPlainly(o, ctx.resolve(Trim(line)).value, registry, ctx);
      NothingDropped(o);
    }
  }

  lemma TagCrRewritten(line: string, o: string, registry: map<string, Resource>, ctx: Context)
    requires EndsInCr(line) && exists b :: Paired(Tokens(line), b, registry, ctx) && o == Show(b)
    ensures exists b :: Paired(Tokens(DropCr(line)), b, registry, ctx) && DropCr(o) == Show(b)
  {
    hide Show, Tokens;
    var front := DropCr(line);
    assert line == front + "\r";
    TokensWithCr(front);
    var a := Tokens(front);
    var b :| Paired(Tokens(line), b, registry, ctx) && o == Show(b);
    PairedFront(a, b, registry, ctx);
    var n := |a|;
    assert b == b[..n] + [Char('\r')];
    ShowConcat(b[..n], [Char('\r')]);
    LastText(Char('\r'));
    assert DropCr(o) == Show(b[..n]);
  }

  lemma PairedFront(a: seq<Token>, b: seq<Token>, registry: map<string, Resource>, ctx: Context)
    requires Paired(a + [Char('\r')], b, registry, ctx)
    ensures |b| == |a| + 1 && b[|a|] == Char('\r') && Paired(a, b[..|a|], registry, ctx)
  {
    hide Registered, GoodUri, MatchesAt;
    var c := a + [Char('\r')];
    assert c[|a|] == Char('\r') && forall i :: 0 <= i < |a| ==> c[i] == a[i];
  }

  lemma {:induction false} MapRefsOneMore(ts: seq<Token>, c: char, f: string -> Option<string>)
    ensures MapRefs(ts + [Char(c)], f) == if MapRefs(ts, f).None? then None else Some(MapRefs(ts, f).value + [c])
  {
    if ts == [] {
      assert ts + [Char(c)] == [Char(c)] && [Char(c)][1..] == [];
      assert [c] + "" == "" + [c];
    } else {
      MapRefsOneMore(ts[1..], c, f);
      assert (ts + [Char(c)])[1..] == ts[1..] + [Char(c)];
      var rest := MapRefs(ts[1..], f);
      if rest.Some? {
        var first := match ts[0] case Char(x) => [x] case Ref(open, uri) => if f(uri).Some? then open + (f(uri).value + "\"") else "";
        assert first + (rest.value + [c]) == (first + rest.value) + [c];
      }
    }
  }

  /** The carriage return belongs to what a blank line or a tag means, and not to
      what a reference means. */
  lemma CrUnder(line: string, f: string -> Option<string>)
    requires EndsInCr(line)
    ensures LineUnder(line, f) ==
      var rest := LineUnder(DropCr(line), f);
      if rest.Some? && (IsBlank(line) || IsTag(line)) then Some(rest.value + "\r") else rest
  {
    TrimDropsCr(line);
    TagLine(line);
    hide Trim, MapRefs;
    var front := DropCr(line);
    assert line == front + "\r";
    assert IsBlank(front) == IsBlank(line) && IsTag(front) == IsTag(line);
    if IsTag(line) {
      TokensWithCr(front);
      hide Tokens;
      MapRefsOneMore(Tokens(front), '\r', f);
    }
  }

  /** The lines that lose a carriage return of their own when the output is split. */
  predicate LosesCr(lines: seq<string>, i: nat)
    requires i < |lines|
  {
    i < |lines| - 1 && EndsInCr(lines[i]) && (IsBlank(lines[i]) || IsTag(lines[i]))
  }

  lemma ReadsAbsorbed(lines: seq<string>, o: seq<string>, i: nat, registry: map<string, Resource>, ctx: Context, at: int)
    requires i < |o| == |lines| && RewrittenLine(lines[i], o[i], registry, ctx)
    requires IsId(ctx.sessionId) && at < ctx.now + ctx.ttl * 1000
    ensures |Absorbed(o)| == |Absorbed(lines)| == |lines|
    ensures var r := LineUnder(Absorbed(o)[i], Reader(registry, ctx, at));
      r.Some? && r == LineUnder(Absorbed(lines)[i], ctx.resolve)
    ensures LineUnder(Absorbed(o)[i], Reader(registry, ctx, at)) == LineUnder(lines[i], ctx.resolve) <==> !LosesCr(lines, i)
  {
    hide RewrittenLine, LineUnder, Reader, IsId, IsBlank, IsTag, Absorbed;
    AbsorbedAt(o, i);
    AbsorbedAt(lines, i);
    if i < |lines| - 1 {
      CrRewritten(lines[i], o[i], registry, ctx);
      LineReadsBack(DropCr(lines[i]), DropCr(o[i]), registry, ctx, at);
      if EndsInCr(lines[i]) {
        CrUnder(lines[i], ctx.resolve);
      } else {
        NothingDropped(lines[i]);
      }
    } else {
      LineReadsBack(lines[i], o[i], registry, ctx, at);
    }
  }

  /** Every playlist: the output has as many lines as the input, and each of them, read
      through the registry until the capability expires, means the line it stands for
      with every reference resolved, except that a carriage return of its own before a
      line break is absorbed. So it means exactly its original if and only if that
      is not a blank line or a tag that ends in such a carriage return. `o` is what
      `RewriteHls` wrote line by line. */
  lemma PlaylistReadsBack(source: string, o: seq<string>, registry: map<string, Resource>, ctx: Context, at: int)
    requires |o| == |Lines(source)| && IsId(ctx.sessionId) && at < ctx.now + ctx.ttl * 1000
    requires forall i :: 0 <= i < |o| ==> RewrittenLine(Lines(source)[i], o[i], registry, ctx)
    ensures var lines, out := Lines(source), Lines(Join(o, "\n"));
      && |out| == |Absorbed(lines)| == |lines|
      && forall i :: 0 <= i < |out| ==>
           var r := LineUnder(out[i], Reader(registry, ctx, at));
           r.Some? && r == LineUnder(Absorbed(lines)[i], ctx.resolve)
           && (r == LineUnder(lines[i], ctx.resolve) <==> !LosesCr(lines, i))
  {
    var lines := Lines(source);
    LinesHaveNoFeed(source);
    forall i | 0 <= i < |o| ensures '\n' !in o[i] {
      LineHasNoFeed(lines[i], o[i], registry, ctx);
    }
    LinesOfJoin(o);
    hide RewrittenLine, LineUnder, Lines, Reader, IsId, LosesCr, Absorbed;
    AbsorbedAt(o, 0);
    AbsorbedAt(lines, 0);
    forall i | 0 <= i < |o|
      ensures var r := LineUnder(Absorbed(o)[i], Reader(registry, ctx, at));
        r.Some? && r == LineUnder(Absorbed(lines)[i], ctx.resolve) && (r == LineUnder(lines[i], ctx.resolve) <==> !LosesCr(lines, i))
    {
      ReadsAbsorbed(lines, o, i, registry, ctx, at);
    }
  }

  /** Such a line: a tag that keeps one of two carriage returns loses it. */
  lemma StrayReturnIsLost(o: seq<string>, registry: map<string, Resource>, ctx: Context, at: int)
    requires IsId(ctx.sessionId) && at < ctx.now + ctx.ttl * 1000
    requires |o| == 2 && RewrittenLine("#X\r", o[0], registry, ctx) && RewrittenLine("#Y", o[1], registry, ctx)
    ensures Lines("#X\r\r\n#Y") == ["#X\r", "#Y"]
    ensures var out := Lines(Join(o, "\n"));
      |out| == 2 && LineUnder(out[0], Reader(registry, ctx, at)) != LineUnder("#X\r", ctx.resolve)
  {
    var source := "#X\r\r\n#Y";
    StrayLines();
    hide RewrittenLine, LineUnder, Lines, Reader, IsId, Absorbed;
    PlaylistReadsBack(source, o, registry, ctx, at);
    StrayLoses();
  }

  lemma StrayLines()
    ensures Lines("#X\r\r\n#Y") == ["#X\r", "#Y"]
  {
    var s := "#X\r\r\n#Y";
    FindIs(s, '\n', 0, 4);
    assert s[..4] == "#X\r\r" && s[5..] == "#Y" && DropCr("#X\r\r") == "#X\r";
    FindIs("#Y", '\n', 0, 2);
    assert Lines("#Y") == ["#Y"];
  }

  lemma StrayLoses()
    ensures LosesCr(["#X\r", "#Y"], 0)
  {
    SkipsTo("#X\r", 0, 0);
    TagLine("#X\r");
  }
}
