/** Chunked uploads (src/uploads/uploads.service.ts:14-21, 43-153).
    The life of one upload id: its manifest in Redis, the multipart store or the
    staging directory, and the calls in flight. Each call works on its own copy of
    the manifest and saves it whole, so concurrent calls overwrite each other.
    An ETag is a hash of the part's bytes and is taken as injective. */
module Uploads {
  import opened Text

  newtype byte = x: int | 0 <= x < 256

  type Bytes = seq<byte>

  type Id = nat

  const MAX_CHUNK_BYTES: nat := 16 * 1024 * 1024
  const MIN_PART_BYTES: nat := 5 * 1024 * 1024

  datatype ETag = ETag(content: Bytes)

  datatype Part = Part(chunkIndex: nat, partNumber: nat, eTag: ETag, size: nat)

  /** What `init` fixes; `remote` chooses the multipart store over the staging directory. */
  datatype Upload = Upload(actor: Id, sizeBytes: nat, totalChunks: nat, remote: bool)

  datatype Manifest = Manifest(upload: Upload, chunks: seq<nat>, parts: seq<Part>, uploadedBytes: int)

  datatype Reply =
    | NotFound
    | BadIndex
    | TooLarge
    | TooSmall
    | Incomplete
    | SizeMismatch
    | StoreFailed
    | Continue
    | Accepted(received: nat)
    | Completed(whole: Bytes)
    | Cancelled

  // ---------------------------------------------------------------------
  // Sorting, totals, part lists

  function Insert<T>(x: T, s: seq<T>, key: T -> nat): seq<T> {
    if s == [] || key(x) < key(s[0]) then [x] + s else [s[0]] + Insert(x, s[1..], key)
  }

  /** A stable sort, as `Array.prototype.sort` is. */
  function Sort<T>(s: seq<T>, key: T -> nat): seq<T> {
    if s == [] then [] else Insert(s[|s| - 1], Sort(s[..|s| - 1], key), key)
  }

  predicate Ascending<T>(s: seq<T>, key: T -> nat) {
    forall i, j :: 0 <= i < j < |s| ==> key(s[i]) < key(s[j])
  }

  ghost predicate Distinct<T>(s: seq<T>, key: T -> nat) {
    forall i, j :: 0 <= i < j < |s| ==> key(s[i]) != key(s[j])
  }

  const Index: Part -> nat := (p: Part) => p.chunkIndex
  const Number: Part -> nat := (p: Part) => p.partNumber
  const Self: nat -> nat := (n: nat) => n

  lemma {:induction false} InsertPermutes<T>(x: T, s: seq<T>, key: T -> nat)
    ensures multiset(Insert(x, s, key)) == multiset(s) + multiset{x}
  {
    if s != [] && key(x) >= key(s[0]) {
      InsertPermutes(x, s[1..], key);
      assert s == [s[0]] + s[1..];
    }
  }

  lemma {:induction false} InsertAscends<T>(x: T, s: seq<T>, key: T -> nat)
    requires Ascending(s, key) && forall y :: y in s ==> key(y) != key(x)
    ensures Ascending(Insert(x, s, key), key)
  {
    if s != [] && key(x) >= key(s[0]) {
      InsertAscends(x, s[1..], key);
      InsertPermutes(x, s[1..], key);
      var r := Insert(x, s[1..], key);
      forall j | 0 <= j < |r| ensures key(s[0]) < key(r[j]) {
        assert r[j] in multiset(r);
        assert s[0] in s;
      }
    }
  }

  /** Sorting rearranges. */
  lemma {:induction false} SortPermutes<T>(s: seq<T>, key: T -> nat)
    ensures multiset(Sort(s, key)) == multiset(s) && |Sort(s, key)| == |s|
  {
    if s != [] {
      var front := s[..|s| - 1];
      SortPermutes(front, key);
      InsertPermutes(s[|s| - 1], Sort(front, key), key);
      assert s == front + [s[|s| - 1]];
    }
    assert |multiset(Sort(s, key))| == |multiset(s)|;
  }

  /** Sorting a list with distinct keys makes it ascend strictly. */
  lemma {:induction false} SortAscends<T>(s: seq<T>, key: T -> nat)
    requires Distinct(s, key)
    ensures Ascending(Sort(s, key), key)
  {
    if s != [] {
      var front, last := s[..|s| - 1], s[|s| - 1];
      SortAscends(front, key);
      SortPermutes(front, key);
      var r := Sort(front, key);
      forall y | y in r ensures key(y) != key(last) {
        assert y in multiset(r);
        assert y in front;
      }
      InsertAscends(last, r, key);
    }
  }

  function Total(parts: seq<Part>): nat {
    if parts == [] then 0 else parts[0].size + Total(parts[1..])
  }

  lemma {:induction false} TotalOfInsert(p: Part, parts: seq<Part>, key: Part -> nat)
    ensures Total(Insert(p, parts, key)) == p.size + Total(parts)
  {
    if parts == [] || key(p) < key(parts[0]) {
      assert ([p] + parts)[1..] == parts;
    } else {
      TotalOfInsert(p, parts[1..], key);
      assert ([parts[0]] + Insert(p, parts[1..], key))[1..] == Insert(p, parts[1..], key);
    }
  }

  lemma {:induction false} TotalOfAppend(parts: seq<Part>, p: Part)
    ensures Total(parts + [p]) == Total(parts) + p.size
  {
    if parts != [] {
      TotalOfAppend(parts[1..], p);
      assert (parts + [p])[1..] == parts[1..] + [p];
    }
  }

  lemma {:induction false} TotalOfSort(parts: seq<Part>, key: Part -> nat)
    ensures Total(Sort(parts, key)) == Total(parts)
  {
    if parts != [] {
      var front, last := parts[..|parts| - 1], parts[|parts| - 1];
      TotalOfSort(front, key);
      TotalOfInsert(last, Sort(front, key), key);
      TotalOfAppend(front, last);
      assert parts == front + [last];
    }
  }

  /** Where the part of chunk `index` is in the list, or the list's length. */
  function Position(parts: seq<Part>, index: nat): (at: nat)
    ensures at <= |parts|
    ensures at < |parts| ==> parts[at].chunkIndex == index
    ensures forall k :: 0 <= k < at ==> parts[k].chunkIndex != index
  {
    if parts == [] || parts[0].chunkIndex == index then 0 else 1 + Position(parts[1..], index)
  }

  function WithPart(parts: seq<Part>, index: nat, bytes: Bytes): seq<Part> {
    var at := Position(parts, index);
    if at < |parts| then parts[at := parts[at].(eTag := ETag(bytes), size := |bytes|)]
    else parts + [Part(index, index + 1, ETag(bytes), |bytes|)]
  }

  lemma {:induction false} TotalOfUpdate(parts: seq<Part>, at: nat, p: Part)
    requires at < |parts|
    ensures Total(parts[at := p]) == Total(parts) - parts[at].size + p.size
  {
    if at > 0 {
      TotalOfUpdate(parts[1..], at - 1, p);
      assert parts[at := p][1..] == parts[1..][at - 1 := p];
    } else {
      assert parts[at := p][1..] == parts[1..];
    }
  }

  // ---------------------------------------------------------------------
  // The manifest

  /** The manifest a chunk call saves. */
  function Recorded(m: Manifest, index: nat, bytes: Bytes): Manifest {
    var at := Position(m.parts, index);
    var previous := if at < |m.parts| then m.parts[at].size else 0;
    var chunks := if index in m.chunks then m.chunks else m.chunks + [index];
    m.(chunks := Sort(chunks, Self),
       parts := if m.upload.remote then WithPart(m.parts, index, bytes) else m.parts,
       uploadedBytes := if m.upload.remote then m.uploadedBytes - previous + |bytes| else m.uploadedBytes)
  }

  predicate Fits(u: Upload, index: nat, size: nat) {
    && index < u.totalChunks && size <= MAX_CHUNK_BYTES
    && (u.remote && index != u.totalChunks - 1 ==> MIN_PART_BYTES <= size)
  }

  ghost predicate SoundPart(u: Upload, p: Part) {
    p.partNumber == p.chunkIndex + 1 && p.size == |p.eTag.content| && Fits(u, p.chunkIndex, p.size)
  }

  /** The running byte total is the sum of the part sizes, the chunk list is in
      range and strictly sorted, and the parts are exactly those of the listed chunks. */
  ghost predicate Sound(m: Manifest) {
    && Ascending(m.chunks, Self) && (forall c :: c in m.chunks ==> c < m.upload.totalChunks)
    && m.uploadedBytes == Total(m.parts)
    && Distinct(m.parts, Index) && (forall p :: p in m.parts ==> SoundPart(m.upload, p))
    && (if m.upload.remote then
          && (forall p :: p in m.parts ==> p.chunkIndex in m.chunks)
          && (forall c :: c in m.chunks ==> Position(m.parts, c) < |m.parts|)
        else m.parts == [])
  }

  lemma RecordedChunks(m: Manifest, index: nat, bytes: Bytes)
    requires Ascending(m.chunks, Self)
    ensures var c := Recorded(m, index, bytes).chunks;
      Ascending(c, Self) && forall i :: i in c <==> i == index || i in m.chunks
  {
    var pushed := if index in m.chunks then m.chunks else m.chunks + [index];
    SortAscends(pushed, Self);
    SortPermutes(pushed, Self);
    forall i ensures i in Sort(pushed, Self) <==> i == index || i in m.chunks {
      assert i in Sort(pushed, Self) <==> i in multiset(Sort(pushed, Self));
    }
  }

  lemma RecordedTotal(m: Manifest, index: nat, bytes: Bytes)
    requires m.uploadedBytes == Total(m.parts)
    ensures var r := Recorded(m, index, bytes); r.uploadedBytes == Total(r.parts)
  {
    var at := Position(m.parts, index);
    if at < |m.parts| {
      TotalOfUpdate(m.parts, at, m.parts[at].(eTag := ETag(bytes), size := |bytes|));
    } else {
      TotalOfAppend(m.parts, Part(index, index + 1, ETag(bytes), |bytes|));
    }
  }

  /** The list gains or replaces the part of `index` and keeps the others. */
  lemma WithPartMeans(parts: seq<Part>, index: nat, bytes: Bytes)
    requires Distinct(parts, Index) && forall p :: p in parts ==> p.partNumber == p.chunkIndex + 1
    ensures var r := WithPart(parts, index, bytes);
      && Distinct(r, Index)
      && (forall p :: p in r <==> p == Part(index, index + 1, ETag(bytes), |bytes|) || (p in parts && p.chunkIndex != index))
      && (forall c :: Position(r, c) < |r| <==> c == index || Position(parts, c) < |parts|)
  {
    var r := WithPart(parts, index, bytes);
    var at := Position(parts, index);
    var q := Part(index, index + 1, ETag(bytes), |bytes|);
    if at < |parts| {
      assert parts[at] in parts;
      assert r[at] == q;
      forall p ensures p in r <==> p == q || (p in parts && p.chunkIndex != index) {
        if p in parts && p.chunkIndex != index {
          var k :| 0 <= k < |parts| && parts[k] == p;
          assert r[k] == p;
        }
      }
    } else {
      forall p | p in parts ensures p.chunkIndex != index {
      }
    }
    forall c ensures Position(r, c) < |r| <==> c == index || Position(parts, c) < |parts| {
      PositionFinds(r, c);
      PositionFinds(parts, c);
      if Position(parts, c) < |parts| && c != index {
        assert parts[Position(parts, c)] in r;
      }
      if Position(r, c) < |r| && c != index {
        assert r[Position(r, c)] in parts;
      }
      assert q in r;
    }
  }

  lemma PositionFinds(parts: seq<Part>, c: nat)
    ensures Position(parts, c) < |parts| <==> exists p :: p in parts && p.chunkIndex == c
  {
    if Position(parts, c) < |parts| {
      assert parts[Position(parts, c)] in parts;
    }
  }

  /** Recording a chunk keeps the manifest sound, whether it is new or re-sent. */
  lemma RecordedKeeps(m: Manifest, index: nat, bytes: Bytes)
    requires Sound(m) && Fits(m.upload, index, |bytes|)
    ensures Sound(Recorded(m, index, bytes))
  {
    hide Sort, WithPart, Ascending, Distinct, Total;
    RecordedChunks(m, index, bytes);
    RecordedTotal(m, index, bytes);
    if m.upload.remote {
      WithPartMeans(m.parts, index, bytes);
    }
  }

  // ---------------------------------------------------------------------
  // Pigeonhole

  /** As many strictly ascending numbers below `n` as there are: all of them. */
  lemma {:induction false} Pigeonhole<T>(s: seq<T>, key: T -> nat, n: nat)
    requires Ascending(s, key) && |s| == n && forall i :: 0 <= i < n ==> key(s[i]) < n
    ensures forall i :: 0 <= i < n ==> key(s[i]) == i
  {
    if n > 0 {
      var front := s[..n - 1];
      forall i | 0 <= i < n - 1 ensures key(front[i]) < n - 1 {
        assert key(s[i]) < key(s[n - 1]);
      }
      Pigeonhole(front, key, n - 1);
      forall i | 0 <= i < n - 1 ensures key(s[i]) == i {
        assert front[i] == s[i];
      }
      if n > 1 {
        assert key(s[n - 2]) < key(s[n - 1]);
      }
    }
  }

  lemma NumbersDistinct(m: Manifest)
    requires Sound(m)
    ensures Distinct(m.parts, Number)
  {
    hide Total;
    forall i, j | 0 <= i < j < |m.parts| ensures Number(m.parts[i]) != Number(m.parts[j]) {
      assert m.parts[i] in m.parts && m.parts[j] in m.parts;
      assert Index(m.parts[i]) != Index(m.parts[j]);
    }
  }

  lemma SoundMembers(m: Manifest, r: seq<Part>, i: nat)
    requires Sound(m) && multiset(r) == multiset(m.parts) && i < |r|
    ensures r[i] in m.parts && SoundPart(m.upload, r[i])
  {
    hide Total, Distinct, Ascending;
    assert r[i] in multiset(r);
  }

  /** Parts of distinct chunks, as many as there are chunks, by number: 1 to n. */
  lemma NumberedInOrder(u: Upload, r: seq<Part>)
    requires Ascending(r, Number) && |r| == u.totalChunks && forall i :: 0 <= i < |r| ==> SoundPart(u, r[i])
    ensures forall i :: 0 <= i < |r| ==> r[i].chunkIndex == i && r[i].partNumber == i + 1
  {
    assert Ascending(r, Index) by {
      forall i, j | 0 <= i < j < |r| ensures Index(r[i]) < Index(r[j]) {
        assert Number(r[i]) < Number(r[j]);
      }
    }
    Pigeonhole(r, Index, |r|);
    assert forall i :: 0 <= i < |r| ==> Index(r[i]) == i;
  }

  /** The part list sent on completion: when all are there, numbers 1 to n in order. */
  lemma SortedParts(m: Manifest)
    requires Sound(m) && |m.parts| == m.upload.totalChunks
    ensures var r := Sort(m.parts, Number);
      && |r| == m.upload.totalChunks && Total(r) == m.uploadedBytes
      && (forall i :: 0 <= i < |r| ==> r[i].chunkIndex == i && r[i].partNumber == i + 1 && r[i] in m.parts && SoundPart(m.upload, r[i]))
  {
    assert m.uploadedBytes == Total(m.parts);
    hide Sort, Total, Sound, SoundPart, Ascending, Distinct;
    var r := Sort(m.parts, Number);
    NumbersDistinct(m);
    SortAscends(m.parts, Number);
    SortPermutes(m.parts, Number);
    TotalOfSort(m.parts, Number);
    forall i | 0 <= i < |r| ensures r[i] in m.parts && SoundPart(m.upload, r[i]) {
      SoundMembers(m, r, i);
    }
    NumberedInOrder(m.upload, r);
  }

  // ---------------------------------------------------------------------
  // Steps of the calls

  /** A call in flight, with its own copy of the manifest. */
  datatype Call =
    | Received(index: nat, bytes: Bytes, copy: Manifest)
    | Stored(index: nat, bytes: Bytes, copy: Manifest)
    | Checked(copy: Manifest)
    | Gathering(read: seq<Bytes>, copy: Manifest)
    | Forwarded(whole: Bytes, copy: Manifest)
    | Assembled(whole: Bytes, copy: Manifest)
    | Leaving(copy: Manifest)
    | Aborted(copy: Manifest)

  /** What becomes of a combined file: a place takes it, no place is configured, or
      the place refuses it. */
  datatype Forwarding = Kept | Nowhere | Refused

  /** `open` until the multipart upload is completed or aborted, or the directory
      removed; `objects` are the files some place has kept. */
  datatype World = World(
    upload: Upload,
    manifest: Option<Manifest>,
    multipart: map<nat, Bytes>,
    files: map<nat, Bytes>,
    open: bool,
    objects: seq<Bytes>,
    calls: map<Id, Call>)

  datatype Outcome = Outcome(world: World, reply: Reply)

  datatype Event =
    | BeginChunk(thread: Id, actor: Id, index: int, bytes: Bytes)
    | Send(thread: Id)
    | Save(thread: Id)
    | BeginComplete(thread: Id, actor: Id)
    | Assemble(thread: Id, works: bool)
    | Gather(thread: Id)
    | Forward(thread: Id, forwarding: Forwarding)
    | Remove(thread: Id)
    | FinishComplete(thread: Id)
    | BeginCancel(thread: Id, actor: Id)
    | Abort(thread: Id, aborts: bool)
    | FinishCancel(thread: Id)
    | Expire
    | Crash(thread: Id)

  function EmptyManifest(u: Upload): Manifest { Manifest(u, [], [], 0) }

  function Started(u: Upload): World { World(u, Some(EmptyManifest(u)), map[], map[], true, [], map[]) }

  /** The manifest, for the actor who began the upload. */
  function Lookup(w: World, actor: Id): Option<Manifest> {
    if w.manifest.Some? && w.manifest.value.upload.actor == actor then w.manifest else None
  }

  function Enter(w: World, thread: Id, call: Call): World { w.(calls := w.calls[thread := call]) }

  function Leave(w: World, thread: Id): World { w.(calls := w.calls - {thread}) }

  /** Why a chunk is turned away, or `Continue`. */
  function ChunkCheck(u: Upload, index: int, size: nat): Reply {
    if index < 0 || index >= u.totalChunks then BadIndex
    else if size > MAX_CHUNK_BYTES then TooLarge
    else if u.remote && index != u.totalChunks - 1 && size < MIN_PART_BYTES then TooSmall
    else Continue
  }

  function DoBeginChunk(w: World, thread: Id, actor: Id, index: int, bytes: Bytes): Outcome {
    var m := Lookup(w, actor);
    if m.None? then Outcome(w, NotFound)
    else if ChunkCheck(m.value.upload, index, |bytes|) != Continue
    then Outcome(w, ChunkCheck(m.value.upload, index, |bytes|))
    else Outcome(Enter(w, thread, Received(index, bytes, m.value)), Continue)
  }

  function Put(w: World, index: nat, bytes: Bytes): World {
    if w.upload.remote then w.(multipart := w.multipart[index + 1 := bytes]) else w.(files := w.files[index := bytes])
  }

  function DoSend(w: World, thread: Id): Outcome {
    if thread in w.calls && w.calls[thread].Received? then
      var c := w.calls[thread];
      if w.open then Outcome(Enter(Put(w, c.index, c.bytes), thread, Stored(c.index, c.bytes, c.copy)), Continue)
      else Outcome(Leave(w, thread), StoreFailed)
    else Outcome(w, Continue)
  }

  function DoSave(w: World, thread: Id): Outcome {
    if thread in w.calls && w.calls[thread].Stored? then
      var c := w.calls[thread];
      var m := Recorded(c.copy, c.index, c.bytes);
      Outcome(Leave(w, thread).(manifest := Some(m)), Accepted(|m.chunks|))
    else Outcome(w, Continue)
  }

  /** Why an upload cannot be completed yet, or `Continue`. */
  function CompleteCheck(m: Manifest): Reply {
    if |m.chunks| != m.upload.totalChunks then Incomplete
    else if m.upload.remote && |m.parts| != m.upload.totalChunks then Incomplete
    else if m.upload.remote && m.uploadedBytes != m.upload.sizeBytes then SizeMismatch
    else Continue
  }

  function DoBeginComplete(w: World, thread: Id, actor: Id): Outcome {
    var m := Lookup(w, actor);
    if m.None? then Outcome(w, NotFound)
    else if CompleteCheck(m.value) != Continue then Outcome(w, CompleteCheck(m.value))
    else Outcome(Enter(w, thread, if m.value.upload.remote then Checked(m.value) else Gathering([], m.value)), Continue)
  }

  /** The store's rule: ascending part numbers, each part there with the listed
      ETag, and all but the last of one size and not below the minimum. */
  predicate StoreAccepts(multipart: map<nat, Bytes>, listed: seq<Part>) {
    && Ascending(listed, Number)
    && (forall i :: 0 <= i < |listed| ==>
          && listed[i].partNumber in multipart
          && ETag(multipart[listed[i].partNumber]) == listed[i].eTag
          && (i < |listed| - 1 ==> MIN_PART_BYTES <= |multipart[listed[i].partNumber]| == |Get(multipart, listed[0].partNumber)|))
  }

  function Get(blobs: map<nat, Bytes>, k: nat): Bytes { if k in blobs then blobs[k] else [] }

  /** What the store makes of the parts it is listed. */
  function Joined(multipart: map<nat, Bytes>, listed: seq<Part>): Bytes {
    if listed == [] then []
    else Joined(multipart, listed[..|listed| - 1]) + Get(multipart, listed[|listed| - 1].partNumber)
  }

  /** `n` consecutive blobs, one after the other. */
  function Concat(blobs: map<nat, Bytes>, first: nat, n: nat): Bytes {
    if n == 0 then [] else Concat(blobs, first, n - 1) + Get(blobs, first + n - 1)
  }

  function Closed(w: World): World { w.(open := false, multipart := map[], files := map[]) }

  /** What the store makes of the listed parts, or why nothing. */
  function Assembly(w: World, m: Manifest): (Reply, Bytes) {
    var listed := Sort(m.parts, Number);
    if w.open && StoreAccepts(w.multipart, listed) then (Continue, Joined(w.multipart, listed)) else (StoreFailed, [])
  }

  /** `works`: the store completes an upload whose list it accepts. */
  function DoAssemble(w: World, thread: Id, works: bool): Outcome {
    if thread in w.calls && w.calls[thread].Checked? then
      var m := w.calls[thread].copy;
      var (reply, whole) := Assembly(w, m);
      if reply != Continue then Outcome(Leave(w, thread), reply)
      else if !works then Outcome(Leave(w, thread), StoreFailed)
      else Outcome(Enter(Closed(w).(objects := w.objects + [whole]), thread, Assembled(whole, m)), Continue)
    else Outcome(w, Continue)
  }

  /** Reads the next staged file. */
  function DoGather(w: World, thread: Id): Outcome {
    if thread in w.calls && w.calls[thread].Gathering? && |w.calls[thread].read| < w.upload.totalChunks then
      var c := w.calls[thread];
      if |c.read| !in w.files then Outcome(Leave(w, thread), StoreFailed)
      else Outcome(Enter(w, thread, Gathering(c.read + [w.files[|c.read|]], c.copy)), Continue)
    else Outcome(w, Continue)
  }

  function Flat(pieces: seq<Bytes>): Bytes {
    if pieces == [] then [] else Flat(pieces[..|pieces| - 1]) + pieces[|pieces| - 1]
  }

  /** Combines what was read and forwards it. */
  function DoForward(w: World, thread: Id, forwarding: Forwarding): Outcome {
    if thread in w.calls && w.calls[thread].Gathering? && |w.calls[thread].read| == w.upload.totalChunks then
      var c := w.calls[thread];
      var whole := Flat(c.read);
      if |whole| != w.upload.sizeBytes then Outcome(Leave(w, thread), SizeMismatch)
      else
        match forwarding
        case Kept => Outcome(Enter(w.(objects := w.objects + [whole]), thread, Forwarded(whole, c.copy)), Continue)
        case Nowhere => Outcome(Enter(w, thread, Forwarded(whole, c.copy)), Continue)
        case Refused => Outcome(Leave(w, thread), StoreFailed)
    else Outcome(w, Continue)
  }

  /** Removes the staging directory. */
  function DoRemove(w: World, thread: Id): Outcome {
    if thread in w.calls && w.calls[thread].Forwarded?
    then Outcome(Enter(Closed(w), thread, Assembled(w.calls[thread].whole, w.calls[thread].copy)), Continue)
    else Outcome(w, Continue)
  }

  function DoFinishComplete(w: World, thread: Id): Outcome {
    if thread in w.calls && w.calls[thread].Assembled?
    then Outcome(Leave(w, thread).(manifest := None), Completed(w.calls[thread].whole))
    else Outcome(w, Continue)
  }

  function DoBeginCancel(w: World, thread: Id, actor: Id): Outcome {
    var m := Lookup(w, actor);
    if m.None? then Outcome(w, NotFound) else Outcome(Enter(w, thread, Leaving(m.value)), Continue)
  }

  /** A failed abort of the multipart upload is ignored. */
  function DoAbort(w: World, thread: Id, aborts: bool): Outcome {
    if thread in w.calls && w.calls[thread].Leaving?
    then Outcome(Enter(if aborts || !w.upload.remote then Closed(w) else w, thread, Aborted(w.calls[thread].copy)), Continue)
    else Outcome(w, Continue)
  }

  function DoFinishCancel(w: World, thread: Id): Outcome {
    if thread in w.calls && w.calls[thread].Aborted? then Outcome(Leave(w, thread).(manifest := None), Cancelled)
    else Outcome(w, Continue)
  }

  /** A thread has one call at a time. */
  function Step(w: World, e: Event): Outcome {
    match e
    case BeginChunk(thread, actor, index, bytes) =>
      if thread in w.calls then Outcome(w, Continue) else DoBeginChunk(w, thread, actor, index, bytes)
    case Send(thread) => DoSend(w, thread)
    case Save(thread) => DoSave(w, thread)
    case BeginComplete(thread, actor) =>
      if thread in w.calls then Outcome(w, Continue) else DoBeginComplete(w, thread, actor)
    case Assemble(thread, works) => DoAssemble(w, thread, works)
    case Gather(thread) => DoGather(w, thread)
    case Forward(thread, forwarding) => DoForward(w, thread, forwarding)
    case Remove(thread) => DoRemove(w, thread)
    case FinishComplete(thread) => DoFinishComplete(w, thread)
    case BeginCancel(thread, actor) =>
      if thread in w.calls then Outcome(w, Continue) else DoBeginCancel(w, thread, actor)
    case Abort(thread, aborts) => DoAbort(w, thread, aborts)
    case FinishCancel(thread) => DoFinishCancel(w, thread)
    case Expire => Outcome(w.(manifest := None), Continue)
    case Crash(thread) => Outcome(Leave(w, thread), Continue)
  }

  function Run(w: World, events: seq<Event>): World
    decreases |events|
  {
    if events == [] then w else Run(Step(w, events[0]).world, events[1..])
  }

  // ---------------------------------------------------------------------
  // Every manifest anywhere stays sound

  predicate HasBlob(w: World, index: nat) { if w.upload.remote then index + 1 in w.multipart else index in w.files }

  ghost predicate SoundCopy(w: World, m: Manifest) {
    m.upload == w.upload && Sound(m) && (w.open ==> forall c :: c in m.chunks ==> HasBlob(w, c))
  }

  ghost predicate SoundCall(w: World, c: Call) {
    && SoundCopy(w, c.copy)
    && (c.Received? || c.Stored? ==> Fits(w.upload, c.index, |c.bytes|))
    && (c.Stored? && w.open ==> HasBlob(w, c.index))
    && (c.Checked? ==> w.upload.remote && CompleteCheck(c.copy) == Continue)
    && (c.Gathering? ==> !w.upload.remote && |c.copy.chunks| == w.upload.totalChunks && |c.read| <= w.upload.totalChunks)
    && (c.Forwarded? ==> !w.upload.remote)
    && (c.Forwarded? || c.Assembled? ==> |c.whole| == w.upload.sizeBytes)
  }

  ghost predicate Inv(w: World) {
    && (w.manifest.Some? ==> SoundCopy(w, w.manifest.value))
    && (forall t :: t in w.calls ==> SoundCall(w, w.calls[t]))
    && w.upload.totalChunks > 0
    && (!w.open ==> w.multipart == map[] && w.files == map[])
    && (w.upload.remote ==> |w.objects| <= 1 && (w.open ==> w.objects == []))
    && (forall i :: 0 <= i < |w.objects| ==> |w.objects[i]| == w.upload.sizeBytes)
  }

  lemma PutKeeps(w: World, index: nat, bytes: Bytes)
    requires Inv(w) && w.open
    ensures Inv(Put(w, index, bytes)) && HasBlob(Put(w, index, bytes), index)
  {
    hide Sound;
    var v := Put(w, index, bytes);
    forall t | t in v.calls ensures SoundCall(v, v.calls[t]) {
      assert SoundCall(w, w.calls[t]);
    }
  }

  lemma ClosedKeeps(w: World)
    requires Inv(w)
    ensures Inv(Closed(w))
  {
    hide Sound;
    forall t | t in w.calls ensures SoundCall(Closed(w), w.calls[t]) {
      assert SoundCall(w, w.calls[t]);
    }
  }

  lemma LeaveKeeps(w: World, thread: Id)
    requires Inv(w)
    ensures Inv(Leave(w, thread)) && Inv(w.(manifest := None)) && Inv(Leave(w, thread).(manifest := None))
  {
    hide Sound, CompleteCheck, Fits;
    forall t | t in w.calls ensures SoundCall(Leave(w, thread), w.calls[t]) && SoundCall(w.(manifest := None), w.calls[t]) {
      assert SoundCall(w, w.calls[t]);
    }
  }

  lemma EnterKeeps(w: World, thread: Id, call: Call)
    requires Inv(w) && SoundCall(w, call)
    ensures Inv(Enter(w, thread, call))
  {
    hide Sound, CompleteCheck, Fits;
    var v := Enter(w, thread, call);
    forall t | t in v.calls ensures SoundCall(v, v.calls[t]) {
      assert t != thread ==> SoundCall(w, w.calls[t]);
    }
  }

  lemma SavingKeeps(w: World, thread: Id)
    requires Inv(w)
    ensures Inv(DoSave(w, thread).world)
  {
    hide Sound, Fits, Recorded;
    LeaveKeeps(w, thread);
    if thread in w.calls && w.calls[thread].Stored? {
      var c := w.calls[thread];
      assert SoundCall(w, c);
      var v := Leave(w, thread);
      var m := Recorded(c.copy, c.index, c.bytes);
      RecordedKeeps(c.copy, c.index, c.bytes);
      RecordedLists(c.copy, c.index, c.bytes);
      assert SoundCopy(v.(manifest := Some(m)), m);
      forall t | t in v.calls ensures SoundCall(v.(manifest := Some(m)), v.calls[t]) {
        assert SoundCall(v, v.calls[t]);
      }
    }
  }

  lemma RecordedLists(m: Manifest, index: nat, bytes: Bytes)
    requires Sound(m)
    ensures var r := Recorded(m, index, bytes); r.upload == m.upload && forall i :: i in r.chunks <==> i == index || i in m.chunks
  {
    RecordedChunks(m, index, bytes);
  }

  // ---------------------------------------------------------------------
  // What is assembled

  function Blobs(w: World): map<nat, Bytes> { if w.upload.remote then w.multipart else w.files }

  function First(u: Upload): nat { if u.remote then 1 else 0 }

  lemma {:induction false} JoinedIsConcat(multipart: map<nat, Bytes>, listed: seq<Part>)
    requires forall i :: 0 <= i < |listed| ==> listed[i].partNumber == i + 1
    ensures Joined(multipart, listed) == Concat(multipart, 1, |listed|)
  {
    if listed != [] {
      JoinedIsConcat(multipart, listed[..|listed| - 1]);
    }
  }

  lemma {:induction false} JoinedLength(multipart: map<nat, Bytes>, listed: seq<Part>)
    requires forall i :: 0 <= i < |listed| ==> |Get(multipart, listed[i].partNumber)| == listed[i].size
    ensures |Joined(multipart, listed)| == Total(listed)
  {
    if listed != [] {
      var front := listed[..|listed| - 1];
      JoinedLength(multipart, front);
      TotalOfAppend(front, listed[|listed| - 1]);
      assert listed == front + [listed[|listed| - 1]];
    }
  }

  /** A part is stale when its chunk was sent again by a call whose manifest was
      overwritten or is not saved yet. */
  ghost predicate Stale(w: World, p: Part) { Get(w.multipart, p.partNumber) != p.eTag.content }

  lemma ListedIsThere(w: World, m: Manifest, p: Part)
    requires SoundCopy(w, m) && w.upload.remote && w.open && p in m.parts
    ensures p.partNumber in w.multipart && |p.eTag.content| == p.size && Fits(w.upload, p.chunkIndex, p.size)
  {
    hide Ascending, Distinct, Total, Fits;
    assert SoundPart(m.upload, p) && p.chunkIndex in m.chunks;
  }

  /** All blobs but the last are of one size. */
  predicate Uniform(blobs: map<nat, Bytes>, first: nat, n: nat) {
    forall k: nat :: first <= k < first + n - 1 ==> |Get(blobs, k)| == |Get(blobs, first)|
  }

  lemma FreshIsAccepted(w: World, listed: seq<Part>)
    requires |listed| == w.upload.totalChunks && w.upload.remote && Ascending(listed, Number) && Uniform(w.multipart, 1, |listed|)
    requires forall i :: 0 <= i < |listed| ==>
      && listed[i].partNumber == i + 1 && listed[i].partNumber in w.multipart && |listed[i].eTag.content| == listed[i].size
      && listed[i].chunkIndex == i && Fits(w.upload, i, listed[i].size) && !Stale(w, listed[i])
    ensures StoreAccepts(w.multipart, listed)
  {
    hide Ascending;
    forall i | 0 <= i < |listed|
      ensures ETag(w.multipart[listed[i].partNumber]) == listed[i].eTag
      ensures i < |listed| - 1 ==> MIN_PART_BYTES <= |w.multipart[listed[i].partNumber]| == |Get(w.multipart, listed[0].partNumber)|
    {
      assert !Stale(w, listed[i]);
      assert i < |listed| - 1 ==> |Get(w.multipart, i + 1)| == |Get(w.multipart, 1)|;
    }
  }

  lemma AcceptedIsUniform(multipart: map<nat, Bytes>, listed: seq<Part>)
    requires StoreAccepts(multipart, listed) && forall i :: 0 <= i < |listed| ==> listed[i].partNumber == i + 1
    ensures Uniform(multipart, 1, |listed|)
  {
    hide Ascending;
    forall k: nat | 1 <= k < |listed| ensures |Get(multipart, k)| == |Get(multipart, 1)| {
      assert listed[k - 1].partNumber == k && listed[0].partNumber == 1;
    }
  }

  lemma AcceptedIsFresh(w: World, listed: seq<Part>, p: Part)
    requires StoreAccepts(w.multipart, listed) && p in listed
    ensures !Stale(w, p)
  {
    hide Ascending;
    var i :| 0 <= i < |listed| && listed[i] == p;
  }

  /** The store takes a checked list exactly when no part in it is stale and all
      parts but the last are of one size; it never objects to the order or to a
      part being too small. */
  lemma RemoteListAccepted(w: World, m: Manifest)
    requires SoundCopy(w, m) && w.upload.remote && w.open && |m.parts| == w.upload.totalChunks
    ensures var listed := Sort(m.parts, Number);
      && (forall i :: 0 <= i < |listed| ==> listed[i].partNumber == i + 1) && |listed| == w.upload.totalChunks
      && (StoreAccepts(w.multipart, listed) <==>
            (forall p :: p in m.parts ==> !Stale(w, p)) && Uniform(w.multipart, 1, w.upload.totalChunks))
  {
    hide Sort, Ascending, Distinct, Total, Sound, SoundPart, Stale, StoreAccepts, Fits, Uniform;
    var listed := Sort(m.parts, Number);
    SortedParts(m);
    SortPermutes(m.parts, Number);
    NumbersDistinct(m);
    SortAscends(m.parts, Number);
    forall i | 0 <= i < |listed|
      ensures listed[i].partNumber in w.multipart && |listed[i].eTag.content| == listed[i].size && Fits(w.upload, i, listed[i].size)
    {
      ListedIsThere(w, m, listed[i]);
    }
    if (forall p :: p in m.parts ==> !Stale(w, p)) && Uniform(w.multipart, 1, w.upload.totalChunks) {
      FreshIsAccepted(w, listed);
    }
    if StoreAccepts(w.multipart, listed) {
      AcceptedIsUniform(w.multipart, listed);
      forall p | p in m.parts ensures !Stale(w, p) {
        assert p in multiset(listed);
        AcceptedIsFresh(w, listed, p);
      }
    }
  }

  /** The parts exist, numbered 1 to n; what they make is the chunks in order,
      and it has the promised length. */
  lemma RemoteAssembly(w: World, m: Manifest)
    requires SoundCopy(w, m) && w.upload.remote && w.open && CompleteCheck(m) == Continue
    ensures Assembly(w, m).0 == Continue
      <==> (forall p :: p in m.parts ==> !Stale(w, p)) && Uniform(w.multipart, 1, w.upload.totalChunks)
    ensures Assembly(w, m).0 == Continue ==>
      var n := w.upload.totalChunks;
      Assembly(w, m).1 == Concat(w.multipart, 1, n) && |Assembly(w, m).1| == w.upload.sizeBytes
  {
    hide Sort, Ascending, Distinct, Total, Joined, Concat, Uniform;
    RemoteListAccepted(w, m);
    var listed := Sort(m.parts, Number);
    JoinedIsConcat(w.multipart, listed);
    if StoreAccepts(w.multipart, listed) {
      SortedParts(m);
      forall i | 0 <= i < |listed| ensures |Get(w.multipart, listed[i].partNumber)| == listed[i].size {
      }
      JoinedLength(w.multipart, listed);
    }
  }

  lemma AllChunks(m: Manifest)
    requires Sound(m) && |m.chunks| == m.upload.totalChunks
    ensures forall i: nat :: i < m.upload.totalChunks ==> i in m.chunks
  {
    hide Distinct, Total;
    forall i | 0 <= i < |m.chunks| ensures Self(m.chunks[i]) < m.upload.totalChunks {
      assert m.chunks[i] in m.chunks;
    }
    Pigeonhole(m.chunks, Self, |m.chunks|);
    forall i: nat | i < m.upload.totalChunks ensures i in m.chunks {
      assert Self(m.chunks[i]) == i;
    }
  }

  /** While the directory is there a gathering call finds every file it asks for. */
  lemma NoFileMissing(w: World, thread: Id)
    requires Inv(w) && w.open
    ensures DoGather(w, thread).reply == Continue
  {
    hide Sound;
    if thread in w.calls && w.calls[thread].Gathering? && |w.calls[thread].read| < w.upload.totalChunks {
      var c := w.calls[thread];
      assert SoundCall(w, c);
      AllChunks(c.copy);
      assert HasBlob(w, |c.read|);
    }
  }

  /** The last-received bytes of chunks 0 to n - 1, in order. */
  function Snapshot(w: World): Bytes { Concat(Blobs(w), First(w.upload), w.upload.totalChunks) }

  /** Nothing is kept, or, for the first time, the last-received bytes in order. */
  predicate CleanStep(w: World, e: Event) {
    var t := Step(w, e).world;
    t.objects == w.objects || (w.objects == [] && t.objects == [Snapshot(w)])
  }

  /** What the multipart store makes, under any interleaving, is the last-received
      bytes of chunks 0 to n - 1 in order, of the promised length, and only once. */
  lemma AssembledIsTheFile(w: World, e: Event)
    requires Inv(w) && w.upload.remote
    ensures CleanStep(w, e)
    ensures var t := Step(w, e).world;
      t.objects != w.objects ==>
        |Snapshot(w)| == w.upload.sizeBytes && !t.open && forall i: nat :: i < w.upload.totalChunks ==> HasBlob(w, i)
  {
    hide Sound, Assembly, Concat, Recorded, CompleteCheck;
    if e.Assemble? && e.thread in w.calls && w.calls[e.thread].Checked? {
      var m := w.calls[e.thread].copy;
      assert SoundCall(w, w.calls[e.thread]);
      if w.open {
        CheckedChunks(m);
        AllChunks(m);
        RemoteAssembly(w, m);
      } else {
        ClosedAssembly(w, m);
      }
    } else if e.Forward? && e.thread in w.calls {
      assert SoundCall(w, w.calls[e.thread]);
    }
  }

  lemma CheckedChunks(m: Manifest)
    requires CompleteCheck(m) == Continue
    ensures |m.chunks| == m.upload.totalChunks
  {
  }

  lemma ClosedAssembly(w: World, m: Manifest)
    requires !w.open
    ensures Assembly(w, m).0 != Continue
  {
    hide Sort, StoreAccepts, Joined;
  }

  lemma AssembleKeeps(w: World, thread: Id, works: bool)
    requires Inv(w)
    ensures Inv(DoAssemble(w, thread, works).world)
  {
    hide Sound, Assembly, Concat, CompleteCheck;
    LeaveKeeps(w, thread);
    if thread in w.calls && w.calls[thread].Checked? {
      var m := w.calls[thread].copy;
      assert SoundCall(w, w.calls[thread]);
      AssembledIsTheFile(w, Assemble(thread, works));
      var (reply, whole) := Assembly(w, m);
      if reply == Continue && works {
        var v := Closed(w).(objects := w.objects + [whole]);
        assert Step(w, Assemble(thread, works)).world == Enter(v, thread, Assembled(whole, m));
        assert |w.objects + [whole]| == |w.objects| + 1 && whole == (w.objects + [whole])[|w.objects|];
        assert w.objects == [] && v.objects == [whole] && whole == Snapshot(w);
        forall t | t in w.calls ensures SoundCall(v, v.calls[t]) {
          assert SoundCall(w, w.calls[t]);
        }
        EnterKeeps(v, thread, Assembled(whole, m));
      }
    }
  }

  lemma GatherKeeps(w: World, thread: Id)
    requires Inv(w)
    ensures Inv(DoGather(w, thread).world)
  {
    hide Sound, CompleteCheck;
    LeaveKeeps(w, thread);
    if thread in w.calls && w.calls[thread].Gathering? && |w.calls[thread].read| < w.upload.totalChunks {
      var c := w.calls[thread];
      assert SoundCall(w, c);
      if |c.read| in w.files {
        EnterKeeps(w, thread, Gathering(c.read + [w.files[|c.read|]], c.copy));
      }
    }
  }

  lemma ForwardKeeps(w: World, thread: Id, forwarding: Forwarding)
    requires Inv(w)
    ensures Inv(DoForward(w, thread, forwarding).world)
  {
    hide Sound, CompleteCheck, Flat;
    LeaveKeeps(w, thread);
    if thread in w.calls && w.calls[thread].Gathering? && |Flat(w.calls[thread].read)| == w.upload.sizeBytes {
      var c := w.calls[thread];
      assert SoundCall(w, c);
      var whole := Flat(c.read);
      EnterKeeps(w, thread, Forwarded(whole, c.copy));
      var v := w.(objects := w.objects + [whole]);
      forall t | t in v.calls ensures SoundCall(v, v.calls[t]) {
        assert SoundCall(w, w.calls[t]);
      }
      EnterKeeps(v, thread, Forwarded(whole, c.copy));
    }
  }

  lemma RemoveKeeps(w: World, thread: Id)
    requires Inv(w)
    ensures Inv(DoRemove(w, thread).world)
  {
    hide Sound, CompleteCheck, Closed;
    if thread in w.calls && w.calls[thread].Forwarded? {
      var c := w.calls[thread];
      assert SoundCall(w, c);
      ClosedKeeps(w);
      ClosedCopies(w, c.copy);
      EnterKeeps(Closed(w), thread, Assembled(c.whole, c.copy));
    }
  }

  lemma ClosedCopies(w: World, m: Manifest)
    requires SoundCopy(w, m)
    ensures SoundCopy(Closed(w), m) && Closed(w).upload == w.upload && Closed(w).calls == w.calls
  {
  }

  lemma AbortKeeps(w: World, thread: Id, aborts: bool)
    requires Inv(w)
    ensures Inv(DoAbort(w, thread, aborts).world)
  {
    hide Sound, CompleteCheck, Closed;
    if thread in w.calls && w.calls[thread].Leaving? {
      var c := w.calls[thread];
      assert SoundCall(w, c);
      ClosedKeeps(w);
      ClosedCopies(w, c.copy);
      EnterKeeps(if aborts || !w.upload.remote then Closed(w) else w, thread, Aborted(c.copy));
    }
  }

  lemma BeginKeeps(w: World, e: Event)
    requires Inv(w) && (e.BeginChunk? || e.BeginComplete? || e.BeginCancel?)
    ensures Inv(Step(w, e).world)
  {
    hide Sound, CompleteCheck;
    match e
    case BeginChunk(thread, actor, index, bytes) =>
      if thread !in w.calls && DoBeginChunk(w, thread, actor, index, bytes).reply == Continue {
        EnterKeeps(w, thread, Received(index, bytes, w.manifest.value));
      }
    case BeginComplete(thread, actor) =>
      if thread !in w.calls && DoBeginComplete(w, thread, actor).reply == Continue {
        CheckedChunks(w.manifest.value);
        EnterKeeps(w, thread, if w.upload.remote then Checked(w.manifest.value) else Gathering([], w.manifest.value));
      }
    case BeginCancel(thread, actor) =>
      if thread !in w.calls && Lookup(w, actor).Some? {
        EnterKeeps(w, thread, Leaving(w.manifest.value));
      }
  }

  lemma SendKeeps(w: World, thread: Id)
    requires Inv(w)
    ensures Inv(DoSend(w, thread).world)
  {
    hide Sound, CompleteCheck, Put;
    LeaveKeeps(w, thread);
    if thread in w.calls && w.calls[thread].Received? && w.open {
      var c := w.calls[thread];
      PutKeeps(w, c.index, c.bytes);
      PutFrames(w, c.index, c.bytes);
      var v := Put(w, c.index, c.bytes);
      assert SoundCall(v, v.calls[thread]);
      assert SoundCall(v, Stored(c.index, c.bytes, c.copy));
      EnterKeeps(v, thread, Stored(c.index, c.bytes, c.copy));
    }
  }

  lemma PutFrames(w: World, index: nat, bytes: Bytes)
    ensures Put(w, index, bytes).calls == w.calls && Put(w, index, bytes).upload == w.upload
  {
  }

  /** Every manifest, saved or in a call's hands, stays sound through every step. */
  lemma StepKeeps(w: World, e: Event)
    requires Inv(w)
    ensures Inv(Step(w, e).world)
  {
    hide Inv, DoSend, DoSave, DoAssemble, DoGather, DoForward, DoRemove, DoAbort, DoBeginChunk, DoBeginComplete, DoBeginCancel;
    match e
    case Send(thread) => SendKeeps(w, thread);
    case Save(thread) => SavingKeeps(w, thread);
    case Assemble(thread, works) => AssembleKeeps(w, thread, works);
    case Gather(thread) => GatherKeeps(w, thread);
    case Forward(thread, forwarding) => ForwardKeeps(w, thread, forwarding);
    case Remove(thread) => RemoveKeeps(w, thread);
    case Abort(thread, aborts) => AbortKeeps(w, thread, aborts);
    case FinishComplete(thread) => LeaveKeeps(w, thread);
    case FinishCancel(thread) => LeaveKeeps(w, thread);
    case Crash(thread) => LeaveKeeps(w, thread);
    case Expire => LeaveKeeps(w, 0);
    case _ => BeginKeeps(w, e);
  }

  lemma {:induction false} RunKeeps(w: World, events: seq<Event>)
    requires Inv(w)
    ensures Inv(Run(w, events))
    decreases |events|
  {
    if events != [] {
      StepKeeps(w, events[0]);
      RunKeeps(Step(w, events[0]).world, events[1..]);
    }
  }

  lemma StartedHolds(u: Upload)
    requires u.totalChunks > 0
    ensures Inv(Started(u))
  {
  }

  /** However calls interleave, the manifest saved at any time is sound, every file
      kept has the promised length, and the multipart store makes at most one. */
  lemma AnyRun(u: Upload, events: seq<Event>)
    requires u.totalChunks > 0
    ensures var w := Run(Started(u), events);
      && (w.manifest.Some? ==> Sound(w.manifest.value))
      && (forall i :: 0 <= i < |w.objects| ==> |w.objects[i]| == w.upload.sizeBytes)
      && (w.upload.remote ==> |w.objects| <= 1)
  {
    StartedHolds(u);
    RunKeeps(Started(u), events);
  }

  // ---------------------------------------------------------------------
  // Calls one after the other

  /** The three steps of a call with nothing between them; no other call is in flight. */
  function ChunkCall(w: World, actor: Id, index: int, bytes: Bytes): Outcome {
    var begun := DoBeginChunk(w, 0, actor, index, bytes);
    if begun.reply != Continue then begun
    else
      var sent := DoSend(begun.world, 0);
      if sent.reply != Continue then sent else DoSave(sent.world, 0)
  }

  /** `n` readings, up to the first that fails. */
  function GatherAll(w: World, thread: Id, n: nat): Outcome {
    if n == 0 then Outcome(w, Continue)
    else
      var before := GatherAll(w, thread, n - 1);
      if before.reply != Continue then before else DoGather(before.world, thread)
  }

  /** Where files end up: whether a place to forward them to is configured, and
      whether it, or the multipart store, works. */
  datatype Storage = Storage(endpoint: bool, works: bool)

  function Forwards(storage: Storage): Forwarding { if !storage.endpoint then Nowhere else if storage.works then Kept else Refused }

  function StagedCall(w: World, thread: Id, storage: Storage): Outcome {
    var gathered := GatherAll(w, thread, w.upload.totalChunks);
    if gathered.reply != Continue then gathered
    else
      var sent := DoForward(gathered.world, thread, Forwards(storage));
      if sent.reply != Continue then sent else DoFinishComplete(DoRemove(sent.world, thread).world, thread)
  }

  function CompleteCall(w: World, actor: Id, storage: Storage): Outcome {
    var begun := DoBeginComplete(w, 0, actor);
    if begun.reply != Continue then begun
    else if !w.upload.remote then StagedCall(begun.world, 0, storage)
    else
      var made := DoAssemble(begun.world, 0, storage.works);
      if made.reply != Continue then made else DoFinishComplete(made.world, 0)
  }

  function CancelCall(w: World, actor: Id, aborts: bool): Outcome {
    var begun := DoBeginCancel(w, 0, actor);
    if begun.reply != Continue then begun else DoFinishCancel(DoAbort(begun.world, 0, aborts).world, 0)
  }

  datatype Chunk = Chunk(actor: Id, index: int, bytes: Bytes)

  predicate Admissible(u: Upload, c: Chunk) { c.actor == u.actor && ChunkCheck(u, c.index, |c.bytes|) == Continue }

  /** The last bytes sent for each chunk, whatever the order and the re-sends. */
  function LastReceived(u: Upload, chunks: seq<Chunk>): map<nat, Bytes> {
    if chunks == [] then map[]
    else
      var before, c := LastReceived(u, chunks[..|chunks| - 1]), chunks[|chunks| - 1];
      if Admissible(u, c) then before[c.index := c.bytes] else before
  }

  function AfterChunks(w: World, chunks: seq<Chunk>): World {
    if chunks == [] then w
    else
      var c := chunks[|chunks| - 1];
      ChunkCall(AfterChunks(w, chunks[..|chunks| - 1]), c.actor, c.index, c.bytes).world
  }

  /** Whether some place keeps a file that is completed. */
  predicate Keeps(u: Upload, storage: Storage) { u.remote || storage.endpoint }

  /** What completion should answer for what was received. */
  function Verdict(u: Upload, got: map<nat, Bytes>, actor: Id, storage: Storage): Reply {
    if actor != u.actor then NotFound
    else if exists i :: 0 <= i < u.totalChunks && i !in got then Incomplete
    else if |Concat(got, 0, u.totalChunks)| != u.sizeBytes then SizeMismatch
    else if u.remote && !Uniform(got, 0, u.totalChunks) then StoreFailed
    else if Keeps(u, storage) && !storage.works then StoreFailed
    else Completed(Concat(got, 0, u.totalChunks))
  }

  /** No call in flight, and store and manifest hold exactly what was received. */
  ghost predicate Settled(w: World, got: map<nat, Bytes>) {
    && Inv(w) && w.calls == map[] && w.open && w.manifest.Some? && w.objects == []
    && (forall i :: i in got <==> i in w.manifest.value.chunks)
    && (forall i :: i in got ==> First(w.upload) + i in Blobs(w) && Blobs(w)[First(w.upload) + i] == got[i])
    && (forall p :: p in w.manifest.value.parts ==> p.chunkIndex in got && p.eTag.content == got[p.chunkIndex])
  }

  lemma ChunkCallIs(w: World, c: Chunk)
    requires w.calls == map[] && w.manifest.Some? && w.manifest.value.upload == w.upload && w.open
    ensures var r := ChunkCall(w, c.actor, c.index, c.bytes);
      if Admissible(w.upload, c) then
        var m := Recorded(w.manifest.value, c.index, c.bytes);
        r == Outcome(Put(w, c.index, c.bytes).(manifest := Some(m)), Accepted(|m.chunks|))
      else r.world == w
  {
    hide Recorded, ChunkCheck;
    if Admissible(w.upload, c) {
      ChunkChecked(w.upload, c);
      var begun := DoBeginChunk(w, 0, c.actor, c.index, c.bytes);
      var sent := DoSend(begun.world, 0);
      assert begun.world.calls == map[0 := Received(c.index, c.bytes, w.manifest.value)];
      assert sent.world.calls == map[0 := Stored(c.index, c.bytes, w.manifest.value)];
      assert sent.world.calls - {0} == map[];
    }
  }

  lemma ChunkChecked(u: Upload, c: Chunk)
    requires Admissible(u, c)
    ensures 0 <= c.index < u.totalChunks && Fits(u, c.index, |c.bytes|)
  {
  }

  lemma ChunkCallSettles(w: World, got: map<nat, Bytes>, c: Chunk)
    requires Settled(w, got)
    ensures Settled(ChunkCall(w, c.actor, c.index, c.bytes).world,
                    if Admissible(w.upload, c) then got[c.index := c.bytes] else got)
  {
    hide Sound, Recorded, ChunkCheck, ChunkCall, WithPart;
    var m := w.manifest.value;
    ChunkCallIs(w, c);
    if Admissible(w.upload, c) {
      ChunkChecked(w.upload, c);
      RecordedKeeps(m, c.index, c.bytes);
      RecordedLists(m, c.index, c.bytes);
      PutKeeps(w, c.index, c.bytes);
      RecordedParts(m, c.index, c.bytes);
    }
  }

  lemma RecordedParts(m: Manifest, index: nat, bytes: Bytes)
    requires Sound(m)
    ensures var r := Recorded(m, index, bytes).parts;
      forall p :: p in r ==>
        (p.chunkIndex == index && p.eTag.content == bytes) || (p in m.parts && p.chunkIndex != index)
  {
    hide Sort;
    if m.upload.remote {
      WithPartMeans(m.parts, index, bytes);
    }
  }

  lemma {:induction false} ChunksSettle(u: Upload, chunks: seq<Chunk>)
    requires u.totalChunks > 0
    ensures var w := AfterChunks(Started(u), chunks); Settled(w, LastReceived(u, chunks)) && w.upload == u
  {
    hide Settled, ChunkCall, Admissible;
    if chunks == [] {
      StartedSettled(u);
    } else {
      var front, c := chunks[..|chunks| - 1], chunks[|chunks| - 1];
      ChunksSettle(u, front);
      var w := AfterChunks(Started(u), front);
      ChunkCallSettles(w, LastReceived(u, front), c);
      ChunkCallUpload(w, c);
    }
  }

  lemma StartedSettled(u: Upload)
    requires u.totalChunks > 0
    ensures Settled(Started(u), map[])
  {
    StartedHolds(u);
  }

  lemma ChunkCallUpload(w: World, c: Chunk)
    ensures ChunkCall(w, c.actor, c.index, c.bytes).world.upload == w.upload
  {
    hide Recorded, ChunkCheck;
  }

  ghost predicate Has<T>(s: seq<T>, key: T -> nat, i: nat) { exists j :: 0 <= j < |s| && key(s[j]) == i }

  lemma {:induction false} AtLeast<T>(s: seq<T>, key: T -> nat, k: nat)
    requires Ascending(s, key) && forall i: nat :: i < k ==> Has(s, key, i)
    ensures |s| >= k
  {
    if k > 0 {
      assert Has(s, key, k - 1);
      var j :| 0 <= j < |s| && key(s[j]) == k - 1;
      forall i: nat | i < k - 1 ensures Has(s[..j], key, i) {
        assert Has(s, key, i);
        var l :| 0 <= l < |s| && key(s[l]) == i;
        assert l < j;
        assert s[..j][l] == s[l];
      }
      AtLeast(s[..j], key, k - 1);
    }
  }

  lemma {:induction false} AtMost<T>(s: seq<T>, key: T -> nat, n: nat)
    requires Ascending(s, key) && forall i :: 0 <= i < |s| ==> key(s[i]) < n
    ensures |s| <= n
  {
    if s != [] {
      var front := s[..|s| - 1];
      forall i | 0 <= i < |front| ensures key(front[i]) < key(s[|s| - 1]) {
      }
      AtMost(front, key, key(s[|s| - 1]));
    }
  }

  /** All chunks are listed exactly when the lists are as long as they should be;
      the second length check of `complete` never fires. */
  lemma FullLists(m: Manifest)
    requires Sound(m)
    ensures |m.chunks| == m.upload.totalChunks <==> forall i: nat :: i < m.upload.totalChunks ==> i in m.chunks
    ensures m.upload.remote && |m.chunks| == m.upload.totalChunks ==> |m.parts| == m.upload.totalChunks
  {
    var n := m.upload.totalChunks;
    forall i | 0 <= i < |m.chunks| ensures Self(m.chunks[i]) < n {
      assert m.chunks[i] in m.chunks;
    }
    AtMost(m.chunks, Self, n);
    if |m.chunks| == n {
      AllChunks(m);
    }
    if forall i: nat :: i < n ==> i in m.chunks {
      forall i: nat | i < n ensures Has(m.chunks, Self, i) {
        assert i in m.chunks;
        var j :| 0 <= j < |m.chunks| && m.chunks[j] == i;
        assert Self(m.chunks[j]) == i;
      }
      AtLeast(m.chunks, Self, n);
      if m.upload.remote {
        FullParts(m);
      }
    }
  }

  lemma FullParts(m: Manifest)
    requires Sound(m) && m.upload.remote && forall i: nat :: i < m.upload.totalChunks ==> i in m.chunks
    ensures |m.parts| == m.upload.totalChunks
  {
    hide Total;
    var n, r := m.upload.totalChunks, Sort(m.parts, Index);
    SortAscends(m.parts, Index);
    SortPermutes(m.parts, Index);
    forall i | 0 <= i < |r| ensures Index(r[i]) < n {
      assert r[i] in multiset(r);
      assert r[i] in m.parts;
    }
    AtMost(r, Index, n);
    forall i: nat | i < n ensures Has(r, Index, i) {
      var p := m.parts[Position(m.parts, i)];
      assert p in multiset(r);
      var j :| 0 <= j < |r| && r[j] == p;
      assert Index(r[j]) == i;
    }
    AtLeast(r, Index, n);
  }

  lemma {:induction false} ConcatShifts(blobs: map<nat, Bytes>, first: nat, got: map<nat, Bytes>, n: nat)
    requires forall i: nat :: i < n ==> Get(blobs, first + i) == Get(got, i)
    ensures Concat(blobs, first, n) == Concat(got, 0, n)
  {
    if n > 0 {
      ConcatShifts(blobs, first, got, n - 1);
      assert Get(blobs, first + (n - 1)) == Get(got, n - 1);
    }
  }

  /** The running total of a full manifest is the length of what was received. */
  lemma SettledTotal(w: World, got: map<nat, Bytes>)
    requires Settled(w, got) && w.upload.remote && |w.manifest.value.parts| == w.upload.totalChunks
    ensures w.manifest.value.uploadedBytes == |Concat(w.multipart, 1, w.upload.totalChunks)|
  {
    hide Sort, Distinct, Total, Joined, Concat;
    var m := w.manifest.value;
    var listed := Sort(m.parts, Number);
    SortedParts(m);
    forall i | 0 <= i < |listed| ensures |Get(w.multipart, listed[i].partNumber)| == listed[i].size {
      assert listed[i].chunkIndex in got;
    }
    JoinedLength(w.multipart, listed);
    JoinedIsConcat(w.multipart, listed);
  }

  lemma NothingStale(w: World, got: map<nat, Bytes>, p: Part)
    requires Settled(w, got) && w.upload.remote && p in w.manifest.value.parts
    ensures !Stale(w, p)
  {
    assert SoundPart(w.upload, p);
    assert First(w.upload) + p.chunkIndex in w.multipart;
  }

  function Pieces(files: map<nat, Bytes>, n: nat): (pieces: seq<Bytes>)
    ensures |pieces| == n
  {
    seq(n, i requires 0 <= i < n => Get(files, i))
  }

  lemma {:induction false} FlatPieces(files: map<nat, Bytes>, n: nat)
    ensures Flat(Pieces(files, n)) == Concat(files, 0, n)
  {
    if n > 0 {
      FlatPieces(files, n - 1);
      assert Pieces(files, n)[..n - 1] == Pieces(files, n - 1);
    }
  }

  /** The files there, read one after the other with nothing in between. */
  lemma {:induction false} GatherAllReads(w: World, thread: Id, m: Manifest, n: nat)
    requires thread in w.calls && w.calls[thread] == Gathering([], m) && n <= w.upload.totalChunks
    requires forall i: nat :: i < n ==> i in w.files
    ensures GatherAll(w, thread, n) == Outcome(Enter(w, thread, Gathering(Pieces(w.files, n), m)), Continue)
  {
    if n == 0 {
      assert Enter(w, thread, Gathering([], m)).calls == w.calls;
    } else {
      GatherAllReads(w, thread, m, n - 1);
      var before := Enter(w, thread, Gathering(Pieces(w.files, n - 1), m));
      assert Pieces(w.files, n) == Pieces(w.files, n - 1) + [w.files[n - 1]];
      assert DoGather(before, thread).world.calls == Enter(w, thread, Gathering(Pieces(w.files, n), m)).calls;
    }
  }

  lemma {:induction false} GatherAllStops(w: World, thread: Id, m: Manifest, missing: nat, n: nat)
    requires thread in w.calls && w.calls[thread] == Gathering([], m) && missing < n <= w.upload.totalChunks
    requires missing !in w.files && forall i: nat :: i < missing ==> i in w.files
    ensures GatherAll(w, thread, n) == Outcome(Leave(w, thread), StoreFailed)
  {
    if n - 1 == missing {
      GatherAllReads(w, thread, m, missing);
      assert Enter(w, thread, Gathering(Pieces(w.files, missing), m)).calls - {thread} == w.calls - {thread};
    } else {
      GatherAllStops(w, thread, m, missing, n - 1);
    }
  }

  lemma FirstMissing(files: map<nat, Bytes>, n: nat) returns (missing: nat)
    ensures missing <= n && (missing < n ==> missing !in files) && forall i: nat :: i < missing ==> i in files
  {
    missing := 0;
    while missing < n && missing in files
      invariant missing <= n && forall i: nat :: i < missing ==> i in files
    {
      missing := missing + 1;
    }
  }

  /** What reading, forwarding and removing come to with nothing in between. */
  lemma StagedAssembly(w: World, m: Manifest, storage: Storage)
    requires !w.upload.remote && 0 in w.calls && w.calls[0] == Gathering([], m)
    ensures var n, whole := w.upload.totalChunks, Concat(w.files, 0, w.upload.totalChunks);
      StagedCall(w, 0, storage) ==
        if exists i: nat :: i < n && i !in w.files then Outcome(Leave(w, 0), StoreFailed)
        else if |whole| != w.upload.sizeBytes then Outcome(Leave(w, 0), SizeMismatch)
        else if storage.endpoint && !storage.works then Outcome(Leave(w, 0), StoreFailed)
        else Outcome(Leave(Closed(w), 0).(objects := w.objects + (if storage.endpoint then [whole] else []), manifest := None), Completed(whole))
  {
    hide Concat, Flat;
    var n := w.upload.totalChunks;
    var missing := FirstMissing(w.files, n);
    if missing < n {
      GatherAllStops(w, 0, m, missing, n);
    } else {
      GatherAllReads(w, 0, m, n);
      FlatPieces(w.files, n);
      var read := Enter(w, 0, Gathering(Pieces(w.files, n), m));
      assert read.calls - {0} == w.calls - {0};
      StagedEnd(read, w, Concat(w.files, 0, n), m, storage);
    }
  }

  lemma StagedEnd(read: World, w: World, whole: Bytes, m: Manifest, storage: Storage)
    requires 0 in read.calls && read.calls[0].Gathering? && |read.calls[0].read| == read.upload.totalChunks
    requires Flat(read.calls[0].read) == whole && read.calls[0].copy == m && read == w.(calls := read.calls) && read.calls - {0} == w.calls - {0}
    ensures var sent := DoForward(read, 0, Forwards(storage));
      if |whole| != w.upload.sizeBytes then sent == Outcome(Leave(w, 0), SizeMismatch)
      else if storage.endpoint && !storage.works then sent == Outcome(Leave(w, 0), StoreFailed)
      else
        var done := DoFinishComplete(DoRemove(sent.world, 0).world, 0);
        var kept := w.objects + if storage.endpoint then [whole] else [];
        sent.reply == Continue && done == Outcome(Leave(Closed(w), 0).(objects := kept, manifest := None), Completed(whole))
  {
    hide Flat;
    var sent := DoForward(read, 0, Forwards(storage));
    if sent.reply == Continue {
      var removed := DoRemove(sent.world, 0).world;
      assert removed.calls - {0} == read.calls - {0};
      assert w.objects + [] == w.objects;
    }
  }

  /** Settled, completion answers exactly what the received bytes deserve. */
  lemma SettledVerdict(w: World, got: map<nat, Bytes>, actor: Id, storage: Storage)
    requires Settled(w, got)
    ensures CompleteCall(w, actor, storage).reply == Verdict(w.upload, got, actor, storage)
  {
    hide Sound, Assembly, Concat, StagedCall, Uniform;
    var m, n := w.manifest.value, w.upload.totalChunks;
    if actor == w.upload.actor {
      FullLists(m);
      if |m.chunks| == n {
        forall i: nat | i < n ensures Get(Blobs(w), First(w.upload) + i) == Get(got, i) {
          assert i in m.chunks;
        }
        ConcatShifts(Blobs(w), First(w.upload), got, n);
        UniformShifts(Blobs(w), First(w.upload), got, n);
        if w.upload.remote {
          SettledTotal(w, got);
          if CompleteCheck(m) == Continue {
            SettledAssembly(w, got);
            assert Blobs(w) == w.multipart && First(w.upload) == 1;
          }
        } else {
          forall i: nat | i < n ensures i in w.files {
            assert i in m.chunks && HasBlob(w, i);
          }
          StagedAssembly(Enter(w, 0, Gathering([], m)), m, storage);
        }
      } else {
        var i: nat :| i < n && i !in m.chunks;
        assert i !in got;
      }
    }
  }

  lemma SettledAssembly(w: World, got: map<nat, Bytes>)
    requires Settled(w, got) && w.upload.remote && CompleteCheck(w.manifest.value) == Continue
    ensures var begun, n := Enter(w, 0, Checked(w.manifest.value)), w.upload.totalChunks;
      var made := Assembly(begun, w.manifest.value);
      if Uniform(w.multipart, 1, n) then made == (Continue, Concat(w.multipart, 1, n)) else made == (StoreFailed, [])
  {
    var m := w.manifest.value;
    var begun := Enter(w, 0, Checked(m));
    forall p | p in m.parts ensures !Stale(begun, p) {
      NothingStale(w, got, p);
    }
    hide Sound, Concat, Uniform, Sort, Stale, StoreAccepts, Joined;
    RemoteAssembly(begun, m);
  }

  lemma UniformShifts(blobs: map<nat, Bytes>, first: nat, got: map<nat, Bytes>, n: nat)
    requires forall i: nat :: i < n ==> Get(blobs, first + i) == Get(got, i)
    ensures Uniform(blobs, first, n) <==> Uniform(got, 0, n)
  {
    if n > 1 {
      assert Get(blobs, first + 0) == Get(got, 0);
      forall k: nat | first <= k < first + n - 1 ensures Get(blobs, k) == Get(got, k - first) {
        assert k == first + (k - first);
      }
      forall i: nat | i < n - 1 ensures Get(blobs, first + i) == Get(got, i) {
      }
    }
  }

  /** A completion that gives no file changes nothing, so it can be tried again. */
  lemma RefusedCompletion(w: World, actor: Id, storage: Storage)
    requires w.calls == map[] && (w.manifest.Some? ==> w.manifest.value.upload == w.upload)
    requires !CompleteCall(w, actor, storage).reply.Completed?
    ensures CompleteCall(w, actor, storage).world == w
  {
    hide Assembly, StagedCall, Concat;
    var begun := DoBeginComplete(w, 0, actor);
    if begun.reply == Continue {
      assert begun.world.calls - {0} == map[];
      if !w.upload.remote {
        StagedAssembly(begun.world, w.manifest.value, storage);
      }
    }
  }

  /** For every sequence of chunk calls, in any order and with any re-sends and
      refusals: completion succeeds if and only if every chunk was received, the
      last-received bytes add up to the promised size, the multipart store finds
      the parts of one size, and the place for the file, if there is one, takes it;
      the file is then those bytes in chunk order. */
  lemma CompletionIsExact(u: Upload, chunks: seq<Chunk>, actor: Id, storage: Storage)
    requires u.totalChunks > 0
    ensures CompleteCall(AfterChunks(Started(u), chunks), actor, storage).reply == Verdict(u, LastReceived(u, chunks), actor, storage)
  {
    hide CompleteCall, Verdict, Settled;
    ChunksSettle(u, chunks);
    SettledVerdict(AfterChunks(Started(u), chunks), LastReceived(u, chunks), actor, storage);
  }

  /** After a successful completion the bytes are kept if and only if the upload was
      multipart or a place to forward to is configured; nothing else is left of them. */
  lemma CompletedIsKept(u: Upload, chunks: seq<Chunk>, actor: Id, storage: Storage)
    requires u.totalChunks > 0
    requires CompleteCall(AfterChunks(Started(u), chunks), actor, storage).reply.Completed?
    ensures var r := CompleteCall(AfterChunks(Started(u), chunks), actor, storage);
      && r.world.objects == (if Keeps(u, storage) then [r.reply.whole] else [])
      && r.world.files == map[] && r.world.multipart == map[] && !r.world.open && r.world.manifest.None?
  {
    hide Settled, CompleteCall;
    ChunksSettle(u, chunks);
    var w := AfterChunks(Started(u), chunks);
    NothingKeptYet(w, LastReceived(u, chunks));
    CompletionEnds(w, actor, storage);
  }

  lemma CompletionEnds(w: World, actor: Id, storage: Storage)
    requires w.objects == [] && (w.manifest.Some? ==> w.manifest.value.upload == w.upload)
    requires CompleteCall(w, actor, storage).reply.Completed?
    ensures var r := CompleteCall(w, actor, storage);
      && r.world.objects == (if Keeps(w.upload, storage) then [r.reply.whole] else [])
      && r.world.files == map[] && r.world.multipart == map[] && !r.world.open && r.world.manifest.None?
  {
    hide Sort, StoreAccepts, Joined, StagedCall, Concat;
    var begun := DoBeginComplete(w, 0, actor).world;
    if w.upload.remote {
      var whole := Assembly(begun, w.manifest.value).1;
      assert w.objects + [whole] == [whole];
    } else {
      StagedAssembly(begun, w.manifest.value, storage);
    }
  }

  lemma NothingKeptYet(w: World, got: map<nat, Bytes>)
    requires Settled(w, got)
    ensures w.objects == [] && w.manifest.Some? && w.manifest.value.upload == w.upload
  {
    hide Sound;
  }

  /** Without such a place a completed upload is gone. */
  lemma NowhereToKeep()
    ensures var u := Upload(0, 1, 1, false);
      var r := CompleteCall(AfterChunks(Started(u), [Chunk(0, 0, [7])]), 0, Storage(false, true));
      r.reply == Completed([7]) && r.world.objects == [] && r.world.files == map[] && r.world.manifest.None?
  {
    hide CompleteCall, AfterChunks;
    var u, storage := Upload(0, 1, 1, false), Storage(false, true);
    var chunks := [Chunk(0, 0, [7])];
    assert chunks[..0] == [];
    assert LastReceived(u, chunks) == map[0 := [7]];
    assert Concat(map[0 := [7]], 0, 1) == [7];
    CompletionIsExact(u, chunks, 0, storage);
    CompletedIsKept(u, chunks, 0, storage);
  }

  /** Three parts of which the first two differ in size: every call accepts them, they
      add up, and the multipart store refuses to join them. */
  lemma UnevenPartsAreRefused(a: Bytes, b: Bytes, c: Bytes, storage: Storage)
    requires MIN_PART_BYTES <= |a| <= MAX_CHUNK_BYTES && MIN_PART_BYTES <= |b| <= MAX_CHUNK_BYTES && |c| <= MAX_CHUNK_BYTES
    requires |a| != |b|
    ensures var u := Upload(0, |a| + |b| + |c|, 3, true);
      CompleteCall(AfterChunks(Started(u), [Chunk(0, 0, a), Chunk(0, 1, b), Chunk(0, 2, c)]), 0, storage).reply == StoreFailed
  {
    hide CompleteCall, AfterChunks;
    var u := Upload(0, |a| + |b| + |c|, 3, true);
    var chunks := [Chunk(0, 0, a), Chunk(0, 1, b), Chunk(0, 2, c)];
    ThreeReceived(u, a, b, c);
    CompletionIsExact(u, chunks, 0, storage);
    var got := map[0 := a, 1 := b, 2 := c];
    assert Get(got, 0) == a && Get(got, 1) == b;
    ThreeJoined(got);
  }

  lemma ThreeReceived(u: Upload, a: Bytes, b: Bytes, c: Bytes)
    requires u.actor == 0 && u.totalChunks == 3
    requires forall i, x :: (i, x) in [(0, a), (1, b), (2, c)] ==> ChunkCheck(u, i, |x|) == Continue
    ensures LastReceived(u, [Chunk(0, 0, a), Chunk(0, 1, b), Chunk(0, 2, c)]) == map[0 := a, 1 := b, 2 := c]
  {
    var chunks := [Chunk(0, 0, a), Chunk(0, 1, b), Chunk(0, 2, c)];
    hide ChunkCheck;
    assert (0, a) in [(0, a), (1, b), (2, c)] && (1, b) in [(0, a), (1, b), (2, c)] && (2, c) in [(0, a), (1, b), (2, c)];
    assert chunks[..2] == [Chunk(0, 0, a), Chunk(0, 1, b)] && chunks[..2][..1] == [Chunk(0, 0, a)] && chunks[..1][..0] == [];
    assert LastReceived(u, [Chunk(0, 0, a)]) == map[0 := a];
    assert LastReceived(u, [Chunk(0, 0, a), Chunk(0, 1, b)]) == map[0 := a, 1 := b];
  }

  lemma ThreeJoined(got: map<nat, Bytes>)
    ensures |Concat(got, 0, 3)| == |Get(got, 0)| + |Get(got, 1)| + |Get(got, 2)|
  {
    assert Concat(got, 0, 1) == Get(got, 0);
    assert Concat(got, 0, 2) == Concat(got, 0, 1) + Get(got, 1);
  }
}
