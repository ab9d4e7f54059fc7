/** The upload calls as the service makes them, each on its own working copy of the
    manifest that is changed in place and saved whole
    (src/uploads/uploads.service.ts:43-153). Each method is one uninterrupted call;
    its result is that of the steps it is made of. */
module UploadsService {
  import opened Text
  import opened Uploads

  /** The manifest a call parsed from Redis and works on. */
  class WorkingManifest {
    const upload: Upload
    var chunks: seq<nat>
    var parts: seq<Part>
    var uploadedBytes: int

    constructor (m: Manifest)
      ensures Value() == m
    {
      upload, chunks, parts, uploadedBytes := m.upload, m.chunks, m.parts, m.uploadedBytes;
    }

    function Value(): Manifest
      reads this
    {
      Manifest(upload, chunks, parts, uploadedBytes)
    }

    method FindPart(index: nat) returns (at: nat)
      ensures at == Position(parts, index)
    {
      at := 0;
      while at < |parts| && parts[at].chunkIndex != index
        invariant at <= |parts|
        invariant forall k :: 0 <= k < at ==> parts[k].chunkIndex != index
      {
        at := at + 1;
      }
    }

    method Receive(index: nat, bytes: Bytes)
      modifies this
      ensures Value() == Recorded(old(Value()), index, bytes)
    {
      if upload.remote {
        var at := FindPart(index);
        if at < |parts| {
          uploadedBytes := uploadedBytes - parts[at].size;
          parts := parts[at := parts[at].(eTag := ETag(bytes), size := |bytes|)];
        } else {
          parts := parts + [Part(index, index + 1, ETag(bytes), |bytes|)];
        }
        uploadedBytes := uploadedBytes + |bytes|;
      }
      if index !in chunks {
        chunks := chunks + [index];
      }
      chunks := Sort(chunks, Self);
    }
  }

  /** The parts of `ChunkCall` seen from outside, with no other call in flight. */
  lemma ChunkCallCases(w: World, actor: Id, index: int, bytes: Bytes)
    requires w.calls == map[] && (w.manifest.Some? ==> w.manifest.value.upload == w.upload)
    ensures ChunkCall(w, actor, index, bytes) ==
      if Lookup(w, actor).None? then Outcome(w, NotFound)
      else if ChunkCheck(w.upload, index, |bytes|) != Continue then Outcome(w, ChunkCheck(w.upload, index, |bytes|))
      else if !w.open then Outcome(w, StoreFailed)
      else
        var m := Recorded(w.manifest.value, index, bytes);
        Outcome(Put(w, index, bytes).(manifest := Some(m)), Accepted(|m.chunks|))
  {
    hide Recorded;
    if Lookup(w, actor).Some? && ChunkCheck(w.upload, index, |bytes|) == Continue {
      var begun := DoBeginChunk(w, 0, actor, index, bytes).world;
      assert begun.calls - {0} == map[];
      assert begun.calls[0 := Stored(index, bytes, w.manifest.value)] - {0} == map[];
    }
  }

  lemma CompleteCallCases(w: World, actor: Id, storage: Storage)
    requires w.calls == map[] && (w.manifest.Some? ==> w.manifest.value.upload == w.upload)
    ensures CompleteCall(w, actor, storage) ==
      if Lookup(w, actor).None? then Outcome(w, NotFound)
      else if CompleteCheck(w.manifest.value) != Continue then Outcome(w, CompleteCheck(w.manifest.value))
      else
        var n := w.upload.totalChunks;
        var whole := if w.upload.remote then Assembly(w, w.manifest.value).1 else Concat(w.files, 0, n);
        if w.upload.remote && Assembly(w, w.manifest.value).0 != Continue then Outcome(w, StoreFailed)
        else if !w.upload.remote && exists i: nat :: i < n && i !in w.files then Outcome(w, StoreFailed)
        else if !w.upload.remote && |whole| != w.upload.sizeBytes then Outcome(w, SizeMismatch)
        else if Keeps(w.upload, storage) && !storage.works then Outcome(w, StoreFailed)
        else
          var kept := w.objects + if Keeps(w.upload, storage) then [whole] else [];
          Outcome(Closed(w).(objects := kept, manifest := None), Completed(whole))
  {
    hide Sort, StoreAccepts, Joined, Concat, StagedCall;
    if Lookup(w, actor).Some? && CompleteCheck(w.manifest.value) == Continue {
      var m := w.manifest.value;
      var begun := DoBeginComplete(w, 0, actor).world;
      assert begun.calls - {0} == map[];
      if w.upload.remote {
        assert Assembly(begun, m) == Assembly(w, m);
        assert begun.calls[0 := Assembled(Assembly(w, m).1, m)] - {0} == map[];
      } else {
        StagedAssembly(begun, m, storage);
      }
    }
  }

  lemma CancelCallCases(w: World, actor: Id, aborts: bool)
    requires w.calls == map[]
    ensures CancelCall(w, actor, aborts) ==
      if Lookup(w, actor).None? then Outcome(w, NotFound)
      else Outcome((if aborts || !w.upload.remote then Closed(w) else w).(manifest := None), Cancelled)
  {
    if Lookup(w, actor).Some? {
      assert w.calls[0 := Leaving(w.manifest.value)][0 := Aborted(w.manifest.value)] - {0} == map[];
    }
  }

  /** One upload id: its manifest in Redis, the multipart upload or the staging directory. */
  class UploadsService {
    const upload: Upload
    var manifest: Option<Manifest>
    var multipart: map<nat, Bytes>
    var files: map<nat, Bytes>
    var open: bool
    var objects: seq<Bytes>

    constructor (u: Upload)
      ensures Valid() && View() == Started(u)
    {
      upload := u;
      manifest := Some(EmptyManifest(u));
      multipart, files, open, objects := map[], map[], true, [];
    }

    predicate Valid()
      reads this
    {
      manifest.Some? ==> manifest.value.upload == upload
    }

    function View(): World
      reads this
    {
      World(upload, manifest, multipart, files, open, objects, map[])
    }

    /** `begins`: the multipart store is configured in full and begins an upload. */
    static method Init(u: Upload, maxBytes: nat, begins: bool) returns (service: UploadsService?)
      ensures service == null <==> u.sizeBytes > maxBytes || (u.remote && !begins)
      ensures service != null ==> fresh(service) && service.Valid() && service.View() == Started(u)
    {
      if u.sizeBytes > maxBytes {
        return null;
      }
      if u.remote && !begins {
        return null;
      }
      service := new UploadsService(u);
    }

    method Chunk(actor: Id, index: int, bytes: Bytes) returns (reply: Reply)
      requires Valid()
      modifies this
      ensures Valid() && Outcome(View(), reply) == ChunkCall(old(View()), actor, index, bytes)
    {
      ChunkCallCases(View(), actor, index, bytes);
      if manifest.None? || manifest.value.upload.actor != actor {
        return NotFound;
      }
      var working := new WorkingManifest(manifest.value);
      if index < 0 || index >= upload.totalChunks {
        return BadIndex;
      }
      if |bytes| > MAX_CHUNK_BYTES {
        return TooLarge;
      }
      if upload.remote {
        if index != upload.totalChunks - 1 && |bytes| < MIN_PART_BYTES {
          return TooSmall;
        }
        if !open {
          return StoreFailed;
        }
        multipart := multipart[index + 1 := bytes];
      } else {
        if !open {
          return StoreFailed;
        }
        files := files[index := bytes];
      }
      working.Receive(index, bytes);
      manifest := Some(working.Value());
      return Accepted(|working.chunks|);
    }

    /** Joins the parts in the multipart store, or gathers the staged files, forwards
        them if there is a place for them, and removes the directory. */
    method Complete(actor: Id, storage: Storage) returns (reply: Reply)
      requires Valid()
      modifies this
      ensures Valid() && Outcome(View(), reply) == CompleteCall(old(View()), actor, storage)
    {
      hide Sort, StoreAccepts, Joined, CompleteCall;
      CompleteCallCases(View(), actor, storage);
      if manifest.None? || manifest.value.upload.actor != actor {
        return NotFound;
      }
      var m := manifest.value;
      if |m.chunks| != upload.totalChunks {
        return Incomplete;
      }
      if upload.remote {
        if |m.parts| != upload.totalChunks {
          return Incomplete;
        }
        if m.uploadedBytes != upload.sizeBytes {
          return SizeMismatch;
        }
        var listed := Sort(m.parts, Number);
        if !open || !StoreAccepts(multipart, listed) || !storage.works {
          return StoreFailed;
        }
        var whole := Joined(multipart, listed);
        objects := objects + [whole];
        open, multipart, files := false, map[], map[];
        manifest := None;
        return Completed(whole);
      }
      var combined: Bytes := [];
      var index: nat := 0;
      while index < upload.totalChunks
        invariant index <= upload.totalChunks
        invariant forall i: nat :: i < index ==> i in files
        invariant combined == Concat(files, 0, index)
      {
        if index !in files {
          return StoreFailed;
        }
        combined := combined + files[index];
        index := index + 1;
      }
      if |combined| != upload.sizeBytes {
        return SizeMismatch;
      }
      var kept: seq<Bytes> := [];
      if storage.endpoint {
        if !storage.works {
          return StoreFailed;
        }
        kept := [combined];
      }
      objects := objects + kept;
      open, multipart, files := false, map[], map[];
      manifest := None;
      return Completed(combined);
    }

    method Cancel(actor: Id, aborts: bool) returns (reply: Reply)
      requires Valid()
      modifies this
      ensures Valid() && Outcome(View(), reply) == CancelCall(old(View()), actor, aborts)
    {
      CancelCallCases(View(), actor, aborts);
      if manifest.None? || manifest.value.upload.actor != actor {
        return NotFound;
      }
      if aborts || !upload.remote {
        open, multipart, files := false, map[], map[];
      }
      manifest := None;
      return Cancelled;
    }
  }
}
