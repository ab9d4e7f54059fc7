/** Upload calls that overlap (src/uploads/uploads.service.ts:68-153). The multipart
    store joins its parts in one step. A staged completion reads the files one by one,
    forwards what it read and only then removes the directory, so that other calls
    can come in between. */
module UploadOverlaps {
  import opened Text
  import opened Uploads

  // ---------------------------------------------------------------------
  // Calls in flight together with a completion

  predicate Completing(c: Call) { c.Checked? || c.Gathering? || c.Forwarded? || c.Assembled? }

  predicate Chunking(c: Call) { c.Received? || c.Stored? }

  predicate Cancelling(c: Call) { c.Leaving? || c.Aborted? }

  predicate AnyCompleting(w: World) { exists t :: t in w.calls && Completing(w.calls[t]) }

  predicate AnyChunking(w: World) { exists t :: t in w.calls && Chunking(w.calls[t]) }

  predicate AnyCancelling(w: World) { exists t :: t in w.calls && Cancelling(w.calls[t]) }

  /** A completion broke off after its file was kept and before the directory was removed. */
  predicate BrokenOff(w: World) { w.open && w.objects != [] && !AnyCompleting(w) }

  /** Which calls callers let overlap a completion, and whether they complete again
      after one that broke off. */
  datatype Discipline = Discipline(completions: bool, chunks: bool, cancels: bool, repeats: bool)

  const ALONE := Discipline(false, false, false, false)

  /** What can be asked before a call begins; steps of calls under way are never held up. */
  predicate Allows(d: Discipline, w: World, e: Event) {
    match e
    case BeginComplete(_, _) =>
      && (AnyCompleting(w) ==> d.completions) && (AnyChunking(w) ==> d.chunks)
      && (AnyCancelling(w) ==> d.cancels) && (BrokenOff(w) ==> d.repeats)
    case BeginChunk(_, _, _, _) => AnyCompleting(w) ==> d.chunks
    case BeginCancel(_, _) => AnyCompleting(w) ==> d.cancels
    case _ => true
  }

  predicate Obeys(d: Discipline, w: World, events: seq<Event>)
    decreases |events|
  {
    events != [] ==> Allows(d, w, events[0]) && Obeys(d, Step(w, events[0]).world, events[1..])
  }

  /** At most one file is kept, and it is the last-received bytes in order. */
  predicate Clean(w: World, events: seq<Event>)
    decreases |events|
  {
    events != [] ==> CleanStep(w, events[0]) && Clean(Step(w, events[0]).world, events[1..])
  }

  lemma {:induction false} CleanOnce(w: World, events: seq<Event>)
    requires Clean(w, events) && |w.objects| <= 1
    ensures |Run(w, events).objects| <= 1
    decreases |events|
  {
    hide Step, Snapshot;
    if events != [] {
      CleanOnce(Step(w, events[0]).world, events[1..]);
    }
  }

  lemma {:induction false} RunConcat(w: World, a: seq<Event>, b: seq<Event>)
    ensures Run(w, a + b) == Run(Run(w, a), b)
    decreases |a|
  {
    hide Step;
    if a == [] {
      assert a + b == b;
    } else {
      assert (a + b)[1..] == a[1..] + b;
      RunConcat(Step(w, a[0]).world, a[1..], b);
    }
  }

  lemma {:induction false} ObeysConcat(d: Discipline, w: World, a: seq<Event>, b: seq<Event>)
    ensures Obeys(d, w, a + b) <==> Obeys(d, w, a) && Obeys(d, Run(w, a), b)
    decreases |a|
  {
    hide Step, Allows;
    if a == [] {
      assert a + b == b;
    } else {
      assert (a + b)[1..] == a[1..] + b;
      ObeysConcat(d, Step(w, a[0]).world, a[1..], b);
    }
  }

  lemma {:induction false} CleanConcat(w: World, a: seq<Event>, b: seq<Event>)
    ensures Clean(w, a + b) <==> Clean(w, a) && Clean(Run(w, a), b)
    decreases |a|
  {
    hide Step, CleanStep;
    if a == [] {
      assert a + b == b;
    } else {
      assert (a + b)[1..] == a[1..] + b;
      CleanConcat(Step(w, a[0]).world, a[1..], b);
    }
  }

  lemma OneEvent(d: Discipline, w: World, e: Event)
    ensures Run(w, [e]) == Step(w, e).world && (Obeys(d, w, [e]) <==> Allows(d, w, e)) && (Clean(w, [e]) <==> CleanStep(w, e))
  {
    hide Step, CleanStep, Allows;
    assert [e][1..] == [];
  }

  // ---------------------------------------------------------------------
  // A completion with nothing beside it

  /** A completion in flight is the only call, and what it has read is still there. */
  ghost predicate Lone(w: World) {
    && (forall s, t :: s in w.calls && t in w.calls && Completing(w.calls[t]) ==> s == t)
    && (forall t :: t in w.calls && w.calls[t].Gathering? ==>
          var read := w.calls[t].read;
          && (w.open ==> w.objects == [])
          && (read != [] ==> w.open && forall i :: 0 <= i < |read| ==> i in w.files && w.files[i] == read[i]))
  }

  /** A step that changes the calls of one thread alone. */
  ghost predicate OneThread(w: World, t: World, thread: Id) {
    forall s :: s != thread ==> (s in t.calls <==> s in w.calls) && (s in t.calls ==> t.calls[s] == w.calls[s])
  }

  lemma StaysNone(w: World, t: World, thread: Id)
    requires !AnyCompleting(w) && OneThread(w, t, thread) && (thread in t.calls ==> !Completing(t.calls[thread]))
    ensures Lone(t)
  {
    forall s | s in t.calls ensures !Completing(t.calls[s]) {
      assert s != thread ==> !Completing(w.calls[s]);
    }
  }

  /** The thread of a completion goes on, or ends. */
  lemma GoesOn(w: World, t: World, thread: Id)
    requires Lone(w) && thread in w.calls && Completing(w.calls[thread]) && OneThread(w, t, thread)
    requires thread in t.calls && t.calls[thread].Gathering? ==>
      var read := t.calls[thread].read;
      && (t.open ==> t.objects == [])
      && (read != [] ==> t.open && forall i :: 0 <= i < |read| ==> i in t.files && t.files[i] == read[i])
    ensures Lone(t)
  {
    forall s | s in t.calls ensures s == thread {
      assert s != thread ==> s in w.calls;
    }
  }

  lemma EachIsSomeKind(w: World)
    ensures w.calls == map[] || AnyCompleting(w) || AnyChunking(w) || AnyCancelling(w)
  {
    if t :| t in w.calls {
      var c := w.calls[t];
      assert Completing(c) || Chunking(c) || Cancelling(c);
    }
  }

  lemma BeginsAlone(w: World, e: Event)
    requires Lone(w) && Allows(ALONE, w, e) && (e.BeginChunk? || e.BeginComplete? || e.BeginCancel?)
    ensures Lone(Step(w, e).world) && CleanStep(w, e)
  {
    hide ChunkCheck, CompleteCheck, Snapshot;
    var t := Step(w, e).world;
    if e.BeginComplete? {
      EachIsSomeKind(w);
      assert w.open ==> w.objects == [];
    } else {
      StaysNone(w, t, e.thread);
    }
  }

  lemma ChunkAlone(w: World, e: Event)
    requires Lone(w) && (e.Send? || e.Save? || e.Abort? || e.FinishCancel?)
    ensures Lone(Step(w, e).world) && CleanStep(w, e)
  {
    hide Recorded, Snapshot;
    var t := Step(w, e).world;
    if e.thread in w.calls && !Completing(w.calls[e.thread]) {
      assert !AnyCompleting(w) by {
        forall s | s in w.calls ensures !Completing(w.calls[s]) {
        }
      }
      StaysNone(w, t, e.thread);
    } else {
      assert t == w;
    }
  }

  lemma GathersAlone(w: World, e: Event)
    requires Lone(w) && Inv(w) && (e.Gather? || e.Remove? || e.FinishComplete? || e.Crash? || e.Expire? || e.Assemble?) && !w.upload.remote
    ensures Lone(Step(w, e).world) && CleanStep(w, e)
  {
    hide Snapshot, Assembly, Sound, CompleteCheck;
    var t := Step(w, e).world;
    if e.Expire? {
    } else if e.thread in w.calls && Completing(w.calls[e.thread]) {
      assert SoundCall(w, w.calls[e.thread]);
      if e.Gather? && w.calls[e.thread].Gathering? && |w.calls[e.thread].read| < w.upload.totalChunks {
        var k := |w.calls[e.thread].read|;
        if k in w.files {
          assert w.open;
          var read := t.calls[e.thread].read;
          assert forall i :: 0 <= i < k ==> read[i] == w.calls[e.thread].read[i];
        }
      }
      GoesOn(w, t, e.thread);
    } else if e.Crash? {
      CrashAlone(w, e.thread);
    }
  }

  lemma CrashAlone(w: World, thread: Id)
    requires Lone(w)
    ensures Lone(Leave(w, thread))
  {
  }

  lemma ForwardsAlone(w: World, thread: Id, forwarding: Forwarding)
    requires Lone(w) && Inv(w) && !w.upload.remote
    ensures Lone(Step(w, Forward(thread, forwarding)).world) && CleanStep(w, Forward(thread, forwarding))
  {
    hide Sound, Concat, Flat;
    if thread in w.calls && w.calls[thread].Gathering? && |w.calls[thread].read| == w.upload.totalChunks {
      var t := Step(w, Forward(thread, forwarding)).world;
      var read := w.calls[thread].read;
      assert read == Pieces(w.files, w.upload.totalChunks);
      FlatPieces(w.files, w.upload.totalChunks);
      assert [] + [Flat(read)] == [Flat(read)];
      GoesOn(w, t, thread);
    }
  }

  lemma StepAlone(w: World, e: Event)
    requires Lone(w) && Inv(w) && !w.upload.remote && Allows(ALONE, w, e)
    ensures Lone(Step(w, e).world) && CleanStep(w, e)
  {
    hide Lone, Inv, Allows, CleanStep, Step;
    match e
    case BeginChunk(_, _, _, _) => BeginsAlone(w, e);
    case BeginComplete(_, _) => BeginsAlone(w, e);
    case BeginCancel(_, _) => BeginsAlone(w, e);
    case Send(_) => ChunkAlone(w, e);
    case Save(_) => ChunkAlone(w, e);
    case Abort(_, _) => ChunkAlone(w, e);
    case FinishCancel(_) => ChunkAlone(w, e);
    case Forward(thread, forwarding) => ForwardsAlone(w, thread, forwarding);
    case _ => GathersAlone(w, e);
  }

  lemma UploadStays(w: World, e: Event)
    ensures Step(w, e).world.upload == w.upload
  {
    hide Recorded, ChunkCheck, CompleteCheck, Assembly, Flat;
  }

  lemma {:induction false} RunAlone(w: World, events: seq<Event>)
    requires Inv(w) && (w.upload.remote || (Lone(w) && Obeys(ALONE, w, events)))
    ensures Clean(w, events)
    decreases |events|
  {
    hide Inv, Lone, Allows, CleanStep, Step;
    if events != [] {
      StepKeeps(w, events[0]);
      UploadStays(w, events[0]);
      if w.upload.remote {
        AssembledIsTheFile(w, events[0]);
      } else {
        StepAlone(w, events[0]);
      }
      RunAlone(Step(w, events[0]).world, events[1..]);
    }
  }

  /** In every run of a multipart upload, and in every run of a staged one in which
      no call overlaps a completion and none is repeated after it broke off, at most
      one file is kept, and it is the last-received bytes in order. */
  lemma AloneIsClean(u: Upload, events: seq<Event>)
    requires u.totalChunks > 0 && (u.remote || Obeys(ALONE, Started(u), events))
    ensures Clean(Started(u), events) && |Run(Started(u), events).objects| <= 1
  {
    StartedHolds(u);
    RunAlone(Started(u), events);
    CleanOnce(Started(u), events);
  }

  // ---------------------------------------------------------------------
  // What goes wrong otherwise

  /** Everything was received, and nothing is in flight. */
  ghost predicate Complete(w: World) {
    && w.calls == map[] && w.open && !w.upload.remote && w.upload.totalChunks > 0 && w.upload.sizeBytes > 0
    && w.manifest.Some? && w.manifest.value.upload == w.upload && |w.manifest.value.chunks| == w.upload.totalChunks
    && (forall i: nat :: i < w.upload.totalChunks ==> i in w.files)
    && |Concat(w.files, 0, w.upload.totalChunks)| == w.upload.sizeBytes
  }

  function Gathers(thread: Id, n: nat): seq<Event> { seq(n, _ => Gather(thread)) }

  lemma {:induction false} GathersRun(d: Discipline, w: World, thread: Id, n: nat)
    ensures Obeys(d, w, Gathers(thread, n))
    ensures GatherAll(w, thread, n).reply == Continue ==> Run(w, Gathers(thread, n)) == GatherAll(w, thread, n).world
  {
    if n > 0 {
      GathersRun(d, w, thread, n - 1);
      assert Gathers(thread, n) == Gathers(thread, n - 1) + [Gather(thread)];
      hide Obeys, Run, Gathers;
      RunConcat(w, Gathers(thread, n - 1), [Gather(thread)]);
      ObeysConcat(d, w, Gathers(thread, n - 1), [Gather(thread)]);
      OneEvent(d, Run(w, Gathers(thread, n - 1)), Gather(thread));
    }
  }

  /** Begins a completion and reads every file. */
  function Reading(u: Upload, thread: Id): seq<Event> { [BeginComplete(thread, u.actor)] + Gathers(thread, u.totalChunks) }

  /** The completion that has read what is there. */
  function ReadAll(w: World): Call
    requires w.manifest.Some?
  {
    Gathering(Pieces(w.files, w.upload.totalChunks), w.manifest.value)
  }

  lemma ReadingRun(d: Discipline, w: World, thread: Id)
    requires Complete(w.(calls := map[])) && thread !in w.calls
    ensures Run(w, Reading(w.upload, thread)) == Enter(w, thread, ReadAll(w))
    ensures Obeys(d, w, Reading(w.upload, thread)) <==> Allows(d, w, BeginComplete(thread, w.upload.actor))
  {
    var begin, m := BeginComplete(thread, w.upload.actor), w.manifest.value;
    var begun := Step(w, begin).world;
    assert begun == Enter(w, thread, Gathering([], m));
    hide Concat, Obeys, Run, Gathers, Step, Allows;
    OneEvent(d, w, begin);
    GatherAllReads(begun, thread, m, w.upload.totalChunks);
    GathersRun(d, begun, thread, w.upload.totalChunks);
    RunConcat(w, [begin], Gathers(thread, w.upload.totalChunks));
    ObeysConcat(d, w, [begin], Gathers(thread, w.upload.totalChunks));
    assert Enter(begun, thread, ReadAll(w)).calls == Enter(w, thread, ReadAll(w)).calls;
  }

  function Whole(w: World): Bytes { Concat(w.files, 0, w.upload.totalChunks) }

  lemma ForwardKeepsFile(w: World, thread: Id, files: map<nat, Bytes>)
    requires thread in w.calls && w.calls[thread].Gathering? && w.calls[thread].read == Pieces(files, w.upload.totalChunks)
    requires |Concat(files, 0, w.upload.totalChunks)| == w.upload.sizeBytes
    ensures var whole := Concat(files, 0, w.upload.totalChunks);
      Step(w, Forward(thread, Kept)).world
      == Enter(w.(objects := w.objects + [whole]), thread, Forwarded(whole, w.calls[thread].copy))
  {
    hide Concat, Flat;
    FlatPieces(files, w.upload.totalChunks);
  }

  /** Two completions, both begun before the first removes the directory. */
  function TwoCompletions(u: Upload): seq<Event> {
    Reading(u, 1) + Reading(u, 2) + [Forward(1, Kept)] + [Forward(2, Kept)]
  }

  /** They forward the file twice. */
  lemma TwoAreKept(d: Discipline, w: World)
    requires Complete(w) && w.objects == []
    ensures d.completions ==> Obeys(d, w, TwoCompletions(w.upload))
    ensures Run(w, TwoCompletions(w.upload)).objects == [Whole(w), Whole(w)] && !Clean(w, TwoCompletions(w.upload))
  {
    hide Concat, Obeys, Clean, Run, Reading, Step, Allows;
    var u := w.upload;
    var a := Enter(w, 1, ReadAll(w));
    var b := Enter(a, 2, ReadAll(w));
    ReadingRun(d, w, 1);
    ReadingRun(d, a, 2);
    BeginAllowed(d, w, a);
    RunConcat(w, Reading(u, 1), Reading(u, 2));
    ObeysConcat(d, w, Reading(u, 1), Reading(u, 2));
    assert b.calls[1] == ReadAll(w);
    ForwardKeepsFile(b, 1, w.files);
    var c := Step(b, Forward(1, Kept)).world;
    assert c.calls[2] == ReadAll(w);
    ForwardKeepsFile(c, 2, w.files);
    hide Complete, ReadAll;
    assert w.objects + [Whole(w)] + [Whole(w)] == [Whole(w), Whole(w)];
    StepsAllowed(d);
    Appended(d, w, Reading(u, 1) + Reading(u, 2), Forward(1, Kept));
    Appended(d, w, Reading(u, 1) + Reading(u, 2) + [Forward(1, Kept)], Forward(2, Kept));
  }

  lemma StepsAllowed(d: Discipline)
    ensures forall w, t: Id :: Allows(d, w, Crash(t)) && Allows(d, w, Send(t)) && Allows(d, w, Forward(t, Kept)) && Allows(d, w, Abort(t, true))
  {
  }

  lemma BeginAllowed(d: Discipline, w: World, a: World)
    requires w.calls == map[] && 1 in a.calls && Completing(a.calls[1])
    requires forall t :: t in a.calls ==> t == 1
    ensures (BrokenOff(w) ==> d.repeats) ==> Allows(d, w, BeginComplete(1, w.upload.actor))
    ensures d.completions ==> Allows(d, a, BeginComplete(2, w.upload.actor))
    ensures d.cancels ==> Allows(d, a, BeginCancel(2, w.upload.actor))
    ensures forall bytes :: d.chunks ==> Allows(d, a, BeginChunk(2, w.upload.actor, 0, bytes))
  {
  }

  lemma Appended(d: Discipline, w: World, front: seq<Event>, e: Event)
    ensures var a := Run(w, front);
      && Run(w, front + [e]) == Step(a, e).world
      && (Obeys(d, w, front + [e]) <==> Obeys(d, w, front) && Allows(d, a, e))
      && (Clean(w, front + [e]) <==> Clean(w, front) && CleanStep(a, e))
  {
    hide Obeys, Clean, Run, Step, Allows, CleanStep;
    RunConcat(w, front, [e]);
    ObeysConcat(d, w, front, [e]);
    CleanConcat(w, front, [e]);
    OneEvent(d, Run(w, front), e);
  }

  lemma ReadAndForward(d: Discipline, w: World)
    requires Complete(w)
    ensures var t := w.(objects := w.objects + [Whole(w)]);
      Run(w, Reading(w.upload, 1) + [Forward(1, Kept)]) == Enter(t, 1, Forwarded(Whole(w), w.manifest.value))
    ensures Obeys(d, w, Reading(w.upload, 1) + [Forward(1, Kept)]) <==> Allows(d, w, BeginComplete(1, w.upload.actor))
    ensures Clean(w, Reading(w.upload, 1) + [Forward(1, Kept)]) ==> w.objects == []
  {
    var u := w.upload;
    var a := Enter(w, 1, ReadAll(w));
    ReadingRun(d, w, 1);
    Appended(d, w, Reading(u, 1), Forward(1, Kept));
    assert a.calls[1] == ReadAll(w) && Allows(d, a, Forward(1, Kept));
    FlatPieces(w.files, u.totalChunks);
    hide Obeys, Clean, Run, Reading, Allows, Concat, Flat;
    assert Enter(Enter(w, 1, ReadAll(w)), 1, Forwarded(Whole(w), w.manifest.value)).calls == Enter(w, 1, Forwarded(Whole(w), w.manifest.value)).calls;
    assert |w.objects + [Whole(w)]| == |w.objects| + 1;
  }

  /** A completion that breaks off with its file kept, and one after it. */
  function Repeated(u: Upload): seq<Event> {
    Reading(u, 1) + [Forward(1, Kept)] + [Crash(1)] + (Reading(u, 1) + [Forward(1, Kept)])
  }

  /** They too forward the file twice. */
  lemma RepeatIsKept(d: Discipline, w: World)
    requires Complete(w) && w.objects == []
    ensures d.repeats ==> Obeys(d, w, Repeated(w.upload))
    ensures Run(w, Repeated(w.upload)).objects == [Whole(w), Whole(w)] && !Clean(w, Repeated(w.upload))
  {
    hide Concat, Obeys, Clean, Run, Reading, Step, Allows;
    var u, once := w.upload, Reading(w.upload, 1) + [Forward(1, Kept)];
    var c := w.(objects := [Whole(w)]);
    BeginsAgain(d, w);
    assert w.objects + [Whole(w)] == [Whole(w)] && c.objects + [Whole(c)] == [Whole(w), Whole(w)];
    ReadAndForward(d, w);
    ReadAndForward(d, c);
    CrashBack(c, Forwarded(Whole(w), w.manifest.value));
    hide Complete, Whole;
    StepsAllowed(d);
    Appended(d, w, once, Crash(1));
    RunConcat(w, once + [Crash(1)], once);
    ObeysConcat(d, w, once + [Crash(1)], once);
    CleanConcat(w, once + [Crash(1)], once);
  }

  lemma CrashBack(w: World, call: Call)
    requires 1 !in w.calls
    ensures Step(Enter(w, 1, call), Crash(1)).world == w
  {
    assert Enter(w, 1, call).calls - {1} == w.calls;
  }

  lemma BeginsAgain(d: Discipline, w: World)
    requires Complete(w) && w.objects == []
    ensures var c := w.(objects := [Whole(w)]);
      && Complete(c) && Whole(c) == Whole(w) && 1 !in w.calls
      && Allows(d, w, BeginComplete(1, w.upload.actor)) && (d.repeats ==> Allows(d, c, BeginComplete(1, w.upload.actor)))
  {
    hide Concat;
  }

  lemma {:induction false} ConcatUpdated(files: map<nat, Bytes>, first: Bytes, n: nat)
    requires n > 0
    ensures |Concat(files[0 := first], 0, n)| == |Concat(files, 0, n)| - |Get(files, 0)| + |first|
  {
    if n > 1 {
      ConcatUpdated(files, first, n - 1);
      assert Get(files[0 := first], n - 1) == Get(files, n - 1);
    } else {
      assert Concat(files[0 := first], 0, 0) == [] && Concat(files, 0, 0) == [];
    }
  }

  lemma {:induction false} ConcatOfNothing(n: nat)
    ensures Concat(map[], 0, n) == []
  {
    if n > 0 {
      ConcatOfNothing(n - 1);
    }
  }

  /** Other bytes for chunk 0, of another length. */
  function Others(w: World): Bytes { if Get(w.files, 0) == [] then [0] else [] }

  /** A chunk sent again after its file was read. */
  function Resent(w: World): seq<Event> {
    Reading(w.upload, 1) + [BeginChunk(2, w.upload.actor, 0, Others(w))] + [Send(2)] + [Forward(1, Kept)]
  }

  /** The file kept is not the last-received bytes. */
  lemma ResentIsLost(d: Discipline, w: World)
    requires Complete(w) && w.objects == []
    ensures d.chunks ==> Obeys(d, w, Resent(w))
    ensures Run(w, Resent(w)).objects == [Whole(w)] != [Snapshot(Run(w, Resent(w)))] && !Clean(w, Resent(w))
  {
    hide Concat, Obeys, Clean, Run, Reading, Step, Allows;
    var u := w.upload;
    var a := Enter(w, 1, ReadAll(w));
    ReadingRun(d, w, 1);
    BeginAllowed(d, w, a);
    var begin := BeginChunk(2, u.actor, 0, Others(w));
    var b, c := Step(a, begin).world, Step(Step(a, begin).world, Send(2)).world;
    ResendSteps(a, 2, 0, Others(w));
    ConcatUpdated(w.files, Others(w), u.totalChunks);
    assert c.calls[1] == ReadAll(w);
    ForwardKeepsFile(c, 1, w.files);
    hide Complete, ReadAll;
    assert w.objects + [Whole(w)] == [Whole(w)];
    assert |Snapshot(c)| != |Whole(w)| && !CleanStep(c, Forward(1, Kept));
    StepsAllowed(d);
    Appended(d, w, Reading(u, 1), begin);
    Appended(d, w, Reading(u, 1) + [begin], Send(2));
    Appended(d, w, Reading(u, 1) + [begin] + [Send(2)], Forward(1, Kept));
  }

  lemma ResendSteps(w: World, thread: Id, index: nat, bytes: Bytes)
    requires !w.upload.remote && w.open && w.manifest.Some? && w.manifest.value.upload == w.upload && thread !in w.calls
    requires index < w.upload.totalChunks && |bytes| <= MAX_CHUNK_BYTES
    ensures var a := Step(w, BeginChunk(thread, w.upload.actor, index, bytes)).world;
      && a == Enter(w, thread, Received(index, bytes, w.manifest.value))
      && Step(a, Send(thread)).world == Enter(a.(files := w.files[index := bytes]), thread, Stored(index, bytes, w.manifest.value))
  {
  }

  /** A cancellation after the files were read. */
  function Cancelled(u: Upload): seq<Event> {
    Reading(u, 1) + [BeginCancel(2, u.actor)] + [Abort(2, true)] + [Forward(1, Kept)]
  }

  /** The file is kept although the upload was cancelled and its directory removed. */
  lemma CancelledIsKept(d: Discipline, w: World)
    requires Complete(w) && w.objects == []
    ensures d.cancels ==> Obeys(d, w, Cancelled(w.upload))
    ensures Run(w, Cancelled(w.upload)).objects == [Whole(w)] && !Clean(w, Cancelled(w.upload))
  {
    hide Concat, Obeys, Clean, Run, Reading, Step, Allows;
    var u := w.upload;
    var a := Enter(w, 1, ReadAll(w));
    ReadingRun(d, w, 1);
    BeginAllowed(d, w, a);
    var begin := BeginCancel(2, u.actor);
    var b, c := Step(a, begin).world, Step(Step(a, begin).world, Abort(2, true)).world;
    CancelSteps(a, 2);
    ConcatOfNothing(u.totalChunks);
    assert c.calls[1] == ReadAll(w);
    ForwardKeepsFile(c, 1, w.files);
    assert w.objects + [Whole(w)] == [Whole(w)];
    assert Snapshot(c) == [] != Whole(w) && !CleanStep(c, Forward(1, Kept));
    hide Complete, ReadAll;
    StepsAllowed(d);
    Appended(d, w, Reading(u, 1), begin);
    Appended(d, w, Reading(u, 1) + [begin], Abort(2, true));
    Appended(d, w, Reading(u, 1) + [begin] + [Abort(2, true)], Forward(1, Kept));
  }

  lemma CancelSteps(w: World, thread: Id)
    requires w.manifest.Some? && w.manifest.value.upload == w.upload && thread !in w.calls
    ensures var a := Step(w, BeginCancel(thread, w.upload.actor)).world;
      && a == Enter(w, thread, Leaving(w.manifest.value))
      && Step(a, Abort(thread, true)).world == Enter(Closed(a), thread, Aborted(w.manifest.value))
  {
  }

  lemma SomeRunFails(d: Discipline, w: World) returns (events: seq<Event>)
    requires Complete(w) && w.objects == [] && d != ALONE
    ensures Obeys(d, w, events) && !Clean(w, events)
  {
    hide Complete, Obeys, Clean, TwoCompletions, Repeated, Resent, Cancelled;
    if d.completions {
      TwoAreKept(d, w);
      return TwoCompletions(w.upload);
    } else if d.repeats {
      RepeatIsKept(d, w);
      return Repeated(w.upload);
    } else if d.chunks {
      ResentIsLost(d, w);
      return Resent(w);
    } else {
      CancelledIsKept(d, w);
      return Cancelled(w.upload);
    }
  }

  // ---------------------------------------------------------------------
  // Exactly when

  predicate AllReceived(u: Upload, got: map<nat, Bytes>) {
    (forall i: nat :: i < u.totalChunks ==> i in got) && |Concat(got, 0, u.totalChunks)| == u.sizeBytes
  }

  lemma ReceivedIsComplete(w: World, got: map<nat, Bytes>)
    requires Settled(w, got) && AllReceived(w.upload, got) && !w.upload.remote && w.upload.sizeBytes > 0
    ensures Complete(w) && Whole(w) == Concat(got, 0, w.upload.totalChunks)
  {
    hide Settled, AllReceived, Concat;
    SettledLists(w, got);
    SettledConcat(w, got);
  }

  lemma SettledConcat(w: World, got: map<nat, Bytes>)
    requires Settled(w, got) && AllReceived(w.upload, got) && !w.upload.remote
    ensures var n := w.upload.totalChunks;
      && (forall i: nat :: i < n ==> i in w.files)
      && Concat(w.files, 0, n) == Concat(got, 0, n) && |Concat(got, 0, n)| == w.upload.sizeBytes
  {
    hide Settled, Concat;
    forall i: nat | i < w.upload.totalChunks ensures i in w.files && w.files[i] == got[i] {
      SettledBlob(w, got, i);
    }
    SameConcat(w.files, got, w.upload.totalChunks);
  }

  lemma {:induction false} SameConcat(files: map<nat, Bytes>, got: map<nat, Bytes>, n: nat)
    requires forall i: nat :: i < n ==> i in files && i in got && files[i] == got[i]
    ensures Concat(files, 0, n) == Concat(got, 0, n)
  {
    if n > 0 {
      SameConcat(files, got, n - 1);
    }
  }

  lemma SettledBlob(w: World, got: map<nat, Bytes>, i: nat)
    requires Settled(w, got) && !w.upload.remote && i in got
    ensures i in w.files && w.files[i] == got[i]
  {
    hide Inv;
    assert First(w.upload) + i == i;
  }

  lemma SettledLists(w: World, got: map<nat, Bytes>)
    requires Settled(w, got) && AllReceived(w.upload, got)
    ensures w.calls == map[] && w.open && w.upload.totalChunks > 0
    ensures w.manifest.Some? && w.manifest.value.upload == w.upload && |w.manifest.value.chunks| == w.upload.totalChunks
  {
    hide Sound, Concat;
    FullLists(w.manifest.value);
    forall i: nat | i < w.upload.totalChunks ensures i in w.manifest.value.chunks {
      assert i in got;
    }
  }

  /** Once everything is received: no run that obeys the discipline keeps a second file
      or one that is not the last-received bytes, if and only if the upload is
      multipart or the discipline lets nothing overlap a completion and repeats none
      that broke off with its file kept. */
  lemma CompletionsMustBeAlone(u: Upload, chunks: seq<Chunk>, d: Discipline)
    requires u.totalChunks > 0 && u.sizeBytes > 0 && AllReceived(u, LastReceived(u, chunks))
    ensures var w := AfterChunks(Started(u), chunks);
      (forall events :: Obeys(d, w, events) ==> Clean(w, events)) <==> u.remote || d == ALONE
  {
    hide Settled, AfterChunks, Obeys, Clean, AllReceived, LastReceived;
    var w := AfterChunks(Started(u), chunks);
    ChunksSettle(u, chunks);
    SettledAlone(w, LastReceived(u, chunks));
    if u.remote || d == ALONE {
      forall events | Obeys(d, w, events) ensures Clean(w, events) {
        RunAlone(w, events);
      }
    } else {
      ReceivedIsComplete(w, LastReceived(u, chunks));
      NothingKeptYet(w, LastReceived(u, chunks));
      var events := SomeRunFails(d, w);
    }
  }

  lemma SettledAlone(w: World, got: map<nat, Bytes>)
    requires Settled(w, got)
    ensures Inv(w) && Lone(w)
  {
    hide Sound;
  }

  /** Two staged completions that overlap forward the file twice, whatever was received. */
  lemma OverlapKeepsTwo(u: Upload, chunks: seq<Chunk>)
    requires u.totalChunks > 0 && u.sizeBytes > 0 && AllReceived(u, LastReceived(u, chunks)) && !u.remote
    ensures var whole := Concat(LastReceived(u, chunks), 0, u.totalChunks);
      Run(AfterChunks(Started(u), chunks), TwoCompletions(u)).objects == [whole, whole]
  {
    hide Settled, AfterChunks, AllReceived, LastReceived, TwoCompletions, Concat;
    var w := AfterChunks(Started(u), chunks);
    ChunksSettle(u, chunks);
    ReceivedIsComplete(w, LastReceived(u, chunks));
    NothingKeptYet(w, LastReceived(u, chunks));
    TwoAreKept(ALONE, w);
  }

  // ---------------------------------------------------------------------
  // A file of bytes from different moments

  /** Both chunks are sent again between the readings of their files. */
  const TORN := [BeginComplete(1, 0), Gather(1), BeginChunk(2, 0, 0, [2]), Send(2), BeginChunk(3, 0, 1, [2]), Send(3), Gather(1), Forward(1, Kept)]

  ghost predicate Shows(w: World, a: byte, b: byte) {
    && w.upload == Upload(0, 2, 2, false)
    && 0 in w.files && w.files[0] == [a] && 1 in w.files && w.files[1] == [b]
  }

  lemma ShowsJoined(w: World, a: byte, b: byte)
    requires Shows(w, a, b)
    ensures Snapshot(w) == [a, b]
  {
    assert Concat(w.files, 0, 1) == [a];
  }

  /** The completion of thread 1 has read `read`; threads from `top` on are free. */
  ghost predicate TornAt(w: World, a: byte, b: byte, read: seq<Bytes>, top: Id) {
    && Shows(w, a, b) && w.open && w.objects == [] && w.manifest.Some? && w.manifest.value.upload == w.upload
    && 1 in w.calls && w.calls[1] == Gathering(read, w.manifest.value) && 1 < top && forall t :: t in w.calls ==> t < top
  }

  lemma TornBegins(w: World)
    requires Complete(w) && Shows(w, 1, 1) && w.objects == []
    ensures TornAt(Step(w, BeginComplete(1, 0)).world, 1, 1, [], 2)
  {
    hide Concat;
  }

  lemma TornGathers(w: World, a: byte, b: byte, read: seq<Bytes>, top: Id)
    requires TornAt(w, a, b, read, top) && |read| < 2
    ensures TornAt(Step(w, Gather(1)).world, a, b, read + [if |read| == 0 then [a] else [b]], top)
  {
  }

  /** A chunk call begins, sends other bytes and is not heard of again. */
  lemma TornResends(w: World, a: byte, b: byte, read: seq<Bytes>, top: Id, index: nat, x: byte)
    requires TornAt(w, a, b, read, top) && index < 2
    ensures var begun := Step(w, BeginChunk(top, 0, index, [x])).world;
      && Shows(begun, a, b)
      && TornAt(Step(begun, Send(top)).world, if index == 0 then x else a, if index == 1 then x else b, read, top + 1)
  {
    var begun := Step(w, BeginChunk(top, 0, index, [x])).world;
    assert begun == Enter(w, top, Received(index, [x], w.manifest.value));
  }

  lemma TornForwards(w: World)
    requires TornAt(w, 2, 2, [[1], [2]], 4)
    ensures var t := Step(w, Forward(1, Kept)).world; Shows(t, 2, 2) && t.objects == [[1, 2]]
  {
    TwoPieces();
    hide Flat;
  }

  /** The world after `k` of those steps. */
  function Torn(w: World, k: nat): World
    requires k <= |TORN|
  {
    Run(w, TORN[..k])
  }

  lemma TornStep(w: World, k: nat)
    requires k < |TORN|
    ensures Torn(w, k + 1) == Step(Torn(w, k), TORN[k]).world
  {
    hide Step;
    assert TORN[..k + 1] == TORN[..k] + [TORN[k]];
    Appended(ALONE, w, TORN[..k], TORN[k]);
  }

  lemma TornReadsOne(w: World)
    requires Complete(w) && Shows(w, 1, 1) && w.objects == []
    ensures Shows(Torn(w, 1), 1, 1) && Shows(Torn(w, 2), 1, 1) && TornAt(Torn(w, 2), 1, 1, [[1]], 2)
  {
    hide Step, Complete, Shows;
    TornStep(w, 0);
    TornStep(w, 1);
    assert TORN[..0] == [] && Torn(w, 0) == w;
    hide Torn;
    TornBegins(w);
    TornGathers(Torn(w, 1), 1, 1, [], 2);
    assert [] + [[1]] == [[1]];
  }

  lemma TornSendsZero(w: World)
    requires TornAt(Torn(w, 2), 1, 1, [[1]], 2)
    ensures Shows(Torn(w, 3), 1, 1) && Shows(Torn(w, 4), 2, 1) && TornAt(Torn(w, 4), 2, 1, [[1]], 3)
  {
    hide Step, Shows;
    TornStep(w, 2);
    TornStep(w, 3);
    hide Torn;
    TornResends(Torn(w, 2), 1, 1, [[1]], 2, 0, 2);
  }

  lemma TornSendsOne(w: World)
    requires TornAt(Torn(w, 4), 2, 1, [[1]], 3)
    ensures Shows(Torn(w, 5), 2, 1) && Shows(Torn(w, 6), 2, 2) && TornAt(Torn(w, 6), 2, 2, [[1]], 4)
  {
    hide Step, Shows;
    TornStep(w, 4);
    TornStep(w, 5);
    hide Torn;
    TornResends(Torn(w, 4), 2, 1, [[1]], 3, 1, 2);
  }

  lemma TornEnds(w: World)
    requires TornAt(Torn(w, 6), 2, 2, [[1]], 4)
    ensures Shows(Torn(w, 7), 2, 2) && Shows(Torn(w, 8), 2, 2) && Torn(w, 8).objects == [[1, 2]]
  {
    hide Step, Shows;
    TornStep(w, 6);
    TornStep(w, 7);
    hide Torn;
    TornGathers(Torn(w, 6), 2, 2, [[1]], 4);
    assert [[1]] + [[2]] == [[1], [2]];
    TornForwards(Torn(w, 7));
  }

  lemma TwoPieces()
    ensures Flat([[1], [2]]) == [1, 2]
  {
    assert [[1], [2]][..1] == [[1]] && Flat([[1]]) == [1];
  }

  /** The file kept is one that the received bytes made up at no moment. */
  lemma TornFile()
    ensures var w := AfterChunks(Started(Upload(0, 2, 2, false)), [Chunk(0, 0, [1]), Chunk(0, 1, [1])]);
      Torn(w, |TORN|).objects == [[1, 2]] && forall k :: 0 <= k <= |TORN| ==> Snapshot(Torn(w, k)) != [1, 2]
  {
    var u, chunks := Upload(0, 2, 2, false), [Chunk(0, 0, [1]), Chunk(0, 1, [1])];
    var w := AfterChunks(Started(u), chunks);
    TornStart();
    hide AfterChunks, Complete, Torn, Snapshot, Shows;
    TornTimeline(w);
  }

  lemma TornTimeline(w: World)
    requires Complete(w) && Shows(w, 1, 1) && w.objects == []
    ensures Torn(w, |TORN|).objects == [[1, 2]] && forall k :: 0 <= k <= |TORN| ==> Snapshot(Torn(w, k)) != [1, 2]
  {
    TornMoments(w);
    hide Complete, Torn, Snapshot, Shows;
    forall k: nat | k <= |TORN| ensures Snapshot(Torn(w, k)) != [1, 2] {
      TornShows(w, k);
    }
  }

  lemma TornMoments(w: World)
    requires Complete(w) && Shows(w, 1, 1) && w.objects == []
    ensures Shows(Torn(w, 0), 1, 1) && Shows(Torn(w, 1), 1, 1) && Shows(Torn(w, 2), 1, 1) && Shows(Torn(w, 3), 1, 1)
    ensures Shows(Torn(w, 4), 2, 1) && Shows(Torn(w, 5), 2, 1) && Shows(Torn(w, 6), 2, 2) && Shows(Torn(w, 7), 2, 2)
    ensures Shows(Torn(w, 8), 2, 2) && Torn(w, 8).objects == [[1, 2]]
  {
    assert TORN[..0] == [] && Torn(w, 0) == w;
    hide Complete, Torn, Shows, TornAt;
    TornReadsOne(w);
    TornSendsZero(w);
    TornSendsOne(w);
    TornEnds(w);
  }

  lemma TornShows(w: World, k: nat)
    requires k <= 8 && Complete(w) && Shows(w, 1, 1) && w.objects == []
    ensures Snapshot(Torn(w, k)) != [1, 2]
  {
    TornMoments(w);
    hide Complete, Torn, Snapshot, Shows;
    var a: byte, b: byte := if k < 4 then 1 else 2, if k < 6 then 1 else 2;
    assert Shows(Torn(w, k), a, b);
    ShowsJoined(Torn(w, k), a, b);
  }

  lemma TornStart()
    ensures var w := AfterChunks(Started(Upload(0, 2, 2, false)), [Chunk(0, 0, [1]), Chunk(0, 1, [1])]);
      Complete(w) && Shows(w, 1, 1) && w.objects == []
  {
    var u, chunks := Upload(0, 2, 2, false), [Chunk(0, 0, [1]), Chunk(0, 1, [1])];
    var w, got := AfterChunks(Started(u), chunks), map[0 := [1], 1 := [1]];
    TornReceived();
    ChunksSettle(u, chunks);
    hide AfterChunks, Settled, Complete, LastReceived, AllReceived;
    ReceivedIsComplete(w, got);
    NothingKeptYet(w, got);
    SettledBlob(w, got, 0);
    SettledBlob(w, got, 1);
  }

  lemma TornReceived()
    ensures var u, chunks := Upload(0, 2, 2, false), [Chunk(0, 0, [1]), Chunk(0, 1, [1])];
      LastReceived(u, chunks) == map[0 := [1], 1 := [1]] && AllReceived(u, LastReceived(u, chunks))
  {
    var u, chunks := Upload(0, 2, 2, false), [Chunk(0, 0, [1]), Chunk(0, 1, [1])];
    assert chunks[..1] == [Chunk(0, 0, [1])] && chunks[..1][..0] == [];
    assert LastReceived(u, [Chunk(0, 0, [1])]) == map[0 := [1]];
    var got := map[0 := [1], 1 := [1]];
    assert LastReceived(u, chunks) == got;
    assert Concat(got, 0, 1) == [1] && Concat(got, 0, 2) == [1, 1];
  }

  // ---------------------------------------------------------------------
  // What every staged file is

  /** The world after the first `k` events. */
  function At(u: Upload, events: seq<Event>, k: nat): World
    requires k <= |events|
  {
    Run(Started(u), events[..k])
  }

  /** Each piece is the file of its chunk at its moment. */
  ghost predicate ReadAt(u: Upload, events: seq<Event>, read: seq<Bytes>, moments: seq<nat>) {
    && |moments| == |read| && (forall i :: 0 <= i < |moments| ==> moments[i] <= |events|)
    && (forall i, j :: 0 <= i <= j < |moments| ==> moments[i] <= moments[j])
    && (forall i :: 0 <= i < |moments| ==>
          var w := At(u, events, moments[i]); i in w.files && w.files[i] == read[i])
  }

  ghost predicate Timely(u: Upload, events: seq<Event>, read: seq<Bytes>) {
    exists moments: seq<nat> :: ReadAt(u, events, read, moments)
  }

  lemma TimelyStays(u: Upload, events: seq<Event>, e: Event, read: seq<Bytes>)
    requires Timely(u, events, read)
    ensures Timely(u, events + [e], read)
  {
    hide Run;
    var moments: seq<nat> :| ReadAt(u, events, read, moments);
    forall i | 0 <= i < |moments| ensures At(u, events + [e], moments[i]) == At(u, events, moments[i]) {
      assert (events + [e])[..moments[i]] == events[..moments[i]];
    }
    assert ReadAt(u, events + [e], read, moments);
  }

  lemma TimelyGrows(u: Upload, events: seq<Event>, read: seq<Bytes>)
    requires Timely(u, events, read)
    requires var w := Run(Started(u), events); |read| in w.files
    ensures Timely(u, events, read + [Run(Started(u), events).files[|read|]])
  {
    hide Run;
    var moments: seq<nat> :| ReadAt(u, events, read, moments);
    assert events[..|events|] == events && At(u, events, |events|) == Run(Started(u), events);
    assert ReadAt(u, events, read + [Run(Started(u), events).files[|read|]], moments + [|events|]);
  }

  /** Where a call that has read something comes from. */
  lemma GatheringStep(w: World, e: Event, t: Id)
    requires t in Step(w, e).world.calls && Step(w, e).world.calls[t].Gathering?
    ensures var read := Step(w, e).world.calls[t].read;
      read == []
      || (t in w.calls && w.calls[t].Gathering?
          && (read == w.calls[t].read
              || (|w.calls[t].read| in w.files && read == w.calls[t].read + [w.files[|w.calls[t].read|]])))
  {
    hide Recorded, ChunkCheck, CompleteCheck, Assembly, Flat;
  }

  lemma ForwardStep(w: World, e: Event)
    requires Inv(w) && !w.upload.remote
    ensures var t := Step(w, e).world;
      t.objects == w.objects
      || exists s :: s in w.calls && w.calls[s].Gathering? && |w.calls[s].read| == w.upload.totalChunks
                     && t.objects == w.objects + [Flat(w.calls[s].read)]
  {
    hide Recorded, ChunkCheck, CompleteCheck, Assembly, Flat, Sound;
    if e.Assemble? && e.thread in w.calls {
      assert SoundCall(w, w.calls[e.thread]);
    }
  }

  ghost predicate OfPieces(u: Upload, events: seq<Event>, whole: Bytes) {
    exists read :: |read| == u.totalChunks && whole == Flat(read) && Timely(u, events, read)
  }

  ghost predicate AllTimely(u: Upload, events: seq<Event>) {
    var w := Run(Started(u), events);
    && (forall t :: t in w.calls && w.calls[t].Gathering? ==> Timely(u, events, w.calls[t].read))
    && (forall i :: 0 <= i < |w.objects| ==> OfPieces(u, events, w.objects[i]))
  }

  lemma PiecesStay(u: Upload, events: seq<Event>, e: Event, whole: Bytes)
    requires OfPieces(u, events, whole)
    ensures OfPieces(u, events + [e], whole)
  {
    hide Timely, Flat;
    var read :| |read| == u.totalChunks && whole == Flat(read) && Timely(u, events, read);
    TimelyStays(u, events, e, read);
  }

  lemma CallsTimely(u: Upload, events: seq<Event>, e: Event, t: Id)
    requires AllTimely(u, events)
    requires var w := Step(Run(Started(u), events), e).world; t in w.calls && w.calls[t].Gathering?
    ensures Timely(u, events + [e], Step(Run(Started(u), events), e).world.calls[t].read)
  {
    var w := Run(Started(u), events);
    var read := Step(w, e).world.calls[t].read;
    GatheringStep(w, e, t);
    assert read == [] ==> ReadAt(u, events + [e], read, []);
    hide Run, Step, ReadAt, OfPieces;
    if read != [] {
      assert Timely(u, events, w.calls[t].read);
      if read != w.calls[t].read {
        TimelyGrows(u, events, w.calls[t].read);
      }
      TimelyStays(u, events, e, read);
    }
  }

  lemma FilesTimely(u: Upload, events: seq<Event>, e: Event, i: nat)
    requires AllTimely(u, events) && Inv(Run(Started(u), events)) && !u.remote && Run(Started(u), events).upload == u
    requires i < |Step(Run(Started(u), events), e).world.objects|
    ensures OfPieces(u, events + [e], Step(Run(Started(u), events), e).world.objects[i])
  {
    hide Run, Step, Timely, Inv, Flat;
    var w := Run(Started(u), events);
    ForwardStep(w, e);
    if i < |w.objects| {
      assert OfPieces(u, events, w.objects[i]);
      PiecesStay(u, events, e, w.objects[i]);
    } else {
      var s :| s in w.calls && w.calls[s].Gathering? && |w.calls[s].read| == u.totalChunks
               && Step(w, e).world.objects == w.objects + [Flat(w.calls[s].read)];
      TimelyStays(u, events, e, w.calls[s].read);
    }
  }

  lemma {:induction false} RunTimely(u: Upload, events: seq<Event>)
    requires u.totalChunks > 0 && !u.remote
    ensures AllTimely(u, events) && Inv(Run(Started(u), events)) && Run(Started(u), events).upload == u
  {
    StartedHolds(u);
    RunKeeps(Started(u), events);
    if events != [] {
      var front, e := events[..|events| - 1], events[|events| - 1];
      RunTimely(u, front);
      assert events == front + [e];
      hide Step, Inv, Timely, OfPieces;
      Appended(ALONE, Started(u), front, e);
      UploadStays(Run(Started(u), front), e);
      var w := Run(Started(u), events);
      forall t | t in w.calls && w.calls[t].Gathering? ensures Timely(u, events, w.calls[t].read) {
        CallsTimely(u, front, e, t);
      }
      forall i | 0 <= i < |w.objects| ensures OfPieces(u, events, w.objects[i]) {
        FilesTimely(u, front, e, i);
      }
    }
  }

  /** However calls overlap, every staged file that is kept has the promised length and
      consists, chunk by chunk, of what was last received at moments that only
      go forward: all the overlaps can do is let the moments differ. */
  lemma PiecesInTime(u: Upload, events: seq<Event>)
    requires u.totalChunks > 0 && !u.remote
    ensures var w := Run(Started(u), events);
      forall i :: 0 <= i < |w.objects| ==> |w.objects[i]| == u.sizeBytes && OfPieces(u, events, w.objects[i])
  {
    hide OfPieces, Run;
    RunTimely(u, events);
  }
}
