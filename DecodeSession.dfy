/**
 * `ExportAudioClip`: a decode session over the FMOD engine. A chain of
 * fallible calls (create the system, init it, locate the payload, create
 * the sound, take sub-sound 0, query format, defaults and length, lock
 * the PCM bytes, write the WAVE file, unlock), any of which may end the
 * session early; a `finally` that releases the sub-sound, the sound and
 * the system, each only when its handle is non-null.
 *
 * The engine is foreign: its answers are an input (`Script`), and every
 * call is recorded in the trace. `Session` is the specification of one
 * run; the lemmas after it state the lifecycle discipline; the method at
 * the end is the source's code, proved to produce exactly `Session`.
 */
module DecodeSession {
  import opened Wrappers
  import opened Bytes
  import opened CSharpInts
  import opened AudioClips
  import opened Events
  import opened RawPayload
  import opened Wave

  /** What an acquiring call returns: whether RESULT is OK, and whether the out-handle is non-null. */
  datatype Acquisition = Acquisition(ok: bool, handle: bool)

  /** `getFormat`'s channel count and bits per sample. */
  datatype SoundFormat = SoundFormat(numChannels: int, bitsPerSample: int)

  /** `lock`'s first region (its bytes; len1 is their count) and the length of the second. */
  datatype LockedRegions = LockedRegions(region1: seq<byte>, len2: int)

  /**
   * The engine's answers, one per call a session may make; None where a
   * query failed. `defaults` is the sample rate after the `(int)` cast of
   * the frequency.
   */
  datatype Script = Script(
    systemCreate: Acquisition,
    init: bool,
    createSound: Acquisition,
    getSubSound: Acquisition,
    format: Option<SoundFormat>,
    defaults: Option<int>,
    length: Option<int>,
    lock: Option<LockedRegions>,
    unlock: bool)

  /**
   * Answers the wrapper can give: values fit their C# types, and a call that
   * succeeds hands out a handle (a failing one may or may not).
   */
  predicate ValidScript(s: Script) {
    && (s.systemCreate.ok ==> s.systemCreate.handle)
    && (s.createSound.ok ==> s.createSound.handle)
    && (s.getSubSound.ok ==> s.getSubSound.handle)
    && (s.format.Some? ==> IsInt32(s.format.value.numChannels) && IsInt32(s.format.value.bitsPerSample))
    && (s.defaults.Some? ==> IsInt32(s.defaults.value))
    && (s.length.Some? ==> IsUInt32(s.length.value))
    && (s.lock.Some? ==> IsUInt32(|s.lock.value.region1|) && IsUInt32(s.lock.value.len2))
  }

  /** Which of the three handles are non-null. */
  datatype Held = Held(system: bool, sound: bool, subsound: bool)

  predicate Holds(held: Held, h: Handle) {
    match h
    case SystemHandle => held.system
    case SoundHandle => held.sound
    case SubSoundHandle => held.subsound
  }

  /** Position of a handle in acquisition order. */
  function Rank(h: Handle): nat {
    match h
    case SystemHandle => 0
    case SoundHandle => 1
    case SubSoundHandle => 2
  }

  /** A call that hands out a handle: the call, then the handle when it came back non-null. */
  function Acquiring(c: Call, ok: bool, handle: bool, h: Handle): seq<Event> {
    if handle then [Invoked(c, ok), Acquired(h)] else [Invoked(c, ok)]
  }

  /**
   * The `finally` block: sub-sound, sound, system, each when non-null: one
   * event per handle held (`ReleasesExactlyHeld` says which).
   */
  function Releases(held: Held): (r: seq<Event>)
    ensures |r| == (if held.system then 1 else 0) + (if held.sound then 1 else 0) + (if held.subsound then 1 else 0)
  {
    (if held.subsound then [Released(SubSoundHandle)] else [])
    + (if held.sound then [Released(SoundHandle)] else [])
    + (if held.system then [Released(SystemHandle)] else [])
  }

  /** The error the exporter logs when the step `what` fails. */
  function FailureMessage(what: string, clip: AudioClip): string {
    "Can't " + what + " for AudioClip " + clip.name
  }

  function Failure(what: string, clip: AudioClip): Event {
    Logged(Error, FailureMessage(what, clip))
  }

  /** The WAVE file a session writes: the sub-sound's format and the locked PCM bytes. */
  datatype Recording = Recording(numChannels: int, sampleRate: int, bitsPerSample: int, samples: seq<byte>)

  /** A recording whose fields fit the types the writer is handed. */
  type WaveRecording = r: Recording | ValidFormat(r.numChannels, r.sampleRate, r.bitsPerSample) && IsUInt32(|r.samples|)
    witness Recording(0, 0, 0, [])

  /**
   * How a session ends: its trace, the handles still held, the file it
   * wrote (None: the writer was never opened) and the resources stream.
   */
  datatype Outcome = Outcome(events: seq<Event>, held: Held, recording: Option<WaveRecording>, stream: Option<StreamState>)

  /** Events and the file written, of a stage that takes no handle. */
  datatype Written = Written(events: seq<Event>, recording: Option<WaveRecording>)

  /**
   * The `try` block from `getFormat` on: the sub-sound's format, defaults
   * and length, the lock, the WAVE file, the unlock.
   */
  function Query(clip: AudioClip, s: Script): (r: Written)
    requires ValidScript(s)
    ensures |r.events| >= 2 && r.events[0] == Invoked(GetFormat, s.format.Some?)
    ensures r.recording.Some? <==> s.format.Some? && s.defaults.Some? && s.length.Some? && s.lock.Some?
    ensures r.recording.Some? ==> r.recording.value == Recording(s.format.value.numChannels, s.defaults.value,
                                                                 s.format.value.bitsPerSample, s.lock.value.region1)
  {
    var e6 := [Invoked(GetFormat, s.format.Some?)];
    if s.format.None? then Written(e6 + [Failure("get format", clip)], None)
    else
    var e7 := e6 + [Invoked(GetDefaults, s.defaults.Some?)];
    if s.defaults.None? then Written(e7 + [Failure("get defaults", clip)], None)
    else
    var e8 := e7 + [Invoked(GetLength, s.length.Some?)];
    if s.length.None? then Written(e8 + [Failure("get length", clip)], None)
    else
    var e9 := e8 + [Invoked(Lock(0, s.length.value), s.lock.Some?)];
    if s.lock.None? then Written(e9 + [Failure("lock", clip)], None)
    else
    var r := s.lock.value;
    var e10 := e9 + [WriterDisposed] + [Invoked(Unlock(|r.region1|, r.len2), s.unlock)];
    var e11 := if s.unlock then e10 else e10 + [Failure("unlock", clip)];
    Written(e11, Some(Recording(s.format.value.numChannels, s.defaults.value, s.format.value.bitsPerSample, r.region1)))
  }

  /**
   * The `try` block from `createSound` on, once the payload `data` is in
   * hand and `held` are the handles taken so far: only the new events.
   */
  function Decode(clip: AudioClip, data: seq<byte>, s: Script, held: Held, stream: Option<StreamState>): (r: Outcome)
    requires ValidScript(s)
    ensures r.stream == stream
    ensures r.held.system == held.system && r.held.sound == s.createSound.handle
    ensures r.held.subsound == if s.createSound.ok then s.getSubSound.handle else held.subsound
    ensures r.recording == if s.createSound.ok && s.getSubSound.ok then Query(clip, s).recording else None
  {
    var e4 := Acquiring(CreateSound(WrapUInt32(|data|)), s.createSound.ok, s.createSound.handle, SoundHandle);
    var h2 := held.(sound := s.createSound.handle);
    if !s.createSound.ok then Outcome(e4 + [Failure("create sound", clip)], h2, None, stream)
    else
    var e5 := e4 + Acquiring(GetSubSound(0), s.getSubSound.ok, s.getSubSound.handle, SubSoundHandle);
    var h3 := h2.(subsound := s.getSubSound.handle);
    if !s.getSubSound.ok then Outcome(e5 + [Failure("get subsound", clip)], h3, None, stream)
    else
    var q := Query(clip, s);
    Outcome(e5 + q.events, h3, q.recording, stream)
  }

  /** The `try` block, up to the first `return` or to its end. */
  function Body(clip: AudioClip, stream: Option<StreamState>, s: Script): (r: Outcome)
    requires ValidScript(s)
    ensures |r.events| >= 2 && r.events[0] == Invoked(SystemCreate, s.systemCreate.ok)
    ensures r.held.system == s.systemCreate.handle
  {
    var e1 := Acquiring(SystemCreate, s.systemCreate.ok, s.systemCreate.handle, SystemHandle);
    var h1 := Held(s.systemCreate.handle, false, false);
    if !s.systemCreate.ok then Outcome(e1 + [Failure("create factory", clip)], h1, None, stream)
    else
    var e2 := e1 + [Invoked(Init(1), s.init)];
    if !s.init then Outcome(e2 + [Failure("init system", clip)], h1, None, stream)
    else
    var raw := RawData(clip, stream);
    if raw.data.None? then Outcome(e2 + raw.log, h1, None, raw.stream)
    else
    var d := Decode(clip, raw.data.value, s, h1, raw.stream);
    d.(events := e2 + raw.log + d.events)
  }

  /** The `finally` block releases only, exactly the handles held, latest-acquired first. */
  lemma ReleasesExactlyHeld(held: Held)
    ensures var r := Releases(held);
      && (forall i :: 0 <= i < |r| ==> r[i].Released?)
      && (forall h :: Released(h) in r <==> Holds(held, h))
      && (forall i, j :: 0 <= i < j < |r| ==> Rank(r[j].handle) < Rank(r[i].handle))
  {
  }

  /** The bytes written for a recording, if any. */
  function FileBytes(recording: Option<WaveRecording>): seq<byte> {
    match recording
    case None => []
    case Some(r) => WaveFile(r.numChannels, r.sampleRate, r.bitsPerSample, r.samples)
  }

  /** The bytes a session leaves in the file stream. */
  function Output(o: Outcome): seq<byte> {
    FileBytes(o.recording)
  }

  /** The `finally` block run after `b`: `b`'s trace, then exactly the releases of what `b` holds. */
  function Finish(b: Outcome): (r: Outcome)
    ensures r.held == b.held && r.recording == b.recording && r.stream == b.stream
    ensures |r.events| == |b.events| + |Releases(b.held)|
  {
    b.(events := b.events + Releases(b.held))
  }

  /** One whole session: the `try` block, then the `finally` block. */
  function Session(clip: AudioClip, stream: Option<StreamState>, s: Script): (r: Outcome)
    requires ValidScript(s)
    ensures |r.events| >= 2 && r.events[0] == Invoked(SystemCreate, s.systemCreate.ok)
  {
    Finish(Body(clip, stream, s))
  }

  /** Nothing in `es` is a release. */
  predicate NoReleases(es: seq<Event>) {
    forall i :: 0 <= i < |es| ==> !es[i].Released?
  }

  /** Each handle `es` acquires ranks above the ones acquired before it. */
  predicate AcquisitionsAscend(es: seq<Event>) {
    forall i, j :: 0 <= i < j < |es| && es[i].Acquired? && es[j].Acquired? ==> Rank(es[i].handle) < Rank(es[j].handle)
  }

  /** `es` neither acquires nor releases a handle. */
  predicate HandleFree(es: seq<Event>) {
    forall i :: 0 <= i < |es| ==> !es[i].Acquired? && !es[i].Released?
  }

  /** `b` has released nothing, and acquired, in rank order, exactly the handles it holds. */
  predicate AcquiredAsHeld(b: Outcome) {
    && NoReleases(b.events)
    && AcquisitionsAscend(b.events)
    && forall h: Handle :: Acquired(h) in b.events <==> Holds(b.held, h)
  }

  /** Two stretches of trace join in rank order when every handle `a` takes ranks below `k` and every one `b` takes does not. */
  lemma AcquisitionsJoin(a: seq<Event>, b: seq<Event>, k: nat)
    requires NoReleases(a) && NoReleases(b) && AcquisitionsAscend(a) && AcquisitionsAscend(b)
    requires forall i :: 0 <= i < |a| && a[i].Acquired? ==> Rank(a[i].handle) < k
    requires forall j :: 0 <= j < |b| && b[j].Acquired? ==> k <= Rank(b[j].handle)
    ensures NoReleases(a + b) && AcquisitionsAscend(a + b)
  {
    var c := a + b;
    forall i | 0 <= i < |c|
      ensures !c[i].Released?
    {
      if i < |a| { assert c[i] == a[i]; } else { assert c[i] == b[i - |a|]; }
    }
    forall i, j | 0 <= i < j < |c| && c[i].Acquired? && c[j].Acquired?
      ensures Rank(c[i].handle) < Rank(c[j].handle)
    {
      if j < |a| {
        assert c[i] == a[i] && c[j] == a[j];
      } else if i < |a| {
        assert c[i] == a[i] && c[j] == b[j - |a|];
      } else {
        assert c[i] == b[i - |a|] && c[j] == b[j - |a|];
      }
    }
  }

  /** The queries and the write take and release no handle. */
  lemma QueryHandleFree(clip: AudioClip, s: Script)
    requires ValidScript(s)
    ensures HandleFree(Query(clip, s).events)
  {
  }

  /** The payload locator only logs warnings. */
  lemma RawDataHandleFree(clip: AudioClip, stream: Option<StreamState>)
    ensures HandleFree(RawData(clip, stream).log)
  {
  }

  /** `d` releases nothing and acquires, in order, exactly the sound and sub-sound it adds to `held`. */
  predicate AddsSoundHandles(d: Outcome, held: Held) {
    && d.held.system == held.system
    && NoReleases(d.events) && AcquisitionsAscend(d.events)
    && (forall j :: 0 <= j < |d.events| && d.events[j].Acquired? ==> 1 <= Rank(d.events[j].handle))
    && (forall h: Handle :: Acquired(h) in d.events <==> h != SystemHandle && Holds(d.held, h))
  }

  lemma DecodeAcquisitions(clip: AudioClip, data: seq<byte>, s: Script, held: Held, stream: Option<StreamState>)
    requires ValidScript(s) && !held.sound && !held.subsound
    ensures AddsSoundHandles(Decode(clip, data, s, held, stream), held)
  {
    if !s.createSound.ok {
      SoundRefused(clip, data, s, held, stream);
    } else if !s.getSubSound.ok {
      SubSoundRefused(clip, data, s, held, stream);
    } else {
      SubSoundTaken(clip, data, s, held, stream);
    }
  }

  lemma SoundRefused(clip: AudioClip, data: seq<byte>, s: Script, held: Held, stream: Option<StreamState>)
    requires ValidScript(s) && !held.sound && !held.subsound && !s.createSound.ok
    ensures AddsSoundHandles(Decode(clip, data, s, held, stream), held)
  {
  }

  lemma SubSoundRefused(clip: AudioClip, data: seq<byte>, s: Script, held: Held, stream: Option<StreamState>)
    requires ValidScript(s) && !held.sound && !held.subsound && s.createSound.ok && !s.getSubSound.ok
    ensures AddsSoundHandles(Decode(clip, data, s, held, stream), held)
  {
  }

  lemma SubSoundTaken(clip: AudioClip, data: seq<byte>, s: Script, held: Held, stream: Option<StreamState>)
    requires ValidScript(s) && !held.sound && !held.subsound && s.createSound.ok && s.getSubSound.ok
    ensures AddsSoundHandles(Decode(clip, data, s, held, stream), held)
  {
    var e5 := [Invoked(CreateSound(WrapUInt32(|data|)), true), Acquired(SoundHandle), Invoked(GetSubSound(0), true), Acquired(SubSoundHandle)];
    var q := Query(clip, s).events;
    QueryHandleFree(clip, s);
    AcquisitionsJoin(e5, q, 3);
    assert Decode(clip, data, s, held, stream).events == e5 + q;
  }

  /** `Body` when it reaches `createSound`: the setup calls, the locator's log, then `Decode`. */
  lemma BodyWhenDecoding(clip: AudioClip, stream: Option<StreamState>, s: Script)
    requires ValidScript(s)
    requires s.systemCreate.ok && s.init && RawData(clip, stream).data.Some?
    ensures var raw := RawData(clip, stream);
      var d := Decode(clip, raw.data.value, s, Held(s.systemCreate.handle, false, false), raw.stream);
      var e2 := Acquiring(SystemCreate, true, s.systemCreate.handle, SystemHandle) + [Invoked(Init(1), true)];
      Body(clip, stream, s) == d.(events := e2 + raw.log + d.events)
  {
  }

  /** The `try` block releases nothing, and acquires, in order, exactly the handles it ends up holding. */
  lemma BodyAcquisitions(clip: AudioClip, stream: Option<StreamState>, s: Script)
    requires ValidScript(s)
    ensures AcquiredAsHeld(Body(clip, stream, s))
  {
    var raw := RawData(clip, stream);
    if s.systemCreate.ok && s.init {
      if raw.data.Some? {
        DecodingAcquisitions(clip, stream, s);
      } else {
        var e2 := Acquiring(SystemCreate, true, s.systemCreate.handle, SystemHandle) + [Invoked(Init(1), true)];
        RawDataHandleFree(clip, stream);
        AcquisitionsJoin(e2, raw.log, 1);
      }
    }
  }

  lemma DecodingAcquisitions(clip: AudioClip, stream: Option<StreamState>, s: Script)
    requires ValidScript(s)
    requires s.systemCreate.ok && s.init && RawData(clip, stream).data.Some?
    ensures AcquiredAsHeld(Body(clip, stream, s))
  {
    var e2 := Acquiring(SystemCreate, true, s.systemCreate.handle, SystemHandle) + [Invoked(Init(1), true)];
    var raw := RawData(clip, stream);
    var held := Held(s.systemCreate.handle, false, false);
    var d := Decode(clip, raw.data.value, s, held, raw.stream);
    RawDataHandleFree(clip, stream);
    AcquisitionsJoin(e2, raw.log, 1);
    DecodeAcquisitions(clip, raw.data.value, s, held, raw.stream);
    AcquisitionsJoin(e2 + raw.log, d.events, 1);
    BodyWhenDecoding(clip, stream, s);
  }

  /** After the `finally` block, a handle is released if and only if `b` acquired it. */
  lemma FinishReleasedIffAcquired(b: Outcome, h: Handle)
    requires AcquiredAsHeld(b)
    ensures Acquired(h) in Finish(b).events <==> Released(h) in Finish(b).events
  {
    assert Released(h) in Releases(b.held) <==> Holds(b.held, h);
  }

  /** After the `finally` block, the releases come last, latest-acquired first. */
  lemma FinishReleasesLast(b: Outcome, i: int, j: int)
    requires AcquiredAsHeld(b)
    requires 0 <= i < j < |Finish(b).events| && Finish(b).events[i].Released?
    ensures Finish(b).events[j].Released? && Rank(Finish(b).events[j].handle) < Rank(Finish(b).events[i].handle)
  {
    var es := Finish(b).events;
    var r := Releases(b.held);
    if i < |b.events| {
      assert false;
    }
    assert es[i] == r[i - |b.events|] && es[j] == r[j - |b.events|];
  }

  /** After the `finally` block, a handle is released only after it was acquired. */
  lemma FinishReleaseFollowsAcquire(b: Outcome, i: int)
    requires AcquiredAsHeld(b)
    requires 0 <= i < |Finish(b).events| && Finish(b).events[i].Released?
    ensures exists j :: 0 <= j < i && Finish(b).events[j] == Acquired(Finish(b).events[i].handle)
  {
    var es := Finish(b).events;
    var h := es[i].handle;
    if i < |b.events| {
      assert false;
    }
    assert Holds(b.held, h) by {
      assert Releases(b.held)[i - |b.events|] == Released(h);
    }
    var j :| 0 <= j < |b.events| && b.events[j] == Acquired(h);
    assert es[j] == Acquired(h);
  }

  /** After the `finally` block, the handles are still acquired in rank order, each at most once. */
  lemma FinishAcquisitionsAscend(b: Outcome)
    requires AcquiredAsHeld(b)
    ensures AcquisitionsAscend(Finish(b).events)
  {
    var es := Finish(b).events;
    var r := Releases(b.held);
    forall i, j | 0 <= i < j < |es| && es[i].Acquired? && es[j].Acquired?
      ensures Rank(es[i].handle) < Rank(es[j].handle)
    {
      if j >= |b.events| {
        assert false;
      }
      assert es[i] == b.events[i] && es[j] == b.events[j];
    }
  }

  /** In a whole session, system, sound and sub-sound are acquired in that order, each at most once. */
  lemma AcquiredInOrderOnce(clip: AudioClip, stream: Option<StreamState>, s: Script)
    requires ValidScript(s)
    ensures AcquisitionsAscend(Session(clip, stream, s).events)
  {
    BodyAcquisitions(clip, stream, s);
    FinishAcquisitionsAscend(Body(clip, stream, s));
  }

  /** In a whole session, a handle is released if and only if it was acquired. */
  lemma ReleasedIffAcquired(clip: AudioClip, stream: Option<StreamState>, s: Script, h: Handle)
    requires ValidScript(s)
    ensures Acquired(h) in Session(clip, stream, s).events <==> Released(h) in Session(clip, stream, s).events
  {
    BodyAcquisitions(clip, stream, s);
    FinishReleasedIffAcquired(Body(clip, stream, s), h);
  }

  /**
   * In a whole session, the releases come last, sub-sound before sound
   * before system, so none is released twice.
   */
  lemma ReleasesLastInReverseOrder(clip: AudioClip, stream: Option<StreamState>, s: Script, i: int, j: int)
    requires ValidScript(s)
    requires var es := Session(clip, stream, s).events; 0 <= i < j < |es| && es[i].Released?
    ensures var es := Session(clip, stream, s).events; es[j].Released? && Rank(es[j].handle) < Rank(es[i].handle)
  {
    BodyAcquisitions(clip, stream, s);
    FinishReleasesLast(Body(clip, stream, s), i, j);
  }

  /** In a whole session, a handle is released only after it was acquired. */
  lemma ReleaseFollowsAcquire(clip: AudioClip, stream: Option<StreamState>, s: Script, i: int)
    requires ValidScript(s)
    requires var es := Session(clip, stream, s).events; 0 <= i < |es| && es[i].Released?
    ensures var es := Session(clip, stream, s).events; exists j :: 0 <= j < i && es[j] == Acquired(es[i].handle)
  {
    BodyAcquisitions(clip, stream, s);
    FinishReleaseFollowsAcquire(Body(clip, stream, s), i);
  }

  predicate IsError(e: Event) {
    e.Logged? && e.level == Error
  }

  /** No call follows a call that failed. */
  predicate StopsAtFailure(es: seq<Event>) {
    forall i, j :: 0 <= i < j < |es| && es[i].Invoked? && !es[i].ok ==> !es[j].Invoked?
  }

  /** An error, if logged, is the last event. */
  predicate ErrorEnds(es: seq<Event>) {
    forall i :: 0 <= i < |es| && IsError(es[i]) ==> i == |es| - 1
  }

  /** How every stage of the `try` block ends: at its first failed call, with the error last. */
  predicate Shaped(es: seq<Event>) {
    StopsAtFailure(es) && ErrorEnds(es)
  }

  /** Every call succeeded and nothing is an error. */
  predicate Clean(es: seq<Event>) {
    forall i :: 0 <= i < |es| ==> (es[i].Invoked? ==> es[i].ok) && !IsError(es[i])
  }

  lemma CleanThenShaped(a: seq<Event>, b: seq<Event>)
    requires Clean(a) && Shaped(b)
    ensures Shaped(a + b)
  {
    var c := a + b;
    forall i, j | 0 <= i < j < |c| && c[i].Invoked? && !c[i].ok
      ensures !c[j].Invoked?
    {
      assert c[i] == b[i - |a|] && c[j] == b[j - |a|];
    }
    forall i | 0 <= i < |c| && IsError(c[i])
      ensures i == |c| - 1
    {
      assert c[i] == b[i - |a|];
    }
  }

  lemma QueryShaped(clip: AudioClip, s: Script)
    requires ValidScript(s)
    ensures Shaped(Query(clip, s).events)
  {
  }

  lemma DecodeShaped(clip: AudioClip, data: seq<byte>, s: Script, held: Held, stream: Option<StreamState>)
    requires ValidScript(s)
    ensures Shaped(Decode(clip, data, s, held, stream).events)
  {
    var e4 := Acquiring(CreateSound(WrapUInt32(|data|)), s.createSound.ok, s.createSound.handle, SoundHandle);
    var e5 := e4 + Acquiring(GetSubSound(0), s.getSubSound.ok, s.getSubSound.handle, SubSoundHandle);
    if s.createSound.ok && s.getSubSound.ok {
      QueryShaped(clip, s);
      CleanThenShaped(e5, Query(clip, s).events);
    }
  }

  lemma BodyShaped(clip: AudioClip, stream: Option<StreamState>, s: Script)
    requires ValidScript(s)
    ensures Shaped(Body(clip, stream, s).events)
  {
    if s.systemCreate.ok && s.init {
      var e2 := Acquiring(SystemCreate, true, s.systemCreate.handle, SystemHandle) + [Invoked(Init(1), true)];
      var raw := RawData(clip, stream);
      assert Clean(raw.log) && Shaped(raw.log);
      if raw.data.Some? {
        DecodingShaped(clip, stream, s);
      } else {
        CleanThenShaped(e2, raw.log);
      }
    }
  }

  lemma DecodingShaped(clip: AudioClip, stream: Option<StreamState>, s: Script)
    requires ValidScript(s)
    requires s.systemCreate.ok && s.init && RawData(clip, stream).data.Some?
    ensures Shaped(Body(clip, stream, s).events)
  {
    var e2 := Acquiring(SystemCreate, true, s.systemCreate.handle, SystemHandle) + [Invoked(Init(1), true)];
    var raw := RawData(clip, stream);
    var held := Held(s.systemCreate.handle, false, false);
    var d := Decode(clip, raw.data.value, s, held, raw.stream);
    assert Clean(e2 + raw.log);
    DecodeShaped(clip, raw.data.value, s, held, raw.stream);
    CleanThenShaped(e2 + raw.log, d.events);
    BodyWhenDecoding(clip, stream, s);
  }

  /**
   * In a whole session no call follows a failed one, and an error, once
   * logged, is followed by nothing but releases.
   */
  lemma FirstFailureEndsSession(clip: AudioClip, stream: Option<StreamState>, s: Script, i: int, j: int)
    requires ValidScript(s)
    requires var es := Session(clip, stream, s).events; 0 <= i < j < |es|
    ensures var es := Session(clip, stream, s).events;
      && (es[i].Invoked? && !es[i].ok ==> !es[j].Invoked?)
      && (IsError(es[i]) ==> es[j].Released?)
  {
    var b := Body(clip, stream, s);
    var es := Session(clip, stream, s).events;
    var r := Releases(b.held);
    BodyShaped(clip, stream, s);
    assert es == b.events + r;
    assert forall k :: 0 <= k < |r| ==> r[k].Released?;
    if j < |b.events| {
      assert es[i] == b.events[i] && es[j] == b.events[j];
    } else if i < |b.events| {
      assert es[j] == r[j - |b.events|];
    } else {
      assert es[i] == r[i - |b.events|] && es[j] == r[j - |b.events|];
    }
  }

  /** An event of the query-and-write stage. */
  predicate Late(e: Event) {
    || e.WriterDisposed?
    || (e.Invoked? && (e.call.GetFormat? || e.call.GetDefaults? || e.call.GetLength? || e.call.Lock? || e.call.Unlock?))
  }

  /**
   * The successful lock, the closing of the writer and the unlock, in that
   * order and with nothing between them, starting at position `k` of `es`.
   */
  predicate LockWriteUnlockAt(es: seq<Event>, k: int, length: int, a: int, b: int, ok: bool) {
    && 0 <= k && k + 2 < |es|
    && es[k] == Invoked(Lock(0, length), true)
    && es[k + 1] == WriterDisposed
    && es[k + 2] == Invoked(Unlock(a, b), ok)
  }

  /** Unlock is called, with len1 and len2, only right after a successful lock and the closing of the writer. */
  lemma QueryUnlock(clip: AudioClip, s: Script, a: int, b: int, ok: bool)
    requires ValidScript(s)
    requires Invoked(Unlock(a, b), ok) in Query(clip, s).events
    ensures s.format.Some? && s.defaults.Some? && s.length.Some? && s.lock.Some?
    ensures a == |s.lock.value.region1| && b == s.lock.value.len2 && ok == s.unlock
    ensures var q := Query(clip, s);
      && LockWriteUnlockAt(q.events, 3, s.length.value, a, b, ok)
      && q.recording == Some(Recording(s.format.value.numChannels, s.defaults.value,
                                       s.format.value.bitsPerSample, s.lock.value.region1))
  {
  }

  /** A successful lock is followed at once by the write and then the unlock. */
  lemma QueryLocked(clip: AudioClip, s: Script, l: int)
    requires ValidScript(s)
    requires Invoked(Lock(0, l), true) in Query(clip, s).events
    ensures s.format.Some? && s.defaults.Some? && s.length.Some? && s.lock.Some? && l == s.length.value
    ensures var q := Query(clip, s);
      && LockWriteUnlockAt(q.events, 3, l, |s.lock.value.region1|, s.lock.value.len2, s.unlock)
      && q.recording == Some(Recording(s.format.value.numChannels, s.defaults.value,
                                       s.format.value.bitsPerSample, s.lock.value.region1))
  {
  }

  /** The file is written exactly when the writer is closed. */
  lemma QueryWritesIffDisposed(clip: AudioClip, s: Script)
    requires ValidScript(s)
    ensures Query(clip, s).recording.Some? <==> WriterDisposed in Query(clip, s).events
  {
  }

  /** Whether a session gets as far as `getFormat`. */
  predicate Reached(clip: AudioClip, stream: Option<StreamState>, s: Script) {
    && s.systemCreate.ok && s.init && RawData(clip, stream).data.Some?
    && s.createSound.ok && s.getSubSound.ok
  }

  /** The events before `getFormat` in a session that gets that far. */
  function Preamble(clip: AudioClip, stream: Option<StreamState>): seq<Event>
    requires RawData(clip, stream).data.Some?
  {
    var raw := RawData(clip, stream);
    [Invoked(SystemCreate, true), Acquired(SystemHandle), Invoked(Init(1), true)]
    + raw.log
    + [Invoked(CreateSound(WrapUInt32(|raw.data.value|)), true), Acquired(SoundHandle),
       Invoked(GetSubSound(0), true), Acquired(SubSoundHandle)]
  }

  lemma SessionWhenQuerying(clip: AudioClip, stream: Option<StreamState>, s: Script)
    requires ValidScript(s) && Reached(clip, stream, s)
    ensures var q := Query(clip, s);
      var held := Held(true, true, true);
      Session(clip, stream, s) == Outcome(Preamble(clip, stream) + q.events + Releases(held), held, q.recording, RawData(clip, stream).stream)
  {
    BodyWhenDecoding(clip, stream, s);
  }

  lemma SessionBeforeQuery(clip: AudioClip, stream: Option<StreamState>, s: Script)
    requires ValidScript(s) && !Reached(clip, stream, s)
    ensures Session(clip, stream, s).recording.None?
    ensures forall e :: e in Session(clip, stream, s).events ==> !Late(e)
  {
    var raw := RawData(clip, stream);
    if s.systemCreate.ok && s.init && raw.data.Some? {
      DecodingBeforeQuery(clip, stream, s);
    } else {
      assert forall e :: e in raw.log ==> e.Logged?;
    }
  }

  lemma DecodingBeforeQuery(clip: AudioClip, stream: Option<StreamState>, s: Script)
    requires ValidScript(s) && !Reached(clip, stream, s)
    requires s.systemCreate.ok && s.init && RawData(clip, stream).data.Some?
    ensures Session(clip, stream, s).recording.None?
    ensures forall e :: e in Session(clip, stream, s).events ==> !Late(e)
  {
    var raw := RawData(clip, stream);
    assert forall e :: e in raw.log ==> e.Logged?;
    var held := Held(s.systemCreate.handle, false, false);
    DecodeBeforeQuery(clip, raw.data.value, s, held, raw.stream);
    BodyWhenDecoding(clip, stream, s);
  }

  /** A session writes `Query`'s file exactly when it gets as far as `getFormat`, and nothing otherwise. */
  lemma SessionWrites(clip: AudioClip, stream: Option<StreamState>, s: Script)
    requires ValidScript(s)
    ensures Session(clip, stream, s).recording == if Reached(clip, stream, s) then Query(clip, s).recording else None
  {
    if Reached(clip, stream, s) {
      SessionWhenQuerying(clip, stream, s);
    } else {
      SessionBeforeQuery(clip, stream, s);
    }
  }

  lemma DecodeBeforeQuery(clip: AudioClip, data: seq<byte>, s: Script, held: Held, stream: Option<StreamState>)
    requires ValidScript(s) && (!s.createSound.ok || !s.getSubSound.ok)
    ensures Decode(clip, data, s, held, stream).recording.None?
    ensures forall e :: e in Decode(clip, data, s, held, stream).events ==> !Late(e)
  {
  }

  /** In a session that gets as far as `getFormat`, the query stage starts right after the preamble. */
  lemma QueryAfterPreamble(clip: AudioClip, stream: Option<StreamState>, s: Script, i: int)
    requires ValidScript(s) && Reached(clip, stream, s) && 0 <= i < |Query(clip, s).events|
    ensures var es := Session(clip, stream, s).events;
      |Preamble(clip, stream)| + i < |es| && es[|Preamble(clip, stream)| + i] == Query(clip, s).events[i]
  {
    SessionWhenQuerying(clip, stream, s);
  }

  /** In a whole session, unlock is called, with len1 and len2, only right after a successful lock and a completed write. */
  lemma UnlockOnlyAfterLockAndWrite(clip: AudioClip, stream: Option<StreamState>, s: Script, a: int, b: int, ok: bool)
    requires ValidScript(s)
    requires Invoked(Unlock(a, b), ok) in Session(clip, stream, s).events
    ensures s.format.Some? && s.defaults.Some? && s.length.Some? && s.lock.Some?
    ensures a == |s.lock.value.region1| && b == s.lock.value.len2
    ensures var o := Session(clip, stream, s);
      && (exists k :: LockWriteUnlockAt(o.events, k, s.length.value, a, b, ok))
      && o.recording == Some(Recording(s.format.value.numChannels, s.defaults.value,
                                       s.format.value.bitsPerSample, s.lock.value.region1))
  {
    LateMeansReached(clip, stream, s, Invoked(Unlock(a, b), ok));
    LateInQuery(clip, stream, s, Invoked(Unlock(a, b), ok));
    QueryUnlock(clip, s, a, b, ok);
    var k := |Preamble(clip, stream)| + 3;
    QueryAfterPreamble(clip, stream, s, 3);
    QueryAfterPreamble(clip, stream, s, 4);
    QueryAfterPreamble(clip, stream, s, 5);
    assert LockWriteUnlockAt(Session(clip, stream, s).events, k, s.length.value, a, b, ok);
    SessionWhenQuerying(clip, stream, s);
  }

  /** In a whole session, a successful lock is followed at once by the write and then by the unlock, whatever the unlock returns. */
  lemma LockLeadsToWriteAndUnlock(clip: AudioClip, stream: Option<StreamState>, s: Script, l: int)
    requires ValidScript(s)
    requires Invoked(Lock(0, l), true) in Session(clip, stream, s).events
    ensures s.format.Some? && s.defaults.Some? && s.length.Some? && s.lock.Some? && l == s.length.value
    ensures var o := Session(clip, stream, s);
      && (exists k :: LockWriteUnlockAt(o.events, k, l, |s.lock.value.region1|, s.lock.value.len2, s.unlock))
      && o.recording == Some(Recording(s.format.value.numChannels, s.defaults.value,
                                       s.format.value.bitsPerSample, s.lock.value.region1))
  {
    LateMeansReached(clip, stream, s, Invoked(Lock(0, l), true));
    LateInQuery(clip, stream, s, Invoked(Lock(0, l), true));
    QueryLocked(clip, s, l);
    var k := |Preamble(clip, stream)| + 3;
    QueryAfterPreamble(clip, stream, s, 3);
    QueryAfterPreamble(clip, stream, s, 4);
    QueryAfterPreamble(clip, stream, s, 5);
    assert LockWriteUnlockAt(Session(clip, stream, s).events, k, l, |s.lock.value.region1|, s.lock.value.len2, s.unlock);
    SessionWhenQuerying(clip, stream, s);
  }

  /** A failed unlock is the last call of the stage, followed only by its error. */
  lemma QueryUnlockFails(clip: AudioClip, s: Script)
    requires ValidScript(s) && s.format.Some? && s.defaults.Some? && s.length.Some? && s.lock.Some? && !s.unlock
    ensures var q := Query(clip, s).events;
      var r := s.lock.value;
      |q| >= 2 && q[|q| - 2..] == [Invoked(Unlock(|r.region1|, r.len2), false), Failure("unlock", clip)]
  {
  }

  /** The last elements of q are the last elements of p + q + r before r. */
  lemma EndsWith(p: seq<Event>, q: seq<Event>, r: seq<Event>, t: seq<Event>)
    requires |t| <= |q| && q[|q| - |t|..] == t
    ensures var c := p + q + r; |c| >= |t| + |r| && c[|c| - |t| - |r|..] == t + r
  {
    var c := p + q + r;
    var k := |c| - |t| - |r|;
    assert |c[k..]| == |t + r|;
    forall i | 0 <= i < |t + r|
      ensures c[k..][i] == (t + r)[i]
    {
      if i < |t| {
        assert c[k + i] == q[|q| - |t| + i];
      } else {
        assert c[k + i] == r[i - |t|];
      }
    }
  }

  /** A session that records a late event got as far as `getFormat`. */
  lemma LateMeansReached(clip: AudioClip, stream: Option<StreamState>, s: Script, e: Event)
    requires ValidScript(s) && Late(e) && e in Session(clip, stream, s).events
    ensures Reached(clip, stream, s)
  {
    if !Reached(clip, stream, s) {
      SessionBeforeQuery(clip, stream, s);
      assert false;
    }
  }

  /** In a session that gets that far, the late events are those of `Query`. */
  lemma LateInQuery(clip: AudioClip, stream: Option<StreamState>, s: Script, e: Event)
    requires ValidScript(s) && Reached(clip, stream, s) && Late(e)
    ensures e in Session(clip, stream, s).events <==> e in Query(clip, s).events
  {
    SessionWhenQuerying(clip, stream, s);
    PreambleEarly(clip, stream);
  }

  /** Nothing before `getFormat` is a late event. */
  lemma PreambleEarly(clip: AudioClip, stream: Option<StreamState>)
    requires RawData(clip, stream).data.Some?
    ensures forall x :: x in Preamble(clip, stream) ==> !Late(x)
  {
    assert forall x :: x in RawData(clip, stream).log ==> x.Logged?;
  }

  /**
   * A failed unlock is only logged: the file stays written, and the session
   * ends with the error and then all three releases.
   */
  lemma UnlockFailureOnlyLogged(clip: AudioClip, stream: Option<StreamState>, s: Script, a: int, b: int)
    requires ValidScript(s)
    requires Invoked(Unlock(a, b), false) in Session(clip, stream, s).events
    ensures var es := Session(clip, stream, s).events;
      && |es| >= 5
      && es[|es| - 5..] == [Invoked(Unlock(a, b), false), Failure("unlock", clip),
                            Released(SubSoundHandle), Released(SoundHandle), Released(SystemHandle)]
    ensures Session(clip, stream, s).recording.Some?
  {
    LateMeansReached(clip, stream, s, Invoked(Unlock(a, b), false));
    SessionWhenQuerying(clip, stream, s);
    var q := Query(clip, s).events;
    LateInQuery(clip, stream, s, Invoked(Unlock(a, b), false));
    QueryUnlock(clip, s, a, b, false);
    QueryUnlockFails(clip, s);
    EndsWith(Preamble(clip, stream), q, Releases(Held(true, true, true)),
             [Invoked(Unlock(a, b), false), Failure("unlock", clip)]);
  }

  /** In a whole session, a file is written exactly when the writer is opened and closed. */
  lemma WritesIffWriterDisposed(clip: AudioClip, stream: Option<StreamState>, s: Script)
    requires ValidScript(s)
    ensures Session(clip, stream, s).recording.Some? <==> WriterDisposed in Session(clip, stream, s).events
  {
    if Reached(clip, stream, s) {
      SessionWhenQuerying(clip, stream, s);
      assert forall e :: e in RawData(clip, stream).log ==> e.Logged?;
      QueryWritesIffDisposed(clip, s);
    } else {
      SessionBeforeQuery(clip, stream, s);
      assert WriterDisposed !in Session(clip, stream, s).events;
    }
  }

  /** `createSound` is handed the length of the located payload. */
  lemma CreateSoundGetsPayloadLength(clip: AudioClip, stream: Option<StreamState>, s: Script, n: int, ok: bool)
    requires ValidScript(s)
    requires Invoked(CreateSound(n), ok) in Session(clip, stream, s).events
    ensures RawData(clip, stream).data.Some? && n == WrapUInt32(|RawData(clip, stream).data.value|)
  {
    var raw := RawData(clip, stream);
    var b := Body(clip, stream, s);
    var e := Invoked(CreateSound(n), ok);
    assert Session(clip, stream, s).events == b.events + Releases(b.held);
    assert e in b.events;
    if s.systemCreate.ok && s.init && raw.data.Some? {
      DecodingCreateSound(clip, stream, s, n, ok);
    } else {
      BodyBeforeDecoding(clip, stream, s);
      assert false;
    }
  }

  lemma DecodingCreateSound(clip: AudioClip, stream: Option<StreamState>, s: Script, n: int, ok: bool)
    requires ValidScript(s)
    requires s.systemCreate.ok && s.init && RawData(clip, stream).data.Some?
    requires Invoked(CreateSound(n), ok) in Body(clip, stream, s).events
    ensures n == WrapUInt32(|RawData(clip, stream).data.value|)
  {
    var raw := RawData(clip, stream);
    var held := Held(s.systemCreate.handle, false, false);
    var d := Decode(clip, raw.data.value, s, held, raw.stream);
    assert forall x :: x in raw.log ==> x.Logged?;
    BodyWhenDecoding(clip, stream, s);
    assert Invoked(CreateSound(n), ok) in d.events;
    DecodeCreateSound(clip, raw.data.value, s, held, raw.stream, n, ok);
  }

  lemma DecodeCreateSound(clip: AudioClip, data: seq<byte>, s: Script, held: Held, stream: Option<StreamState>, n: int, ok: bool)
    requires ValidScript(s)
    requires Invoked(CreateSound(n), ok) in Decode(clip, data, s, held, stream).events
    ensures n == WrapUInt32(|data|)
  {
    assert forall e :: e in Query(clip, s).events ==> !e.Invoked? || Late(e);
  }

  /**
   * What a session leaves in the file: nothing, or the 44-byte header and
   * the bytes of lock region 1, which parse back to the sub-sound's format
   * and those bytes.
   */
  lemma WrittenFileParses(clip: AudioClip, stream: Option<StreamState>, s: Script)
    requires ValidScript(s)
    ensures Session(clip, stream, s).recording.None? ==> Output(Session(clip, stream, s)) == []
    ensures Session(clip, stream, s).recording.Some? ==>
      && s.format.Some? && s.defaults.Some? && s.lock.Some?
      && var out := Output(Session(clip, stream, s));
         var f := s.format.value;
         var region1 := s.lock.value.region1;
         && |out| == HeaderSize + |region1| && out[HeaderSize..] == region1
         && ParseWave(out) == Some(WaveInfo(
              (|region1| + 36) % TwoTo32,
              f.numChannels % TwoTo16,
              s.defaults.value % TwoTo32,
              ByteRate(s.defaults.value, f.numChannels, f.bitsPerSample) % TwoTo32,
              BlockAlign(f.numChannels, f.bitsPerSample) % TwoTo16,
              f.bitsPerSample % TwoTo16,
              region1))
  {
    var o := Session(clip, stream, s);
    if o.recording.Some? {
      if !Reached(clip, stream, s) {
        SessionBeforeQuery(clip, stream, s);
        assert false;
      }
      SessionWhenQuerying(clip, stream, s);
      var r := o.recording.value;
      ParseWaveFile(r.numChannels, r.sampleRate, r.bitsPerSample, r.samples);
    }
  }

  /** `Body` on its exits before `createSound`. */
  lemma BodyBeforeDecoding(clip: AudioClip, stream: Option<StreamState>, s: Script)
    requires ValidScript(s)
    ensures var e1 := Acquiring(SystemCreate, s.systemCreate.ok, s.systemCreate.handle, SystemHandle);
      var held := Held(s.systemCreate.handle, false, false);
      && (!s.systemCreate.ok ==>
            Body(clip, stream, s) == Outcome(e1 + [Failure("create factory", clip)], held, None, stream))
      && (s.systemCreate.ok && !s.init ==>
            Body(clip, stream, s) == Outcome(e1 + [Invoked(Init(1), false)] + [Failure("init system", clip)], held, None, stream))
      && (s.systemCreate.ok && s.init && RawData(clip, stream).data.None? ==>
            Body(clip, stream, s) == Outcome(e1 + [Invoked(Init(1), true)] + RawData(clip, stream).log, held, None, RawData(clip, stream).stream))
  {
  }

  /** `Decode` on its exits before `getFormat`, and when it reaches it. */
  lemma DecodeExits(clip: AudioClip, data: seq<byte>, s: Script, held: Held, stream: Option<StreamState>)
    requires ValidScript(s)
    ensures var e4 := Acquiring(CreateSound(WrapUInt32(|data|)), s.createSound.ok, s.createSound.handle, SoundHandle);
      var e5 := e4 + Acquiring(GetSubSound(0), s.getSubSound.ok, s.getSubSound.handle, SubSoundHandle);
      var d := Decode(clip, data, s, held, stream);
      && (!s.createSound.ok ==>
            d == Outcome(e4 + [Failure("create sound", clip)], held.(sound := s.createSound.handle), None, stream))
      && (s.createSound.ok && !s.getSubSound.ok ==>
            d == Outcome(e5 + [Failure("get subsound", clip)], held.(sound := true, subsound := s.getSubSound.handle), None, stream))
      && (s.createSound.ok && s.getSubSound.ok ==>
            d == Outcome(e5 + Query(clip, s).events, held.(sound := true, subsound := true), Query(clip, s).recording, stream))
  {
  }

  /** `Decode` carries the system handle and the resources stream through untouched. */
  lemma DecodePassesThrough(clip: AudioClip, data: seq<byte>, s: Script, held: Held, stream: Option<StreamState>)
    requires ValidScript(s) && !held.sound && !held.subsound
    ensures var d := Decode(clip, data, s, held, stream);
      var d0 := Decode(clip, data, s, Held(false, false, false), None);
      d == d0.(held := d0.held.(system := held.system), stream := stream)
  {
  }
}
