/**
 * The exporter itself: the name policy, `ExportAudioClip` (the decode
 * session against the engine, then the `finally` releases) and `Export`,
 * which picks between the WAVE path and the raw binary dump.
 */
module AudioAssetExporter {
  import opened Wrappers
  import opened Bytes
  import opened CSharpInts
  import opened AudioClips
  import opened FormatClassifier
  import opened Events
  import opened RawPayload
  import opened Wave
  import opened DecodeSession
  import opened Fmod

  // ----- File names -----

  /** Directory separators of the Windows path API: `\`, `/` and the volume separator `:`. */
  const Separators: set<char> := {'\\', '/', ':'}

  /** Index of the last character of `s` in `cs`, or -1 when there is none. */
  function LastIndexIn(s: string, cs: set<char>): (r: int)
    ensures -1 <= r < |s|
    ensures r >= 0 ==> s[r] in cs
    ensures forall k :: r < k < |s| ==> s[k] !in cs
  {
    if |s| == 0 then -1
    else if s[|s| - 1] in cs then |s| - 1
    else LastIndexIn(s[..|s| - 1], cs)
  }

  /**
   * `Path.GetFileName`: the longest suffix of `path` without a separator,
   * that is, what follows the last separator, or all of `path`.
   */
  function FileName(path: string): (r: string)
    ensures |r| <= |path| && r == path[|path| - |r|..]
    ensures forall k :: 0 <= k < |r| ==> r[k] !in Separators
    ensures |r| < |path| ==> path[|path| - |r| - 1] in Separators
  {
    path[LastIndexIn(path, Separators) + 1..]
  }

  /** Cutting a name before its last '.', if any, keeps the part before that '.'. */
  predicate CutAtLastDot(name: string, r: string) {
    && |r| <= |name| && r == name[..|r|]
    && (|r| == |name| ==> forall k :: 0 <= k < |name| ==> name[k] != '.')
    && (|r| < |name| ==> name[|r|] == '.' && forall k :: |r| < k < |name| ==> name[k] != '.')
  }

  /** The cut at the last '.' that `LastIndexIn` finds is `CutAtLastDot`, and keeps a name free of separators. */
  lemma CutAtDot(name: string, dot: int)
    requires -1 <= dot < |name| && (dot >= 0 ==> name[dot] == '.')
    requires forall k :: dot < k < |name| ==> name[k] != '.'
    requires forall k :: 0 <= k < |name| ==> name[k] !in Separators
    ensures var r := if dot < 0 then name else name[..dot];
      CutAtLastDot(name, r) && forall k :: 0 <= k < |r| ==> r[k] !in Separators
  {
  }

  /**
   * `Path.GetFileNameWithoutExtension`: the file name up to its last '.',
   * or the whole file name when it has no '.'.
   */
  function Stem(path: string): (r: string)
    ensures CutAtLastDot(FileName(path), r)
    ensures forall k :: 0 <= k < |r| ==> r[k] !in Separators
  {
    var name := FileName(path);
    var dot := LastIndexIn(name, {'.'});
    CutAtDot(name, dot);
    if dot < 0 then name else name[..dot]
  }

  /** The name a supported clip is written under: the stem of the unique name, with ".wav". */
  function WavName(uniqueName: string): string {
    Stem(uniqueName) + ".wav"
  }

  /** A path without separators is its own file name. */
  lemma FileNameOfPlainName(w: string)
    requires forall k :: 0 <= k < |w| ==> w[k] !in Separators
    ensures FileName(w) == w
  {
    var r := FileName(w);
    if |r| < |w| {
      assert false;
    }
  }

  /** A file name whose last '.' sits at `n` has the stem `w[..n]`. */
  lemma StemAtLastDot(w: string, n: int)
    requires FileName(w) == w
    requires 0 <= n < |w| && w[n] == '.'
    requires forall k :: n < k < |w| ==> w[k] != '.'
    ensures Stem(w) == w[..n]
  {
  }

  /** Appending ".wav" to a name without separators gives a file whose stem is that name. */
  lemma StemOfWav(stem: string)
    requires forall k :: 0 <= k < |stem| ==> stem[k] !in Separators
    ensures Stem(stem + ".wav") == stem
  {
    var w := stem + ".wav";
    var n := |stem|;
    assert w[n] == '.' && w[n + 1] == 'w' && w[n + 2] == 'a' && w[n + 3] == 'v';
    forall k | 0 <= k < |w|
      ensures w[k] !in Separators
    {
      if k < n {
        assert w[k] == stem[k];
      }
    }
    FileNameOfPlainName(w);
    StemAtLastDot(w, n);
    assert w[..n] == stem;
  }

  /** Forcing ".wav" keeps the stem, so forcing twice changes nothing. */
  lemma WavNameKeepsStem(uniqueName: string)
    ensures Stem(WavName(uniqueName)) == Stem(uniqueName)
    ensures WavName(WavName(uniqueName)) == WavName(uniqueName)
  {
    StemOfWav(Stem(uniqueName));
  }

  // ----- ExportAudioClip -----

  /**
   * Regrouping the trace after one more stage. Stated once here so that each
   * method below gets this single instance rather than reasoning about
   * concatenation in its whole context.
   */
  lemma AppendEvents(start: seq<Event>, p: seq<Event>, x: seq<Event>)
    ensures start + p + x == start + (p + x)
  {
  }

  /**
   * `ExportAudioClip`: the `try` block, then the `finally` block releasing
   * the sub-sound, the sound and the system, each when non-null.
   */
  method ExportAudioClip(file: FileStream, clip: AudioClip, res: ResourcesFile?, engine: Engine)
    requires ValidScript(engine.script)
    modifies file, engine.trace, if res == null then {} else {res.stream}
    ensures var o := Session(clip, old(StateOf(res)), engine.script);
      && engine.trace.events == old(engine.trace.events) + o.events
      && file.contents == old(file.contents) + Output(o)
      && StateOf(res) == o.stream
  {
    ghost var b := Body(clip, StateOf(res), engine.script);
    var system, sound, subsound := TryBlock(file, clip, res, engine);
    ghost var mid := engine.trace.events;
    if subsound {
      engine.Release(SubSoundHandle);
    }
    if sound {
      engine.Release(SoundHandle);
    }
    if system {
      engine.Release(SystemHandle);
    }
    assert engine.trace.events == mid + Releases(b.held);
    AppendEvents(old(engine.trace.events), b.events, Releases(b.held));
  }

  /** The `try` block up to the payload; the rest is `Decoding`. */
  method TryBlock(file: FileStream, clip: AudioClip, res: ResourcesFile?, engine: Engine)
    returns (system: bool, sound: bool, subsound: bool)
    requires ValidScript(engine.script)
    modifies file, engine.trace, if res == null then {} else {res.stream}
    ensures var b := Body(clip, old(StateOf(res)), engine.script);
      && engine.trace.events == old(engine.trace.events) + b.events
      && b.held == Held(system, sound, subsound)
      && file.contents == old(file.contents) + Output(b)
      && StateOf(res) == b.stream
  {
    ghost var start := engine.trace.events;
    ghost var stream := StateOf(res);
    ghost var s := engine.script;
    BodyBeforeDecoding(clip, stream, s);
    sound, subsound := false, false;
    var ok;
    ok, system := engine.SystemCreate();
    ghost var e := Acquiring(Call.SystemCreate, ok, system, SystemHandle);
    if !ok {
      Log(engine.trace, Error, FailureMessage("create factory", clip));
      AppendEvents(start, e, [Failure("create factory", clip)]);
      return;
    }
    ok := engine.Init(1);
    AppendEvents(start, e, [Invoked(Call.Init(1), ok)]);
    e := e + [Invoked(Call.Init(1), ok)];
    if !ok {
      Log(engine.trace, Error, FailureMessage("init system", clip));
      AppendEvents(start, e, [Failure("init system", clip)]);
      return;
    }
    var data := GetRawData(clip, res, engine.trace);
    ghost var raw := RawData(clip, stream);
    AppendEvents(start, e, raw.log);
    e := e + raw.log;
    if data.None? {
      return;
    }
    BodyWhenDecoding(clip, stream, s);
    ghost var d := Decode(clip, data.value, s, Held(system, false, false), raw.stream);
    sound, subsound := Decoding(file, clip, data.value, engine);
    DecodePassesThrough(clip, data.value, s, Held(system, false, false), raw.stream);
    AppendEvents(start, e, d.events);
  }

  /** The `try` block from `createSound` to the end of `getSubSound`; the rest is `Querying`. */
  method Decoding(file: FileStream, clip: AudioClip, data: seq<byte>, engine: Engine)
    returns (sound: bool, subsound: bool)
    requires ValidScript(engine.script)
    modifies file, engine.trace
    ensures var d := Decode(clip, data, engine.script, Held(false, false, false), None);
      && engine.trace.events == old(engine.trace.events) + d.events
      && d.held.sound == sound && d.held.subsound == subsound
      && file.contents == old(file.contents) + Output(d)
  {
    ghost var start := engine.trace.events;
    ghost var s := engine.script;
    DecodeExits(clip, data, s, Held(false, false, false), None);
    subsound := false;
    var ok;
    ok, sound := engine.CreateSound(data, WrapUInt32(|data|));
    ghost var e := Acquiring(Call.CreateSound(WrapUInt32(|data|)), ok, sound, SoundHandle);
    if !ok {
      Log(engine.trace, Error, FailureMessage("create sound", clip));
      AppendEvents(start, e, [Failure("create sound", clip)]);
      return;
    }
    ok, subsound := engine.GetSubSound(0);
    AppendEvents(start, e, Acquiring(Call.GetSubSound(0), ok, subsound, SubSoundHandle));
    e := e + (Acquiring(Call.GetSubSound(0), ok, subsound, SubSoundHandle));
    if !ok {
      Log(engine.trace, Error, FailureMessage("get subsound", clip));
      AppendEvents(start, e, [Failure("get subsound", clip)]);
      return;
    }
    Querying(file, clip, engine);
    AppendEvents(start, e, Query(clip, s).events);
  }

  /** The `try` block from `getFormat` on: the queries, the lock, the WAVE file and the unlock. */
  method Querying(file: FileStream, clip: AudioClip, engine: Engine)
    requires ValidScript(engine.script)
    modifies file, engine.trace
    ensures var q := Query(clip, engine.script);
      && engine.trace.events == old(engine.trace.events) + q.events
      && file.contents == old(file.contents) + FileBytes(q.recording)
  {
    var ok, numChannels, bitsPerSample := engine.GetFormat();
    if !ok {
      Log(engine.trace, Error, FailureMessage("get format", clip));
      return;
    }
    var sampleRate;
    ok, sampleRate := engine.GetDefaults();
    if !ok {
      Log(engine.trace, Error, FailureMessage("get defaults", clip));
      return;
    }
    var length;
    ok, length := engine.GetLength();
    if !ok {
      Log(engine.trace, Error, FailureMessage("get length", clip));
      return;
    }
    var region1, len2;
    ok, region1, len2 := engine.Lock(0, length);
    if !ok {
      Log(engine.trace, Error, FailureMessage("lock", clip));
      return;
    }
    var writer := new BinaryWriter(file);
    WriteWave(writer, numChannels, sampleRate, bitsPerSample, region1);
    engine.trace.Record(WriterDisposed);
    ok := engine.Unlock(|region1|, len2);
    if !ok {
      Log(engine.trace, Error, FailureMessage("unlock", clip));
    }
  }
  // ----- Export -----

  /**
   * The warning logged for a clip whose format has no WAVE conversion: a
   * fixed prefix and suffix around the format's name, which can be read
   * back out of the message.
   */
  function UnsupportedMessage(clip: AudioClip): (r: string)
    ensures |r| == |GetAudioType(clip)| + 31
    ensures r[..15] == "AudioClip type " && r[|r| - 16..] == " isn't supported"
    ensures r[15..|r| - 16] == GetAudioType(clip)
  {
    "AudioClip type " + GetAudioType(clip) + " isn't supported"
  }

  /**
   * `Export`: a supported clip is decoded to a WAVE file named after the
   * stem of its unique name with ".wav"; any other clip keeps its unique
   * name, is logged as unsupported and receives the raw dump `binary` that
   * `ExportBinary` would write. The result says which of the two happened.
   * The unique name, chosen by `GetUniqueFileName`, is a parameter.
   */
  method Export(clip: AudioClip, uniqueName: string, binary: seq<byte>, res: ResourcesFile?, engine: Engine)
    returns (supported: bool, fileName: string, file: FileStream)
    requires ValidScript(engine.script)
    modifies engine.trace, if res == null then {} else {res.stream}
    ensures supported == IsSupported(clip)
    ensures fileName == if supported then WavName(uniqueName) else uniqueName
    ensures fresh(file)
    ensures supported ==> var o := Session(clip, old(StateOf(res)), engine.script);
      && engine.trace.events == old(engine.trace.events) + o.events
      && file.contents == Output(o)
      && StateOf(res) == o.stream
    ensures !supported ==>
      && engine.trace.events == old(engine.trace.events) + [Logged(Warning, UnsupportedMessage(clip))]
      && file.contents == binary
      && StateOf(res) == old(StateOf(res))
  {
    fileName := uniqueName;
    if IsSupported(clip) {
      fileName := WavName(fileName);
    }
    file := new FileStream();
    if IsSupported(clip) {
      ExportAudioClip(file, clip, res, engine);
    } else {
      Log(engine.trace, Warning, UnsupportedMessage(clip));
      file.contents := file.contents + binary;
    }
    supported := IsSupported(clip);
  }
}
