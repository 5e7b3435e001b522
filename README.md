# Audio clip exporter, modelled in Dafny

This project models the audio clip export pipeline of UnityRipperFull's `AudioAssetExporter`. The model covers five parts:

- **Format classifier** (`IsSupported`, `GetAudioType`). A version gate chooses between a clip's FMOD sound type and its Unity compression format. The chosen tag is then checked against a fixed whitelist of twelve or ten values.
- **Raw payload locator** (`GetRawData`). The compressed bytes are either inline in the clip or read from a sibling resources file. For a resources file, its shared stream is moved to the resource's offset and the resource's size is read.
- **WAVE serialiser** (the `using` block of `ExportAudioClip`). It writes the 44-byte canonical PCM header and then the bytes of the first lock region, one at a time.
- **Decode-session lifecycle** (the `try`/`finally` of `ExportAudioClip`). This is a chain of FMOD calls that can each fail. Every failure logs an error and returns. The `finally` block then releases the sub-sound, the sound and the system, each only when non-null.
- **`Export` decision**. A supported clip gets the unique name's stem plus ".wav" and is decoded. An unsupported clip keeps its name, is logged as unsupported and is dumped raw. The result is `IsSupported`.

Each part has its own form:
- The classifier and the payload's outcome are functions.
- The resources stream, the output file, the binary writer, the trace and the FMOD engine are classes whose methods update fields.
- `GetRawData`, the header writer, the byte-copy loop, `ExportAudioClip` and `Export` are methods. Each method is proved against a specification function:
  - `RawData`, `WaveHeader` and `WaveFile` specify the payload and the written bytes;
  - `Query`, `Decode`, `Body` and `Session` specify the whole event trace of a decode session.

The lemmas prove properties of those functions:
- every acquired handle is released exactly once, never-acquired ones are never released, and releases run in reverse order;
- a session stops at its first failure;
- unlock happens only after a successful lock and a completed write;
- the written file parses back to the sub-sound's format and the locked bytes;
- the classifier's partition is exact.

FMOD is a `Script`: a record of the result of every call, fixed in advance. The `Engine` class answers from it and appends each call, and each handle it hands out, to a shared `Trace`. The logger appends to the same trace, so one event sequence records the order of calls, acquisitions, errors and releases.

Where the C# integer semantics matter, they are written out:
- `(uint)` casts and the unchecked `len1 + 36` wrap modulo 2^32;
- the byte-rate product wraps as an `int`;
- `(short)` casts truncate to 16 bits;
- `/` truncates toward zero;
- `BinaryWriter` stores two's-complement little-endian bytes.

Three behaviours of the code are worth stating outright:
- **Unlock and exceptions.** `unlock` is called after the `using` block, not inside the `finally`, so an exception while writing would skip it. The model has no exceptions, so the write always completes.
- **Read length.** `GetRawData` allocates `Size` bytes and ignores the count that `Stream.Read` returns, so the buffer always has `Size` bytes. Past the end of the stream those bytes stay zero (`ReadWindow`).
- **Failed decode.** When a step before the write fails, the already-created `.wav` file stays empty and `Export` still returns true; there is no raw dump on that path. A failed `unlock` comes after the write, so the file is complete and only the error is logged. `Export` models exactly that.

## Model

| member | source | states |
|---|---|---|
| FormatClassifier.SelectedTag | UnityRipperFull/Exporters/AudioAssetExporter.cs:68-70 | The version gate picks the FMOD sound type exactly when `IsReadType` holds, and the compression format otherwise |
| FormatClassifier.IsSupported | UnityRipperFull/Exporters/AudioAssetExporter.cs:66-108 | A clip is supported exactly when the tag the gate selects is in that tag family's whitelist |
| FormatClassifier.GetAudioType | UnityRipperFull/Exporters/AudioAssetExporter.cs:110-120 | The reported name is the `ToString` of the tag selected by the same gate as `IsSupported` |
| FormatClassifier.WhitelistSizes | UnityRipperFull/Exporters/AudioAssetExporter.cs:72-103 | The sound-type whitelist has exactly twelve members and the compression-format whitelist exactly ten |
| FormatClassifier.ModernRefusesOnlyUndeclared | UnityRipperFull/Exporters/AudioAssetExporter.cs:89-106 | In newer containers, a clip is refused if and only if its compression format is a value no enum member names |
| FormatClassifier.UndeclaredReportedByNumber | UnityRipperFull/Exporters/AudioAssetExporter.cs:110-120 | The name is numeric exactly when the selected tag is undeclared. It then parses back to that tag's number; a declared member's name never parses as a number |
| AudioClips.ParseIntToString | UnityRipperFull/Exporters/AudioAssetExporter.cs:114-118 | The decimal form `ToString` gives an undeclared enum value parses back to that value |
| AudioClips.SoundTypeName | UnityRipperFull/Exporters/AudioAssetExporter.cs:114 | `Type.ToString()`: a declared member is rendered by a name starting with a capital letter, and an unnamed value by its decimal number, which parses back to that value |
| AudioClips.FormatName | UnityRipperFull/Exporters/AudioAssetExporter.cs:118 | `CompressionFormat.ToString()`: the same for the compression formats, a capitalised name for a member and the parseable number for an unnamed value |
| AudioClips.SoundTypeNameReadsBack | UnityRipperFull/Exporters/AudioAssetExporter.cs:114 | Every sound type, declared or not, is read back from the name `ToString` gives it: a member's name by its first letter and spelling, an unnamed value by its number |
| AudioClips.UnnamedSoundTypeReadsBack | UnityRipperFull/Exporters/AudioAssetExporter.cs:114 | A sound-type value no member names is read back from its decimal rendering |
| AudioClips.SoundTypeNamesDistinct | UnityRipperFull/Exporters/AudioAssetExporter.cs:114 | Two sound types with the same name are the same type, so the warning at line 52 identifies the type |
| AudioClips.FormatNameReadsBack | UnityRipperFull/Exporters/AudioAssetExporter.cs:118 | Every compression format, declared or not, is read back from the name `ToString` gives it |
| AudioClips.FormatNamesDistinct | UnityRipperFull/Exporters/AudioAssetExporter.cs:118 | Two compression formats with the same name are the same format, so the warning at line 52 identifies the format |
| AudioClips.ParsedNotCapitalised | UnityRipperFull/Exporters/AudioAssetExporter.cs:114-118 | A string that parses as a number does not start with a capital letter, so a number never reads like a member's name |
| RawPayload.ReadWindow | UnityRipperFull/Exporters/AudioAssetExporter.cs:136-137 | The buffer has exactly `Size` bytes. Byte i is the stream byte at `Offset + i`, or 0 past the stream's end |
| RawPayload.RawData | UnityRipperFull/Exporters/AudioAssetExporter.cs:122-150 | Four outcomes:<br>• without load type: the inline `AudioData`, with the stream untouched and nothing logged;<br>• missing resources file: null and a not-found warning;<br>• no size field: null, the stream already at `Offset`, and an unknown-size warning;<br>• otherwise: the `Size`-byte window from `Offset`, with the position advanced by at most `Size` and the bytes unchanged |
| RawPayload.Stream.SetPosition | UnityRipperFull/Exporters/AudioAssetExporter.cs:133 | The stream's position becomes the offset |
| RawPayload.Stream.Read | UnityRipperFull/Exporters/AudioAssetExporter.cs:137 | Delivers the available bytes (at most `count`) into the buffer at `offset`. The rest of the buffer is unchanged, and the position advances by the count delivered |
| RawPayload.GetRawData | UnityRipperFull/Exporters/AudioAssetExporter.cs:122-150 | The returned bytes, the resources stream's new state and the warnings logged are exactly what `RawData` gives for the stream's state before the call |
| CSharpInts.WrapUInt32 | UnityRipperFull/Exporters/AudioAssetExporter.cs:182 | The `(uint)` cast and unchecked `uint` sum: the unsigned 32-bit value congruent modulo 2^32, which equals the input when it already fits |
| CSharpInts.WrapInt32 | UnityRipperFull/Exporters/AudioAssetExporter.cs:235 | The unchecked `int` product: the signed 32-bit value congruent modulo 2^32, which equals the input when it already fits |
| CSharpInts.ToInt16 | UnityRipperFull/Exporters/AudioAssetExporter.cs:232-237 | The `(short)` cast: the signed 16-bit value congruent modulo 2^16 |
| CSharpInts.Div | UnityRipperFull/Exporters/AudioAssetExporter.cs:235-236 | C# integer division by 8: the quotient truncated toward zero, for both signs of the dividend |
| CSharpInts.Int16BytesOfCast | UnityRipperFull/Exporters/AudioAssetExporter.cs:232-237 | Writing `(short)x` stores the two little-endian bytes of x modulo 2^16 |
| CSharpInts.Int32BytesRead | UnityRipperFull/Exporters/AudioAssetExporter.cs:231-235 | An `int` written by `BinaryWriter` is four bytes and reads back unsigned as the value modulo 2^32, which is the value itself when it is non-negative |
| Bytes.Ascii | UnityRipperFull/Exporters/AudioAssetExporter.cs:228-238 | The UTF-8 bytes of an ASCII tag: one byte per character, equal to its code |
| Bytes.DecodeLE16 | UnityRipperFull/Exporters/AudioAssetExporter.cs:232-237 | A 16-bit value written little-endian takes two bytes and reads back unchanged |
| Bytes.DecodeLE32 | UnityRipperFull/Exporters/AudioAssetExporter.cs:229-239 | A 32-bit value written little-endian takes four bytes and reads back unchanged |
| Bytes.EncodeU16 | UnityRipperFull/Exporters/AudioAssetExporter.cs:232-237 | Re-encoding the 16-bit value read at any position gives back the same two bytes |
| Bytes.EncodeU32 | UnityRipperFull/Exporters/AudioAssetExporter.cs:229-239 | Re-encoding the 32-bit value read at any position gives back the same four bytes |
| Wave.ByteRate | UnityRipperFull/Exporters/AudioAssetExporter.cs:235 | `sampleRate * numChannels * bitsPerSample / 8` in unchecked `int` arithmetic is an `int` |
| Wave.BlockAlign | UnityRipperFull/Exporters/AudioAssetExporter.cs:236 | `(short)(numChannels * bitsPerSample / 8)` is a `short` |
| Wave.WaveHeader | UnityRipperFull/Exporters/AudioAssetExporter.cs:228-239 | The header is exactly 44 bytes |
| Wave.HeaderLayout | UnityRipperFull/Exporters/AudioAssetExporter.cs:228-239 | Where each header field sits:<br>• "RIFF", then the size `len1 + 36`;<br>• "WAVEfmt ", then 16 and format tag 1;<br>• channels, sample rate, byte rate, block align and bits per sample;<br>• "data", then `len1`. |
| Wave.HeaderValues | UnityRipperFull/Exporters/AudioAssetExporter.cs:228-239 | An unsigned little-endian reader finds in the header the wrapped values of every field |
| Wave.WaveFile | UnityRipperFull/Exporters/AudioAssetExporter.cs:226-245 | The file is `44 + len1` bytes long, and what follows the header is region 1 verbatim, with no pad byte |
| Wave.ParseWave | UnityRipperFull/Exporters/AudioAssetExporter.cs:228-245 | A reference reader for canonical PCM WAVE files. Its data is the slice right after the header, and its fields are within their unsigned widths |
| Wave.ParseWaveFile | UnityRipperFull/Exporters/AudioAssetExporter.cs:228-245 | Round trip: the written file parses back to the format fields (modulo their widths), the derived fields and region 1's bytes |
| Wave.DerivedFields | UnityRipperFull/Exporters/AudioAssetExporter.cs:228-245 | Without overflow, the parsed file recovers the channels, sample rate, bits per sample and `len1` exactly. Its byte rate and block align then equal the formulas |
| Wave.ByteRateExact | UnityRipperFull/Exporters/AudioAssetExporter.cs:235 | Without overflow, the unchecked byte rate is the exact `sampleRate * numChannels * bitsPerSample / 8` |
| Wave.BlockAlignExact | UnityRipperFull/Exporters/AudioAssetExporter.cs:236 | Without overflow, the stored block align is the exact `numChannels * bitsPerSample / 8` |
| Wave.ParseDetermines | UnityRipperFull/Exporters/AudioAssetExporter.cs:228-245 | The reader loses nothing: two files it reads alike, with nothing after the data, are equal |
| Wave.WaveFileOfParse | UnityRipperFull/Exporters/AudioAssetExporter.cs:228-245 | The other round trip: a file the reader accepts and whose derived fields match the formulas is exactly what the writer produces from the fields it reads |
| Wave.BinaryWriter.Write | UnityRipperFull/Exporters/AudioAssetExporter.cs:228 | `Write(byte[])` appends the bytes to the file |
| Wave.BinaryWriter.WriteByte | UnityRipperFull/Exporters/AudioAssetExporter.cs:244 | `Write(byte)` appends one byte |
| Wave.BinaryWriter.WriteInt32 | UnityRipperFull/Exporters/AudioAssetExporter.cs:231 | `Write(int)` appends the four two's-complement bytes |
| Wave.BinaryWriter.WriteUInt32 | UnityRipperFull/Exporters/AudioAssetExporter.cs:229 | `Write(uint)` appends the four little-endian bytes |
| Wave.BinaryWriter.WriteInt16 | UnityRipperFull/Exporters/AudioAssetExporter.cs:232 | `Write(short)` appends the two two's-complement bytes |
| Wave.WriteHeader | UnityRipperFull/Exporters/AudioAssetExporter.cs:228-239 | The twelve writes append exactly `WaveHeader` |
| Wave.WriteWave | UnityRipperFull/Exporters/AudioAssetExporter.cs:226-246 | The header writes and the byte-copy loop append exactly `WaveFile` of the format and region 1 |
| Events.Log | UnityRipperFull/Exporters/AudioAssetExporter.cs:164 | A log call appends one entry with its severity and message |
| Fmod.Engine.SystemCreate | UnityRipperFull/Exporters/AudioAssetExporter.cs:161 | Records the call and its result, then the system handle's acquisition when it is non-null |
| Fmod.Engine.Init | UnityRipperFull/Exporters/AudioAssetExporter.cs:168 | Records `init` with its channel count and result |
| Fmod.Engine.CreateSound | UnityRipperFull/Exporters/AudioAssetExporter.cs:181-183 | Records `createSound` with the length it was given and its result, then the sound's acquisition when it is non-null |
| Fmod.Engine.GetSubSound | UnityRipperFull/Exporters/AudioAssetExporter.cs:190 | Records `getSubSound` with its index and result, then the sub-sound's acquisition when it is non-null |
| Fmod.Engine.GetFormat | UnityRipperFull/Exporters/AudioAssetExporter.cs:197 | Records `getFormat`. On success, returns the sub-sound's channel count and bits per sample |
| Fmod.Engine.GetDefaults | UnityRipperFull/Exporters/AudioAssetExporter.cs:204-211 | Records `getDefaults`. On success, returns the sample rate |
| Fmod.Engine.GetLength | UnityRipperFull/Exporters/AudioAssetExporter.cs:212 | Records `getLength`. On success, returns the length in PCM bytes |
| Fmod.Engine.Lock | UnityRipperFull/Exporters/AudioAssetExporter.cs:219 | Records `lock` with its offset and length. On success, returns region 1's bytes and `len2` |
| Fmod.Engine.Unlock | UnityRipperFull/Exporters/AudioAssetExporter.cs:248 | Records `unlock` with `len1`, `len2` and its result |
| Fmod.Engine.Release | UnityRipperFull/Exporters/AudioAssetExporter.cs:256-267 | Records the release of one handle |
| DecodeSession.Query | UnityRipperFull/Exporters/AudioAssetExporter.cs:197-252 | The stage from `getFormat` to `unlock`: it starts with the `getFormat` call, and it writes a file exactly when format, defaults, length and lock all succeed. That file holds the queried channels, the sample rate and bits, and region 1 |
| DecodeSession.Decode | UnityRipperFull/Exporters/AudioAssetExporter.cs:181-252 | The stage from `createSound` on: it holds the sound and sub-sound handles that came back non-null, leaves the stream alone, and writes `Query`'s file exactly when `createSound` and `getSubSound` succeed |
| DecodeSession.Body | UnityRipperFull/Exporters/AudioAssetExporter.cs:159-253 | The `try` block: it starts with the `System_Create` call and holds the system handle exactly when that came back non-null |
| DecodeSession.Releases | UnityRipperFull/Exporters/AudioAssetExporter.cs:254-268 | The `finally` block emits one release per non-null handle |
| DecodeSession.ReleasesExactlyHeld | UnityRipperFull/Exporters/AudioAssetExporter.cs:254-268 | The `finally` block emits only releases, of exactly the handles held, sub-sound before sound before system |
| DecodeSession.Finish | UnityRipperFull/Exporters/AudioAssetExporter.cs:254-268 | Running the `finally` block adds only the releases to the trace; the handles, the file and the stream are unchanged |
| DecodeSession.Session | UnityRipperFull/Exporters/AudioAssetExporter.cs:159-268 | One call of `ExportAudioClip`: the `try` block, then the `finally` block; its trace starts with the `System_Create` call |
| DecodeSession.QueryHandleFree | UnityRipperFull/Exporters/AudioAssetExporter.cs:197-252 | From `getFormat` to `unlock`, no handle is taken or released |
| DecodeSession.RawDataHandleFree | UnityRipperFull/Exporters/AudioAssetExporter.cs:175 | Locating the payload takes and releases no handle |
| DecodeSession.DecodeAcquisitions | UnityRipperFull/Exporters/AudioAssetExporter.cs:181-195 | `createSound` and `getSubSound` release nothing and acquire, in that order, exactly the sound and sub-sound the session then holds |
| DecodeSession.BodyAcquisitions | UnityRipperFull/Exporters/AudioAssetExporter.cs:159-253 | On every exit from the `try` block, nothing has been released, and exactly the handles left non-null were acquired, in rank order |
| DecodeSession.FinishReleasedIffAcquired | UnityRipperFull/Exporters/AudioAssetExporter.cs:254-268 | After the `finally` block, a handle is released if and only if it was acquired |
| DecodeSession.FinishReleasesLast | UnityRipperFull/Exporters/AudioAssetExporter.cs:254-268 | After the `finally` block, only releases follow a release, each of a lower-ranked handle |
| DecodeSession.FinishReleaseFollowsAcquire | UnityRipperFull/Exporters/AudioAssetExporter.cs:254-268 | After the `finally` block, every release comes after the acquisition of the same handle |
| DecodeSession.FinishAcquisitionsAscend | UnityRipperFull/Exporters/AudioAssetExporter.cs:254-268 | The `finally` block keeps the acquisitions in rank order, each at most once |
| DecodeSession.AcquiredInOrderOnce | UnityRipperFull/Exporters/AudioAssetExporter.cs:159-268 | In every session, system, sound and sub-sound are acquired in that order, each at most once |
| DecodeSession.ReleasedIffAcquired | UnityRipperFull/Exporters/AudioAssetExporter.cs:159-268 | On every exit path, a handle is released if and only if it was acquired |
| DecodeSession.ReleasesLastInReverseOrder | UnityRipperFull/Exporters/AudioAssetExporter.cs:254-268 | Releases close the session, each handle at most once, in the order sub-sound, sound, system |
| DecodeSession.ReleaseFollowsAcquire | UnityRipperFull/Exporters/AudioAssetExporter.cs:159-268 | No handle is released before it was acquired |
| DecodeSession.QueryShaped | UnityRipperFull/Exporters/AudioAssetExporter.cs:197-252 | From `getFormat` on, no call follows a failed one, and an error is the last event |
| DecodeSession.DecodeShaped | UnityRipperFull/Exporters/AudioAssetExporter.cs:181-252 | From `createSound` on, no call follows a failed one, and an error is the last event |
| DecodeSession.BodyShaped | UnityRipperFull/Exporters/AudioAssetExporter.cs:159-253 | In the whole `try` block, no call follows a failed one, and an error is the last event |
| DecodeSession.FirstFailureEndsSession | UnityRipperFull/Exporters/AudioAssetExporter.cs:159-268 | In a session, no call follows a failed call, and only releases follow a logged error |
| DecodeSession.QueryUnlock | UnityRipperFull/Exporters/AudioAssetExporter.cs:219-252 | `unlock` is called only when every query and the lock succeeded, with `len1` and `len2`. It comes immediately after the closing of the writer, which comes immediately after the successful lock (events 3, 4 and 5 of the stage) |
| DecodeSession.QueryLocked | UnityRipperFull/Exporters/AudioAssetExporter.cs:219-252 | A successful lock is of the queried length and is followed immediately by the closing of the writer and then by `unlock` with `len1` and `len2` |
| DecodeSession.QueryWritesIffDisposed | UnityRipperFull/Exporters/AudioAssetExporter.cs:226-246 | The stage writes a file if and only if it closes the writer |
| DecodeSession.SessionWhenQuerying | UnityRipperFull/Exporters/AudioAssetExporter.cs:159-268 | A session that reaches `getFormat` holds all three handles there and ends with all three releases |
| DecodeSession.SessionBeforeQuery | UnityRipperFull/Exporters/AudioAssetExporter.cs:159-195 | A session that stops before `getFormat` writes nothing and makes no later call |
| DecodeSession.SessionWrites | UnityRipperFull/Exporters/AudioAssetExporter.cs:159-268 | A session writes `Query`'s file exactly when every step up to `getSubSound` succeeds and a payload is found, and writes nothing otherwise |
| DecodeSession.LateMeansReached | UnityRipperFull/Exporters/AudioAssetExporter.cs:159-252 | A session that calls any of `getFormat`, `getDefaults`, `getLength`, `lock` or `unlock`, or closes the writer, had every call up to `getSubSound` succeed and a payload located |
| DecodeSession.UnlockOnlyAfterLockAndWrite | UnityRipperFull/Exporters/AudioAssetExporter.cs:219-252 | In a session, `unlock` is called only with `len1` and `len2`, and some position of the trace holds the successful lock, then the closing of the writer, then that `unlock`, with nothing between them |
| DecodeSession.LockLeadsToWriteAndUnlock | UnityRipperFull/Exporters/AudioAssetExporter.cs:219-252 | In a session, a successful lock is always followed immediately by the closing of the writer and then by `unlock` with `len1` and `len2`, whatever `unlock` returns |
| DecodeSession.QueryUnlockFails | UnityRipperFull/Exporters/AudioAssetExporter.cs:248-252 | A failed unlock is the stage's last call, followed only by its error |
| DecodeSession.UnlockFailureOnlyLogged | UnityRipperFull/Exporters/AudioAssetExporter.cs:248-268 | A failed unlock is only logged: the file stays written, and the session ends with the unlock, its error and the three releases |
| DecodeSession.WritesIffWriterDisposed | UnityRipperFull/Exporters/AudioAssetExporter.cs:226-246 | A session writes a file if and only if it opens and closes the writer |
| DecodeSession.CreateSoundGetsPayloadLength | UnityRipperFull/Exporters/AudioAssetExporter.cs:175-183 | `createSound` is called only when a payload was located, and is given its length as a `uint` |
| DecodeSession.DecodeCreateSound | UnityRipperFull/Exporters/AudioAssetExporter.cs:181-183 | The only `createSound` of the stage gets the payload's length |
| DecodeSession.WrittenFileParses | UnityRipperFull/Exporters/AudioAssetExporter.cs:226-246 | The file a session leaves is either empty or exactly `44 + len1` bytes. In the second case it ends in region 1 and parses back to the sub-sound's format, the derived fields and region 1 |
| AudioAssetExporter.LastIndexIn | UnityRipperFull/Exporters/AudioAssetExporter.cs:33 | The index of the last character from the set (or -1): it is in the set, and nothing after it is |
| AudioAssetExporter.FileName | UnityRipperFull/Exporters/AudioAssetExporter.cs:33 | `Path.GetFileName`: the longest suffix of the path that contains no separator |
| AudioAssetExporter.Stem | UnityRipperFull/Exporters/AudioAssetExporter.cs:33 | `GetFileNameWithoutExtension`: the file name cut just before its last '.', or the whole file name when it has no '.' |
| AudioAssetExporter.StemOfWav | UnityRipperFull/Exporters/AudioAssetExporter.cs:33 | Adding ".wav" to a name without separators and taking the stem gives the name back |
| AudioAssetExporter.WavNameKeepsStem | UnityRipperFull/Exporters/AudioAssetExporter.cs:31-34 | Forcing ".wav" keeps the stem, so forcing it twice changes nothing |
| AudioAssetExporter.Querying | UnityRipperFull/Exporters/AudioAssetExporter.cs:197-252 | The queries, the lock, the WAVE write and the unlock append exactly the events of `Query`, and the file gains exactly its recording's bytes |
| AudioAssetExporter.Decoding | UnityRipperFull/Exporters/AudioAssetExporter.cs:181-252 | From `createSound` on, the trace, the handles taken and the file match `Decode` |
| AudioAssetExporter.TryBlock | UnityRipperFull/Exporters/AudioAssetExporter.cs:159-253 | Up to any `return`, the `try` block leaves exactly `Body`'s trace, non-null handles, file and resources stream |
| AudioAssetExporter.ExportAudioClip | UnityRipperFull/Exporters/AudioAssetExporter.cs:152-269 | `try` then `finally`: the trace, the file and the resources stream are exactly those of `Session`. So every property proved of `Session` holds of the method |
| AudioAssetExporter.UnsupportedMessage | UnityRipperFull/Exporters/AudioAssetExporter.cs:52 | The warning for an unsupported clip: "AudioClip type ", the format's name as `GetAudioType` renders it, then " isn't supported"; the name can be read back out of the message |
| AudioAssetExporter.Export | UnityRipperFull/Exporters/AudioAssetExporter.cs:22-59 | Returns `IsSupported`.<br>• Supported: the file name is the stem plus ".wav", and the new file holds the session's output.<br>• Unsupported: the name is kept, one warning naming the format is logged, and the file holds the raw dump. |

## Left out

- The FMOD library itself is not part of this model. Each call's result is a field of a `Script` given in advance. A non-null out-handle whose result is not OK is allowed (`ok ==> handle` is the only constraint), because the `finally` block tests handles for null, not results.
- Exceptions are not modelled. An exception thrown by the writer would skip `unlock` but still run the releases. Here every write completes.
- `getDefaults` returns a float frequency that is cast to `int` at line 211. The model takes the already-cast sample rate from the script.
- `Marshal.ReadByte` over `ptr1` is modelled as indexing a `seq<byte>` of length `len1`. The `len2` bytes of region 2 are never read, as in the code.
- The loop counter `i` is an `int` compared against the `uint len1`. For `len1` of 2^31 or more the counter would overflow before the loop ends. The model copies all `len1` bytes for every `len1`, so it differs from the code for lock regions of 2^31 bytes or more.
- Stream.Read: when fewer bytes are available it delivers all of them, as a file stream does. A stream that returns short reads before the end is not modelled.
- `GetUniqueFileName` is a parameter (`uniqueName`). `audioClip.ExportBinary` is modelled as writing the bytes passed in `binary`. Any logging of its own and any use it makes of the resources stream are not modelled, so the unsupported branch's single warning and untouched stream hold only for the model's stand-in.
- `StreamedResource` carries `Offset` and `Size` as natural numbers. A negative `Offset` (which makes the `Position` setter throw) and a negative `Size` (which makes the array allocation throw) are not modelled.
- `ExportMeta`, `CreateCollection`, `ToExportType`, `Path.Combine`, the sub-folder name, `Directory.CreateDirectory` and `FileMode.CreateNew` are not modelled. These are file-system handling and collaborators whose code is not part of this model.
- The logger's category argument is dropped. Log entries keep the severity and the message.
- `AudioClip.IsReadType`, `IsReadLoadType` and `StreamedResource.IsReadSize` are defined outside this file. They are uninterpreted booleans carried by the clip.
- The lookup `FindResourcesFile` is a parameter. It is the `ResourcesFile` the caller passes, or null.
- The `FMODSoundType` and `AudioCompressionFormat` declarations are not part of this model. Their members are taken from FMOD's sound types and Unity's compression formats, plus a catch-all for values no member names. The members are numbered in declaration order (0 to 29 and 0 to 9), and the catch-all holds only numbers outside those ranges.
- Path.GetFileName is modelled over the separators '\\', '/' and ':'. Invalid path characters, which throw in .NET, are not modelled.
