/**
 * Locating the compressed payload of a clip: inline in the clip, or in a
 * sibling resources file at a stored offset, read through the file's
 * shared, seekable stream.
 */
module RawPayload {
  import opened Wrappers
  import opened Bytes
  import opened AudioClips
  import opened Events

  function Min(a: int, b: int): int { if a <= b then a else b }

  /** A seekable byte stream; `position` may lie past the end, as .NET allows. */
  class Stream {
    var bytes: seq<byte>
    var position: nat

    constructor (bytes: seq<byte>, position: nat)
      ensures this.bytes == bytes && this.position == position
    {
      this.bytes := bytes;
      this.position := position;
    }

    /** How many bytes a read of `count` bytes at `position` delivers. */
    function Available(count: nat): (n: nat)
      reads this
      ensures n <= count && (n == 0 || position + n <= |bytes|)
    {
      if position >= |bytes| then 0 else Min(count, |bytes| - position)
    }

    /** The `Position` setter. */
    method SetPosition(p: nat)
      modifies this`position
      ensures position == p
    {
      position := p;
    }

    /**
     * `Read(buffer, offset, count)`: copies what is available, up to `count`
     * bytes, into `buffer` at `offset`, advances the position and returns the
     * number of bytes copied.
     */
    method Read(buffer: array<byte>, offset: nat, count: nat) returns (n: nat)
      requires offset + count <= buffer.Length
      modifies this`position, buffer
      ensures n == old(Available(count)) && n <= count
      ensures forall i :: 0 <= i < buffer.Length ==>
        buffer[i] == if offset <= i < offset + n then bytes[old(position) + i - offset] else old(buffer[i])
      ensures position == old(position) + n
    {
      n := Available(count);
      forall i | offset <= i < offset + n {
        buffer[i] := bytes[position + i - offset];
      }
      position := position + n;
    }
  }

  /** A sibling resources file, as the container collection finds it. */
  class ResourcesFile {
    const stream: Stream

    constructor (stream: Stream)
      ensures this.stream == stream
    {
      this.stream := stream;
    }
  }

  /** The state of a resources stream, or None when the file was not found. */
  datatype StreamState = StreamState(bytes: seq<byte>, position: nat)

  function StateOf(res: ResourcesFile?): Option<StreamState>
    reads if res == null then {} else {res.stream}
  {
    if res == null then None else Some(StreamState(res.stream.bytes, res.stream.position))
  }

  /**
   * The buffer a read leaves when it asks for `size` bytes at `pos` into a
   * fresh zero-filled buffer: the stream's bytes from `pos` while there are
   * any, then zeros. Its length is `size` whatever the read returned.
   */
  function ReadWindow(bytes: seq<byte>, pos: nat, size: nat): (r: seq<byte>)
    ensures |r| == size
    ensures forall i :: 0 <= i < size ==> r[i] == if pos + i < |bytes| then bytes[pos + i] else 0
  {
    var n := if pos >= |bytes| then 0 else Min(size, |bytes| - pos);
    (if n == 0 then [] else bytes[pos..pos + n]) + seq(size - n, _ => 0)
  }

  /** What locating a payload yields: the bytes or null, the stream afterwards, and the warnings logged. */
  datatype Located = Located(data: Option<seq<byte>>, stream: Option<StreamState>, log: seq<Event>)

  function NotFoundMessage(clip: AudioClip): string {
    "Can't export '" + clip.name + "' because resources file '" + clip.fsbResource.source + "' wasn't found"
  }

  function UnknownSizeMessage(clip: AudioClip): string {
    "Can't export '" + clip.name + "' because unknown raw data size"
  }

  /** The outcome of `GetRawData`, given the resources stream the lookup found (None: not found). */
  function RawData(clip: AudioClip, stream: Option<StreamState>): (r: Located)
    ensures !clip.version.readLoadType ==> r == Located(Some(clip.audioData), stream, [])
    ensures clip.version.readLoadType && stream.None? ==>
      r == Located(None, None, [Logged(Warning, NotFoundMessage(clip))])
    ensures clip.version.readLoadType && stream.Some? && !clip.version.readSize ==>
      r == Located(None, Some(stream.value.(position := clip.fsbResource.offset)),
                   [Logged(Warning, UnknownSizeMessage(clip))])
    ensures clip.version.readLoadType && stream.Some? && clip.version.readSize ==>
      && r.data.Some? && r.log == []
      && r.data.value == ReadWindow(stream.value.bytes, clip.fsbResource.offset, clip.fsbResource.size)
      && r.stream.Some? && r.stream.value.bytes == stream.value.bytes
      && clip.fsbResource.offset <= r.stream.value.position <= clip.fsbResource.offset + clip.fsbResource.size
  {
    if !clip.version.readLoadType then Located(Some(clip.audioData), stream, [])
    else if stream.None? then Located(None, None, [Logged(Warning, NotFoundMessage(clip))])
    else
      var res := clip.fsbResource;
      var seeked := stream.value.(position := res.offset);
      if !clip.version.readSize then Located(None, Some(seeked), [Logged(Warning, UnknownSizeMessage(clip))])
      else
        var n := if res.offset >= |seeked.bytes| then 0 else Min(res.size, |seeked.bytes| - res.offset);
        Located(Some(ReadWindow(seeked.bytes, res.offset, res.size)), Some(seeked.(position := res.offset + n)), [])
  }

  /** The source's `GetRawData`. */
  method GetRawData(clip: AudioClip, res: ResourcesFile?, trace: Trace) returns (data: Option<seq<byte>>)
    modifies trace, if res == null then {} else {res.stream}
    ensures var r := RawData(clip, old(StateOf(res)));
      && data == r.data
      && StateOf(res) == r.stream
      && trace.events == old(trace.events) + r.log
  {
    if clip.version.readLoadType {
      if res == null {
        Log(trace, Warning, NotFoundMessage(clip));
        return None;
      }
      res.stream.SetPosition(clip.fsbResource.offset);
      if clip.version.readSize {
        var buffer := new byte[clip.fsbResource.size](_ => 0);
        var _ := res.stream.Read(buffer, 0, buffer.Length);
        assert buffer[..] == ReadWindow(res.stream.bytes, clip.fsbResource.offset, clip.fsbResource.size);
        return Some(buffer[..]);
      } else {
        Log(trace, Warning, UnknownSizeMessage(clip));
        return None;
      }
    } else {
      return Some(clip.audioData);
    }
  }
}
