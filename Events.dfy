/**
 * What the exporter does that is visible from outside, as an ordered
 * trace: the calls into the FMOD decoding engine with their results, the
 * handles those calls hand out, the releases, the closing of the output
 * writer, and every message sent to the logger.
 */
module Events {

  datatype LogType = Warning | Error

  /** The three native handles a decode session may own. */
  datatype Handle = SystemHandle | SoundHandle | SubSoundHandle

  /**
   * A call into FMOD, with the arguments the lifecycle properties refer to.
   * Constant flags (`INITFLAGS.NORMAL`, `MODE.OPENMEMORY`,
   * `TIMEUNIT.PCMBYTES`), the data buffer and the region pointers are not
   * recorded.
   */
  datatype Call =
    | SystemCreate
    | Init(maxChannels: int)
    | CreateSound(length: int)
    | GetSubSound(index: int)
    | GetFormat
    | GetDefaults
    | GetLength
    | Lock(offset: int, length: int)
    | Unlock(len1: int, len2: int)

  datatype Event =
    | Invoked(call: Call, ok: bool)      // a call and whether it returned RESULT.OK
    | Acquired(handle: Handle)           // the call's out-handle came back non-null
    | Released(handle: Handle)           // release() on a non-null handle
    | WriterDisposed                     // the end of the `using` around the BinaryWriter
    | Logged(level: LogType, message: string)

  /** The recorder both the engine and the logger append to. */
  class Trace {
    var events: seq<Event>

    constructor ()
      ensures events == []
    {
      events := [];
    }

    method Record(e: Event)
      modifies this
      ensures events == old(events) + [e]
    {
      events := events + [e];
    }
  }

  /** `Logger.Instance.Log` for the export category. */
  method Log(trace: Trace, level: LogType, message: string)
    modifies trace
    ensures trace.events == old(trace.events) + [Logged(level, message)]
  {
    trace.Record(Logged(level, message));
  }
}
