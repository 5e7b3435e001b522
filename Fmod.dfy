/**
 * The FMOD engine as the exporter sees it. The native library is not part
 * of this model: every call answers from a `Script` fixed in advance and
 * records itself, and the handle it hands out, in the shared trace.
 * Handles are represented by whether they are non-null.
 */
module Fmod {
  import opened Wrappers
  import opened Bytes
  import opened Events
  import opened DecodeSession

  class Engine {
    const script: Script
    const trace: Trace

    constructor (script: Script, trace: Trace)
      requires ValidScript(script)
      ensures this.script == script && this.trace == trace
    {
      this.script := script;
      this.trace := trace;
    }

    /** `Factory.System_Create(out system)`. */
    method SystemCreate() returns (ok: bool, system: bool)
      modifies trace
      ensures ok == script.systemCreate.ok && system == script.systemCreate.handle
      ensures trace.events == old(trace.events) + Acquiring(Call.SystemCreate, ok, system, SystemHandle)
    {
      ok, system := script.systemCreate.ok, script.systemCreate.handle;
      trace.Record(Invoked(Call.SystemCreate, ok));
      if system {
        trace.Record(Acquired(SystemHandle));
      }
    }

    /** `system.init(maxChannels, NORMAL, null)`. */
    method Init(maxChannels: int) returns (ok: bool)
      modifies trace
      ensures ok == script.init
      ensures trace.events == old(trace.events) + [Invoked(Call.Init(maxChannels), ok)]
    {
      ok := script.init;
      trace.Record(Invoked(Call.Init(maxChannels), ok));
    }

    /** `system.createSound(data, OPENMEMORY, ref exinfo, out sound)`, with `exinfo.length`. */
    method CreateSound(data: seq<byte>, length: int) returns (ok: bool, sound: bool)
      modifies trace
      ensures ok == script.createSound.ok && sound == script.createSound.handle
      ensures trace.events == old(trace.events) + Acquiring(Call.CreateSound(length), ok, sound, SoundHandle)
    {
      ok, sound := script.createSound.ok, script.createSound.handle;
      trace.Record(Invoked(Call.CreateSound(length), ok));
      if sound {
        trace.Record(Acquired(SoundHandle));
      }
    }

    /** `sound.getSubSound(index, out subsound)`. */
    method GetSubSound(index: int) returns (ok: bool, subsound: bool)
      modifies trace
      ensures ok == script.getSubSound.ok && subsound == script.getSubSound.handle
      ensures trace.events == old(trace.events) + Acquiring(Call.GetSubSound(index), ok, subsound, SubSoundHandle)
    {
      ok, subsound := script.getSubSound.ok, script.getSubSound.handle;
      trace.Record(Invoked(Call.GetSubSound(index), ok));
      if subsound {
        trace.Record(Acquired(SubSoundHandle));
      }
    }

    /** `subsound.getFormat(...)`: the channel count and bits per sample. */
    method GetFormat() returns (ok: bool, numChannels: int, bitsPerSample: int)
      modifies trace
      ensures ok == script.format.Some?
      ensures ok ==> numChannels == script.format.value.numChannels && bitsPerSample == script.format.value.bitsPerSample
      ensures trace.events == old(trace.events) + [Invoked(Call.GetFormat, ok)]
    {
      ok := script.format.Some?;
      numChannels, bitsPerSample := 0, 0;
      if ok {
        numChannels, bitsPerSample := script.format.value.numChannels, script.format.value.bitsPerSample;
      }
      trace.Record(Invoked(Call.GetFormat, ok));
    }

    /** `subsound.getDefaults(...)`: the sample rate, already cast from the float frequency. */
    method GetDefaults() returns (ok: bool, sampleRate: int)
      modifies trace
      ensures ok == script.defaults.Some? && (ok ==> sampleRate == script.defaults.value)
      ensures trace.events == old(trace.events) + [Invoked(Call.GetDefaults, ok)]
    {
      ok := script.defaults.Some?;
      sampleRate := if ok then script.defaults.value else 0;
      trace.Record(Invoked(Call.GetDefaults, ok));
    }

    /** `subsound.getLength(out length, PCMBYTES)`. */
    method GetLength() returns (ok: bool, length: int)
      modifies trace
      ensures ok == script.length.Some? && (ok ==> length == script.length.value)
      ensures trace.events == old(trace.events) + [Invoked(Call.GetLength, ok)]
    {
      ok := script.length.Some?;
      length := if ok then script.length.value else 0;
      trace.Record(Invoked(Call.GetLength, ok));
    }

    /** `subsound.lock(offset, length, ...)`: the bytes of region 1 (len1 is their count) and len2. */
    method Lock(offset: int, length: int) returns (ok: bool, region1: seq<byte>, len2: int)
      modifies trace
      ensures ok == script.lock.Some?
      ensures ok ==> region1 == script.lock.value.region1 && len2 == script.lock.value.len2
      ensures trace.events == old(trace.events) + [Invoked(Call.Lock(offset, length), ok)]
    {
      ok := script.lock.Some?;
      region1, len2 := [], 0;
      if ok {
        region1, len2 := script.lock.value.region1, script.lock.value.len2;
      }
      trace.Record(Invoked(Call.Lock(offset, length), ok));
    }

    /** `subsound.unlock(ptr1, ptr2, len1, len2)`. */
    method Unlock(len1: int, len2: int) returns (ok: bool)
      modifies trace
      ensures ok == script.unlock
      ensures trace.events == old(trace.events) + [Invoked(Call.Unlock(len1, len2), ok)]
    {
      ok := script.unlock;
      trace.Record(Invoked(Call.Unlock(len1, len2), ok));
    }

    /** `release()` on a non-null handle. */
    method Release(h: Handle)
      modifies trace
      ensures trace.events == old(trace.events) + [Released(h)]
    {
      trace.Record(Released(h));
    }
  }
}
