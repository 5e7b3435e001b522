/**
 * Whether the decoding engine can transcode a clip, and the name of the
 * clip's format for diagnostics. Both are version-gated: containers whose
 * version passes `IsReadType` carry an FMOD sound type, the others a Unity
 * compression format.
 */
module FormatClassifier {
  import opened Wrappers
  import opened AudioClips

  /** The compression tag the version selects. */
  datatype Tag = Legacy(soundType: FmodSoundType) | Modern(format: AudioCompressionFormat)

  /** The sound types the exporter hands to the decoder: twelve of them. */
  const LegacyWhitelist: set<FmodSoundType> := {
    ACC, AIFF, IT, MOD, MPEG, OGGVORBIS, S3M, WAV, XM,
    FmodSoundType.XMA, FmodSoundType.VAG, AUDIOQUEUE
  }

  /** The compression formats the exporter hands to the decoder: ten of them. */
  const ModernWhitelist: set<AudioCompressionFormat> := {
    PCM, ADPCM, Vorbis, MP3, AudioCompressionFormat.GCADPCM,
    AudioCompressionFormat.VAG, HEVAG, AudioCompressionFormat.XMA, AAC, ATRAC9
  }

  /** The field the version gate selects. */
  function SelectedTag(clip: AudioClip): (t: Tag)
    ensures t.Legacy? <==> clip.version.readType
    ensures t.Legacy? ==> t.soundType == clip.soundType
    ensures t.Modern? ==> t.format == clip.compressionFormat
  {
    if clip.version.readType then Legacy(clip.soundType) else Modern(clip.compressionFormat)
  }

  predicate Whitelisted(t: Tag) {
    match t
    case Legacy(s) => s in LegacyWhitelist
    case Modern(f) => f in ModernWhitelist
  }

  /** The source's two switch statements, one per enumeration. */
  function IsSupported(clip: AudioClip): (r: bool)
    ensures r == Whitelisted(SelectedTag(clip))
  {
    if clip.version.readType then
      match clip.soundType
      case ACC | AIFF | IT | MOD | MPEG | OGGVORBIS | S3M | WAV | XM | XMA | VAG | AUDIOQUEUE => true
      case _ => false
    else
      match clip.compressionFormat
      case PCM | ADPCM | Vorbis | MP3 | GCADPCM | VAG | HEVAG | XMA | AAC | ATRAC9 => true
      case _ => false
  }

  function TagName(t: Tag): string
  {
    match t
    case Legacy(s) => SoundTypeName(s)
    case Modern(f) => FormatName(f)
  }

  /** The name of the clip's format as `ToString` renders it, read under the same gate. */
  function GetAudioType(clip: AudioClip): (r: string)
    ensures r == TagName(SelectedTag(clip))
  {
    if clip.version.readType then SoundTypeName(clip.soundType) else FormatName(clip.compressionFormat)
  }

  /** The whitelists have exactly twelve and ten members. */
  lemma WhitelistSizes()
    ensures |LegacyWhitelist| == 12 && |ModernWhitelist| == 10
  {
  }

  /**
   * Every declared compression format is transcodable: in newer containers
   * only a value no member names is refused.
   */
  lemma ModernRefusesOnlyUndeclared(clip: AudioClip)
    requires !clip.version.readType
    ensures !IsSupported(clip) <==> clip.compressionFormat.UndeclaredFormat?
  {
  }

  /**
   * A tag no member names is reported by its number, which parses back to
   * that number; a declared member is reported by a name that starts with a
   * letter and so never reads as a number.
   */
  lemma UndeclaredReportedByNumber(clip: AudioClip)
    ensures var t := SelectedTag(clip);
      (t.Legacy? && t.soundType.UndeclaredSoundType?) || (t.Modern? && t.format.UndeclaredFormat?)
      <==> ParseInt(GetAudioType(clip)).Some?
    ensures clip.version.readType && clip.soundType.UndeclaredSoundType?
      ==> ParseInt(GetAudioType(clip)) == Some(clip.soundType.code)
    ensures !clip.version.readType && clip.compressionFormat.UndeclaredFormat?
      ==> ParseInt(GetAudioType(clip)) == Some(clip.compressionFormat.code)
  {
    var name := GetAudioType(clip);
    if (SelectedTag(clip).Legacy? && !SelectedTag(clip).soundType.UndeclaredSoundType?)
       || (SelectedTag(clip).Modern? && !SelectedTag(clip).format.UndeclaredFormat?)
    {
      assert 'A' <= name[0] <= 'Z';
    }
  }
}
