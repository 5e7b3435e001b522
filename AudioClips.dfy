/**
 * The audio clip record the exporter reads, as the container parser hands
 * it over: its name, the two version-dependent compression tags, the
 * inline payload and the reference into a sibling resources file.
 */
module AudioClips {
  import opened Bytes
  import opened Wrappers

  /** The sound-type members are numbered 0 to 29 in declaration order; any other number is unnamed. */
  type UnnamedSoundCode = c: int | c < 0 || 30 <= c witness -1

  /** The compression-format members are numbered 0 to 9 in declaration order; any other number is unnamed. */
  type UnnamedFormatCode = c: int | c < 0 || 10 <= c witness -1

  /**
   * FMOD's sound-type enumeration, the clip's `Type` field in older
   * containers. A C# enum variable may hold a value no member names;
   * `UndeclaredSoundType` stands for such a value, and only for one.
   */
  datatype FmodSoundType =
    | UNKNOWN | ACC | AIFF | ASF | AT3 | CDDA | DLS | FLAC | FSB | GCADPCM
    | IT | MIDI | MOD | MPEG | OGGVORBIS | PLAYLIST | RAW | S3M | SF2 | USER
    | WAV | XM | XMA | VAG | AUDIOQUEUE | XWMA | BCWAV | AT9 | VORBIS | MEDIA_FOUNDATION
    | UndeclaredSoundType(code: UnnamedSoundCode)

  /**
   * Unity's compression formats, the clip's `CompressionFormat` field in
   * newer containers; `UndeclaredFormat` stands for a number no member has.
   */
  datatype AudioCompressionFormat =
    | PCM | Vorbis | ADPCM | MP3 | VAG | HEVAG | XMA | AAC | GCADPCM | ATRAC9
    | UndeclaredFormat(code: UnnamedFormatCode)

  /**
   * The three version predicates the exporter consults, evaluated on the
   * version of the file that holds the clip: `AudioClip.IsReadType`,
   * `AudioClip.IsReadLoadType` and `StreamedResource.IsReadSize`.
   */
  datatype VersionFlags = VersionFlags(readType: bool, readLoadType: bool, readSize: bool)

  /** Where the payload lies in a sibling resources file. */
  datatype StreamedResource = StreamedResource(source: string, offset: nat, size: nat)

  datatype AudioClip = AudioClip(
    name: string,
    version: VersionFlags,
    soundType: FmodSoundType,
    compressionFormat: AudioCompressionFormat,
    audioData: seq<byte>,
    fsbResource: StreamedResource)

  // ---- Enum.ToString and its inverse -------------------------------------

  function DigitChar(d: nat): (c: char)
    requires d < 10
    ensures '0' <= c <= '9' && c as int - '0' as int == d
  {
    ('0' as int + d) as char
  }

  /** The decimal digits of n, most significant first. */
  function Digits(n: nat): (s: string)
    ensures |s| >= 1
    ensures forall i :: 0 <= i < |s| ==> '0' <= s[i] <= '9'
  {
    if n < 10 then [DigitChar(n)] else Digits(n / 10) + [DigitChar(n % 10)]
  }

  /** The value of a string of decimal digits. */
  function DigitsValue(s: string): nat
    requires forall i :: 0 <= i < |s| ==> '0' <= s[i] <= '9'
  {
    if s == [] then 0 else 10 * DigitsValue(s[..|s| - 1]) + (s[|s| - 1] as int - '0' as int)
  }

  /** Reading the digits of n gives n back. */
  lemma {:induction false} DigitsValueOfDigits(n: nat)
    ensures DigitsValue(Digits(n)) == n
  {
    var s := Digits(n);
    if n < 10 {
      assert s[..0] == [];
    } else {
      DigitsValueOfDigits(n / 10);
      assert s[..|s| - 1] == Digits(n / 10);
    }
  }

  /** `int.ToString()`: an optional minus sign and the digits. */
  function IntToString(x: int): (s: string)
    ensures |s| >= 1 && (s[0] == '-' || '0' <= s[0] <= '9')
  {
    if x < 0 then "-" + Digits(-x) else Digits(x)
  }

  predicate IsDecimal(s: string) {
    |s| >= 1 && forall i :: 0 <= i < |s| ==> '0' <= s[i] <= '9'
  }

  /** `int.Parse` on the strings `IntToString` produces. */
  function ParseInt(s: string): (r: Option<int>)
  {
    if IsDecimal(s) then Some(DigitsValue(s))
    else if |s| >= 2 && s[0] == '-' && IsDecimal(s[1..]) then var v: int := DigitsValue(s[1..]); Some(-v)
    else None
  }

  /** A run of digits parses to its value. */
  lemma ParseDigits(n: nat)
    ensures ParseInt(Digits(n)) == Some(n)
  {
    DigitsValueOfDigits(n);
    assert IsDecimal(Digits(n));
  }

  /** A minus sign before a run of digits parses to the negated value. */
  lemma ParseNegated(n: nat)
    ensures ParseInt("-" + Digits(n)) == Some(-(n as int))
  {
    var d := Digits(n);
    var s := "-" + d;
    DigitsValueOfDigits(n);
    assert s[1..] == d;
    assert !IsDecimal(s) by { assert s[0] == '-'; }
    assert IsDecimal(d);
  }

  /** Parsing the decimal form of x gives x back. */
  lemma ParseIntToString(x: int)
    ensures ParseInt(IntToString(x)) == Some(x)
  {
    if x < 0 {
      ParseNegated(-x);
    } else {
      ParseDigits(x);
    }
  }

  /**
   * `FMODSoundType.ToString()`: a member's name, which starts with a capital
   * letter, or for an unnamed value its number, which parses back to it.
   */
  function SoundTypeName(t: FmodSoundType): (r: string)
    ensures t.UndeclaredSoundType? ==> ParseInt(r) == Some(t.code)
    ensures !t.UndeclaredSoundType? ==> |r| >= 1 && 'A' <= r[0] <= 'Z'
  {
    match t
    case UNKNOWN => "UNKNOWN"
    case ACC => "ACC"
    case AIFF => "AIFF"
    case ASF => "ASF"
    case AT3 => "AT3"
    case CDDA => "CDDA"
    case DLS => "DLS"
    case FLAC => "FLAC"
    case FSB => "FSB"
    case GCADPCM => "GCADPCM"
    case IT => "IT"
    case MIDI => "MIDI"
    case MOD => "MOD"
    case MPEG => "MPEG"
    case OGGVORBIS => "OGGVORBIS"
    case PLAYLIST => "PLAYLIST"
    case RAW => "RAW"
    case S3M => "S3M"
    case SF2 => "SF2"
    case USER => "USER"
    case WAV => "WAV"
    case XM => "XM"
    case XMA => "XMA"
    case VAG => "VAG"
    case AUDIOQUEUE => "AUDIOQUEUE"
    case XWMA => "XWMA"
    case BCWAV => "BCWAV"
    case AT9 => "AT9"
    case VORBIS => "VORBIS"
    case MEDIA_FOUNDATION => "MEDIA_FOUNDATION"
    case UndeclaredSoundType(code) => ParseIntToString(code); IntToString(code)
  }

  /** `AudioCompressionFormat.ToString()`: as `SoundTypeName`, for the compression formats. */
  function FormatName(f: AudioCompressionFormat): (r: string)
    ensures f.UndeclaredFormat? ==> ParseInt(r) == Some(f.code)
    ensures !f.UndeclaredFormat? ==> |r| >= 1 && 'A' <= r[0] <= 'Z'
  {
    match f
    case PCM => "PCM"
    case Vorbis => "Vorbis"
    case ADPCM => "ADPCM"
    case MP3 => "MP3"
    case VAG => "VAG"
    case HEVAG => "HEVAG"
    case XMA => "XMA"
    case AAC => "AAC"
    case GCADPCM => "GCADPCM"
    case ATRAC9 => "ATRAC9"
    case UndeclaredFormat(code) => ParseIntToString(code); IntToString(code)
  }

  /** A number never reads like a member's name: it starts with a digit or '-'. */
  lemma ParsedNotCapitalised(r: string)
    requires ParseInt(r).Some?
    ensures |r| >= 1 && !('A' <= r[0] <= 'Z')
  {
  }

  /**
   * Reading a sound-type name back, as `Enum.Parse` does: a member's name
   * (looked up by its first letter), or the number of a value no member names.
   */
  function SoundTypeOfName(n: string): Option<FmodSoundType>
  {
    if |n| == 0 then None
    else match n[0]
    case 'A' => if n == "ACC" then Some(FmodSoundType.ACC) else if n == "AIFF" then Some(FmodSoundType.AIFF) else if n == "ASF" then Some(FmodSoundType.ASF) else if n == "AT3" then Some(FmodSoundType.AT3) else if n == "AUDIOQUEUE" then Some(FmodSoundType.AUDIOQUEUE) else if n == "AT9" then Some(FmodSoundType.AT9) else None
    case 'B' => if n == "BCWAV" then Some(FmodSoundType.BCWAV) else None
    case 'C' => if n == "CDDA" then Some(FmodSoundType.CDDA) else None
    case 'D' => if n == "DLS" then Some(FmodSoundType.DLS) else None
    case 'F' => if n == "FLAC" then Some(FmodSoundType.FLAC) else if n == "FSB" then Some(FmodSoundType.FSB) else None
    case 'G' => if n == "GCADPCM" then Some(FmodSoundType.GCADPCM) else None
    case 'I' => if n == "IT" then Some(FmodSoundType.IT) else None
    case 'M' => if n == "MIDI" then Some(FmodSoundType.MIDI) else if n == "MOD" then Some(FmodSoundType.MOD) else if n == "MPEG" then Some(FmodSoundType.MPEG) else if n == "MEDIA_FOUNDATION" then Some(FmodSoundType.MEDIA_FOUNDATION) else None
    case 'O' => if n == "OGGVORBIS" then Some(FmodSoundType.OGGVORBIS) else None
    case 'P' => if n == "PLAYLIST" then Some(FmodSoundType.PLAYLIST) else None
    case 'R' => if n == "RAW" then Some(FmodSoundType.RAW) else None
    case 'S' => if n == "S3M" then Some(FmodSoundType.S3M) else if n == "SF2" then Some(FmodSoundType.SF2) else None
    case 'U' => if n == "UNKNOWN" then Some(FmodSoundType.UNKNOWN) else if n == "USER" then Some(FmodSoundType.USER) else None
    case 'V' => if n == "VAG" then Some(FmodSoundType.VAG) else if n == "VORBIS" then Some(FmodSoundType.VORBIS) else None
    case 'W' => if n == "WAV" then Some(FmodSoundType.WAV) else None
    case 'X' => if n == "XM" then Some(FmodSoundType.XM) else if n == "XMA" then Some(FmodSoundType.XMA) else if n == "XWMA" then Some(FmodSoundType.XWMA) else None
    case _ =>
      match ParseInt(n)
      case Some(c) => if c < 0 || 30 <= c then Some(UndeclaredSoundType(c)) else None
      case None => None
  }

  /** Every sound type is read back from its name, so distinct types have distinct names. */
  lemma SoundTypeNameReadsBack(t: FmodSoundType)
    ensures SoundTypeOfName(SoundTypeName(t)) == Some(t)
  {
    if t.UndeclaredSoundType? {
      UnnamedSoundTypeReadsBack(t.code);
    }
  }

  /** A value no member names is read back from its number. */
  lemma UnnamedSoundTypeReadsBack(code: UnnamedSoundCode)
    ensures SoundTypeOfName(SoundTypeName(UndeclaredSoundType(code))) == Some(UndeclaredSoundType(code))
  {
    ParsedNotCapitalised(SoundTypeName(UndeclaredSoundType(code)));
  }

  /** Distinct sound types have distinct names, so a warning naming one identifies it. */
  lemma SoundTypeNamesDistinct(t: FmodSoundType, u: FmodSoundType)
    ensures SoundTypeName(t) == SoundTypeName(u) ==> t == u
  {
    SoundTypeNameReadsBack(t);
    SoundTypeNameReadsBack(u);
  }

  /** Reading a compression-format name back, as `SoundTypeOfName` does for sound types. */
  function FormatOfName(n: string): Option<AudioCompressionFormat>
  {
    if |n| == 0 then None
    else match n[0]
    case 'A' => if n == "ADPCM" then Some(AudioCompressionFormat.ADPCM) else if n == "AAC" then Some(AudioCompressionFormat.AAC) else if n == "ATRAC9" then Some(AudioCompressionFormat.ATRAC9) else None
    case 'G' => if n == "GCADPCM" then Some(AudioCompressionFormat.GCADPCM) else None
    case 'H' => if n == "HEVAG" then Some(AudioCompressionFormat.HEVAG) else None
    case 'M' => if n == "MP3" then Some(AudioCompressionFormat.MP3) else None
    case 'P' => if n == "PCM" then Some(AudioCompressionFormat.PCM) else None
    case 'V' => if n == "Vorbis" then Some(AudioCompressionFormat.Vorbis) else if n == "VAG" then Some(AudioCompressionFormat.VAG) else None
    case 'X' => if n == "XMA" then Some(AudioCompressionFormat.XMA) else None
    case _ =>
      match ParseInt(n)
      case Some(c) => if c < 0 || 10 <= c then Some(UndeclaredFormat(c)) else None
      case None => None
  }

  /** Every compression format is read back from its name, so distinct formats have distinct names. */
  lemma FormatNameReadsBack(f: AudioCompressionFormat)
    ensures FormatOfName(FormatName(f)) == Some(f)
  {
    if f.UndeclaredFormat? {
      ParsedNotCapitalised(FormatName(f));
    }
  }

  /** Distinct compression formats have distinct names. */
  lemma FormatNamesDistinct(f: AudioCompressionFormat, g: AudioCompressionFormat)
    ensures FormatName(f) == FormatName(g) ==> f == g
  {
    FormatNameReadsBack(f);
    FormatNameReadsBack(g);
  }
}
