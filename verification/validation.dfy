/**
 * The upload check run when a file is chosen: an accepted audio format
 * (by MIME type OR by file-name extension), then a size limit.
 * The format check runs first, so a file failing both reports the format.
 */
module Validation {
  /** What the browser reports about a chosen file. */
  datatype AudioFile = AudioFile(name: string, mimeType: string, size: nat)

  const ValidTypes: seq<string> := ["audio/mpeg", "audio/wav", "audio/ogg", "audio/mp4", "audio/x-m4a"]
  const ValidExtensions: seq<string> := [".mp3", ".wav", ".ogg", ".m4a"]

  /** 10 MiB; a file of exactly this size is still accepted. */
  const MaxSize: nat := 10 * 1024 * 1024

  const FormatMessage: string := "Please upload a valid audio file (MP3, WAV, OGG, M4A)"
  const SizeMessage: string := "File size exceeds 10MB limit"

  datatype Reason = UnsupportedFormat | TooLarge

  datatype Verdict = Accepted | Rejected(reason: Reason)

  /** JavaScript's `s.endsWith(suffix)`. */
  predicate EndsWith(s: string, suffix: string) {
    |suffix| <= |s| && s[|s| - |suffix|..] == suffix
  }

  /** Either the declared MIME type or the name's extension is one of the audio formats. */
  predicate SupportedFormat(f: AudioFile) {
    f.mimeType in ValidTypes || exists e | e in ValidExtensions :: EndsWith(f.name, e)
  }

  /** The message shown for each rejection. */
  function Message(reason: Reason): string {
    match reason
    case UnsupportedFormat => FormatMessage
    case TooLarge => SizeMessage
  }

  /** The two checks, in the order the upload handler makes them. */
  function Validate(f: AudioFile): (v: Verdict)
    ensures v == Accepted <==> SupportedFormat(f) && f.size <= MaxSize
    ensures v == Rejected(UnsupportedFormat) <==> !SupportedFormat(f)
    ensures v == Rejected(TooLarge) <==> SupportedFormat(f) && MaxSize < f.size
  {
    if !SupportedFormat(f) then Rejected(UnsupportedFormat)
    else if f.size > MaxSize then Rejected(TooLarge)
    else Accepted
  }

  /** A name made of any stem and one of the four extensions passes the format
      check whatever MIME type the browser reports (the OR is intentional). */
  lemma ExtensionAloneSuffices(stem: string, ext: string, mimeType: string, size: nat)
    requires ext in ValidExtensions
    ensures SupportedFormat(AudioFile(stem + ext, mimeType, size))
    ensures Validate(AudioFile(stem + ext, mimeType, size)) ==
            if size <= MaxSize then Accepted else Rejected(TooLarge)
  {
    var name := stem + ext;
    assert name[|name| - |ext|..] == ext;
    assert EndsWith(name, ext);
  }

  /** A listed MIME type is enough, whatever the file is called. */
  lemma MimeTypeAloneSuffices(f: AudioFile)
    requires f.mimeType in ValidTypes
    ensures Validate(f) == if f.size <= MaxSize then Accepted else Rejected(TooLarge)
  {
  }

  /** Too large is only reported for files whose format is acceptable:
      a file failing both checks gets the format message. */
  lemma FormatReportedFirst(f: AudioFile)
    requires !SupportedFormat(f) && MaxSize < f.size
    ensures Validate(f) == Rejected(UnsupportedFormat)
    ensures Message(Validate(f).reason) == FormatMessage
  {
  }
}
