/**
 The image rewriter: the decision `process_file` makes for one dropped file.
 Opening the image and saving the resized PNG are foreign I/O, so their answers
 are inputs (a `FileReply`), and the function reports, besides the log line,
 which I/O it asked for: the path it opened and the write it attempted.
 */
module Rewriter {
  import opened Alignment

  datatype Option<T> = None | Some(value: T)

  /** A path as the host hands it over: either it has a UTF-8 text form
      (`to_str()` succeeds) or it has none. */
  datatype HostPath = Utf8Path(text: string) | NonUtf8Path

  /** One item dropped onto the window in a frame. The host may leave its
      path out. */
  datatype DroppedFile = DroppedFile(path: Option<HostPath>)

  /** What the image library answers when asked to open and decode a file. */
  datatype DecodeResult = Decoded(width: U32, height: U32) | DecodeFailed(message: string)

  /** What the encoder answers when asked to write the resized PNG. */
  datatype SaveResult = Saved | SaveFailed(message: string)

  /** The answers the outside world gives for one file. Each is consulted only
      when the decision reaches the step that asks for it. */
  datatype FileReply = FileReply(decode: DecodeResult, save: SaveResult)

  /** The resampling filter used by the resize; the only one the program uses. */
  datatype ResizeFilter = Gaussian

  /** The container written back; always PNG, whatever the file was before. */
  datatype ImageFormat = Png

  /** A resize to exactly `width` x `height` followed by an overwrite of `path`. */
  datatype WriteRequest = WriteRequest(path: string, width: U32, height: U32,
                                       filter: ResizeFilter, format: ImageFormat)

  /** The log line for one file, the path given to the decoder if any, and the
      resize-and-save attempted if any. */
  datatype FileOutcome = FileOutcome(line: string, openedPath: Option<string>,
                                     saveAttempt: Option<WriteRequest>)

  /** The text that stands in for a path with no UTF-8 form. */
  const InvalidPath: string := "invalid path"

  const NoResizeSuffix: string := ": no resizing needed (already multiple of 4)"
  const ResizedSuffix: string := ": resized successfully"
  const SaveFailedInfix: string := ": failed to save resized image - "
  const DecodeFailedInfix: string := ": processing failed - "
  const ParseFailedPrefix: string := "Could not parse path: "

  /** The path text the rest of `process_file` works with. The sentinel comes
      out for a path with no UTF-8 form and for a path whose text is the
      sentinel itself; any other path comes out as its own text, unchanged. */
  function PathText(p: HostPath): (t: string)
    ensures t == InvalidPath <==> p.NonUtf8Path? || p.text == InvalidPath
    ensures t != InvalidPath ==> p == Utf8Path(t)
  {
    match p
    case Utf8Path(text) => text
    case NonUtf8Path => InvalidPath
  }

  /**
   The decision for one dropped file. The path must be present (the source
   unwraps it). A path whose text is the sentinel is reported as unparsable
   without opening anything; a decode failure is reported with its message;
   a decoded image whose dimensions are already aligned is left untouched;
   otherwise it is resized to the aligned dimensions and written back as PNG,
   and the save answer picks the line.
   */
  function ProcessFile(file: DroppedFile, reply: FileReply): (o: FileOutcome)
    requires file.path.Some?
    ensures var path := PathText(file.path.value);
      && (o.openedPath.Some? <==> path != InvalidPath)
      && (o.openedPath.Some? ==> o.openedPath.value == path)
      && (o.saveAttempt.Some? <==>
            o.openedPath.Some? && reply.decode.Decoded? &&
            !(IsAligned(reply.decode.width) && IsAligned(reply.decode.height)))
      && (o.saveAttempt.Some? ==>
            && o.saveAttempt.value.path == path
            && IsAlignedFloor(reply.decode.width, o.saveAttempt.value.width)
            && IsAlignedFloor(reply.decode.height, o.saveAttempt.value.height)
            && o.saveAttempt.value.format == Png)
  {
    var path := PathText(file.path.value);
    if path == InvalidPath then
      FileOutcome(ParseFailedPrefix + path, None, None)
    else
      match reply.decode
      case DecodeFailed(err) =>
        FileOutcome(path + DecodeFailedInfix + err, Some(path), None)
      case Decoded(w, h) =>
        var (adjustedW, adjustedH) := (ClosestMultiple4(w), ClosestMultiple4(h));
        if w != adjustedW || h != adjustedH then
          var request := WriteRequest(path, adjustedW, adjustedH, Gaussian, Png);
          match reply.save
          case SaveFailed(err) =>
            FileOutcome(path + SaveFailedInfix + err, Some(path), Some(request))
          case Saved =>
            FileOutcome(path + ResizedSuffix, Some(path), Some(request))
        else
          FileOutcome(path + NoResizeSuffix, Some(path), None)
  }

  /** A path with no UTF-8 form, and equally a real path whose text happens to
      be the sentinel, is reported as unparsable; nothing is opened or
      written, and the library's answers play no part. */
  lemma UnparsablePathOutcome(file: DroppedFile, reply: FileReply, other: FileReply)
    requires file.path.Some? && PathText(file.path.value) == InvalidPath
    ensures ProcessFile(file, reply).line == "Could not parse path: invalid path"
    ensures ProcessFile(file, reply).openedPath.None?
    ensures ProcessFile(file, reply).saveAttempt.None?
    ensures ProcessFile(file, reply) == ProcessFile(file, other)
  {
  }

  /** The sentinel quirk: a file literally named `invalid path` is treated
      exactly like a path that cannot be shown as text. */
  lemma SentinelPathQuirk(reply: FileReply)
    ensures ProcessFile(DroppedFile(Some(Utf8Path("invalid path"))), reply)
         == ProcessFile(DroppedFile(Some(NonUtf8Path)), reply)
  {
  }

  /** A decode failure is reported with the decoder's message, and nothing is
      written. */
  lemma DecodeFailureOutcome(file: DroppedFile, reply: FileReply, message: string)
    requires file.path.Some? && PathText(file.path.value) != InvalidPath
    requires reply.decode == DecodeFailed(message)
    ensures var path := PathText(file.path.value);
      ProcessFile(file, reply) ==
      FileOutcome(path + ": processing failed - " + message, Some(path), None)
  {
  }

  /** An image whose dimensions are both already positive multiples of 4 is
      not re-encoded: no write, and the no-op line. */
  lemma AlignedImageNotRewritten(file: DroppedFile, reply: FileReply)
    requires file.path.Some? && PathText(file.path.value) != InvalidPath
    requires reply.decode.Decoded?
    requires IsAligned(reply.decode.width) && IsAligned(reply.decode.height)
    ensures var path := PathText(file.path.value);
      ProcessFile(file, reply) ==
      FileOutcome(path + ": no resizing needed (already multiple of 4)", Some(path), None)
  {
  }

  /** A misaligned image is resized to exactly the planned dimensions with the
      Gaussian filter and written back as PNG to the same path; the save
      answer decides between the success and the failure line. */
  lemma MisalignedImageRewritten(file: DroppedFile, reply: FileReply)
    requires file.path.Some? && PathText(file.path.value) != InvalidPath
    requires reply.decode.Decoded?
    requires !(IsAligned(reply.decode.width) && IsAligned(reply.decode.height))
    ensures var path := PathText(file.path.value);
      var o := ProcessFile(file, reply);
      && o.saveAttempt == Some(WriteRequest(path, ClosestMultiple4(reply.decode.width),
                                            ClosestMultiple4(reply.decode.height), Gaussian, Png))
      && (reply.save.Saved? ==> o.line == path + ": resized successfully")
      && (reply.save.SaveFailed? ==>
            o.line == path + ": failed to save resized image - " + reply.save.message)
  {
  }

  /** The save answer is consulted only when a write is attempted: an outcome
      without a write is the same whatever the encoder would have said. */
  lemma SaveConsultedOnlyOnWrite(file: DroppedFile, decode: DecodeResult, s1: SaveResult, s2: SaveResult)
    requires file.path.Some?
    requires ProcessFile(file, FileReply(decode, s1)).saveAttempt.None?
    ensures ProcessFile(file, FileReply(decode, s1)) == ProcessFile(file, FileReply(decode, s2))
  {
  }

  /** An image that is decoded again at the dimensions the rewriter wrote is
      left alone: no write is attempted and the no-resize line is logged. */
  lemma WrittenImageIsStable(file: DroppedFile, reply: FileReply, again: FileReply)
    requires file.path.Some?
    requires ProcessFile(file, reply).saveAttempt.Some?
    requires var req := ProcessFile(file, reply).saveAttempt.value;
      again.decode == Decoded(req.width, req.height)
    ensures ProcessFile(file, again).saveAttempt.None?
    ensures ProcessFile(file, again).line
         == PathText(file.path.value) + ": no resizing needed (already multiple of 4)"
  {
  }

  /** Concrete drops of a readable path: an 800x600 image is left alone, an
      801x600 image is rewritten as an 800x600 PNG, a 3x3 image as a 4x4 PNG,
      a 1023x769 image as a 1020x768 PNG, and a 101x101 image whose save fails
      reports the encoder's error after attempting a 100x100 write. */
  lemma DroppedFileScenarios(path: string, err: string)
    requires path != InvalidPath
    ensures var f := DroppedFile(Some(Utf8Path(path)));
      && ProcessFile(f, FileReply(Decoded(800, 600), Saved))
         == FileOutcome(path + NoResizeSuffix, Some(path), None)
      && ProcessFile(f, FileReply(Decoded(801, 600), Saved))
         == FileOutcome(path + ResizedSuffix, Some(path),
                        Some(WriteRequest(path, 800, 600, Gaussian, Png)))
      && ProcessFile(f, FileReply(Decoded(3, 3), Saved))
         == FileOutcome(path + ResizedSuffix, Some(path),
                        Some(WriteRequest(path, 4, 4, Gaussian, Png)))
      && ProcessFile(f, FileReply(Decoded(1023, 769), Saved))
         == FileOutcome(path + ResizedSuffix, Some(path),
                        Some(WriteRequest(path, 1020, 768, Gaussian, Png)))
      && ProcessFile(f, FileReply(Decoded(101, 101), SaveFailed(err)))
         == FileOutcome(path + SaveFailedInfix + err, Some(path),
                        Some(WriteRequest(path, 100, 100, Gaussian, Png)))
  {
  }
}
