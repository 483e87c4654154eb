/** The upload pipe that guards the speech-to-text endpoint: a file must be present,
    at most 5,120,000 bytes, and of one of eleven audio MIME types. */
module AudioFileValidator {
  import opened Results

  /** The fields of an uploaded multipart file. The pipe reads `size` and `mimetype`
      and hands the whole record on. */
  datatype UploadedFile = UploadedFile(
    fieldName: string,
    originalName: string,
    encoding: string,
    mimetype: string,
    size: nat,
    buffer: seq<bv8>)

  const AllowedMimeTypes: seq<string> := [
    "audio/mpeg", "audio/mp3", "audio/mp4", "audio/wav", "audio/m4a", "audio/aac",
    "audio/ogg", "audio/webm", "audio/flac", "audio/x-wav", "audio/x-m4a"
  ]

  /** `1000 * 1024 * 5` bytes, called "5 MB" in the error message. */
  const MaxSize: nat := 1000 * 1024 * 5

  const NoFileMessage: string := "No file uploaded"
  const TooBigMessage: string := "File is bigger than 5 MB"
  const InvalidTypePrefix: string := "Invalid file type. Expected audio file, but received: "

  /** The pipe's `transform`: presence, then size, then MIME type; every rejection is a
      bad-request error with the message below, and an accepted file is returned as it came. */
  function Transform(file: Option<UploadedFile>): (r: Result<UploadedFile>)
    ensures file.None? ==> r == Err(NoFileMessage)
    ensures file.Some? && file.value.size > MaxSize ==> r == Err(TooBigMessage)
    ensures (file.Some? && file.value.size <= MaxSize && file.value.mimetype !in AllowedMimeTypes)
      ==> r == Err(InvalidTypePrefix + file.value.mimetype)
    ensures r.Ok? <==> file.Some? && file.value.size <= MaxSize && file.value.mimetype in AllowedMimeTypes
    ensures r.Ok? ==> r.value == file.value
  {
    match file
    case None => Err(NoFileMessage)
    case Some(f) =>
      if f.size > MaxSize then Err(TooBigMessage)
      else if f.mimetype !in AllowedMimeTypes then Err(InvalidTypePrefix + f.mimetype)
      else Ok(f)
  }

  /** The size limit is inclusive: exactly 5,120,000 bytes passes, one byte more does not. */
  lemma SizeBoundary(f: UploadedFile)
    requires f.mimetype in AllowedMimeTypes
    ensures MaxSize == 5120000
    ensures f.size == 5120000 ==> Transform(Some(f)) == Ok(f)
    ensures f.size == 5120001 ==> Transform(Some(f)) == Err(TooBigMessage)
  {
  }

  /** The size check comes first: an oversize file of a wrong type reports its size. */
  lemma SizeCheckedBeforeType(f: UploadedFile)
    requires f.size > MaxSize && f.mimetype !in AllowedMimeTypes
    ensures Transform(Some(f)) == Err(TooBigMessage)
  {
  }

  /** Type matching is exact string membership: no case folding, no parameters. */
  lemma TypeMatchIsExact(f: UploadedFile)
    requires f.size <= MaxSize
    ensures f.mimetype == "audio/MPEG" ==> Transform(Some(f)) == Err(InvalidTypePrefix + "audio/MPEG")
    ensures f.mimetype == "audio/mpeg;codecs=mp3" ==> Transform(Some(f)).Err?
    ensures f.mimetype == "audio/mpeg" ==> Transform(Some(f)) == Ok(f)
  {
  }

  /** Validating an accepted file again accepts it again, unchanged. */
  lemma TransformIdempotent(file: Option<UploadedFile>)
    requires Transform(file).Ok?
    ensures Transform(Some(Transform(file).value)) == Transform(file)
  {
  }

  /** The allow-list holds eleven distinct audio types. */
  lemma AllowListShape()
    ensures |AllowedMimeTypes| == 11
    ensures forall i, j | 0 <= i < j < |AllowedMimeTypes| :: AllowedMimeTypes[i] != AllowedMimeTypes[j]
    ensures forall i | 0 <= i < |AllowedMimeTypes| :: AllowedMimeTypes[i][..6] == "audio/"
  {
  }
}
