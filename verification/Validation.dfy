/** The bounded read of one stored object and the policy that decides whether its bytes are an acceptable image.
    SHA-256 and the decoders belong to Env. */
module Validation {
  import opened Types
  import opened Schema

  // ----------------------------------------------------------- bounded capture

  /** `body` is absent when the read stopped at the declared length. */
  datatype Snapshot = Snapshot(body: Option<Bytes>, contentLength: int)

  function Content(s: Snapshot): Bytes {
    if s.body.Some? then s.body.value else []
  }

  datatype ReadError = LengthMismatch | StreamBroken | CloseFailed | RequestFailed(kind: ErrorClass) | ObjectMissing

  /** A response stream: its bytes, the offset at which reading fails if it does, and whether closing fails. */
  datatype Stream = Stream(data: Bytes, failsAt: Option<nat>, closeFails: bool)

  datatype GetReply = GetFailed(error: ReadError) | NoBody | Object(stream: Stream, contentLength: Option<int>)

  function Prefix(b: Bytes, n: int): Bytes
    requires n >= 0
  {
    if |b| <= n then b else b[..n]
  }

  /** io.ReadAll over an io.LimitReader. */
  function ReadAllLimited(s: Stream, limit: nat): Option<Bytes> {
    if s.failsAt.Some? && s.failsAt.value <= |s.data| && s.failsAt.value < limit then None
    else Some(Prefix(s.data, limit))
  }

  /** What an error-free capture of `data` yields, with or without a declared length. */
  function HonestSnapshot(data: Bytes, lengthKnown: bool, maxBytes: nat): Snapshot {
    if lengthKnown && |data| > maxBytes then Snapshot(None, |data|)
    else Snapshot(Some(Prefix(data, maxBytes + 1)), if lengthKnown then |data| else -1)
  }

  /** The read is bounded, and a declared length within the bound agrees with what was read unless the bound cut it. */
  predicate Coherent(s: Snapshot, maxBytes: nat) {
    && |Content(s)| <= maxBytes + 1
    && (s.contentLength > maxBytes || |Content(s)| == maxBytes + 1 || s.contentLength < 0
          || s.contentLength == |Content(s)|)
  }

  /** captureS3Object with the reply in hand: the snapshot is filled field by field, and a failing Close
      overrides success. */
  method CaptureObject(reply: GetReply, maxBytes: nat) returns (snapshot: Snapshot, err: Option<ReadError>)
    ensures |Content(snapshot)| <= maxBytes + 1
    ensures err.None? <==>
              && reply.Object? && !reply.stream.closeFails
              && (|| (reply.contentLength.Some? && reply.contentLength.value > maxBytes)
                  || (&& ReadAllLimited(reply.stream, maxBytes + 1).Some?
                      && (|reply.stream.data| <= maxBytes && reply.contentLength.Some? && reply.contentLength.value >= 0
                          ==> reply.contentLength.value == |reply.stream.data|)))
    ensures err.None? ==> Coherent(snapshot, maxBytes)
    ensures err.None? ==>
              && Content(snapshot) <= reply.stream.data
              && snapshot.contentLength == if reply.contentLength.Some? then reply.contentLength.value else -1
    ensures err.None? && (reply.contentLength.Some? ==> reply.contentLength.value == |reply.stream.data|) ==>
              snapshot == HonestSnapshot(reply.stream.data, reply.contentLength.Some?, maxBytes)
  {
    snapshot, err := Snapshot(None, 0), None;
    match reply
    case GetFailed(e) => err := Some(e);
    case NoBody => err := Some(LengthMismatch);
    case Object(stream, contentLength) =>
      snapshot := snapshot.(contentLength := -1);
      if contentLength.Some? {
        snapshot := snapshot.(contentLength := contentLength.value);
      }
      if snapshot.contentLength <= maxBytes {
        var read := ReadAllLimited(stream, maxBytes + 1);
        if read.None? {
          snapshot, err := Snapshot(None, 0), Some(StreamBroken);
        } else {
          snapshot := snapshot.(body := read);
          if |read.value| <= maxBytes && snapshot.contentLength >= 0 && |read.value| != snapshot.contentLength {
            snapshot, err := Snapshot(None, 0), Some(LengthMismatch);
          }
        }
      }
      if stream.closeFails && err.None? {
        err := Some(CloseFailed);
      }
  }

  // -------------------------------------------------------------------- policy

  datatype ValidatedImage = ValidatedImage(
    bytes: Bytes, sha256: Digest, size: int, contentType: ContentType, format: Format, width: int, height: int)

  datatype Verdict = Accepted(image: ValidatedImage) | Refused(failure: Failure) | Unreadable

  function RejectImage(kind: RejectionClass, reason: Reason, phase: Phase, evidence: set<string>): Failure {
    Failure(kind, reason, phase, evidence + {"policy_version"})
  }

  function ValidateImageBytes(env: Env, s: Snapshot, declaredSize: int, declaredType: ContentType): Verdict {
    var encoded := Content(s);
    var observed := {"observed_size", "observed_sha256"};
    if s.contentLength > MAX_UPLOAD_BYTES || |encoded| > MAX_UPLOAD_BYTES then
      Refused(RejectImage(InvalidInput, ObjectTooLarge, StagingRead, {"limit_bytes", "observed_size"}))
    else if s.contentLength >= 0 && s.contentLength != |encoded| then Unreadable
    else if |encoded| != declaredSize then
      Refused(RejectImage(InvalidInput, DeclaredSizeMismatch, StagingRead, observed + {"expected_size"}))
    else match env.decodeConfig(encoded)
      case None => Refused(RejectImage(InvalidInput, InvalidImageEncoding, DecodeConfig, observed))
      case Some(config) => ValidateDecoded(env, encoded, config, declaredType)
  }

  function ValidateDecoded(env: Env, encoded: Bytes, config: ImageConfig, declaredType: ContentType): Verdict {
    var observed := {"observed_size", "observed_sha256", "format"};
    if ContentTypeOf(config.format).None? then
      Refused(RejectImage(InvalidInput, InvalidImageEncoding, DecodeConfig, observed))
    else if ContentTypeOf(config.format) != Some(declaredType) then
      Refused(RejectImage(InvalidInput, DeclaredContentTypeMismatch, DecodeConfig,
                          observed + {"expected_content_type", "observed_content_type"}))
    else if config.width < 1 || config.width > MAX_AXIS || config.height < 1 || config.height > MAX_AXIS then
      Refused(RejectImage(InvalidInput, DimensionsLimitExceeded, DecodeConfig,
          observed + {"axis_limit", "width", "height"}))
    else if config.width * config.height > MAX_PIXELS then
      Refused(RejectImage(InvalidInput, PixelLimitExceeded, DecodeConfig,
          observed + {"pixel_limit", "width", "height", "pixels"}))
    else match env.decode(encoded)
      case None => Refused(RejectImage(InvalidInput, MalformedImage, Decode, observed + {"width", "height"}))
      case Some(decoded) =>
        if decoded != config then
          Refused(RejectImage(InternalInvariant, DecoderInvariantMismatch, Decode,
                              {"expected_format", "observed_format", "expected_width", "observed_width",
                               "expected_height", "observed_height", "observed_size", "observed_sha256"}))
        else
          Accepted(ValidatedImage(encoded, env.sha256(encoded), |encoded|, declaredType, config.format, config.width,
              config.height))
  }

  /** The acceptance policy, stated without the order in which it is checked. */
  predicate MeetsPolicy(env: Env, b: Bytes, declaredSize: int, declaredType: ContentType) {
    && |b| == declaredSize
    && |b| <= MAX_UPLOAD_BYTES
    && env.decodeConfig(b).Some?
    && env.decode(b) == env.decodeConfig(b)
    && var config := env.decodeConfig(b).value;
       && ((config.format.Jpeg? && declaredType.ImageJpeg?) || (config.format.Png? && declaredType.ImagePng?))
       && 1 <= config.width <= MAX_AXIS && 1 <= config.height <= MAX_AXIS
       && config.width * config.height <= MAX_PIXELS
  }

  predicate FailureOk(f: Failure) {
    ReasonFits(f.kind, f.reason) && f.evidence != {}
  }

  /** On every snapshot the capture can return, the verdict is never `Unreadable`; it is `Accepted` exactly when
      the policy holds of the whole object; and a refusal always carries a reason the schema admits. */
  lemma VerdictMatchesPolicy(env: Env, s: Snapshot, declaredSize: int, declaredType: ContentType)
    requires Coherent(s, MAX_UPLOAD_BYTES)
    ensures !ValidateImageBytes(env, s, declaredSize, declaredType).Unreadable?
    ensures ValidateImageBytes(env, s, declaredSize, declaredType).Accepted? <==>
              s.contentLength <= MAX_UPLOAD_BYTES && MeetsPolicy(env, Content(s), declaredSize, declaredType)
    ensures match ValidateImageBytes(env, s, declaredSize, declaredType)
            case Accepted(image) =>
              && image.bytes == Content(s) && image.sha256 == env.sha256(image.bytes) && image.size == |image.bytes|
              && Some(ImageConfig(image.format, image.width, image.height)) == env.decodeConfig(image.bytes)
              && image.contentType == declaredType
            case Refused(f) => FailureOk(f)
            case Unreadable => false
  {
  }

  /** The same for a stored object read whole: an oversized object is refused, and any other object is accepted
      exactly when the policy holds of its own bytes, whether or not the reply declared a length. */
  lemma CaptureThenValidate(env: Env, data: Bytes, lengthKnown: bool, declaredSize: int, declaredType: ContentType)
    ensures Coherent(HonestSnapshot(data, lengthKnown, MAX_UPLOAD_BYTES), MAX_UPLOAD_BYTES)
    ensures var verdict := ValidateImageBytes(env, HonestSnapshot(data, lengthKnown, MAX_UPLOAD_BYTES), declaredSize,
                                              declaredType);
            && (verdict.Accepted? <==> MeetsPolicy(env, data, declaredSize, declaredType))
            && (verdict.Accepted? ==> verdict.image.bytes == data)
  {
  }

  predicate SizeFits(b: Bytes, declaredSize: int) {
    |b| <= MAX_UPLOAD_BYTES && |b| == declaredSize
  }

  predicate TypeFits(env: Env, b: Bytes, declaredSize: int, declaredType: ContentType) {
    && SizeFits(b, declaredSize) && env.decodeConfig(b).Some?
    && match env.decodeConfig(b).value.format {
       case Jpeg => declaredType.ImageJpeg?
       case Png => declaredType.ImagePng?
       case OtherFormat(_) => false
       }
  }

  predicate AxesFit(env: Env, b: Bytes, declaredSize: int, declaredType: ContentType) {
    && TypeFits(env, b, declaredSize, declaredType)
    && 1 <= env.decodeConfig(b).value.width <= MAX_AXIS && 1 <= env.decodeConfig(b).value.height <= MAX_AXIS
  }

  predicate PixelsFit(env: Env, b: Bytes, declaredSize: int, declaredType: ContentType) {
    && AxesFit(env, b, declaredSize, declaredType)
    && env.decodeConfig(b).value.width * env.decodeConfig(b).value.height <= MAX_PIXELS
  }

  /** The object has the defect that the reason names, and none that is looked for before it. */
  predicate HasDefect(env: Env, b: Bytes, declaredSize: int, declaredType: ContentType, reason: Reason) {
    match reason
    case ObjectTooLarge => |b| > MAX_UPLOAD_BYTES
    case DeclaredSizeMismatch => |b| <= MAX_UPLOAD_BYTES && |b| != declaredSize
    case InvalidImageEncoding =>
      SizeFits(b, declaredSize) && (env.decodeConfig(b).Some? ==> env.decodeConfig(b).value.format.OtherFormat?)
    case DeclaredContentTypeMismatch =>
      && SizeFits(b, declaredSize) && env.decodeConfig(b).Some?
      && (|| (env.decodeConfig(b).value.format.Jpeg? && !declaredType.ImageJpeg?)
          || (env.decodeConfig(b).value.format.Png? && !declaredType.ImagePng?))
    case DimensionsLimitExceeded =>
      TypeFits(env, b, declaredSize, declaredType) && !AxesFit(env, b, declaredSize, declaredType)
    case PixelLimitExceeded =>
      AxesFit(env, b, declaredSize, declaredType) && !PixelsFit(env, b, declaredSize, declaredType)
    case MalformedImage => PixelsFit(env, b, declaredSize, declaredType) && env.decode(b).None?
    case DecoderInvariantMismatch =>
      PixelsFit(env, b, declaredSize, declaredType) && env.decode(b).Some? && env.decode(b) != env.decodeConfig(b)
    case CandidateIntegrityMismatch => false
  }

  /** The refusal of an object: its reason is the object's defect, its class blames the client unless the two decoders
      disagree, and its phase is the check that found it. */
  predicate Blames(env: Env, b: Bytes, declaredSize: int, declaredType: ContentType, f: Failure) {
    && HasDefect(env, b, declaredSize, declaredType, f.reason)
    && (f.kind.InternalInvariant? <==> f.reason.DecoderInvariantMismatch?)
    && (f.phase.StagingRead? <==> f.reason.ObjectTooLarge? || f.reason.DeclaredSizeMismatch?)
    && (f.phase.Decode? <==> f.reason.MalformedImage? || f.reason.DecoderInvariantMismatch?)
    && !f.phase.CandidateVerify? && "policy_version" in f.evidence
  }

  /** An object has exactly one defect, or it meets the policy. */
  lemma DefectsAreExclusive(env: Env, b: Bytes, declaredSize: int, declaredType: ContentType, r: Reason, q: Reason)
    ensures HasDefect(env, b, declaredSize, declaredType, r) && HasDefect(env, b, declaredSize, declaredType, q) ==>
              r == q
    ensures HasDefect(env, b, declaredSize, declaredType, r) ==> !MeetsPolicy(env, b, declaredSize, declaredType)
  {
  }

  /** For every stored object, with or without a declared length. */
  lemma RefusalsBlameTheDefect(env: Env, data: Bytes, lengthKnown: bool, declaredSize: int, declaredType: ContentType)
    ensures var verdict := ValidateImageBytes(env, HonestSnapshot(data, lengthKnown, MAX_UPLOAD_BYTES), declaredSize,
                                              declaredType);
            match verdict
            case Accepted(image) =>
              && MeetsPolicy(env, data, declaredSize, declaredType) && image.bytes == data
              && (image.format.Jpeg? <==> declaredType.ImageJpeg?) && (image.format.Png? <==> declaredType.ImagePng?)
            case Refused(f) => Blames(env, data, declaredSize, declaredType, f)
            case Unreadable => false
  {
    CaptureThenValidate(env, data, lengthKnown, declaredSize, declaredType);
    var s := HonestSnapshot(data, lengthKnown, MAX_UPLOAD_BYTES);
    if |data| <= MAX_UPLOAD_BYTES {
      assert Content(s) == data;
    }
    var verdict := ValidateImageBytes(env, s, declaredSize, declaredType);
    if verdict.Refused? {
      assert "policy_version" in verdict.failure.evidence;
    }
  }

  // ------------------------------------------------------------ candidates

  function CandidateOf(id: Uuid, image: ValidatedImage): TrackedCandidate {
    TrackedCandidate(image.sha256, Media(CandidateId(id, image.sha256)), image.size, 1, image.format, image.width,
        image.height)
  }

  predicate CandidateMatches(env: Env, t: TrackedCandidate, s: Snapshot) {
    |Content(s)| == t.encodedSize && env.sha256(Content(s)) == t.sha256
  }

  function CandidateMismatchFailure(s: Snapshot): Failure {
    Failure(InternalInvariant, CandidateIntegrityMismatch, CandidateVerify,
            {"policy_version", "expected_size", "observed_size", "expected_sha256"}
            + if s.body.Some? then {"observed_sha256"} else {})
  }

  const RegistrationMismatch: Failure :=
    Failure(InternalInvariant, DecoderInvariantMismatch, Decode, {"policy_version", "format", "width", "height"})

  /** publicFailureCode; "" is the code that makes a status read fail. */
  function PublicFailureCode(kind: RejectionClass, reason: Reason): string {
    match kind
    case InvalidInput =>
      (match reason
       case ObjectTooLarge => "image_too_large"
       case DimensionsLimitExceeded => "image_too_large"
       case PixelLimitExceeded => "image_too_large"
       case DeclaredSizeMismatch => "invalid_image"
       case InvalidImageEncoding => "invalid_image"
       case DeclaredContentTypeMismatch => "invalid_image"
       case MalformedImage => "invalid_image"
       case _ => "")
    case InternalInvariant =>
      if reason.DecoderInvariantMismatch? || reason.CandidateIntegrityMismatch? then "upload_processing_failed" else ""
  }

  /** Which code the client sees. */
  lemma PublicCodes(kind: RejectionClass, reason: Reason)
    ensures PublicFailureCode(kind, reason) == "image_too_large" <==>
              kind.InvalidInput? && reason in {ObjectTooLarge, DimensionsLimitExceeded, PixelLimitExceeded}
    ensures PublicFailureCode(kind, reason) == "invalid_image" <==>
              && kind.InvalidInput?
              && reason in {DeclaredSizeMismatch, InvalidImageEncoding, DeclaredContentTypeMismatch, MalformedImage}
    ensures PublicFailureCode(kind, reason) == "upload_processing_failed" <==>
              kind.InternalInvariant? && reason in {DecoderInvariantMismatch, CandidateIntegrityMismatch}
  {
    assert "image_too_large" != "invalid_image" && "image_too_large" != "upload_processing_failed";
    assert "invalid_image" != "upload_processing_failed";
  }

  /** A public code exists exactly for the pairs the schema admits. */
  lemma PublicCodesCoverTheSchema(kind: RejectionClass, reason: Reason)
    ensures PublicFailureCode(kind, reason) != "" <==> ReasonFits(kind, reason)
  {
  }
}
