/** Values of the upload service: identifiers, object keys, table rows and constants.
    Text columns whose CHECK lists a closed set of words are enumerations here. */
module Types {
  datatype Option<+T> = None | Some(value: T)

  const UUIDS: int := 0x1_0000_0000_0000_0000_0000_0000_0000_0000
  const DIGESTS: int := 0x1_0000_0000_0000_0000_0000_0000_0000_0000_0000_0000_0000_0000_0000_0000_0000_0000

  /** A UUID, as its 128-bit number: PostgreSQL orders uuids by that number. */
  type Uuid = x: nat | x < UUIDS
  /** A SHA-256 digest, as its 256-bit number: 32 octets. */
  type Digest = x: nat | x < DIGESTS
  /** Microseconds, the resolution of timestamptz. */
  type Time = int
  type Bytes = seq<bv8>

  const SECOND: int := 1_000_000
  const MINUTE: int := 60_000_000
  const HOUR: int := 3_600_000_000
  const DAY: int := 86_400_000_000
  const CAPABILITY_LIFE: int := 900_000_000
  const RESERVATION_LEASE: int := 30_000_000
  const MAX_UPLOAD_BYTES: int := 10_485_760
  const MAX_AXIS: int := 8_192
  const MAX_PIXELS: int := 8_388_608

  datatype CandidateId = CandidateId(upload: Uuid, sha256: Digest)

  /** staging/<upload> or media/<upload>/<sha256>; module KeyText gives the text. */
  datatype Key = Staging(upload: Uuid) | Media(candidate: CandidateId)

  function Owner(k: Key): Uuid {
    match k
    case Staging(u) => u
    case Media(c) => c.upload
  }

  /** Byte order of the key text. */
  predicate KeyLess(a: Key, b: Key) {
    match (a, b)
    case (Media(c), Media(d)) => c.upload < d.upload || (c.upload == d.upload && c.sha256 < d.sha256)
    case (Media(_), Staging(_)) => true
    case (Staging(_), Media(_)) => false
    case (Staging(u), Staging(v)) => u < v
  }

  datatype State = Pending | Finalizing | Ready | Rejected | Expired

  predicate Terminal(s: State) {
    s.Ready? || s.Rejected? || s.Expired?
  }

  datatype ContentType = ImageJpeg | ImagePng
  datatype Format = Jpeg | Png | OtherFormat(name: string)

  function ContentTypeOf(f: Format): Option<ContentType> {
    match f
    case Jpeg => Some(ImageJpeg)
    case Png => Some(ImagePng)
    case OtherFormat(_) => None
  }

  datatype ErrorClass = Transient | Ambiguous | Auth | Configuration | OtherDeterministic
  datatype CleanupResult = DeleteSucceeded | ConfirmedAbsent | DeleteError(kind: ErrorClass)

  datatype RejectionClass = InvalidInput | InternalInvariant
  datatype Reason =
    | ObjectTooLarge | DimensionsLimitExceeded | PixelLimitExceeded | DeclaredSizeMismatch
    | InvalidImageEncoding | DeclaredContentTypeMismatch | MalformedImage
    | DecoderInvariantMismatch | CandidateIntegrityMismatch
  datatype Phase = StagingRead | DecodeConfig | Decode | CandidateVerify
  datatype ExpiryReason = UploadDeadlineElapsed | StagingMissingAfterWriteWindow

  /** Evidence keeps the field names only. */
  datatype Failure = Failure(kind: RejectionClass, reason: Reason, phase: Phase, evidence: set<string>)

  datatype Upload = Upload(
    idempotencyKey: Uuid,
    stagingKey: Key,
    declaredSize: int,
    declaredType: ContentType,
    state: State,
    createdAt: Time,
    deadline: Time,
    horizon: Time,
    completionRequestedAt: Option<Time>,
    reconcileAfter: Option<Time>,
    failureStreak: int,
    lastFailureClass: Option<ErrorClass>,
    lastFailureAt: Option<Time>,
    claimToken: Option<Uuid>,
    claimExpiresAt: Option<Time>,
    terminalAt: Option<Time>,
    finalKey: Option<Key>,
    rejectionClass: Option<RejectionClass>,
    rejectionReason: Option<Reason>,
    rejectionPolicy: Option<int>,
    rejectionPhase: Option<Phase>,
    rejectionEvidence: Option<set<string>>,
    expiryReason: Option<ExpiryReason>)

  datatype TrackedCandidate = TrackedCandidate(
    sha256: Digest,
    objectKey: Key,
    encodedSize: int,
    policyVersion: int,
    format: Format,
    width: int,
    height: int)

  datatype CandidateRow = CandidateRow(tracked: TrackedCandidate, registeredAt: Time)

  datatype Tombstone = Tombstone(
    upload: Uuid,
    candidateSha: Option<Digest>,
    createdAt: Time,
    deleteNotBefore: Time,
    nextAttemptAt: Time,
    reservationToken: Option<Uuid>,
    reservationExpiresAt: Option<Time>,
    failureStreak: int,
    lastAttemptAt: Option<Time>,
    lastResult: Option<CleanupResult>)

  /** The three tables; the map keys are the primary keys. */
  datatype Db = Db(
    uploads: map<Uuid, Upload>,
    candidates: map<CandidateId, CandidateRow>,
    tombstones: map<Key, Tombstone>)

  datatype ImageConfig = ImageConfig(format: Format, width: int, height: int)

  /** What the program does not define: SHA-256, the two image decoders, and the configured claim lease. */
  datatype Env = Env(
    sha256: Bytes -> Digest,
    decodeConfig: Bytes -> Option<ImageConfig>,
    decode: Bytes -> Option<ImageConfig>,
    lease: int)
}
