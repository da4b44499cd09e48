/** Outbox records, the publish guard and the dedup-window rule (src/outbox.rs,
    src/stream.rs, src/transactional.rs). Times and durations are in milliseconds. */
module Outbox {
  import opened Wrappers
  import DedupId
  import Subjects

  const MAX_MESSAGE_BYTES: nat := 1_048_576
  const MAX_PUBLISH_BACKOFF: nat := 300_000

  datatype MessagingError =
    | InvalidSubject(cause: Subjects.SubjectError)
    | PayloadTooLarge(actual: nat, limit: nat)
    | Serialize(text: string)
    | Transport(text: string)
    | Database
    | Config

  datatype Status = Pending | Published | Failed

  /** A JSON payload, known only by what its deterministic serializer makes of it. */
  datatype Json = Json(encoding: Result<seq<byte>, string>)

  datatype OutboxRecord = OutboxRecord(
    id: Uuid,
    subject: string,
    tenant: Option<Uuid>,
    key: seq<byte>,
    dedupId: string,
    payload: Json,
    createdAt: int,
    status: Status,
    attempts: nat)

  function PendingForTenant(sha256: seq<byte> -> DedupId.Digest, id: Uuid, subject: string, tenant: Option<Uuid>,
                            key: seq<byte>, payload: Json, createdAt: int): OutboxRecord {
    OutboxRecord(id, subject, tenant, key, DedupId.TenantScopedDedupId(sha256, DedupId.Scope(tenant, key)),
                 payload, createdAt, Pending, 0)
  }

  function ValidateForPublish(subject: string, payloadLen: nat): Result<(), MessagingError> {
    match Subjects.Parse(subject)
    case Failure(e) => Failure(InvalidSubject(e))
    case Success(_) =>
      if payloadLen > MAX_MESSAGE_BYTES then Failure(PayloadTooLarge(payloadLen, MAX_MESSAGE_BYTES)) else Success(())
  }

  function ValidateCompatPublish(subject: string, payloadLen: nat): Result<(), MessagingError> {
    if !Subjects.IsPublishableSubject(subject) then Failure(InvalidSubject(Subjects.Malformed(subject)))
    else if payloadLen > MAX_MESSAGE_BYTES then Failure(PayloadTooLarge(payloadLen, MAX_MESSAGE_BYTES))
    else Success(())
  }

  /** What stands between a record and the broker: its encoded payload, or the defect for
      which it is parked (drain) or refused (enqueue). */
  function Prepare(subject: string, payload: Json): Result<seq<byte>, MessagingError> {
    match payload.encoding
    case Failure(text) => Failure(Serialize(text))
    case Success(bytes) =>
      match ValidateForPublish(subject, |bytes|)
      case Failure(e) => Failure(e)
      case Success(_) => Success(bytes)
  }

  predicate Publishable(rec: OutboxRecord) { Prepare(rec.subject, rec.payload).Success? }

  /** The text an error leaves in `last_error`. */
  function ErrorText(e: MessagingError): string {
    match e
    case InvalidSubject(_) => "invalid publish subject"
    case PayloadTooLarge(actual, limit) =>
      "message payload is " + Subjects.Decimal(actual) + " bytes; limit is " + Subjects.Decimal(limit)
    case Serialize(text) => text
    case Transport(text) => "transport error: " + text
    case Database => "database error"
    case Config => "configuration error"
  }

  function MinDuplicateWindow(claimTtl: nat): nat { claimTtl + MAX_PUBLISH_BACKOFF }

  function VerifyDuplicateWindow(actual: nat, claimTtl: nat): Result<(), MessagingError> {
    if actual < MinDuplicateWindow(claimTtl) then Failure(Config) else Success(())
  }

  /** The stream's window must reach over one lease and five minutes, and need not be longer: ten
      minutes are just enough for the default lease of five. */
  lemma {:induction false} WindowRule(actual: nat, claimTtl: nat)
    ensures VerifyDuplicateWindow(actual, claimTtl).Success? <==> claimTtl + 5 * 60 * 1000 <= actual
    ensures VerifyDuplicateWindow(600_000, 300_000).Success? && VerifyDuplicateWindow(599_999, 300_000).Failure?
  {
  }

  /** Whatever the canonical guard lets through, the compatibility guard does too. */
  lemma {:induction false} CanonicalGuardIsStricter(subject: string, payloadLen: nat)
    requires ValidateForPublish(subject, payloadLen).Success?
    ensures ValidateCompatPublish(subject, payloadLen).Success?
  {
    Subjects.CanonicalPassesCompatGuard(subject);
  }
}
