/**
 * Upload sessions of one blob: its row, its upload row with the parts received,
 * and the object stored under its key. One function per database transaction
 * (or storage action), and the service that performs them in place.
 */
module Blobs {
  import opened Common
  import opened BlobParts

  type Time = int
  type UploadId = nat
  type Content = seq<int>

  /** SHA-256 as an injective function. */
  datatype Digest = DigestOf(content: Content)

  const LEASE: int := 60 * 60 * 1000
  const UPLOAD_LIFETIME: int := 24 * 60 * 60 * 1000

  datatype BlobState = Uploading | Ready
  datatype Blob = Blob(size: nat, hash: Digest, state: BlobState)
  datatype Upload = Upload(id: UploadId, expectedSize: nat, expiresAt: Time, completingAt: Option<Time>,
                           completedAt: Option<Time>, receivedSize: nat, parts: map<nat, nat>)

  /** The rows of one blob id (at most one upload row, by its unique index) and the object behind its storage key. */
  datatype Rows = Rows(blob: Option<Blob>, upload: Option<Upload>, stored: Option<Content>)

  datatype Config = Config(partBytes: nat, maxBytes: nat)

  /** What the server configuration demands of its limits. */
  predicate ConfigOk(config: Config) {
    config.partBytes > 0 && config.maxBytes <= 10_000 * config.partBytes
  }

  datatype BlobError =
    | BlobEmpty | BlobTooLarge | IdentityConflict | StateInvalid | UploadRaced
    | PartInvalid | PartSizeMismatch | UploadNotFound | UploadCompleting | Incomplete | HashMismatch | BlobNotFound

  predicate IsUpload(rows: Rows, id: UploadId) {
    rows.upload.Some? && rows.upload.value.id == id
  }

  // ----------------------------------------------------------- createUpload

  datatype Looked = Refused(error: BlobError) | AlreadyExists | Resumed(id: UploadId) | Proceed(stale: Option<UploadId>)

  function Look(rows: Rows, config: Config, size: nat, hash: Digest, now: Time): Looked {
    if size == 0 then Refused(BlobEmpty)
    else if size > config.maxBytes then Refused(BlobTooLarge)
    else if rows.blob.None? then Proceed(None)
    else if rows.blob.value.size != size || rows.blob.value.hash != hash then Refused(IdentityConflict)
    else if rows.blob.value.state == Ready then AlreadyExists
    else match rows.upload
      case None => Proceed(None)
      case Some(upload) =>
        if upload.completedAt.Some? then Refused(StateInvalid)
        else if upload.expiresAt > now || (upload.completingAt.Some? && upload.completingAt.value > now - LEASE) then Resumed(upload.id)
        else Proceed(Some(upload.id))
  }

  function DropUpload(rows: Rows, id: UploadId): Rows {
    if IsUpload(rows, id) then rows.(upload := None) else rows
  }

  /** The creating transaction; None when the unique index on the upload row rolls it back. */
  function InsertUpload(rows: Rows, size: nat, hash: Digest, newId: UploadId, at: Time): Option<Rows> {
    if rows.upload.Some? then None
    else Some(rows.(blob := Some(Blob(size, hash, Uploading)),
                    upload := Some(Upload(newId, size, at + UPLOAD_LIFETIME, None, None, 0, map[]))))
  }

  // -------------------------------------------------------------- writePart

  /** The row written for a part that passed the size test; the sum is recorded with it. */
  ghost function PutPart(rows: Rows, config: Config, id: UploadId, number: nat): Rows {
    if !IsUpload(rows, id) then rows
    else
      var upload := rows.upload.value;
      var parts := upload.parts[number := SizeIn(upload.expectedSize, config.partBytes, number)];
      rows.(upload := Some(upload.(parts := parts, receivedSize := SumOver(parts, Bytes))))
  }

  // --------------------------------------------------------------- complete

  predicate Claimable(upload: Upload, at: Time) {
    && upload.completedAt.None?
    && match upload.completingAt
       case None => upload.expiresAt > at
       case Some(since) => since < at - LEASE
  }

  function Claim(rows: Rows, id: UploadId, at: Time): (Rows, bool) {
    if IsUpload(rows, id) && Claimable(rows.upload.value, at)
    then (rows.(upload := Some(rows.upload.value.(completingAt := Some(at)))), true)
    else (rows, false)
  }

  datatype Verdict = Accepted(digest: Digest) | Rejected(error: BlobError)

  predicate AllParts(rows: Rows, config: Config, id: UploadId, expected: nat)
    requires config.partBytes > 0
  {
    IsUpload(rows, id) && rows.upload.value.parts == Tiling(expected, config.partBytes)
  }

  /** Assembling when nothing is stored yet, digesting, and discarding everything on a mismatch. */
  function Verify(rows: Rows, config: Config, id: UploadId, expected: nat, assembled: Content): (Rows, Verdict)
    requires config.partBytes > 0
  {
    if !AllParts(rows, config, id, expected) then (rows, Rejected(Incomplete))
    else
      var content := if rows.stored.Some? then rows.stored.value else assembled;
      if rows.blob.None? || rows.blob.value.hash != DigestOf(content)
      then (Rows(None, None, None), Rejected(HashMismatch))
      else (rows.(stored := Some(content)), Accepted(DigestOf(content)))
  }

  /** Neither the lease nor the verified hash is looked at again. */
  function Commit(rows: Rows, id: UploadId, total: nat, now: Time): Rows {
    Rows(if rows.blob.Some? then Some(rows.blob.value.(state := Ready)) else None,
         if IsUpload(rows, id) then Some(rows.upload.value.(completedAt := Some(now), completingAt := None, receivedSize := total)) else rows.upload,
         rows.stored)
  }

  function Release(rows: Rows, id: UploadId, at: Time): Rows {
    if IsUpload(rows, id) && rows.upload.value.completingAt == Some(at) && rows.upload.value.completedAt.None?
    then rows.(upload := Some(rows.upload.value.(completingAt := None)))
    else rows
  }

  /** A blob that is ready has its content, and the content has the recorded hash. */
  predicate Sound(rows: Rows) {
    rows.blob.Some? && rows.blob.value.state == Ready ==>
      rows.stored.Some? && DigestOf(rows.stored.value) == rows.blob.value.hash
  }

  /** What every upload row satisfies between transactions. */
  ghost predicate UploadOk(upload: Upload, config: Config) {
    && config.partBytes > 0 && 1 <= upload.expectedSize <= config.maxBytes
    && PartOf(upload.parts, Tiling(upload.expectedSize, config.partBytes))
    && upload.receivedSize == SumOver(upload.parts, Bytes)
    && (upload.completedAt.Some? ==>
          upload.completingAt.None? && upload.parts == Tiling(upload.expectedSize, config.partBytes))
  }

  ghost predicate RowsOk(rows: Rows, config: Config) {
    rows.upload.Some? ==> UploadOk(rows.upload.value, config)
  }

  // ---------------------------------------------------------------- service

  datatype Opened = AlreadyThere | Session(id: UploadId, resumed: bool)
  datatype Completed = Completed(size: nat, hash: Digest)

  class BlobService {
    const config: Config
    var blob: Option<Blob>
    var upload: Option<Upload>
    var stored: Option<Content>

    constructor (config: Config)
      requires ConfigOk(config)
      ensures Valid() && Contents() == Rows(None, None, None) && this.config == config
    {
      this.config := config;
      blob, upload, stored := None, None, None;
    }

    ghost function Contents(): Rows
      reads this
    {
      Rows(blob, upload, stored)
    }

    ghost predicate Valid()
      reads this
    {
      ConfigOk(config) && RowsOk(Contents(), config)
    }

    /** One call of `createUpload` that nobody interleaves with. */
    method CreateUpload(size: nat, hash: Digest, newId: UploadId, now: Time) returns (r: Result<Opened, BlobError>)
      requires Valid()
      modifies this
      ensures Valid() && (Sound(old(Contents())) ==> Sound(Contents()))
      ensures match Look(old(Contents()), config, size, hash, now)
              case Refused(error) => r == Err(error) && Contents() == old(Contents())
              case AlreadyExists => r == Ok(AlreadyThere) && Contents() == old(Contents())
              case Resumed(id) => r == Ok(Session(id, true)) && Contents() == old(Contents())
              case Proceed(stale) =>
                var before := if stale.Some? then DropUpload(old(Contents()), stale.value) else old(Contents());
                match InsertUpload(before, size, hash, newId, now)
                case None => r == Err(UploadRaced) && Contents() == before
                case Some(after) => r == Ok(Session(newId, false)) && Contents() == after
    {
      if size == 0 {
        return Err(BlobEmpty);
      }
      if size > config.maxBytes {
        return Err(BlobTooLarge);
      }
      if blob.Some? {
        if blob.value.size != size || blob.value.hash != hash {
          return Err(IdentityConflict);
        }
        if blob.value.state == Ready {
          return Ok(AlreadyThere);
        }
        if upload.Some? {
          if upload.value.completedAt.Some? {
            return Err(StateInvalid);
          }
          if upload.value.expiresAt > now || (upload.value.completingAt.Some? && upload.value.completingAt.value > now - LEASE) {
            return Ok(Session(upload.value.id, true));
          }
          upload := None;
        }
      }
      if upload.Some? {
        return Err(UploadRaced);
      }
      blob := Some(Blob(size, hash, Uploading));
      upload := Some(Upload(newId, size, now + UPLOAD_LIFETIME, None, None, 0, map[]));
      return Ok(Session(newId, false));
    }

    /** `receivedSize` is what all parts received add up to, never more than the blob, and all of it only with the last part. */
    method WritePart(id: UploadId, number: nat, bytes: nat, now: Time) returns (r: Result<nat, BlobError>)
      requires Valid() && number >= 1
      modifies this`upload
      ensures Valid() && (Sound(old(Contents())) ==> Sound(Contents()))
      ensures r.Ok? <==> 0 < bytes <= config.partBytes && old(IsActive(id, now))
                         && PartSize(old(upload).value.expectedSize, config.partBytes, number) == Some(bytes)
      ensures r.Err? ==> Contents() == old(Contents())
      ensures r.Ok? ==> Contents() == PutPart(old(Contents()), config, id, number) && r.value == upload.value.receivedSize
      ensures r.Ok? ==> r.value <= upload.value.expectedSize
                        && (r.value == upload.value.expectedSize <==> upload.value.parts == Tiling(upload.value.expectedSize, config.partBytes))
    {
      if bytes == 0 || bytes > config.partBytes {
        return Err(PartInvalid);
      }
      if !IsActive(id, now) {
        return Err(UploadNotFound);
      }
      var session := upload.value;
      if PartSize(session.expectedSize, config.partBytes, number) != Some(bytes) {
        return Err(PartSizeMismatch);
      }
      PartsTile(session.expectedSize, config.partBytes, number);
      var parts := session.parts[number := bytes];
      ReceivedBounds(parts, session.expectedSize, config.partBytes);
      var received := SumOf(parts);
      upload := Some(session.(parts := parts, receivedSize := received));
      return Ok(received);
    }

    predicate IsActive(id: UploadId, now: Time)
      reads this
    {
      upload.Some? && upload.value.id == id && upload.value.completedAt.None? && upload.value.completingAt.None? && upload.value.expiresAt > now
    }

    method ClaimCompletion(id: UploadId, at: Time) returns (claimed: bool)
      requires Valid()
      modifies this`upload
      ensures Valid() && (Contents(), claimed) == Claim(old(Contents()), id, at)
    {
      claimed := upload.Some? && upload.value.id == id && Claimable(upload.value, at);
      if claimed {
        upload := Some(upload.value.(completingAt := Some(at)));
      }
    }

    /** Tests the parts, in the order the query returns their rows, one by one and in sum, and digests what is stored. */
    method VerifyContent(id: UploadId, expected: nat, rows: seq<Part>, assembled: Content) returns (verdict: Verdict)
      requires Valid() && (IsUpload(Contents(), id) ==> Lists(rows, upload.value.parts))
      modifies this
      ensures Valid() && (Contents(), verdict) == Verify(old(Contents()), config, id, expected, assembled)
      ensures verdict.Accepted? ==> blob.Some? && stored.Some? && verdict.digest == blob.value.hash == DigestOf(stored.value)
    {
      if upload.None? || upload.value.id != id {
        return Rejected(Incomplete);
      }
      if Total(rows) != expected || !PartsValid(rows, expected, config.partBytes) {
        TestMeansComplete(rows, upload.value.parts, expected, config.partBytes);
        return Rejected(Incomplete);
      }
      TestMeansComplete(rows, upload.value.parts, expected, config.partBytes);
      if stored.None? {
        stored := Some(assembled);
      }
      var digest := DigestOf(stored.value);
      if blob.None? || digest != blob.value.hash {
        stored, upload, blob := None, None, None;
        return Rejected(HashMismatch);
      }
      return Accepted(digest);
    }

    method CommitCompletion(id: UploadId, total: nat, now: Time)
      requires Valid()
      requires IsUpload(Contents(), id) ==> AllParts(Contents(), config, id, total) && total == upload.value.expectedSize
      modifies this
      ensures Valid() && Contents() == Commit(old(Contents()), id, total, now)
    {
      if upload.Some? && upload.value.id == id {
        TilingSum(total, config.partBytes);
        upload := Some(upload.value.(completedAt := Some(now), completingAt := None, receivedSize := total));
      }
      if blob.Some? {
        blob := Some(blob.value.(state := Ready));
      }
    }

    method ReleaseClaim(id: UploadId, at: Time)
      requires Valid()
      modifies this`upload
      ensures Valid() && Contents() == Release(old(Contents()), id, at)
    {
      if upload.Some? && upload.value.id == id && upload.value.completingAt == Some(at) && upload.value.completedAt.None? {
        upload := Some(upload.value.(completingAt := None));
      }
    }

    /**
     * One call of `complete` that nobody interleaves with: success means a ready, sound blob, also for a call
     * repeated after success; a failure after the claim gives the claim back.
     */
    method Complete(id: UploadId, rows: seq<Part>, assembled: Content, now: Time) returns (r: Result<Completed, BlobError>)
      requires Valid() && (IsUpload(Contents(), id) ==> Lists(rows, upload.value.parts))
      modifies this
      ensures Valid() && (Sound(old(Contents())) ==> Sound(Contents()))
      ensures r.Ok? ==> blob.Some? && blob.value.state == Ready && r.value.hash == blob.value.hash && old(IsUpload(Contents(), id))
      ensures r.Ok? && old(upload).value.completedAt.None? ==>
                upload == Some(old(upload).value.(completedAt := Some(now), completingAt := None)) && Sound(Contents())
      ensures r.Err? ==> Contents() == Rows(None, None, None) || Contents() == old(Contents())
                         || (old(IsUpload(Contents(), id)) && Contents() == old(Contents()).(upload := Some(old(upload).value.(completingAt := None))))
      ensures r == Err(HashMismatch) ==> Contents() == Rows(None, None, None)
    {
      if upload.None? || upload.value.id != id {
        return Err(UploadNotFound);
      }
      if upload.value.completedAt.Some? {
        if blob.None? || blob.value.state != Ready {
          return Err(BlobNotFound);
        }
        return Ok(Completed(blob.value.size, blob.value.hash));
      }
      if upload.value.expiresAt <= now && upload.value.completingAt.None? {
        return Err(UploadNotFound);
      }
      var claimed := ClaimCompletion(id, now);
      if !claimed {
        return Err(UploadCompleting);
      }
      var total := upload.value.expectedSize;
      var verdict := VerifyContent(id, total, rows, assembled);
      if verdict.Rejected? {
        ReleaseClaim(id, now);
        return Err(verdict.error);
      }
      TilingSum(total, config.partBytes);
      CommitCompletion(id, total, now);
      return Ok(Completed(total, verdict.digest));
    }
  }

  /** The stored sizes summed up, one row at a time. */
  method SumOf(parts: map<nat, nat>) returns (total: nat)
    ensures total == SumOver(parts, Bytes)
  {
    var rest := parts;
    total := 0;
    while rest != map[]
      invariant total + SumOver(rest, Bytes) == SumOver(parts, Bytes)
      decreases |rest|
    {
      var n := LeastKey(rest.Keys);
      SumSplit(rest, Bytes, n);
      total, rest := total + rest[n], rest - {n};
    }
  }

  method LeastKey(keys: set<nat>) returns (least: nat)
    requires keys != {}
    ensures least in keys && forall n :: n in keys ==> least <= n
  {
    var rest := keys;
    least :| least in keys;
    while rest != {}
      invariant rest <= keys && least in keys
      invariant forall n :: n in keys && n !in rest ==> least <= n
      decreases |rest|
    {
      var n :| n in rest;
      least, rest := if n < least then n else least, rest - {n};
    }
  }
}
