/**
 * Any number of clients creating, filling and completing the upload of one blob:
 * every transaction of `Blobs` is one step, callers stall or crash between any
 * two of their steps, and a completion lease can be taken over from a caller
 * that is only slow.
 */
module BlobProtocol {
  import opened Common
  import opened BlobParts
  import opened Blobs

  type CreatorId = nat
  type CompleterId = nat

  /** Between the reads and the inserting transaction of `createUpload`. */
  datatype Creation = Creation(size: nat, hash: Digest, stale: Option<UploadId>)

  /** Between the transactions of `complete`; `at` is the completer's own claim time. */
  datatype Phase =
    | Claimed(id: UploadId, at: Time, expected: nat)
    | Verified(id: UploadId, at: Time, expected: nat, digest: Digest)
    | Failed(id: UploadId, at: Time)

  datatype System = System(rows: Rows, config: Config, creations: map<CreatorId, Creation>,
                           phases: map<CompleterId, Phase>, now: Time, used: set<UploadId>)

  datatype Event =
    | Tick(to: Time)
    | LookUp(creator: CreatorId, size: nat, hash: Digest)
    | DropStale(creator: CreatorId)
    | Insert(creator: CreatorId, newId: UploadId, at: Time)
    | PutPart(id: UploadId, number: nat)
    | Claim(completer: CompleterId, id: UploadId, at: Time)
    | Verify(completer: CompleterId, assembled: Content)
    | Fail(completer: CompleterId)
    | Commit(completer: CompleterId)
    | Release(completer: CompleterId)
    | Crash(completer: CompleterId)

  /** A claim writes a time its completer read before, however long ago; a part may be recorded long after its upload was looked up. */
  predicate Enabled(s: System, e: Event) {
    match e
    case Tick(to) => s.now <= to
    case LookUp(creator, size, hash) => Look(s.rows, s.config, size, hash, s.now).Proceed?
    case DropStale(creator) => creator in s.creations && s.creations[creator].stale.Some?
    case Insert(creator, newId, _) => creator in s.creations && s.creations[creator].stale.None? && newId !in s.used
    case PutPart(id, number) =>
      IsUpload(s.rows, id) && number >= 1 && PartSize(s.rows.upload.value.expectedSize, s.config.partBytes, number).Some?
    case Claim(completer, _, at) => completer !in s.phases && at <= s.now
    case Verify(completer, _) => completer in s.phases && s.phases[completer].Claimed? && s.config.partBytes > 0
    case Fail(completer) => completer in s.phases
    case Commit(completer) => completer in s.phases && s.phases[completer].Verified?
    case Release(completer) => completer in s.phases && s.phases[completer].Failed?
    case Crash(_) => true
  }

  ghost function Apply(s: System, e: Event): System
    requires Enabled(s, e)
  {
    match e
    case Tick(to) => s.(now := to)
    case LookUp(creator, size, hash) =>
      s.(creations := s.creations[creator := Creation(size, hash, Look(s.rows, s.config, size, hash, s.now).stale)])
    case DropStale(creator) =>
      var creation := s.creations[creator];
      s.(rows := DropUpload(s.rows, creation.stale.value), creations := s.creations[creator := creation.(stale := None)])
    case Insert(creator, newId, at) =>
      var creation := s.creations[creator];
      var after := InsertUpload(s.rows, creation.size, creation.hash, newId, at);
      s.(rows := if after.Some? then after.value else s.rows, creations := s.creations - {creator}, used := s.used + {newId})
    case PutPart(id, number) => s.(rows := Blobs.PutPart(s.rows, s.config, id, number))
    case Claim(completer, id, at) =>
      var (rows, claimed) := Blobs.Claim(s.rows, id, at);
      if claimed then s.(rows := rows, phases := s.phases[completer := Claimed(id, at, rows.upload.value.expectedSize)]) else s
    case Verify(completer, assembled) =>
      var p := s.phases[completer];
      var (rows, verdict) := Blobs.Verify(s.rows, s.config, p.id, p.expected, assembled);
      s.(rows := rows,
         phases := s.phases[completer := if verdict.Accepted? then Verified(p.id, p.at, p.expected, verdict.digest) else Failed(p.id, p.at)])
    case Fail(completer) => s.(phases := s.phases[completer := Failed(s.phases[completer].id, s.phases[completer].at)])
    case Commit(completer) =>
      s.(rows := Blobs.Commit(s.rows, s.phases[completer].id, s.phases[completer].expected, s.now), phases := s.phases - {completer})
    case Release(completer) =>
      s.(rows := Blobs.Release(s.rows, s.phases[completer].id, s.phases[completer].at), phases := s.phases - {completer})
    case Crash(completer) => s.(phases := s.phases - {completer})
  }

  predicate Initial(s: System) {
    s.rows == Rows(None, None, None) && ConfigOk(s.config) && s.creations == map[] && s.phases == map[] && s.used == {}
  }

  ghost predicate IsRun(states: seq<System>, events: seq<Event>) {
    && |states| == |events| + 1
    && forall i :: 0 <= i < |events| ==> Enabled(states[i], events[i]) && states[i + 1] == Apply(states[i], events[i])
  }

  // ------------------------------------------------------------ lease safety

  predicate LeaseRunning(s: System, p: Phase) {
    s.now <= p.at + LEASE
  }

  /** A completer whose lease still runs is the one named in the row, until the upload is completed. */
  predicate PhaseOk(s: System, p: Phase)
    requires ConfigOk(s.config)
  {
    && p.id in s.used && p.at <= s.now
    && (IsUpload(s.rows, p.id) && s.rows.upload.value.completedAt.None? && LeaseRunning(s, p) ==>
          s.rows.upload.value.completingAt == Some(p.at))
    && (IsUpload(s.rows, p.id) && !p.Failed? ==> p.expected == s.rows.upload.value.expectedSize)
    && (IsUpload(s.rows, p.id) && p.Verified? ==> AllParts(s.rows, s.config, p.id, p.expected))
  }

  ghost predicate Apart(s: System, p: Phase, q: Phase) {
    p.id == q.id ==> !(LeaseRunning(s, p) && LeaseRunning(s, q))
  }

  ghost predicate Inv(s: System) {
    && ConfigOk(s.config) && RowsOk(s.rows, s.config)
    && (s.rows.upload.Some? ==> s.rows.upload.value.id in s.used
                                && (s.rows.upload.value.completingAt.Some? ==> s.rows.upload.value.completingAt.value <= s.now))
    && (forall c :: c in s.creations ==> 1 <= s.creations[c].size <= s.config.maxBytes)
    && (forall c :: c in s.phases ==> PhaseOk(s, s.phases[c]))
    && forall c, d :: c in s.phases && d in s.phases && c != d ==> Apart(s, s.phases[c], s.phases[d])
  }

  lemma RowsStep(s: System, e: Event)
    requires Inv(s) && Enabled(s, e)
    ensures ConfigOk(Apply(s, e).config) && RowsOk(Apply(s, e).rows, s.config)
  {
    if e.PutPart? {
      PartsTile(s.rows.upload.value.expectedSize, s.config.partBytes, e.number);
    } else if e.Commit? {
      assert PhaseOk(s, s.phases[e.completer]);
      TilingSum(s.phases[e.completer].expected, s.config.partBytes);
    } else if e.Insert? && s.rows.upload.None? {
      var none: map<nat, nat> := map[];
      assert SumOver(none, Bytes) == 0;
    }
  }

  lemma BoundsStep(s: System, e: Event)
    requires Inv(s) && Enabled(s, e)
    ensures var t := Apply(s, e);
            && s.used <= t.used
            && (t.rows.upload.Some? ==> t.rows.upload.value.id in t.used
                                        && (t.rows.upload.value.completingAt.Some? ==> t.rows.upload.value.completingAt.value <= t.now))
            && forall c :: c in t.creations ==> 1 <= t.creations[c].size <= t.config.maxBytes
  {
  }

  lemma PhaseStep(s: System, e: Event, c: CompleterId)
    requires Inv(s) && Enabled(s, e) && c in Apply(s, e).phases
    ensures PhaseOk(Apply(s, e), Apply(s, e).phases[c])
  {
    var t := Apply(s, e);
    if c in s.phases {
      assert PhaseOk(s, s.phases[c]);
      KeptRow(s, e);
      if e.Release? {
        assert Apart(s, s.phases[c], s.phases[e.completer]);
      }
    }
  }

  /** As long as an upload row exists its size stays, and a complete one stays complete. */
  lemma KeptRow(s: System, e: Event)
    requires Inv(s) && Enabled(s, e)
    ensures var t := Apply(s, e);
            t.rows.upload.Some? && t.rows.upload.value.id in s.used ==>
              && s.rows.upload.Some? && t.rows.upload.value.id == s.rows.upload.value.id
              && t.rows.upload.value.expectedSize == s.rows.upload.value.expectedSize
              && (s.rows.upload.value.parts == Tiling(s.rows.upload.value.expectedSize, s.config.partBytes) ==>
                    t.rows.upload.value.parts == s.rows.upload.value.parts)
  {
    if e.PutPart? {
      PartsTile(s.rows.upload.value.expectedSize, s.config.partBytes, e.number);
    }
  }

  lemma ApartStep(s: System, e: Event, c: CompleterId, d: CompleterId)
    requires Inv(s) && Enabled(s, e) && c in Apply(s, e).phases && d in Apply(s, e).phases && c != d
    ensures Apart(Apply(s, e), Apply(s, e).phases[c], Apply(s, e).phases[d])
  {
    assert c in s.phases ==> PhaseOk(s, s.phases[c]);
    assert d in s.phases ==> PhaseOk(s, s.phases[d]);
    if c in s.phases && d in s.phases {
      assert Apart(s, s.phases[c], s.phases[d]);
    }
  }

  lemma InvStep(s: System, e: Event)
    requires Inv(s) && Enabled(s, e)
    ensures Inv(Apply(s, e))
  {
    RowsStep(s, e);
    BoundsStep(s, e);
    var t := Apply(s, e);
    forall c | c in t.phases
      ensures PhaseOk(t, t.phases[c])
    {
      PhaseStep(s, e, c);
    }
    forall c, d | c in t.phases && d in t.phases && c != d
      ensures Apart(t, t.phases[c], t.phases[d])
    {
      ApartStep(s, e, c, d);
    }
  }

  lemma {:induction false} RunInv(states: seq<System>, events: seq<Event>, i: nat)
    requires IsRun(states, events) && Initial(states[0]) && i < |states|
    ensures Inv(states[i])
    decreases i
  {
    if i > 0 {
      RunInv(states, events, i - 1);
      InvStep(states[i - 1], events[i - 1]);
    }
  }

  /** In every run at most one completer of an upload holds a lease that still runs. */
  lemma OneLeaseHolder(states: seq<System>, events: seq<Event>, i: nat, c: CompleterId, d: CompleterId)
    requires IsRun(states, events) && Initial(states[0]) && i < |states|
    requires c in states[i].phases && d in states[i].phases && c != d && states[i].phases[c].id == states[i].phases[d].id
    ensures !(LeaseRunning(states[i], states[i].phases[c]) && LeaseRunning(states[i], states[i].phases[d]))
  {
    RunInv(states, events, i);
    assert Apart(states[i], states[i].phases[c], states[i].phases[d]);
  }

  /** While a completer's lease runs, the release of any other completer of any upload leaves the rows alone. */
  lemma RunningLeaseIsNotCleared(states: seq<System>, events: seq<Event>, i: nat, d: CompleterId)
    requires IsRun(states, events) && Initial(states[0]) && i < |events| && events[i].Release?
    requires d in states[i].phases && d != events[i].completer
    requires IsUpload(states[i].rows, states[i].phases[d].id) && LeaseRunning(states[i], states[i].phases[d])
    ensures states[i + 1].rows == states[i].rows
  {
    RunInv(states, events, i);
    var s := states[i];
    assert PhaseOk(s, s.phases[d]) && Apart(s, s.phases[d], s.phases[events[i].completer]);
  }

  // ------------------------------------------------------- successive claims

  /** The claim of the `i`-th event succeeds. */
  predicate Wins(states: seq<System>, events: seq<Event>, i: nat)
    requires i < |events| && |states| == |events| + 1
  {
    events[i].Claim? && events[i].completer in states[i + 1].phases
  }

  /** The upload was claimed at `t`, and has since been taken over, completed or removed, if anything. */
  predicate TakenSince(s: System, id: UploadId, t: Time) {
    && id in s.used
    && (IsUpload(s.rows, id) && s.rows.upload.value.completedAt.None? ==>
          && s.rows.upload.value.completingAt.Some?
          && (s.rows.upload.value.completingAt.value == t || s.rows.upload.value.completingAt.value > t + LEASE))
  }

  lemma TakenStep(s: System, e: Event, id: UploadId, t: Time)
    requires Enabled(s, e) && TakenSince(s, id, t) && (e.Release? ==> Apply(s, e).rows == s.rows)
    ensures TakenSince(Apply(s, e), id, t)
    ensures e.Claim? && e.id == id && e.completer in Apply(s, e).phases ==> e.at > t + LEASE
  {
  }

  lemma {:induction false} TakenUpTo(states: seq<System>, events: seq<Event>, i: nat, j: nat)
    requires IsRun(states, events) && Initial(states[0]) && i < j < |states| && Wins(states, events, i)
    requires forall k :: i < k < j && events[k].Release? ==> states[k + 1].rows == states[k].rows
    ensures TakenSince(states[j], events[i].id, events[i].at)
    decreases j
  {
    if i + 1 < j {
      TakenUpTo(states, events, i, j - 1);
      var k := j - 1;
      assert events[k].Release? ==> states[k + 1].rows == states[k].rows;
      TakenStep(states[j - 1], events[j - 1], events[i].id, events[i].at);
    } else {
      RunInv(states, events, i);
      assert Enabled(states[i], events[i]);
    }
  }

  /** Successive claims of one upload, by whomever, are more than a lease apart, unless a release gave the claim back in between. */
  lemma ClaimsAreALeaseApart(states: seq<System>, events: seq<Event>, i: nat, j: nat)
    requires IsRun(states, events) && Initial(states[0]) && i < j < |events|
    requires Wins(states, events, i) && Wins(states, events, j) && events[i].id == events[j].id
    requires forall k :: i < k < j && events[k].Release? ==> states[k + 1].rows == states[k].rows
    ensures events[j].at > events[i].at + LEASE
  {
    TakenUpTo(states, events, i, j);
    assert Enabled(states[j], events[j]);
    TakenStep(states[j], events[j], events[i].id, events[i].at);
  }

  // --------------------------------------------------------- how late a claim

  /** Every claiming transaction runs at most `delay` after its completer read the clock. */
  ghost predicate ClaimsWithin(states: seq<System>, events: seq<Event>, delay: int)
    requires |states| == |events| + 1
  {
    forall k :: 0 <= k < |events| ==> WithinDelay(states[k], events[k], delay)
  }

  predicate WithinDelay(s: System, e: Event, delay: int) {
    e.Claim? ==> s.now <= e.at + delay
  }

  ghost predicate ClaimTimesDiffer(s: System) {
    forall c, d :: c in s.phases && d in s.phases && c != d ==> Differ(s.phases[c], s.phases[d])
  }

  predicate Differ(p: Phase, q: Phase) {
    p.id == q.id ==> p.at != q.at
  }

  lemma DifferStep(s: System, e: Event, c: CompleterId, d: CompleterId)
    requires Inv(s) && ClaimTimesDiffer(s) && Enabled(s, e) && WithinDelay(s, e, LEASE)
    requires c in Apply(s, e).phases && d in Apply(s, e).phases && c != d
    ensures Differ(Apply(s, e).phases[c], Apply(s, e).phases[d])
  {
    assert c in s.phases ==> PhaseOk(s, s.phases[c]);
    assert d in s.phases ==> PhaseOk(s, s.phases[d]);
    assert c in s.phases && d in s.phases ==> Differ(s.phases[c], s.phases[d]);
  }

  /** When no claim is more than a lease late, no two completers of an upload have the same claim time. */
  lemma {:induction false} PromptClaimTimesDiffer(states: seq<System>, events: seq<Event>, i: nat)
    requires IsRun(states, events) && Initial(states[0]) && i < |states| && ClaimsWithin(states, events, LEASE)
    ensures ClaimTimesDiffer(states[i])
    decreases i
  {
    if i > 0 {
      PromptClaimTimesDiffer(states, events, i - 1);
      RunInv(states, events, i - 1);
      var s, e := states[i - 1], events[i - 1];
      assert Enabled(s, e) && WithinDelay(s, e, LEASE);
      forall c, d | c in states[i].phases && d in states[i].phases && c != d
        ensures Differ(states[i].phases[c], states[i].phases[d])
      {
        DifferStep(s, e, c, d);
      }
    }
  }

  /** The `i`-th event is a release that changes the row although that carries the claim of another completer in flight. */
  predicate ClearsAnother(states: seq<System>, events: seq<Event>, i: nat, d: CompleterId)
    requires |states| == |events| + 1
  {
    && i < |events| && events[i].Release? && d in states[i].phases && d != events[i].completer
    && IsUpload(states[i].rows, states[i].phases[d].id)
    && states[i].rows.upload.value.completingAt == Some(states[i].phases[d].at)
    && states[i + 1].rows != states[i].rows
  }

  lemma PromptReleaseIsHarmless(states: seq<System>, events: seq<Event>, i: nat, d: CompleterId)
    requires IsRun(states, events) && Initial(states[0]) && ClaimsWithin(states, events, LEASE)
    ensures !ClearsAnother(states, events, i, d)
  {
    if i < |events| {
      PromptClaimTimesDiffer(states, events, i);
      assert Enabled(states[i], events[i]);
      if events[i].Release? && d in states[i].phases && d != events[i].completer {
        assert Differ(states[i].phases[d], states[i].phases[events[i].completer]);
      }
    }
  }

  /** In no run whose claims are at most `delay` late does a release clear the claim of another completer. */
  ghost predicate NeverClearsAnother(delay: int) {
    forall states, events, i, d ::
      IsRun(states, events) && Initial(states[0]) && ClaimsWithin(states, events, delay) ==> !ClearsAnother(states, events, i, d)
  }

  /** A stale completer's release never clears the claim of another exactly as long as no claim is more than a lease late. */
  lemma ReleasesAreSafeIffClaimsPrompt(delay: int)
    ensures NeverClearsAnother(delay) <==> delay <= LEASE
  {
    if delay <= LEASE {
      forall states, events, i: nat, d: CompleterId | IsRun(states, events) && Initial(states[0]) && ClaimsWithin(states, events, delay)
        ensures !ClearsAnother(states, events, i, d)
      {
        forall k | 0 <= k < |events|
          ensures WithinDelay(states[k], events[k], LEASE)
        {
          assert WithinDelay(states[k], events[k], delay);
        }
        PromptReleaseIsHarmless(states, events, i, d);
      }
    } else {
      var states, events := LateClaimIsCleared(Config(1, 1), 1, DigestOf([]));
      forall k | 0 <= k < |events|
        ensures WithinDelay(states[k], events[k], delay)
      {
        assert WithinDelay(states[k], events[k], LEASE + 1);
      }
      assert ClearsAnother(states, events, 10, 3);
    }
  }

  /** What is received is the sum of the parts, never exceeds the blob, and equals it exactly when every part is there; a completed upload is whole, within the part limit. */
  lemma ReceivedInEveryRun(states: seq<System>, events: seq<Event>, i: nat)
    requires IsRun(states, events) && Initial(states[0]) && i < |states| && states[i].rows.upload.Some?
    ensures var upload, config := states[i].rows.upload.value, states[i].config;
            && config.partBytes > 0
            && upload.receivedSize == SumOver(upload.parts, Bytes) <= upload.expectedSize
            && (upload.receivedSize == upload.expectedSize <==> upload.parts == Tiling(upload.expectedSize, config.partBytes))
            && (upload.completedAt.Some? ==> upload.receivedSize == upload.expectedSize)
            && PartCount(upload.expectedSize, config.partBytes) <= 10_000
  {
    RunInv(states, events, i);
    var upload, config := states[i].rows.upload.value, states[i].config;
    ReceivedBounds(upload.parts, upload.expectedSize, config.partBytes);
    PartLimit(upload.expectedSize, config.partBytes);
  }

  /** A crashed completer blocks nobody for longer than its lease. */
  lemma LeaseExpires(s: System, completer: CompleterId)
    requires Inv(s) && completer !in s.phases && s.rows.upload.Some? && s.rows.upload.value.completedAt.None?
    requires s.rows.upload.value.completingAt.Some? && s.now > s.rows.upload.value.completingAt.value + LEASE
    ensures var e := Claim(completer, s.rows.upload.value.id, s.now); Enabled(s, e) && completer in Apply(s, e).phases
  {
  }

  // ---------------------------------------------------------- ready is sound

  /** No creating transaction gives an existing blob row another hash than the one it carries. */
  predicate KeepsIdentity(s: System, e: Event)
    requires Enabled(s, e)
  {
    e.Insert? && s.rows.upload.None? && s.rows.blob.Some? ==> s.creations[e.creator].hash == s.rows.blob.value.hash
  }

  /** A creating transaction replaces the hash of a row only while no completer is between its verification and its commit. */
  ghost predicate Harmless(s: System, e: Event)
    requires Enabled(s, e)
  {
    KeepsIdentity(s, e) || forall c :: c in s.phases ==> !s.phases[c].Verified?
  }

  /** Every completer that has verified may commit now without leaving a ready blob unsound. */
  ghost predicate CommitsSafe(s: System) {
    forall c :: c in s.phases && s.phases[c].Verified? ==> Sound(Apply(s, Commit(c)).rows)
  }

  /** A verified digest is the recorded hash and the hash of the stored content. */
  ghost predicate VerifiedOk(s: System) {
    forall c :: c in s.phases && s.phases[c].Verified? ==> Backed(s.rows, s.phases[c].digest)
  }

  predicate Backed(rows: Rows, digest: Digest) {
    rows.blob.Some? && rows.stored.Some? && digest == rows.blob.value.hash == DigestOf(rows.stored.value)
  }

  lemma VerifiedStep(s: System, e: Event)
    requires Enabled(s, e) && VerifiedOk(s) && Harmless(s, e)
    ensures VerifiedOk(Apply(s, e))
  {
    var t := Apply(s, e);
    forall c | c in t.phases && t.phases[c].Verified?
      ensures Backed(t.rows, t.phases[c].digest)
    {
      assert c in s.phases;
      assert s.phases[c].Verified? ==> Backed(s.rows, s.phases[c].digest);
    }
  }

  lemma SoundStep(s: System, e: Event)
    requires Enabled(s, e) && Sound(s.rows) && VerifiedOk(s)
    ensures Sound(Apply(s, e).rows)
  {
    if e.Commit? {
      assert Backed(s.rows, s.phases[e.completer].digest);
    }
  }

  /**
   * With any number of completers, takeovers, crashes and re-created uploads, a ready blob always has its
   * content under its recorded hash, and every digest verified along the way is that hash, as long as no
   * creating transaction replaces the hash of a row under a completer that has verified.
   */
  lemma {:induction false} ReadyIsSound(states: seq<System>, events: seq<Event>, i: nat)
    requires IsRun(states, events) && Initial(states[0]) && i < |states|
    requires forall k :: 0 <= k < i ==> Harmless(states[k], events[k])
    ensures Sound(states[i].rows) && VerifiedOk(states[i])
    decreases i
  {
    if i > 0 {
      ReadyIsSound(states, events, i - 1);
      VerifiedStep(states[i - 1], events[i - 1]);
      SoundStep(states[i - 1], events[i - 1]);
    }
  }

  lemma VerifiedCommits(s: System)
    requires VerifiedOk(s)
    ensures CommitsSafe(s)
  {
    forall c | c in s.phases && s.phases[c].Verified?
      ensures Sound(Apply(s, Commit(c)).rows)
    {
      assert Backed(s.rows, s.phases[c].digest);
    }
  }

  lemma HarmfulInsert(s: System, e: Event)
    requires Enabled(s, e) && CommitsSafe(s) && !Harmless(s, e)
    ensures !CommitsSafe(Apply(s, e))
  {
    var c :| c in s.phases && s.phases[c].Verified?;
    assert Sound(Apply(s, Commit(c)).rows);
    var t := Apply(s, e);
    assert c in t.phases && t.phases[c].Verified?;
    assert !Sound(Apply(t, Commit(c)).rows);
  }

  /**
   * The proviso is exact: at every point of a run all completers that have verified may commit soundly if and
   * only if no creating transaction of the run replaced a hash under such a completer.
   */
  lemma CommitsSafeIffInsertsHarmless(states: seq<System>, events: seq<Event>)
    requires IsRun(states, events) && Initial(states[0])
    ensures (forall i :: 0 <= i < |states| ==> CommitsSafe(states[i])) <==> (forall k :: 0 <= k < |events| ==> Harmless(states[k], events[k]))
  {
    if forall i :: 0 <= i < |states| ==> CommitsSafe(states[i]) {
      forall k | 0 <= k < |events|
        ensures Harmless(states[k], events[k])
      {
        assert CommitsSafe(states[k]) && CommitsSafe(states[k + 1]);
        if !Harmless(states[k], events[k]) {
          HarmfulInsert(states[k], events[k]);
        }
      }
    }
    if forall k :: 0 <= k < |events| ==> Harmless(states[k], events[k]) {
      forall i | 0 <= i < |states|
        ensures CommitsSafe(states[i])
      {
        ReadyIsSound(states, events, i);
        VerifiedCommits(states[i]);
      }
    }
  }

  /** The states of a run, one event after the other. */
  lemma Extend(states: seq<System>, events: seq<Event>, e: Event, next: System)
    requires IsRun(states, events) && Enabled(states[|events|], e) && next == Apply(states[|events|], e)
    ensures IsRun(states + [next], events + [e])
  {
  }

  /** A blob of `size` bytes that fits into one part. */
  predicate OnePart(config: Config, size: nat) {
    ConfigOk(config) && 1 <= size <= config.partBytes && size <= config.maxBytes
  }

  lemma OnePartTiling(config: Config, size: nat)
    requires OnePart(config, size)
    ensures Tiling(size, config.partBytes) == map[1 := size] && SizeIn(size, config.partBytes, 1) == size
  {
    CountBounds(size, config.partBytes);
    var count := PartCount(size, config.partBytes);
    assert count > 1 ==> count * config.partBytes >= 2 * config.partBytes by {
      if count > 1 {
        TimesMonotone(2, count, config.partBytes);
      }
    }
  }

  function SessionRow(size: nat, completingAt: Option<Time>, parts: map<nat, nat>, received: nat): Upload {
    Upload(0, size, UPLOAD_LIFETIME, completingAt, None, received, parts)
  }

  /** Two clients look before any row is there, and one of them creates the upload. */
  lemma CreatedUpload(config: Config, size: nat, first: Digest, other: Digest) returns (states: seq<System>, events: seq<Event>)
    requires OnePart(config, size)
    ensures IsRun(states, events) && |events| == 3 && Initial(states[0]) && forall k :: 0 <= k < 3 ==> !events[k].Claim?
    ensures states[3] == System(Rows(Some(Blob(size, first, Uploading)), Some(SessionRow(size, None, map[], 0)), None),
                                config, map[1 := Creation(size, other, None)], map[], 0, {0})
  {
    var s0 := System(Rows(None, None, None), config, map[], map[], 0, {});
    var s1 := s0.(creations := map[1 := Creation(size, other, None)]);
    var s2 := s0.(creations := map[1 := Creation(size, other, None), 0 := Creation(size, first, None)]);
    var s3 := s1.(rows := Rows(Some(Blob(size, first, Uploading)), Some(SessionRow(size, None, map[], 0)), None), used := {0});
    Extend([s0], [], LookUp(1, size, other), s1);
    Extend([s0] + [s1], [] + [LookUp(1, size, other)], LookUp(0, size, first), s2);
    states, events := [s0] + [s1] + [s2], [] + [LookUp(1, size, other)] + [LookUp(0, size, first)];
    assert s3.creations == s2.creations - {0};
    Extend(states, events, Insert(0, 0, 0), s3);
    states, events := states + [s3], events + [Insert(0, 0, 0)];
  }

  /** The upload is filled and claimed. */
  lemma ClaimedUpload(config: Config, size: nat, first: Digest, other: Digest) returns (states: seq<System>, events: seq<Event>)
    requires OnePart(config, size)
    ensures IsRun(states, events) && |events| == 5 && Initial(states[0])
    ensures states[5] == System(Rows(Some(Blob(size, first, Uploading)), Some(SessionRow(size, Some(0), map[1 := size], size)), None),
                                config, map[1 := Creation(size, other, None)], map[0 := Claimed(0, 0, size)], 0, {0})
  {
    states, events := CreatedUpload(config, size, first, other);
    OnePartTiling(config, size);
    TilingSum(size, config.partBytes);
    var fill, claim := PutPart(0, 1), Claim(0, 0, 0);
    PartsTile(size, config.partBytes, 1);
    var s4 := Apply(states[3], fill);
    assert s4.rows.upload == Some(SessionRow(size, None, map[1 := size], size));
    Extend(states, events, fill, s4);
    var s5 := Apply(s4, claim);
    Extend(states + [s4], events + [fill], claim, s5);
    states, events := states + [s4] + [s5], events + [fill] + [claim];
  }

  /** And verified. */
  lemma VerifiedUpload(config: Config, size: nat, content: Content, other: Digest) returns (states: seq<System>, events: seq<Event>)
    requires OnePart(config, size)
    ensures IsRun(states, events) && |events| == 6 && Initial(states[0])
    ensures states[6] == System(Rows(Some(Blob(size, DigestOf(content), Uploading)), Some(SessionRow(size, Some(0), map[1 := size], size)), Some(content)),
                                config, map[1 := Creation(size, other, None)], map[0 := Verified(0, 0, size, DigestOf(content))], 0, {0})
  {
    states, events := ClaimedUpload(config, size, DigestOf(content), other);
    OnePartTiling(config, size);
    var s6 := Apply(states[5], Verify(0, content));
    Extend(states, events, Verify(0, content), s6);
    states, events := states + [s6], events + [Verify(0, content)];
  }

  /** The stale upload is dropped and re-created under the other hash; then the old completer commits. */
  lemma CommitAfterLateInsert(s: System, config: Config, size: nat, content: Content, other: Digest)
      returns (states: seq<System>, events: seq<Event>)
    requires OnePart(config, size) && other != DigestOf(content)
    requires s == System(Rows(Some(Blob(size, DigestOf(content), Uploading)), Some(SessionRow(size, Some(0), map[1 := size], size)), Some(content)),
                         config, map[1 := Creation(size, other, None)], map[0 := Verified(0, 0, size, DigestOf(content))], 0, {0})
    ensures IsRun(states, events) && |events| == 5 && states[0] == s
    ensures !Harmless(states[3], events[3]) && !Sound(states[5].rows)
  {
    var first, day := DigestOf(content), UPLOAD_LIFETIME;
    var s1 := s.(now := day);
    var s2 := s1.(creations := s1.creations[2 := Creation(size, first, Some(0))]);
    var s3 := s2.(rows := s2.rows.(upload := None), creations := s2.creations[2 := Creation(size, first, None)]);
    var s4 := Apply(s3, Insert(1, 1, day));
    var s5 := Apply(s4, Commit(0));
    Extend([s], [], Tick(day), s1);
    Extend([s] + [s1], [] + [Tick(day)], LookUp(2, size, first), s2);
    states, events := [s] + [s1] + [s2], [] + [Tick(day)] + [LookUp(2, size, first)];
    Extend(states, events, DropStale(2), s3);
    Extend(states + [s3], events + [DropStale(2)], Insert(1, 1, day), s4);
    Extend(states + [s3] + [s4], events + [DropStale(2)] + [Insert(1, 1, day)], Commit(0), s5);
    states, events := states + [s3] + [s4] + [s5], events + [DropStale(2)] + [Insert(1, 1, day)] + [Commit(0)];
  }

  lemma Concatenated(states: seq<System>, events: seq<Event>, more: seq<System>, moreEvents: seq<Event>)
    requires IsRun(states, events) && IsRun(more, moreEvents) && states[|events|] == more[0]
    ensures IsRun(states + more[1..], events + moreEvents)
  {
    var all, allEvents := states + more[1..], events + moreEvents;
    forall i | 0 <= i < |allEvents|
      ensures Enabled(all[i], allEvents[i]) && all[i + 1] == Apply(all[i], allEvents[i])
    {
      if i >= |events| {
        assert allEvents[i] == moreEvents[i - |events|] && all[i] == more[i - |events|] && all[i + 1] == more[i - |events| + 1];
      }
    }
  }

  /**
   * The proviso is needed: a client whose reads found no row inserts its own hash after the first upload
   * went stale and was dropped, while a completer of that upload had verified and only then commits.
   */
  lemma LateInsertBreaksReady(config: Config, size: nat, content: Content, other: Digest) returns (states: seq<System>, events: seq<Event>)
    requires OnePart(config, size) && other != DigestOf(content)
    ensures IsRun(states, events) && Initial(states[0]) && |events| == 11
    ensures !Harmless(states[9], events[9]) && !Sound(states[11].rows)
  {
    states, events := VerifiedUpload(config, size, content, other);
    var more, moreEvents := CommitAfterLateInsert(states[6], config, size, content, other);
    Concatenated(states, events, more, moreEvents);
    states, events := states + more[1..], events + moreEvents;
  }

  function EmptySession(size: nat, completingAt: Option<Time>): Upload {
    SessionRow(size, completingAt, map[], 0)
  }

  /** A new upload without parts, possibly claimed, and the completers in flight. */
  function EmptyUpload(config: Config, size: nat, hash: Digest, completingAt: Option<Time>, phases: map<CompleterId, Phase>, now: Time): System {
    System(Rows(Some(Blob(size, hash, Uploading)), Some(EmptySession(size, completingAt)), None),
           config, map[1 := Creation(size, hash, None)], phases, now, {0})
  }

  /** Completer 2 takes the upload over from completer 0 and gives it back. */
  lemma TakenOverAndReleased(config: Config, size: nat, hash: Digest) returns (states: seq<System>, events: seq<Event>)
    requires OnePart(config, size)
    ensures IsRun(states, events) && |events| == 5 && ClaimsWithin(states, events, LEASE + 1)
    ensures states[0] == EmptyUpload(config, size, hash, None, map[], 0)
    ensures states[5] == EmptyUpload(config, size, hash, None, map[0 := Claimed(0, 0, size)], LEASE + 1)
  {
    var late := LEASE + 1;
    var s0 := EmptyUpload(config, size, hash, None, map[], 0);
    var s1 := EmptyUpload(config, size, hash, Some(0), map[0 := Claimed(0, 0, size)], 0);
    var s2 := s1.(now := late);
    var s3 := EmptyUpload(config, size, hash, Some(late), map[0 := Claimed(0, 0, size), 2 := Claimed(0, late, size)], late);
    var s4 := s3.(phases := map[0 := Claimed(0, 0, size), 2 := Failed(0, late)]);
    var s5 := EmptyUpload(config, size, hash, None, map[0 := Claimed(0, 0, size)], late);
    Extend([s0], [], Claim(0, 0, 0), s1);
    Extend([s0] + [s1], [] + [Claim(0, 0, 0)], Tick(late), s2);
    states, events := [s0] + [s1] + [s2], [] + [Claim(0, 0, 0)] + [Tick(late)];
    Extend(states, events, Claim(2, 0, late), s3);
    Extend(states + [s3], events + [Claim(2, 0, late)], Fail(2), s4);
    assert s5.phases == s4.phases - {2};
    Extend(states + [s3] + [s4], events + [Claim(2, 0, late)] + [Fail(2)], Release(2), s5);
    states, events := states + [s3] + [s4] + [s5], events + [Claim(2, 0, late)] + [Fail(2)] + [Release(2)];
  }

  /** Completer 3, which read its clock when completer 0 did, claims only now; completer 0 fails, and its release clears that claim. */
  lemma LateClaim(config: Config, size: nat, hash: Digest) returns (states: seq<System>, events: seq<Event>)
    requires OnePart(config, size)
    ensures IsRun(states, events) && |events| == 3 && ClaimsWithin(states, events, LEASE + 1)
    ensures states[0] == EmptyUpload(config, size, hash, None, map[0 := Claimed(0, 0, size)], LEASE + 1)
    ensures ClearsAnother(states, events, 2, 3)
  {
    var s0 := EmptyUpload(config, size, hash, None, map[0 := Claimed(0, 0, size)], LEASE + 1);
    var s1 := s0.(phases := map[0 := Failed(0, 0)]);
    var s2 := EmptyUpload(config, size, hash, Some(0), map[0 := Failed(0, 0), 3 := Claimed(0, 0, size)], LEASE + 1);
    var s3 := Apply(s2, Release(0));
    Extend([s0], [], Fail(0), s1);
    Extend([s0] + [s1], [] + [Fail(0)], Claim(3, 0, 0), s2);
    Extend([s0] + [s1] + [s2], [] + [Fail(0)] + [Claim(3, 0, 0)], Release(0), s3);
    states, events := [s0] + [s1] + [s2] + [s3], [] + [Fail(0)] + [Claim(3, 0, 0)] + [Release(0)];
  }

  lemma ConcatenatedWithin(states: seq<System>, events: seq<Event>, more: seq<System>, moreEvents: seq<Event>, delay: int)
    requires |states| == |events| + 1 && |more| == |moreEvents| + 1 && states[|events|] == more[0]
    requires ClaimsWithin(states, events, delay) && ClaimsWithin(more, moreEvents, delay)
    ensures ClaimsWithin(states + more[1..], events + moreEvents, delay)
  {
    var all, allEvents := states + more[1..], events + moreEvents;
    forall k | 0 <= k < |allEvents|
      ensures WithinDelay(all[k], allEvents[k], delay)
    {
      if k < |events| {
        assert WithinDelay(states[k], events[k], delay);
      } else {
        assert WithinDelay(more[k - |events|], moreEvents[k - |events|], delay);
        assert all[k] == more[k - |events|];
      }
    }
  }

  /** One millisecond more than a lease is too late: a run on which a stalled claim is cleared by the release of a completer of the same claim time. */
  lemma LateClaimIsCleared(config: Config, size: nat, first: Digest) returns (states: seq<System>, events: seq<Event>)
    requires OnePart(config, size)
    ensures IsRun(states, events) && Initial(states[0]) && |events| == 11 && ClaimsWithin(states, events, LEASE + 1)
    ensures ClearsAnother(states, events, 10, 3)
  {
    states, events := CreatedUpload(config, size, first, first);
    var more, moreEvents := TakenOverAndReleased(config, size, first);
    var last, lastEvents := LateClaim(config, size, first);
    Concatenated(more, moreEvents, last, lastEvents);
    ConcatenatedWithin(more, moreEvents, last, lastEvents, LEASE + 1);
    var tail, tailEvents := more + last[1..], moreEvents + lastEvents;
    Concatenated(states, events, tail, tailEvents);
    ConcatenatedWithin(states, events, tail, tailEvents, LEASE + 1);
    assert tail[7] == last[2] && tail[8] == last[3] && tailEvents[7] == lastEvents[2];
    states, events := states + tail[1..], events + tailEvents;
    assert states[10] == last[2] && states[11] == last[3] && events[10] == lastEvents[2];
  }
}
