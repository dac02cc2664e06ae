/**
 * The durable inventory of backup runs: a state machine per run, the artifacts
 * recorded for it, and the comparison of a signed manifest with them.
 */
module Inventory {
  import opened Common
  import opened JsonText
  import opened Manifest

  type RunId = nat

  datatype Status = Queued | Preparing | Draining | Dumping | Copying | Verifying | Ready | Failed | Deleting

  datatype Summary = Summary(databaseBytes: nat, blobCount: nat, blobBytes: nat)

  datatype Entry = Entry(sha256: Text, size: nat)

  /** `artifacts` are the artifact rows of the run, of which a unique index allows one per path. */
  datatype BackupRun = BackupRun(status: Status, generation: nat, manifestRef: Option<Text>, summary: Option<Summary>,
                                 artifacts: map<Text, Entry>)

  type Runs = map<RunId, BackupRun>

  datatype InventoryError =
    | TransitionInvalid | TransitionRaced | ArtifactInvalid | RunNotWritable | ManifestInvalid | RunNotReady
    | ArtifactsMissing | SummaryUnavailable | ErrorCodeInvalid | CancelUnavailable | RequiresOffline
    | InventoryMismatch | ImportUnavailable | RunUnverified

  // --------------------------------------------- comparing with a manifest

  function EntryOf(a: Artifact): Entry
    requires IsDecimal(a.size)
  {
    Entry(a.sha256, DigitsValue(a.size))
  }

  predicate Decimals(artifacts: seq<Artifact>) {
    forall i :: 0 <= i < |artifacts| ==> IsDecimal(artifacts[i].size)
  }

  /** The manifest as a finite map. */
  function AsMap(artifacts: seq<Artifact>): map<Text, Entry>
    requires Decimals(artifacts)
  {
    if artifacts == [] then map[] else
      var last := artifacts[|artifacts| - 1];
      AsMap(artifacts[..|artifacts| - 1])[last.path := EntryOf(last)]
  }

  function Paths(artifacts: seq<Artifact>): set<Text> {
    set i | 0 <= i < |artifacts| :: artifacts[i].path
  }

  predicate Found(stored: map<Text, Entry>, a: Artifact)
    requires IsDecimal(a.size)
  {
    a.path in stored && stored[a.path] == EntryOf(a)
  }

  /** What the comparison tests: equal lengths, and every artifact of the manifest is stored. */
  predicate Accepts(stored: map<Text, Entry>, artifacts: seq<Artifact>)
    requires Decimals(artifacts)
  {
    |stored| == |artifacts| && forall i :: 0 <= i < |artifacts| ==> Found(stored, artifacts[i])
  }

  lemma {:induction false} PathCount(artifacts: seq<Artifact>)
    ensures |Paths(artifacts)| <= |artifacts|
    ensures |Paths(artifacts)| == |artifacts| <==> DistinctPaths(artifacts)
  {
    if artifacts != [] {
      var front, last := artifacts[..|artifacts| - 1], artifacts[|artifacts| - 1];
      PathCount(front);
      PathsAppend(front, last);
      assert artifacts == front + [last];
    }
  }

  lemma PathsAppend(front: seq<Artifact>, last: Artifact)
    ensures Paths(front + [last]) == Paths(front) + {last.path}
    ensures DistinctPaths(front + [last]) <==> DistinctPaths(front) && last.path !in Paths(front)
  {
    var all := front + [last];
    forall p | p in Paths(front) + {last.path}
      ensures p in Paths(all)
    {
      if i :| 0 <= i < |front| && front[i].path == p {
        assert all[i].path == p;
      } else {
        assert all[|front|].path == p;
      }
    }
    if DistinctPaths(all) {
      forall i | 0 <= i < |front|
        ensures front[i].path != last.path
      {
        assert all[i].path != all[|front|].path;
      }
      forall i, j | 0 <= i < j < |front|
        ensures front[i].path != front[j].path
      {
        assert all[i].path != all[j].path;
      }
    }
  }

  lemma {:induction false} AsMapKeys(artifacts: seq<Artifact>)
    requires Decimals(artifacts)
    ensures AsMap(artifacts).Keys == Paths(artifacts)
    ensures DistinctPaths(artifacts) ==> forall i :: 0 <= i < |artifacts| ==> Found(AsMap(artifacts), artifacts[i])
  {
    if artifacts != [] {
      var front, last := artifacts[..|artifacts| - 1], artifacts[|artifacts| - 1];
      AsMapKeys(front);
      PathsAppend(front, last);
      assert artifacts == front + [last];
    }
  }

  /** Every entry of the manifest's map is one of its artifacts. */
  lemma {:induction false} AsMapFound(stored: map<Text, Entry>, artifacts: seq<Artifact>, p: Text)
    requires Decimals(artifacts) && (forall i :: 0 <= i < |artifacts| ==> Found(stored, artifacts[i])) && p in AsMap(artifacts)
    ensures p in stored && stored[p] == AsMap(artifacts)[p]
  {
    var front, last := artifacts[..|artifacts| - 1], artifacts[|artifacts| - 1];
    assert Found(stored, last);
    if p != last.path {
      AsMapFound(stored, front, p);
    }
  }

  /** A subset as large as the whole is the whole. */
  lemma SameSizeSubset<T>(part: set<T>, whole: set<T>)
    requires part <= whole && |part| == |whole|
    ensures part == whole
  {
    assert |whole - part| == |whole| - |part|;
  }

  /**
   * Lengths and one direction suffice: for a manifest without repeated paths the comparison accepts
   * exactly when stored and manifest artifacts are equal as finite maps. An accepted manifest
   * that repeats a path never equals the inventory.
   */
  lemma AcceptsExactlyEqual(stored: map<Text, Entry>, artifacts: seq<Artifact>)
    requires Decimals(artifacts)
    ensures DistinctPaths(artifacts) ==> (Accepts(stored, artifacts) <==> AsMap(artifacts) == stored)
    ensures Accepts(stored, artifacts) ==> (AsMap(artifacts) == stored <==> DistinctPaths(artifacts))
  {
    PathCount(artifacts);
    AsMapKeys(artifacts);
    assert |stored| == |stored.Keys|;
    if Accepts(stored, artifacts) && DistinctPaths(artifacts) {
      forall p | p in AsMap(artifacts)
        ensures p in stored && stored[p] == AsMap(artifacts)[p]
      {
        AsMapFound(stored, artifacts, p);
      }
      SameSizeSubset(Paths(artifacts), stored.Keys);
    }
  }

  /** The proviso is needed: a repeated artifact can stand in for a missing one. */
  lemma RepeatedPathSlipsThrough(a: Artifact, other: Text, entry: Entry)
    requires IsDecimal(a.size) && other != a.path
    ensures Accepts(map[a.path := EntryOf(a), other := entry], [a, a]) && AsMap([a, a]) != map[a.path := EntryOf(a), other := entry]
  {
    var stored := map[a.path := EntryOf(a), other := entry];
    assert stored.Keys == {a.path, other};
    assert |stored| == 2;
    AcceptsExactlyEqual(stored, [a, a]);
    assert [a, a][0].path == [a, a][1].path;
  }

  /** `assertSameInventory`, and the same loop in `assertManifestMatches`. */
  method AssertSameInventory(stored: map<Text, Entry>, artifacts: seq<Artifact>) returns (same: bool)
    requires Decimals(artifacts)
    ensures same <==> Accepts(stored, artifacts)
    ensures DistinctPaths(artifacts) ==> (same <==> AsMap(artifacts) == stored)
  {
    AcceptsExactlyEqual(stored, artifacts);
    if |stored| != |artifacts| {
      return false;
    }
    for i := 0 to |artifacts|
      invariant forall k :: 0 <= k < i ==> Found(stored, artifacts[k])
    {
      if artifacts[i].path !in stored || stored[artifacts[i].path].sha256 != artifacts[i].sha256 || Digits(stored[artifacts[i].path].size) != artifacts[i].size {
        if artifacts[i].path in stored {
          SizeTexts(artifacts[i].size, stored[artifacts[i].path].size);
        }
        return false;
      }
      SizeTexts(artifacts[i].size, stored[artifacts[i].path].size);
    }
    return true;
  }

  // ----------------------------------------------------------- transactions

  predicate Writable(status: Status) {
    status in {Preparing, Draining, Dumping, Copying, Verifying}
  }

  predicate AllowedStep(from: Status, to: Status) {
    (from == Preparing && to == Draining) || (from == Draining && to == Dumping) || (from == Dumping && to == Copying) || (from == Copying && to == Verifying)
  }

  predicate IsErrorCode(code: Text) {
    1 <= |code| <= 120
    && forall i :: 0 <= i < |code| ==> IsDigit(code[i]) || 97 <= code[i] < 123 || 65 <= code[i] < 91 || code[i] in {95, 58, 45}
  }

  datatype Event =
    | Begin(newId: RunId, serial: nat)
    | Advance(id: RunId, from: Status, to: Status)
    | RecordArtifact(id: RunId, path: Text, entry: Entry)
    | MarkReady(id: RunId, manifestRef: Text)
    | Summarize(id: RunId, summary: Summary)
    | Fail(id: RunId, code: Text)
    | Cancel(id: RunId)
    | Import(id: RunId, manifestRef: Text, artifacts: seq<Artifact>, generation: Option<Text>, offline: bool)

  function ImportRun(runs: Runs, e: Event): Result<Runs, InventoryError>
    requires e.Import? && Decimals(e.artifacts)
  {
    if !SafePath(e.manifestRef) || e.artifacts == [] || e.generation.None? || !IsDecimal(e.generation.value) then Err(ManifestInvalid)
    else if |Paths(e.artifacts)| != |e.artifacts| || exists a :: a in e.artifacts && (!SafePath(a.path) || !IsSha256(a.sha256)) then Err(ArtifactInvalid)
    else if !e.offline then Err(RequiresOffline)
    else
      var imported := BackupRun(Ready, DigitsValue(e.generation.value), Some(e.manifestRef), None, AsMap(e.artifacts));
      if e.id !in runs then Ok(runs[e.id := imported])
      else
        var run := runs[e.id];
        if run.status == Ready then
          if run.manifestRef != Some(e.manifestRef) || Digits(run.generation) != e.generation.value || !Accepts(run.artifacts, e.artifacts)
          then Err(InventoryMismatch) else Ok(runs)
        else if Digits(run.generation) != e.generation.value then Err(ImportUnavailable)
        else if run.artifacts != map[] && !Accepts(run.artifacts, e.artifacts) then Err(InventoryMismatch)
        else Ok(runs[e.id := imported.(summary := run.summary, artifacts := if run.artifacts == map[] then AsMap(e.artifacts) else run.artifacts)])
  }

  /** What an operation makes of the rows, or the error with which it leaves them alone. */
  function Step(runs: Runs, e: Event): Result<Runs, InventoryError>
    requires e.Import? ==> Decimals(e.artifacts)
  {
    match e
    case Begin(newId, serial) => Ok(runs[newId := BackupRun(Preparing, serial, None, None, map[])])
    case Advance(id, from, to) =>
      if !AllowedStep(from, to) then Err(TransitionInvalid)
      else if id in runs && runs[id].status == from then Ok(runs[id := runs[id].(status := to)])
      else Err(TransitionRaced)
    case RecordArtifact(id, path, entry) =>
      if !SafePath(path) || !IsSha256(entry.sha256) then Err(ArtifactInvalid)
      else if id in runs && Writable(runs[id].status) then Ok(runs[id := runs[id].(artifacts := runs[id].artifacts[path := entry])])
      else Err(RunNotWritable)
    case MarkReady(id, manifestRef) =>
      if !SafePath(manifestRef) then Err(ManifestInvalid)
      else if !(id in runs && runs[id].status in {Copying, Verifying}) then Err(RunNotReady)
      else if runs[id].artifacts == map[] then Err(ArtifactsMissing)
      else Ok(runs[id := runs[id].(status := Ready, manifestRef := Some(manifestRef))])
    case Summarize(id, summary) =>
      if id in runs && runs[id].status == Verifying then Ok(runs[id := runs[id].(summary := Some(summary))]) else Err(SummaryUnavailable)
    case Fail(id, code) =>
      if !IsErrorCode(code) then Err(ErrorCodeInvalid)
      else if id in runs && (Writable(runs[id].status) || runs[id].status == Queued) then Ok(runs[id := runs[id].(status := Failed)])
      else Ok(runs)
    case Cancel(id) =>
      if id in runs && (Writable(runs[id].status) || runs[id].status in {Queued, Failed}) then Ok(runs[id := runs[id].(status := Deleting)])
      else Err(CancelUnavailable)
    case Import(_, _, _, _, _) => ImportRun(runs, e)
  }

  // -------------------------------------------------------------------- runs

  /** Any sequence of operations, failing or not; new rows get new ids. */
  predicate Enabled(runs: Runs, e: Event) {
    (e.Begin? ==> e.newId !in runs) && (e.Import? ==> Decimals(e.artifacts))
  }

  function Apply(runs: Runs, e: Event): Runs
    requires Enabled(runs, e)
  {
    match Step(runs, e)
    case Ok(after) => after
    case Err(_) => runs
  }

  ghost predicate IsRun(states: seq<Runs>, events: seq<Event>) {
    && |states| == |events| + 1
    && forall i :: 0 <= i < |events| ==> Enabled(states[i], events[i]) && states[i + 1] == Apply(states[i], events[i])
  }

  lemma FrozenStep(runs: Runs, e: Event, id: RunId)
    requires Enabled(runs, e) && id in runs && runs[id].status == Ready
    ensures id in Apply(runs, e) && Apply(runs, e)[id] == runs[id]
  {
  }

  /** Once a run is ready, its status, generation, manifest reference, summary and artifacts never change. */
  lemma {:induction false} ReadyIsFrozen(states: seq<Runs>, events: seq<Event>, i: nat, j: nat, id: RunId)
    requires IsRun(states, events) && i <= j < |states| && id in states[i] && states[i][id].status == Ready
    ensures id in states[j] && states[j][id] == states[i][id]
    decreases j
  {
    if i < j {
      ReadyIsFrozen(states, events, i, j - 1, id);
      FrozenStep(states[j - 1], events[j - 1], id);
    }
  }

  /** Recorded artifacts are well formed, and a ready run names its manifest and has artifacts. */
  predicate RunOk(run: BackupRun) {
    && (forall p :: p in run.artifacts ==> SafePath(p) && IsSha256(run.artifacts[p].sha256))
    && (run.status == Ready ==> run.manifestRef.Some? && SafePath(run.manifestRef.value) && run.artifacts != map[])
  }

  lemma ImportedOk(artifacts: seq<Artifact>, manifestRef: Text, generation: nat, summary: Option<Summary>)
    requires Decimals(artifacts) && artifacts != [] && SafePath(manifestRef)
    requires forall a :: a in artifacts ==> SafePath(a.path) && IsSha256(a.sha256)
    ensures RunOk(BackupRun(Ready, generation, Some(manifestRef), summary, AsMap(artifacts)))
  {
    AsMapKeys(artifacts);
    assert artifacts[0].path in Paths(artifacts);
    forall p | p in AsMap(artifacts)
      ensures SafePath(p) && IsSha256(AsMap(artifacts)[p].sha256)
    {
      AsMapOrigin(artifacts, p);
    }
  }

  lemma {:induction false} AsMapOrigin(artifacts: seq<Artifact>, p: Text)
    requires Decimals(artifacts) && p in AsMap(artifacts)
    ensures exists a :: a in artifacts && a.path == p && EntryOf(a) == AsMap(artifacts)[p]
  {
    var front, last := artifacts[..|artifacts| - 1], artifacts[|artifacts| - 1];
    if p == last.path {
      assert last in artifacts;
    } else {
      AsMapOrigin(front, p);
      var a :| a in front && a.path == p && EntryOf(a) == AsMap(front)[p];
      assert a in artifacts;
    }
  }

  lemma RunOkStep(runs: Runs, e: Event, id: RunId)
    requires Enabled(runs, e) && id in Apply(runs, e) && (id in runs ==> RunOk(runs[id]))
    ensures RunOk(Apply(runs, e)[id])
  {
    if e.Import? && Step(runs, e).Ok? && id == e.id {
      var generation := DigitsValue(e.generation.value);
      ImportedOk(e.artifacts, e.manifestRef, generation, None);
      ImportedOk(e.artifacts, e.manifestRef, generation, if id in runs then runs[id].summary else None);
    }
  }

  /** In every run from an empty inventory, every ready run has a manifest and well-formed artifacts. */
  lemma {:induction false} ReadyRunsAreComplete(states: seq<Runs>, events: seq<Event>, i: nat, id: RunId)
    requires IsRun(states, events) && states[0] == map[] && i < |states| && id in states[i]
    ensures RunOk(states[i][id])
    decreases i
  {
    if i > 0 {
      if id in states[i - 1] {
        ReadyRunsAreComplete(states, events, i - 1, id);
      }
      RunOkStep(states[i - 1], events[i - 1], id);
    }
  }

  /** `assertManifestMatches`: ready, under this reference, with exactly these artifacts. */
  predicate ManifestMatches(runs: Runs, id: RunId, manifestRef: Text, artifacts: seq<Artifact>)
    requires Decimals(artifacts)
  {
    id in runs && runs[id].status == Ready && runs[id].manifestRef == Some(manifestRef) && Accepts(runs[id].artifacts, artifacts)
  }

  /** The manifest gate: for parsed manifests it opens exactly when the ready run has this reference and these artifacts. */
  lemma ManifestGate(runs: Runs, id: RunId, manifestRef: Text, artifacts: seq<Artifact>)
    requires Decimals(artifacts) && DistinctPaths(artifacts)
    ensures ManifestMatches(runs, id, manifestRef, artifacts) <==>
              id in runs && runs[id].status == Ready && runs[id].manifestRef == Some(manifestRef) && runs[id].artifacts == AsMap(artifacts)
  {
    if id in runs {
      AcceptsExactlyEqual(runs[id].artifacts, artifacts);
    }
  }

  /** A manifest that was imported passes the gate ever after, whatever operations follow. */
  lemma ImportedManifestMatchesForever(states: seq<Runs>, events: seq<Event>, i: nat, j: nat)
    requires IsRun(states, events) && i < j < |states| && events[i].Import? && Step(states[i], events[i]).Ok?
    ensures var e := events[i]; ManifestMatches(states[j], e.id, e.manifestRef, e.artifacts)
  {
    var e := events[i];
    PathCount(e.artifacts);
    AcceptsExactlyEqual(AsMap(e.artifacts), e.artifacts);
    ReadyIsFrozen(states, events, i + 1, j, e.id);
  }

  /** What the import asks of its arguments before it looks at any row. */
  predicate ImportArgumentsOk(e: Event)
    requires e.Import?
  {
    && e.offline && SafePath(e.manifestRef) && e.artifacts != [] && e.generation.Some? && IsDecimal(e.generation.value)
    && DistinctPaths(e.artifacts) && forall a :: a in e.artifacts ==> SafePath(a.path) && IsSha256(a.sha256)
  }

  /** The import does not look at the state of a run that is not ready: it succeeds exactly when the generation agrees and no other artifacts are recorded. */
  lemma ImportTakesAnyState(runs: Runs, e: Event)
    requires e.Import? && Decimals(e.artifacts) && ImportArgumentsOk(e) && e.id in runs && runs[e.id].status != Ready
    ensures Step(runs, e).Ok? <==>
              runs[e.id].generation == DigitsValue(e.generation.value) && (runs[e.id].artifacts == map[] || runs[e.id].artifacts == AsMap(e.artifacts))
    ensures Step(runs, e).Ok? ==> Step(runs, e).value[e.id].status == Ready && Step(runs, e).value[e.id].artifacts == AsMap(e.artifacts)
  {
    PathCount(e.artifacts);
    SizeTexts(e.generation.value, runs[e.id].generation);
    AcceptsExactlyEqual(runs[e.id].artifacts, e.artifacts);
  }

  /** So a run that was cancelled, and waits to be deleted, becomes ready by an import. */
  lemma CancelledRunIsImported(e: Event)
    requires e.Import? && Decimals(e.artifacts) && ImportArgumentsOk(e)
    ensures var begun := Apply(map[], Begin(e.id, DigitsValue(e.generation.value)));
            var cancelled := Apply(begun, Cancel(e.id));
            && cancelled[e.id].status == Deleting && Step(cancelled, e).Ok? && Step(cancelled, e).value[e.id].status == Ready
  {
    var begun := Apply(map[], Begin(e.id, DigitsValue(e.generation.value)));
    ImportTakesAnyState(Apply(begun, Cancel(e.id)), e);
  }

  // ----------------------------------------------------------------- service

  /** The operation did what `Step` says, or left every row alone and raised its error. */
  ghost predicate Performs(before: Runs, e: Event, after: Runs, error: Option<InventoryError>)
    requires e.Import? ==> Decimals(e.artifacts)
  {
    match Step(before, e)
    case Ok(rows) => error == None && after == rows
    case Err(raised) => error == Some(raised) && after == before
  }

  class BackupInventoryService {
    var runs: Runs

    constructor ()
      ensures runs == map[]
    {
      runs := map[];
    }

    method Begin(newId: RunId, serial: nat)
      requires newId !in runs
      modifies this
      ensures Performs(old(runs), Event.Begin(newId, serial), runs, None)
    {
      runs := runs[newId := BackupRun(Preparing, serial, None, None, map[])];
    }

    method Advance(id: RunId, from: Status, to: Status) returns (error: Option<InventoryError>)
      modifies this
      ensures Performs(old(runs), Event.Advance(id, from, to), runs, error)
    {
      if !AllowedStep(from, to) {
        return Some(TransitionInvalid);
      }
      if id !in runs || runs[id].status != from {
        return Some(TransitionRaced);
      }
      runs := runs[id := runs[id].(status := to)];
      return None;
    }

    method RecordArtifact(id: RunId, path: Text, entry: Entry) returns (error: Option<InventoryError>)
      modifies this
      ensures Performs(old(runs), Event.RecordArtifact(id, path, entry), runs, error)
    {
      if !SafePath(path) || !IsSha256(entry.sha256) {
        return Some(ArtifactInvalid);
      }
      if id !in runs || !Writable(runs[id].status) {
        return Some(RunNotWritable);
      }
      runs := runs[id := runs[id].(artifacts := runs[id].artifacts[path := entry])];
      return None;
    }

    method MarkReady(id: RunId, manifestRef: Text) returns (error: Option<InventoryError>)
      modifies this
      ensures Performs(old(runs), Event.MarkReady(id, manifestRef), runs, error)
    {
      if !SafePath(manifestRef) {
        return Some(ManifestInvalid);
      }
      if id !in runs || (runs[id].status != Copying && runs[id].status != Verifying) {
        return Some(RunNotReady);
      }
      if runs[id].artifacts == map[] {
        return Some(ArtifactsMissing);
      }
      runs := runs[id := runs[id].(status := Ready, manifestRef := Some(manifestRef))];
      return None;
    }

    method Summarize(id: RunId, summary: Summary) returns (error: Option<InventoryError>)
      modifies this
      ensures Performs(old(runs), Event.Summarize(id, summary), runs, error)
    {
      if id !in runs || runs[id].status != Verifying {
        return Some(SummaryUnavailable);
      }
      runs := runs[id := runs[id].(summary := Some(summary))];
      return None;
    }

    method Fail(id: RunId, code: Text) returns (error: Option<InventoryError>)
      modifies this
      ensures Performs(old(runs), Event.Fail(id, code), runs, error)
    {
      if !IsErrorCode(code) {
        return Some(ErrorCodeInvalid);
      }
      if id in runs && (runs[id].status == Queued || Writable(runs[id].status)) {
        runs := runs[id := runs[id].(status := Failed)];
      }
      return None;
    }

    method Cancel(id: RunId) returns (error: Option<InventoryError>)
      modifies this
      ensures Performs(old(runs), Event.Cancel(id), runs, error)
    {
      if id !in runs || (runs[id].status != Queued && runs[id].status != Failed && !Writable(runs[id].status)) {
        return Some(CancelUnavailable);
      }
      runs := runs[id := runs[id].(status := Deleting)];
      return None;
    }

    /** The transaction works on the rows step by step; an error raised on the way rolls all of it back. */
    method ImportVerifiedManifest(id: RunId, manifestRef: Text, artifacts: seq<Artifact>, generation: Option<Text>, offline: bool)
      returns (error: Option<InventoryError>)
      requires Decimals(artifacts)
      modifies this
      ensures Performs(old(runs), Event.Import(id, manifestRef, artifacts, generation, offline), runs, error)
    {
      if !SafePath(manifestRef) || artifacts == [] || generation.None? || !IsDecimal(generation.value) {
        return Some(ManifestInvalid);
      }
      if |Paths(artifacts)| != |artifacts| || exists a :: a in artifacts && (!SafePath(a.path) || !IsSha256(a.sha256)) {
        return Some(ArtifactInvalid);
      }
      if !offline {
        return Some(RequiresOffline);
      }
      var before := runs;
      if id in runs && runs[id].status == Ready {
        if runs[id].manifestRef != Some(manifestRef) || Digits(runs[id].generation) != generation.value {
          return Some(InventoryMismatch);
        }
        var same := AssertSameInventory(runs[id].artifacts, artifacts);
        return if same then None else Some(InventoryMismatch);
      }
      if id in runs && Digits(runs[id].generation) != generation.value {
        return Some(ImportUnavailable);
      }
      if id !in runs {
        runs := runs[id := BackupRun(Preparing, DigitsValue(generation.value), None, None, map[])];
      } else {
        SizeTexts(generation.value, runs[id].generation);
        runs := runs[id := runs[id].(status := Preparing, manifestRef := None)];
      }
      if runs[id].artifacts != map[] {
        var same := AssertSameInventory(runs[id].artifacts, artifacts);
        if !same {
          runs := before;
          return Some(InventoryMismatch);
        }
      } else {
        runs := runs[id := runs[id].(artifacts := AsMap(artifacts))];
      }
      runs := runs[id := runs[id].(status := Ready, manifestRef := Some(manifestRef))];
      return None;
    }

    method AssertManifestMatches(id: RunId, manifestRef: Text, artifacts: seq<Artifact>) returns (error: Option<InventoryError>)
      requires Decimals(artifacts)
      ensures error == None <==> ManifestMatches(runs, id, manifestRef, artifacts)
      ensures DistinctPaths(artifacts) ==>
                (error == None <==> id in runs && runs[id].status == Ready && runs[id].manifestRef == Some(manifestRef) && runs[id].artifacts == AsMap(artifacts))
    {
      if id !in runs || runs[id].status != Ready || runs[id].manifestRef != Some(manifestRef) {
        return Some(RunUnverified);
      }
      var same := AssertSameInventory(runs[id].artifacts, artifacts);
      return if same then None else Some(InventoryMismatch);
    }
  }
}
