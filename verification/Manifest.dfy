/** Backup manifests: the record the writer signs, and the reader that rebuilds it from text. */
module Manifest {
  import opened Common
  import opened JsonText
  import opened JsonValues
  import opened CanonicalJson

  datatype Artifact = Artifact(path: Text, sha256: Text, size: Text)

  /** Format 2 binds the package to a run of the backup inventory. */
  datatype Version = V1 | V2(generation: Text)

  datatype Manifest = Manifest(version: Version, backupId: Text, createdAt: Text, completedAt: Text, serverVersion: Text,
                               instanceId: Text, syncEpoch: Text, authEpoch: Text, artifacts: seq<Artifact>)

  datatype ManifestError = InvalidJson | Unsupported | InvalidArtifact | RepeatedPath

  // ----------------------------------------------------------- field formats

  /** ASCII text as code units. */
  function Name(s: string): (t: Text)
    requires forall i :: 0 <= i < |s| ==> s[i] as int < 128
    ensures |t| == |s| && forall i :: 0 <= i < |s| ==> t[i] == s[i] as int
  {
    seq(|s|, i requires 0 <= i < |s| => s[i] as int)
  }

  predicate IsHex(c: Unit) {
    HexValue(c) >= 0
  }

  predicate IsUuid(t: Text) {
    |t| == 36 && forall i :: 0 <= i < 36 ==> if i == 8 || i == 13 || i == 18 || i == 23 then t[i] == MINUS else IsHex(t[i])
  }

  predicate IsSha256(t: Text) {
    |t| == 64 && forall i :: 0 <= i < 64 ==> 48 <= t[i] < 58 || 97 <= t[i] < 103
  }

  const SLASH: Unit := 47
  const DOT: Unit := 46

  /** Length of the path component the text starts with. */
  function ComponentLength(t: Text): (k: nat)
    ensures k <= |t| && (k < |t| ==> t[k] == SLASH)
  {
    if t == [] || t[0] == SLASH then 0 else 1 + ComponentLength(t[1..])
  }

  predicate SafeComponents(t: Text)
    decreases |t|
  {
    var k := ComponentLength(t);
    && t[..k] != [] && t[..k] != [DOT] && t[..k] != [DOT, DOT]
    && (k < |t| ==> SafeComponents(t[k + 1..]))
  }

  predicate SafePath(t: Text) {
    0 < |t| <= 1024 && t[0] != SLASH && BACKSLASH !in t && SafeComponents(t)
  }

  predicate IsDate(t: Text, dates: Text -> bool) {
    |t| <= 40 && dates(t)
  }

  predicate ValidArtifact(a: Artifact) {
    SafePath(a.path) && IsSha256(a.sha256) && IsDecimal(a.size)
  }

  predicate DistinctPaths(artifacts: seq<Artifact>) {
    forall i, j :: 0 <= i < j < |artifacts| ==> artifacts[i].path != artifacts[j].path
  }

  /** Everything of a valid manifest but its artifacts; `dates` says which texts `Date.parse` accepts. */
  predicate ValidHeader(m: Manifest, dates: Text -> bool) {
    && IsUuid(m.backupId) && IsDate(m.createdAt, dates) && IsDate(m.completedAt, dates) && m.serverVersion != []
    && IsUuid(m.instanceId) && IsUuid(m.syncEpoch) && IsDecimal(m.authEpoch)
    && (m.version.V2? ==> IsDecimal(m.version.generation))
  }

  predicate ValidManifest(m: Manifest, dates: Text -> bool) {
    && ValidHeader(m, dates) && m.artifacts != [] && DistinctPaths(m.artifacts)
    && forall i :: 0 <= i < |m.artifacts| ==> ValidArtifact(m.artifacts[i])
  }

  // -------------------------------------------------------------- the record

  const FORMAT_VERSION: Text := Name("formatVersion")
  const BACKUP_ID: Text := Name("backupId")
  const CREATED_AT: Text := Name("createdAt")
  const COMPLETED_AT: Text := Name("completedAt")
  const SERVER_VERSION: Text := Name("serverVersion")
  const DEPLOYMENT_MODE: Text := Name("deploymentMode")
  const INSTANCE_ID: Text := Name("instanceId")
  const SYNC_EPOCH: Text := Name("syncEpoch")
  const AUTH_EPOCH: Text := Name("authEpoch")
  const BACKUP_GENERATION: Text := Name("backupGeneration")
  const ARTIFACTS: Text := Name("artifacts")
  const PATH: Text := Name("path")
  const SHA256: Text := Name("sha256")
  const SIZE: Text := Name("size")
  const SELF_HOSTED: Text := Name("self-hosted")

  function ArtifactFields(a: Artifact): seq<Field> {
    [Field(PATH, Str(a.path)), Field(SHA256, Str(a.sha256)), Field(SIZE, Str(a.size))]
  }

  function ArtifactItems(artifacts: seq<Artifact>): (items: seq<Json>)
    ensures |items| == |artifacts| && forall i :: 0 <= i < |items| ==> items[i] == Object(ArtifactFields(artifacts[i]))
  {
    if artifacts == [] then [] else [Object(ArtifactFields(artifacts[0]))] + ArtifactItems(artifacts[1..])
  }

  function RecordFields(m: Manifest): seq<Field> {
    [Field(FORMAT_VERSION, Number(if m.version.V1? then 1 else 2)), Field(BACKUP_ID, Str(m.backupId)),
     Field(CREATED_AT, Str(m.createdAt)), Field(COMPLETED_AT, Str(m.completedAt)), Field(SERVER_VERSION, Str(m.serverVersion)),
     Field(DEPLOYMENT_MODE, Str(SELF_HOSTED)), Field(INSTANCE_ID, Str(m.instanceId)), Field(SYNC_EPOCH, Str(m.syncEpoch)),
     Field(AUTH_EPOCH, Str(m.authEpoch))]
    + (match m.version case V1 => [] case V2(generation) => [Field(BACKUP_GENERATION, Str(generation))])
    + [Field(ARTIFACTS, Array(ArtifactItems(m.artifacts)))]
  }

  /** The record as a JavaScript object; its canonical text is what is signed. */
  function Record(m: Manifest): Json {
    Object(RecordFields(m))
  }

  function SignedText(m: Manifest): Text {
    Canonical(Record(m))
  }

  // -------------------------------------------------------------- the reader

  function Get(fields: seq<Field>, key: Text): Option<Json> {
    if fields == [] then None else if fields[0].key == key then Some(fields[0].value) else Get(fields[1..], key)
  }

  /** A string property, or the empty string in place of anything else. */
  function StringField(fields: seq<Field>, key: Text): Text {
    match Get(fields, key)
    case Some(Str(s)) => s
    case _ => []
  }

  function ArtifactOf(item: Json): Option<Artifact> {
    if !item.Object? then None
    else
      var a := Artifact(StringField(item.fields, PATH), StringField(item.fields, SHA256), StringField(item.fields, SIZE));
      if ValidArtifact(a) then Some(a) else None
  }

  /** The artifacts in order, unless one is invalid or repeats a path of `seen` or of an earlier one. */
  function ArtifactsOf(items: seq<Json>, seen: set<Text>): Result<seq<Artifact>, ManifestError> {
    if items == [] then Ok([])
    else match ArtifactOf(items[0])
      case None => Err(InvalidArtifact)
      case Some(a) => if a.path in seen then Err(RepeatedPath) else Prepend([a], ArtifactsOf(items[1..], seen + {a.path}))
  }

  function Prepend(front: seq<Artifact>, r: Result<seq<Artifact>, ManifestError>): Result<seq<Artifact>, ManifestError> {
    match r
    case Ok(rest) => Ok(front + rest)
    case Err(e) => Err(e)
  }

  /** Everything of the manifest but its artifacts; None when the format is not supported. */
  function Header(v: Json, dates: Text -> bool): Option<Manifest> {
    if !v.Object? then None
    else
      var f := v.fields;
      var version := if Get(f, FORMAT_VERSION) == Some(Number(1)) then Some(V1)
                     else if Get(f, FORMAT_VERSION) == Some(Number(2)) then Some(V2(StringField(f, BACKUP_GENERATION)))
                     else None;
      if version.None? then None
      else
        var m := Manifest(version.value, StringField(f, BACKUP_ID), StringField(f, CREATED_AT), StringField(f, COMPLETED_AT),
                          StringField(f, SERVER_VERSION), StringField(f, INSTANCE_ID), StringField(f, SYNC_EPOCH), StringField(f, AUTH_EPOCH), []);
        if && IsUuid(m.backupId) && IsDate(m.createdAt, dates) && IsDate(m.completedAt, dates) && m.serverVersion != []
           && Get(f, DEPLOYMENT_MODE) == Some(Str(SELF_HOSTED)) && IsUuid(m.instanceId) && IsUuid(m.syncEpoch) && IsDecimal(m.authEpoch)
           && (m.version.V2? ==> IsDecimal(m.version.generation))
        then Some(m) else None
  }

  function Items(v: Json): seq<Json> {
    if v.Object? then
      match Get(v.fields, ARTIFACTS)
      case Some(Array(items)) => items
      case _ => []
    else []
  }

  function ManifestFrom(v: Json, dates: Text -> bool): Result<Manifest, ManifestError> {
    match Header(v, dates)
    case None => Err(Unsupported)
    case Some(header) =>
      if Items(v) == [] then Err(Unsupported)
      else match ArtifactsOf(Items(v), {})
        case Ok(artifacts) => Ok(header.(artifacts := artifacts))
        case Err(e) => Err(e)
  }

  /** `parseManifest`. */
  function ManifestOf(text: Text, dates: Text -> bool): Result<Manifest, ManifestError> {
    match Parse(text)
    case None => Err(InvalidJson)
    case Some(v) => ManifestFrom(v, dates)
  }

  method ParseManifest(text: Text, dates: Text -> bool) returns (r: Result<Manifest, ManifestError>)
    ensures r == ManifestOf(text, dates)
  {
    var value := Parse(text);
    if value.None? {
      return Err(InvalidJson);
    }
    var header := Header(value.value, dates);
    var items := Items(value.value);
    if header.None? || items == [] {
      return Err(Unsupported);
    }
    var paths: set<Text> := {};
    var artifacts: seq<Artifact> := [];
    PrependTwice([], [], ArtifactsOf(items, {}));
    assert items[0..] == items;
    for i := 0 to |items|
      invariant ArtifactsOf(items, {}) == Prepend(artifacts, ArtifactsOf(items[i..], paths))
    {
      var artifact := ArtifactOf(items[i]);
      if artifact.None? {
        return Err(InvalidArtifact);
      }
      if artifact.value.path in paths {
        return Err(RepeatedPath);
      }
      assert items[i..][1..] == items[i + 1..];
      paths := paths + {artifact.value.path};
      PrependTwice(artifacts, [artifact.value], ArtifactsOf(items[i + 1..], paths));
      artifacts := artifacts + [artifact.value];
    }
    assert artifacts + [] == artifacts;
    return Ok(header.value.(artifacts := artifacts));
  }

  lemma PrependTwice(a: seq<Artifact>, b: seq<Artifact>, r: Result<seq<Artifact>, ManifestError>)
    ensures Prepend(a, Prepend(b, r)) == Prepend(a + b, r)
    ensures Prepend([], r) == r
  {
    if r.Ok? {
      assert a + (b + r.value) == a + b + r.value && [] + r.value == r.value;
    }
  }

  // ----------------------------------------------------- properties by name

  lemma {:induction false} GetHas(fields: seq<Field>, key: Text)
    ensures Get(fields, key).Some? ==> Field(key, Get(fields, key).value) in fields
    ensures Get(fields, key).None? ==> forall x :: x in fields ==> x.key != key
  {
    if fields != [] {
      GetHas(fields[1..], key);
      assert fields == [fields[0]] + fields[1..];
    }
  }

  lemma GetIs(fields: seq<Field>, x: Field)
    requires Distinct(fields) && x in fields
    ensures Get(fields, x.key) == Some(x.value)
  {
    GetHas(fields, x.key);
  }

  /** Sorting the properties changes no property; its value is sorted in turn. */
  lemma GetSorted(fields: seq<Field>, key: Text)
    requires Distinct(fields)
    ensures Get(SortedFields(fields), key) == match Get(fields, key)
                                             case None => None
                                             case Some(v) => Some(Sorted(v))
  {
    SortedAscending(fields);
    AscendingDistinct(SortedFields(fields));
    GetHas(fields, key);
    GetHas(SortedFields(fields), key);
    match Get(fields, key)
    case Some(v) =>
      var i :| 0 <= i < |fields| && fields[i] == Field(key, v);
      assert IsSortedOf(Field(key, Sorted(v)), fields[i]);
      SortedHas(fields, Field(key, Sorted(v)));
      GetIs(SortedFields(fields), Field(key, Sorted(v)));
    case None =>
      if Get(SortedFields(fields), key).Some? {
        SortedHas(fields, Field(key, Get(SortedFields(fields), key).value));
      }
  }

  lemma StringFieldSorted(fields: seq<Field>, key: Text)
    requires Distinct(fields)
    ensures StringField(SortedFields(fields), key) == StringField(fields, key)
  {
    GetSorted(fields, key);
  }

  lemma ArtifactSorted(item: Json)
    requires Plain(item)
    ensures ArtifactOf(Sorted(item)) == ArtifactOf(item)
  {
    if item.Object? {
      StringFieldSorted(item.fields, PATH);
      StringFieldSorted(item.fields, SHA256);
      StringFieldSorted(item.fields, SIZE);
    }
  }

  lemma {:induction false} ArtifactsSorted(items: seq<Json>, seen: set<Text>)
    requires forall i :: 0 <= i < |items| ==> Plain(items[i])
    ensures ArtifactsOf(SortedItems(items), seen) == ArtifactsOf(items, seen)
  {
    if items != [] {
      ArtifactSorted(items[0]);
      if ArtifactOf(items[0]).Some? {
        ArtifactsSorted(items[1..], seen + {ArtifactOf(items[0]).value.path});
      }
    }
  }

  lemma HeaderSorted(v: Json, dates: Text -> bool)
    requires Plain(v)
    ensures Header(Sorted(v), dates) == Header(v, dates)
  {
    if v.Object? {
      var f := v.fields;
      GetSorted(f, FORMAT_VERSION);
      GetSorted(f, DEPLOYMENT_MODE);
      StringFieldSorted(f, BACKUP_ID);
      StringFieldSorted(f, CREATED_AT);
      StringFieldSorted(f, COMPLETED_AT);
      StringFieldSorted(f, SERVER_VERSION);
      StringFieldSorted(f, INSTANCE_ID);
      StringFieldSorted(f, SYNC_EPOCH);
      StringFieldSorted(f, AUTH_EPOCH);
      StringFieldSorted(f, BACKUP_GENERATION);
    }
  }

  /** The reader does not see the order of properties, at any depth. */
  lemma OrderIrrelevant(v: Json, dates: Text -> bool)
    requires Plain(v)
    ensures ManifestFrom(Sorted(v), dates) == ManifestFrom(v, dates)
  {
    HeaderSorted(v, dates);
    if v.Object? {
      GetSorted(v.fields, ARTIFACTS);
      GetHas(v.fields, ARTIFACTS);
      assert Items(Sorted(v)) == SortedItems(Items(v));
      ArtifactsSorted(Items(v), {});
    }
  }

  // ---------------------------------------------- the record and the reader

  lemma NamesDiffer(m: Manifest)
    ensures Distinct(RecordFields(m))
  {
    var f := RecordFields(m);
    forall i, j | 0 <= i < j < |f|
      ensures f[i].key != f[j].key
    {
      NameShapes();
    }
  }

  /** The property names differ in length or in one of their first two letters. */
  lemma NameShapes()
    ensures |FORMAT_VERSION| == 13 && |SERVER_VERSION| == 13 && FORMAT_VERSION[0] == 102 && SERVER_VERSION[0] == 115
    ensures |BACKUP_ID| == 8 && |COMPLETED_AT| == 11 && |DEPLOYMENT_MODE| == 14 && |INSTANCE_ID| == 10 && |BACKUP_GENERATION| == 16
    ensures |CREATED_AT| == 9 && |SYNC_EPOCH| == 9 && |AUTH_EPOCH| == 9 && |ARTIFACTS| == 9
    ensures CREATED_AT[0] == 99 && SYNC_EPOCH[0] == 115 && AUTH_EPOCH[0] == 97 && AUTH_EPOCH[1] == 117 && ARTIFACTS[0] == 97 && ARTIFACTS[1] == 114
    ensures |PATH| == 4 && |SHA256| == 6 && |SIZE| == 4 && PATH[0] == 112 && SIZE[0] == 115
  {
  }

  lemma RecordPlain(m: Manifest)
    ensures Plain(Record(m))
  {
    NamesDiffer(m);
    forall i | 0 <= i < |m.artifacts|
      ensures Plain(ArtifactItems(m.artifacts)[i])
    {
      ArtifactPlain(m.artifacts[i]);
    }
    assert Plain(Array(ArtifactItems(m.artifacts)));
  }

  lemma ArtifactPlain(a: Artifact)
    ensures Plain(Object(ArtifactFields(a)))
  {
    NameShapes();
  }

  lemma ArtifactReadsBack(a: Artifact)
    requires ValidArtifact(a)
    ensures ArtifactOf(Object(ArtifactFields(a))) == Some(a)
  {
    var f := ArtifactFields(a);
    NameShapes();
    GetIs(f, f[0]);
    GetIs(f, f[1]);
    GetIs(f, f[2]);
  }

  lemma {:induction false} ArtifactsReadBack(artifacts: seq<Artifact>, seen: set<Text>)
    requires DistinctPaths(artifacts) && forall i :: 0 <= i < |artifacts| ==> ValidArtifact(artifacts[i]) && artifacts[i].path !in seen
    ensures ArtifactsOf(ArtifactItems(artifacts), seen) == Ok(artifacts)
  {
    if artifacts != [] {
      var first, rest := artifacts[0], artifacts[1..];
      ArtifactReadsBack(first);
      ArtifactsReadBack(rest, seen + {first.path});
      assert artifacts == [first] + rest;
      assert ArtifactItems(artifacts)[1..] == ArtifactItems(rest);
    }
  }

  /** The i-th property of a record, by its name. */
  lemma RecordGet(m: Manifest, i: nat)
    requires i < |RecordFields(m)|
    ensures Get(RecordFields(m), RecordFields(m)[i].key) == Some(RecordFields(m)[i].value)
  {
    NamesDiffer(m);
    GetIs(RecordFields(m), RecordFields(m)[i]);
  }

  lemma HeaderReadsBack(m: Manifest, dates: Text -> bool)
    requires ValidManifest(m, dates)
    ensures Header(Record(m), dates) == Some(m.(artifacts := []))
  {
    var f := RecordFields(m);
    forall i | 0 <= i < |f|
      ensures Get(f, f[i].key) == Some(f[i].value)
    {
      RecordGet(m, i);
    }
    assert f[0].key == FORMAT_VERSION && f[1].key == BACKUP_ID && f[2].key == CREATED_AT && f[3].key == COMPLETED_AT;
    assert f[4].key == SERVER_VERSION && f[5].key == DEPLOYMENT_MODE && f[6].key == INSTANCE_ID && f[7].key == SYNC_EPOCH;
    assert f[8].key == AUTH_EPOCH && (m.version.V2? ==> f[9].key == BACKUP_GENERATION);
  }

  /** The reader rebuilds a valid record from the record itself. */
  lemma RecordReadsBack(m: Manifest, dates: Text -> bool)
    requires ValidManifest(m, dates)
    ensures ManifestFrom(Record(m), dates) == Ok(m)
  {
    HeaderReadsBack(m, dates);
    RecordGet(m, |RecordFields(m)| - 1);
    assert Items(Record(m)) == ArtifactItems(m.artifacts);
    ArtifactsReadBack(m.artifacts, {});
  }

  // ------------------------------------------------------------- main results

  /** The reader rebuilds, from the text the writer put into the file, the writer's record: so it checks exactly the signed text. */
  lemma ReaderRebuildsSignedRecord(m: Manifest, dates: Text -> bool)
    requires ValidManifest(m, dates)
    ensures ManifestOf(SignedText(m) + [10], dates) == Ok(m)
  {
    RecordPlain(m);
    CanonicalReadsBack(Record(m), [10]);
    OrderIrrelevant(Record(m), dates);
    RecordReadsBack(m, dates);
  }

  /** A manifest file that holds the writer's properties in any order is read as the same record. */
  lemma AnyPropertyOrder(v: Json, m: Manifest, dates: Text -> bool)
    requires ValidManifest(m, dates) && Plain(v) && Same(v, Record(m))
    ensures ManifestFrom(v, dates) == Ok(m)
  {
    RecordPlain(m);
    SameSorts(v, Record(m));
    OrderIrrelevant(v, dates);
    OrderIrrelevant(Record(m), dates);
    RecordReadsBack(m, dates);
  }

  /** Equal signed texts come from equal records: a signature vouches for every field of what the reader returns. */
  lemma SignedTextDeterminesRecord(m: Manifest, n: Manifest, dates: Text -> bool)
    requires ValidManifest(m, dates) && ValidManifest(n, dates)
    ensures SignedText(m) == SignedText(n) <==> m == n
  {
    if SignedText(m) == SignedText(n) {
      ReaderRebuildsSignedRecord(m, dates);
      ReaderRebuildsSignedRecord(n, dates);
    }
  }

  lemma {:induction false} ReadArtifactsValid(items: seq<Json>, seen: set<Text>)
    requires ArtifactsOf(items, seen).Ok?
    ensures var artifacts := ArtifactsOf(items, seen).value;
            && |artifacts| == |items| && DistinctPaths(artifacts)
            && forall i :: 0 <= i < |artifacts| ==> ValidArtifact(artifacts[i]) && artifacts[i].path !in seen
  {
    if items != [] {
      ReadArtifactsValid(items[1..], seen + {ArtifactOf(items[0]).value.path});
    }
  }

  /** The reader accepts nothing but valid records; in particular no path occurs twice. */
  lemma OnlyValidAccepted(text: Text, dates: Text -> bool)
    requires ManifestOf(text, dates).Ok?
    ensures ValidManifest(ManifestOf(text, dates).value, dates)
  {
    ReadArtifactsValid(Items(Parse(text).value), {});
  }

  // --------------------------------------------------- verifying the package

  datatype File = File(regular: bool, bytes: nat, digest: Text)
  datatype PackageError = NotRegular(path: Text) | SizeMismatch(path: Text) | DigestMismatch(path: Text)

  /** What lies at an artifact's path is a regular file of its size and digest. */
  predicate Matches(files: map<Text, File>, a: Artifact)
    requires IsDecimal(a.size)
  {
    && a.path in files && files[a.path].regular
    && files[a.path].bytes == DigitsValue(a.size) && files[a.path].digest == a.sha256
  }

  function TotalBytes(artifacts: seq<Artifact>): nat
    requires forall i :: 0 <= i < |artifacts| ==> IsDecimal(artifacts[i].size)
  {
    if artifacts == [] then 0 else
      var last := artifacts[|artifacts| - 1];
      assert IsDecimal(last.size);
      TotalBytes(artifacts[..|artifacts| - 1]) + DigitsValue(last.size)
  }

  /** The artifact loop: accepts exactly the packages in which every artifact matches, and adds up their sizes. */
  method VerifyArtifacts(files: map<Text, File>, artifacts: seq<Artifact>) returns (r: Result<nat, PackageError>)
    requires forall i :: 0 <= i < |artifacts| ==> IsDecimal(artifacts[i].size)
    ensures r.Ok? <==> forall i :: 0 <= i < |artifacts| ==> Matches(files, artifacts[i])
    ensures r.Ok? ==> r.value == TotalBytes(artifacts)
    ensures r.Err? ==> exists i :: 0 <= i < |artifacts| && artifacts[i].path == r.error.path && !Matches(files, artifacts[i])
                                   && forall k :: 0 <= k < i ==> Matches(files, artifacts[k])
  {
    var total := 0;
    for i := 0 to |artifacts|
      invariant forall k :: 0 <= k < i ==> Matches(files, artifacts[k])
      invariant total == TotalBytes(artifacts[..i])
    {
      var a := artifacts[i];
      if a.path !in files || !files[a.path].regular {
        return Err(NotRegular(a.path));
      }
      if files[a.path].bytes != DigitsValue(a.size) {
        return Err(SizeMismatch(a.path));
      }
      if files[a.path].digest != a.sha256 {
        return Err(DigestMismatch(a.path));
      }
      assert artifacts[..i + 1][..i] == artifacts[..i];
      total := total + DigitsValue(a.size);
    }
    assert artifacts[..|artifacts|] == artifacts;
    return Ok(total);
  }

  // --------------------------------------------------- the writer's package

  /** A file the writer copied into the package: where to, its digest and its size. */
  datatype Copied = Copied(path: Text, sha256: Text, bytes: nat)

  /** The artifact entries the writer makes of them, sizes as decimal text. */
  function WrittenArtifacts(copied: seq<Copied>): (artifacts: seq<Artifact>)
    ensures |artifacts| == |copied|
    ensures forall i :: 0 <= i < |copied| ==> artifacts[i] == Artifact(copied[i].path, copied[i].sha256, Digits(copied[i].bytes))
  {
    if copied == [] then [] else
      var last := copied[|copied| - 1];
      WrittenArtifacts(copied[..|copied| - 1]) + [Artifact(last.path, last.sha256, Digits(last.bytes))]
  }

  function CopiedBytes(copied: seq<Copied>): nat {
    if copied == [] then 0 else CopiedBytes(copied[..|copied| - 1]) + copied[|copied| - 1].bytes
  }

  lemma SizeReadsBack(size: nat)
    ensures IsDecimal(Digits(size)) && DigitsValue(Digits(size)) == size
  {
    DigitsReadBack(size);
  }

  lemma {:induction false} TotalIsCopied(copied: seq<Copied>)
    ensures forall i :: 0 <= i < |copied| ==> IsDecimal(WrittenArtifacts(copied)[i].size)
    ensures TotalBytes(WrittenArtifacts(copied)) == CopiedBytes(copied)
  {
    forall i | 0 <= i < |copied|
      ensures IsDecimal(WrittenArtifacts(copied)[i].size)
    {
      SizeReadsBack(copied[i].bytes);
    }
    if copied != [] {
      var front := copied[..|copied| - 1];
      TotalIsCopied(front);
      SizeReadsBack(copied[|copied| - 1].bytes);
      assert WrittenArtifacts(copied)[..|front|] == WrittenArtifacts(front);
    }
  }

  predicate CopiedOk(copied: seq<Copied>) {
    && copied != [] && (forall i :: 0 <= i < |copied| ==> SafePath(copied[i].path) && IsSha256(copied[i].sha256))
    && forall i, j :: 0 <= i < j < |copied| ==> copied[i].path != copied[j].path
  }

  predicate InPlace(files: map<Text, File>, c: Copied) {
    c.path in files && files[c.path] == File(true, c.bytes, c.sha256)
  }

  lemma WrittenArtifactsValid(copied: seq<Copied>)
    requires CopiedOk(copied)
    ensures var artifacts := WrittenArtifacts(copied);
            DistinctPaths(artifacts) && forall i :: 0 <= i < |artifacts| ==> ValidArtifact(artifacts[i])
  {
    var artifacts := WrittenArtifacts(copied);
    forall i | 0 <= i < |artifacts|
      ensures ValidArtifact(artifacts[i])
    {
      SizeReadsBack(copied[i].bytes);
    }
  }

  lemma WrittenArtifactMatches(files: map<Text, File>, copied: seq<Copied>, i: nat)
    requires i < |copied| && InPlace(files, copied[i])
    ensures IsDecimal(WrittenArtifacts(copied)[i].size) && Matches(files, WrittenArtifacts(copied)[i])
  {
    SizeReadsBack(copied[i].bytes);
  }

  /**
   * A backup as written verifies: the reader rebuilds the signed record from the file, every artifact matches
   * the file copied for it, and the sizes add up to the bytes copied.
   */
  lemma WrittenPackageVerifies(header: Manifest, copied: seq<Copied>, files: map<Text, File>, dates: Text -> bool)
    requires ValidHeader(header, dates) && CopiedOk(copied) && forall i :: 0 <= i < |copied| ==> InPlace(files, copied[i])
    ensures var m := header.(artifacts := WrittenArtifacts(copied)); ManifestOf(SignedText(m) + [10], dates) == Ok(m)
    ensures var artifacts := WrittenArtifacts(copied);
            && (forall i :: 0 <= i < |artifacts| ==> IsDecimal(artifacts[i].size) && Matches(files, artifacts[i]))
            && TotalBytes(artifacts) == CopiedBytes(copied)
  {
    WrittenArtifactsValid(copied);
    ReaderRebuildsSignedRecord(header.(artifacts := WrittenArtifacts(copied)), dates);
    TotalIsCopied(copied);
    forall i | 0 <= i < |copied|
      ensures Matches(files, WrittenArtifacts(copied)[i])
    {
      WrittenArtifactMatches(files, copied, i);
    }
  }
}
