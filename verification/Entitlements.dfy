/** Effective entitlements: the current subscription and the live grants, merged one after the other. */
module Entitlements {
  import opened Common
  import opened JsonText

  type Time = int

  // -------------------------------------------------------------- documents

  const MAX_SAFE: int := 0x1F_FFFF_FFFF_FFFF

  /** What a stored document may hold at a limit; `Other` is anything that is neither null, an integer nor a string. */
  datatype RawLimit = Null | Integer(n: int) | String(text: Text) | Other
  datatype RawFeature = Boolean(on: bool) | NoBoolean
  datatype RawDocument = RawDocument(features: map<string, RawFeature>, limits: map<string, RawLimit>)

  /** A limit that passed the check: a number, or a decimal text that may exceed every number. */
  datatype Limit = Unlimited | Number(n: nat) | Decimal(text: Text)

  predicate LimitOk(l: Limit) {
    l.Decimal? ==> IsDecimal(l.text)
  }

  datatype Document = Document(features: map<string, bool>, limits: map<string, Limit>)

  predicate DocumentOk(d: Document) {
    forall k :: k in d.limits ==> LimitOk(d.limits[k])
  }

  const FREE_DEFAULT: Document := Document(map[], map[])

  function ParseLimit(raw: RawLimit): Option<Limit> {
    match raw
    case Null => Some(Unlimited)
    case Integer(n) => if 0 <= n <= MAX_SAFE then Some(Number(n)) else None
    case String(text) => if IsDecimal(text) then Some(Decimal(text)) else None
    case Other => None
  }

  predicate Parseable(raw: RawDocument) {
    && (forall k :: k in raw.features ==> raw.features[k].Boolean?)
    && forall k :: k in raw.limits ==> ParseLimit(raw.limits[k]).Some?
  }

  function Parsed(raw: RawDocument): (d: Document)
    requires Parseable(raw)
    ensures DocumentOk(d)
  {
    Document(map k | k in raw.features :: raw.features[k].on, map k | k in raw.limits :: ParseLimit(raw.limits[k]).value)
  }

  /** The value of a limit, as `BigInt` reads it. */
  function Value(l: Limit): nat
    requires LimitOk(l) && !l.Unlimited?
  {
    match l
    case Number(n) => n
    case Decimal(text) => DigitsValue(text)
  }

  /** `widerLimit`; `left` is absent when the base does not state the limit. */
  function Wider(left: Option<Limit>, right: Limit): (l: Limit)
    requires LimitOk(right) && (left.Some? ==> LimitOk(left.value))
    ensures LimitOk(l)
  {
    if left == Some(Unlimited) || right.Unlimited? then Unlimited
    else if left.None? then right
    else if Value(left.value) >= Value(right) then left.value else right
  }

  /** Names under which a plain JavaScript object finds a function it does not own. */
  const INHERITED: set<string> := {
    "constructor", "toString", "toLocaleString", "valueOf", "hasOwnProperty", "isPrototypeOf", "propertyIsEnumerable",
    "__defineGetter__", "__defineSetter__", "__lookupGetter__", "__lookupSetter__"
  }

  /** A limit of such a name that the base does not own makes `widerLimit` compare a function, which raises an error, unless the limit is null. */
  predicate Trips(base: Document, override: Document) {
    exists k :: k in override.limits && k in INHERITED && !override.limits[k].Unlimited? && k !in base.limits
  }

  function Merge(base: Document, override: Document): (d: Document)
    requires DocumentOk(base) && DocumentOk(override)
    ensures DocumentOk(d)
  {
    Document(map k | k in base.features.Keys + override.features.Keys ::
               (k in base.features && base.features[k]) || (k in override.features && override.features[k]),
             map k | k in base.limits.Keys + override.limits.Keys ::
               if k !in override.limits then base.limits[k]
               else Wider(if k in base.limits then Some(base.limits[k]) else None, override.limits[k]))
  }

  function LaterOf(left: Option<Time>, right: Option<Time>): Option<Time> {
    if left.None? || right.None? then None else if left.value > right.value then left else right
  }

  /** The limit on the wire: decimal text, or null for unlimited. */
  function Normalized(l: Limit): Option<Text> {
    match l
    case Unlimited => None
    case Number(n) => Some(Digits(n))
    case Decimal(text) => Some(text)
  }

  function NormalizedLimits(limits: map<string, Limit>): map<string, Option<Text>> {
    map k | k in limits :: Normalized(limits[k])
  }

  // ------------------------------------------------------------- the sources

  datatype SubscriptionStatus = Trialing | Active | Grace | OtherStatus

  datatype Subscription = Subscription(status: SubscriptionStatus, currentPeriodEnd: Option<Time>, graceEndsAt: Option<Time>,
                                       schemaVersion: int, entitlements: RawDocument)

  datatype Grant = Grant(schemaVersion: int, entitlements: RawDocument, expiresAt: Option<Time>)

  function Max(a: int, b: int): int {
    if a >= b then a else b
  }

  predicate IsEntitled(s: Subscription, at: Time) {
    if s.status == Grace then s.graceEndsAt.Some? && s.graceEndsAt.value > at
    else (s.status == Trialing || s.status == Active) && s.currentPeriodEnd.Some? && s.currentPeriodEnd.value > at
  }

  datatype Source = FreeDefault | Trial | Subscribed | ManualGrant

  datatype Effective = Effective(schemaVersion: int, source: Source, validUntil: Option<Time>, features: map<string, bool>, limits: map<string, Option<Text>>)

  datatype EntitlementError = EntitlementInvalid | LimitUnreadable

  /** The variables of the loop. */
  datatype State = State(document: Document, source: Source, schemaVersion: int, validUntil: Option<Time>, entitled: bool)

  function Start(subscription: Option<Subscription>, at: Time): (s: State)
    requires subscription.Some? && IsEntitled(subscription.value, at) ==> Parseable(subscription.value.entitlements)
    ensures DocumentOk(s.document)
  {
    if subscription.Some? && IsEntitled(subscription.value, at) then
      var s := subscription.value;
      State(Parsed(s.entitlements), if s.status == Trialing then Trial else Subscribed, s.schemaVersion,
            if s.status == Grace then s.graceEndsAt else s.currentPeriodEnd, true)
    else State(FREE_DEFAULT, FreeDefault, 1, None, false)
  }

  function AddGrant(s: State, grant: Grant): (t: State)
    requires DocumentOk(s.document) && Parseable(grant.entitlements)
    ensures DocumentOk(t.document)
  {
    State(Merge(s.document, Parsed(grant.entitlements)), ManualGrant, Max(s.schemaVersion, grant.schemaVersion),
          if s.entitled then LaterOf(s.validUntil, grant.expiresAt) else grant.expiresAt, true)
  }

  predicate AllParseable(grants: seq<Grant>) {
    forall g :: g in grants ==> Parseable(g.entitlements)
  }

  function Folded(start: State, grants: seq<Grant>): (s: State)
    requires DocumentOk(start.document) && AllParseable(grants)
    ensures DocumentOk(s.document)
  {
    if grants == [] then start else AddGrant(Folded(start, grants[..|grants| - 1]), grants[|grants| - 1])
  }

  function EffectiveFrom(s: State): Effective {
    Effective(s.schemaVersion, s.source, s.validUntil, s.document.features, NormalizedLimits(s.document.limits))
  }

  predicate Readable(subscription: Option<Subscription>, grants: seq<Grant>, at: Time) {
    SubscriptionReadable(subscription, at) && AllParseable(grants)
  }

  /** The error raised while merging the grants one after the other, if any. */
  function Failure(start: State, grants: seq<Grant>): (e: Option<EntitlementError>)
    requires DocumentOk(start.document)
    ensures e == None ==> AllParseable(grants)
  {
    if grants == [] then None else
      var front, last := grants[..|grants| - 1], grants[|grants| - 1];
      assert grants == front + [last];
      if Failure(start, front).Some? then Failure(start, front)
      else if !Parseable(last.entitlements) then Some(EntitlementInvalid)
      else if Trips(Folded(start, front).document, Parsed(last.entitlements)) then Some(LimitUnreadable)
      else None
  }

  predicate SubscriptionReadable(subscription: Option<Subscription>, at: Time) {
    subscription.Some? && IsEntitled(subscription.value, at) ==> Parseable(subscription.value.entitlements)
  }

  /** `getEffective`, for the grants in the order the query returns them. */
  function EffectiveOf(subscription: Option<Subscription>, grants: seq<Grant>, at: Time): Result<Effective, EntitlementError> {
    if !SubscriptionReadable(subscription, at) then Err(EntitlementInvalid)
    else match Failure(Start(subscription, at), grants)
      case Some(e) => Err(e)
      case None => Ok(EffectiveFrom(Folded(Start(subscription, at), grants)))
  }

  method GetEffective(subscription: Option<Subscription>, grants: seq<Grant>, at: Time) returns (r: Result<Effective, EntitlementError>)
    ensures r == EffectiveOf(subscription, grants, at)
  {
    var document, source, schemaVersion, validUntil, entitled := FREE_DEFAULT, FreeDefault, 1, None, false;
    if subscription.Some? && IsEntitled(subscription.value, at) {
      var s := subscription.value;
      if !Parseable(s.entitlements) {
        return Err(EntitlementInvalid);
      }
      document, schemaVersion := Parsed(s.entitlements), s.schemaVersion;
      source := if s.status == Trialing then Trial else Subscribed;
      validUntil := if s.status == Grace then s.graceEndsAt else s.currentPeriodEnd;
      entitled := true;
    }
    ghost var start := Start(subscription, at);
    for i := 0 to |grants|
      invariant Failure(start, grants[..i]) == None
      invariant State(document, source, schemaVersion, validUntil, entitled) == Folded(start, grants[..i])
    {
      FirstFailure(start, grants, i + 1);
      assert grants[..i + 1][..i] == grants[..i];
      if !Parseable(grants[i].entitlements) {
        return Err(EntitlementInvalid);
      }
      if Trips(document, Parsed(grants[i].entitlements)) {
        return Err(LimitUnreadable);
      }
      document := Merge(document, Parsed(grants[i].entitlements));
      schemaVersion := Max(schemaVersion, grants[i].schemaVersion);
      source := ManualGrant;
      validUntil := if entitled then LaterOf(validUntil, grants[i].expiresAt) else grants[i].expiresAt;
      entitled := true;
    }
    assert grants[..|grants|] == grants;
    return Ok(Effective(schemaVersion, source, validUntil, document.features, NormalizedLimits(document.limits)));
  }

  /** The first error is the error of the call. */
  lemma {:induction false} FirstFailure(start: State, grants: seq<Grant>, n: nat)
    requires DocumentOk(start.document) && n <= |grants|
    ensures Failure(start, grants[..n]).Some? ==> Failure(start, grants) == Failure(start, grants[..n])
    decreases |grants|
  {
    if n == |grants| {
      assert grants[..n] == grants;
    } else {
      FirstFailure(start, grants[..|grants| - 1], n);
      assert grants[..|grants| - 1][..n] == grants[..n];
    }
  }

  // ----------------------------------------- what the result is, order aside

  /** One entitled source: the subscription's or a grant's document, with the date it ends. */
  datatype Part = Part(document: Document, schemaVersion: int, until: Option<Time>)

  function PartOf(grant: Grant): Part
    requires Parseable(grant.entitlements)
  {
    Part(Parsed(grant.entitlements), grant.schemaVersion, grant.expiresAt)
  }

  /** A part is a grant, or the subscription the fold started with. */
  predicate IsPart(start: State, grants: seq<Grant>, p: Part)
    requires AllParseable(grants)
  {
    (start.entitled && p == Part(start.document, start.schemaVersion, start.validUntil)) || exists g :: g in grants && p == PartOf(g)
  }

  predicate StartOk(start: State) {
    DocumentOk(start.document) && (!start.entitled ==> start == State(FREE_DEFAULT, FreeDefault, 1, None, false))
  }

  lemma PartsGrow(start: State, grants: seq<Grant>, p: Part)
    requires AllParseable(grants) && grants != []
    ensures AllParseable(grants[..|grants| - 1])
    ensures IsPart(start, grants, p) <==> IsPart(start, grants[..|grants| - 1], p) || p == PartOf(grants[|grants| - 1])
  {
    var front, last := grants[..|grants| - 1], grants[|grants| - 1];
    assert grants == front + [last];
  }

  /** A feature is listed when some part lists it, and on when some part turns it on. */
  lemma {:induction false} FeatureMeaning(start: State, grants: seq<Grant>, k: string)
    requires StartOk(start) && AllParseable(grants)
    ensures k in Folded(start, grants).document.features <==> exists p :: IsPart(start, grants, p) && k in p.document.features
    ensures k in Folded(start, grants).document.features ==>
              (Folded(start, grants).document.features[k] <==> exists p :: IsPart(start, grants, p) && k in p.document.features && p.document.features[k])
  {
    if grants == [] {
      var p := Part(start.document, start.schemaVersion, start.validUntil);
      assert IsPart(start, grants, p) <==> start.entitled;
    } else {
      var front, last := grants[..|grants| - 1], PartOf(grants[|grants| - 1]);
      PartsGrow(start, grants, last);
      FeatureMeaning(start, front, k);
      forall p
        ensures IsPart(start, grants, p) <==> IsPart(start, front, p) || p == last
      {
        PartsGrow(start, grants, p);
      }
      assert IsPart(start, grants, last);
    }
  }

  predicate StatesLimit(start: State, grants: seq<Grant>, p: Part, k: string)
    requires AllParseable(grants)
  {
    IsPart(start, grants, p) && k in p.document.limits
  }

  /** Of the parts that state a limit: unlimited when one is unlimited, else the greatest value among them. */
  ghost predicate IsWidest(start: State, grants: seq<Grant>, k: string, l: Limit)
    requires StartOk(start) && AllParseable(grants) && LimitOk(l)
  {
    if l.Unlimited? then exists p :: StatesLimit(start, grants, p, k) && p.document.limits[k].Unlimited?
    else
      && (forall p :: StatesLimit(start, grants, p, k) ==> AtMost(p.document.limits[k], l))
      && exists p :: StatesLimit(start, grants, p, k) && p.document.limits[k] == l
  }

  predicate AtMost(a: Limit, l: Limit)
    requires LimitOk(l) && !l.Unlimited?
  {
    LimitOk(a) && !a.Unlimited? && Value(a) <= Value(l)
  }

  lemma {:induction false} LimitMeaning(start: State, grants: seq<Grant>, k: string)
    requires StartOk(start) && AllParseable(grants)
    ensures k in Folded(start, grants).document.limits <==> exists p :: StatesLimit(start, grants, p, k)
    ensures k in Folded(start, grants).document.limits ==> IsWidest(start, grants, k, Folded(start, grants).document.limits[k])
  {
    if grants == [] {
      var p := Part(start.document, start.schemaVersion, start.validUntil);
      assert IsPart(start, grants, p) <==> start.entitled;
      assert StatesLimit(start, grants, p, k) <==> k in start.document.limits;
    } else {
      var front := grants[..|grants| - 1];
      LimitMeaning(start, front, k);
      LimitStep(start, front, grants, k);
    }
  }

  lemma LimitStep(start: State, front: seq<Grant>, grants: seq<Grant>, k: string)
    requires StartOk(start) && AllParseable(grants) && grants != [] && front == grants[..|grants| - 1] && AllParseable(front)
    requires k in Folded(start, front).document.limits <==> exists p :: StatesLimit(start, front, p, k)
    requires k in Folded(start, front).document.limits ==> IsWidest(start, front, k, Folded(start, front).document.limits[k])
    ensures k in Folded(start, grants).document.limits <==> exists p :: StatesLimit(start, grants, p, k)
    ensures k in Folded(start, grants).document.limits ==> IsWidest(start, grants, k, Folded(start, grants).document.limits[k])
  {
    var last := PartOf(grants[|grants| - 1]);
    var before, after := Folded(start, front).document.limits, Folded(start, grants).document.limits;
    forall p
      ensures StatesLimit(start, grants, p, k) <==> StatesLimit(start, front, p, k) || (p == last && k in last.document.limits)
    {
      PartsGrow(start, grants, p);
    }
    if k in last.document.limits {
      assert StatesLimit(start, grants, last, k);
      var left := if k in before then Some(before[k]) else None;
      WiderIsWidest(start, front, grants, k, left, last);
    } else if k in before {
      StillWidest(start, front, grants, k, before[k]);
    }
  }

  lemma StillWidest(start: State, front: seq<Grant>, grants: seq<Grant>, k: string, l: Limit)
    requires StartOk(start) && AllParseable(front) && AllParseable(grants) && LimitOk(l) && IsWidest(start, front, k, l)
    requires forall p :: StatesLimit(start, grants, p, k) <==> StatesLimit(start, front, p, k)
    ensures IsWidest(start, grants, k, l)
  {
  }

  lemma WiderIsWidest(start: State, front: seq<Grant>, grants: seq<Grant>, k: string, left: Option<Limit>, last: Part)
    requires StartOk(start) && AllParseable(front) && AllParseable(grants) && DocumentOk(last.document) && k in last.document.limits
    requires left.Some? ==> LimitOk(left.value) && IsWidest(start, front, k, left.value)
    requires left.None? ==> forall p :: !StatesLimit(start, front, p, k)
    requires forall p :: StatesLimit(start, grants, p, k) <==> StatesLimit(start, front, p, k) || p == last
    ensures IsWidest(start, grants, k, Wider(left, last.document.limits[k]))
  {
    var right := last.document.limits[k];
    var l := Wider(left, right);
    assert StatesLimit(start, grants, last, k);
    if l.Unlimited? && !right.Unlimited? {
      var p :| StatesLimit(start, front, p, k) && p.document.limits[k].Unlimited?;
      assert StatesLimit(start, grants, p, k);
    } else if !l.Unlimited? && l != right {
      var p :| StatesLimit(start, front, p, k) && p.document.limits[k] == l;
      assert StatesLimit(start, grants, p, k);
    }
  }

  /** Two limits that are both widest are the same on the wire, whether stated as number or as text. */
  lemma SameWidest(a: Limit, b: Limit)
    requires LimitOk(a) && LimitOk(b) && (a.Unlimited? <==> b.Unlimited?) && (!a.Unlimited? ==> Value(a) == Value(b))
    ensures Normalized(a) == Normalized(b)
  {
    if a.Decimal? {
      DecimalIsDigits(a.text);
    }
    if b.Decimal? {
      DecimalIsDigits(b.text);
    }
  }

  /** The latest end among the parts, or no end when one part has none. */
  ghost predicate IsLatest(start: State, grants: seq<Grant>, until: Option<Time>)
    requires AllParseable(grants)
  {
    && (exists p :: IsPart(start, grants, p) && p.until == until)
    && (until.Some? ==> forall p :: IsPart(start, grants, p) ==> p.until.Some? && p.until.value <= until.value)
  }

  lemma {:induction false} ValidityMeaning(start: State, grants: seq<Grant>)
    requires StartOk(start) && AllParseable(grants)
    ensures Folded(start, grants).entitled ==> IsLatest(start, grants, Folded(start, grants).validUntil)
  {
    if grants == [] {
      var p := Part(start.document, start.schemaVersion, start.validUntil);
      assert IsPart(start, grants, p) <==> start.entitled;
    } else {
      var front, last := grants[..|grants| - 1], PartOf(grants[|grants| - 1]);
      PartsGrow(start, grants, last);
      ValidityMeaning(start, front);
      SourceMeaning(start, front);
      forall p
        ensures IsPart(start, grants, p) <==> IsPart(start, front, p) || p == last
      {
        PartsGrow(start, grants, p);
      }
      assert IsPart(start, grants, last);
      if Folded(start, front).entitled {
        var p :| IsPart(start, front, p) && p.until == Folded(start, front).validUntil;
        assert IsPart(start, grants, p);
      }
    }
  }

  lemma LatestUnique(start: State, g: seq<Grant>, h: seq<Grant>, a: Option<Time>, b: Option<Time>)
    requires AllParseable(g) && AllParseable(h) && SameGrants(g, h) && IsLatest(start, g, a) && IsLatest(start, h, b)
    ensures a == b
  {
    var p :| IsPart(start, g, p) && p.until == a;
    var q :| IsPart(start, h, q) && q.until == b;
    SameParts(start, g, h, p);
    SameParts(start, g, h, q);
  }

  lemma {:induction false} SchemaMeaning(start: State, grants: seq<Grant>)
    requires StartOk(start) && AllParseable(grants)
    ensures var v := Folded(start, grants).schemaVersion;
            && v >= start.schemaVersion && (forall g :: g in grants ==> v >= g.schemaVersion)
            && (v == start.schemaVersion || exists g :: g in grants && v == g.schemaVersion)
  {
    if grants != [] {
      var front, last := grants[..|grants| - 1], grants[|grants| - 1];
      assert grants == front + [last];
      SchemaMeaning(start, front);
    }
  }

  // ------------------------------------------------------------- main results

  predicate SameGrants(g: seq<Grant>, h: seq<Grant>) {
    (forall x :: x in g ==> x in h) && forall x :: x in h ==> x in g
  }

  lemma SameParts(start: State, g: seq<Grant>, h: seq<Grant>, p: Part)
    requires AllParseable(g) && SameGrants(g, h)
    ensures AllParseable(h) && (IsPart(start, g, p) <==> IsPart(start, h, p))
  {
  }

  lemma SameLimit(start: State, g: seq<Grant>, h: seq<Grant>, k: string)
    requires StartOk(start) && AllParseable(g) && AllParseable(h) && SameGrants(g, h)
    ensures k in Folded(start, g).document.limits <==> k in Folded(start, h).document.limits
    ensures k in Folded(start, g).document.limits ==>
              Normalized(Folded(start, g).document.limits[k]) == Normalized(Folded(start, h).document.limits[k])
  {
    LimitMeaning(start, g, k);
    LimitMeaning(start, h, k);
    forall p
      ensures StatesLimit(start, g, p, k) <==> StatesLimit(start, h, p, k)
    {
      SameParts(start, g, h, p);
    }
    if k in Folded(start, g).document.limits {
      var a, b := Folded(start, g).document.limits[k], Folded(start, h).document.limits[k];
      SameWidest(a, b);
    }
  }

  lemma SameFeature(start: State, g: seq<Grant>, h: seq<Grant>, k: string)
    requires StartOk(start) && AllParseable(g) && AllParseable(h) && SameGrants(g, h)
    ensures k in Folded(start, g).document.features <==> k in Folded(start, h).document.features
    ensures k in Folded(start, g).document.features ==> Folded(start, g).document.features[k] == Folded(start, h).document.features[k]
  {
    FeatureMeaning(start, g, k);
    FeatureMeaning(start, h, k);
    forall p
      ensures IsPart(start, g, p) <==> IsPart(start, h, p)
    {
      SameParts(start, g, h, p);
    }
  }

  lemma {:induction false} SourceMeaning(start: State, grants: seq<Grant>)
    requires StartOk(start) && AllParseable(grants)
    ensures Folded(start, grants).source == if grants == [] then start.source else ManualGrant
    ensures Folded(start, grants).entitled == (start.entitled || grants != [])
  {
  }

  lemma SameSchema(start: State, g: seq<Grant>, h: seq<Grant>)
    requires StartOk(start) && AllParseable(g) && AllParseable(h) && SameGrants(g, h)
    ensures Folded(start, g).schemaVersion == Folded(start, h).schemaVersion
  {
    SchemaMeaning(start, g);
    SchemaMeaning(start, h);
  }

  lemma FirstGrant(g: seq<Grant>)
    ensures g != [] ==> g[0] in g
  {
  }

  lemma SameSource(start: State, g: seq<Grant>, h: seq<Grant>)
    requires StartOk(start) && AllParseable(g) && AllParseable(h) && SameGrants(g, h)
    ensures Folded(start, g).source == Folded(start, h).source && Folded(start, g).entitled == Folded(start, h).entitled
    ensures !Folded(start, g).entitled ==> Folded(start, g).validUntil == Folded(start, h).validUntil
  {
    SourceMeaning(start, g);
    SourceMeaning(start, h);
    FirstGrant(g);
    FirstGrant(h);
  }

  lemma SameValidity(start: State, g: seq<Grant>, h: seq<Grant>)
    requires StartOk(start) && AllParseable(g) && AllParseable(h) && SameGrants(g, h)
    ensures Folded(start, g).validUntil == Folded(start, h).validUntil
  {
    SameSource(start, g, h);
    ValidityMeaning(start, g);
    ValidityMeaning(start, h);
    if Folded(start, g).entitled {
      LatestUnique(start, g, h, Folded(start, g).validUntil, Folded(start, h).validUntil);
    }
  }

  lemma SameFeatures(start: State, g: seq<Grant>, h: seq<Grant>)
    requires StartOk(start) && AllParseable(g) && AllParseable(h) && SameGrants(g, h)
    ensures Folded(start, g).document.features == Folded(start, h).document.features
  {
    forall k
      ensures k in Folded(start, g).document.features <==> k in Folded(start, h).document.features
      ensures k in Folded(start, g).document.features ==> Folded(start, g).document.features[k] == Folded(start, h).document.features[k]
    {
      SameFeature(start, g, h, k);
    }
  }

  lemma SameLimits(start: State, g: seq<Grant>, h: seq<Grant>)
    requires StartOk(start) && AllParseable(g) && AllParseable(h) && SameGrants(g, h)
    ensures NormalizedLimits(Folded(start, g).document.limits) == NormalizedLimits(Folded(start, h).document.limits)
  {
    var a, b := Folded(start, g).document.limits, Folded(start, h).document.limits;
    forall k
      ensures k in a <==> k in b
      ensures k in a ==> Normalized(a[k]) == Normalized(b[k])
    {
      SameLimit(start, g, h, k);
    }
  }

  /** No grant sets a number under an inherited name, unless the subscription states that limit. */
  predicate NoTrap(start: State, grants: seq<Grant>)
    requires AllParseable(grants)
  {
    forall g :: g in grants ==> !Trips(start.document, Parsed(g.entitlements))
  }

  lemma {:induction false} StatedLimitsStay(start: State, grants: seq<Grant>, k: string)
    requires DocumentOk(start.document) && AllParseable(grants) && k in start.document.limits
    ensures k in Folded(start, grants).document.limits
  {
    if grants != [] {
      StatedLimitsStay(start, grants[..|grants| - 1], k);
    }
  }

  lemma {:induction false} NoTrapSucceeds(start: State, grants: seq<Grant>)
    requires DocumentOk(start.document) && AllParseable(grants) && NoTrap(start, grants)
    ensures Failure(start, grants) == None
  {
    if grants != [] {
      var front, last := grants[..|grants| - 1], grants[|grants| - 1];
      assert grants == front + [last];
      NoTrapSucceeds(start, front);
      assert !Trips(start.document, Parsed(last.entitlements));
      forall k | k in start.document.limits
        ensures k in Folded(start, front).document.limits
      {
        StatedLimitsStay(start, front, k);
      }
    }
  }

  lemma TrapFirst(start: State, grant: Grant, rest: seq<Grant>)
    requires DocumentOk(start.document) && Parseable(grant.entitlements) && Trips(start.document, Parsed(grant.entitlements))
    ensures Failure(start, [grant] + rest) == Some(LimitUnreadable)
  {
    FirstFailure(start, [grant] + rest, 1);
    assert ([grant] + rest)[..1] == [grant];
    assert [grant][..0] == [];
  }

  /** The same grants with the one that trips moved to the front. */
  lemma TrapPermutation(start: State, grants: seq<Grant>) returns (h: seq<Grant>)
    requires DocumentOk(start.document) && AllParseable(grants) && !NoTrap(start, grants)
    ensures multiset(h) == multiset(grants) && Failure(start, h) == Some(LimitUnreadable)
  {
    var g :| g in grants && Trips(start.document, Parsed(g.entitlements));
    var i :| 0 <= i < |grants| && grants[i] == g;
    var rest := grants[..i] + grants[i + 1..];
    h := [g] + rest;
    assert grants == grants[..i] + [g] + grants[i + 1..];
    TrapFirst(start, g, rest);
  }

  predicate Succeeds(subscription: Option<Subscription>, grants: seq<Grant>, at: Time) {
    EffectiveOf(subscription, grants, at).Ok?
  }

  lemma NoTrapInAnyOrder(subscription: Option<Subscription>, grants: seq<Grant>, h: seq<Grant>, at: Time)
    requires Readable(subscription, grants, at) && NoTrap(Start(subscription, at), grants) && multiset(h) == multiset(grants)
    ensures Succeeds(subscription, h, at)
  {
    SameMembers(h, grants);
    NoTrapSucceeds(Start(subscription, at), h);
  }

  /** Readable grants merge without an error in every order exactly when none sets a number under an inherited name that the subscription leaves open. */
  lemma EveryOrderSucceedsIffNoTrap(subscription: Option<Subscription>, grants: seq<Grant>, at: Time)
    requires Readable(subscription, grants, at)
    ensures (forall h :: multiset(h) == multiset(grants) ==> Succeeds(subscription, h, at)) <==> NoTrap(Start(subscription, at), grants)
  {
    if NoTrap(Start(subscription, at), grants) {
      forall h | multiset(h) == multiset(grants)
        ensures Succeeds(subscription, h, at)
      {
        NoTrapInAnyOrder(subscription, grants, h, at);
      }
    } else {
      var h := TrapPermutation(Start(subscription, at), grants);
      assert !Succeeds(subscription, h, at);
    }
  }

  lemma SameMembers(h: seq<Grant>, grants: seq<Grant>)
    requires multiset(h) == multiset(grants)
    ensures SameGrants(h, grants)
  {
    forall x
      ensures x in h <==> x in grants
    {
      assert x in h <==> x in multiset(h);
      assert x in grants <==> x in multiset(grants);
    }
  }

  /** Whenever two orders of the same grants succeed, repetitions aside, they give the same effective entitlements. */
  lemma OrderIrrelevant(subscription: Option<Subscription>, g: seq<Grant>, h: seq<Grant>, at: Time)
    requires SameGrants(g, h)
    ensures EffectiveOf(subscription, g, at).Ok? && EffectiveOf(subscription, h, at).Ok? ==>
              EffectiveOf(subscription, g, at) == EffectiveOf(subscription, h, at)
    ensures EffectiveOf(subscription, g, at).Ok? ==> Readable(subscription, h, at)
  {
    if EffectiveOf(subscription, g, at).Ok? {
      var start := Start(subscription, at);
      assert AllParseable(g) && AllParseable(h);
      SameSchema(start, g, h);
      SameSource(start, g, h);
      SameValidity(start, g, h);
      SameFeatures(start, g, h);
      SameLimits(start, g, h);
    }
  }

  function OneLimit(name: string, raw: RawLimit): Grant {
    Grant(1, RawDocument(map[], map[name := raw]), None)
  }

  /** Where the order does matter: null before a number merges, the number first raises an error. */
  lemma OrderCanMatter(name: string, n: nat, at: Time)
    requires name in INHERITED && n <= MAX_SAFE
    ensures var open, number := OneLimit(name, Null), OneLimit(name, Integer(n));
            EffectiveOf(None, [open, number], at).Ok? && EffectiveOf(None, [number, open], at) == Err(LimitUnreadable)
  {
    var open, number := OneLimit(name, Null), OneLimit(name, Integer(n));
    var start := Start(None, at);
    assert Parsed(open.entitlements).limits == map[name := Unlimited];
    assert Parsed(number.entitlements).limits == map[name := Number(n)];
    assert name in Parsed(number.entitlements).limits;
    TrapFirst(start, number, [open]);
    assert [number] + [open] == [number, open];
    assert [open, number][..1] == [open] && [open][..0] == [];
    assert Failure(start, [open]) == None;
    assert name in Folded(start, [open]).document.limits;
  }

  /** How a limit on the wire compares: null is unlimited. */
  ghost predicate NotLower(before: Option<Text>, after: Option<Text>) {
    after == None || (before.Some? && IsDecimal(before.value) && IsDecimal(after.value) && DigitsValue(before.value) <= DigitsValue(after.value))
  }

  /** One more grant at the end fails exactly when it is unreadable or trips over an inherited name that no source has stated. */
  lemma OneMoreGrant(subscription: Option<Subscription>, grants: seq<Grant>, grant: Grant, at: Time)
    requires Succeeds(subscription, grants, at)
    ensures Succeeds(subscription, grants + [grant], at) <==>
              Parseable(grant.entitlements) && !Trips(Folded(Start(subscription, at), grants).document, Parsed(grant.entitlements))
    ensures Succeeds(subscription, grants + [grant], at) ==>
              AllParseable(grants + [grant])
              && Folded(Start(subscription, at), grants + [grant]) == AddGrant(Folded(Start(subscription, at), grants), grant)
  {
    assert (grants + [grant])[..|grants|] == grants;
  }

  lemma MergeWidens(s: State, grant: Grant, k: string)
    requires DocumentOk(s.document) && Parseable(grant.entitlements) && k in s.document.limits
    ensures var t := AddGrant(s, grant); k in t.document.limits && NotLower(Normalized(s.document.limits[k]), Normalized(t.document.limits[k]))
  {
    NormalizedValue(s.document.limits[k]);
    NormalizedValue(AddGrant(s, grant).document.limits[k]);
  }

  /** A grant that is merged turns no feature off, lowers no limit that was stated, and, for an account already entitled, shortens no validity. */
  lemma GrantsOnlyWiden(subscription: Option<Subscription>, grants: seq<Grant>, grant: Grant, at: Time)
    requires Succeeds(subscription, grants, at) && Succeeds(subscription, grants + [grant], at)
    ensures var before, after := EffectiveOf(subscription, grants, at).value, EffectiveOf(subscription, grants + [grant], at).value;
            && (forall k :: k in before.features && before.features[k] ==> k in after.features && after.features[k])
            && (forall k :: k in before.limits ==> k in after.limits && NotLower(before.limits[k], after.limits[k]))
            && after.schemaVersion >= before.schemaVersion
            && (before.source != FreeDefault ==>
                  after.validUntil == None || (before.validUntil.Some? && before.validUntil.value <= after.validUntil.value))
  {
    var start := Start(subscription, at);
    OneMoreGrant(subscription, grants, grant, at);
    var s := Folded(start, grants);
    forall k | k in s.document.limits
      ensures var t := AddGrant(s, grant); k in t.document.limits && NotLower(Normalized(s.document.limits[k]), Normalized(t.document.limits[k]))
    {
      MergeWidens(s, grant, k);
    }
    EntitledWhenSourced(start, grants);
  }

  lemma {:induction false} EntitledWhenSourced(start: State, grants: seq<Grant>)
    requires AllParseable(grants) && DocumentOk(start.document) && (start.source != FreeDefault ==> start.entitled)
    ensures Folded(start, grants).source != FreeDefault ==> Folded(start, grants).entitled
  {
  }

  lemma NormalizedValue(l: Limit)
    requires LimitOk(l)
    ensures Normalized(l).Some? <==> !l.Unlimited?
    ensures !l.Unlimited? ==> IsDecimal(Normalized(l).value) && DigitsValue(Normalized(l).value) == Value(l)
  {
    if l.Number? {
      DigitsReadBack(l.n);
    }
  }
}
