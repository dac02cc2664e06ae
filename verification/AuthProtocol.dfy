/**
 * Sign-ins, exchanges, refreshes, revocations and password changes of any
 * number of clients, interleaving between database transactions.
 */
module AuthProtocol {
  import opened Common
  import opened AuthRows

  type FlightId = nat

  datatype Ticket = PairingTicket(hash: Hash) | CodeTicket(hash: Hash)

  /** Between transactions of an operation that takes several. */
  datatype Stage = Checking | Upserting | Issuing | Failing

  /**
   * An operation caught between its transactions: whom it signs in, under which
   * expected epoch, and the ticket it consumed with what it read from it.
   */
  datatype Flight = Flight(account: AccountId, device: DeviceId, expected: Option<nat>, ticket: Option<Ticket>,
                           consumedAt: Time, instanceAuthEpoch: Option<int>, issuedAt: Option<Time>, stage: Stage)

  /**
   * `begun`, `known`, `owner`, `paid` and `issued` are history: operations and
   * tickets ever created, the account a ticket was issued for, how often it
   * gave a session, and all access tokens handed out so far.
   */
  datatype System = System(db: Db, flights: map<FlightId, Flight>, now: Time, begun: set<FlightId>, known: set<Ticket>,
                           owner: map<Ticket, AccountId>, paid: multiset<Ticket>, issued: set<AccessToken>)

  datatype Event =
    | Tick(to: Time)
    | Register(flight: FlightId, account: AccountId, device: DeviceId, password: Password)
    | Authenticate(flight: FlightId, account: AccountId, device: DeviceId, password: Password)
    | ConsumePairing(flight: FlightId, hash: Hash, device: DeviceId)
    | ConsumeCode(flight: FlightId, hash: Hash)
    | Check(flight: FlightId)
    | Upsert(flight: FlightId)
    | Issue(flight: FlightId, secret: Secret)
    | Refuse(flight: FlightId)
    | Compensate(flight: FlightId)
    | Vanish(flight: FlightId)
    | Refresh(secret: Secret, device: DeviceId, request: Option<RequestId>, newSecret: Secret)
    | Logout(secret: Secret, device: DeviceId)
    | ChangePassword(flight: FlightId, account: AccountId, device: DeviceId, password: Password)
    | ChangeWebPassword(account: AccountId, password: Password)
    | RevokeDevice(account: AccountId, device: DeviceId)
    | SetSuspended(account: AccountId, suspended: bool)
    | DisableAccount(account: AccountId)
    | CreatePairing(account: AccountId, secret: Secret)
    | CancelPairing(hash: Hash, account: AccountId)
    | CreateCode(device: DeviceId, secret: Secret)
    | ApproveCode(hash: Hash, account: AccountId)
    | DenyCode(hash: Hash)
    | CancelCode(hash: Hash)
    | Reap
    | SetInstance(instance: Instance)

  predicate InFlight(s: System, f: FlightId, stages: set<Stage>) {
    f in s.flights && s.flights[f].stage in stages
  }

  /**
   * Steps that throw without effect are not events; fresh secrets and ids have not been used before. The clock
   * may stand anywhere, so a time read long before its transaction, or on another machine, is covered.
   */
  predicate Enabled(s: System, e: Event) {
    match e
    case Tick(_) => true
    case Register(f, account, device, password) => f !in s.begun && RegisterAccount(s.db, account, device, password).Some?
    case Authenticate(f, account, _, password) =>
      f !in s.begun && ActiveAccount(s.db, account) && s.db.accounts[account].password == password
    case ConsumePairing(f, hash, _) => f !in s.begun && PairingUsable(s.db, hash, s.now)
    case ConsumeCode(f, hash) => f !in s.begun && CodeUsable(s.db, hash, s.now)
    case Check(f) => InFlight(s, f, {Checking})
    case Upsert(f) => InFlight(s, f, {Upserting})
    case Issue(f, secret) => InFlight(s, f, {Issuing}) && HashOf(secret) !in s.db.tokens
    case Refuse(f) => InFlight(s, f, {Upserting, Issuing})
    case Compensate(f) => InFlight(s, f, {Failing})
    case Vanish(f) => f in s.flights
    case Refresh(_, _, _, newSecret) => HashOf(newSecret) !in s.db.tokens
    case ChangePassword(f, account, device, password) =>
      f !in s.begun && AuthRows.ChangePassword(s.db, account, device, password, s.now).Some?
    case CreatePairing(account, secret) =>
      PairingTicket(HashOf(secret)) !in s.known && AuthRows.CreatePairing(s.db, account, secret, s.now).Some?
    case CancelPairing(hash, account) => AuthRows.CancelPairing(s.db, hash, account).Some?
    case CreateCode(_, secret) => CodeTicket(HashOf(secret)) !in s.known
    case ApproveCode(hash, account) => AuthRows.ApproveCode(s.db, hash, account, s.now).Some?
    case DenyCode(hash) => AuthRows.DenyCode(s.db, hash, s.now).Some?
    case _ => true
  }

  /** May an exchange that consumed its ticket go on to sign in? */
  predicate Passes(s: System, flight: Flight) {
    flight.expected.Some? && InstanceAccepts(s.db.instance, flight.instanceAuthEpoch, flight.issuedAt)
  }

  function DropTicket(db: Db, ticket: Option<Ticket>, consumedAt: Time): Db {
    match ticket
    case None => db
    case Some(PairingTicket(hash)) => DropPairing(db, hash, consumedAt)
    case Some(CodeTicket(hash)) => DropCode(db, hash, consumedAt)
  }

  function ReleaseTicket(db: Db, ticket: Option<Ticket>, consumedAt: Time): Db {
    match ticket
    case None => db
    case Some(PairingTicket(hash)) => ReleasePairing(db, hash, consumedAt)
    case Some(CodeTicket(hash)) => ReleaseCode(db, hash, consumedAt)
  }

  /** The rows after the event. */
  function DbAfter(s: System, e: Event): Db
    requires Enabled(s, e)
  {
    var db, now := s.db, s.now;
    match e
    case Register(_, account, device, password) => RegisterAccount(db, account, device, password).value
    case ConsumePairing(_, hash, _) => AuthRows.ConsumePairing(db, hash, now)
    case ConsumeCode(_, hash) => AuthRows.ConsumeCode(db, hash, now)
    case Check(f) => if Passes(s, s.flights[f]) then db else DropTicket(db, s.flights[f].ticket, s.flights[f].consumedAt)
    case Upsert(f) => OrSame(UpsertDevice(db, s.flights[f].account, s.flights[f].device, s.flights[f].expected), db)
    case Issue(f, secret) => IssueSession(db, s.flights[f].account, s.flights[f].device, s.flights[f].expected, secret, now).0
    case Compensate(f) => ReleaseTicket(db, s.flights[f].ticket, s.flights[f].consumedAt)
    case Refresh(secret, device, request, newSecret) => AuthRows.Refresh(db, secret, device, request, newSecret, now).0
    case Logout(secret, device) => AuthRows.Logout(db, secret, device, now)
    case ChangePassword(_, account, device, password) => AuthRows.ChangePassword(db, account, device, password, now).value
    case ChangeWebPassword(account, password) => AuthRows.ChangeWebPassword(db, account, password, now)
    case RevokeDevice(account, device) => AuthRows.RevokeDevice(db, account, device, now)
    case SetSuspended(account, suspended) => AuthRows.SetSuspended(db, account, suspended, now)
    case DisableAccount(account) => AuthRows.DisableAccount(db, account, now)
    case CreatePairing(account, secret) => AuthRows.CreatePairing(db, account, secret, now).value
    case CancelPairing(hash, account) => AuthRows.CancelPairing(db, hash, account).value
    case CreateCode(device, secret) => AuthRows.CreateCode(db, device, secret, now)
    case ApproveCode(hash, account) => AuthRows.ApproveCode(db, hash, account, now).value
    case DenyCode(hash) => AuthRows.DenyCode(db, hash, now).value
    case CancelCode(hash) => AuthRows.CancelCode(db, hash)
    case Reap => AuthRows.Reap(db, now)
    case SetInstance(instance) => db.(instance := instance)
    case _ => db
  }

  function OrSame(changed: Option<Db>, db: Db): Db {
    if changed.Some? then changed.value else db
  }

  /** The operations in progress after the event. */
  function FlightsAfter(s: System, e: Event): map<FlightId, Flight>
    requires Enabled(s, e)
  {
    var db := s.db;
    match e
    case Register(f, account, device, _) => s.flights[f := Flight(account, device, None, None, 0, None, None, Issuing)]
    case ChangePassword(f, account, device, _) => s.flights[f := Flight(account, device, None, None, 0, None, None, Issuing)]
    case Authenticate(f, account, device, _) =>
      s.flights[f := Flight(account, device, Some(db.accounts[account].credentialEpoch), None, 0, None, None, Upserting)]
    case ConsumePairing(f, hash, device) =>
      var p := db.pairings[hash];
      s.flights[f := Flight(p.accountId, device, p.credentialEpoch, Some(PairingTicket(hash)), s.now, p.instanceAuthEpoch, p.issuedAt, Checking)]
    case ConsumeCode(f, hash) =>
      var c := db.codes[hash];
      if c.accountId == None then s.flights
      else s.flights[f := Flight(c.accountId.value, c.deviceId, c.credentialEpoch, Some(CodeTicket(hash)), s.now, c.instanceAuthEpoch, c.issuedAt, Checking)]
    case Check(f) => if Passes(s, s.flights[f]) then s.flights[f := s.flights[f].(stage := Upserting)] else s.flights - {f}
    case Upsert(f) =>
      var flight := s.flights[f];
      s.flights[f := flight.(stage := if UpsertDevice(db, flight.account, flight.device, flight.expected).Some? then Issuing else Failing)]
    case Issue(f, _) =>
      var flight := s.flights[f];
      if MayIssue(db, flight.account, flight.device, flight.expected) then s.flights - {f} else s.flights[f := flight.(stage := Failing)]
    case Refuse(f) => s.flights[f := s.flights[f].(stage := Failing)]
    case Compensate(f) => s.flights - {f}
    case Vanish(f) => s.flights - {f}
    case _ => s.flights
  }

  /** The session an event hands out, if any. */
  function SessionOf(s: System, e: Event): Option<Session> {
    match e
    case Issue(f, secret) =>
      if f in s.flights then IssueSession(s.db, s.flights[f].account, s.flights[f].device, s.flights[f].expected, secret, s.now).1 else None
    case Refresh(secret, device, request, newSecret) =>
      var result := AuthRows.Refresh(s.db, secret, device, request, newSecret, s.now).1;
      if result.Granted? then Some(result.session) else None
    case _ => None
  }

  /** The ticket a session-giving event pays with. */
  function PaidWith(s: System, e: Event): Option<Ticket> {
    if e.Issue? && e.flight in s.flights && SessionOf(s, e).Some? then s.flights[e.flight].ticket else None
  }

  function Apply(s: System, e: Event): System
    requires Enabled(s, e)
  {
    System(DbAfter(s, e), FlightsAfter(s, e),
           if e.Tick? then e.to else s.now,
           s.begun + FlightsAfter(s, e).Keys,
           match e
           case CreatePairing(_, secret) => s.known + {PairingTicket(HashOf(secret))}
           case CreateCode(_, secret) => s.known + {CodeTicket(HashOf(secret))}
           case _ => s.known,
           match e
           case CreatePairing(account, secret) => s.owner[PairingTicket(HashOf(secret)) := account]
           case ApproveCode(hash, account) => s.owner[CodeTicket(hash) := account]
           case _ => s.owner,
           if PaidWith(s, e).Some? then s.paid + multiset{PaidWith(s, e).value} else s.paid,
           if SessionOf(s, e).Some? then s.issued + {SessionOf(s, e).value.accessToken} else s.issued)
  }

  predicate Initial(s: System) {
    && s.db.accounts == map[] && s.db.devices == map[] && s.db.tokens == map[] && s.db.pairings == map[] && s.db.codes == map[]
    && s.flights == map[] && s.begun == {} && s.known == {} && s.owner == map[] && s.paid == multiset{} && s.issued == {}
  }

  /** A run: `states[i + 1]` is what `events[i]` makes of `states[i]`. */
  ghost predicate IsRun(states: seq<System>, events: seq<Event>) {
    && |states| == |events| + 1
    && forall i :: 0 <= i < |events| ==> Enabled(states[i], events[i]) && states[i + 1] == Apply(states[i], events[i])
  }

  // ------------------------------------------------------------- invariants

  /** A token row belongs to an account through that account's device; a recorded rotation answers for this very row. */
  predicate TokenSound(db: Db, h: Hash)
    requires h in db.tokens
  {
    var token := db.tokens[h];
    && token.accountId in db.accounts
    && token.deviceId in db.devices && db.devices[token.deviceId].accountId == token.accountId
    && RotationFits(token, h)
  }

  predicate Live(token: Token) {
    token.rotatedAt == None && token.revokedAt == None
  }

  ghost predicate DbSound(db: Db) {
    && (forall d :: d in db.devices ==> db.devices[d].accountId in db.accounts)
    && (forall h :: h in db.tokens ==> TokenSound(db, h))
  }

  /** At most one refresh token per device is neither rotated nor revoked. */
  ghost predicate OneLiveToken(tokens: Tokens) {
    forall a, b :: a in tokens && b in tokens && Live(tokens[a]) && Live(tokens[b]) && tokens[a].deviceId == tokens[b].deviceId ==> a == b
  }

  /** Devices never change hands and accounts never disappear. */
  ghost predicate Grows(before: Db, after: Db) {
    && before.accounts.Keys <= after.accounts.Keys
    && (forall a :: a in before.accounts ==> before.accounts[a].credentialEpoch <= after.accounts[a].credentialEpoch)
    && (forall d :: d in before.devices ==> d in after.devices && after.devices[d].accountId == before.devices[d].accountId)
  }

  /** What any step may do to one existing token row: revoke it, or rotate it once. */
  predicate TokenEvolves(before: Token, after: Token) {
    && after == before.(revokedAt := after.revokedAt, rotatedAt := after.rotatedAt, rotation := after.rotation)
    && (before.revokedAt.Some? ==> after.revokedAt.Some?)
    && (before.rotatedAt.Some? ==> after.rotatedAt == before.rotatedAt && after.rotation == before.rotation)
  }

  /** The steps that revoke in bulk. */
  predicate Revokes(e: Event) {
    e.ChangePassword? || e.ChangeWebPassword? || e.RevokeDevice? || e.SetSuspended? || e.DisableAccount?
  }

  /** The steps that work on pairings and codes. */
  predicate IsTicketStep(e: Event) {
    || e.ConsumePairing? || e.ConsumeCode? || e.Check? || e.Compensate? || e.CreatePairing? || e.CancelPairing?
    || e.CreateCode? || e.ApproveCode? || e.DenyCode? || e.CancelCode? || e.Reap?
  }

  lemma PairingStepsKeepTheRest(s: System, e: Event)
    requires Enabled(s, e) && (e.ConsumePairing? || e.CreatePairing? || e.CancelPairing?)
    ensures DbAfter(s, e).accounts == s.db.accounts && DbAfter(s, e).devices == s.db.devices && DbAfter(s, e).tokens == s.db.tokens
  {
  }

  lemma CodeStepsKeepTheRest(s: System, e: Event)
    requires Enabled(s, e) && (e.ConsumeCode? || e.CreateCode? || e.ApproveCode? || e.DenyCode? || e.CancelCode?)
    ensures DbAfter(s, e).accounts == s.db.accounts && DbAfter(s, e).devices == s.db.devices && DbAfter(s, e).tokens == s.db.tokens
  {
  }

  lemma TicketStepsKeepTheRest(s: System, e: Event)
    requires Enabled(s, e) && IsTicketStep(e)
    ensures DbAfter(s, e).accounts == s.db.accounts && DbAfter(s, e).devices == s.db.devices && DbAfter(s, e).tokens == s.db.tokens
  {
    if e.ConsumePairing? || e.CreatePairing? || e.CancelPairing? {
      PairingStepsKeepTheRest(s, e);
    } else if !(e.Check? || e.Compensate? || e.Reap?) {
      CodeStepsKeepTheRest(s, e);
    }
  }

  lemma RevokersGrow(s: System, e: Event)
    requires Enabled(s, e) && Revokes(e)
    ensures Grows(s.db, DbAfter(s, e))
  {
  }

  lemma OthersGrow(s: System, e: Event)
    requires Enabled(s, e) && !Revokes(e) && !IsTicketStep(e)
    ensures Grows(s.db, DbAfter(s, e))
  {
  }

  lemma GrowsStep(s: System, e: Event)
    requires Enabled(s, e)
    ensures Grows(s.db, DbAfter(s, e))
  {
    if Revokes(e) {
      RevokersGrow(s, e);
    } else if IsTicketStep(e) {
      TicketStepsKeepTheRest(s, e);
    } else {
      OthersGrow(s, e);
    }
  }

  /** A recorded rotation answers for the row it is recorded in. */
  predicate RotationFits(token: Token, h: Hash) {
    token.rotation.Some? ==>
      var rotation := token.rotation.value;
      && token.rotatedAt.Some?
      && rotation.responseExpiresAt == token.expiresAt
      && rotation.response.token == h && rotation.response.request == rotation.request
      && rotation.response.session.accountId == token.accountId && rotation.response.session.deviceId == token.deviceId
      && rotation.response.session.accessTokenExpiresIn == ACCESS_TOKEN_SECONDS
  }

  /** What one step does to one token row. */
  predicate RowEvolves(before: Token, after: Token, h: Hash) {
    TokenEvolves(before, after) && (RotationFits(before, h) ==> RotationFits(after, h))
  }

  lemma RevokersEvolve(s: System, e: Event, h: Hash)
    requires Enabled(s, e) && Revokes(e) && h in s.db.tokens
    ensures h in DbAfter(s, e).tokens && RowEvolves(s.db.tokens[h], DbAfter(s, e).tokens[h], h)
  {
  }

  /** The steps that hand out, trade in or give back a refresh token. */
  predicate Trades(e: Event) {
    e.Issue? || e.Refresh? || e.Logout?
  }

  lemma RefreshEvolves(s: System, e: Event, h: Hash)
    requires Enabled(s, e) && e.Refresh? && h in s.db.tokens
    ensures h in DbAfter(s, e).tokens && RowEvolves(s.db.tokens[h], DbAfter(s, e).tokens[h], h)
  {
  }

  lemma TradersEvolve(s: System, e: Event, h: Hash)
    requires Enabled(s, e) && Trades(e) && h in s.db.tokens
    ensures h in DbAfter(s, e).tokens && RowEvolves(s.db.tokens[h], DbAfter(s, e).tokens[h], h)
  {
    if e.Refresh? {
      RefreshEvolves(s, e, h);
    }
  }

  lemma OthersKeepTokens(s: System, e: Event)
    requires Enabled(s, e) && !Revokes(e) && !IsTicketStep(e) && !Trades(e)
    ensures DbAfter(s, e).tokens == s.db.tokens
  {
  }

  lemma TokenStep(s: System, e: Event, h: Hash)
    requires Enabled(s, e) && h in s.db.tokens
    ensures h in DbAfter(s, e).tokens && RowEvolves(s.db.tokens[h], DbAfter(s, e).tokens[h], h)
  {
    if Revokes(e) {
      RevokersEvolve(s, e, h);
    } else if IsTicketStep(e) {
      TicketStepsKeepTheRest(s, e);
    } else if Trades(e) {
      TradersEvolve(s, e, h);
    } else {
      OthersKeepTokens(s, e);
    }
  }

  lemma StillSound(before: Db, after: Db, h: Hash)
    requires DbSound(before) && Grows(before, after) && h in before.tokens && h in after.tokens
    requires RowEvolves(before.tokens[h], after.tokens[h], h)
    ensures TokenSound(after, h)
  {
    assert TokenSound(before, h);
  }

  lemma OldTokenSound(s: System, e: Event, h: Hash)
    requires DbSound(s.db) && Enabled(s, e) && h in s.db.tokens
    ensures h in DbAfter(s, e).tokens && TokenSound(DbAfter(s, e), h)
  {
    TokenStep(s, e, h);
    GrowsStep(s, e);
    StillSound(s.db, DbAfter(s, e), h);
  }

  /** Only an issued or refreshed session adds a token. */
  lemma NewTokenOrigin(s: System, e: Event, h: Hash)
    requires Enabled(s, e) && h in DbAfter(s, e).tokens && h !in s.db.tokens
    ensures e.Issue? || e.Refresh?
  {
    if Revokes(e) {
      RevokersAddNothing(s, e);
    } else if IsTicketStep(e) {
      TicketStepsKeepTheRest(s, e);
    }
  }

  lemma RevokersAddNothing(s: System, e: Event)
    requires Enabled(s, e) && Revokes(e)
    ensures DbAfter(s, e).tokens.Keys == s.db.tokens.Keys
  {
  }

  /** A step adds at most one token; it is sound, and nothing else on its device stays live. */
  lemma NewTokenSound(s: System, e: Event, h: Hash)
    requires DbSound(s.db) && OneLiveToken(s.db.tokens) && Enabled(s, e)
    requires h in DbAfter(s, e).tokens && h !in s.db.tokens
    ensures TokenSound(DbAfter(s, e), h)
    ensures forall other :: other in DbAfter(s, e).tokens && other != h ==>
              other in s.db.tokens && (DbAfter(s, e).tokens[other].deviceId == DbAfter(s, e).tokens[h].deviceId ==> !Live(DbAfter(s, e).tokens[other]))
  {
    NewTokenOrigin(s, e, h);
    if e.Issue? {
      IssuedAlone(s, e, h);
    } else {
      RefreshedAlone(s, e, h);
    }
  }

  lemma IssuedAlone(s: System, e: Event, h: Hash)
    requires DbSound(s.db) && Enabled(s, e) && e.Issue? && h in DbAfter(s, e).tokens && h !in s.db.tokens
    ensures TokenSound(DbAfter(s, e), h)
    ensures forall other :: other in DbAfter(s, e).tokens && other != h ==>
              other in s.db.tokens && (DbAfter(s, e).tokens[other].deviceId == DbAfter(s, e).tokens[h].deviceId ==> !Live(DbAfter(s, e).tokens[other]))
  {
    forall other | other in s.db.tokens
      ensures TokenSound(s.db, other)
    {
    }
  }

  lemma RefreshedAlone(s: System, e: Event, h: Hash)
    requires DbSound(s.db) && OneLiveToken(s.db.tokens) && Enabled(s, e) && e.Refresh? && h in DbAfter(s, e).tokens && h !in s.db.tokens
    ensures TokenSound(DbAfter(s, e), h)
    ensures forall other :: other in DbAfter(s, e).tokens && other != h ==>
              other in s.db.tokens && (DbAfter(s, e).tokens[other].deviceId == DbAfter(s, e).tokens[h].deviceId ==> !Live(DbAfter(s, e).tokens[other]))
  {
    assert TokenSound(s.db, HashOf(e.secret));
  }

  lemma TokensStep(s: System, e: Event)
    requires DbSound(s.db) && OneLiveToken(s.db.tokens) && Enabled(s, e)
    ensures DbSound(DbAfter(s, e)) && OneLiveToken(DbAfter(s, e).tokens)
  {
    var after := DbAfter(s, e);
    GrowsStep(s, e);
    forall h | h in after.tokens
      ensures TokenSound(after, h)
    {
      if h in s.db.tokens { OldTokenSound(s, e, h); } else { NewTokenSound(s, e, h); }
    }
    forall a, b | a in after.tokens && b in after.tokens && Live(after.tokens[a]) && Live(after.tokens[b])
                  && after.tokens[a].deviceId == after.tokens[b].deviceId
      ensures a == b
    {
      if a !in s.db.tokens { NewTokenSound(s, e, a); }
      else if b !in s.db.tokens { NewTokenSound(s, e, b); }
      else { TokenStep(s, e, a); TokenStep(s, e, b); }
    }
    DevicesStep(s, e);
  }

  lemma DeviceOrigin(s: System, e: Event, d: DeviceId)
    requires Enabled(s, e) && !Revokes(e) && !IsTicketStep(e) && d in DbAfter(s, e).devices && d !in s.db.devices
    ensures DbAfter(s, e).devices[d].accountId in DbAfter(s, e).accounts
  {
  }

  lemma RevokersAddNoDevice(s: System, e: Event)
    requires Enabled(s, e) && Revokes(e)
    ensures DbAfter(s, e).devices.Keys == s.db.devices.Keys
  {
  }

  lemma DevicesStep(s: System, e: Event)
    requires DbSound(s.db) && Enabled(s, e)
    ensures forall d :: d in DbAfter(s, e).devices ==> DbAfter(s, e).devices[d].accountId in DbAfter(s, e).accounts
  {
    GrowsStep(s, e);
    forall d | d in DbAfter(s, e).devices
      ensures DbAfter(s, e).devices[d].accountId in DbAfter(s, e).accounts
    {
      if d !in s.db.devices {
        if Revokes(e) {
          RevokersAddNoDevice(s, e);
        } else if IsTicketStep(e) {
          TicketStepsKeepTheRest(s, e);
        } else {
          DeviceOrigin(s, e, d);
        }
      }
    }
  }
}
