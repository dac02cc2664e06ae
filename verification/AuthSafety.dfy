/**
 * What holds in every run of the authentication protocol: one live refresh
 * token per device, one session per ticket, and nothing issued before a
 * password change is honoured after it.
 */
module AuthSafety {
  import opened Common
  import opened AuthRows
  import opened AuthProtocol

  // ---------------------------------------------------------------- tickets

  /** The row of a ticket still exists. */
  predicate Present(db: Db, t: Ticket) {
    match t
    case PairingTicket(h) => h in db.pairings
    case CodeTicket(h) => h in db.codes
  }

  function ConsumedAt(db: Db, t: Ticket): Option<Time>
    requires Present(db, t)
  {
    match t
    case PairingTicket(h) => db.pairings[h].consumedAt
    case CodeTicket(h) => db.codes[h].consumedAt
  }

  function HolderAccount(db: Db, t: Ticket): Option<AccountId>
    requires Present(db, t)
  {
    match t
    case PairingTicket(h) => Some(db.pairings[h].accountId)
    case CodeTicket(h) => db.codes[h].accountId
  }

  function TicketEpoch(db: Db, t: Ticket): Option<nat>
    requires Present(db, t)
  {
    match t
    case PairingTicket(h) => db.pairings[h].credentialEpoch
    case CodeTicket(h) => db.codes[h].credentialEpoch
  }

  predicate Holds(s: System, f: FlightId, t: Ticket) {
    f in s.flights && s.flights[f].ticket == Some(t)
  }

  predicate EpochReached(db: Db, account: AccountId, epoch: Option<nat>) {
    account in db.accounts && (epoch.Some? ==> epoch.value <= db.accounts[account].credentialEpoch)
  }

  predicate RowSound(s: System, t: Ticket)
    requires Present(s.db, t)
  {
    && t in s.known
    && (t in s.owner ==> HolderAccount(s.db, t) == Some(s.owner[t]) && EpochReached(s.db, s.owner[t], TicketEpoch(s.db, t)))
    && (t.PairingTicket? ==> t in s.owner)
    && (t.CodeTicket? ==>
          && (HolderAccount(s.db, t).Some? <==> t in s.owner)
          && (s.db.codes[t.hash].status == Pending ==> t !in s.owner)
          && (s.db.codes[t.hash].status == Approved ==> t in s.owner && TicketEpoch(s.db, t).Some?))
  }

  predicate FlightSound(s: System, f: FlightId)
    requires f in s.flights
  {
    var flight := s.flights[f];
    && EpochReached(s.db, flight.account, flight.expected)
    && (flight.ticket.Some? ==>
          var t := flight.ticket.value;
          && t in s.owner && s.owner[t] == flight.account
          && (flight.stage in {Upserting, Issuing} ==> flight.expected.Some?)
          && (Present(s.db, t) ==> ConsumedAt(s.db, t) == Some(flight.consumedAt))
          && t !in s.paid)
  }

  predicate PaidSound(s: System, t: Ticket) {
    && s.paid[t] <= 1
    && (t in s.paid ==> t in s.owner && (Present(s.db, t) ==> ConsumedAt(s.db, t).Some?))
  }

  ghost predicate TicketsSound(s: System) {
    && (forall t: Ticket :: Present(s.db, t) ==> RowSound(s, t))
    && (forall f :: f in s.flights ==> FlightSound(s, f))
    && (forall f, g, t: Ticket :: Holds(s, f, t) && Holds(s, g, t) ==> f == g)
    && (forall t: Ticket :: PaidSound(s, t))
    && s.owner.Keys <= s.known && s.flights.Keys <= s.begun
  }

  /** The operation a step belongs to. */
  function Actor(e: Event): Option<FlightId> {
    match e
    case Register(f, _, _, _) => Some(f)
    case Authenticate(f, _, _, _) => Some(f)
    case ConsumePairing(f, _, _) => Some(f)
    case ConsumeCode(f, _) => Some(f)
    case Check(f) => Some(f)
    case Upsert(f) => Some(f)
    case Issue(f, _) => Some(f)
    case Refuse(f) => Some(f)
    case Compensate(f) => Some(f)
    case Vanish(f) => Some(f)
    case ChangePassword(f, _, _, _) => Some(f)
    case _ => None
  }

  /** The ticket whose row a step may touch on behalf of a flight. */
  function Touched(s: System, e: Event): Option<Ticket> {
    match e
    case ConsumePairing(_, hash, _) => Some(PairingTicket(hash))
    case ConsumeCode(_, hash) => Some(CodeTicket(hash))
    case _ => if Actor(e).Some? && Actor(e).value in s.flights then s.flights[Actor(e).value].ticket else None
  }

  lemma PairingEvolvesByTicket(s: System, e: Event, h: Hash)
    requires Enabled(s, e) && IsTicketStep(e) && h in DbAfter(s, e).pairings
    ensures var after := DbAfter(s, e).pairings[h];
            (h in s.db.pairings && after == s.db.pairings[h].(consumedAt := after.consumedAt))
            || (e.CreatePairing? && h == HashOf(e.secret) && after.accountId == e.account && ActiveAccount(s.db, e.account)
                && after.credentialEpoch == Some(s.db.accounts[e.account].credentialEpoch))
  {
  }

  lemma OthersOnlyDropPairings(s: System, e: Event, h: Hash)
    requires Enabled(s, e) && !IsTicketStep(e) && h in DbAfter(s, e).pairings
    ensures h in s.db.pairings && DbAfter(s, e).pairings[h] == s.db.pairings[h]
  {
  }

  /** A pairing row is new, or the old one up to its consumption mark. */
  lemma PairingEvolves(s: System, e: Event, h: Hash)
    requires Enabled(s, e) && h in DbAfter(s, e).pairings
    ensures var after := DbAfter(s, e).pairings[h];
            (h in s.db.pairings && after == s.db.pairings[h].(consumedAt := after.consumedAt))
            || (e.CreatePairing? && h == HashOf(e.secret) && after.accountId == e.account && ActiveAccount(s.db, e.account)
                && after.credentialEpoch == Some(s.db.accounts[e.account].credentialEpoch))
  {
    if IsTicketStep(e) {
      PairingEvolvesByTicket(s, e, h);
    } else {
      OthersOnlyDropPairings(s, e, h);
    }
  }

  lemma OnlyTicketStepsChangeCodes(s: System, e: Event)
    requires Enabled(s, e) && !IsTicketStep(e)
    ensures DbAfter(s, e).codes == s.db.codes
  {
  }

  lemma CodeEvolvesByTicket(s: System, e: Event, h: Hash)
    requires Enabled(s, e) && IsTicketStep(e) && h in DbAfter(s, e).codes
    ensures var after := DbAfter(s, e).codes[h];
            (h in s.db.codes && after == s.db.codes[h].(consumedAt := after.consumedAt, status := after.status)
             && (after.status == s.db.codes[h].status || after.status == Denied))
            || (e.ApproveCode? && h == e.hash && h in s.db.codes && s.db.codes[h].status == Pending && after.status == Approved
                && after.accountId == Some(e.account) && ActiveAccount(s.db, e.account)
                && after.credentialEpoch == Some(s.db.accounts[e.account].credentialEpoch))
            || (e.CreateCode? && h == HashOf(e.secret) && after.status == Pending && after.accountId == None)
  {
  }

  /** A code row is new, freshly approved, or the old one up to consumption and denial. */
  lemma CodeEvolves(s: System, e: Event, h: Hash)
    requires Enabled(s, e) && h in DbAfter(s, e).codes
    ensures var after := DbAfter(s, e).codes[h];
            (h in s.db.codes && after == s.db.codes[h].(consumedAt := after.consumedAt, status := after.status)
             && (after.status == s.db.codes[h].status || after.status == Denied))
            || (e.ApproveCode? && h == e.hash && h in s.db.codes && s.db.codes[h].status == Pending && after.status == Approved
                && after.accountId == Some(e.account) && ActiveAccount(s.db, e.account)
                && after.credentialEpoch == Some(s.db.accounts[e.account].credentialEpoch))
            || (e.CreateCode? && h == HashOf(e.secret) && after.status == Pending && after.accountId == None)
  {
    if IsTicketStep(e) {
      CodeEvolvesByTicket(s, e, h);
    } else {
      OnlyTicketStepsChangeCodes(s, e);
    }
  }

  lemma OwnerKept(s: System, e: Event, t: Ticket)
    requires TicketsSound(s) && Enabled(s, e) && t in s.owner
    ensures t in Apply(s, e).owner && Apply(s, e).owner[t] == s.owner[t]
  {
    if Present(s.db, t) {
      assert RowSound(s, t);
    }
  }

  /** A ticket gets an owner only when it is created as a pairing or approved as a code. */
  lemma OwnerGained(s: System, e: Event, t: Ticket)
    requires Enabled(s, e) && t !in s.owner && t in Apply(s, e).owner
    ensures (e.CreatePairing? && t == PairingTicket(HashOf(e.secret))) || (e.ApproveCode? && t == CodeTicket(e.hash))
    ensures Apply(s, e).owner[t] == e.account
  {
  }

  lemma RowStep(s: System, e: Event, t: Ticket)
    requires TicketsSound(s) && DbSound(s.db) && Enabled(s, e) && Present(DbAfter(s, e), t)
    ensures RowSound(Apply(s, e), t)
  {
    var after := Apply(s, e);
    assert Present(s.db, t) ==> RowSound(s, t);
    GrowsStep(s, e);
    if t in s.owner { OwnerKept(s, e, t); } else if t in after.owner { OwnerGained(s, e, t); }
    match t
    case PairingTicket(h) => PairingEvolves(s, e, h);
    case CodeTicket(h) => CodeEvolves(s, e, h);
  }

  lemma UntouchedPairingByTicket(s: System, e: Event, h: Hash)
    requires Enabled(s, e) && IsTicketStep(e) && Touched(s, e) != Some(PairingTicket(h)) && PairingTicket(h) in s.known && h in DbAfter(s, e).pairings
    ensures h in s.db.pairings && DbAfter(s, e).pairings[h].consumedAt == s.db.pairings[h].consumedAt
  {
  }

  lemma UntouchedPairing(s: System, e: Event, h: Hash)
    requires Enabled(s, e) && Touched(s, e) != Some(PairingTicket(h)) && PairingTicket(h) in s.known && h in DbAfter(s, e).pairings
    ensures h in s.db.pairings && DbAfter(s, e).pairings[h].consumedAt == s.db.pairings[h].consumedAt
  {
    if IsTicketStep(e) {
      UntouchedPairingByTicket(s, e, h);
    } else {
      OthersOnlyDropPairings(s, e, h);
    }
  }

  lemma UntouchedCodeByTicket(s: System, e: Event, h: Hash)
    requires Enabled(s, e) && IsTicketStep(e) && Touched(s, e) != Some(CodeTicket(h)) && CodeTicket(h) in s.known && h in DbAfter(s, e).codes
    ensures h in s.db.codes && DbAfter(s, e).codes[h].consumedAt == s.db.codes[h].consumedAt
  {
  }

  lemma UntouchedCode(s: System, e: Event, h: Hash)
    requires Enabled(s, e) && Touched(s, e) != Some(CodeTicket(h)) && CodeTicket(h) in s.known && h in DbAfter(s, e).codes
    ensures h in s.db.codes && DbAfter(s, e).codes[h].consumedAt == s.db.codes[h].consumedAt
  {
    if IsTicketStep(e) {
      UntouchedCodeByTicket(s, e, h);
    } else {
      OnlyTicketStepsChangeCodes(s, e);
    }
  }

  /** A row nobody's flight touches keeps its consumption mark. */
  lemma UntouchedRow(s: System, e: Event, t: Ticket)
    requires Enabled(s, e) && Touched(s, e) != Some(t) && t in s.known && Present(DbAfter(s, e), t)
    ensures Present(s.db, t) && ConsumedAt(DbAfter(s, e), t) == ConsumedAt(s.db, t)
  {
    match t
    case PairingTicket(h) => UntouchedPairing(s, e, h);
    case CodeTicket(h) => UntouchedCode(s, e, h);
  }

  /** No step touches the ticket another flight holds. */
  lemma TicketsAreHeldAlone(s: System, e: Event, f: FlightId, t: Ticket)
    requires TicketsSound(s) && Enabled(s, e) && Holds(s, f, t) && Actor(e) != Some(f)
    ensures Touched(s, e) != Some(t) && t in s.known
  {
    assert FlightSound(s, f);
    if Actor(e).Some? {
      assert !Holds(s, Actor(e).value, t);
    }
  }

  lemma BystanderKept(s: System, e: Event, f: FlightId)
    requires Enabled(s, e) && f in s.flights && Actor(e) != Some(f)
    ensures f in FlightsAfter(s, e) && FlightsAfter(s, e)[f] == s.flights[f]
  {
  }

  lemma BystanderStep(s: System, e: Event, f: FlightId)
    requires TicketsSound(s) && Enabled(s, e)
    requires f in s.flights && Actor(e) != Some(f)
    ensures f in FlightsAfter(s, e) && FlightSound(Apply(s, e), f)
  {
    assert FlightSound(s, f);
    BystanderKept(s, e, f);
    GrowsStep(s, e);
    if s.flights[f].ticket.Some? {
      var t := s.flights[f].ticket.value;
      assert Holds(s, f, t);
      TicketsAreHeldAlone(s, e, f, t);
      OwnerKept(s, e, t);
      assert PaidWith(s, e) != Some(t);
      if Present(DbAfter(s, e), t) {
        UntouchedRow(s, e, t);
      }
    }
  }

  /** An operation in progress never changes whom it signs in, nor for which ticket. */
  lemma FlightIdentity(s: System, e: Event, f: FlightId)
    requires Enabled(s, e) && s.flights.Keys <= s.begun && f in s.flights && f in FlightsAfter(s, e)
    ensures FlightsAfter(s, e)[f] == s.flights[f].(stage := FlightsAfter(s, e)[f].stage)
  {
  }

  /** When an operation goes on, the ticket rows stay as they are, and no session was given. */
  lemma GoingOn(s: System, e: Event, f: FlightId)
    requires Enabled(s, e) && s.flights.Keys <= s.begun && Actor(e) == Some(f) && f in s.flights && f in FlightsAfter(s, e)
    ensures DbAfter(s, e).pairings == s.db.pairings && DbAfter(s, e).codes == s.db.codes && SessionOf(s, e) == None
    ensures s.flights[f].stage in {Checking, Upserting, Issuing} || FlightsAfter(s, e)[f].stage == Failing
    ensures s.flights[f].stage == Checking && FlightsAfter(s, e)[f].stage != Failing ==> s.flights[f].expected.Some?
    ensures s.flights[f].stage in {Upserting, Issuing} ==> FlightsAfter(s, e)[f].stage in {Issuing, Failing}
  {
  }

  lemma ActorGoesOn(s: System, e: Event, f: FlightId)
    requires TicketsSound(s) && Enabled(s, e) && Actor(e) == Some(f) && f in s.flights && f in FlightsAfter(s, e)
    ensures FlightSound(Apply(s, e), f)
  {
    assert FlightSound(s, f);
    FlightIdentity(s, e, f);
    GoingOn(s, e, f);
    GrowsStep(s, e);
    if s.flights[f].ticket.Some? {
      OwnerKept(s, e, s.flights[f].ticket.value);
    }
  }

  lemma TicketTaken(s: System, e: Event, f: FlightId)
    requires TicketsSound(s) && DbSound(s.db) && Enabled(s, e) && (e.ConsumePairing? || e.ConsumeCode?)
    requires Actor(e) == Some(f) && f in FlightsAfter(s, e)
    ensures FlightSound(Apply(s, e), f)
  {
    var t := Touched(s, e).value;
    assert f !in s.flights;
    assert RowSound(s, t) && PaidSound(s, t);
  }

  lemma ActorStep(s: System, e: Event, f: FlightId)
    requires TicketsSound(s) && DbSound(s.db) && Enabled(s, e) && Actor(e) == Some(f) && f in FlightsAfter(s, e)
    ensures FlightSound(Apply(s, e), f)
  {
    if f in s.flights {
      ActorGoesOn(s, e, f);
    } else if e.ConsumePairing? || e.ConsumeCode? {
      TicketTaken(s, e, f);
    }
  }

  lemma FlightStep(s: System, e: Event, f: FlightId)
    requires TicketsSound(s) && DbSound(s.db) && Enabled(s, e) && f in FlightsAfter(s, e)
    ensures FlightSound(Apply(s, e), f)
  {
    if Actor(e) == Some(f) { ActorStep(s, e, f); } else { BystanderStep(s, e, f); }
  }

  /** A ticket that gave its session is touched no more. */
  lemma PaidUntouched(s: System, e: Event, t: Ticket)
    requires TicketsSound(s) && Enabled(s, e) && t in s.paid
    ensures Touched(s, e) != Some(t) && PaidWith(s, e) != Some(t) && t in s.known
  {
    assert PaidSound(s, t);
    if Actor(e).Some? && Actor(e).value in s.flights {
      assert FlightSound(s, Actor(e).value);
    }
  }

  lemma PaidNow(s: System, e: Event, t: Ticket)
    requires TicketsSound(s) && Enabled(s, e) && PaidWith(s, e) == Some(t)
    ensures t !in s.paid && t in s.owner && DbAfter(s, e).pairings == s.db.pairings && DbAfter(s, e).codes == s.db.codes
    ensures Present(s.db, t) ==> ConsumedAt(s.db, t).Some?
  {
    assert FlightSound(s, e.flight);
  }

  lemma PaidStep(s: System, e: Event, t: Ticket)
    requires TicketsSound(s) && Enabled(s, e)
    ensures PaidSound(Apply(s, e), t)
  {
    assert PaidSound(s, t);
    if PaidWith(s, e) == Some(t) {
      PaidNow(s, e, t);
    } else if t in s.paid {
      PaidUntouched(s, e, t);
      OwnerKept(s, e, t);
      if Present(DbAfter(s, e), t) {
        UntouchedRow(s, e, t);
      }
    }
  }

  /** Nobody holds an open ticket. */
  lemma OpenIsUnheld(s: System, t: Ticket, f: FlightId)
    requires TicketsSound(s) && Present(s.db, t) && ConsumedAt(s.db, t) == None
    ensures !Holds(s, f, t)
  {
    assert f in s.flights ==> FlightSound(s, f);
  }

  /** Who holds a ticket held it before, or takes it open in this step. */
  lemma HolderBefore(s: System, e: Event, f: FlightId, t: Ticket)
    requires Enabled(s, e) && s.flights.Keys <= s.begun && Holds(Apply(s, e), f, t)
    ensures Holds(s, f, t) || (Actor(e) == Some(f) && Present(s.db, t) && ConsumedAt(s.db, t) == None)
  {
    if f in s.flights {
      FlightIdentity(s, e, f);
    }
  }

  lemma HoldersStep(s: System, e: Event, f: FlightId, g: FlightId, t: Ticket)
    requires TicketsSound(s) && Enabled(s, e)
    requires Holds(Apply(s, e), f, t) && Holds(Apply(s, e), g, t)
    ensures f == g
  {
    HolderBefore(s, e, f, t);
    HolderBefore(s, e, g, t);
    if Present(s.db, t) && ConsumedAt(s.db, t) == None {
      OpenIsUnheld(s, t, f);
      OpenIsUnheld(s, t, g);
    }
  }

  lemma TicketsStep(s: System, e: Event)
    requires TicketsSound(s) && DbSound(s.db) && Enabled(s, e)
    ensures TicketsSound(Apply(s, e))
  {
    forall t: Ticket | Present(DbAfter(s, e), t) { RowStep(s, e, t); }
    forall f | f in FlightsAfter(s, e) { FlightStep(s, e, f); }
    forall f, g, t: Ticket | Holds(Apply(s, e), f, t) && Holds(Apply(s, e), g, t)
      ensures f == g
    {
      HoldersStep(s, e, f, g, t);
    }
    forall t: Ticket { PaidStep(s, e, t); }
    if e.ApproveCode? {
      assert Present(s.db, CodeTicket(e.hash));
    }
  }

  // ------------------------------------------------------- the whole system

  /** Every access token handed out was signed under an epoch its account has reached. */
  ghost predicate IssuedSound(s: System) {
    && (forall access :: access in s.issued ==> EpochReached(s.db, access.accountId, Some(access.credentialEpoch)))
    && (forall h :: h in s.db.tokens && s.db.tokens[h].rotation.Some? ==>
          s.db.tokens[h].rotation.value.response.session.accessToken in s.issued)
  }

  /** A session carries the account's current epoch, or is the cached one handed out before. */
  lemma SessionIsCurrent(s: System, e: Event)
    requires DbSound(s.db) && IssuedSound(s) && Enabled(s, e) && SessionOf(s, e).Some?
    ensures var access := SessionOf(s, e).value.accessToken;
            access in s.issued || (access.accountId in s.db.accounts && access.credentialEpoch == s.db.accounts[access.accountId].credentialEpoch)
  {
    if e.Refresh? && HashOf(e.secret) in s.db.tokens {
      assert TokenSound(s.db, HashOf(e.secret));
    }
  }

  /** A recorded rotation was there before, or records the session this very refresh hands out. */
  lemma RotationOrigin(s: System, e: Event, h: Hash)
    requires Enabled(s, e) && !Revokes(e) && !IsTicketStep(e) && h in DbAfter(s, e).tokens && DbAfter(s, e).tokens[h].rotation.Some?
    ensures (h in s.db.tokens && DbAfter(s, e).tokens[h].rotation == s.db.tokens[h].rotation)
            || SessionOf(s, e) == Some(DbAfter(s, e).tokens[h].rotation.value.response.session)
  {
  }

  lemma RevokersKeepRotations(s: System, e: Event, h: Hash)
    requires Enabled(s, e) && Revokes(e) && h in DbAfter(s, e).tokens
    ensures h in s.db.tokens && DbAfter(s, e).tokens[h].rotation == s.db.tokens[h].rotation
  {
  }

  lemma RotationIsIssued(s: System, e: Event, h: Hash)
    requires IssuedSound(s) && Enabled(s, e) && h in DbAfter(s, e).tokens && DbAfter(s, e).tokens[h].rotation.Some?
    ensures DbAfter(s, e).tokens[h].rotation.value.response.session.accessToken in Apply(s, e).issued
  {
    if Revokes(e) {
      RevokersKeepRotations(s, e, h);
    } else if IsTicketStep(e) {
      TicketStepsKeepTheRest(s, e);
    } else {
      RotationOrigin(s, e, h);
    }
  }

  lemma IssuedStep(s: System, e: Event)
    requires DbSound(s.db) && IssuedSound(s) && Enabled(s, e)
    ensures IssuedSound(Apply(s, e))
  {
    GrowsStep(s, e);
    forall h | h in DbAfter(s, e).tokens && DbAfter(s, e).tokens[h].rotation.Some? {
      RotationIsIssued(s, e, h);
    }
    if SessionOf(s, e).Some? {
      SessionIsCurrent(s, e);
    }
  }

  ghost predicate Inv(s: System) {
    DbSound(s.db) && OneLiveToken(s.db.tokens) && TicketsSound(s) && IssuedSound(s)
  }

  lemma {:induction false} RunInv(states: seq<System>, events: seq<Event>, i: nat)
    requires IsRun(states, events) && Initial(states[0]) && i < |states|
    ensures Inv(states[i])
  {
    if i == 0 {
      forall t: Ticket ensures !Present(states[0].db, t) {}
    } else {
      RunInv(states, events, i - 1);
      assert Enabled(states[i - 1], events[i - 1]);
      TokensStep(states[i - 1], events[i - 1]);
      TicketsStep(states[i - 1], events[i - 1]);
      IssuedStep(states[i - 1], events[i - 1]);
    }
  }

  // ----------------------------------------------------------- main results

  /** In every reachable state a device has at most one usable refresh token, and every token belongs to its device's account. */
  lemma OneLiveTokenPerDevice(states: seq<System>, events: seq<Event>, i: nat)
    requires IsRun(states, events) && Initial(states[0]) && i < |states|
    ensures OneLiveToken(states[i].db.tokens)
    ensures forall h :: h in states[i].db.tokens ==>
              var token := states[i].db.tokens[h];
              token.deviceId in states[i].db.devices && states[i].db.devices[token.deviceId].accountId == token.accountId
  {
    RunInv(states, events, i);
    forall h | h in states[i].db.tokens
      ensures TokenSound(states[i].db, h)
    {
    }
  }

  /**
   * Each pairing token and device code gives at most one session over the whole
   * run; at most one exchange holds it at a time; and whenever it is open for
   * exchange, nobody holds it and it never gave a session.
   */
  lemma OneSessionPerTicket(states: seq<System>, events: seq<Event>, i: nat, t: Ticket)
    requires IsRun(states, events) && Initial(states[0]) && i < |states|
    ensures states[i].paid[t] <= 1
    ensures forall f, g :: Holds(states[i], f, t) && Holds(states[i], g, t) ==> f == g
    ensures (exists f :: Holds(states[i], f, t)) ==> states[i].paid[t] == 0
    ensures Present(states[i].db, t) && ConsumedAt(states[i].db, t) == None ==>
              states[i].paid[t] == 0 && !exists f :: Holds(states[i], f, t)
  {
    RunInv(states, events, i);
    assert PaidSound(states[i], t);
    forall f | Holds(states[i], f, t)
      ensures FlightSound(states[i], f)
    {
    }
  }

  // -------------------------------------------------------- password changes

  /** Whatever can be turned into access to an account. */
  datatype Credential =
    | AccessCredential(access: AccessToken)
    | RefreshCredential(hash: Hash)
    | TicketCredential(ticket: Ticket)
    | SignIn(flight: FlightId)

  /** Issued for the account so far; a sign-in counts when it carries the epoch it proved its credentials under. */
  predicate IssuedFor(s: System, c: Credential, account: AccountId) {
    match c
    case AccessCredential(access) => access in s.issued && access.accountId == account
    case RefreshCredential(h) => h in s.db.tokens && s.db.tokens[h].accountId == account
    case TicketCredential(t) => t in s.owner && s.owner[t] == account
    case SignIn(f) => f in s.flights && s.flights[f].account == account && s.flights[f].expected.Some?
  }

  /** The step accepts the credential: lets a request in, or gives a session for it. */
  predicate Honours(s: System, e: Event, c: Credential) {
    match c
    case AccessCredential(access) => AssertDeviceActive(s.db, access)
    case RefreshCredential(h) => e.Refresh? && HashOf(e.secret) == h && SessionOf(s, e).Some?
    case TicketCredential(t) => PaidWith(s, e) == Some(t)
    case SignIn(f) => e.Issue? && e.flight == f && SessionOf(s, e).Some?
  }

  predicate Outdated(db: Db, account: AccountId, epoch: Option<nat>) {
    account in db.accounts && (epoch.Some? ==> epoch.value < db.accounts[account].credentialEpoch)
  }

  /** Why a credential is worthless from now on. */
  ghost predicate Void(s: System, c: Credential) {
    match c
    case AccessCredential(access) => Outdated(s.db, access.accountId, Some(access.credentialEpoch))
    case RefreshCredential(h) => h in s.db.tokens && s.db.tokens[h].revokedAt.Some?
    case TicketCredential(t) =>
      && t in s.owner
      && (Present(s.db, t) ==> Outdated(s.db, s.owner[t], TicketEpoch(s.db, t)))
      && (forall f :: Holds(s, f, t) ==> Outdated(s.db, s.owner[t], s.flights[f].expected))
    case SignIn(f) =>
      && f in s.begun
      && (f in s.flights ==> s.flights[f].expected.Some? && Outdated(s.db, s.flights[f].account, s.flights[f].expected))
  }

  predicate ChangesPassword(e: Event, account: AccountId) {
    (e.ChangePassword? && e.account == account) || (e.ChangeWebPassword? && e.account == account)
  }

  lemma ChangeMovesEpoch(s: System, e: Event, account: AccountId)
    requires Enabled(s, e) && ChangesPassword(e, account) && account in s.db.accounts
    ensures account in DbAfter(s, e).accounts && DbAfter(s, e).accounts[account].credentialEpoch == s.db.accounts[account].credentialEpoch + 1
    ensures DbAfter(s, e).codes == s.db.codes
    ensures forall h :: h in DbAfter(s, e).pairings ==> h in s.db.pairings && DbAfter(s, e).pairings[h] == s.db.pairings[h]
    ensures Actor(e).Some? ==> Actor(e).value !in s.begun
  {
  }

  lemma ChangeRevokes(s: System, e: Event, account: AccountId, h: Hash)
    requires Enabled(s, e) && ChangesPassword(e, account) && account in s.db.accounts && h in s.db.tokens && s.db.tokens[h].accountId == account
    ensures h in DbAfter(s, e).tokens && DbAfter(s, e).tokens[h].revokedAt.Some?
  {
  }

  lemma ChangeVoidsTicket(s: System, e: Event, account: AccountId, t: Ticket)
    requires Inv(s) && Enabled(s, e) && ChangesPassword(e, account) && IssuedFor(s, TicketCredential(t), account) && account in s.db.accounts
    ensures Void(Apply(s, e), TicketCredential(t))
  {
    ChangeMovesEpoch(s, e, account);
    assert Present(s.db, t) ==> RowSound(s, t);
    OwnerKept(s, e, t);
    forall f | Holds(Apply(s, e), f, t)
      ensures Outdated(DbAfter(s, e), account, FlightsAfter(s, e)[f].expected)
    {
      assert f in s.flights ==> FlightSound(s, f);
    }
  }

  lemma ChangeVoids(s: System, e: Event, account: AccountId, c: Credential)
    requires Inv(s) && Enabled(s, e) && ChangesPassword(e, account) && IssuedFor(s, c, account) && account in s.db.accounts
    ensures Void(Apply(s, e), c)
  {
    ChangeMovesEpoch(s, e, account);
    match c
    case AccessCredential(access) => assert EpochReached(s.db, access.accountId, Some(access.credentialEpoch));
    case RefreshCredential(h) => ChangeRevokes(s, e, account, h);
    case TicketCredential(t) => ChangeVoidsTicket(s, e, account, t);
    case SignIn(f) => assert FlightSound(s, f);
  }

  /** Once void, the row of a ticket stays outdated. */
  lemma VoidTicketRow(s: System, e: Event, t: Ticket)
    requires Inv(s) && Enabled(s, e) && Void(s, TicketCredential(t)) && Present(DbAfter(s, e), t)
    ensures Outdated(DbAfter(s, e), s.owner[t], TicketEpoch(DbAfter(s, e), t))
  {
    GrowsStep(s, e);
    assert Present(s.db, t) ==> RowSound(s, t);
    match t
    case PairingTicket(h) => PairingEvolves(s, e, h);
    case CodeTicket(h) => CodeEvolves(s, e, h);
  }

  /** An operation that begins with a ticket takes its epoch from the row. */
  lemma NewHolder(s: System, e: Event, f: FlightId, t: Ticket)
    requires Enabled(s, e) && f !in s.flights && f in FlightsAfter(s, e) && FlightsAfter(s, e)[f].ticket == Some(t)
    ensures Present(s.db, t) && FlightsAfter(s, e)[f].expected == TicketEpoch(s.db, t) && DbAfter(s, e).accounts == s.db.accounts
  {
  }

  lemma VoidTicketHolder(s: System, e: Event, f: FlightId, t: Ticket)
    requires Inv(s) && Enabled(s, e) && Void(s, TicketCredential(t)) && f in FlightsAfter(s, e) && FlightsAfter(s, e)[f].ticket == Some(t)
    ensures Outdated(DbAfter(s, e), s.owner[t], FlightsAfter(s, e)[f].expected)
  {
    if f in s.flights {
      FlightIdentity(s, e, f);
      assert Holds(s, f, t);
      GrowsStep(s, e);
    } else {
      NewHolder(s, e, f, t);
    }
  }

  lemma VoidTicketUnpaid(s: System, e: Event, t: Ticket)
    requires Inv(s) && Enabled(s, e) && Void(s, TicketCredential(t))
    ensures PaidWith(s, e) != Some(t)
  {
    if e.Issue? && Holds(s, e.flight, t) {
      assert FlightSound(s, e.flight);
    }
  }

  lemma VoidTicketStep(s: System, e: Event, t: Ticket)
    requires Inv(s) && Enabled(s, e) && Void(s, TicketCredential(t))
    ensures Void(Apply(s, e), TicketCredential(t)) && PaidWith(s, e) != Some(t)
  {
    OwnerKept(s, e, t);
    VoidTicketUnpaid(s, e, t);
    if Present(DbAfter(s, e), t) {
      VoidTicketRow(s, e, t);
    }
    forall f | f in FlightsAfter(s, e) && FlightsAfter(s, e)[f].ticket == Some(t)
      ensures Outdated(DbAfter(s, e), s.owner[t], FlightsAfter(s, e)[f].expected)
    {
      VoidTicketHolder(s, e, f, t);
    }
  }

  lemma VoidSignInStep(s: System, e: Event, f: FlightId)
    requires Inv(s) && Enabled(s, e) && Void(s, SignIn(f))
    ensures Void(Apply(s, e), SignIn(f)) && !Honours(s, e, SignIn(f))
  {
    GrowsStep(s, e);
    if f in s.flights {
      if f in FlightsAfter(s, e) {
        FlightIdentity(s, e, f);
      }
    } else {
      NotReborn(s, e, f);
    }
  }

  /** An operation that ended does not come back. */
  lemma NotReborn(s: System, e: Event, f: FlightId)
    requires Enabled(s, e) && f in s.begun && f !in s.flights
    ensures f !in FlightsAfter(s, e)
  {
  }

  lemma VoidRefreshStep(s: System, e: Event, h: Hash)
    requires Enabled(s, e) && Void(s, RefreshCredential(h))
    ensures Void(Apply(s, e), RefreshCredential(h)) && !Honours(s, e, RefreshCredential(h))
  {
    TokenStep(s, e, h);
  }

  lemma VoidStep(s: System, e: Event, c: Credential)
    requires Inv(s) && Enabled(s, e) && Void(s, c)
    ensures Void(Apply(s, e), c) && !Honours(s, e, c)
  {
    match c
    case AccessCredential(_) => GrowsStep(s, e);
    case RefreshCredential(h) => VoidRefreshStep(s, e, h);
    case TicketCredential(t) => VoidTicketStep(s, e, t);
    case SignIn(f) => VoidSignInStep(s, e, f);
  }

  lemma {:induction false} VoidForever(states: seq<System>, events: seq<Event>, i: nat, j: nat, c: Credential)
    requires IsRun(states, events) && Initial(states[0]) && i <= j < |states| && Void(states[i], c)
    ensures Void(states[j], c)
  {
    if i < j {
      VoidForever(states, events, i, j - 1, c);
      RunInv(states, events, j - 1);
      assert Enabled(states[j - 1], events[j - 1]);
      VoidStep(states[j - 1], events[j - 1], c);
    }
  }

  /**
   * Once a password change commits, nothing issued for the account before it is
   * honoured again at any later point of the run: no access token, refresh
   * token, pairing or approved code, and no sign-in or exchange caught between
   * its transactions that carries the epoch it started under.
   */
  lemma PasswordChangeIsFinal(states: seq<System>, events: seq<Event>, i: nat, j: nat, account: AccountId, c: Credential)
    requires IsRun(states, events) && Initial(states[0]) && i < j < |events|
    requires ChangesPassword(events[i], account) && account in states[i].db.accounts && IssuedFor(states[i], c, account)
    ensures !Honours(states[j], events[j], c)
  {
    RunInv(states, events, i);
    assert Enabled(states[i], events[i]);
    ChangeVoids(states[i], events[i], account, c);
    VoidForever(states, events, i + 1, j, c);
    RunInv(states, events, j);
    assert Enabled(states[j], events[j]);
    VoidStep(states[j], events[j], c);
  }

  /**
   * Registration, and the session re-issued after a password change, carry no
   * expected epoch. Exactly then can a sign-in survive a later password change:
   * an outdated sign-in in its last transaction gives a session if and only if
   * it carries no epoch and its account and device are still active.
   */
  lemma OutdatedSignIns(s: System, f: FlightId, secret: Secret)
    requires Enabled(s, Issue(f, secret))
    requires Outdated(s.db, s.flights[f].account, s.flights[f].expected)
    ensures SessionOf(s, Issue(f, secret)).Some? <==>
              s.flights[f].expected == None && ActiveAccount(s.db, s.flights[f].account)
              && OwnedDevice(s.db, s.flights[f].device, s.flights[f].account)
  {
  }

  /** Whom an operation signs in, on which device and under which epoch, is settled when it begins; once over it never comes back. */
  lemma {:induction false} FlightForever(states: seq<System>, events: seq<Event>, i: nat, j: nat, f: FlightId)
    requires IsRun(states, events) && Initial(states[0]) && i <= j < |states| && f in states[i].flights
    ensures f in states[j].begun
    ensures f in states[j].flights ==> states[j].flights[f] == states[i].flights[f].(stage := states[j].flights[f].stage)
  {
    RunInv(states, events, i);
    if i < j {
      FlightForever(states, events, i, j - 1, f);
      RunInv(states, events, j - 1);
      var s, e := states[j - 1], events[j - 1];
      assert Enabled(s, e);
      if f in s.flights && f in FlightsAfter(s, e) {
        FlightIdentity(s, e, f);
      } else if f !in s.flights {
        NotReborn(s, e, f);
      }
    }
  }

  /**
   * Which sign-ins outlive a password change: of those in progress for the account right after it, one that
   * reaches its last transaction at any later point of the run gets a session there if and only if it
   * carries no expected epoch and its account and device are active then.
   */
  lemma SignInsThatOutliveAChange(states: seq<System>, events: seq<Event>, i: nat, j: nat, account: AccountId, f: FlightId, secret: Secret)
    requires IsRun(states, events) && Initial(states[0]) && i < |events| && i < j < |states|
    requires ChangesPassword(events[i], account) && account in states[i].db.accounts
    requires f in states[i + 1].flights && states[i + 1].flights[f].account == account
    requires Enabled(states[j], Issue(f, secret))
    ensures SessionOf(states[j], Issue(f, secret)).Some? <==>
              states[i + 1].flights[f].expected == None && ActiveAccount(states[j].db, account)
              && OwnedDevice(states[j].db, states[i + 1].flights[f].device, account)
  {
    RunInv(states, events, i);
    RunInv(states, events, j);
    var s, e := states[i], events[i];
    assert Enabled(s, e);
    FlightForever(states, events, i + 1, j, f);
    if states[i + 1].flights[f].expected.Some? {
      OlderSignIn(s, e, account, f);
      ChangeVoids(s, e, account, SignIn(f));
      VoidForever(states, events, i + 1, j, SignIn(f));
    }
    assert FlightSound(states[j], f);
    OutdatedSignIns(states[j], f, secret);
  }

  /** An epoch-bound sign-in in progress after a password change was in progress before it. */
  lemma OlderSignIn(s: System, e: Event, account: AccountId, f: FlightId)
    requires TicketsSound(s) && Enabled(s, e) && ChangesPassword(e, account) && f in FlightsAfter(s, e) && FlightsAfter(s, e)[f].expected.Some?
    ensures f in s.flights && FlightsAfter(s, e)[f] == s.flights[f]
  {
  }

  /** In the very next step: a change from a device leaves it to the state before, a change on the web admits no sign-in at all. */
  lemma SignInsRightAfterAChange(states: seq<System>, events: seq<Event>, i: nat, account: AccountId, f: FlightId, secret: Secret)
    requires IsRun(states, events) && Initial(states[0]) && i < |events|
    requires ChangesPassword(events[i], account) && account in states[i].db.accounts
    requires f in states[i + 1].flights && states[i + 1].flights[f].account == account
    requires Enabled(states[i + 1], Issue(f, secret))
    ensures SessionOf(states[i + 1], Issue(f, secret)).Some? <==>
              states[i + 1].flights[f].expected == None && events[i].ChangePassword? && ActiveAccount(states[i].db, account)
              && OwnedDevice(states[i].db, states[i + 1].flights[f].device, account)
  {
    assert Enabled(states[i], events[i]);
    SignInsThatOutliveAChange(states, events, i, i + 1, account, f, secret);
    ChangeAndDevices(states[i], events[i], account, states[i + 1].flights[f].device);
  }

  lemma ChangeAndDevices(s: System, e: Event, account: AccountId, device: DeviceId)
    requires Enabled(s, e) && ChangesPassword(e, account) && account in s.db.accounts
    ensures ActiveAccount(DbAfter(s, e), account) <==> ActiveAccount(s.db, account)
    ensures OwnedDevice(DbAfter(s, e), device, account) <==> e.ChangePassword? && OwnedDevice(s.db, device, account)
  {
  }

  /** Of two password changes from the same device, the first still re-issues its session after the second committed. */
  lemma ReissueAfterLaterChange(s: System, account: AccountId, device: DeviceId, f: FlightId, g: FlightId,
                                first: Password, second: Password, secret: Secret)
    requires Enabled(s, ChangePassword(f, account, device, first)) && ActiveAccount(s.db, account)
    requires s.flights.Keys <= s.begun && g !in s.begun && g != f && HashOf(secret) !in s.db.tokens
    ensures var s1 := Apply(s, ChangePassword(f, account, device, first));
            && Enabled(s1, ChangePassword(g, account, device, second))
            && var s2 := Apply(s1, ChangePassword(g, account, device, second));
               && Enabled(s2, Issue(f, secret))
               && SessionOf(s2, Issue(f, secret)).Some?
  {
    var s1 := Apply(s, ChangePassword(f, account, device, first));
    assert s1.db.tokens.Keys == s.db.tokens.Keys;
    var s2 := Apply(s1, ChangePassword(g, account, device, second));
    assert s2.db.tokens.Keys == s1.db.tokens.Keys;
  }

  lemma AppendStep(states: seq<System>, events: seq<Event>, e: Event)
    requires IsRun(states, events) && Enabled(states[|events|], e)
    ensures IsRun(states + [Apply(states[|events|], e)], events + [e])
  {
  }

  /** A concrete run on which that happens. */
  lemma ReissueRun() returns (states: seq<System>, events: seq<Event>)
    ensures IsRun(states, events) && Initial(states[0]) && |events| == 4
    ensures ChangesPassword(events[1], 0) && ChangesPassword(events[2], 0)
    ensures events[3].Issue? && events[1].ChangePassword? && events[3].flight == events[1].flight && SessionOf(states[3], events[3]).Some?
  {
    var s0 := System(Db(map[], map[], map[], map[], map[], Instance(0, 0, false)), map[], 0, {}, {}, map[], multiset{}, {});
    var register, first, second, issue := Register(0, 0, 0, 1), ChangePassword(1, 0, 0, 2), ChangePassword(2, 0, 0, 3), Issue(1, 7);
    var s1 := Registered(s0);
    ReissueAfterLaterChange(s1, 0, 0, 1, 2, 2, 3, 7);
    var s2 := Apply(s1, first);
    var s3 := Apply(s2, second);
    AppendStep([s0], [], register);
    AppendStep([s0] + [s1], [] + [register], first);
    AppendStep([s0] + [s1] + [s2], [] + [register] + [first], second);
    AppendStep([s0] + [s1] + [s2] + [s3], [] + [register] + [first] + [second], issue);
    states := [s0] + [s1] + [s2] + [s3] + [Apply(s3, issue)];
    events := [] + [register] + [first] + [second] + [issue];
  }

  lemma Registered(s: System) returns (after: System)
    requires Initial(s)
    ensures Enabled(s, Register(0, 0, 0, 1)) && after == Apply(s, Register(0, 0, 0, 1))
    ensures Enabled(after, ChangePassword(1, 0, 0, 2)) && ActiveAccount(after.db, 0)
    ensures after.flights.Keys <= after.begun == {0} && after.db.tokens == map[]
  {
    after := Apply(s, Register(0, 0, 0, 1));
  }

  // ----------------------------------------------------------- token rotation

  lemma {:induction false} TokenForever(states: seq<System>, events: seq<Event>, i: nat, j: nat, h: Hash)
    requires IsRun(states, events) && i <= j < |states| && h in states[i].db.tokens
    ensures h in states[j].db.tokens && TokenEvolves(states[i].db.tokens[h], states[j].db.tokens[h])
  {
    if i < j {
      TokenForever(states, events, i, j - 1, h);
      assert Enabled(states[j - 1], events[j - 1]);
      TokenStep(states[j - 1], events[j - 1], h);
    }
  }

  /** Every refresh token of the device, and the device itself, is revoked. */
  ghost predicate Locked(db: Db, device: DeviceId) {
    && device in db.devices && db.devices[device].revokedAt.Some?
    && forall h :: h in db.tokens && db.tokens[h].deviceId == device ==> db.tokens[h].revokedAt.Some?
  }

  /**
   * After a refresh was answered with session `first`, under a request id or none: at any later time, while the
   * rotated token is still accepted at all, repeating it with that request id returns exactly `first` and changes
   * nothing, and every other repetition revokes the device and all its tokens.
   */
  lemma ReplayOrReuse(states: seq<System>, events: seq<Event>, i: nat, j: nat,
                      secret: Secret, device: DeviceId, first: Session, again: Option<RequestId>, newSecret: Secret)
    requires IsRun(states, events) && Initial(states[0]) && i < j < |states|
    requires i < |events| && events[i].Refresh? && events[i].secret == secret && events[i].device == device
    requires HashOf(secret) in states[i].db.tokens && states[i].db.tokens[HashOf(secret)].rotatedAt == None
    requires SessionOf(states[i], events[i]) == Some(first)
    requires Refreshable(states[j].db, secret, device, states[j].now)
    ensures var (db, result) := AuthRows.Refresh(states[j].db, secret, device, again, newSecret, states[j].now);
            if again.Some? && again == events[i].request then result == Granted(first) && db == states[j].db
            else result == Reused && Locked(db, device)
  {
    var h := HashOf(secret);
    assert Enabled(states[i], events[i]);
    TokenForever(states, events, i + 1, j, h);
    RunInv(states, events, i);
    RunInv(states, events, j);
    assert TokenSound(states[i].db, h) && TokenSound(states[j].db, h);
  }

  /** The step signs the device in again. */
  predicate SignsIn(s: System, e: Event, device: DeviceId) {
    && e.Upsert? && InFlight(s, e.flight, {Upserting}) && s.flights[e.flight].device == device
    && UpsertDevice(s.db, s.flights[e.flight].account, device, s.flights[e.flight].expected).Some?
  }

  lemma LockedRefused(s: System, e: Event, device: DeviceId)
    requires Enabled(s, e) && Locked(s.db, device) && e.Refresh? && e.device == device
    ensures SessionOf(s, e) == None && DbAfter(s, e) == s.db
  {
  }

  lemma LockedThroughRevokers(s: System, e: Event, device: DeviceId)
    requires Enabled(s, e) && Locked(s.db, device) && Revokes(e)
    ensures device in DbAfter(s, e).devices && DbAfter(s, e).devices[device].revokedAt.Some?
  {
  }

  lemma LockedThroughOthers(s: System, e: Event, device: DeviceId)
    requires Enabled(s, e) && Locked(s.db, device) && !SignsIn(s, e, device) && !Revokes(e) && !IsTicketStep(e)
    ensures device in DbAfter(s, e).devices && DbAfter(s, e).devices[device].revokedAt.Some?
    ensures forall h :: h in DbAfter(s, e).tokens && DbAfter(s, e).tokens[h].deviceId == device ==> h in s.db.tokens
  {
  }

  /** Nothing but a sign-in of the device gives a locked device a new token or makes it active. */
  lemma LockedDevice(s: System, e: Event, device: DeviceId)
    requires Enabled(s, e) && Locked(s.db, device) && !SignsIn(s, e, device)
    ensures device in DbAfter(s, e).devices && DbAfter(s, e).devices[device].revokedAt.Some?
    ensures forall h :: h in DbAfter(s, e).tokens && DbAfter(s, e).tokens[h].deviceId == device ==> h in s.db.tokens
  {
    if Revokes(e) {
      LockedThroughRevokers(s, e, device);
      RevokersAddNothing(s, e);
    } else if IsTicketStep(e) {
      TicketStepsKeepTheRest(s, e);
    } else {
      LockedThroughOthers(s, e, device);
    }
  }

  lemma LockedStep(s: System, e: Event, device: DeviceId)
    requires DbSound(s.db) && Enabled(s, e) && Locked(s.db, device) && !SignsIn(s, e, device)
    ensures Locked(DbAfter(s, e), device)
    ensures e.Refresh? && e.device == device ==> SessionOf(s, e) == None && DbAfter(s, e) == s.db
  {
    LockedDevice(s, e, device);
    forall h | h in DbAfter(s, e).tokens && DbAfter(s, e).tokens[h].deviceId == device
      ensures DbAfter(s, e).tokens[h].revokedAt.Some?
    {
      TokenStep(s, e, h);
    }
    if e.Refresh? && e.device == device {
      LockedRefused(s, e, device);
    }
  }

  /** A locked device - in particular after a detected reuse - gets no session by refreshing until it signs in again. */
  lemma {:induction false} LockedUntilSignIn(states: seq<System>, events: seq<Event>, i: nat, j: nat, device: DeviceId)
    requires IsRun(states, events) && Initial(states[0]) && i <= j < |states| && Locked(states[i].db, device)
    requires forall k :: i <= k < j ==> !SignsIn(states[k], events[k], device)
    ensures Locked(states[j].db, device)
    ensures j < |events| && events[j].Refresh? && events[j].device == device ==>
              SessionOf(states[j], events[j]) == None && states[j + 1].db == states[j].db
  {
    if i < j {
      LockedUntilSignIn(states, events, i, j - 1, device);
      RunInv(states, events, j - 1);
      assert Enabled(states[j - 1], events[j - 1]);
      LockedStep(states[j - 1], events[j - 1], device);
    }
    if j < |events| && events[j].Refresh? {
      assert Enabled(states[j], events[j]);
    }
  }

  // ------------------------------------------------------ cancelled and denied

  /** A pairing that is gone, or a code that is denied or gone, with no exchange holding it. */
  ghost predicate Closed(s: System, t: Ticket) {
    && t in s.known
    && (Present(s.db, t) ==> t.CodeTicket? && s.db.codes[t.hash].status == Denied)
    && forall f :: !Holds(s, f, t)
  }

  lemma ClosedRow(s: System, e: Event, t: Ticket)
    requires Enabled(s, e) && Closed(s, t) && Present(DbAfter(s, e), t)
    ensures t.CodeTicket? && DbAfter(s, e).codes[t.hash].status == Denied
  {
    match t
    case PairingTicket(h) => PairingEvolves(s, e, h);
    case CodeTicket(h) => CodeEvolves(s, e, h);
  }

  lemma ClosedStep(s: System, e: Event, t: Ticket)
    requires TicketsSound(s) && Enabled(s, e) && Closed(s, t)
    ensures Closed(Apply(s, e), t) && PaidWith(s, e) != Some(t)
  {
    if Present(DbAfter(s, e), t) {
      ClosedRow(s, e, t);
    }
    forall f
      ensures !Holds(Apply(s, e), f, t)
    {
      assert !Holds(s, f, t);
      if f in FlightsAfter(s, e) && f in s.flights {
        FlightIdentity(s, e, f);
      } else if f in FlightsAfter(s, e) {
        ClosedNotTaken(s, e, f, t);
      }
    }
    assert e.Issue? ==> !Holds(s, e.flight, t);
  }

  lemma ClosedNotTaken(s: System, e: Event, f: FlightId, t: Ticket)
    requires Enabled(s, e) && Closed(s, t) && f !in s.flights && f in FlightsAfter(s, e)
    ensures FlightsAfter(s, e)[f].ticket != Some(t)
  {
  }

  /** A pairing cancelled or a code denied or cancelled while nobody holds it gives no session at any later point of the run. */
  lemma {:induction false} ClosedTicketsNeverPay(states: seq<System>, events: seq<Event>, i: nat, j: nat, t: Ticket)
    requires IsRun(states, events) && Initial(states[0]) && i <= j < |states| && Closed(states[i], t)
    ensures Closed(states[j], t) && states[j].paid[t] == states[i].paid[t]
  {
    if i < j {
      ClosedTicketsNeverPay(states, events, i, j - 1, t);
      RunInv(states, events, j - 1);
      assert Enabled(states[j - 1], events[j - 1]);
      ClosedStep(states[j - 1], events[j - 1], t);
    }
  }

  lemma CancellingKeepsFlights(s: System, e: Event)
    requires Enabled(s, e) && (e.CancelPairing? || e.DenyCode? || e.CancelCode?)
    ensures FlightsAfter(s, e) == s.flights
  {
  }

  /** Cancelling or denying an open ticket closes it. */
  lemma CancellingCloses(s: System, e: Event, t: Ticket)
    requires Inv(s) && Enabled(s, e) && Present(s.db, t) && ConsumedAt(s.db, t) == None
    requires match t
             case PairingTicket(h) => e.CancelPairing? && e.hash == h
             case CodeTicket(h) => (e.DenyCode? && e.hash == h) || (e.CancelCode? && e.hash == h && s.db.codes[h].status == Pending)
    ensures Closed(Apply(s, e), t)
  {
    assert RowSound(s, t);
    CancellingKeepsFlights(s, e);
    forall f
      ensures !Holds(Apply(s, e), f, t)
    {
      OpenIsUnheld(s, t, f);
    }
  }
}
