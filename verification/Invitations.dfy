/**
 * Registration invitations: bounded use counts, and replacement of an invitation
 * that is bound to an e-mail address by a new one in the same chain.
 */
module Invitations {
  import opened Common

  type InvitationId = nat
  type AccountId = nat
  type Token = nat
  type Email = string
  type Time = int

  const LONGEST: int := 90 * 24 * 60 * 60 * 1000

  datatype Invitation = Invitation(token: Token, maxUses: nat, useCount: nat, boundEmail: Option<Email>, expiresAt: Time,
                                   revokedAt: Option<Time>, predecessor: Option<InvitationId>)

  /** `uses` are the use rows: which account was created through which invitation. `logins` are the claimed login names. */
  datatype Db = Db(invitations: map<InvitationId, Invitation>, uses: map<AccountId, InvitationId>, logins: set<string>, byInvitation: bool)

  datatype InvitationError =
    | AdminRequired | RegistrationClosed | InvitationInvalid | DeliveryUnavailable | AccountExists | NotFound | NotReplaceable | Failed

  /** Addresses come normalised. `fails` is any later failure inside the transaction. */
  datatype Event =
    | SetPolicy(admin: bool, byInvitation: bool)
    | Create(admin: bool, newId: InvitationId, token: Token, maxUses: int, expiresAt: Time, boundEmail: Option<Email>, send: bool, delivery: bool)
    | Accept(token: Token, login: string, email: Option<Email>, account: AccountId, fails: bool)
    | Revoke(admin: bool, id: InvitationId)
    | Replace(admin: bool, id: InvitationId, newId: InvitationId, token: Token, delivery: bool)

  predicate Live(i: Invitation, now: Time) {
    i.revokedAt == None && i.expiresAt > now && i.useCount < i.maxUses
  }

  predicate HasToken(db: Db, id: InvitationId, token: Token) {
    id in db.invitations && db.invitations[id].token == token
  }

  /** The row found by its unique token hash. */
  ghost function FindToken(db: Db, token: Token): Option<InvitationId> {
    if id :| HasToken(db, id, token) then Some(id) else None
  }

  /** The unique index on token hashes. */
  ghost predicate TokensUnique(db: Db) {
    forall i, j :: HasTokenOf(db, i, j) ==> i == j
  }

  predicate HasTokenOf(db: Db, i: InvitationId, j: InvitationId) {
    i in db.invitations && j in db.invitations && db.invitations[i].token == db.invitations[j].token
  }

  lemma FoundToken(db: Db, id: InvitationId, token: Token)
    requires TokensUnique(db) && HasToken(db, id, token)
    ensures FindToken(db, token) == Some(id)
  {
    var found := FindToken(db, token).value;
    assert HasTokenOf(db, id, found);
  }

  function CreateStep(db: Db, e: Event, now: Time): Result<Db, InvitationError>
    requires e.Create?
  {
    if !e.admin then Err(AdminRequired)
    else if !db.byInvitation then Err(RegistrationClosed)
    else if e.maxUses < 1 || e.maxUses > 1000 || e.expiresAt <= now || e.expiresAt > now + LONGEST then Err(InvitationInvalid)
    else if e.boundEmail.Some? && e.maxUses != 1 then Err(InvitationInvalid)
    else if e.send && e.boundEmail.None? then Err(InvitationInvalid)
    else if e.send && !e.delivery then Err(DeliveryUnavailable)
    else Ok(db.(invitations := db.invitations[e.newId := Invitation(e.token, e.maxUses, 0, e.boundEmail, e.expiresAt, None, None)]))
  }

  ghost function AcceptStep(db: Db, e: Event, now: Time): Result<Db, InvitationError>
    requires e.Accept?
  {
    if !db.byInvitation then Err(InvitationInvalid)
    else match FindToken(db, e.token)
      case None => Err(InvitationInvalid)
      case Some(id) =>
        var i := db.invitations[id];
        if !Live(i, now) || (i.boundEmail.Some? && e.email != i.boundEmail) then Err(InvitationInvalid)
        else if e.login in db.logins then Err(AccountExists)
        else if e.fails then Err(Failed)
        else Ok(db.(invitations := db.invitations[id := i.(useCount := i.useCount + 1)],
                    uses := db.uses[e.account := id], logins := db.logins + {e.login}))
  }

  function RevokeStep(db: Db, e: Event, now: Time): Result<Db, InvitationError>
    requires e.Revoke?
  {
    if !e.admin then Err(AdminRequired)
    else if e.id !in db.invitations || db.invitations[e.id].revokedAt != None then Err(NotFound)
    else Ok(db.(invitations := db.invitations[e.id := db.invitations[e.id].(revokedAt := Some(now))]))
  }

  function ReplaceStep(db: Db, e: Event, now: Time): Result<Db, InvitationError>
    requires e.Replace?
  {
    if !e.admin then Err(AdminRequired)
    else if !e.delivery then Err(DeliveryUnavailable)
    else if e.id !in db.invitations || !Live(db.invitations[e.id], now) || db.invitations[e.id].boundEmail == None then Err(NotReplaceable)
    else
      var prior := db.invitations[e.id];
      Ok(db.(invitations := db.invitations[e.id := prior.(revokedAt := Some(now))]
                                          [e.newId := Invitation(e.token, 1, 0, prior.boundEmail, prior.expiresAt, None, Some(e.id))]))
  }

  /** What one call makes of the rows; an error leaves them alone. */
  ghost function Step(db: Db, e: Event, now: Time): Result<Db, InvitationError> {
    match e
    case SetPolicy(admin, byInvitation) => if admin then Ok(db.(byInvitation := byInvitation)) else Err(AdminRequired)
    case Create(_, _, _, _, _, _, _, _) => CreateStep(db, e, now)
    case Accept(_, _, _, _, _) => AcceptStep(db, e, now)
    case Revoke(_, _) => RevokeStep(db, e, now)
    case Replace(_, _, _, _, _) => ReplaceStep(db, e, now)
  }

  // -------------------------------------------------------------------- runs

  /** `root` is history: the invitation each chain of replacements began with. `now` is what the clock read at the last step; it may jump. */
  datatype System = System(db: Db, root: map<InvitationId, InvitationId>, now: Time)

  predicate NewRow(db: Db, e: Event)
    requires e.Create? || e.Replace?
  {
    e.newId !in db.invitations && forall id :: id in db.invitations ==> db.invitations[id].token != e.token
  }

  /** Ids and tokens of new rows are new. */
  predicate Enabled(s: System, e: Event) {
    && (e.Create? || e.Replace? ==> NewRow(s.db, e))
    && (e.Accept? ==> e.account !in s.db.uses)
  }

  ghost function Apply(s: System, e: Event, now: Time): System
    requires Enabled(s, e)
  {
    match Step(s.db, e, now)
    case Err(_) => s.(now := now)
    case Ok(db) =>
      System(db,
             if e.Create? then s.root[e.newId := e.newId]
             else if e.Replace? && e.id in s.root then s.root[e.newId := s.root[e.id]]
             else s.root,
             now)
  }

  ghost predicate IsRun(states: seq<System>, events: seq<Event>) {
    && |states| == |events| + 1
    && forall i :: 0 <= i < |events| ==>
         Enabled(states[i], events[i]) && states[i + 1] == Apply(states[i], events[i], states[i + 1].now)
  }

  predicate Initial(s: System) {
    s.db.invitations == map[] && s.db.uses == map[] && s.root == map[]
  }

  // -------------------------------------------------------------- invariants

  /** The accounts created through an invitation. */
  function CreatedThrough(db: Db, id: InvitationId): set<AccountId> {
    set a | a in db.uses && db.uses[a] == id
  }

  predicate RowOk(s: System, id: InvitationId)
    requires id in s.db.invitations
  {
    var i := s.db.invitations[id];
    && i.useCount == |CreatedThrough(s.db, id)| <= i.maxUses
    && id in s.root && s.root[id] in s.db.invitations
    && s.db.invitations[s.root[id]].boundEmail == i.boundEmail
    && (i.boundEmail.Some? ==> i.maxUses == 1)
    && (match i.predecessor
        case None => s.root[id] == id
        case Some(prior) => prior in s.root && s.root[prior] == s.root[id] && i.boundEmail.Some?)
  }

  /** Of two invitations in one chain one is revoked and one unused, and one that is not revoked has no used companion. */
  predicate PairOk(s: System, i: InvitationId, j: InvitationId)
    requires i in s.db.invitations && j in s.db.invitations
  {
    i in s.root && j in s.root && s.root[i] == s.root[j] ==>
      && (s.db.invitations[i].revokedAt.Some? || s.db.invitations[j].revokedAt.Some?)
      && (s.db.invitations[i].useCount == 0 || s.db.invitations[j].useCount == 0)
      && (s.db.invitations[i].revokedAt == None ==> s.db.invitations[j].useCount == 0)
      && (s.db.invitations[j].revokedAt == None ==> s.db.invitations[i].useCount == 0)
  }

  ghost predicate Inv(s: System) {
    && (forall id {:trigger RowOk(s, id)} :: id in s.db.invitations ==> RowOk(s, id))
    && (forall a :: a in s.db.uses ==> s.db.uses[a] in s.db.invitations)
    && (forall i, j {:trigger PairOk(s, i, j)} :: i in s.db.invitations && j in s.db.invitations && i != j ==> PairOk(s, i, j))
    && (forall id :: id in s.root ==> id in s.db.invitations)
    && TokensUnique(s.db)
  }

  lemma CountStep(s: System, e: Event, now: Time, id: InvitationId)
    requires Inv(s) && Enabled(s, e) && id in Apply(s, e, now).db.invitations
    ensures Apply(s, e, now).db.invitations[id].useCount == |CreatedThrough(Apply(s, e, now).db, id)|
  {
    var t := Apply(s, e, now);
    if id in s.db.invitations {
      assert RowOk(s, id);
    } else {
      assert CreatedThrough(t.db, id) == {};
    }
    if t.db.uses == s.db.uses {
      assert CreatedThrough(t.db, id) == CreatedThrough(s.db, id);
    } else if t.db.uses[e.account] == id {
      assert CreatedThrough(t.db, id) == CreatedThrough(s.db, id) + {e.account};
    } else {
      assert CreatedThrough(t.db, id) == CreatedThrough(s.db, id);
    }
  }

  lemma RowStep(s: System, e: Event, now: Time, id: InvitationId)
    requires Inv(s) && Enabled(s, e) && id in Apply(s, e, now).db.invitations
    ensures RowOk(Apply(s, e, now), id)
  {
    CountStep(s, e, now, id);
    if id in s.db.invitations {
      assert RowOk(s, id);
    }
    if e.Replace? && e.id in s.db.invitations {
      assert RowOk(s, e.id);
    }
  }

  lemma PairStep(s: System, e: Event, now: Time, i: InvitationId, j: InvitationId)
    requires Inv(s) && Enabled(s, e) && i in Apply(s, e, now).db.invitations && j in Apply(s, e, now).db.invitations && i != j
    ensures PairOk(Apply(s, e, now), i, j)
  {
    if i in s.db.invitations && j in s.db.invitations {
      assert PairOk(s, i, j);
    }
    assert (i in s.db.invitations ==> RowOk(s, i)) && (j in s.db.invitations ==> RowOk(s, j));
    if e.Replace? && e.id in s.db.invitations {
      assert RowOk(s, e.id);
      if i in s.db.invitations && i != e.id {
        assert PairOk(s, e.id, i);
      }
      if j in s.db.invitations && j != e.id {
        assert PairOk(s, e.id, j);
      }
    }
  }

  lemma TokensStep(db: Db, e: Event, now: Time)
    requires TokensUnique(db) && (e.Create? || e.Replace? ==> NewRow(db, e)) && Step(db, e, now).Ok?
    ensures TokensUnique(Step(db, e, now).value)
  {
    var after := Step(db, e, now).value;
    forall i, j | HasTokenOf(after, i, j)
      ensures i == j
    {
      assert i in db.invitations && j in db.invitations ==> HasTokenOf(db, i, j);
    }
  }

  lemma InvStep(s: System, e: Event, now: Time)
    requires Inv(s) && Enabled(s, e)
    ensures Inv(Apply(s, e, now))
  {
    var t := Apply(s, e, now);
    if Step(s.db, e, now).Ok? {
      TokensStep(s.db, e, now);
    }
    forall id | id in t.db.invitations
      ensures RowOk(t, id)
    {
      RowStep(s, e, now, id);
    }
    forall i, j | i in t.db.invitations && j in t.db.invitations && i != j
      ensures PairOk(t, i, j)
    {
      PairStep(s, e, now, i, j);
    }
  }

  lemma {:induction false} RunInv(states: seq<System>, events: seq<Event>, k: nat)
    requires IsRun(states, events) && Initial(states[0]) && k < |states|
    ensures Inv(states[k])
    decreases k
  {
    if k > 0 {
      RunInv(states, events, k - 1);
      InvStep(states[k - 1], events[k - 1], states[k].now);
    }
  }

  // ------------------------------------------------------------- main results

  /** In every run the use count of an invitation is the number of accounts created through it, at most its limit; failed attempts count nothing. */
  lemma UsesAreAccounts(states: seq<System>, events: seq<Event>, k: nat, id: InvitationId)
    requires IsRun(states, events) && Initial(states[0]) && k < |states| && id in states[k].db.invitations
    ensures states[k].db.invitations[id].useCount == |CreatedThrough(states[k].db, id)| <= states[k].db.invitations[id].maxUses
  {
    RunInv(states, events, k);
    assert RowOk(states[k], id);
  }

  /** A replacement belongs to the chain of what it replaces. */
  lemma ReplacementsShareRoot(states: seq<System>, events: seq<Event>, k: nat, id: InvitationId)
    requires IsRun(states, events) && Initial(states[0]) && k < |states| && id in states[k].db.invitations
    requires states[k].db.invitations[id].predecessor.Some?
    ensures var prior := states[k].db.invitations[id].predecessor.value;
            && id in states[k].root && prior in states[k].root && prior in states[k].db.invitations && states[k].root[prior] == states[k].root[id]
            && states[k].db.invitations[prior].boundEmail == states[k].db.invitations[id].boundEmail
  {
    RunInv(states, events, k);
    assert RowOk(states[k], id);
    assert RowOk(states[k], states[k].db.invitations[id].predecessor.value);
  }

  /** Along a chain of replacements at most one invitation is live, at any time. */
  lemma OneLivePerChain(states: seq<System>, events: seq<Event>, k: nat, i: InvitationId, j: InvitationId, now: Time)
    requires IsRun(states, events) && Initial(states[0]) && k < |states|
    requires i in states[k].db.invitations && j in states[k].db.invitations && i in states[k].root && j in states[k].root
    requires states[k].root[i] == states[k].root[j] && Live(states[k].db.invitations[i], now) && Live(states[k].db.invitations[j], now)
    ensures i == j
  {
    RunInv(states, events, k);
    assert i != j ==> PairOk(states[k], i, j);
  }

  /** The accounts created through any invitation of a chain. */
  function ChainAccounts(s: System, root: InvitationId): set<AccountId> {
    set a | a in s.db.uses && s.db.uses[a] in s.root && s.root[s.db.uses[a]] == root
  }

  /** The uses of all invitations in the chain of a bound e-mail address sum to at most one: it admits one account at most. */
  lemma OneAccountPerBoundChain(states: seq<System>, events: seq<Event>, k: nat, root: InvitationId)
    requires IsRun(states, events) && Initial(states[0]) && k < |states|
    requires root in states[k].db.invitations && states[k].db.invitations[root].boundEmail.Some?
    ensures |ChainAccounts(states[k], root)| <= 1
  {
    var s := states[k];
    RunInv(states, events, k);
    forall a, b | a in ChainAccounts(s, root) && b in ChainAccounts(s, root)
      ensures a == b
    {
      SameAccount(s, root, a, b);
    }
    AtMostOne(ChainAccounts(s, root));
  }

  lemma SameAccount(s: System, root: InvitationId, a: AccountId, b: AccountId)
    requires Inv(s) && root in s.db.invitations && s.db.invitations[root].boundEmail.Some?
    requires a in ChainAccounts(s, root) && b in ChainAccounts(s, root)
    ensures a == b
  {
    var i, j := s.db.uses[a], s.db.uses[b];
    assert RowOk(s, i) && RowOk(s, j);
    assert a in CreatedThrough(s.db, i) && b in CreatedThrough(s.db, j);
    assert |CreatedThrough(s.db, i)| > 0 && |CreatedThrough(s.db, j)| > 0;
    if i == j {
      OneElement(CreatedThrough(s.db, i), a, b);
    }
    assert i != j ==> PairOk(s, i, j);
  }

  lemma OneElement(s: set<AccountId>, a: AccountId, b: AccountId)
    requires |s| <= 1 && a in s && b in s
    ensures a == b
  {
    assert |s - {a}| == |s| - 1;
  }

  lemma AtMostOne(s: set<AccountId>)
    requires forall a, b :: a in s && b in s ==> a == b
    ensures |s| <= 1
  {
    if s != {} {
      var a :| a in s;
      assert s == {a};
    }
  }

  // ----------------------------------------------------------------- service

  class InvitationService {
    var invitations: map<InvitationId, Invitation>
    var uses: map<AccountId, InvitationId>
    var logins: set<string>
    var byInvitation: bool

    constructor ()
      ensures Valid() && Rows() == Db(map[], map[], {}, false)
    {
      invitations, uses, logins, byInvitation := map[], map[], {}, false;
    }

    ghost function Rows(): Db
      reads this
    {
      Db(invitations, uses, logins, byInvitation)
    }

    ghost predicate Valid()
      reads this
    {
      TokensUnique(Rows())
    }

    /** The call did what `Step` says, or left every row alone and raised its error. */
    ghost predicate Performs(before: Db, e: Event, now: Time, error: Option<InvitationError>)
      reads this
    {
      match Step(before, e, now)
      case Ok(rows) => error == None && Rows() == rows
      case Err(raised) => error == Some(raised) && Rows() == before
    }

    method SetRegistrationPolicy(e: Event, now: Time) returns (error: Option<InvitationError>)
      requires Valid() && e.SetPolicy?
      modifies this`byInvitation
      ensures Valid() && Performs(old(Rows()), e, now, error)
    {
      if !e.admin {
        return Some(AdminRequired);
      }
      TokensStep(Rows(), e, now);
      byInvitation := e.byInvitation;
      return None;
    }

    method Create(e: Event, now: Time) returns (error: Option<InvitationError>)
      requires Valid() && e.Create? && NewRow(Rows(), e)
      modifies this
      ensures Valid() && Performs(old(Rows()), e, now, error)
    {
      if !e.admin {
        return Some(AdminRequired);
      }
      if !byInvitation {
        return Some(RegistrationClosed);
      }
      if e.maxUses < 1 || e.maxUses > 1000 || e.expiresAt <= now || e.expiresAt > now + LONGEST {
        return Some(InvitationInvalid);
      }
      if (e.boundEmail.Some? && e.maxUses != 1) || (e.send && e.boundEmail.None?) {
        return Some(InvitationInvalid);
      }
      if e.send && !e.delivery {
        return Some(DeliveryUnavailable);
      }
      TokensStep(Rows(), e, now);
      invitations := invitations[e.newId := Invitation(e.token, e.maxUses, 0, e.boundEmail, e.expiresAt, None, None)];
      return None;
    }

    /** The use is counted first; when the account cannot be created the transaction takes it back. */
    method Accept(e: Event, now: Time) returns (error: Option<InvitationError>)
      requires Valid() && e.Accept? && e.account !in uses
      modifies this
      ensures Valid() && Performs(old(Rows()), e, now, error)
    {
      ghost var before := Rows();
      if !byInvitation {
        return Some(InvitationInvalid);
      }
      if !exists id :: id in invitations && invitations[id].token == e.token {
        assert forall id :: !HasToken(before, id, e.token);
        return Some(InvitationInvalid);
      }
      var id :| id in invitations && invitations[id].token == e.token;
      FoundToken(before, id, e.token);
      var invitation := invitations[id];
      if !Live(invitation, now) || (invitation.boundEmail.Some? && e.email != invitation.boundEmail) {
        return Some(InvitationInvalid);
      }
      if Step(before, e, now).Ok? {
        TokensStep(before, e, now);
      }
      invitations := invitations[id := invitation.(useCount := invitation.useCount + 1)];
      if e.login in logins || e.fails {
        invitations := invitations[id := invitation];
        assert Rows() == before;
        return Some(if e.login in logins then AccountExists else Failed);
      }
      logins := logins + {e.login};
      uses := uses[e.account := id];
      return None;
    }

    method Revoke(e: Event, now: Time) returns (error: Option<InvitationError>)
      requires Valid() && e.Revoke?
      modifies this`invitations
      ensures Valid() && Performs(old(Rows()), e, now, error)
    {
      if !e.admin {
        return Some(AdminRequired);
      }
      if e.id !in invitations || invitations[e.id].revokedAt != None {
        return Some(NotFound);
      }
      TokensStep(Rows(), e, now);
      invitations := invitations[e.id := invitations[e.id].(revokedAt := Some(now))];
      return None;
    }

    method ReplaceAndSend(e: Event, now: Time) returns (error: Option<InvitationError>)
      requires Valid() && e.Replace? && NewRow(Rows(), e)
      modifies this`invitations
      ensures Valid() && Performs(old(Rows()), e, now, error)
    {
      if !e.admin {
        return Some(AdminRequired);
      }
      if !e.delivery {
        return Some(DeliveryUnavailable);
      }
      if e.id !in invitations {
        return Some(NotReplaceable);
      }
      var prior := invitations[e.id];
      if prior.revokedAt != None || prior.expiresAt <= now || prior.useCount >= prior.maxUses || prior.boundEmail == None {
        return Some(NotReplaceable);
      }
      TokensStep(Rows(), e, now);
      invitations := invitations[e.id := prior.(revokedAt := Some(now))];
      invitations := invitations[e.newId := Invitation(e.token, 1, 0, prior.boundEmail, prior.expiresAt, None, Some(e.id))];
      return None;
    }
  }
}
