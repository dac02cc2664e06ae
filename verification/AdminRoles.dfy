/**
 * Suspending, promoting, demoting and deleting accounts. Every transaction that
 * can take an administrator away holds the same advisory lock, so they run one
 * after the other, whatever the callers checked before.
 */
module AdminRoles {
  import opened Common

  type AccountId = nat
  type Time = int

  datatype Account = Account(isAdmin: bool, suspendedAt: Option<Time>, disabledAt: Option<Time>)

  type Accounts = map<AccountId, Account>

  datatype RoleError =
    | AdminRequired | SelfDisableForbidden | AccountNotFound | PendingDeletion | LastAdminDisable | SelfDemoteForbidden
    | LastAdminDemote | LastAdminDelete

  predicate IsActiveAdmin(a: Account) {
    a.isAdmin && a.suspendedAt == None && a.disabledAt == None
  }

  predicate HasActiveAdmin(accounts: Accounts) {
    exists id :: id in accounts && IsActiveAdmin(accounts[id])
  }

  predicate HasOtherAdmin(accounts: Accounts, ids: set<AccountId>) {
    exists id :: id in accounts && id !in ids && IsActiveAdmin(accounts[id])
  }

  datatype Event =
    | Register(newId: AccountId)
    | SetSuspended(actor: AccountId, ids: set<AccountId>, suspended: bool)
    | SetAdmin(actor: AccountId, target: AccountId, isAdmin: bool)
    | RequestDeletion(account: AccountId)
    | Purge(account: AccountId)

  /** What the update alone would do. */
  function Effect(accounts: Accounts, e: Event, now: Time): Accounts {
    match e
    case Register(newId) => accounts[newId := Account(false, None, None)]
    case SetSuspended(_, ids, suspended) =>
      map id | id in accounts :: if id in ids then accounts[id].(suspendedAt := if suspended then Some(now) else None) else accounts[id]
    case SetAdmin(_, target, isAdmin) => if target in accounts then accounts[target := accounts[target].(isAdmin := isAdmin)] else accounts
    case RequestDeletion(account) => if account in accounts then accounts[account := accounts[account].(disabledAt := Some(now))] else accounts
    case Purge(account) => if account in accounts && accounts[account].disabledAt.Some? then accounts - {account} else accounts
  }

  /** What the transaction refuses before it updates anything. */
  function Refusal(accounts: Accounts, e: Event): Option<RoleError> {
    match e
    case SetSuspended(actor, ids, suspended) =>
      if actor in ids then Some(SelfDisableForbidden)
      else if !(ids <= accounts.Keys) then Some(AccountNotFound)
      else if exists id :: id in ids && accounts[id].disabledAt.Some? then Some(PendingDeletion)
      else if suspended && (exists id :: id in ids && accounts[id].isAdmin) && !HasOtherAdmin(accounts, ids) then Some(LastAdminDisable)
      else None
    case SetAdmin(actor, target, isAdmin) =>
      if actor == target && !isAdmin then Some(SelfDemoteForbidden)
      else if target !in accounts then Some(AccountNotFound)
      else if accounts[target].disabledAt.Some? then Some(PendingDeletion)
      else if !isAdmin && accounts[target].isAdmin && !HasOtherAdmin(accounts, {target}) then Some(LastAdminDemote)
      else None
    case RequestDeletion(account) =>
      if account in accounts && accounts[account].isAdmin && !HasOtherAdmin(accounts, {account}) then Some(LastAdminDelete) else None
    case _ => None
  }

  predicate IsLastAdminRefusal(r: Option<RoleError>) {
    r == Some(LastAdminDisable) || r == Some(LastAdminDemote) || r == Some(LastAdminDelete)
  }

  /** Ids of new accounts are new. Nothing is asked of the actor: it may have lost its role since it was checked. */
  predicate Enabled(accounts: Accounts, e: Event) {
    e.Register? ==> e.newId !in accounts
  }

  function Apply(accounts: Accounts, e: Event, now: Time): Accounts {
    if Refusal(accounts, e).Some? then accounts else Effect(accounts, e, now)
  }

  ghost predicate IsRun(states: seq<Accounts>, events: seq<Event>, times: seq<Time>) {
    && |states| == |events| + 1 && |times| == |events|
    && forall i :: 0 <= i < |events| ==> Enabled(states[i], events[i]) && states[i + 1] == Apply(states[i], events[i], times[i])
  }

  /** What installation leaves behind: one account, its administrator. */
  predicate Installed(accounts: Accounts) {
    exists id :: id in accounts && accounts == map[id := Account(true, None, None)]
  }

  lemma OtherAdminStays(accounts: Accounts, e: Event, now: Time, ids: set<AccountId>)
    requires Enabled(accounts, e) && HasOtherAdmin(accounts, ids)
    requires match e
             case SetSuspended(_, batch, suspended) => batch == ids && suspended
             case SetAdmin(_, target, _) => ids == {target}
             case RequestDeletion(account) => ids == {account}
             case Register(_) => true
             case Purge(account) => ids == {account}
    ensures HasActiveAdmin(Effect(accounts, e, now))
  {
    var id :| id in accounts && id !in ids && IsActiveAdmin(accounts[id]);
    assert id in Effect(accounts, e, now) && IsActiveAdmin(Effect(accounts, e, now)[id]);
  }

  lemma AdminStep(accounts: Accounts, e: Event, now: Time)
    requires Enabled(accounts, e) && HasActiveAdmin(accounts)
    ensures HasActiveAdmin(Apply(accounts, e, now))
  {
    if Refusal(accounts, e) == None {
      var id :| id in accounts && IsActiveAdmin(accounts[id]);
      if id in Effect(accounts, e, now) && IsActiveAdmin(Effect(accounts, e, now)[id]) {
      } else if e.SetSuspended? {
        assert accounts[id].isAdmin;
        OtherAdminStays(accounts, e, now, e.ids);
      } else if e.SetAdmin? {
        OtherAdminStays(accounts, e, now, {e.target});
      } else if e.RequestDeletion? {
        OtherAdminStays(accounts, e, now, {e.account});
      }
    }
  }

  /** From installation onward every run keeps at least one active administrator, for any mixture of accounts in a batch. */
  lemma {:induction false} AlwaysAnAdministrator(states: seq<Accounts>, events: seq<Event>, times: seq<Time>, i: nat)
    requires IsRun(states, events, times) && Installed(states[0]) && i < |states|
    ensures HasActiveAdmin(states[i])
    decreases i
  {
    if i > 0 {
      AlwaysAnAdministrator(states, events, times, i - 1);
      AdminStep(states[i - 1], events[i - 1], times[i - 1]);
    } else {
      var id :| id in states[0] && states[0] == map[id := Account(true, None, None)];
      assert IsActiveAdmin(states[0][id]);
    }
  }

  /** The refusals are no stricter than needed: with an active administrator, an otherwise acceptable operation is refused exactly when it would leave none. */
  lemma RefusalsAreExact(accounts: Accounts, e: Event, now: Time)
    requires Enabled(accounts, e) && HasActiveAdmin(accounts)
    requires Refusal(accounts, e) == None || IsLastAdminRefusal(Refusal(accounts, e))
    ensures Refusal(accounts, e) == None <==> HasActiveAdmin(Effect(accounts, e, now))
  {
    if Refusal(accounts, e) == None {
      AdminStep(accounts, e, now);
    }
    if HasActiveAdmin(Effect(accounts, e, now)) {
      if e.SetSuspended? && e.suspended {
        OtherAdminLeft(accounts, e, now, e.ids);
      } else if e.SetAdmin? && !e.isAdmin {
        OtherAdminLeft(accounts, e, now, {e.target});
      } else if e.RequestDeletion? && e.account in accounts {
        OtherAdminLeft(accounts, e, now, {e.account});
      }
    }
  }

  lemma OtherAdminLeft(accounts: Accounts, e: Event, now: Time, ids: set<AccountId>)
    requires (e.SetSuspended? && e.suspended && ids == e.ids) || (e.SetAdmin? && !e.isAdmin && ids == {e.target}) || (e.RequestDeletion? && ids == {e.account})
    requires HasActiveAdmin(Effect(accounts, e, now))
    ensures HasOtherAdmin(accounts, ids)
  {
    var id :| id in Effect(accounts, e, now) && IsActiveAdmin(Effect(accounts, e, now)[id]);
    assert id in accounts && id !in ids && IsActiveAdmin(accounts[id]);
  }

  // ----------------------------------------------------------------- service

  class AccountService {
    var accounts: Accounts

    constructor (administrator: AccountId)
      ensures Installed(accounts)
    {
      accounts := map[administrator := Account(true, None, None)];
      assert administrator in map[administrator := Account(true, None, None)];
    }

    method BatchSetAccountsSuspended(actor: AccountId, accountIds: seq<AccountId>, suspended: bool, now: Time) returns (error: Option<RoleError>)
      modifies this
      ensures var e := SetSuspended(actor, (set k | k in accountIds), suspended);
              && accounts == (if error == None then Effect(old(accounts), e, now) else old(accounts))
              && error == (if !(actor in old(accounts) && IsActiveAdmin(old(accounts)[actor])) then Some(AdminRequired) else Refusal(old(accounts), e))
      ensures HasActiveAdmin(old(accounts)) ==> HasActiveAdmin(accounts)
    {
      var ids := set k | k in accountIds;
      ghost var e := SetSuspended(actor, ids, suspended);
      if HasActiveAdmin(accounts) {
        AdminStep(accounts, e, now);
      }
      if actor !in accounts || !IsActiveAdmin(accounts[actor]) {
        return Some(AdminRequired);
      }
      if actor in ids {
        return Some(SelfDisableForbidden);
      }
      var targets := set id | id in ids && id in accounts;
      Counted(targets, ids);
      if |targets| != |ids| {
        return Some(AccountNotFound);
      }
      if exists id :: id in targets && accounts[id].disabledAt.Some? {
        return Some(PendingDeletion);
      }
      if suspended && exists id :: id in targets && accounts[id].isAdmin {
        if !HasOtherAdmin(accounts, ids) {
          return Some(LastAdminDisable);
        }
      }
      accounts := map id | id in accounts :: if id in ids then accounts[id].(suspendedAt := if suspended then Some(now) else None) else accounts[id];
      return None;
    }

    method SetAccountAdmin(actor: AccountId, target: AccountId, isAdmin: bool) returns (error: Option<RoleError>)
      modifies this
      ensures var e := SetAdmin(actor, target, isAdmin);
              && accounts == (if error == None then Effect(old(accounts), e, 0) else old(accounts))
              && error == (if !(actor in old(accounts) && IsActiveAdmin(old(accounts)[actor])) then Some(AdminRequired) else Refusal(old(accounts), e))
      ensures HasActiveAdmin(old(accounts)) ==> HasActiveAdmin(accounts)
    {
      if HasActiveAdmin(accounts) {
        AdminStep(accounts, SetAdmin(actor, target, isAdmin), 0);
      }
      if actor !in accounts || !IsActiveAdmin(accounts[actor]) {
        return Some(AdminRequired);
      }
      if actor == target && !isAdmin {
        return Some(SelfDemoteForbidden);
      }
      if target !in accounts {
        return Some(AccountNotFound);
      }
      if accounts[target].disabledAt.Some? {
        return Some(PendingDeletion);
      }
      if !isAdmin && accounts[target].isAdmin && !HasOtherAdmin(accounts, {target}) {
        return Some(LastAdminDemote);
      }
      accounts := accounts[target := accounts[target].(isAdmin := isAdmin)];
      return None;
    }

    /** Behind the password check. */
    method RequestAccountDeletion(account: AccountId, now: Time) returns (error: Option<RoleError>)
      modifies this
      ensures accounts == (if error == None then Effect(old(accounts), RequestDeletion(account), now) else old(accounts))
      ensures error == Refusal(old(accounts), RequestDeletion(account))
      ensures HasActiveAdmin(old(accounts)) ==> HasActiveAdmin(accounts)
    {
      if HasActiveAdmin(accounts) {
        AdminStep(accounts, RequestDeletion(account), now);
      }
      if account in accounts {
        if accounts[account].isAdmin && !HasOtherAdmin(accounts, {account}) {
          return Some(LastAdminDelete);
        }
        accounts := accounts[account := accounts[account].(disabledAt := Some(now))];
      }
      return None;
    }
  }

  /** Counting the rows found tells whether every id has one. */
  lemma Counted(targets: set<AccountId>, ids: set<AccountId>)
    requires targets <= ids
    ensures |targets| == |ids| <==> targets == ids
  {
    assert |ids - targets| == |ids| - |targets|;
  }
}
