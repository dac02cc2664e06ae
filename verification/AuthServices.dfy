/**
 * The authentication, pairing and device-authorization services as objects that
 * update the shared rows in place, each transaction proved to do exactly what
 * `AuthRows` says. A method that returns an error from inside a transaction has
 * rolled it back.
 */
module AuthServices {
  import opened Common
  import opened AuthRows

  datatype AuthError =
    | CredentialsStale | DeviceConflict | DeviceRevoked
    | RefreshTokenInvalid | RefreshTokenReused
    | AccountNotFound | PairingNotPending | PairingExpired
    | AuthorizationNotPending | AuthorizationPending | AuthorizationDenied | AuthorizationExpired

  class Database {
    var accounts: map<AccountId, Account>
    var devices: map<DeviceId, Device>
    var tokens: Tokens
    var pairings: map<Hash, Pairing>
    var codes: map<Hash, Code>
    var instance: Instance

    constructor (instance: Instance)
      ensures Rows() == Db(map[], map[], map[], map[], map[], instance)
    {
      accounts, devices, tokens, pairings, codes := map[], map[], map[], map[], map[];
      this.instance := instance;
    }

    ghost function Rows(): Db
      reads this
    {
      Db(accounts, devices, tokens, pairings, codes, instance)
    }
  }

  class AuthService {
    const database: Database

    constructor (database: Database)
      ensures this.database == database
    {
      this.database := database;
    }

    /** First transaction of `createDeviceSession`. */
    method AdmitDevice(account: AccountId, device: DeviceId, expected: Option<nat>) returns (error: Option<AuthError>)
      modifies database
      ensures UpsertDevice(old(database.Rows()), account, device, expected) ==
              if error == None then Some(database.Rows()) else None
      ensures error.Some? ==> database.Rows() == old(database.Rows())
      ensures error == Some(DeviceConflict) ==> device in database.devices && database.devices[device].accountId != account
    {
      if account !in database.accounts || database.accounts[account].suspendedAt != None || database.accounts[account].disabledAt != None {
        return Some(CredentialsStale);
      }
      if expected != None && database.accounts[account].credentialEpoch != expected.value {
        return Some(CredentialsStale);
      }
      if device in database.devices && database.devices[device].accountId != account {
        return Some(DeviceConflict);
      }
      if device in database.devices {
        database.devices := database.devices[device := database.devices[device].(revokedAt := None)];
      } else {
        database.devices := database.devices[device := Device(account, None)];
      }
      return None;
    }

    /** `#issueSession`: the previous login of the device is revoked before the new token is stored. */
    method Issue(account: AccountId, device: DeviceId, expected: Option<nat>, newSecret: Secret, now: Time)
      returns (r: Result<Session, AuthError>)
      modifies database
      ensures var (rows, session) := IssueSession(old(database.Rows()), account, device, expected, newSecret, now);
              && database.Rows() == rows
              && r.Ok? == session.Some? && (r.Ok? ==> r.value == session.value)
    {
      if account !in database.accounts || database.accounts[account].suspendedAt != None || database.accounts[account].disabledAt != None {
        return Err(CredentialsStale);
      }
      var epoch := database.accounts[account].credentialEpoch;
      if expected != None && epoch != expected.value {
        return Err(CredentialsStale);
      }
      if device !in database.devices || database.devices[device].accountId != account || database.devices[device].revokedAt != None {
        return Err(DeviceRevoked);
      }
      database.tokens := map h | h in database.tokens ::
        if database.tokens[h].accountId == account && database.tokens[h].deviceId == device && database.tokens[h].revokedAt == None
        then database.tokens[h].(revokedAt := Some(now)) else database.tokens[h];
      database.tokens := database.tokens[HashOf(newSecret) :=
        Token(account, device, now + 30 * DAY, Some(database.instance.epoch), Some(now), None, None, None)];
      var access := AccessToken(account, device, epoch, database.instance.epoch, now / 1000, now / 1000 + ACCESS_TOKEN_SECONDS);
      return Ok(Session(account, device, access, newSecret, ACCESS_TOKEN_SECONDS));
    }

    /** Both transactions of a sign-in that nobody interleaves with; a failed second one leaves the first committed. */
    method CreateDeviceSession(account: AccountId, device: DeviceId, expected: Option<nat>, newSecret: Secret, now: Time)
      returns (r: Result<Session, AuthError>)
      modifies database
      ensures var admitted := UpsertDevice(old(database.Rows()), account, device, expected);
              if admitted == None then r.Err? && database.Rows() == old(database.Rows())
              else r.Ok? && database.Rows() == IssueSession(admitted.value, account, device, expected, newSecret, now).0
                   && Some(r.value) == IssueSession(admitted.value, account, device, expected, newSecret, now).1
    {
      var error := AdmitDevice(account, device, expected);
      if error.Some? {
        return Err(error.value);
      }
      r := Issue(account, device, expected, newSecret, now);
    }

    /** One transaction; a detected reuse is committed before the error is raised. */
    method RefreshToken(secret: Secret, device: DeviceId, request: Option<RequestId>, newSecret: Secret, now: Time)
      returns (r: Result<Session, AuthError>)
      modifies database
      ensures var (rows, result) := AuthRows.Refresh(old(database.Rows()), secret, device, request, newSecret, now);
              && database.Rows() == rows
              && r == match result { case Granted(session) => Ok(session) case Reused => Err(RefreshTokenReused) case Invalid => Err(RefreshTokenInvalid) }
    {
      var hash := HashOf(secret);
      if hash !in database.tokens || database.tokens[hash].deviceId != device || device !in database.devices
         || database.tokens[hash].accountId !in database.accounts {
        return Err(RefreshTokenInvalid);
      }
      var stored := database.tokens[hash];
      var account := database.accounts[stored.accountId];
      if stored.revokedAt != None || database.devices[device].revokedAt != None
         || account.suspendedAt != None || account.disabledAt != None || stored.expiresAt <= now {
        return Err(RefreshTokenInvalid);
      }
      if database.instance.enforced && (stored.issuedInstanceAuthEpoch != Some(database.instance.epoch)
                                        || stored.issuedAt == None || stored.issuedAt.value < database.instance.tokenNotBefore) {
        return Err(RefreshTokenInvalid);
      }
      if stored.rotatedAt != None {
        if request.Some? && stored.rotation.Some? && stored.rotation.value.request == request.value
           && stored.rotation.value.responseExpiresAt > now {
          var cached := OpenRecovery(stored.rotation.value.response, hash, request.value);
          if cached.Some? {
            var session := ParseCachedSession(cached.value, stored.accountId, stored.deviceId);
            if session.Some? {
              return Ok(session.value);
            }
          }
        }
        database.devices := database.devices[device := database.devices[device].(revokedAt := Some(now))];
        database.tokens := map h | h in database.tokens ::
          if database.tokens[h].deviceId == device then database.tokens[h].(revokedAt := Some(now)) else database.tokens[h];
        return Err(RefreshTokenReused);
      }
      var access := AccessToken(stored.accountId, device, account.credentialEpoch, database.instance.epoch, now / 1000, now / 1000 + ACCESS_TOKEN_SECONDS);
      var session := Session(stored.accountId, device, access, newSecret, ACCESS_TOKEN_SECONDS);
      var rotated := stored.(rotatedAt := Some(now));
      if request.Some? {
        rotated := rotated.(rotation := Some(Rotation(request.value, Sealed(session, hash, request.value), stored.expiresAt)));
      }
      database.tokens := database.tokens[hash := rotated];
      database.tokens := database.tokens[HashOf(newSecret) :=
        Token(stored.accountId, device, now + 30 * DAY, Some(database.instance.epoch), Some(now), None, None, None)];
      return Ok(session);
    }

    method Logout(secret: Secret, device: DeviceId, now: Time)
      modifies database
      ensures database.Rows() == AuthRows.Logout(old(database.Rows()), secret, device, now)
    {
      var hash := HashOf(secret);
      if hash in database.tokens && database.tokens[hash].deviceId == device {
        database.tokens := database.tokens[hash := database.tokens[hash].(revokedAt := Some(now))];
      }
    }

    method IsDeviceActive(access: AccessToken) returns (active: bool)
      ensures active == AssertDeviceActive(database.Rows(), access)
    {
      if access.deviceId !in database.devices || access.accountId !in database.accounts {
        return false;
      }
      var device, account := database.devices[access.deviceId], database.accounts[access.accountId];
      if device.accountId != access.accountId || device.revokedAt != None || account.suspendedAt != None || account.disabledAt != None {
        return false;
      }
      if account.credentialEpoch != access.credentialEpoch {
        return false;
      }
      return !database.instance.enforced
          || (access.instanceAuthEpoch == database.instance.epoch && access.issuedAt >= database.instance.tokenNotBefore / 1000);
    }

    /** The committing transaction of a password change from a device; its session is re-issued by a second one. */
    method CommitPassword(account: AccountId, device: DeviceId, password: Password, now: Time) returns (error: Option<AuthError>)
      requires account in database.accounts
      modifies database
      ensures AuthRows.ChangePassword(old(database.Rows()), account, device, password, now) ==
              if error == None then Some(database.Rows()) else None
      ensures error.Some? ==> error == Some(DeviceRevoked) && database.Rows() == old(database.Rows())
    {
      var accounts, tokens, pairings := database.accounts, database.tokens, database.pairings;
      var row := accounts[account];
      database.accounts := accounts[account := row.(password := password, credentialEpoch := row.credentialEpoch + 1)];
      database.tokens := map h | h in tokens :: if tokens[h].accountId == account then tokens[h].(revokedAt := Some(now)) else tokens[h];
      database.pairings := DropUnconsumedPairings(pairings, account);
      if device !in database.devices || database.devices[device].accountId != account || database.devices[device].revokedAt != None {
        database.accounts, database.tokens, database.pairings := accounts, tokens, pairings;
        return Some(DeviceRevoked);
      }
      assert database.tokens == RevokeTokens(tokens, Some(account), None, false, now);
      return None;
    }

    method CommitWebPassword(account: AccountId, password: Password, now: Time)
      requires account in database.accounts
      modifies database
      ensures database.Rows() == AuthRows.ChangeWebPassword(old(database.Rows()), account, password, now)
    {
      var row, devices, tokens := database.accounts[account], database.devices, database.tokens;
      database.accounts := database.accounts[account := row.(password := password, credentialEpoch := row.credentialEpoch + 1)];
      database.devices := map d | d in devices ::
        if devices[d].accountId == account && devices[d].revokedAt == None then devices[d].(revokedAt := Some(now)) else devices[d];
      assert database.devices == RevokeDevices(devices, account, true, now);
      database.tokens := map h | h in tokens ::
        if tokens[h].accountId == account && tokens[h].revokedAt == None then tokens[h].(revokedAt := Some(now)) else tokens[h];
      assert database.tokens == RevokeTokens(tokens, Some(account), None, true, now);
      database.pairings := DropUnconsumedPairings(database.pairings, account);
    }

    method RevokeOwnDevice(account: AccountId, device: DeviceId, now: Time)
      modifies database
      ensures database.Rows() == AuthRows.RevokeDevice(old(database.Rows()), account, device, now)
    {
      if device in database.devices && database.devices[device].accountId == account && database.devices[device].revokedAt == None {
        database.devices := database.devices[device := database.devices[device].(revokedAt := Some(now))];
      }
      database.tokens := map h | h in database.tokens ::
        if database.tokens[h].deviceId == device && database.tokens[h].accountId == account
        then database.tokens[h].(revokedAt := Some(now)) else database.tokens[h];
    }
  }

  class DevicePairingService {
    const database: Database
    const auth: AuthService

    constructor (database: Database, auth: AuthService)
      requires auth.database == database
      ensures this.database == database && this.auth == auth
    {
      this.database, this.auth := database, auth;
    }

    method Create(account: AccountId, secret: Secret, now: Time) returns (error: Option<AuthError>)
      modifies database
      ensures CreatePairing(old(database.Rows()), account, secret, now) ==
              if error == None then Some(database.Rows()) else None
      ensures error.Some? ==> database.Rows() == old(database.Rows())
    {
      if account !in database.accounts || database.accounts[account].suspendedAt != None || database.accounts[account].disabledAt != None {
        return Some(AccountNotFound);
      }
      database.pairings := map h | h in database.pairings
        && !(database.pairings[h].accountId == account
             && (database.pairings[h].expiresAt < now
                 || (database.pairings[h].consumedAt.Some? && database.pairings[h].consumedAt.value < now)))
        :: database.pairings[h];
      database.pairings := database.pairings[HashOf(secret) :=
        Pairing(account, Some(database.accounts[account].credentialEpoch), Some(database.instance.epoch), Some(now), now + PAIRING_LIFETIME, None)];
      return None;
    }

    method Cancel(hash: Hash, account: AccountId) returns (error: Option<AuthError>)
      modifies database
      ensures CancelPairing(old(database.Rows()), hash, account) ==
              if error == None then Some(database.Rows()) else None
      ensures error.Some? ==> database.Rows() == old(database.Rows())
    {
      if hash !in database.pairings || database.pairings[hash].accountId != account || database.pairings[hash].consumedAt != None {
        return Some(PairingNotPending);
      }
      database.pairings := database.pairings - {hash};
      return None;
    }

    /**
     * Consume, act, compensate, with nobody in between: a pairing gives a session
     * and stays consumed, or is withdrawn as outdated, or is exactly as before.
     */
    method Exchange(secret: Secret, device: DeviceId, newSecret: Secret, now: Time) returns (r: Result<Session, AuthError>)
      requires auth.database == database
      modifies database
      ensures !PairingUsable(old(database.Rows()), HashOf(secret), now) ==> r == Err(PairingExpired) && database.Rows() == old(database.Rows())
      ensures PairingUsable(old(database.Rows()), HashOf(secret), now) ==>
                var before, pairing := old(database.Rows()), old(database.pairings)[HashOf(secret)];
                var admitted := UpsertDevice(ConsumePairing(before, HashOf(secret), now), pairing.accountId, device, pairing.credentialEpoch);
                if pairing.credentialEpoch == None || !InstanceAccepts(before.instance, pairing.instanceAuthEpoch, pairing.issuedAt)
                then r == Err(PairingExpired) && database.Rows() == before.(pairings := before.pairings - {HashOf(secret)})
                else if admitted == None
                then r.Err? && database.Rows() == before
                else r.Ok? && database.Rows() == IssueSession(admitted.value, pairing.accountId, device, pairing.credentialEpoch, newSecret, now).0
                     && r.value.accountId == pairing.accountId
    {
      var hash := HashOf(secret);
      if hash !in database.pairings || database.pairings[hash].expiresAt <= now || database.pairings[hash].consumedAt != None {
        return Err(PairingExpired);
      }
      database.pairings := database.pairings[hash := database.pairings[hash].(consumedAt := Some(now))];
      var pairing := database.pairings[hash];
      if pairing.credentialEpoch == None
         || (database.instance.enforced && (pairing.instanceAuthEpoch != Some(database.instance.epoch)
                                            || pairing.issuedAt == None || pairing.issuedAt.value < database.instance.tokenNotBefore)) {
        if hash in database.pairings && database.pairings[hash].consumedAt == Some(now) {
          database.pairings := database.pairings - {hash};
        }
        assert database.pairings == old(database.pairings) - {hash};
        return Err(PairingExpired);
      }
      r := auth.CreateDeviceSession(pairing.accountId, device, pairing.credentialEpoch, newSecret, now);
      if r.Err? {
        if hash in database.pairings && database.pairings[hash].consumedAt == Some(now) {
          database.pairings := database.pairings[hash := database.pairings[hash].(consumedAt := None)];
        }
        assert database.pairings == old(database.pairings);
      }
    }
  }

  class DeviceAuthorizationService {
    const database: Database
    const auth: AuthService

    constructor (database: Database, auth: AuthService)
      requires auth.database == database
      ensures this.database == database && this.auth == auth
    {
      this.database, this.auth := database, auth;
    }

    method Create(device: DeviceId, secret: Secret, now: Time)
      modifies database
      ensures database.Rows() == CreateCode(old(database.Rows()), device, secret, now)
    {
      database.codes := database.codes[HashOf(secret) :=
        Code(device, Pending, None, None, None, None, now + AUTHORIZATION_LIFETIME, None)];
    }

    method Approve(hash: Hash, account: AccountId, now: Time) returns (error: Option<AuthError>)
      modifies database
      ensures ApproveCode(old(database.Rows()), hash, account, now) ==
              if error == None then Some(database.Rows()) else None
      ensures error.Some? ==> database.Rows() == old(database.Rows())
    {
      if account !in database.accounts || database.accounts[account].suspendedAt != None || database.accounts[account].disabledAt != None {
        return Some(AuthorizationNotPending);
      }
      if hash in database.codes && database.codes[hash].status == Pending
         && database.codes[hash].expiresAt > now && database.codes[hash].consumedAt == None {
        database.codes := database.codes[hash := database.codes[hash].(
          accountId := Some(account), status := Approved, credentialEpoch := Some(database.accounts[account].credentialEpoch),
          instanceAuthEpoch := Some(database.instance.epoch), issuedAt := Some(now))];
        return None;
      }
      if hash in database.codes && database.codes[hash].accountId == Some(account)
         && database.codes[hash].status == Approved && database.codes[hash].expiresAt > now {
        return None;
      }
      return Some(AuthorizationNotPending);
    }

    method Deny(hash: Hash, now: Time) returns (error: Option<AuthError>)
      modifies database
      ensures DenyCode(old(database.Rows()), hash, now) ==
              if error == None then Some(database.Rows()) else None
      ensures error.Some? ==> database.Rows() == old(database.Rows())
    {
      if hash !in database.codes || database.codes[hash].status != Pending
         || database.codes[hash].expiresAt <= now || database.codes[hash].consumedAt != None {
        return Some(AuthorizationNotPending);
      }
      database.codes := database.codes[hash := database.codes[hash].(status := Denied)];
      return None;
    }

    method Cancel(secret: Secret)
      modifies database
      ensures database.Rows() == CancelCode(old(database.Rows()), HashOf(secret))
    {
      var hash := HashOf(secret);
      if hash in database.codes && database.codes[hash].status == Pending && database.codes[hash].consumedAt == None {
        database.codes := database.codes[hash := database.codes[hash].(status := Denied)];
      }
    }

    /** Consume, act, compensate: as for pairings, but an outdated code is denied instead of removed. */
    method Exchange(secret: Secret, newSecret: Secret, now: Time) returns (r: Result<Session, AuthError>)
      requires auth.database == database
      requires HashOf(secret) in database.codes && database.codes[HashOf(secret)].status == Approved ==>
                 database.codes[HashOf(secret)].accountId.Some?
      modifies database
      ensures !CodeUsable(old(database.Rows()), HashOf(secret), now) ==>
                && database.Rows() == old(database.Rows())
                && r == Err(if HashOf(secret) !in old(database.codes) then AuthorizationExpired
                            else if old(database.codes)[HashOf(secret)].status == Pending && old(database.codes)[HashOf(secret)].expiresAt > now then AuthorizationPending
                            else if old(database.codes)[HashOf(secret)].status == Denied then AuthorizationDenied
                            else AuthorizationExpired)
      ensures CodeUsable(old(database.Rows()), HashOf(secret), now) ==>
                var before, code := old(database.Rows()), old(database.codes)[HashOf(secret)];
                var consumed := ConsumeCode(before, HashOf(secret), now);
                var admitted := UpsertDevice(consumed, code.accountId.value, code.deviceId, code.credentialEpoch);
                if code.credentialEpoch == None || !InstanceAccepts(before.instance, code.instanceAuthEpoch, code.issuedAt)
                then r == Err(AuthorizationExpired) && database.Rows() == DropCode(consumed, HashOf(secret), now)
                else if admitted == None
                then r.Err? && database.Rows() == before
                else r.Ok? && database.Rows() == IssueSession(admitted.value, code.accountId.value, code.deviceId, code.credentialEpoch, newSecret, now).0
                     && r.value.accountId == code.accountId.value && r.value.deviceId == code.deviceId
    {
      var hash := HashOf(secret);
      if hash !in database.codes {
        return Err(AuthorizationExpired);
      }
      var code := database.codes[hash];
      if code.status != Approved || code.expiresAt <= now || code.consumedAt != None {
        if code.status == Pending && code.expiresAt > now {
          return Err(AuthorizationPending);
        }
        if code.status == Denied {
          return Err(AuthorizationDenied);
        }
        return Err(AuthorizationExpired);
      }
      database.codes := database.codes[hash := code.(consumedAt := Some(now))];
      if code.credentialEpoch == None
         || (database.instance.enforced && (code.instanceAuthEpoch != Some(database.instance.epoch)
                                            || code.issuedAt == None || code.issuedAt.value < database.instance.tokenNotBefore)) {
        if hash in database.codes && database.codes[hash].consumedAt == Some(now) {
          database.codes := database.codes[hash := database.codes[hash].(status := Denied)];
        }
        return Err(AuthorizationExpired);
      }
      r := auth.CreateDeviceSession(code.accountId.value, code.deviceId, code.credentialEpoch, newSecret, now);
      if r.Err? {
        if hash in database.codes && database.codes[hash].consumedAt == Some(now) {
          database.codes := database.codes[hash := database.codes[hash].(consumedAt := None)];
        }
        assert database.codes == old(database.codes);
      }
    }
  }
}
