/**
 * Accounts, devices, refresh tokens and one-time tickets: the rows, and what
 * each database transaction of the authentication services does to them.
 * A transaction that throws leaves the rows as they were (None, Invalid).
 */
module AuthRows {
  import opened Common

  type AccountId = nat
  type DeviceId = nat
  type RequestId = nat
  /** A random bearer secret: refresh token, pairing token or device code. */
  type Secret = nat
  /** Argon2 verification succeeds exactly for the password that was hashed. */
  type Password = nat
  /** Milliseconds. */
  type Time = int

  /** A one-way hash without collisions. */
  datatype Hash = HashOf(secret: Secret)

  const DAY: int := 24 * 60 * 60 * 1000
  const PAIRING_LIFETIME: int := 5 * 60 * 1000
  const AUTHORIZATION_LIFETIME: int := 5 * 60 * 1000
  const ACCESS_TOKEN_SECONDS: int := 900

  datatype Account = Account(password: Password, credentialEpoch: nat, suspendedAt: Option<Time>, disabledAt: Option<Time>)

  datatype Device = Device(accountId: AccountId, revokedAt: Option<Time>)

  /** The claims of a signed access token; issue and expiry are in whole seconds. */
  datatype AccessToken = AccessToken(accountId: AccountId, deviceId: DeviceId, credentialEpoch: nat,
                                     instanceAuthEpoch: int, issuedAt: int, expiresAt: int)

  datatype Session = Session(accountId: AccountId, deviceId: DeviceId, accessToken: AccessToken,
                             refreshToken: Secret, accessTokenExpiresIn: int)

  /** Authenticated encryption: opens to the session exactly under the token row and request it was sealed for. */
  datatype Sealed = Sealed(session: Session, token: Hash, request: RequestId)

  datatype Rotation = Rotation(request: RequestId, response: Sealed, responseExpiresAt: Time)

  datatype Token = Token(
    accountId: AccountId, deviceId: DeviceId, expiresAt: Time,
    issuedInstanceAuthEpoch: Option<int>, issuedAt: Option<Time>,
    rotatedAt: Option<Time>, rotation: Option<Rotation>, revokedAt: Option<Time>)

  datatype Pairing = Pairing(accountId: AccountId, credentialEpoch: Option<nat>, instanceAuthEpoch: Option<int>,
                             issuedAt: Option<Time>, expiresAt: Time, consumedAt: Option<Time>)

  datatype CodeStatus = Pending | Approved | Denied

  datatype Code = Code(deviceId: DeviceId, status: CodeStatus, accountId: Option<AccountId>,
                       credentialEpoch: Option<nat>, instanceAuthEpoch: Option<int>, issuedAt: Option<Time>,
                       expiresAt: Time, consumedAt: Option<Time>)

  datatype Instance = Instance(epoch: int, tokenNotBefore: Time, enforced: bool)

  type Tokens = map<Hash, Token>

  datatype Db = Db(accounts: map<AccountId, Account>, devices: map<DeviceId, Device>, tokens: Tokens,
                   pairings: map<Hash, Pairing>, codes: map<Hash, Code>, instance: Instance)

  predicate Active(account: Account) {
    account.suspendedAt == None && account.disabledAt == None
  }

  predicate ActiveAccount(db: Db, id: AccountId) {
    id in db.accounts && Active(db.accounts[id])
  }

  predicate OwnedDevice(db: Db, id: DeviceId, account: AccountId) {
    id in db.devices && db.devices[id].accountId == account && db.devices[id].revokedAt == None
  }

  /** The epoch the caller proved its credentials under, when it proved any, is still the account's. */
  predicate EpochExpected(db: Db, id: AccountId, expected: Option<nat>)
    requires id in db.accounts
  {
    expected == None || expected == Some(db.accounts[id].credentialEpoch)
  }

  predicate InstanceAccepts(instance: Instance, epoch: Option<int>, issuedAt: Option<Time>) {
    !instance.enforced || (epoch == Some(instance.epoch) && issuedAt.Some? && issuedAt.value >= instance.tokenNotBefore)
  }

  function FloorSeconds(at: Time): int {
    at / 1000
  }

  function NewAccessToken(db: Db, account: AccountId, device: DeviceId, now: Time): AccessToken
    requires account in db.accounts
  {
    AccessToken(account, device, db.accounts[account].credentialEpoch, db.instance.epoch,
                FloorSeconds(now), FloorSeconds(now) + ACCESS_TOKEN_SECONDS)
  }

  function NewToken(db: Db, account: AccountId, device: DeviceId, now: Time): Token {
    Token(account, device, now + 30 * DAY, Some(db.instance.epoch), Some(now), None, None, None)
  }

  // ---------------------------------------------------------------- sessions

  /** `where` of the revoking updates: an absent filter matches every row. */
  predicate Matches(token: Token, account: Option<AccountId>, device: Option<DeviceId>, liveOnly: bool) {
    && (account == None || account == Some(token.accountId))
    && (device == None || device == Some(token.deviceId))
    && (liveOnly ==> token.revokedAt == None)
  }

  function RevokeTokens(tokens: Tokens, account: Option<AccountId>, device: Option<DeviceId>, liveOnly: bool, now: Time): Tokens {
    map h | h in tokens :: if Matches(tokens[h], account, device, liveOnly) then tokens[h].(revokedAt := Some(now)) else tokens[h]
  }

  function RevokeDevices(devices: map<DeviceId, Device>, account: AccountId, liveOnly: bool, now: Time): map<DeviceId, Device> {
    map d | d in devices ::
      if devices[d].accountId == account && (liveOnly ==> devices[d].revokedAt == None)
      then devices[d].(revokedAt := Some(now)) else devices[d]
  }

  /** First transaction of a sign-in: the device row is created, or reclaimed by its own account. */
  function UpsertDevice(db: Db, account: AccountId, device: DeviceId, expected: Option<nat>): Option<Db> {
    if !ActiveAccount(db, account) || !EpochExpected(db, account, expected) then None
    else if device in db.devices && db.devices[device].accountId != account then None
    else Some(db.(devices := db.devices[device := Device(account, None)]))
  }

  predicate MayIssue(db: Db, account: AccountId, device: DeviceId, expected: Option<nat>) {
    ActiveAccount(db, account) && EpochExpected(db, account, expected) && OwnedDevice(db, device, account)
  }

  /** Second transaction of a sign-in. */
  function IssueSession(db: Db, account: AccountId, device: DeviceId, expected: Option<nat>, secret: Secret, now: Time): (Db, Option<Session>) {
    if !MayIssue(db, account, device, expected) then (db, None)
    else
      var revoked := RevokeTokens(db.tokens, Some(account), Some(device), true, now);
      (db.(tokens := revoked[HashOf(secret) := NewToken(db, account, device, now)]),
       Some(Session(account, device, NewAccessToken(db, account, device, now), secret, ACCESS_TOKEN_SECONDS)))
  }

  function RegisterAccount(db: Db, account: AccountId, device: DeviceId, password: Password): Option<Db> {
    if account in db.accounts || device in db.devices then None
    else Some(db.(accounts := db.accounts[account := Account(password, 0, None, None)],
                  devices := db.devices[device := Device(account, None)]))
  }

  // ----------------------------------------------------------------- refresh

  datatype RefreshResult = Invalid | Reused | Granted(session: Session)

  /** The row the join finds for this secret on this device. */
  predicate Stored(db: Db, secret: Secret, device: DeviceId) {
    && HashOf(secret) in db.tokens
    && db.tokens[HashOf(secret)].deviceId == device && device in db.devices
    && db.tokens[HashOf(secret)].accountId in db.accounts
  }

  predicate Refreshable(db: Db, secret: Secret, device: DeviceId, now: Time) {
    && Stored(db, secret, device)
    && var token := db.tokens[HashOf(secret)];
       && token.revokedAt == None && db.devices[device].revokedAt == None
       && Active(db.accounts[token.accountId]) && token.expiresAt > now
       && InstanceAccepts(db.instance, token.issuedInstanceAuthEpoch, token.issuedAt)
  }

  function OpenRecovery(response: Sealed, token: Hash, request: RequestId): Option<Session> {
    if response.token == token && response.request == request then Some(response.session) else None
  }

  function ParseCachedSession(cached: Session, account: AccountId, device: DeviceId): Option<Session> {
    if cached.accountId == account && cached.deviceId == device && 0 < cached.accessTokenExpiresIn <= 900
    then Some(cached) else None
  }

  /** The cached answer of a rotation, for the request that caused it. */
  function Recovered(token: Token, hash: Hash, request: Option<RequestId>, now: Time): Option<Session> {
    if request.Some? && token.rotation.Some? && token.rotation.value.request == request.value
       && token.rotation.value.responseExpiresAt > now then
      var cached := OpenRecovery(token.rotation.value.response, hash, request.value);
      if cached.Some? then ParseCachedSession(cached.value, token.accountId, token.deviceId) else None
    else None
  }

  function Refresh(db: Db, secret: Secret, device: DeviceId, request: Option<RequestId>, newSecret: Secret, now: Time): (Db, RefreshResult) {
    if !Refreshable(db, secret, device, now) then (db, Invalid)
    else
      var hash := HashOf(secret);
      var token := db.tokens[hash];
      if token.rotatedAt.Some? then
        var recovered := Recovered(token, hash, request, now);
        if recovered.Some? then (db, Granted(recovered.value))
        else
          (db.(devices := db.devices[device := db.devices[device].(revokedAt := Some(now))],
               tokens := RevokeTokens(db.tokens, None, Some(device), false, now)), Reused)
      else
        var session := Session(token.accountId, device, NewAccessToken(db, token.accountId, device, now), newSecret, ACCESS_TOKEN_SECONDS);
        var rotated := token.(rotatedAt := Some(now),
          rotation := if request.Some? then Some(Rotation(request.value, Sealed(session, hash, request.value), token.expiresAt)) else token.rotation);
        (db.(tokens := db.tokens[hash := rotated][HashOf(newSecret) := NewToken(db, token.accountId, device, now)]), Granted(session))
  }

  function Logout(db: Db, secret: Secret, device: DeviceId, now: Time): Db {
    var hash := HashOf(secret);
    if hash in db.tokens && db.tokens[hash].deviceId == device
    then db.(tokens := db.tokens[hash := db.tokens[hash].(revokedAt := Some(now))]) else db
  }

  /** Whether an access token is accepted for a request. */
  predicate AssertDeviceActive(db: Db, access: AccessToken) {
    && ActiveAccount(db, access.accountId)
    && OwnedDevice(db, access.deviceId, access.accountId)
    && db.accounts[access.accountId].credentialEpoch == access.credentialEpoch
    && (!db.instance.enforced || (access.instanceAuthEpoch == db.instance.epoch && access.issuedAt >= FloorSeconds(db.instance.tokenNotBefore)))
  }

  // --------------------------------------------------- passwords and removal

  function NextEpoch(db: Db, account: AccountId, password: Password): Db
    requires account in db.accounts
  {
    db.(accounts := db.accounts[account := db.accounts[account].(password := password,
                                                                 credentialEpoch := db.accounts[account].credentialEpoch + 1)])
  }

  function DropUnconsumedPairings(pairings: map<Hash, Pairing>, account: AccountId): map<Hash, Pairing> {
    map h | h in pairings && !(pairings[h].accountId == account && pairings[h].consumedAt == None) :: pairings[h]
  }

  /** Rolled back when the device the change came from is no longer active. */
  function ChangePassword(db: Db, account: AccountId, device: DeviceId, password: Password, now: Time): Option<Db> {
    if account !in db.accounts || !OwnedDevice(db, device, account) then None
    else Some(NextEpoch(db, account, password).(
      tokens := RevokeTokens(db.tokens, Some(account), None, false, now),
      pairings := DropUnconsumedPairings(db.pairings, account)))
  }

  function ChangeWebPassword(db: Db, account: AccountId, password: Password, now: Time): Db {
    if account !in db.accounts then db
    else NextEpoch(db, account, password).(
      devices := RevokeDevices(db.devices, account, true, now),
      tokens := RevokeTokens(db.tokens, Some(account), None, true, now),
      pairings := DropUnconsumedPairings(db.pairings, account))
  }

  function RevokeDevice(db: Db, account: AccountId, device: DeviceId, now: Time): Db {
    db.(devices := if OwnedDevice(db, device, account) then db.devices[device := db.devices[device].(revokedAt := Some(now))] else db.devices,
        tokens := RevokeTokens(db.tokens, Some(account), Some(device), false, now))
  }

  function SetSuspended(db: Db, account: AccountId, suspended: bool, now: Time): Db {
    if account !in db.accounts then db
    else
      var changed := db.(accounts := db.accounts[account := db.accounts[account].(suspendedAt := if suspended then Some(now) else None)]);
      if suspended
      then changed.(devices := RevokeDevices(db.devices, account, true, now), tokens := RevokeTokens(db.tokens, Some(account), None, true, now))
      else changed
  }

  function DisableAccount(db: Db, account: AccountId, now: Time): Db {
    if account !in db.accounts then db
    else db.(accounts := db.accounts[account := db.accounts[account].(disabledAt := Some(now))],
             devices := RevokeDevices(db.devices, account, false, now),
             tokens := RevokeTokens(db.tokens, Some(account), None, false, now))
  }

  // ------------------------------------------------------------------ tickets

  function CreatePairing(db: Db, account: AccountId, secret: Secret, now: Time): Option<Db> {
    if !ActiveAccount(db, account) then None
    else
      var kept := map h | h in db.pairings
        && !(db.pairings[h].accountId == account
             && (db.pairings[h].expiresAt < now || (db.pairings[h].consumedAt.Some? && db.pairings[h].consumedAt.value < now)))
        :: db.pairings[h];
      Some(db.(pairings := kept[HashOf(secret) :=
        Pairing(account, Some(db.accounts[account].credentialEpoch), Some(db.instance.epoch), Some(now), now + PAIRING_LIFETIME, None)]))
  }

  function CancelPairing(db: Db, hash: Hash, account: AccountId): Option<Db> {
    if hash in db.pairings && db.pairings[hash].accountId == account && db.pairings[hash].consumedAt == None
    then Some(db.(pairings := db.pairings - {hash})) else None
  }

  predicate PairingUsable(db: Db, hash: Hash, now: Time) {
    hash in db.pairings && db.pairings[hash].expiresAt > now && db.pairings[hash].consumedAt == None
  }

  function ConsumePairing(db: Db, hash: Hash, now: Time): Db
    requires PairingUsable(db, hash, now)
  {
    db.(pairings := db.pairings[hash := db.pairings[hash].(consumedAt := Some(now))])
  }

  predicate PairingHeld(db: Db, hash: Hash, consumedAt: Time) {
    hash in db.pairings && db.pairings[hash].consumedAt == Some(consumedAt)
  }

  /** An exchange that may not go on removes the pairing it consumed. */
  function DropPairing(db: Db, hash: Hash, consumedAt: Time): Db {
    if PairingHeld(db, hash, consumedAt) then db.(pairings := db.pairings - {hash}) else db
  }

  /** A failed exchange gives back the pairing it consumed. */
  function ReleasePairing(db: Db, hash: Hash, consumedAt: Time): Db {
    if PairingHeld(db, hash, consumedAt)
    then db.(pairings := db.pairings[hash := db.pairings[hash].(consumedAt := None)]) else db
  }

  function CreateCode(db: Db, device: DeviceId, secret: Secret, now: Time): Db {
    db.(codes := db.codes[HashOf(secret) := Code(device, Pending, None, None, None, None, now + AUTHORIZATION_LIFETIME, None)])
  }

  predicate CodePending(db: Db, hash: Hash, now: Time) {
    hash in db.codes && db.codes[hash].status == Pending && db.codes[hash].expiresAt > now && db.codes[hash].consumedAt == None
  }

  /** Repeating an approval already made by the same account changes nothing and succeeds. */
  function ApproveCode(db: Db, hash: Hash, account: AccountId, now: Time): Option<Db> {
    if !ActiveAccount(db, account) then None
    else if CodePending(db, hash, now) then
      Some(db.(codes := db.codes[hash := db.codes[hash].(accountId := Some(account), status := Approved,
        credentialEpoch := Some(db.accounts[account].credentialEpoch), instanceAuthEpoch := Some(db.instance.epoch), issuedAt := Some(now))]))
    else if hash in db.codes && db.codes[hash].accountId == Some(account) && db.codes[hash].status == Approved && db.codes[hash].expiresAt > now
    then Some(db)
    else None
  }

  function DenyCode(db: Db, hash: Hash, now: Time): Option<Db> {
    if CodePending(db, hash, now) then Some(db.(codes := db.codes[hash := db.codes[hash].(status := Denied)])) else None
  }

  /** Cancelling by device code does not look at the expiry. */
  function CancelCode(db: Db, hash: Hash): Db {
    if hash in db.codes && db.codes[hash].status == Pending && db.codes[hash].consumedAt == None
    then db.(codes := db.codes[hash := db.codes[hash].(status := Denied)]) else db
  }

  predicate CodeUsable(db: Db, hash: Hash, now: Time) {
    hash in db.codes && db.codes[hash].status == Approved && db.codes[hash].expiresAt > now && db.codes[hash].consumedAt == None
  }

  function ConsumeCode(db: Db, hash: Hash, now: Time): Db
    requires CodeUsable(db, hash, now)
  {
    db.(codes := db.codes[hash := db.codes[hash].(consumedAt := Some(now))])
  }

  predicate CodeHeld(db: Db, hash: Hash, consumedAt: Time) {
    hash in db.codes && db.codes[hash].consumedAt == Some(consumedAt)
  }

  /** An exchange that may not go on denies the code it consumed. */
  function DropCode(db: Db, hash: Hash, consumedAt: Time): Db {
    if CodeHeld(db, hash, consumedAt) then db.(codes := db.codes[hash := db.codes[hash].(status := Denied)]) else db
  }

  /** A failed exchange gives back the code it consumed. */
  function ReleaseCode(db: Db, hash: Hash, consumedAt: Time): Db {
    if CodeHeld(db, hash, consumedAt)
    then db.(codes := db.codes[hash := db.codes[hash].(consumedAt := None)]) else db
  }

  /** Maintenance removes tickets past their expiry. */
  function Reap(db: Db, now: Time): Db {
    db.(pairings := map h | h in db.pairings && db.pairings[h].expiresAt >= now :: db.pairings[h],
        codes := map h | h in db.codes && db.codes[h].expiresAt >= now :: db.codes[h])
  }
}
