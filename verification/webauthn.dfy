/** The state the passkey service keeps around the WebAuthn library: the in-memory
    challenge store with its two expiry windows, the credential rows and the
    per-user `passkey_enabled` flag, the naming of new passkeys, and the counter
    fallback. The library's option generation and signature checks are inputs. */
module WebAuthn {
  import opened Optional

  /** Registration challenges live five minutes, authentication challenges one. */
  const RegistrationWindow: int := 300000
  const AuthenticationWindow: int := 60000

  const ChallengeMissing: string := "Challenge not found or expired"
  const ChallengeExpired: string := "Challenge expired"

  /** Registration entries are keyed by the numeric `staff_id`, authentication
      entries by the string `auth_<userId>`; a JavaScript `Map` keeps the two apart. */
  datatype Key = StaffKey(staffId: int) | AuthKey(userId: string)

  datatype Challenge = Challenge(challenge: string, staffId: Option<int>, timestamp: int)

  type ChallengeStore = map<Key, Challenge>

  /** `b` agrees with `a` on every key but `key`. */
  ghost predicate SameElsewhere(a: ChallengeStore, b: ChallengeStore, key: Key) {
    forall k :: k != key ==> (k in a <==> k in b) && (k in a ==> a[k] == b[k])
  }

  // ---------------------------------------------------------------------------
  // Issuing challenges

  datatype User = User(staffId: Option<int>, userId: string, fullName: string)

  /** `generateRegistrationOptions`: a user with a `staff_id` gets a fresh entry
      under that id, replacing any earlier one. */
  function BeginRegistration(store: ChallengeStore, user: Option<User>, challenge: string, now: int)
    : (r: Result<ChallengeStore>)
    ensures r.Err? <==> user.None? || !TruthyInt(user.value.staffId)
    ensures r.Ok? ==> var key := StaffKey(user.value.staffId.value);
                      && key in r.value && r.value[key] == Challenge(challenge, None, now)
                      && SameElsewhere(store, r.value, key)
  {
    if user.None? || !TruthyInt(user.value.staffId) then Err("Invalid user object: staff_id is required")
    else Ok(store[StaffKey(user.value.staffId.value) := Challenge(challenge, None, now)])
  }

  /** `generateAuthenticationOptions`: `account` is the active staff row found for
      the login name and `credentials` the number of passkeys it has. */
  function BeginAuthentication(store: ChallengeStore, userId: string, account: Option<int>, credentials: nat,
                               challenge: string, now: int): (r: Result<ChallengeStore>)
    ensures account.None? ==> r == Err("User not found")
    ensures account.Some? && credentials == 0 ==> r == Err("No passkeys registered for this user")
    ensures r.Ok? <==> account.Some? && credentials > 0
    ensures r.Ok? ==> && AuthKey(userId) in r.value
                      && r.value[AuthKey(userId)] == Challenge(challenge, account, now)
                      && SameElsewhere(store, r.value, AuthKey(userId))
  {
    if account.None? then Err("User not found")
    else if credentials == 0 then Err("No passkeys registered for this user")
    else Ok(store[AuthKey(userId) := Challenge(challenge, account, now)])
  }

  /** Issuing one kind of challenge never disturbs the other kind. */
  lemma AuthenticationKeepsRegistrations(store: ChallengeStore, userId: string, account: Option<int>,
                                         credentials: nat, challenge: string, now: int, staffId: int)
    requires BeginAuthentication(store, userId, account, credentials, challenge, now).Ok?
    ensures var s := BeginAuthentication(store, userId, account, credentials, challenge, now).value;
            (StaffKey(staffId) in s <==> StaffKey(staffId) in store)
            && (StaffKey(staffId) in store ==> s[StaffKey(staffId)] == store[StaffKey(staffId)])
  {
  }

  // ---------------------------------------------------------------------------
  // Redeeming challenges

  datatype Lookup = Missing | Stale | Fresh(entry: Challenge)

  /** The checks both verifications start with: the entry must exist, and must be no
      older than the window (an entry exactly `window` old still counts). */
  function LookUp(store: ChallengeStore, key: Key, now: int, window: int): (r: Lookup)
    ensures r == Missing <==> key !in store
    ensures r == Stale <==> key in store && now - store[key].timestamp > window
    ensures r.Fresh? ==> key in store && r.entry == store[key] && now - r.entry.timestamp <= window
  {
    if key !in store then Missing
    else if now - store[key].timestamp > window then Stale
    else Fresh(store[key])
  }

  /** What the WebAuthn library answers: it throws, reports the response
      unverified, or verifies it and hands back `T`. */
  datatype Verification<T> = Threw(message: string) | NotVerified | Verified(info: T)

  datatype CredentialInfo = CredentialInfo(id: Option<seq<int>>, publicKey: Option<seq<int>>, counter: Option<int>)

  /** `registrationInfo` in either of the library's two shapes. */
  datatype RegistrationInfo = RegistrationInfo(
    credentialID: Option<seq<int>>,
    credentialPublicKey: Option<seq<int>>,
    counter: Option<int>,
    credential: Option<CredentialInfo>)

  datatype StoredCredential = StoredCredential(
    credentialId: seq<int>, staffId: int, publicKey: seq<int>, counter: int,
    deviceName: string, transports: seq<string>)

  /** The two tables the service writes: passkeys and the staff flag. */
  datatype Db = Db(credentials: seq<StoredCredential>, passkeyEnabled: map<int, bool>)

  /** `counter ?? credential?.counter ?? 0`. */
  function StoredCounter(info: RegistrationInfo): (r: int)
    ensures info.counter.Some? ==> r == info.counter.value
    ensures info.counter.None? && info.credential.Some? && info.credential.value.counter.Some? ==>
              r == info.credential.value.counter.value
    ensures info.counter.None? && (info.credential.None? || info.credential.value.counter.None?) ==> r == 0
  {
    if info.counter.Some? then info.counter.value
    else if info.credential.Some? then info.credential.value.counter.GetOr(0)
    else 0
  }

  /** `credentialID || credential?.id`; a byte buffer is truthy even when empty. */
  function CredentialId(info: RegistrationInfo): Option<seq<int>> {
    if info.credentialID.Some? then info.credentialID
    else if info.credential.Some? then info.credential.value.id
    else None
  }

  function CredentialKey(info: RegistrationInfo): Option<seq<int>> {
    if info.credentialPublicKey.Some? then info.credentialPublicKey
    else if info.credential.Some? then info.credential.value.publicKey
    else None
  }

  /** `generateDeviceName`: the first of internal, usb, nfc, ble that is listed. */
  function GenerateDeviceName(transports: Option<seq<string>>): (r: string)
    ensures var t := transports.GetOr([]);
            && (r == "This Device" <==> "internal" in t)
            && (r == "Security Key (USB)" <==> "internal" !in t && "usb" in t)
            && (r == "Security Key (NFC)" <==> "internal" !in t && "usb" !in t && "nfc" in t)
            && (r == "Security Key (Bluetooth)" <==> "internal" !in t && "usb" !in t && "nfc" !in t && "ble" in t)
            && (r == "Unknown Device" <==> "internal" !in t && "usb" !in t && "nfc" !in t && "ble" !in t)
  {
    var t := transports.GetOr([]);
    if "internal" in t then "This Device"
    else if "usb" in t then "Security Key (USB)"
    else if "nfc" in t then "Security Key (NFC)"
    else if "ble" in t then "Security Key (Bluetooth)"
    else "Unknown Device"
  }

  /** The name depends only on which transports are listed, not on their order or
      repetition. */
  lemma DeviceNameIgnoresOrder(t1: seq<string>, t2: seq<string>)
    requires (set x | x in t1) == (set x | x in t2)
    ensures GenerateDeviceName(Some(t1)) == GenerateDeviceName(Some(t2))
  {
    SameMembers(t1, t2, "internal");
    SameMembers(t1, t2, "usb");
    SameMembers(t1, t2, "nfc");
    SameMembers(t1, t2, "ble");
  }

  lemma SameMembers(t1: seq<string>, t2: seq<string>, x: string)
    requires (set y | y in t1) == (set y | y in t2)
    ensures x in t1 <==> x in t2
  {
    var s1, s2 := set y | y in t1, set y | y in t2;
    assert x in t1 <==> x in s1;
    assert x in t2 <==> x in s2;
  }

  datatype Registered = Registered(credentialId: seq<int>, deviceName: string)

  /** The outcome of `verifyRegistration` with the store and tables it leaves. */
  datatype RegistrationStep = RegistrationStep(outcome: Result<Registered>, store: ChallengeStore, db: Db)

  /** `verifyRegistration(staffId, response, deviceName)`: `transports` is
      `response.response.transports` and `verification` the library's verdict. */
  function VerifyRegistration(store: ChallengeStore, db: Db, staffId: int, transports: Option<seq<string>>,
                              deviceName: Option<string>, verification: Verification<RegistrationInfo>, now: int)
    : (r: RegistrationStep)
    ensures StaffKey(staffId) !in store ==> r == RegistrationStep(Err(ChallengeMissing), store, db)
    ensures StaffKey(staffId) in store ==> StaffKey(staffId) !in r.store && SameElsewhere(store, r.store, StaffKey(staffId))
    ensures LookUp(store, StaffKey(staffId), now, RegistrationWindow) == Stale ==> r.outcome == Err(ChallengeExpired)
    ensures r.outcome.Ok? ==>
              && LookUp(store, StaffKey(staffId), now, RegistrationWindow).Fresh?
              && verification.Verified?
              && CredentialId(verification.info) == Some(r.outcome.value.credentialId)
              && CredentialKey(verification.info).Some?
              && r.outcome.value.deviceName == OrString(deviceName, GenerateDeviceName(transports))
              && r.db.credentials == db.credentials + [StoredCredential(
                   r.outcome.value.credentialId, staffId, CredentialKey(verification.info).value,
                   StoredCounter(verification.info), r.outcome.value.deviceName, transports.GetOr([]))]
              && r.db.passkeyEnabled == db.passkeyEnabled[staffId := true]
    ensures r.outcome.Err? ==> r.db == db
  {
    var key := StaffKey(staffId);
    match LookUp(store, key, now, RegistrationWindow)
    case Missing => RegistrationStep(Err(ChallengeMissing), store, db)
    case Stale => RegistrationStep(Err(ChallengeExpired), store - {key}, db)
    case Fresh(_) =>
      match verification
      case Threw(message) => RegistrationStep(Err(message), store - {key}, db)
      case NotVerified => RegistrationStep(Err("Registration verification failed"), store - {key}, db)
      case Verified(info) =>
        var id := CredentialId(info);
        var publicKey := CredentialKey(info);
        if id.None? || publicKey.None? then
          RegistrationStep(Err("Invalid credential data received"), store - {key}, db)
        else
          var name := OrString(deviceName, GenerateDeviceName(transports));
          var row := StoredCredential(id.value, staffId, publicKey.value, StoredCounter(info), name,
                                      transports.GetOr([]));
          RegistrationStep(Ok(Registered(id.value, name)),
                           store - {key},
                           Db(db.credentials + [row], db.passkeyEnabled[staffId := true]))
  }

  /** A registration challenge can be redeemed at most once: whatever the first
      attempt's outcome, a second one finds no challenge. */
  lemma RegistrationChallengeSingleUse(store: ChallengeStore, db: Db, staffId: int,
                                       transports: Option<seq<string>>, deviceName: Option<string>,
                                       v1: Verification<RegistrationInfo>, v2: Verification<RegistrationInfo>,
                                       now1: int, now2: int)
    ensures var first := VerifyRegistration(store, db, staffId, transports, deviceName, v1, now1);
            VerifyRegistration(first.store, first.db, staffId, transports, deviceName, v2, now2).outcome
              == Err(ChallengeMissing)
  {
  }

  /** A challenge issued at `t` is honoured at every `now` up to `t + 300000` and
      refused after. */
  lemma RegistrationWindowExact(store: ChallengeStore, user: User, challenge: string, t: int, now: int,
                                db: Db, transports: Option<seq<string>>, deviceName: Option<string>,
                                v: Verification<RegistrationInfo>)
    requires TruthyInt(user.staffId)
    ensures var s := BeginRegistration(store, Some(user), challenge, t).value;
            var step := VerifyRegistration(s, db, user.staffId.value, transports, deviceName, v, now);
            (now - t > 300000 ==> step.outcome == Err(ChallengeExpired))
            && ((now - t <= 300000 && v.Verified? && CredentialId(v.info).Some? && CredentialKey(v.info).Some?)
                  ==> step.outcome.Ok?)
  {
  }

  datatype CredentialRow = CredentialRow(credentialId: seq<int>, staffId: int, counter: int)

  datatype AuthenticationStep = AuthenticationStep(outcome: Result<CredentialRow>, store: ChallengeStore, db: Db)

  /** Sets the counter of every passkey with the given id. */
  function SetCounter(rows: seq<StoredCredential>, credentialId: seq<int>, counter: int)
    : (r: seq<StoredCredential>)
    ensures |r| == |rows|
    ensures forall i :: 0 <= i < |rows| ==>
              r[i] == if rows[i].credentialId == credentialId then rows[i].(counter := counter) else rows[i]
  {
    if rows == [] then []
    else
      [if rows[0].credentialId == credentialId then rows[0].(counter := counter) else rows[0]]
        + SetCounter(rows[1..], credentialId, counter)
  }

  /** `verifyAuthentication(userId, response)`: `credential` is the active staff
      member's passkey row found for `response.id`, and a verified response carries
      the new counter. The user returned is the passkey's owner. */
  function VerifyAuthentication(store: ChallengeStore, db: Db, userId: string, credential: Option<CredentialRow>,
                                verification: Verification<int>, now: int): (r: AuthenticationStep)
    ensures AuthKey(userId) !in store ==> r == AuthenticationStep(Err(ChallengeMissing), store, db)
    ensures AuthKey(userId) in store ==> AuthKey(userId) !in r.store && SameElsewhere(store, r.store, AuthKey(userId))
    ensures LookUp(store, AuthKey(userId), now, AuthenticationWindow) == Stale ==> r.outcome == Err(ChallengeExpired)
    ensures r.outcome.Ok? ==>
              && LookUp(store, AuthKey(userId), now, AuthenticationWindow).Fresh?
              && credential == Some(r.outcome.value) && verification.Verified?
              && r.db == db.(credentials := SetCounter(db.credentials, r.outcome.value.credentialId, verification.info))
    ensures r.outcome.Err? ==> r.db == db
  {
    var key := AuthKey(userId);
    match LookUp(store, key, now, AuthenticationWindow)
    case Missing => AuthenticationStep(Err(ChallengeMissing), store, db)
    case Stale => AuthenticationStep(Err(ChallengeExpired), store - {key}, db)
    case Fresh(_) =>
      if credential.None? then AuthenticationStep(Err("Credential not found"), store - {key}, db)
      else
        match verification
        case Threw(message) => AuthenticationStep(Err(message), store - {key}, db)
        case NotVerified => AuthenticationStep(Err("Authentication verification failed"), store - {key}, db)
        case Verified(newCounter) =>
          AuthenticationStep(Ok(credential.value), store - {key},
                             db.(credentials := SetCounter(db.credentials, credential.value.credentialId, newCounter)))
  }

  /** An authentication challenge can be redeemed at most once. */
  lemma AuthenticationChallengeSingleUse(store: ChallengeStore, db: Db, userId: string,
                                         c1: Option<CredentialRow>, c2: Option<CredentialRow>,
                                         v1: Verification<int>, v2: Verification<int>, now1: int, now2: int)
    ensures var first := VerifyAuthentication(store, db, userId, c1, v1, now1);
            VerifyAuthentication(first.store, first.db, userId, c2, v2, now2).outcome == Err(ChallengeMissing)
  {
  }

  // ---------------------------------------------------------------------------
  // Removing passkeys

  predicate Owned(row: StoredCredential, credentialId: seq<int>, staffId: int) {
    row.credentialId == credentialId && row.staffId == staffId
  }

  /** The rows the `DELETE` keeps, in their order. */
  function Without(rows: seq<StoredCredential>, credentialId: seq<int>, staffId: int): (r: seq<StoredCredential>)
    ensures |r| <= |rows|
    ensures forall x :: x in r <==> x in rows && !Owned(x, credentialId, staffId)
    ensures |r| == |rows| <==> forall i :: 0 <= i < |rows| ==> !Owned(rows[i], credentialId, staffId)
  {
    if rows == [] then []
    else if Owned(rows[0], credentialId, staffId) then Without(rows[1..], credentialId, staffId)
    else [rows[0]] + Without(rows[1..], credentialId, staffId)
  }

  /** Whether `staffId` still owns a passkey. */
  predicate HasCredential(rows: seq<StoredCredential>, staffId: int) {
    exists i :: 0 <= i < |rows| && rows[i].staffId == staffId
  }

  /** `deleteCredential(credentialId, staffId)`: true iff a row was removed; the
      user's flag is cleared once they own no passkey, even when nothing was
      removed. */
  function DeleteCredential(db: Db, credentialId: seq<int>, staffId: int): (r: (bool, Db))
    ensures r.0 <==> exists i :: 0 <= i < |db.credentials| && Owned(db.credentials[i], credentialId, staffId)
    ensures forall x :: x in r.1.credentials <==> x in db.credentials && !Owned(x, credentialId, staffId)
    ensures !HasCredential(r.1.credentials, staffId) ==> r.1.passkeyEnabled == db.passkeyEnabled[staffId := false]
    ensures HasCredential(r.1.credentials, staffId) ==> r.1.passkeyEnabled == db.passkeyEnabled
  {
    var rows := Without(db.credentials, credentialId, staffId);
    var flags := if HasCredential(rows, staffId) then db.passkeyEnabled else db.passkeyEnabled[staffId := false];
    (|rows| < |db.credentials|, Db(rows, flags))
  }

  /** Registering then deleting the new passkey turns the flag off exactly when the
      user had no other passkey. */
  lemma RegisterThenDelete(db: Db, row: StoredCredential)
    requires forall i :: 0 <= i < |db.credentials| ==> !Owned(db.credentials[i], row.credentialId, row.staffId)
    requires !HasCredential(db.credentials, row.staffId)
    ensures var d := DeleteCredential(Db(db.credentials + [row], db.passkeyEnabled[row.staffId := true]),
                                       row.credentialId, row.staffId);
            d.0 && d.1.credentials == db.credentials && d.1.passkeyEnabled[row.staffId] == false
  {
    var rows := db.credentials + [row];
    assert Owned(rows[|rows| - 1], row.credentialId, row.staffId);
    WithoutLast(db.credentials, row);
  }

  lemma {:induction false} WithoutLast(rows: seq<StoredCredential>, row: StoredCredential)
    requires forall i :: 0 <= i < |rows| ==> !Owned(rows[i], row.credentialId, row.staffId)
    ensures Without(rows + [row], row.credentialId, row.staffId) == rows
  {
    if rows == [] {
      assert [] + [row] == [row];
    } else {
      assert (rows + [row])[1..] == rows[1..] + [row];
      WithoutLast(rows[1..], row);
      assert [rows[0]] + rows[1..] == rows;
    }
  }
}
