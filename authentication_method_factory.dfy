/**
 * The credential selector of the service client: from the parsed connection
 * string it chooses one of four shared-access credentials, or rejects the
 * combination of fields as unsupported.
 */
module AuthenticationMethodFactory {
  import opened Wrappers
  import opened DotNetString

  /** The four properties of the parsed connection string that the selector reads; each may be null. */
  datatype Descriptor = Descriptor(
    deviceId: Option<string>,
    sharedAccessKeyName: Option<string>,
    sharedAccessKey: Option<string>,
    sharedAccessSignature: Option<string>)

  /**
   * The four authentication methods. Each holds one identity (a device id or a
   * policy name) and one secret (a key or a signature token), copied as given.
   */
  datatype Credential =
    | DeviceKey(deviceId: Option<string>, key: Option<string>)          // ServiceAuthenticationWithDeviceSharedAccessPolicyKey
    | DeviceToken(deviceId: Option<string>, token: Option<string>)      // ServiceAuthenticationWithDeviceSharedAccessPolicyToken
    | PolicyKey(policyName: Option<string>, key: Option<string>)        // ServiceAuthenticationWithSharedAccessPolicyKey
    | PolicyToken(policyName: Option<string>, token: Option<string>)    // ServiceAuthenticationWithSharedAccessPolicyToken
  {
    predicate IsDeviceScoped()
    {
      DeviceKey? || DeviceToken?
    }

    predicate UsesKey()
    {
      DeviceKey? || PolicyKey?
    }
  }

  /**
   * Chooses the authentication method for a descriptor. The device rules come
   * first, key before signature; a device id without either secret falls
   * through to the policy rules, which pick the variant from the secret that
   * is ABSENT. A failure carries the descriptor, as the exception message does.
   */
  function GetAuthenticationMethod(d: Descriptor): (r: Result<Credential, Descriptor>)
    // the one rejected shape: policy scope with both secrets supplied
    ensures r.Failure? <==> !Present(d.deviceId) && Present(d.sharedAccessKey) && Present(d.sharedAccessSignature)
    ensures r.Failure? ==> r.error == d
    // a device credential only for a supplied device id, holding the raw id
    ensures r.Success? && r.value.IsDeviceScoped() ==> Present(d.deviceId) && r.value.deviceId == d.deviceId
    ensures r.Success? && !r.value.IsDeviceScoped() ==> r.value.policyName == d.sharedAccessKeyName
    // a key credential only for a supplied key; a token credential carries the raw signature, supplied or not
    ensures r.Success? && r.value.UsesKey() ==> Present(d.sharedAccessKey) && r.value.key == d.sharedAccessKey
    ensures r.Success? && !r.value.UsesKey() ==> !Present(d.sharedAccessKey) && r.value.token == d.sharedAccessSignature
    // a device token needs a supplied signature; a policy key needs an absent one
    ensures r.Success? && r.value.DeviceToken? ==> Present(d.sharedAccessSignature)
    ensures r.Success? && r.value.PolicyKey? ==> !Present(d.deviceId) && !Present(d.sharedAccessSignature)
  {
    if Present(d.deviceId) && Present(d.sharedAccessKey) then
      Success(DeviceKey(d.deviceId, d.sharedAccessKey))
    else if Present(d.deviceId) && Present(d.sharedAccessSignature) then
      Success(DeviceToken(d.deviceId, d.sharedAccessSignature))
    else if IsNullOrWhiteSpace(d.sharedAccessKey) then
      Success(PolicyToken(d.sharedAccessKeyName, d.sharedAccessSignature))
    else if IsNullOrWhiteSpace(d.sharedAccessSignature) then
      Success(PolicyKey(d.sharedAccessKeyName, d.sharedAccessKey))
    else
      Failure(d)
  }

  /** Builds a policy-key credential from exactly the arguments given, with no checks. */
  function CreateAuthenticationWithSharedAccessPolicyKey(policyName: Option<string>, key: Option<string>): (c: Credential)
    ensures c.PolicyKey? && c.policyName == policyName && c.key == key
  {
    PolicyKey(policyName, key)
  }

  /** Builds a policy-token credential from exactly the arguments given, with no checks. */
  function CreateAuthenticationWithSharedAccessPolicyToken(policyName: Option<string>, token: Option<string>): (c: Credential)
    ensures c.PolicyToken? && c.policyName == policyName && c.token == token
  {
    PolicyToken(policyName, token)
  }

  // ---------------------------------------------------------------------
  // The selection rules, one lemma per rule

  /** At device scope the key wins, whatever the signature holds. */
  lemma DeviceKeyWins(d: Descriptor)
    requires Present(d.deviceId) && Present(d.sharedAccessKey)
    ensures GetAuthenticationMethod(d) == Success(DeviceKey(d.deviceId, d.sharedAccessKey))
  {
  }

  /** At device scope without a key, a supplied signature gives a device token. */
  lemma DeviceTokenWithoutKey(d: Descriptor)
    requires Present(d.deviceId) && !Present(d.sharedAccessKey) && Present(d.sharedAccessSignature)
    ensures GetAuthenticationMethod(d) == Success(DeviceToken(d.deviceId, d.sharedAccessSignature))
  {
  }

  /**
   * Without a key, and unless the device-token rule fired, the result is a
   * policy token holding the raw signature, even when the signature is
   * itself null or blank and even when a device id was supplied.
   */
  lemma PolicyTokenWithoutKey(d: Descriptor)
    requires !Present(d.sharedAccessKey) && !(Present(d.deviceId) && Present(d.sharedAccessSignature))
    ensures GetAuthenticationMethod(d) == Success(PolicyToken(d.sharedAccessKeyName, d.sharedAccessSignature))
  {
  }

  /** At policy scope, a key with no signature gives a policy key. */
  lemma PolicyKeyWithoutSignature(d: Descriptor)
    requires !Present(d.deviceId) && Present(d.sharedAccessKey) && !Present(d.sharedAccessSignature)
    ensures GetAuthenticationMethod(d) == Success(PolicyKey(d.sharedAccessKeyName, d.sharedAccessKey))
  {
  }

  /** A supplied device id is never rejected. */
  lemma DeviceIdNeverFails(d: Descriptor)
    requires Present(d.deviceId)
    ensures GetAuthenticationMethod(d).Success?
  {
  }

  // ---------------------------------------------------------------------
  // An independent reference: the whole behaviour as a truth table

  /** Which of the four credentials was chosen, or that the descriptor was rejected. */
  datatype Kind = DeviceKeyKind | DeviceTokenKind | PolicyKeyKind | PolicyTokenKind | Unsupported

  function KindOf(r: Result<Credential, Descriptor>): Kind
  {
    match r
    case Failure(_) => Unsupported
    case Success(DeviceKey(_, _)) => DeviceKeyKind
    case Success(DeviceToken(_, _)) => DeviceTokenKind
    case Success(PolicyKey(_, _)) => PolicyKeyKind
    case Success(PolicyToken(_, _)) => PolicyTokenKind
  }

  /** The expected choice for each combination of supplied device id, key and signature. */
  function CaseTable(device: bool, key: bool, signature: bool): Kind
  {
    match (device, key, signature)
    case (true, true, _) => DeviceKeyKind
    case (true, false, true) => DeviceTokenKind
    case (true, false, false) => PolicyTokenKind
    case (false, false, _) => PolicyTokenKind
    case (false, true, false) => PolicyKeyKind
    case (false, true, true) => Unsupported
  }

  /** The selector follows the table on every descriptor; the policy name is never consulted. */
  lemma SelectionFollowsCaseTable(d: Descriptor)
    ensures KindOf(GetAuthenticationMethod(d))
         == CaseTable(Present(d.deviceId), Present(d.sharedAccessKey), Present(d.sharedAccessSignature))
  {
  }

  // ---------------------------------------------------------------------
  // Null and blank are interchangeable

  datatype Field = DeviceIdField | KeyNameField | KeyField | SignatureField

  function WithField(d: Descriptor, f: Field, v: Option<string>): (d': Descriptor)
  {
    match f
    case DeviceIdField => d.(deviceId := v)
    case KeyNameField => d.(sharedAccessKeyName := v)
    case KeyField => d.(sharedAccessKey := v)
    case SignatureField => d.(sharedAccessSignature := v)
  }

  /**
   * Replacing null by a whitespace-only string in any field never changes
   * which credential is chosen, nor whether the descriptor is rejected.
   */
  lemma BlankSelectsLikeNull(d: Descriptor, f: Field, s: string)
    requires forall i :: 0 <= i < |s| ==> IsWhiteSpace(s[i])
    ensures KindOf(GetAuthenticationMethod(WithField(d, f, Some(s))))
         == KindOf(GetAuthenticationMethod(WithField(d, f, None)))
  {
    BlankIsAbsent(s);
    SelectionFollowsCaseTable(WithField(d, f, Some(s)));
    SelectionFollowsCaseTable(WithField(d, f, None));
  }

  // ---------------------------------------------------------------------
  // The direct constructors against the selector

  /**
   * Each direct constructor builds what the selector builds from a policy
   * descriptor holding only that secret.
   */
  lemma DirectConstructorsAgreeWithSelector(policyName: Option<string>, key: Option<string>, token: Option<string>)
    ensures Present(key) ==>
      GetAuthenticationMethod(Descriptor(None, policyName, key, None))
        == Success(CreateAuthenticationWithSharedAccessPolicyKey(policyName, key))
    ensures GetAuthenticationMethod(Descriptor(None, policyName, None, token))
        == Success(CreateAuthenticationWithSharedAccessPolicyToken(policyName, token))
  {
  }

  // ---------------------------------------------------------------------
  // Concrete descriptors

  lemma ConcreteScenarios()
    ensures GetAuthenticationMethod(Descriptor(Some("dev1"), None, Some("K1"), None))
         == Success(DeviceKey(Some("dev1"), Some("K1")))
    ensures GetAuthenticationMethod(Descriptor(Some("dev1"), None, None, Some("SIG1")))
         == Success(DeviceToken(Some("dev1"), Some("SIG1")))
    ensures GetAuthenticationMethod(Descriptor(None, Some("pol1"), Some("K2"), None))
         == Success(PolicyKey(Some("pol1"), Some("K2")))
    ensures GetAuthenticationMethod(Descriptor(None, Some("pol1"), None, Some("SIG2")))
         == Success(PolicyToken(Some("pol1"), Some("SIG2")))
    ensures GetAuthenticationMethod(Descriptor(None, Some("pol1"), Some("K2"), Some("SIG2"))).Failure?
    // a device id with only blank secrets falls through to a policy token with the blank signature
    ensures GetAuthenticationMethod(Descriptor(Some("dev1"), Some("pol1"), None, Some(" \t")))
         == Success(PolicyToken(Some("pol1"), Some(" \t")))
  {
  }
}
