# Credential selector of the service client

This project models `AuthenticationMethodFactory` from the IoT Hub service client. From a parsed connection string it
chooses the authentication method the client will use. It reads four fields: device id, shared-access key name,
shared-access key and shared-access signature. It returns one of four credentials:

- device + key
- device + token
- policy + key
- policy + token

When no rule fits it throws `InvalidOperationException`. The class also offers two factory methods that build the two
policy credentials directly, without any selection.

The model is made of pure functions over datatypes. Every field is an `Option<string>` because each can be null in the
source. The exception becomes `Failure(descriptor)`. A field counts as supplied when .NET's `string.IsNullOrWhiteSpace`
is false for it. That test is written out in `dotnet_string.dfy`: a scan over code units, using the white-space set of
`Char.IsWhiteSpace`. That module also proves the scan equal to its "every code unit is white space" reading.

These quirks of the source are kept exactly as written:

- At device scope the key wins over the signature.
- At policy scope the variant is chosen by the secret that is ABSENT. So a policy-token credential is built even when
  the signature is null or blank.
- A device id with no secret falls through to the policy rules.
- Fields are copied raw, with no trimming.

## Model

| member | source | states |
|---|---|---|
| AuthenticationMethodFactory.GetAuthenticationMethod | common/src/service/AuthenticationMethodFactory.cs:14-37 | Fails exactly when no device id is supplied and both the key and the signature are; the failure carries the descriptor. A device credential comes only from a supplied device id and holds it raw. A key credential comes only from a supplied key. A token credential comes only when the key is absent and holds the raw signature, supplied or not. A policy key requires an absent device id and an absent signature. |
| AuthenticationMethodFactory.CreateAuthenticationWithSharedAccessPolicyKey | common/src/service/AuthenticationMethodFactory.cs:45-48 | Never fails; gives the policy-key variant holding exactly the policy name and key passed in |
| AuthenticationMethodFactory.CreateAuthenticationWithSharedAccessPolicyToken | common/src/service/AuthenticationMethodFactory.cs:56-59 | Never fails; gives the policy-token variant holding exactly the policy name and token passed in |
| AuthenticationMethodFactory.DeviceKeyWins | common/src/service/AuthenticationMethodFactory.cs:16-21 | Device id and key supplied: device+key(device id, key), whatever the signature is |
| AuthenticationMethodFactory.DeviceTokenWithoutKey | common/src/service/AuthenticationMethodFactory.cs:16-25 | Device id and signature supplied, key absent: device+token(device id, signature) |
| AuthenticationMethodFactory.PolicyTokenWithoutKey | common/src/service/AuthenticationMethodFactory.cs:27-30 | Key absent and the device-token rule not fired: policy+token(key name, signature). This holds with a null or blank signature, and with a device id that has no secret. |
| AuthenticationMethodFactory.PolicyKeyWithoutSignature | common/src/service/AuthenticationMethodFactory.cs:31-34 | No device id, key supplied, signature absent: policy+key(key name, key) |
| AuthenticationMethodFactory.DeviceIdNeverFails | common/src/service/AuthenticationMethodFactory.cs:16-36 | A supplied device id is never rejected |
| AuthenticationMethodFactory.SelectionFollowsCaseTable | common/src/service/AuthenticationMethodFactory.cs:16-36 | On every descriptor, the chosen variant (or the rejection) equals an independent eight-row truth table over "device id / key / signature supplied". The key name is never consulted. |
| AuthenticationMethodFactory.BlankSelectsLikeNull | common/src/service/AuthenticationMethodFactory.cs:16-31 | Replacing null by a whitespace-only string in any of the four fields never changes the chosen variant or the rejection |
| AuthenticationMethodFactory.DirectConstructorsAgreeWithSelector | common/src/service/AuthenticationMethodFactory.cs:27-59 | The direct constructors build what the selector builds for a device-less descriptor. For the key constructor, that descriptor has the key and no signature. For the token constructor, it has the signature and no key. |
| AuthenticationMethodFactory.ConcreteScenarios | common/src/service/AuthenticationMethodFactory.cs:14-37 | The selector's result on six concrete descriptors. These include the rejected policy key+signature pair and a device id whose only secret is blank. |
| DotNetString.AllWhiteSpaceIffEveryChar | common/src/service/AuthenticationMethodFactory.cs:16 | The `IsNullOrWhiteSpace` scan of a non-null string holds exactly when every code unit is white space |
| DotNetString.PresentIffVisibleChar | common/src/service/AuthenticationMethodFactory.cs:18 | A field passes the presence test exactly when it is non-null and has a code unit that is not white space |
| DotNetString.BlankIsAbsent | common/src/service/AuthenticationMethodFactory.cs:27 | A whitespace-only string fails the presence test, just as null does |

## Left out

- Connection-string parsing (`IotHubConnectionStringBuilder`) is not part of this model. Its output is the
  `Descriptor` record of four optional strings. Its host name and other properties are not read by the selector.
- The exception message, which `FormatInvariant` builds from the builder's `ToString`, is not modelled. The failure
  carries the descriptor value itself.
- The four `ServiceAuthenticationWith*` classes and `IAuthenticationMethod` are not part of this model. Any validation
  in their constructors, their builder population and their token generation are left out. Here they are plain
  datatype constructors.
- Token signing, key handling and any network or session use of a credential are left out. They are cryptography
  and I/O outside this class.
- `string.IsNullOrWhiteSpace` and `Char.IsWhiteSpace` belong to the .NET runtime, not to this repository. The model
  writes out the runtime's documented white-space set for one UTF-16 code unit. A Dafny `char` is a Unicode scalar
  value; every white-space character is in the Basic Multilingual Plane, so the two agree on the presence test.
