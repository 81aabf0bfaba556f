# OpenID adapter of HybridAuth, modelled in Dafny

This project models the OpenID 2.0 adapter of HybridAuth (`src/Adapter/OpenID.php`). It has two parts.

The first part is the session state machine. It covers `initialize`, `authenticate`, `isAuthorized`, `disconnect`, `authenticateBegin`, `authenticateFinish` and `getUserProfile`. Its only state is the storage slot `providerId . '.user'`. Whether that slot is truthy is the "connected" flag.

The second part is profile normalisation. `fetchUserProfile`, `fetchUserGender` and `fetchUserDisplayName` turn the attributes a provider released into a user profile with a fixed set of fields.

Files and modules:

- `wrappers.dfy` (`Wrappers`): `Option` and `Result`.
- `php_strings.dfy` (`PhpStrings`): the PHP built-ins the adapter relies on.
  - `Truthy` is the boolean value PHP gives a string: false only for `""` and `"0"`.
  - `ToLower` models `strtolower` and `Trim` models `trim`.
  - `NatToDecimal` is the decimal text of an integer, as produced by concatenation.
- `user_profile.dfy` (`UserProfile`): the attribute bag, the `Profile` record, the fifteen requested attribute types and the three normalisation functions.
- `session_store.dfy` (`SessionStore`): storage values and the get/set/delete contract, over a `map`.
- `openid_adapter.dfy` (`OpenId`):
  - the error kinds with their exception codes;
  - the functions `BeginResult`, `FinishTransition`, `AuthenticateTransition` and `StoredProfile`, which state the state machine on values, with lemmas about them;
  - the classes `LightOpenIdClient` and `OpenIdAdapter`, whose methods change the storage map and the client's fields in place and are proved against those functions;
  - `LoginAcrossRequests`, a complete login over two HTTP requests.

Two behaviours of the code are easy to get wrong. The model follows the code in both:

- One might expect the display name to be non-empty whenever a name-bearing attribute is. The code does not keep that.
  - The code tests the full name and the nickname with PHP truthiness, so a full name of `"0"` is skipped (`DisplayNameOfZeroIsEmpty`).
  - For the first-name/last-name tier the code trims, so blank names give `""`.
  - `DisplayNameEmptyIff` states exactly when the result is empty. `DisplayNameNonEmpty` is the form of the invariant that holds.
- The birth year is read from `birthDate/birthDate`. That attribute type is never requested; the request asks for `birthDate/birthYear`. The model keeps the code as written (`UserProfile.BirthYearKey`). `BirthYearNeverRequested` proves the consequence: when the provider releases only requested types, `birthYear` is always `""`.

## Model

| member | source | states |
|---|---|---|
| PhpStrings.Truthy | src/Adapter/OpenID.php:51 | definition of PHP's boolean on strings (`empty()`, line 51, and `?:`, lines 197-200): only `""` and `"0"` are false |
| PhpStrings.ToLower | src/Adapter/OpenID.php:210-220 | `strtolower` keeps the length and lowers each ASCII capital in place, leaving every other character unchanged |
| PhpStrings.ToLowerFixedPoint | src/Adapter/OpenID.php:210-220 | `strtolower` leaves a string unchanged exactly when it has no capital letter |
| PhpStrings.ToLowerIdempotent | src/Adapter/OpenID.php:220 | lower-casing twice is lower-casing once |
| PhpStrings.Trim | src/Adapter/OpenID.php:200 | `trim` gives `""` exactly when the input is blank; a non-empty result starts and ends with a kept character |
| PhpStrings.TrimIsInfix | src/Adapter/OpenID.php:200 | the result of `trim` is the piece of the input between a blank prefix and a blank suffix |
| PhpStrings.TrimKeepsTrimmed | src/Adapter/OpenID.php:200 | a string without blanks at either end is returned unchanged by `trim` |
| PhpStrings.BlankConcat | src/Adapter/OpenID.php:200 | a concatenation is blank exactly when both parts are |
| PhpStrings.NatToDecimal | src/Adapter/OpenID.php:59-62 | the port's text is a non-empty run of digits, with a leading zero only for 0 |
| PhpStrings.DecimalRoundTrip | src/Adapter/OpenID.php:59-62 | reading back the decimal text of a port gives the port |
| UserProfile.RequiredAttributesDistinct | src/Adapter/OpenID.php:113-130 | the request list has exactly fifteen distinct attribute types |
| UserProfile.Attr | src/Adapter/OpenID.php:171-181 | definition of `$data->get`: a released key reads as its value, a missing key reads as `""` |
| UserProfile.FetchUserGender | src/Adapter/OpenID.php:208-223 | the gender is always lower-case, and it is empty exactly when the raw value is |
| UserProfile.GenderRule | src/Adapter/OpenID.php:208-223 | the sequence of reassignments equals the three-way rule: `f` gives female, `m` gives male, anything else is lower-cased |
| UserProfile.GenderFemaleIff | src/Adapter/OpenID.php:210-213 | "female" comes exactly from `f` or `female` in any case |
| UserProfile.GenderMaleIff | src/Adapter/OpenID.php:215-218 | "male" comes exactly from `m` or `male` in any case |
| UserProfile.GenderIdempotent | src/Adapter/OpenID.php:208-223 | normalising a normalised gender changes nothing |
| UserProfile.GenderExamples | src/Adapter/OpenID.php:208-223 | `F` gives female, `M` gives male, `other` gives other, and `""` gives `""` |
| UserProfile.FetchUserDisplayName | src/Adapter/OpenID.php:193-203 | first truthy of full name and nickname, otherwise the trimmed "first last" |
| UserProfile.DisplayNameEmptyIff | src/Adapter/OpenID.php:193-203 | the display name is empty exactly when full name and nickname are falsy and first and last names are blank |
| UserProfile.DisplayNameNonEmpty | src/Adapter/OpenID.php:193-203 | a truthy full name or nickname, or a non-blank first or last name, gives a non-empty display name |
| UserProfile.DisplayNameOfZeroIsEmpty | src/Adapter/OpenID.php:195-200 | a full name of "0" alone gives an empty display name |
| UserProfile.DisplayNameExamples | src/Adapter/OpenID.php:193-203 | the three fallback tiers, and the empty case, on concrete bags |
| UserProfile.FetchUserProfile | src/Adapter/OpenID.php:163-188 | each field comes from its fixed attribute type (missing means `""`), the identifier is the client's identity, gender and display name are normalised |
| UserProfile.ProfileReadsRequestedTypes | src/Adapter/OpenID.php:113-181 | two bags that agree on every requested type give profiles that differ at most in the birth year; the birth year's `birthDate/birthDate` is not requested |
| UserProfile.ProfileOfSameReadAttributes | src/Adapter/OpenID.php:169-185 | agreement on the twelve requested types the profile reads fixes every field except the birth year, so `birthDate`, `birthDate/birthYear` and `contact/city/home` are requested but never read |
| UserProfile.BirthYearNeverRequested | src/Adapter/OpenID.php:113-181 | if only requested types are released, the birth year is always empty |
| UserProfile.FirstNameOnlyExample | src/Adapter/OpenID.php:163-200 | with only first name Alice and an e-mail address, the display name falls back to "Alice" |
| SessionStore.IsTruthy | src/Adapter/OpenID.php:91 | definition of PHP's `(bool)` on a stored value: null is false, an object is true |
| SessionStore.Get | src/Adapter/OpenID.php:91 | an absent key reads as null; a present key reads as its value |
| SessionStore.Set | src/Adapter/OpenID.php:157 | the key afterwards reads as the value, and every other key reads as before |
| SessionStore.Delete | src/Adapter/OpenID.php:99 | the key afterwards is absent, and every other key reads as before |
| OpenId.AuthError.Code | src/Adapter/OpenID.php:53-234 | code 4 is the missing identifier, code 5 is cancellation or an invalid request, code 6 is a missing profile; 0 marks an exception raised inside LightOpenID |
| OpenId.UserSlotKey | src/Adapter/OpenID.php:91 | the slot key is the provider id followed by ".user" |
| OpenId.HostUrl | src/Adapter/OpenID.php:56-62 | the host, extended by ":" and the port exactly when the port is present and non-zero |
| OpenId.HostUrlRoundTrip | src/Adapter/OpenID.php:56-62 | a host without ':' and its non-zero port are recovered from the composed host |
| OpenId.Connected | src/Adapter/OpenID.php:89-92 | definition of `isAuthorized` on values: the user slot holds a truthy value; a stored profile object always counts |
| OpenId.FinishTransition | src/Adapter/OpenID.php:140-158 | cancellation or failed validation throws code 5, an exception of `validate()` passes through, and none of them writes; otherwise only the user slot is written, with the profile built from the released attributes |
| OpenId.BeginResult | src/Adapter/OpenID.php:132 | a redirect to the URL discovery found, or the exception discovery raised |
| OpenId.StoredProfile | src/Adapter/OpenID.php:228-238 | returns the stored value exactly when it is a profile object, and code 6 otherwise |
| OpenId.AuthenticateShortCircuit | src/Adapter/OpenID.php:71-76 | a connected user gets `true` and unchanged storage, whatever the request and the client hold |
| OpenId.AuthenticateWritesOnlyAfterValidation | src/Adapter/OpenID.php:71-158 | authenticate changes the storage only on a finish that validated and was not cancelled, and only under the user key; every exception leaves the storage as it was |
| OpenId.AuthenticateIdempotentAfterFinish | src/Adapter/OpenID.php:71-238 | after a stored profile the user is connected, a second authenticate returns at once with storage unchanged, and getUserProfile returns that profile |
| OpenId.DisconnectDisconnects | src/Adapter/OpenID.php:89-102 | after delete the user is not connected and getUserProfile fails |
| OpenId.LightOpenIdClient.constructor | src/Adapter/OpenID.php:65 | the client is created for the composed host and the current request |
| OpenId.LightOpenIdClient.AuthUrl | src/Adapter/OpenID.php:132 | the oracle's discovered URL, or the exception discovery raised |
| OpenId.LightOpenIdClient.Validate | src/Adapter/OpenID.php:147 | the oracle's verdict, or the exception it raised; after it the identity is the asserted one |
| OpenId.LightOpenIdClient.GetAttributes | src/Adapter/OpenID.php:152 | the attributes the provider released |
| OpenId.OpenIdAdapter.constructor | src/Adapter/OpenID.php:30-37 | a new adapter has no identifier and no client |
| OpenId.OpenIdAdapter.Initialize | src/Adapter/OpenID.php:44-66 | the identifier is taken from the configuration when present; a falsy identifier throws code 4 and creates no client; otherwise a fresh client gets the composed host |
| OpenId.OpenIdAdapter.IsAuthorized | src/Adapter/OpenID.php:89-92 | true exactly when the user slot is present and truthy |
| OpenId.OpenIdAdapter.Authenticate | src/Adapter/OpenID.php:71-84 | the result and the new storage are those of `AuthenticateTransition`; a connected call leaves the client unchanged; begin sets identity, return URL and request list; finish sets the asserted identity |
| OpenId.OpenIdAdapter.Disconnect | src/Adapter/OpenID.php:97-102 | returns true, deletes exactly the user slot, and afterwards isAuthorized is false |
| OpenId.OpenIdAdapter.AuthenticateBegin | src/Adapter/OpenID.php:109-133 | sets the identity to the configured identifier, the return URL to the endpoint and the request list to the fifteen types, then redirects to the discovered URL or passes on discovery's exception |
| OpenId.OpenIdAdapter.AuthenticateFinish | src/Adapter/OpenID.php:140-158 | the result and the new storage are those of `FinishTransition` on the client's response |
| OpenId.OpenIdAdapter.GetUserProfile | src/Adapter/OpenID.php:228-238 | returns the stored profile object or throws code 6, and never writes the storage |
| OpenId.LoginAcrossRequests | src/Adapter/OpenID.php:71-238 | the first request redirects to the discovered URL; the second stores the profile; a further authenticate returns at once; getUserProfile then returns the stored profile; the storage differs from the initial one only in the user slot |

`AuthenticateTransition` (the three-way decision at lines 71-84) and `SplitHostUrl` (the reference that `HostUrl` is checked against) are definitions without contracts of their own. The lemmas above are stated about them.

## Left out

- The LightOpenID client is not part of this model. Its discovery in `authUrl()`, the verification round trip behind `validate()`, and the attribute extraction behind `getAttributes()` are network work.
  - Their outcomes are fixed oracle values of `ProviderResponse`: the discovered URL or an exception, the verdict or an exception, and the attributes.
  - The oracle's URL does not depend on the identity, return URL and request list that begin sets, and the model does not build that URL.
  - The code LightOpenID's exceptions carry is not modelled; `ClientFailure` stands for all of them.
- Normalisation of an assigned `identity` by the setter of LightOpenID is left out. Only the plain assignment is modelled.
- The default `returnUrl` and realm that LightOpenID computes from the current request are left out.
- `HttpClient\Util::redirect` is I/O. `authenticateBegin` returns `RedirectIssued` with the URL in its place.
- In PHP, `authenticate` returns `true`, or nothing after a begin or a finish. The model returns a `Step` that names which branch ran.
- `parse_url` of the endpoint is a library call. Its host (`""` for none) and port (`None` for none) are inputs of `Initialize`.
- Loading configuration is left out. The configuration is a `map` from keys to strings.
- The constructor of AdapterBase calls `initialize`. The model splits this into a constructor plus a separate call to `Initialize`, and methods that need a client say so in their `requires`.
- The storage backend is reduced to a map with get/set/delete.
  - Any value it holds is null, a boolean, an integer, a string or a profile object.
  - PHP arrays and objects of other classes are not modelled.
- A missing attribute is `""`, while PHP gives `null`. The two read the same in every use here: comparison, `strtolower`, concatenation and truthiness.
- `User\Profile` has more fields than the thirteen this adapter fills in, and those stay at their defaults. The model's `Profile` has only the thirteen.
- `FetchUserGender` and `FetchUserDisplayName` return the field value, and `FetchUserProfile` puts it into the record. The PHP versions take and return the whole profile object.
- `strtolower` is modelled on ASCII letters only, as in PHP 8.2 and later, or earlier with the C locale.
- `src/Thirdparty/OAuth/OAuthSignatureMethodHMACSHA1.php` is left out. It is a thin layer over `hash_hmac`, `base64_encode` and an RFC 3986 encoder, none of which is part of this model.
