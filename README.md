# Registry lookup controller, modelled in Dafny

This project models the company-registry lookup of the Plumera backend
(`backend/app/controllers/scrappers_controller.ts`): the French street-type expander, the process-wide bearer-token
cache in front of the registry login, the normalization of the registry's
company document into one flat contact, and the way the two lookup handlers
(`sirene` and `getSireneInfo`) turn each outcome into an HTTP reply.

Modules:

- `Wrappers` (wrappers.dfy): `Option` (a `null`/`undefined`-able value) and `Result`.
- `StreetTypes`, `StreetTypeFacts` (street_types.dfy): the abbreviation table, `toUpperCase`, `getFullTypeVoie` and what is proved of them.
- `TokenCache`, `TokenCacheFacts` (token_cache.dfy): the `{ value, expiry }` record as a class `Cache` whose `Authenticate` method overwrites it, the pure step function `AuthStep` that specifies it, and the cache properties.
- `RegistryPayload` (registry_payload.dfy): the company document, with every field that may be missing as an `Option` and the owner field as `List(...) | Single(...)`.
- `Normalizer`, `NormalizerFacts` (normalizer.dfy): the normalization block, written once; each TypeError the code would raise is a `Failure` naming the missing part.
- `Controller`, `ControllerFacts` (controller.dfy): `handleErrorResponse`, the shared control flow, the two record builders, the two handlers as methods over the shared cache.

The clock (`Date.now()`), the login reply and the lookup reply are parameters:
a login is `LoginFailed` or `LoginReplied(token, user)`, a lookup is
`LookupFailed(ResponseError(status, body) | NoResponse | SetupFailed)` or
`LookupReplied(data)`. Times are integer milliseconds; an unparsable
`lastLogin` (a `NaN` time) is `None`.

Behaviour of the code that the model keeps as written:

- Any missing intermediate object (`descriptionPersonne`, `prenoms`,
  `beneficiairesEffectifs`, `etablissementPrincipal`, `adresse`, `typeVoie`,
  ...) raises a TypeError that `handleErrorResponse` turns into the generic
  internal error; only `commune`, `codePostal` and `pays` default to "".
  Names and company name can be `undefined`, so they are `Option`s.
- The trailing `?? ''` of the address applies to the whole sum, which is
  always a string, so it never fires.
- A one-element owner array is read as if it were an object and fails.

## Model

| member | source | states |
|---|---|---|
| StreetTypeFacts.ExpandKey | backend/app/controllers/scrappers_controller.ts:58-61 | every abbreviation of the table, upper case, expands to its table entry |
| StreetTypes.Expand | backend/app/controllers/scrappers_controller.ts:58-61 | an input whose upper-case form is a key of the table (lines 10-45) gives that key's entry; any other input comes back unchanged, in its own case |
| StreetTypeFacts.ExpandLowerKey | backend/app/controllers/scrappers_controller.ts:58-61 | every abbreviation of the table written in lower case expands to its table entry (e.g. "rue" to "Rue") |
| StreetTypeFacts.ExpandCaseInsensitive | backend/app/controllers/scrappers_controller.ts:59-60 | inputs with the same upper-case form expand alike; an input whose upper-case form is no key comes back unchanged, in its own case |
| StreetTypeFacts.KeysAreKeyWords | backend/app/controllers/scrappers_controller.ts:10-45 | every key has at most four characters, all upper-case letters A-Z or É |
| StreetTypeFacts.ExpandEntry | backend/app/controllers/scrappers_controller.ts:10-45 | every table value is a fixed point of the expander (its upper-case form is no key, or a key mapping back to it: RUE, VOIE, CITÉ, CLOS, MAIL, PARC) |
| StreetTypeFacts.ExpandIdempotent | backend/app/controllers/scrappers_controller.ts:58-61 | expanding an already expanded street type changes nothing |
| StreetTypeFacts.UpperOfLower | backend/app/controllers/scrappers_controller.ts:59 | upper-casing the lower-case spelling of a word over A-Z and É gives the word back |
| StreetTypes.UpperChar | backend/app/controllers/scrappers_controller.ts:59 | the upper-case form of every character except the sharp s is one character |
| StreetTypeFacts.UpperLength | backend/app/controllers/scrappers_controller.ts:59 | upper-casing keeps the length of every word without a sharp s |
| StreetTypeFacts.UpperLeavesNoLowerCase | backend/app/controllers/scrappers_controller.ts:59 | no lower-case ASCII letter is left after upper-casing |
| StreetTypeFacts.UpperOfKeyWord | backend/app/controllers/scrappers_controller.ts:59 | upper-casing leaves words over A-Z and É unchanged |
| TokenCache.ExpiryFrom | backend/app/controllers/scrappers_controller.ts:248-250 | the expiry is the last-login instant plus 3600000 ms, and is NaN exactly when the instant is |
| TokenCache.IsFresh | backend/app/controllers/scrappers_controller.ts:234 | the hit guard holds only with a truthy value and an expiry later than now, and never with expiry 0 |
| TokenCache.AuthStep | backend/app/controllers/scrappers_controller.ts:231-261 | a returned token is always the one now cached; a failure leaves the cache as it was; the cache changes only when it was not fresh |
| TokenCache.Cache.constructor | backend/app/controllers/scrappers_controller.ts:52-55 | the cache starts as value null, expiry null |
| TokenCache.Cache.Authenticate | backend/app/controllers/scrappers_controller.ts:231-261 | the new cache and the outcome are those of AuthStep on the old cache |
| TokenCacheFacts.CacheHit | backend/app/controllers/scrappers_controller.ts:234-236 | with a truthy value and a truthy expiry later than now, the cached value is returned and the cache is unchanged |
| TokenCacheFacts.HitIgnoresLogin | backend/app/controllers/scrappers_controller.ts:234-236 | on a hit the login outcome is not consulted |
| TokenCacheFacts.RefreshWhenStale | backend/app/controllers/scrappers_controller.ts:234 | at now == expiry, with no (or NaN) expiry, with expiry 0, or with an empty or null value, the cache is not fresh |
| TokenCacheFacts.Refresh | backend/app/controllers/scrappers_controller.ts:247-257 | a login reply with a user stores exactly its token and the expiry from lastLogin (lastLogin + 3600000, or NaN when lastLogin is missing or unparsable) and returns that token |
| TokenCacheFacts.NaNExpiryNeverHits | backend/app/controllers/scrappers_controller.ts:247-257 | a reply whose lastLogin is missing or unparsable caches the token with a NaN expiry, so the cache is stale at every later call |
| TokenCacheFacts.FreshUntilExpiry | backend/app/controllers/scrappers_controller.ts:234 | a fresh cache stays fresh exactly until its expiry instant |
| TokenCacheFacts.RefreshIgnoresClock | backend/app/controllers/scrappers_controller.ts:248-250 | the refreshed cache and outcome do not depend on the local clock |
| TokenCacheFacts.FailedLoginKeepsCache | backend/app/controllers/scrappers_controller.ts:238-260 | a failed login or a reply without user raises and leaves the cache unchanged |
| TokenCacheFacts.RefreshThenHit | backend/app/controllers/scrappers_controller.ts:234-257 | after a refresh with a non-empty token, a call before the new expiry is served from the cache |
| Normalizer.Normalize | backend/app/controllers/scrappers_controller.ts:87-120 | normalization succeeds exactly on the documents WellShaped describes field by field |
| NormalizerFacts.NoVariantFails | backend/app/controllers/scrappers_controller.ts:90-98 | a document with neither personnePhysique nor personneMorale fails |
| NormalizerFacts.PhysicalPersonNames | backend/app/controllers/scrappers_controller.ts:90-96 | a physical person's names are descriptionPersonne.nom and prenoms[0] of its entrepreneur; beneficiaries and a moral person beside it are not read |
| NormalizerFacts.OwnerListUsesFirst | backend/app/controllers/scrappers_controller.ts:98-101 | a moral person with an owner array of length above 1 takes its names from element 0 |
| NormalizerFacts.SingleOwnerUsesItself | backend/app/controllers/scrappers_controller.ts:102-106 | a moral person with a bare owner object takes its names from that object's beneficiaire |
| NormalizerFacts.ShortOwnerListFails | backend/app/controllers/scrappers_controller.ts:98-106 | an owner array of at most one element fails |
| NormalizerFacts.CompanyNameAndDefaults | backend/app/controllers/scrappers_controller.ts:109-115 | company name is nomCommercial unless missing (an empty one is kept), then the denomination; city, zip, country are each their field or "" exactly when it is missing |
| NormalizerFacts.AddressConcatenation | backend/app/controllers/scrappers_controller.ts:117-120 | on success the address is numVoie, the expanded typeVoie and voie with no separators (a missing part prints as "undefined") |
| NormalizerFacts.MissingStreetTypeFails | backend/app/controllers/scrappers_controller.ts:117-120 | a document that gets past names, company name and address object but lacks typeVoie fails |
| NormalizerFacts.SampleNormalizes | backend/app/controllers/scrappers_controller.ts:87-120 | a company with one owner object at 12 RUE de Paris normalizes to Durand, Alice, ACME, "12Ruede Paris", Lyon, 69000, FR |
| Controller.HandleErrorResponse | backend/app/controllers/scrappers_controller.ts:263-271 | an error with a reply gives its status and body unchanged; every other error gives the one internal-error message |
| Controller.LookupOutcome | backend/app/controllers/scrappers_controller.ts:73-147 | a record only from a well-shaped document fetched with a truthy token; not found only when data or formality is missing; pass-through only of an upstream error reply; otherwise one of the two internal-error messages |
| Controller.ToBusinessRecord | backend/app/controllers/scrappers_controller.ts:122-140 | the stored record carries the contact values, the caller id and SIREN number as given, "" for email, phone, state, vat number and legal fields, EUR and FR |
| Controller.ToClientData | backend/app/controllers/scrappers_controller.ts:207-222 | the client data agrees with the stored record on every field they share |
| Controller.Sirene | backend/app/controllers/scrappers_controller.ts:63-148 | the cache is updated by one authenticate step and the reply is SireneOutcome of its result |
| Controller.GetSireneInfo | backend/app/controllers/scrappers_controller.ts:150-229 | the cache is updated by one authenticate step and the reply is SireneInfoOutcome of its result |
| ControllerFacts.NoDataIsNotFound | backend/app/controllers/scrappers_controller.ts:144 | a reply without data or without formality is "not found" |
| ControllerFacts.FalsyTokenIsInternalError | backend/app/controllers/scrappers_controller.ts:74-77 | a falsy token gives the authentication internal error, whatever the lookup |
| ControllerFacts.LoginFailureIsInternalError | backend/app/controllers/scrappers_controller.ts:258-260 | a failed login ends in the generic internal error |
| ControllerFacts.UpstreamPassThrough | backend/app/controllers/scrappers_controller.ts:264-265 | an upstream error reply surfaces with its status and body unchanged |
| ControllerFacts.OtherErrorsAlike | backend/app/controllers/scrappers_controller.ts:266-270 | a request without reply, a setup failure, a failed login and a malformed document all give the same internal error |
| ControllerFacts.OkIffNormalized | backend/app/controllers/scrappers_controller.ts:73-147 | a handler succeeds exactly when the token is truthy, the lookup replied with a formality and the document is well shaped; the record is then the normalized contact |
| ControllerFacts.SireneRecordFields | backend/app/controllers/scrappers_controller.ts:122-140 | the stored record has email, phone, state, vat number, legal fields "", currency EUR, language FR, and echoes the SIREN number and user id |
| ControllerFacts.HandlersAgree | backend/app/controllers/scrappers_controller.ts:207-222 | both handlers fail alike and, on success, agree on every shared field |
| ControllerFacts.SampleLookup | backend/app/controllers/scrappers_controller.ts:150-229 | end to end, getSireneInfo on the sample document replies with the expected client data |

## Left out

- The HTTP calls (`axios.post` to the login endpoint, `axios.get` to the company endpoint), their URLs and headers, and reading the credentials from the environment: their outcomes are parameters.
- `PublicBusinessData.create` in `sirene`: the model builds its argument record; persistence, and a storage failure (which would reach `handleErrorResponse` as an internal error), are not modelled.
- `HttpContext`: requests and replies are values; the caller's identity is the `userId` parameter and the SIREN number a string.
- The race between concurrent requests on the shared token record: each handler call is one atomic step on the cache.
- `Date.now()` and `new Date(lastLogin)`: integer milliseconds; an unparsable date is `None`.
- StreetTypes.UpperChar: `toUpperCase` is modelled for ASCII, Latin-1, dotless i, long s and sharp s only; other characters are kept as they are. Since every key is written with A-Z and É only, this decides table membership as the full Unicode mapping would.
- Normalizer.JsText: a missing `numVoie` or `voie` is concatenated as "undefined"; a `null` one (which prints "null") and numeric values are not distinguished.
- Upstream error bodies are strings rather than arbitrary JSON; JavaScript truthiness of non-object values where the code expects an object (`data`, `formality`) is not modelled.
- The frontend summaries component (rendering, dialogs, list updates after HTTP calls, locale date formatting) is not part of this model.
