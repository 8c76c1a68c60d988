/**
 * The two lookup handlers (`sirene`, `getSireneInfo`) and `handleErrorResponse`.
 * The login and lookup calls are given as their outcomes; the handler's HTTP
 * reply is a `Response` value.
 */
module Controller {
  import opened Wrappers
  import opened RegistryPayload
  import opened Normalizer
  import opened TokenCache

  const AuthFailedMessage: string := "Failed to authenticate with SIRENE API"
  const NoDataMessage: string := "No data found for the provided SIREN number."
  const SetupErrorMessage: string := "Error setting up request to SIRENE API."

  /** How `axios.get` failed: with a reply, with a request but no reply, or before sending. */
  datatype HttpFailure = ResponseError(status: int, body: string) | NoResponse | SetupFailed

  /** The outcome of `GET /api/companies/{siren}`: a failure, or the reply's `data`. */
  datatype LookupReply = LookupFailed(failure: HttpFailure) | LookupReplied(data: Option<CompanyData>)

  /** What reaches the handler's `catch`. */
  datatype Thrown = Http(failure: HttpFailure) | AuthError | PayloadError(fault: Fault)

  /** The handler's reply. */
  datatype Response<T> =
    | Ok(record: T)
    | NotFound(message: string)
    | Upstream(status: int, body: string)
    | InternalError(message: string)
  {
    function MapRecord<U>(build: T -> U): Response<U> {
      match this
      case Ok(c) => Ok(build(c))
      case NotFound(m) => NotFound(m)
      case Upstream(s, b) => Upstream(s, b)
      case InternalError(m) => InternalError(m)
    }
  }

  /** The arguments of `PublicBusinessData.create` in `sirene`. */
  datatype BusinessRecord = BusinessRecord(
    userId: int, firstName: Option<string>, lastName: Option<string>, email: string,
    sirenNumber: string, phone: string, address: string, city: string, state: string,
    zip: string, country: string, company: Option<string>, legalStructure: string,
    legalStatus: string, vatNumber: string, currency: string, language: string)

  /** The `clientData` object returned by `getSireneInfo`. */
  datatype ClientData = ClientData(
    firstName: Option<string>, lastName: Option<string>, email: string, sirenNumber: string,
    phone: string, address: string, city: string, state: string, zip: string, country: string,
    company: Option<string>, vatNumber: string, currency: string, language: string)

  /** `handleErrorResponse`: a failure with a reply passes through, everything else is one internal error. */
  function HandleErrorResponse<T>(e: Thrown): (r: Response<T>)
    ensures r.Upstream? <==> e.Http? && e.failure.ResponseError?
    ensures r.Upstream? ==> r.status == e.failure.status && r.body == e.failure.body
    ensures !r.Upstream? ==> r == InternalError(SetupErrorMessage)
  {
    match e
    case Http(ResponseError(status, body)) => Upstream(status, body)
    case Http(NoResponse) => InternalError(SetupErrorMessage)
    case _ => InternalError(SetupErrorMessage)
  }

  /**
   * The control flow both handlers share, up to the normalized contact: a
   * record only from a well-shaped document fetched with a truthy token,
   * "not found" only for a reply without data, a pass-through only of an
   * upstream error reply, and otherwise one of the two internal errors.
   */
  function LookupOutcome(auth: AuthOutcome, lookup: LookupReply): (r: Response<Contact>)
    ensures r.Ok? ==> auth.Authenticated? && TruthyString(auth.token) && lookup.LookupReplied?
                      && lookup.data.Some? && lookup.data.value.formality.Some?
                      && Normalize(lookup.data.value.formality.value) == Success(r.record)
    ensures r.NotFound? ==> r.message == NoDataMessage && lookup.LookupReplied?
                            && (lookup.data.None? || lookup.data.value.formality.None?)
    ensures r.Upstream? ==> lookup == LookupFailed(ResponseError(r.status, r.body))
    ensures r.InternalError? ==> r.message == AuthFailedMessage || r.message == SetupErrorMessage
  {
    match auth
    case AuthenticationFailed => HandleErrorResponse(AuthError)
    case Authenticated(token) =>
      if !TruthyString(token) then InternalError(AuthFailedMessage)
      else match lookup
        case LookupFailed(failure) => HandleErrorResponse(Http(failure))
        case LookupReplied(data) =>
          if data.None? || data.value.formality.None? then NotFound(NoDataMessage)
          else match Normalize(data.value.formality.value)
            case Failure(fault) => HandleErrorResponse(PayloadError(fault))
            case Success(contact) => Ok(contact)
  }

  /**
   * The `PublicBusinessData.create` argument: the contact's values, the caller
   * and the SIREN number as given, and fixed defaults for what the registry
   * does not supply.
   */
  function ToBusinessRecord(userId: int, siren: string, c: Contact): (r: BusinessRecord)
    ensures r.userId == userId && r.sirenNumber == siren
    ensures r.firstName == c.firstName && r.lastName == c.lastName && r.company == c.companyName
    ensures r.address == c.address && r.city == c.city && r.zip == c.zip && r.country == c.country
    ensures r.email == "" && r.phone == "" && r.state == "" && r.vatNumber == ""
    ensures r.legalStructure == "" && r.legalStatus == "" && r.currency == "EUR" && r.language == "FR"
  {
    BusinessRecord(userId, c.firstName, c.lastName, "", siren, "", c.address, c.city, "",
                   c.zip, c.country, c.companyName, "", "", "", "EUR", "FR")
  }

  /** Every field `clientData` shares with the stored record holds the same value. */
  predicate SameSharedFields(b: BusinessRecord, d: ClientData) {
    && b.firstName == d.firstName && b.lastName == d.lastName && b.email == d.email
    && b.sirenNumber == d.sirenNumber && b.phone == d.phone && b.address == d.address
    && b.city == d.city && b.state == d.state && b.zip == d.zip && b.country == d.country
    && b.company == d.company && b.vatNumber == d.vatNumber && b.currency == d.currency
    && b.language == d.language
  }

  /** The `clientData` object: the stored record's values, without the caller and the legal fields. */
  function ToClientData(siren: string, c: Contact): (r: ClientData)
    ensures forall userId :: SameSharedFields(ToBusinessRecord(userId, siren, c), r)
  {
    ClientData(c.firstName, c.lastName, "", siren, "", c.address, c.city, "",
               c.zip, c.country, c.companyName, "", "EUR", "FR")
  }

  /** `sirene` once the token and the lookup are known. */
  function SireneOutcome(userId: int, siren: string, auth: AuthOutcome, lookup: LookupReply): Response<BusinessRecord> {
    LookupOutcome(auth, lookup).MapRecord(c => ToBusinessRecord(userId, siren, c))
  }

  /** `getSireneInfo` once the token and the lookup are known. */
  function SireneInfoOutcome(siren: string, auth: AuthOutcome, lookup: LookupReply): Response<ClientData> {
    LookupOutcome(auth, lookup).MapRecord(c => ToClientData(siren, c))
  }

  /** The `sirene` handler: authenticate through the shared cache, then look up and normalize. */
  method Sirene(cache: Cache, now: int, login: LoginReply, lookup: LookupReply, userId: int, siren: string)
    returns (r: Response<BusinessRecord>)
    modifies cache
    ensures cache.State() == AuthStep(old(cache.State()), now, login).0
    ensures r == SireneOutcome(userId, siren, AuthStep(old(cache.State()), now, login).1, lookup)
  {
    var auth := cache.Authenticate(now, login);
    r := SireneOutcome(userId, siren, auth, lookup);
  }

  /** The `getSireneInfo` handler. */
  method GetSireneInfo(cache: Cache, now: int, login: LoginReply, lookup: LookupReply, siren: string)
    returns (r: Response<ClientData>)
    modifies cache
    ensures cache.State() == AuthStep(old(cache.State()), now, login).0
    ensures r == SireneInfoOutcome(siren, AuthStep(old(cache.State()), now, login).1, lookup)
  {
    var auth := cache.Authenticate(now, login);
    r := SireneInfoOutcome(siren, auth, lookup);
  }
}

module ControllerFacts {
  import opened Wrappers
  import opened RegistryPayload
  import opened Normalizer
  import opened TokenCache
  import opened Controller
  import NormalizerFacts

  /** A reply without `data`, or whose `data` has no `formality`, is "not found". */
  lemma NoDataIsNotFound(token: string, data: Option<CompanyData>)
    requires token != ""
    requires data.None? || data.value.formality.None?
    ensures LookupOutcome(Authenticated(Some(token)), LookupReplied(data)) == NotFound(NoDataMessage)
  {
  }

  /** A falsy token stops the handler with an internal error before any lookup. */
  lemma FalsyTokenIsInternalError(token: Option<string>, lookup: LookupReply)
    requires !TruthyString(token)
    ensures LookupOutcome(Authenticated(token), lookup) == InternalError(AuthFailedMessage)
  {
  }

  /** A failed login reaches `handleErrorResponse` and becomes the generic internal error. */
  lemma LoginFailureIsInternalError(lookup: LookupReply)
    ensures LookupOutcome(AuthenticationFailed, lookup) == InternalError(SetupErrorMessage)
  {
  }

  /** An upstream error reply is passed through with its status and body unchanged. */
  lemma UpstreamPassThrough(token: string, status: int, body: string)
    requires token != ""
    ensures LookupOutcome(Authenticated(Some(token)), LookupFailed(ResponseError(status, body)))
         == Upstream(status, body)
  {
  }

  /** Every failure other than an upstream reply gives one and the same internal error. */
  lemma OtherErrorsAlike(e1: Thrown, e2: Thrown)
    requires !(e1.Http? && e1.failure.ResponseError?) && !(e2.Http? && e2.failure.ResponseError?)
    ensures HandleErrorResponse<Contact>(e1) == HandleErrorResponse<Contact>(e2) == InternalError(SetupErrorMessage)
  {
  }

  /**
   * A handler succeeds exactly when the token is truthy, the lookup replied
   * with a `formality`, and normalization succeeded; the contact is then the
   * normalized one.
   */
  lemma OkIffNormalized(auth: AuthOutcome, lookup: LookupReply)
    ensures LookupOutcome(auth, lookup).Ok? <==>
              && auth.Authenticated? && TruthyString(auth.token)
              && lookup.LookupReplied? && lookup.data.Some? && lookup.data.value.formality.Some?
              && WellShaped(lookup.data.value.formality.value)
    ensures LookupOutcome(auth, lookup).Ok? ==>
              Normalize(lookup.data.value.formality.value) == Success(LookupOutcome(auth, lookup).record)
  {
  }

  /** `sirene` stores the fixed defaults and echoes the SIREN number and the caller's id. */
  lemma SireneRecordFields(userId: int, siren: string, auth: AuthOutcome, lookup: LookupReply)
    requires SireneOutcome(userId, siren, auth, lookup).Ok?
    ensures var rec := SireneOutcome(userId, siren, auth, lookup).record;
            && rec.email == "" && rec.phone == "" && rec.state == "" && rec.vatNumber == ""
            && rec.legalStructure == "" && rec.legalStatus == ""
            && rec.currency == "EUR" && rec.language == "FR"
            && rec.sirenNumber == siren && rec.userId == userId
  {
  }

  /**
   * Both handlers reply alike: the same failures, and on success records that
   * agree on every field they share.
   */
  lemma HandlersAgree(userId: int, siren: string, auth: AuthOutcome, lookup: LookupReply)
    ensures var a := SireneOutcome(userId, siren, auth, lookup);
            var b := SireneInfoOutcome(siren, auth, lookup);
            && (a.Ok? <==> b.Ok?)
            && (!a.Ok? ==> a.MapRecord(r => 0) == b.MapRecord(r => 0))
            && (a.Ok? ==> SameSharedFields(a.record, b.record))
  {
  }

  /** End to end: a company with a single owner object, looked up with a valid token. */
  lemma SampleLookup(token: string)
    requires token != ""
    ensures SireneInfoOutcome("123456789", Authenticated(Some(token)),
                              LookupReplied(Some(CompanyData(Some(NormalizerFacts.SampleFormality())))))
         == Ok(ClientData(Some("Durand"), Some("Alice"), "", "123456789", "", "12Ruede Paris", "Lyon", "",
                          "69000", "FR", Some("ACME"), "", "EUR", "FR"))
  {
    NormalizerFacts.SampleNormalizes();
  }
}
