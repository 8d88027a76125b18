/** The request interceptor of the API client: it picks a bearer token
    from the stored login blobs, doctor first, then admin, then patient,
    and adds an `Authorization` header when it has one. */
module AuthToken {
  import opened Common
  import opened Session
  import Home

  /** The token chosen (possibly none), or the request is rejected because
      `JSON.parse` threw on the blob read. */
  datatype TokenChoice = TokenOf(token: Option<string>) | ParseError

  function ReadToken(item: StoredItem<SessionBlob>, fallback: bool): TokenChoice
    requires Present(item)
  {
    if item.Unparsable? then ParseError
    else if fallback then TokenOf(OrElse(item.value.token, item.value.accessToken))
    else TokenOf(item.value.token)
  }

  /** The `if`/`else if` cascade of the interceptor. */
  function SelectToken(st: Storage): TokenChoice
  {
    if Present(st.doctorData) then ReadToken(st.doctorData, true)
    else if Present(st.adminData) then ReadToken(st.adminData, false)
    else if Present(st.patientData) then ReadToken(st.patientData, false)
    else TokenOf(None)
  }

  /** Precedence: a present doctor blob alone decides, then a present admin
      blob, then a present patient blob; a blob that is present but holds no
      token still wins, and lower blobs are never consulted. Only the doctor
      blob falls back to `accessToken`. The request is rejected exactly when
      the first present blob does not parse. */
  lemma SelectTokenSpec(st: Storage, other: Storage)
    ensures Present(st.doctorData) && other.doctorData == st.doctorData ==> SelectToken(other) == SelectToken(st)
    ensures (!Present(st.doctorData) && Present(st.adminData) &&
             !Present(other.doctorData) && other.adminData == st.adminData) ==> SelectToken(other) == SelectToken(st)
    ensures st.doctorData.Parsed? && !Truthy(st.doctorData.value.token) && !Truthy(st.doctorData.value.accessToken) ==>
      SelectToken(st).TokenOf? && !Truthy(SelectToken(st).token)
    ensures st.doctorData.Parsed? && !Truthy(st.doctorData.value.token) && Truthy(st.doctorData.value.accessToken) ==>
      SelectToken(st) == TokenOf(st.doctorData.value.accessToken)
    ensures st.doctorData.Parsed? && Truthy(st.doctorData.value.token) ==>
      SelectToken(st) == TokenOf(st.doctorData.value.token)
    ensures !Present(st.doctorData) && st.adminData.Parsed? ==> SelectToken(st) == TokenOf(st.adminData.value.token)
    ensures !Present(st.doctorData) && !Present(st.adminData) && st.patientData.Parsed? ==>
      SelectToken(st) == TokenOf(st.patientData.value.token)
    ensures !Present(st.doctorData) && !Present(st.adminData) && !Present(st.patientData) ==> SelectToken(st) == TokenOf(None)
    ensures SelectToken(st).ParseError? <==>
      || st.doctorData.Unparsable?
      || (!Present(st.doctorData) && st.adminData.Unparsable?)
      || (!Present(st.doctorData) && !Present(st.adminData) && st.patientData.Unparsable?)
  {
  }

  /** The home page and the interceptor read the blobs in opposite orders:
      with both a patient and a doctor signed in, the page shows the patient
      while every request carries the doctor's token. */
  lemma HomeAndTokenDisagree(p: SessionBlob, d: SessionBlob, admin: StoredItem<SessionBlob>)
    requires Truthy(d.token)
    ensures var st := Storage(Parsed(p), Parsed(d), admin);
      && Home.ResolveSession(st).SignedIn? && Home.ResolveSession(st).role == Home.PatientRole
      && SelectToken(st) == TokenOf(d.token)
  {
  }

  /** The part of an axios request configuration the interceptor touches. */
  class RequestConfig {
    var url: string
    var headers: map<string, string>

    constructor (url: string, headers: map<string, string>)
      ensures this.url == url && this.headers == headers
    {
      this.url, this.headers := url, headers;
    }
  }

  /** The interceptor: with a truthy token it sets only the `Authorization`
      header to "Bearer " followed by the token, otherwise it leaves the
      headers alone, and it passes the same configuration on; when a blob
      fails to parse, the request is rejected. */
  method Intercept(config: RequestConfig, st: Storage) returns (forwarded: Option<RequestConfig>)
    modifies config`headers
    ensures SelectToken(st).ParseError? ==> forwarded.None? && config.headers == old(config.headers)
    ensures SelectToken(st).TokenOf? ==> forwarded == Some(config)
    ensures SelectToken(st).TokenOf? && Truthy(SelectToken(st).token) ==>
      config.headers == old(config.headers)["Authorization" := "Bearer " + SelectToken(st).token.value]
    ensures SelectToken(st).TokenOf? && !Truthy(SelectToken(st).token) ==> config.headers == old(config.headers)
  {
    var choice := SelectToken(st);
    if choice.ParseError? {
      return None;
    }
    if Truthy(choice.token) {
      config.headers := config.headers["Authorization" := "Bearer " + choice.token.value];
    }
    forwarded := Some(config);
  }
}
