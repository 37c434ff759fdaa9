/** What both revisions of the client share: the connection profile, the
    endpoint address, the form body that is posted, the transport outcome that
    replaces the network call, and the normalisation of that outcome into one
    ApiResponse. */
module Http {
  import opened Wrappers
  import opened Json
  import opened Decimal

  /** The constructor arguments of VyDevice; the client never changes them. */
  datatype Profile = Profile(
    hostname: string,
    apikey: string,
    protocol: string,
    port: int,
    verify: bool,
    timeout: int)

  const DefaultProtocol := "https"
  const DefaultPort := 443
  const DefaultVerify := true
  const DefaultTimeout := 10

  /** `VyDevice(hostname, apikey)` with every optional argument left out. */
  function DefaultProfile(hostname: string, apikey: string): (p: Profile)
    ensures p.hostname == hostname && p.apikey == apikey
    ensures p.protocol == "https" && p.port == 443 && p.verify && p.timeout == 10
  {
    Profile(hostname, apikey, DefaultProtocol, DefaultPort, DefaultVerify, DefaultTimeout)
  }

  /** The address prefix shared by every command of one device. */
  function Base(p: Profile): string {
    p.protocol + "://" + p.hostname + ":" + IntToString(p.port) + "/"
  }

  /** `_get_url(command)`: protocol, "://", host, ":", the port in decimal,
      "/", command. */
  function Url(p: Profile, command: string): (u: string)
    ensures |u| >= |p.protocol| + |command| + 6
    ensures u[..|p.protocol| + 3] == p.protocol + "://"
    ensures u[|u| - |command| - 1..] == "/" + command
  {
    var u := Base(p) + command;
    assert u == p.protocol + "://" + (p.hostname + ":" + IntToString(p.port) + "/" + command);
    assert u == (p.protocol + "://" + p.hostname + ":" + IntToString(p.port)) + ("/" + command);
    u
  }

  /** One device sends different commands to different addresses. */
  lemma UrlInjective(p: Profile, c1: string, c2: string)
    requires Url(p, c1) == Url(p, c2)
    ensures c1 == c2
  {
    var b := Base(p);
    assert c1 == (b + c1)[|b|..];
    assert c2 == (b + c2)[|b|..];
  }

  /** Every endpoint address is a non-empty string, so Python treats it as
      true wherever it is passed as an optional argument. */
  lemma UrlIsTruthy(p: Profile, command: string)
    ensures Truthy(JStr(Url(p, command)))
  {
  }

  /** A value of the form body: a plain string, or `json.dumps(v)`, kept as
      the value v it encodes (the text itself is not modelled). */
  datatype FormValue = Text(s: string) | Dumped(value: JVal)

  /** A dictionary of form fields, in insertion order. */
  type Form = seq<(string, FormValue)>

  /** What `requests.post` is handed: the address, the form body and the
      TLS-verification and timeout settings of the profile. */
  datatype Post = Post(url: string, form: Form, verify: bool, timeout: int)

  /** `del payload['key']` on the form both revisions build: only the
      `data` field is left. */
  lemma {:induction false} DeleteKeyLeavesData(data: FormValue, apikey: string)
    ensures Delete([("data", data), ("key", Text(apikey))], "key") == [("data", data)]
  {
    var fs: Form := [("data", data), ("key", Text(apikey))];
    assert fs[1..][1..] == [];
    assert Delete(fs[1..], "key") == Delete(fs[1..][1..], "key");
  }

  /** What the transport gives back in place of `requests.post`: a
      `ConnectionError` with its text, or a status code together with the
      body decoded by `resp.json()` (None when the body is not JSON). */
  datatype Outcome = ConnFail(msg: string) | Resp(code: int, body: Option<JVal>)

  /** The outcomes the client handles without raising: a decoded 200 body
      must be a dict with `success`, and with `data` when success equals True
      or `error` otherwise (else Python raises TypeError or KeyError). Every
      other outcome is handled whatever it holds. */
  predicate WellFormed(o: Outcome): (w: bool)
    ensures !(o.Resp? && o.code == 200 && o.body.Some?) ==> w
    ensures w && o.Resp? && o.code == 200 && o.body.Some? ==>
      o.body.value.JObj? && "success" in Keys(o.body.value.fields)
  {
    o.Resp? && o.code == 200 && o.body.Some? ==>
      var b := o.body.value;
      && b.JObj?
      && Lookup(b.fields, "success").Some?
      && (if EqualsTrue(Lookup(b.fields, "success").value)
          then Lookup(b.fields, "data").Some?
          else Lookup(b.fields, "error").Some?)
  }

  /** The dataclass ApiResponse. `error` is False on success and otherwise
      whatever the failure put there. */
  datatype ApiResponse = ApiResponse(status: int, request: Form, result: JVal, error: JVal)

  const ConnectionErrorPrefix := "connection error: "
  const HttpError := "http error"
  const DecodeError := "json decode error"

  /** The normalisation both `_api_request` revisions perform, with
      `request` the form they attach to the response. */
  function Classify(o: Outcome, request: Form): (r: ApiResponse)
    requires WellFormed(o)
    ensures r.request == request
    ensures r.status == if o.ConnFail? then 0 else o.code
    ensures Truthy(r.result) ==> !Truthy(r.error)
    ensures !Truthy(r.error) ==> o.Resp? && o.code == 200 && o.body.Some?
  {
    match o
    case ConnFail(msg) => ApiResponse(0, request, JObj([]), JStr(ConnectionErrorPrefix + msg))
    case Resp(code, body) =>
      if code != 200 then ApiResponse(code, request, JObj([]), JStr(HttpError))
      else
        match body
        case None => ApiResponse(code, request, JObj([]), JStr(DecodeError))
        case Some(decoded) =>
          var success := Lookup(decoded.fields, "success").value;
          if EqualsTrue(success) then ApiResponse(code, request, Lookup(decoded.fields, "data").value, JBool(false))
          else ApiResponse(code, request, JObj([]), Lookup(decoded.fields, "error").value)
  }

  /** The `try` block of `_api_request`: the status, result and error it
      leaves behind are those of Classify. */
  method Normalise(o: Outcome) returns (status: int, result: JVal, error: JVal)
    requires WellFormed(o)
    ensures var c := Classify(o, []); status == c.status && result == c.result && error == c.error
  {
    error := JBool(false);
    result := JObj([]);
    match o {
      case ConnFail(msg) =>
        error := JStr(ConnectionErrorPrefix + msg);
        status := 0;
      case Resp(code, body) =>
        if code == 200 {
          match body {
            case None =>
              error := JStr(DecodeError);
            case Some(decoded) =>
              if EqualsTrue(Lookup(decoded.fields, "success").value) {
                result := Lookup(decoded.fields, "data").value;
                error := JBool(false);
              } else {
                error := Lookup(decoded.fields, "error").value;
              }
          }
        } else {
          error := JStr(HttpError);
        }
        status := code;
    }
  }

  /** The five ways a call can end. */
  lemma ClassifyCases(o: Outcome, request: Form)
    requires WellFormed(o)
    ensures o.ConnFail? ==>
      Classify(o, request) == ApiResponse(0, request, JObj([]), JStr("connection error: " + o.msg))
    ensures o.Resp? && o.code != 200 ==>
      Classify(o, request) == ApiResponse(o.code, request, JObj([]), JStr("http error"))
    ensures o.Resp? && o.code == 200 && o.body.None? ==>
      Classify(o, request) == ApiResponse(200, request, JObj([]), JStr("json decode error"))
    ensures o.Resp? && o.code == 200 && o.body.Some? ==>
      var fs := o.body.value.fields;
      if EqualsTrue(Lookup(fs, "success").value)
      then Classify(o, request) == ApiResponse(200, request, Lookup(fs, "data").value, JBool(false))
      else Classify(o, request) == ApiResponse(200, request, JObj([]), Lookup(fs, "error").value)
  {
  }

  /** Status 0 means the transport failed, and then the error carries the
      connection-error marker, as long as no server answers with status 0. */
  lemma ZeroStatusIsConnectionFailure(o: Outcome, request: Form)
    requires WellFormed(o)
    requires o.Resp? ==> o.code != 0
    ensures Classify(o, request).status == 0 <==> o.ConnFail?
    ensures Classify(o, request).status == 0 ==>
      var e := Classify(o, request).error;
      e.JStr? && |e.s| >= |ConnectionErrorPrefix| && e.s[..|ConnectionErrorPrefix|] == ConnectionErrorPrefix
  {
  }

  /** A success whose `data` is None (or any other falsy value) leaves both
      the result and the error falsy: "result or error" is not exhaustive. */
  lemma EmptySuccessPopulatesNeither()
    ensures var body := JObj([("success", JBool(true)), ("data", JNull)]);
      var r := Classify(Resp(200, Some(body)), []);
      r.status == 200 && r.result == JNull && r.error == JBool(false)
  {
    var body := JObj([("success", JBool(true)), ("data", JNull)]);
    assert Lookup(body.fields, "success") == Some(JBool(true));
    assert Lookup(body.fields, "data") == Some(JNull);
  }

  /** The converse does not hold: a device may report an application error
      whose text starts with the connection-error marker, with status 200. */
  lemma ConnectionMarkerAtStatus200()
    ensures var body := JObj([("success", JBool(false)), ("error", JStr("connection error: refused"))]);
      var r := Classify(Resp(200, Some(body)), []);
      r.status == 200 && r.error == JStr(ConnectionErrorPrefix + "refused")
  {
    var body := JObj([("success", JBool(false)), ("error", JStr("connection error: refused"))]);
    assert Lookup(body.fields, "success") == Some(JBool(false));
    assert Lookup(body.fields, "error") == Some(JStr("connection error: refused"));
  }
}
