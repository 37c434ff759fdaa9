/** The older revision of the VyOS API client (vyapi/device.py). Its
    `_get_payload` chooses between `path` and `file`, its `_api_request`
    returns the payload it sent, key included, and only five named
    operations do anything. Nothing here updates state in place, so the
    whole revision is a set of functions. */
module VyApi {
  import opened Wrappers
  import opened Json
  import opened Http

  /** The object `json.dumps` is applied to: `{op, file}` when a file is
      given (`file is not None`, so even an empty string), else `{op, path}`. */
  function PayloadData(op: JVal, path: seq<JVal>, file: JVal): (data: JVal)
    ensures data.JObj?
    ensures Lookup(data.fields, "op") == Some(op)
    ensures file != JNull ==>
      Keys(data.fields) == ["op", "file"] && Lookup(data.fields, "file") == Some(file)
    ensures file == JNull ==>
      Keys(data.fields) == ["op", "path"] && Lookup(data.fields, "path") == Some(JArr(path))
  {
    if file != JNull then JObj([("op", op), ("file", file)])
    else JObj([("op", op), ("path", JArr(path))])
  }

  /** `_get_payload`: the encoded object and the API key. */
  function GetPayload(dev: Profile, op: JVal, path: seq<JVal>, file: JVal): (payload: Form)
    ensures Keys(payload) == ["data", "key"]
    ensures Lookup(payload, "data") == Some(Dumped(PayloadData(op, path, file)))
    ensures Lookup(payload, "key") == Some(Text(dev.apikey))
  {
    [("data", Dumped(PayloadData(op, path, file))), ("key", Text(dev.apikey))]
  }

  /** What `_api_request` hands to `requests.post` and what it returns. */
  datatype Exchange = Exchange(sent: Post, response: ApiResponse)

  /** `_api_request`, with the transport's answer as the `outcome` argument.
      The payload is posted to the endpoint and returned unchanged. */
  function ApiRequest(dev: Profile, command: string, op: JVal, path: seq<JVal>, file: JVal,
                      outcome: Outcome): (x: Exchange)
    requires WellFormed(outcome)
    ensures x.sent.url == Url(dev, command)
    ensures x.sent.verify == dev.verify && x.sent.timeout == dev.timeout
    ensures x.response.request == x.sent.form
  {
    var payload := GetPayload(dev, op, path, file);
    Exchange(Post(Url(dev, command), payload, dev.verify, dev.timeout), Classify(outcome, payload))
  }

  /** A file, even the empty string, takes the place of the path: the path
      the caller gave is not sent at all. */
  lemma FileReplacesPath(dev: Profile, command: string, op: JVal, path: seq<JVal>, file: JVal, outcome: Outcome)
    requires WellFormed(outcome)
    requires file != JNull
    ensures var data := PayloadData(op, path, file);
      && Lookup(ApiRequest(dev, command, op, path, file, outcome).sent.form, "data") == Some(Dumped(data))
      && Lookup(data.fields, "file") == Some(file)
      && Lookup(data.fields, "path").None?
  {
  }

  /** Without a file the path goes out unchanged, the empty path included. */
  lemma PathWithoutFile(dev: Profile, command: string, op: JVal, path: seq<JVal>, outcome: Outcome)
    requires WellFormed(outcome)
    ensures var data := PayloadData(op, path, JNull);
      && Lookup(ApiRequest(dev, command, op, path, JNull, outcome).sent.form, "data") == Some(Dumped(data))
      && Lookup(data.fields, "path") == Some(JArr(path))
      && Lookup(data.fields, "file").None?
  {
  }

  /** The returned request still carries the API key, whatever the outcome. */
  lemma KeyEchoed(dev: Profile, command: string, op: JVal, path: seq<JVal>, file: JVal, outcome: Outcome)
    requires WellFormed(outcome)
    ensures var r := ApiRequest(dev, command, op, path, file, outcome).response;
      Keys(r.request) == ["data", "key"] && Lookup(r.request, "key") == Some(Text(dev.apikey))
  {
  }

  /** The five ways a call of this revision can end. */
  lemma ResponseCases(dev: Profile, command: string, op: JVal, path: seq<JVal>, file: JVal, o: Outcome)
    requires WellFormed(o)
    ensures var r := ApiRequest(dev, command, op, path, file, o).response;
      && (o.ConnFail? ==> r.status == 0 && r.result == JObj([]) && r.error == JStr("connection error: " + o.msg))
      && (o.Resp? && o.code != 200 ==> r.status == o.code && r.result == JObj([]) && r.error == JStr("http error"))
      && (o.Resp? && o.code == 200 && o.body.None? ==>
            r.status == 200 && r.result == JObj([]) && r.error == JStr("json decode error"))
      && (o.Resp? && o.code == 200 && o.body.Some? ==>
            var fs := o.body.value.fields;
            && r.status == 200
            && (EqualsTrue(Lookup(fs, "success").value) ==> r.result == Lookup(fs, "data").value && r.error == JBool(false))
            && (!EqualsTrue(Lookup(fs, "success").value) ==> r.result == JObj([]) && r.error == Lookup(fs, "error").value))
  {
    ClassifyCases(o, GetPayload(dev, op, path, file));
  }

  // ---------------------------------------------------------------------
  // The named operations that do something.
  // ---------------------------------------------------------------------

  /** A call of one of the five operations; an argument left out is None
      (for path: the default `[]`; for file: None). */
  datatype Operation =
    | RetrieveShowConfig(path: Option<seq<JVal>>)
    | ConfigureSet(path: Option<seq<JVal>>)
    | ConfigureDelete(path: Option<seq<JVal>>)
    | ConfigFileSave(file: JVal)
    | ConfigFileLoad(file: JVal)

  /** The arguments one operation hands to `_api_request`. */
  datatype Call = Call(command: string, op: JVal, path: seq<JVal>, file: JVal)

  /** The forward each operation performs. The path operations never pass a
      file, and the file operations never pass a path. */
  function Forward(w: Operation): (c: Call)
    ensures c.command in {"retrieve", "configure", "config-file"}
    ensures Truthy(c.op)
    ensures w.ConfigFileSave? || w.ConfigFileLoad? ==> c.command == "config-file" && c.path == [] && c.file == w.file
    ensures !(w.ConfigFileSave? || w.ConfigFileLoad?) ==> c.file == JNull && c.path == w.path.GetOr([])
  {
    match w
    case RetrieveShowConfig(p) => Call("retrieve", JStr("showConfig"), p.GetOr([]), JNull)
    case ConfigureSet(p) => Call("configure", JStr("set"), p.GetOr([]), JNull)
    case ConfigureDelete(p) => Call("configure", JStr("delete"), p.GetOr([]), JNull)
    case ConfigFileSave(f) => Call("config-file", JStr("save"), [], f)
    case ConfigFileLoad(f) => Call("config-file", JStr("load"), [], f)
  }

  /** Calling an operation. */
  function Invoke(dev: Profile, w: Operation, outcome: Outcome): (x: Exchange)
    requires WellFormed(outcome)
    ensures x.sent.url == Url(dev, Forward(w).command)
    ensures x.response.request == x.sent.form
  {
    var c := Forward(w);
    ApiRequest(dev, c.command, c.op, c.path, c.file, outcome)
  }

  /** `config_file_save()` without a file sends `{op: "save", path: []}`. */
  lemma SaveWithoutFileSendsEmptyPath(dev: Profile, outcome: Outcome)
    requires WellFormed(outcome)
    ensures Lookup(Invoke(dev, ConfigFileSave(JNull), outcome).sent.form, "data")
         == Some(Dumped(JObj([("op", JStr("save")), ("path", JArr([]))])))
  {
  }
}
