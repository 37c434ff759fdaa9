/** How the two revisions of the client differ on the same call. */
module Revisions {
  import opened Wrappers
  import opened Json
  import opened Http
  import PyVyos
  import VyApi

  /** For a single-object call without file or name, both revisions answer
      with the same status, result and error. The current revision's data is
      the older one's with the endpoint address appended under "url", and
      only the older one returns the key. */
  lemma SinglePathAgreesUpToUrl(dev: Profile, command: string, op: JVal, path: seq<JVal>, outcome: Outcome)
    requires Truthy(op) && !(|path| > 0 && path[0].JArr?)
    requires WellFormed(outcome)
    ensures PyVyos.Buildable(op, path, JNull, JStr(Url(dev, command)), JNull)
    ensures var endpoint := JStr(Url(dev, command));
      var cur := PyVyos.RequestSpec(dev, command, op, path, JNull, JNull, outcome);
      var older := VyApi.ApiRequest(dev, command, op, path, JNull, outcome).response;
      && cur.status == older.status && cur.result == older.result && cur.error == older.error
      && PyVyos.BuildData(op, path, JNull, endpoint, JNull)
         == JObj(VyApi.PayloadData(op, path, JNull).fields + [("url", endpoint)])
      && Keys(cur.request) == ["data"] && Keys(older.request) == ["data", "key"]
  {
    var endpoint := JStr(Url(dev, command));
    UrlIsTruthy(dev, command);
    var fs: seq<(string, JVal)> := [("op", op), ("path", JArr(path))];
    assert PyVyos.ShapeOf(op, path) == Some(PyVyos.Single);
    assert "url" !in Keys(fs);
    assert PyVyos.WithExtras(fs, JNull, endpoint, JNull) == fs + [("url", endpoint)];
  }

  /** An empty file name is a file for the older revision, which then sends
      no path, and no file for the current one, which sends the path. */
  lemma EmptyFileDiffers(dev: Profile, command: string, op: JVal, path: seq<JVal>)
    requires Truthy(op) && !(|path| > 0 && path[0].JArr?)
    ensures PyVyos.Buildable(op, path, JStr(""), JStr(Url(dev, command)), JNull)
    ensures var cur := PyVyos.BuildData(op, path, JStr(""), JStr(Url(dev, command)), JNull);
      var older := VyApi.PayloadData(op, path, JStr(""));
      && Keys(older.fields) == ["op", "file"]
      && cur.JObj? && Keys(cur.fields) == ["op", "path", "url"]
  {
    UrlIsTruthy(dev, command);
    PyVyos.SingleShape(op, path, JStr(""), JStr(Url(dev, command)), JNull);
  }

  /** A non-empty file: the older revision sends it in place of the path,
      the current one sends it beside the path. */
  lemma FileBesidePath(dev: Profile, command: string, op: JVal, path: seq<JVal>, file: JVal)
    requires Truthy(op) && !(|path| > 0 && path[0].JArr?)
    requires Truthy(file)
    ensures PyVyos.Buildable(op, path, file, JStr(Url(dev, command)), JNull)
    ensures var cur := PyVyos.BuildData(op, path, file, JStr(Url(dev, command)), JNull);
      var older := VyApi.PayloadData(op, path, file);
      && Keys(older.fields) == ["op", "file"]
      && cur.JObj? && Keys(cur.fields) == ["op", "path", "file", "url"]
      && Lookup(cur.fields, "file") == Lookup(older.fields, "file")
  {
    UrlIsTruthy(dev, command);
    PyVyos.SingleShape(op, path, file, JStr(Url(dev, command)), JNull);
  }
}
