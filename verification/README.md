# VyOS API client: request building and response normalisation

This project models the layer of the VyOS HTTP API client that turns a call
such as `configure_set(path)` into a POST request and turns whatever comes back
into one `ApiResponse(status, request, result, error)`. Two revisions of the
client are modelled side by side:

- `pyvyos/device.py` is the current revision. `_get_payload` chooses one of three
  shapes for `data`:
  - a single `{op, path}` object;
  - a batch, one `{op, path: p}` per element of a list of lists;
  - the caller's own list of op-dicts, passed through.

  It then writes the truthy optional fields `file`, `url` and `name` into every
  dict of `data` and wraps the result as `{data, key}`. `_api_request` sends the
  payload to `_get_url(command)` and classifies the outcome five ways. It then
  deletes the API key from the request it returns. The named operations are
  fixed forwards to `_api_request`.
- `vyapi/device.py` is the older revision:
  - it sends either `{op, file}` (when `file is not None`) or `{op, path}`;
  - it classifies the outcome the same way;
  - it returns the request with the key still in it;
  - five of its named operations forward to `_api_request`.

Module layout:

- `wrappers.dfy`: `Option`.
- `json.dfy`: Python values (`JVal`), `bool(v)` (`Truthy`) and `v == True`
  (`EqualsTrue`). Also the insertion-ordered dictionary operations `d[k]`,
  `d[k] = v` and `del d[k]` (`Lookup`, `Assign`, `Delete`).
- `decimal.dfy`: `str(port)`, proved to parse back to the port.
- `http.dfy`: what both revisions share:
  - the device profile and `_get_url`;
  - the form that is posted;
  - the transport outcome, which takes the place of `requests.post`;
  - the five-way classification.
- `pyvyos_device.dfy`: the current revision.
  - A Python dict that `_get_payload` writes into is an object of class `Dict`.
    The caller's passthrough dicts are therefore updated in place, as in the
    source.
  - `GetPayload` and `ApiRequest` are methods. They are proved against the
    value-level specification `BuildData`, `BuildPayload` and `RequestSpec`,
    and the lemmas state the properties of that specification.
- `vyapi_device.dfy`: the older revision, as functions.
- `revisions.dfy`: how the two revisions differ on the same call.

The network call is replaced by an input:
`Outcome = ConnFail(msg) | Resp(code, body)`. A `body` of None means the 200
body could not be decoded. `json.dumps(v)` is kept as the value `v` it encodes
(`FormValue.Dumped`).

## Model

| member | source | states |
|---|---|---|
| Http.DefaultProfile | pyvyos/device.py:64-81 | left-out arguments default to https, port 443, verification on, timeout 10 |
| Http.Url | pyvyos/device.py:83-93 | the endpoint starts with `protocol://` and ends with `/command` |
| Http.UrlInjective | pyvyos/device.py:93 | one device sends different commands to different endpoints |
| Http.UrlIsTruthy | pyvyos/device.py:167-168 | the endpoint passed on as `url` is never empty, so it is always written into the payload |
| Decimal.IntToString | pyvyos/device.py:93 | `str(port)` is a digit string, minus-signed when negative, without a leading zero, that parses back to the port |
| Decimal.NatToString | pyvyos/device.py:93 | the digits of a natural number: non-empty, decimal digits only, and no leading zero |
| Decimal.ParseNatToString | pyvyos/device.py:93 | the decimal digits of a natural number parse back to it |
| Json.Truthy | pyvyos/device.py:111 | `bool(v)` is False for exactly six values: None, False, 0, "", [] and {} |
| Json.EqualsTrue | pyvyos/device.py:181 | `v == True` holds exactly for True and the integer 1, and for no value of another type |
| Json.Assign | pyvyos/device.py:125-141 | `d[k] = v` keeps every existing key in its position, grows the dict only for a new key, and puts a new key last with value v |
| Json.Lookup | pyvyos/device.py:181-185 | `d[k]` fails (None) exactly when k is not a key |
| Json.LookupLast | pyvyos/device.py:179-185 | a present key yields the value of its last entry, as `json.loads` keeps the last duplicate |
| Json.LookupAssignSame | pyvyos/device.py:125-127 | after `d[k] = v`, `d[k]` is v |
| Json.LookupAssignOther | pyvyos/device.py:125-127 | `d[k] = v` leaves every other key's value unchanged |
| Json.KeysAssign | pyvyos/device.py:125-127 | `d[k] = v` keeps the key order and appends a new key last |
| Json.AssignTwice | pyvyos/device.py:124-125 | writing the same key and value twice equals writing it once (a dict listed twice) |
| Json.Delete | pyvyos/device.py:199 | `del d[k]` removes every entry with key k and keeps all the others |
| Http.DeleteKeyLeavesData | pyvyos/device.py:198-200 | deleting `key` from `{data, key}` leaves exactly `{data}` |
| Http.WellFormed | pyvyos/device.py:179-185 | only a decoded 200 body can make the code raise, and a body it accepts is a dict holding `success` |
| Http.Classify | pyvyos/device.py:170-196 | keeps the request; status is 0 on connection failure, else the code; a truthy result implies a falsy error; a falsy error implies a decoded 200 |
| Http.Normalise | pyvyos/device.py:171-196 | the branches of the `try` block leave the status, result and error that Classify gives |
| Http.ClassifyCases | pyvyos/device.py:174-196 | each of the five outcomes: connection failure, non-200, undecodable 200, success equal to True, any other success value |
| Http.ZeroStatusIsConnectionFailure | pyvyos/device.py:192-196 | if no server answers with status 0, then status 0 holds exactly on connection failure, and the error then starts with `connection error: ` |
| Http.ConnectionMarkerAtStatus200 | pyvyos/device.py:185 | an application error whose text starts with the connection marker comes back with status 200 |
| Http.EmptySuccessPopulatesNeither | pyvyos/device.py:181-183 | a success whose data is None returns a falsy result and a False error |
| PyVyos.Dict.SetItem | pyvyos/device.py:125 | `d[k] = v` on a dict object is Assign on its entries |
| PyVyos.Snap | pyvyos/device.py:118 | `isinstance(x, dict)` holds exactly for the caller's dict objects |
| PyVyos.SnapAll | pyvyos/device.py:113-119 | the value of the caller's list has one element per item, and a dict exactly where the list holds a dict object |
| PyVyos.ShapeOf | pyvyos/device.py:111-119 | `data` is unbound only when op is falsy; passthrough only when op is falsy and the list starts with a dict |
| PyVyos.UnboundData | pyvyos/device.py:117-119 | a falsy op with a path that is empty or does not start with a dict leaves `data` unbound |
| PyVyos.SeedData | pyvyos/device.py:111-119 | `data` before the optional fields: a list exactly in the batch and passthrough shapes, one element per path element; passthrough is the caller's list itself; each batch element is a dict with keys op and path |
| PyVyos.WithExtras | pyvyos/device.py:122-141 | the optional fields add at most three entries to a dict, and none when all three are falsy |
| PyVyos.ExtendData | pyvyos/device.py:122-141 | writing the optional fields keeps a list a list, with its length |
| PyVyos.BuildData | pyvyos/device.py:110-141 | `data` is a list exactly in the batch and passthrough shapes, and then has one element per path element |
| PyVyos.BuildPayload | pyvyos/device.py:143-146 | the payload has exactly the keys `data` (the encoded data) and `key` (the API key) |
| PyVyos.SetIfGivenFacts | pyvyos/device.py:122-127 | one `if extra:` block sets its key when the value is truthy and changes nothing else |
| PyVyos.CombineKeys | pyvyos/device.py:122-141 | the three blocks keep the old keys in order and append exactly the truthy fields whose key is not there yet, in the order file, url, name |
| PyVyos.CombineValues | pyvyos/device.py:122-141 | after the three blocks, each truthy field is set under its key and every other key keeps its value |
| PyVyos.ExtrasOnDict | pyvyos/device.py:122-141 | the optional fields on one dict: the exact new key list, the new values and the untouched keys together |
| PyVyos.ExistingUrlOverwritten | pyvyos/device.py:129-132 | a dict that already holds `url` has it overwritten in its place, not sent twice |
| PyVyos.NoExtrasNoChange | pyvyos/device.py:122-141 | with all three fields falsy, no element changes |
| PyVyos.OpObjectBuilt | pyvyos/device.py:114-116 | `{op, path}` plus the fields has keys op, path and then the truthy fields, with op and path unchanged |
| PyVyos.BatchShape | pyvyos/device.py:113-114 | truthy op and a path whose first element is a list: one `{op, path: p}` per element, in order, each with the fields; only the first element is checked |
| PyVyos.SingleShape | pyvyos/device.py:115-116 | truthy op with any other path, `[]` included: one `{op, path}` with the path unchanged |
| PyVyos.PassthroughShape | pyvyos/device.py:117-119 | falsy op and a path starting with a dict: the caller's list, each dict keeping its keys in order, followed by exactly the truthy fields it did not already hold, with an existing field overwritten in place; without fields, exactly the list given |
| PyVyos.BuildableFromItems | pyvyos/device.py:111-119 | a bound `data` and a passthrough list of dicts make the value-level specification applicable, with the same shape |
| PyVyos.MakeBatch | pyvyos/device.py:114 | one new dict `{op, path: p}` per element p, in order |
| PyVyos.SetEach | pyvyos/device.py:124-125 | `for d in data: d[k] = v` assigns k in every dict of the list, dicts listed twice included |
| PyVyos.AddExtra | pyvyos/device.py:122-127 | one `if extra:` block on every dict of `data` |
| PyVyos.AddExtras | pyvyos/device.py:122-141 | every dict of `data` receives the fields, so the value of `data` becomes ExtendData of its old value |
| PyVyos.ExtendedList | pyvyos/device.py:122-141 | a list whose dicts received the fields, and whose other elements are unchanged, has the extended value |
| PyVyos.SelectData | pyvyos/device.py:111-119 | `data` holds SeedData of the arguments; it is new dicts when op is truthy, the caller's list otherwise |
| PyVyos.GetPayload | pyvyos/device.py:95-148 | returns BuildPayload of the argument values on entry; with a falsy op the caller's dicts receive the fields in place, otherwise none of them changes |
| PyVyos.RequestSpec | pyvyos/device.py:151-200 | the returned request is exactly `{data}`: the key is gone |
| PyVyos.ApiRequest | pyvyos/device.py:151-200 | posts BuildPayload, with the endpoint as url, to the endpoint, so the caller's url reaches neither the post nor the response; returns RequestSpec; the caller's dicts are updated as GetPayload says |
| PyVyos.UrlInBatch | pyvyos/device.py:129-132 | a truthy url is written into every dict of a batch |
| PyVyos.UrlInSingle | pyvyos/device.py:129-134 | a truthy url is written into the single dict |
| PyVyos.UrlInPassthrough | pyvyos/device.py:129-132 | a truthy url is written into every passthrough dict |
| PyVyos.EndpointInEveryDict | pyvyos/device.py:167-168 | every dict that `_api_request` sends carries the endpoint under `url` |
| PyVyos.Forward | pyvyos/device.py:202-375 | which operations share a command (retrieve, image, configure); only `configure_multiple_op` has a falsy op; reboot and poweroff default to `["now"]`; the image and config-file operations pass no path; only `image_add` passes a url, only `image_delete` a name and only the config-file operations a file; the `file` and `path` arguments of both image operations are dropped |
| PyVyos.OnlyMultipleOpCanRaise | pyvyos/device.py:316-327 | every named operation completes, except `configure_multiple_op`, which needs a non-empty list of dicts |
| PyVyos.Invoke | pyvyos/device.py:202-375 | a named operation posts BuildPayload of its forward to its command's endpoint and returns RequestSpec; only `configure_multiple_op` writes the fields into the caller's dicts, every other operation leaves them unchanged |
| PyVyos.ImageAddSendsEndpointUrl | pyvyos/device.py:238-250 | as written, `image_add(url=u)` sends `{op: add, path: [], url: <endpoint>}` and u nowhere |
| PyVyos.IntendedRequest | pyvyos/device.py:151-168 | corrected request: the payload carries the caller's url, and the returned request is `{data}` |
| PyVyos.IntendedImageAddSendsImageUrl | pyvyos/device.py:238-250 | with the correction, `image_add(url=u)` sends u under `url`, and no `url` key when u is falsy |
| PyVyos.IntendedAgreesAtEndpoint | pyvyos/device.py:167-168 | the correction changes nothing when the caller's url is the endpoint itself |
| VyApi.PayloadData | vyapi/device.py:29-42 | with `file is not None` (even `""`), `data` is exactly `{op, file}`; otherwise exactly `{op, path}` with the path unchanged |
| VyApi.GetPayload | vyapi/device.py:29-42 | the payload has exactly the keys `data` and `key == apikey` |
| VyApi.ApiRequest | vyapi/device.py:44-77 | posts to the endpoint with the profile's settings, and returns the posted payload itself as the request |
| VyApi.FileReplacesPath | vyapi/device.py:30-37 | a given file is sent, and no path is |
| VyApi.PathWithoutFile | vyapi/device.py:38-42 | without a file the path is sent unchanged, and no file is |
| VyApi.KeyEchoed | vyapi/device.py:77 | the returned request still holds the API key |
| VyApi.ResponseCases | vyapi/device.py:53-75 | the five outcomes, as in the current revision |
| VyApi.Forward | vyapi/device.py:80-111 | the five working operations: path operations pass no file, file operations pass no path |
| VyApi.Invoke | vyapi/device.py:80-111 | an operation posts to its command's endpoint and returns what it posted |
| VyApi.SaveWithoutFileSendsEmptyPath | vyapi/device.py:107-108 | `config_file_save()` without a file sends `{op: save, path: []}` |
| Revisions.SinglePathAgreesUpToUrl | pyvyos/device.py:167-168 | for a single-object call without file or name: same status, result and error in both revisions; the current data is the older data plus `url`; only the older revision returns the key |
| Revisions.EmptyFileDiffers | vyapi/device.py:30 | an empty file name replaces the path in the older revision and is dropped by the current one |
| Revisions.FileBesidePath | vyapi/device.py:30-37 | a non-empty file replaces the path in the older revision and is sent beside it in the current one |

## Left out

- The network call (`requests.post`) is replaced by the `Outcome` input. TLS verification and the timeout only appear as fields of the modelled `Post`.
- Exceptions the code does not catch are preconditions (`WellFormed`, `DataBound`, `ExtrasFit`). These are a decoded body without `success`, or without the `data`/`error` key its branch reads, or one that is not an object; and transport errors other than `ConnectionError`, such as read timeouts.
- A failed decode is modelled as a `None` body. Which exception the installed JSON library raises for it is not modelled.
- The body of a non-200 response is not modelled, because the code never reads it.
- The text that `json.dumps` produces and `resp.json()` parses is not modelled; the model works on the values before encoding and after decoding.
- `urllib3.disable_warnings()` and the `pprint` calls of the older revision are console side effects and are left out.
- The `method` argument of `_api_request` is never read, so it is not modelled.
- The `headers` dict is always empty, so it is not modelled.
- The older revision's stubs `retrieve_return_values`, `reset`, `image_add`, `image_delete`, `show` and `generate` return None and contain no logic, so they are not modelled.
- `path` is always a list. A caller passing a string or another non-list is not modelled, so the `isinstance(path, list)` test always holds.
- Only the top level of a list is made of mutable dict objects (`Item.DictRef`). A dict nested deeper is a plain value, so the model does not capture aliasing between a top-level passthrough dict and the same dict object nested inside another element: there, the source's write would also show in the nested copy.
- Profile.port is an `int`. The callers in the repository pass the string read from the environment, and `f"{port}"` inserts such a string unchanged; a port given as a string is not modelled.
- PyVyos.MakeBatch and PyVyos.SelectData copy the value of a path element into the new dict. The source stores a reference to it instead. Nothing writes into that element before `json.dumps`, so the payload is the same.
- Floating-point numbers are not among the modelled JSON values.
- Python's mutable default argument `path=[]` is not modelled. No modelled code writes into it: a passthrough list must start with a dict, so it is never empty.

## Findings

| source | as written | input that shows it | evidently intended | confidence | as-written member | corrected member |
|---|---|---|---|---|---|---|
| pyvyos/device.py:167-168 | `url` is rebound to the endpoint before `_get_payload` is called, so the caller's `url` never reaches the payload | `image_add(url="http://example.org/vyos.iso")` sends `url` = the endpoint `.../image` | the image source url from `image_add` (line 250) goes into the payload, and the endpoint is used only for the POST | not executed | PyVyos.ImageAddSendsEndpointUrl | PyVyos.IntendedImageAddSendsImageUrl |

The main model (`PyVyos.ApiRequest`, `PyVyos.Invoke`) keeps the behaviour as
written. `PyVyos.IntendedRequest` is the corrected request.
`PyVyos.IntendedAgreesAtEndpoint` proves that the two agree whenever the url
carried in the payload is the endpoint.

Three properties a reader of the code might expect do not hold, and the
model states what the code does instead:

- Status 0 does not by itself mark a connection failure: an application error
  whose text starts with `connection error: ` comes back with status 200
  (`Http.ConnectionMarkerAtStatus200`).
- A call does not always fill in either the result or the error: a success
  whose `data` is None leaves a falsy result and the error False
  (`Http.EmptySuccessPopulatesNeither`).
- Not every fault is turned into an ApiResponse: malformed 200 bodies and
  transport errors other than `ConnectionError` raise. They are the
  preconditions listed under "Left out".
