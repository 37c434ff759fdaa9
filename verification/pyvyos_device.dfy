/** The current revision of the VyOS API client (pyvyos/device.py): payload
    construction with its three shapes and optional fields, the request
    executor with key redaction, and the named operations that forward to it.

    Dicts that `_get_payload` writes into are objects of class Dict, so that
    the writes into a caller's own dicts (the passthrough shape) are updates
    in place, as in the source. Everything the source only reads is a value. */
module PyVyos {
  import opened Wrappers
  import opened Json
  import opened Http

  /** A Python dict object whose entries `_get_payload` may overwrite. */
  class Dict {
    var entries: seq<(string, JVal)>

    constructor (entries: seq<(string, JVal)>)
      ensures this.entries == entries
    {
      this.entries := entries;
    }

    /** `d[k] = v`. */
    method SetItem(k: string, v: JVal)
      modifies this
      ensures entries == Assign(old(entries), k, v)
    {
      entries := Assign(entries, k, v);
    }
  }

  /** Any value that is not a dict. */
  type Leaf = v: JVal | !v.JObj? witness JNull

  /** An element of the caller's `path` list: a plain value (a path segment,
      an inner path list, ...) or one of the caller's dict objects. */
  datatype Item = Plain(v: Leaf) | DictRef(d: Dict)

  /** The dict objects a list holds at its top level. */
  function Objects(items: seq<Item>): set<Dict> {
    set x | x in items && x.DictRef? :: x.d
  }

  /** The value an element currently has; `isinstance(x, dict)` holds exactly
      for dict objects. */
  function Snap(x: Item): (v: JVal)
    reads if x.DictRef? then {x.d} else {}
    ensures v.JObj? <==> x.DictRef?
  {
    match x
    case Plain(v) => v
    case DictRef(d) => JObj(d.entries)
  }

  /** The value a list currently has, element by element. */
  function SnapAll(items: seq<Item>): (vs: seq<JVal>)
    reads Objects(items)
    ensures |vs| == |items|
    ensures forall i :: 0 <= i < |items| ==> (vs[i].JObj? <==> items[i].DictRef?)
    ensures forall i :: 0 <= i < |items| && items[i].Plain? ==> vs[i] == items[i].v
  {
    seq(|items|, i reads Objects(items) requires 0 <= i < |items| => Snap(items[i]))
  }

  // ---------------------------------------------------------------------
  // The payload as a value: what `_get_payload` builds from the values of
  // its arguments.
  // ---------------------------------------------------------------------

  /** The three shapes `data` can take. */
  datatype Shape = Single | Batch | Passthrough

  /** The shape `_get_payload` selects, or None when `data` is never bound
      (falsy op, and a path that is empty or does not start with a dict). */
  function ShapeOf(op: JVal, path: seq<JVal>): (s: Option<Shape>)
    ensures s.None? ==> !Truthy(op)
    ensures s == Some(Passthrough) ==> !Truthy(op) && |path| > 0 && path[0].JObj?
  {
    if Truthy(op) then
      if |path| > 0 && path[0].JArr? then Some(Batch) else Some(Single)
    else if |path| > 0 && path[0].JObj? then Some(Passthrough)
    else None
  }

  predicate AnyExtra(file: JVal, url: JVal, name: JVal) {
    Truthy(file) || Truthy(url) || Truthy(name)
  }

  /** The arguments for which `_get_payload` returns: `data` is bound, and a
      passthrough list that gets an extra key holds only dicts (writing a key
      into any other element raises TypeError). */
  predicate Buildable(op: JVal, path: seq<JVal>, file: JVal, url: JVal, name: JVal) {
    && ShapeOf(op, path).Some?
    && (ShapeOf(op, path) == Some(Passthrough) && AnyExtra(file, url, name) ==>
          forall i :: 0 <= i < |path| ==> path[i].JObj?)
  }

  /** One `if extra: d[key] = extra` step. */
  function SetIfGiven(fs: seq<(string, JVal)>, k: string, v: JVal): seq<(string, JVal)> {
    if Truthy(v) then Assign(fs, k, v) else fs
  }

  /** The three optional fields written into one dict, file then url then name. */
  function WithExtras(fs: seq<(string, JVal)>, file: JVal, url: JVal, name: JVal): (r: seq<(string, JVal)>)
    ensures |fs| <= |r| <= |fs| + 3
    ensures !AnyExtra(file, url, name) ==> r == fs
  {
    SetIfGiven(SetIfGiven(SetIfGiven(fs, "file", file), "url", url), "name", name)
  }

  /** A passthrough element after the optional fields are written into it. */
  function ExtendItem(x: JVal, file: JVal, url: JVal, name: JVal): JVal {
    if x.JObj? then JObj(WithExtras(x.fields, file, url, name)) else x
  }

  /** The keys the optional fields add to a dict whose keys are `keys`: each
      truthy field whose key is not there yet, in the order file, url, name.
      A key that is already there is overwritten in its place. */
  function AddedKeys(keys: seq<string>, file: JVal, url: JVal, name: JVal): seq<string> {
    (if Truthy(file) && "file" !in keys then ["file"] else []) +
    (if Truthy(url) && "url" !in keys then ["url"] else []) +
    (if Truthy(name) && "name" !in keys then ["name"] else [])
  }

  /** `after` is `before` with every truthy optional field written under its
      own key: the old keys keep their order and are followed by exactly the
      new ones, every other key keeps its value, and a falsy field changes
      nothing. */
  ghost predicate ExtrasWritten(before: seq<(string, JVal)>, after: seq<(string, JVal)>, file: JVal, url: JVal, name: JVal) {
    && Keys(after) == Keys(before) + AddedKeys(Keys(before), file, url, name)
    && Lookup(after, "file") == (if Truthy(file) then Some(file) else Lookup(before, "file"))
    && Lookup(after, "url") == (if Truthy(url) then Some(url) else Lookup(before, "url"))
    && Lookup(after, "name") == (if Truthy(name) then Some(name) else Lookup(before, "name"))
    && (forall k :: k != "file" && k != "url" && k != "name" ==> Lookup(after, k) == Lookup(before, k))
  }

  /** `data` as first built, before any optional field is written: a dict
      `{op, path: p}` per element p (batch), one dict `{op, path}` (single),
      or the caller's own list (passthrough). */
  function SeedData(op: JVal, path: seq<JVal>): (data: JVal)
    requires ShapeOf(op, path).Some?
    ensures data.JArr? <==> ShapeOf(op, path) != Some(Single)
    ensures data.JArr? ==> |data.items| == |path|
    ensures ShapeOf(op, path) == Some(Passthrough) ==> data == JArr(path)
    ensures ShapeOf(op, path) == Some(Batch) ==>
      forall i :: 0 <= i < |path| ==> data.items[i].JObj? && Keys(data.items[i].fields) == ["op", "path"]
  {
    match ShapeOf(op, path).value
    case Batch => JArr(seq(|path|, i requires 0 <= i < |path| => JObj([("op", op), ("path", path[i])])))
    case Single => JObj([("op", op), ("path", JArr(path))])
    case Passthrough => JArr(path)
  }

  /** The three `if extra:` blocks applied to `data`: to the single dict, or
      to every dict of the list. */
  function ExtendData(data: JVal, file: JVal, url: JVal, name: JVal): (r: JVal)
    ensures r.JArr? <==> data.JArr?
    ensures r.JArr? ==> |r.items| == |data.items|
  {
    if data.JArr? then JArr(seq(|data.items|, i requires 0 <= i < |data.items| => ExtendItem(data.items[i], file, url, name)))
    else ExtendItem(data, file, url, name)
  }

  /** The value `json.dumps` is applied to. */
  function BuildData(op: JVal, path: seq<JVal>, file: JVal, url: JVal, name: JVal): (data: JVal)
    requires Buildable(op, path, file, url, name)
    ensures data.JArr? <==> ShapeOf(op, path) != Some(Single)
    ensures data.JArr? ==> |data.items| == |path|
  {
    ExtendData(SeedData(op, path), file, url, name)
  }

  /** The dict `_get_payload` returns. */
  function BuildPayload(apikey: string, op: JVal, path: seq<JVal>, file: JVal, url: JVal, name: JVal): (payload: Form)
    requires Buildable(op, path, file, url, name)
    ensures Keys(payload) == ["data", "key"]
    ensures Lookup(payload, "data") == Some(Dumped(BuildData(op, path, file, url, name)))
    ensures Lookup(payload, "key") == Some(Text(apikey))
  {
    [("data", Dumped(BuildData(op, path, file, url, name))), ("key", Text(apikey))]
  }

  // ---------------------------------------------------------------------
  // Properties of the payload.
  // ---------------------------------------------------------------------

  /** Writing the optional fields into a dict does what ExtrasWritten says. */
  lemma ExtrasOnDict(fs: seq<(string, JVal)>, file: JVal, url: JVal, name: JVal)
    ensures ExtrasWritten(fs, WithExtras(fs, file, url, name), file, url, name)
  {
    var f1 := SetIfGiven(fs, "file", file);
    var f2 := SetIfGiven(f1, "url", url);
    var f3 := SetIfGiven(f2, "name", name);
    SetIfGivenFacts(fs, "file", file);
    SetIfGivenFacts(f1, "url", url);
    SetIfGivenFacts(f2, "name", name);
    CombineKeys(fs, f1, f2, f3, file, url, name);
    CombineValues(fs, f1, f2, f3, file, url, name);
  }

  /** What one `if extra: d[key] = extra` step does to the key order. */
  ghost predicate StepKeys(before: seq<(string, JVal)>, after: seq<(string, JVal)>, k: string, v: JVal) {
    Keys(after) == (if Truthy(v) && k !in Keys(before) then Keys(before) + [k] else Keys(before))
  }

  /** What one `if extra: d[key] = extra` step does to the values. */
  ghost predicate StepValues(before: seq<(string, JVal)>, after: seq<(string, JVal)>, k: string, v: JVal) {
    && Lookup(after, k) == (if Truthy(v) then Some(v) else Lookup(before, k))
    && forall k' :: k' != k ==> Lookup(after, k') == Lookup(before, k')
  }

  lemma CombineKeys(fs: seq<(string, JVal)>, f1: seq<(string, JVal)>, f2: seq<(string, JVal)>, f3: seq<(string, JVal)>,
                    file: JVal, url: JVal, name: JVal)
    requires StepKeys(fs, f1, "file", file) && StepKeys(f1, f2, "url", url) && StepKeys(f2, f3, "name", name)
    ensures Keys(f3) == Keys(fs) + AddedKeys(Keys(fs), file, url, name)
  {
    var ks := Keys(fs);
    var a1: seq<string> := if Truthy(file) && "file" !in ks then ["file"] else [];
    var a2: seq<string> := if Truthy(url) && "url" !in ks then ["url"] else [];
    var a3: seq<string> := if Truthy(name) && "name" !in ks then ["name"] else [];
    assert Keys(f1) == ks + a1;
    assert ("url" in ks + a1) <==> "url" in ks;
    assert Keys(f2) == ks + a1 + a2;
    assert ("name" in ks + a1 + a2) <==> "name" in ks;
    assert Keys(f3) == ks + a1 + a2 + a3;
  }

  lemma CombineValues(fs: seq<(string, JVal)>, f1: seq<(string, JVal)>, f2: seq<(string, JVal)>, f3: seq<(string, JVal)>,
                      file: JVal, url: JVal, name: JVal)
    requires StepValues(fs, f1, "file", file) && StepValues(f1, f2, "url", url) && StepValues(f2, f3, "name", name)
    ensures Lookup(f3, "file") == (if Truthy(file) then Some(file) else Lookup(fs, "file"))
    ensures Lookup(f3, "url") == (if Truthy(url) then Some(url) else Lookup(fs, "url"))
    ensures Lookup(f3, "name") == (if Truthy(name) then Some(name) else Lookup(fs, "name"))
    ensures forall k :: k != "file" && k != "url" && k != "name" ==> Lookup(f3, k) == Lookup(fs, k)
  {
  }

  /** One optional field: its key takes the value when it is truthy, every
      other key keeps its value, and the key order is kept, with a new key last. */
  lemma SetIfGivenFacts(fs: seq<(string, JVal)>, k: string, v: JVal)
    ensures StepKeys(fs, SetIfGiven(fs, k, v), k, v)
    ensures StepValues(fs, SetIfGiven(fs, k, v), k, v)
  {
    if Truthy(v) {
      KeysAssign(fs, k, v);
      LookupAssignSame(fs, k, v);
      forall k' | k' != k
        ensures Lookup(Assign(fs, k, v), k') == Lookup(fs, k')
      {
        LookupAssignOther(fs, k, v, k');
      }
    }
  }

  /** The shape of one dict built as `{'op': op, 'path': p}` and then given
      the optional fields. */
  ghost predicate OpObject(x: JVal, op: JVal, p: JVal, file: JVal, url: JVal, name: JVal) {
    && x.JObj?
    && Keys(x.fields) == ["op", "path"] + AddedKeys(["op", "path"], file, url, name)
    && ExtrasWritten([("op", op), ("path", p)], x.fields, file, url, name)
  }

  lemma OpObjectBuilt(op: JVal, p: JVal, file: JVal, url: JVal, name: JVal)
    ensures OpObject(JObj(WithExtras([("op", op), ("path", p)], file, url, name)), op, p, file, url, name)
  {
    var fs := [("op", op), ("path", p)];
    ExtrasOnDict(fs, file, url, name);
    assert Keys(fs) == ["op", "path"];
  }

  /** A truthy op and a path whose first element is a list: one dict
      `{op, path: p}` per element p, in order, each with the optional fields.
      Only the first element is checked to be a list. */
  lemma BatchShape(op: JVal, path: seq<JVal>, file: JVal, url: JVal, name: JVal)
    requires Truthy(op) && |path| > 0 && path[0].JArr?
    ensures Buildable(op, path, file, url, name)
    ensures var data := BuildData(op, path, file, url, name);
      && data.JArr? && |data.items| == |path|
      && forall i :: 0 <= i < |path| ==> OpObject(data.items[i], op, path[i], file, url, name)
  {
    assert ShapeOf(op, path) == Some(Batch);
    var data := BuildData(op, path, file, url, name);
    forall i | 0 <= i < |path|
      ensures OpObject(data.items[i], op, path[i], file, url, name)
    {
      assert data.items[i] == JObj(WithExtras([("op", op), ("path", path[i])], file, url, name));
      OpObjectBuilt(op, path[i], file, url, name);
    }
  }

  /** A truthy op with any other path, the empty path included: a single
      dict `{op, path}` carrying the path unchanged, with the optional fields. */
  lemma SingleShape(op: JVal, path: seq<JVal>, file: JVal, url: JVal, name: JVal)
    requires Truthy(op) && !(|path| > 0 && path[0].JArr?)
    ensures Buildable(op, path, file, url, name)
    ensures OpObject(BuildData(op, path, file, url, name), op, JArr(path), file, url, name)
  {
    assert ShapeOf(op, path) == Some(Single);
    assert BuildData(op, path, file, url, name) == JObj(WithExtras([("op", op), ("path", JArr(path))], file, url, name));
    OpObjectBuilt(op, JArr(path), file, url, name);
  }

  /** A falsy op and a path that starts with a dict: the caller's own list is
      the data, each of its dicts given the optional fields and nothing else;
      without optional fields it goes out exactly as given. */
  lemma PassthroughShape(op: JVal, path: seq<JVal>, file: JVal, url: JVal, name: JVal)
    requires !Truthy(op) && |path| > 0 && path[0].JObj?
    requires Buildable(op, path, file, url, name)
    ensures var data := BuildData(op, path, file, url, name);
      && data.JArr? && |data.items| == |path|
      && (!AnyExtra(file, url, name) ==> data == JArr(path))
      && forall i :: 0 <= i < |path| && path[i].JObj? ==>
           data.items[i].JObj? && ExtrasWritten(path[i].fields, data.items[i].fields, file, url, name)
  {
    assert ShapeOf(op, path) == Some(Passthrough);
    assert SeedData(op, path) == JArr(path);
    var data := BuildData(op, path, file, url, name);
    assert forall i :: 0 <= i < |path| ==> data.items[i] == ExtendItem(path[i], file, url, name);
    forall i | 0 <= i < |path| && path[i].JObj?
      ensures data.items[i].JObj? && ExtrasWritten(path[i].fields, data.items[i].fields, file, url, name)
    {
      ExtendedDict(path[i], file, url, name);
    }
    if !AnyExtra(file, url, name) {
      forall i | 0 <= i < |path|
        ensures data.items[i] == path[i]
      {
        NoExtrasNoChange(path[i], file, url, name);
      }
      assert data.items == path;
    }
  }

  /** One dict of a passthrough list after the optional fields are written. */
  lemma ExtendedDict(x: JVal, file: JVal, url: JVal, name: JVal)
    requires x.JObj?
    ensures ExtendItem(x, file, url, name).JObj?
    ensures ExtrasWritten(x.fields, ExtendItem(x, file, url, name).fields, file, url, name)
  {
    ExtrasOnDict(x.fields, file, url, name);
  }

  /** A caller's dict that already holds `url` has it overwritten in place:
      the key keeps its position and is not sent twice. */
  lemma ExistingUrlOverwritten(op: JVal, previous: JVal, url: JVal)
    requires Truthy(url)
    ensures WithExtras([("op", op), ("url", previous)], JNull, url, JNull) == [("op", op), ("url", url)]
  {
    var fs := [("op", op), ("url", previous)];
    assert Keys(fs) == ["op", "url"];
  }

  lemma NoExtrasNoChange(x: JVal, file: JVal, url: JVal, name: JVal)
    requires !AnyExtra(file, url, name)
    ensures ExtendItem(x, file, url, name) == x
  {
  }

  /** A falsy op (None or "") with a path that is empty or does not start
      with a dict leaves `data` unbound, so the call raises. */
  lemma UnboundData(op: JVal, path: seq<JVal>)
    requires !Truthy(op) && !(|path| > 0 && path[0].JObj?)
    ensures ShapeOf(op, path).None?
  {
  }

  // ---------------------------------------------------------------------
  // `_get_payload` on the heap.
  // ---------------------------------------------------------------------

  /** `data` is bound: op is truthy, or the list starts with a dict. */
  predicate DataBound(op: JVal, path: seq<Item>) {
    Truthy(op) || (|path| > 0 && path[0].DictRef?)
  }

  /** No optional field is written into a passthrough element that is not a dict. */
  predicate ExtrasFit(op: JVal, path: seq<Item>, file: JVal, url: JVal, name: JVal) {
    !Truthy(op) && AnyExtra(file, url, name) ==> forall i :: 0 <= i < |path| ==> path[i].DictRef?
  }

  lemma BuildableFromItems(op: JVal, path: seq<Item>, file: JVal, url: JVal, name: JVal, vs: seq<JVal>)
    requires DataBound(op, path) && ExtrasFit(op, path, file, url, name)
    requires |vs| == |path| && forall i :: 0 <= i < |path| ==> (vs[i].JObj? <==> path[i].DictRef?)
    requires |path| > 0 ==> (vs[0].JArr? <==> path[0].Plain? && path[0].v.JArr?)
    ensures Buildable(op, vs, file, url, name)
    ensures ShapeOf(op, vs) == Some(Passthrough) <==> !Truthy(op)
    ensures ShapeOf(op, vs) == Some(Batch) <==> Truthy(op) && |path| > 0 && path[0].Plain? && path[0].v.JArr?
  {
  }

  /** The local `data`: one dict, or a list (batch or passthrough). */
  datatype Data = One(obj: Dict) | Many(items: seq<Item>)

  function Footprint(data: Data): set<Dict> {
    match data
    case One(o) => {o}
    case Many(xs) => Objects(xs)
  }

  function DataValue(data: Data): JVal
    reads Footprint(data)
  {
    match data
    case One(o) => JObj(o.entries)
    case Many(xs) => JArr(SnapAll(xs))
  }

  /** `[{'op': op, 'path': p} for p in path]`: a new dict for every element. */
  method MakeBatch(op: JVal, path: seq<Item>) returns (made: seq<Item>)
    ensures |made| == |path|
    ensures forall i :: 0 <= i < |made| ==> made[i].DictRef? && fresh(made[i].d)
    ensures forall i :: 0 <= i < |made| ==> made[i].d.entries == [("op", op), ("path", Snap(path[i]))]
  {
    made := [];
    var i := 0;
    while i < |path|
      invariant 0 <= i <= |path| && |made| == i
      invariant forall j :: 0 <= j < i ==> made[j].DictRef? && fresh(made[j].d)
      invariant forall j :: 0 <= j < i ==> made[j].d.entries == [("op", op), ("path", Snap(path[j]))]
    {
      var d := new Dict([("op", op), ("path", Snap(path[i]))]);
      made := made + [DictRef(d)];
      i := i + 1;
    }
  }

  /** `for d in data: d[k] = v`, over a list whose elements are all dicts.
      A dict that occurs twice is written twice, to the same effect. */
  method SetEach(items: seq<Item>, k: string, v: JVal)
    requires forall i :: 0 <= i < |items| ==> items[i].DictRef?
    modifies Objects(items)
    ensures forall d :: d in Objects(items) ==> d.entries == Assign(old(d.entries), k, v)
  {
    ghost var done: set<Dict> := {};
    var i := 0;
    while i < |items|
      invariant 0 <= i <= |items|
      invariant done <= Objects(items)
      invariant forall j :: 0 <= j < i ==> items[j].d in done
      invariant forall d :: d in Objects(items) ==>
        d.entries == if d in done then Assign(old(d.entries), k, v) else old(d.entries)
    {
      var d := items[i].d;
      AssignTwice(old(d.entries), k, v);
      d.SetItem(k, v);
      done := done + {d};
      i := i + 1;
    }
  }

  /** One `if extra:` block: write `extra` under its key into the single dict
      or into every dict of the list. */
  method AddExtra(data: Data, k: string, v: JVal)
    requires data.Many? && Truthy(v) ==> forall i :: 0 <= i < |data.items| ==> data.items[i].DictRef?
    modifies Footprint(data)
    ensures forall d :: d in Footprint(data) ==> d.entries == SetIfGiven(old(d.entries), k, v)
  {
    if Truthy(v) {
      match data
      case Many(xs) => SetEach(xs, k, v);
      case One(o) => o.SetItem(k, v);
    }
  }

  /** The three `if extra:` blocks in order: file, url, name. Every dict of
      `data` receives the optional fields, so the value of `data` becomes
      ExtendData of its old value. */
  method AddExtras(data: Data, file: JVal, url: JVal, name: JVal)
    requires data.Many? && AnyExtra(file, url, name) ==>
      forall i :: 0 <= i < |data.items| ==> data.items[i].DictRef?
    modifies Footprint(data)
    ensures forall d :: d in Footprint(data) ==> d.entries == WithExtras(old(d.entries), file, url, name)
    ensures DataValue(data) == ExtendData(old(DataValue(data)), file, url, name)
  {
    ghost var olds := DataValue(data);
    label Start:
    AddExtra(data, "file", file);
    label AfterFile:
    AddExtra(data, "url", url);
    label AfterUrl:
    AddExtra(data, "name", name);
    assert forall d :: d in Footprint(data) ==>
      old@AfterFile(d.entries) == SetIfGiven(old@Start(d.entries), "file", file);
    assert forall d :: d in Footprint(data) ==>
      old@AfterUrl(d.entries) == SetIfGiven(old@AfterFile(d.entries), "url", url);
    if data.Many? {
      var xs := data.items;
      forall i | 0 <= i < |xs| && xs[i].DictRef?
        ensures olds.items[i].JObj? && xs[i].d.entries == WithExtras(olds.items[i].fields, file, url, name)
      {
        assert xs[i].d in Footprint(data);
      }
      ExtendedList(xs, olds.items, file, url, name);
    }
  }

  /** A list whose dicts have received the optional fields, and whose other
      elements are unchanged, has ExtendData of its old value. */
  lemma ExtendedList(xs: seq<Item>, olds: seq<JVal>, file: JVal, url: JVal, name: JVal)
    requires |olds| == |xs|
    requires forall i :: 0 <= i < |xs| && xs[i].DictRef? ==>
      olds[i].JObj? && xs[i].d.entries == WithExtras(olds[i].fields, file, url, name)
    requires forall i :: 0 <= i < |xs| && xs[i].Plain? ==> olds[i] == xs[i].v
    ensures SnapAll(xs) == ExtendData(JArr(olds), file, url, name).items
  {
    forall i | 0 <= i < |xs|
      ensures Snap(xs[i]) == ExtendItem(olds[i], file, url, name)
    {
    }
  }

  /** The first step of `_get_payload`: new dicts (batch, single) or the
      caller's own list (passthrough), holding SeedData of the arguments. */
  method SelectData(op: JVal, path: seq<Item>) returns (data: Data)
    requires DataBound(op, path)
    ensures ShapeOf(op, SnapAll(path)).Some?
    ensures DataValue(data) == SeedData(op, SnapAll(path))
    ensures Truthy(op) ==> forall d :: d in Footprint(data) ==> fresh(d)
    ensures !Truthy(op) ==> data == Many(path)
  {
    ghost var before := SnapAll(path);
    assert |path| > 0 ==> (before[0].JArr? <==> path[0].Plain? && path[0].v.JArr?);
    if Truthy(op) {
      if |path| > 0 && path[0].Plain? && path[0].v.JArr? {
        assert ShapeOf(op, before) == Some(Batch);
        var made := MakeBatch(op, path);
        data := Many(made);
        assert SnapAll(path) == before;
        assert SnapAll(made) == seq(|path|, i requires 0 <= i < |path| => JObj([("op", op), ("path", before[i])]));
        assert DataValue(data) == SeedData(op, before);
      } else {
        assert ShapeOf(op, before) == Some(Single);
        var single := new Dict([("op", op), ("path", JArr(SnapAll(path)))]);
        data := One(single);
        assert DataValue(data) == SeedData(op, before);
      }
    } else {
      assert ShapeOf(op, before) == Some(Passthrough);
      data := Many(path);
      assert DataValue(data) == SeedData(op, before);
    }
    assert SnapAll(path) == before;
  }

  /** `_get_payload`. The result is BuildPayload of the values the arguments
      had on entry. In the passthrough shape the caller's own dicts receive
      the optional fields in place; otherwise they are left alone. */
  method GetPayload(dev: Profile, op: JVal, path: seq<Item>, file: JVal, url: JVal, name: JVal)
    returns (payload: Form)
    requires DataBound(op, path)
    requires ExtrasFit(op, path, file, url, name)
    modifies Objects(path)
    ensures Buildable(op, old(SnapAll(path)), file, url, name)
    ensures payload == BuildPayload(dev.apikey, op, old(SnapAll(path)), file, url, name)
    ensures !Truthy(op) ==>
      forall d :: d in Objects(path) ==> d.entries == WithExtras(old(d.entries), file, url, name)
    ensures Truthy(op) ==> unchanged(Objects(path))
  {
    BuildableFromItems(op, path, file, url, name, SnapAll(path));
    var data := SelectData(op, path);
    AddExtras(data, file, url, name);
    payload := [("data", Dumped(DataValue(data))), ("key", Text(dev.apikey))];
  }

  // ---------------------------------------------------------------------
  // `_api_request`.
  // ---------------------------------------------------------------------

  /** The response `_api_request` returns, in terms of the argument values.
      It takes no url: the endpoint address takes the caller's url's place
      before the payload is built. */
  function RequestSpec(dev: Profile, command: string, op: JVal, path: seq<JVal>,
                       file: JVal, name: JVal, outcome: Outcome): (r: ApiResponse)
    requires Buildable(op, path, file, JStr(Url(dev, command)), name)
    requires WellFormed(outcome)
    ensures Keys(r.request) == ["data"]
    ensures r.request == [("data", Dumped(BuildData(op, path, file, JStr(Url(dev, command)), name)))]
  {
    var payload := BuildPayload(dev.apikey, op, path, file, JStr(Url(dev, command)), name);
    DeleteKeyLeavesData(payload[0].1, dev.apikey);
    Classify(outcome, Delete(payload, "key"))
  }

  /** `_api_request`. `sent` is what `requests.post` is handed, with the key;
      the response carries the payload without it. The transport's answer is
      the `outcome` argument. */
  method ApiRequest(dev: Profile, command: string, op: JVal, path: seq<Item>,
                    file: JVal, url: JVal, name: JVal, outcome: Outcome)
    returns (sent: Post, r: ApiResponse)
    requires DataBound(op, path)
    requires !Truthy(op) ==> forall i :: 0 <= i < |path| ==> path[i].DictRef?
    requires WellFormed(outcome)
    modifies Objects(path)
    ensures Buildable(op, old(SnapAll(path)), file, JStr(Url(dev, command)), name)
    ensures sent == Post(Url(dev, command),
                         BuildPayload(dev.apikey, op, old(SnapAll(path)), file, JStr(Url(dev, command)), name),
                         dev.verify, dev.timeout)
    ensures r == RequestSpec(dev, command, op, old(SnapAll(path)), file, name, outcome)
    ensures !Truthy(op) ==>
      forall d :: d in Objects(path) ==> d.entries == WithExtras(old(d.entries), file, JStr(Url(dev, command)), name)
    ensures Truthy(op) ==> unchanged(Objects(path))
  {
    var endpoint := Url(dev, command);
    UrlIsTruthy(dev, command);
    var payload := GetPayload(dev, op, path, file, JStr(endpoint), name);
    sent := Post(endpoint, payload, dev.verify, dev.timeout);

    var status, result, error := Normalise(outcome);
    DeleteKeyLeavesData(payload[0].1, dev.apikey);
    payload := Delete(payload, "key");
    r := ApiResponse(status, payload, result, error);
  }

  /** Every dict of the data carries a truthy url under "url". */
  predicate UrlEverywhere(data: JVal, url: JVal) {
    && (data.JObj? ==> Lookup(data.fields, "url") == Some(url))
    && (data.JArr? ==> forall i :: 0 <= i < |data.items| ==>
          data.items[i].JObj? && Lookup(data.items[i].fields, "url") == Some(url))
  }

  lemma UrlInBatch(op: JVal, path: seq<JVal>, file: JVal, url: JVal, name: JVal)
    requires Truthy(op) && |path| > 0 && path[0].JArr? && Truthy(url)
    ensures Buildable(op, path, file, url, name)
    ensures UrlEverywhere(BuildData(op, path, file, url, name), url)
  {
    BatchShape(op, path, file, url, name);
  }

  lemma UrlInSingle(op: JVal, path: seq<JVal>, file: JVal, url: JVal, name: JVal)
    requires Truthy(op) && !(|path| > 0 && path[0].JArr?) && Truthy(url)
    ensures Buildable(op, path, file, url, name)
    ensures UrlEverywhere(BuildData(op, path, file, url, name), url)
  {
    SingleShape(op, path, file, url, name);
  }

  lemma UrlInPassthrough(op: JVal, path: seq<JVal>, file: JVal, url: JVal, name: JVal)
    requires !Truthy(op) && |path| > 0 && path[0].JObj? && Truthy(url)
    requires Buildable(op, path, file, url, name)
    ensures UrlEverywhere(BuildData(op, path, file, url, name), url)
  {
    PassthroughShape(op, path, file, url, name);
  }

  /** Every dict of the data `_api_request` sends carries the endpoint
      address under "url". */
  lemma EndpointInEveryDict(dev: Profile, command: string, op: JVal, path: seq<JVal>, file: JVal, name: JVal)
    requires Buildable(op, path, file, JStr(Url(dev, command)), name)
    ensures UrlEverywhere(BuildData(op, path, file, JStr(Url(dev, command)), name), JStr(Url(dev, command)))
  {
    var u := JStr(Url(dev, command));
    UrlIsTruthy(dev, command);
    if Truthy(op) {
      if |path| > 0 && path[0].JArr? {
        UrlInBatch(op, path, file, u, name);
      } else {
        UrlInSingle(op, path, file, u, name);
      }
    } else {
      UrlInPassthrough(op, path, file, u, name);
    }
  }

  // ---------------------------------------------------------------------
  // The named operations: fixed forwards to `_api_request`.
  // ---------------------------------------------------------------------

  /** A call of one named operation; an argument the caller leaves out is
      None (for path) or JNull (for file, url, name, whose default is None). */
  datatype Operation =
    | RetrieveShowConfig(path: Option<seq<Item>>)
    | RetrieveReturnValues(path: Option<seq<Item>>)
    | Reset(path: Option<seq<Item>>)
    | ImageAdd(url: JVal, file: JVal, path: Option<seq<Item>>)
    | ImageDelete(name: JVal, url: JVal, file: JVal, path: Option<seq<Item>>)
    | Show(path: Option<seq<Item>>)
    | Generate(path: Option<seq<Item>>)
    | ConfigureSet(path: Option<seq<Item>>)
    | ConfigureDelete(path: Option<seq<Item>>)
    | ConfigureMultipleOp(opPath: Option<seq<Item>>)
    | ConfigFileSave(file: JVal)
    | ConfigFileLoad(file: JVal)
    | Reboot(path: Option<seq<Item>>)
    | Poweroff(path: Option<seq<Item>>)

  /** The arguments one operation hands to `_api_request`. */
  datatype Call = Call(command: string, op: JVal, path: seq<Item>, file: JVal, url: JVal, name: JVal)

  const Commands: set<string> :=
    {"retrieve", "reset", "image", "show", "generate", "configure", "config-file", "reboot", "poweroff"}

  const Now: seq<Item> := [Plain(JStr("now"))]

  /** The forward each named operation performs. */
  function Forward(w: Operation): (c: Call)
    ensures c.command in Commands
    ensures Truthy(c.op) <==> !w.ConfigureMultipleOp?
    ensures (w.Reboot? || w.Poweroff?) && w.path.None? ==> c.path == [Plain(JStr("now"))]
    ensures w.ImageAdd? || w.ImageDelete? || w.ConfigFileSave? || w.ConfigFileLoad? ==> c.path == []
    ensures !w.ImageAdd? ==> c.url == JNull
    ensures !w.ImageDelete? ==> c.name == JNull
    ensures !(w.ConfigFileSave? || w.ConfigFileLoad?) ==> c.file == JNull
    ensures w.ConfigFileSave? || w.ConfigFileLoad? ==> c.command == "config-file" && c.file == w.file
    ensures c.command == "retrieve" <==> w.RetrieveShowConfig? || w.RetrieveReturnValues?
    ensures c.command == "image" <==> w.ImageAdd? || w.ImageDelete?
    ensures c.command == "configure" <==> w.ConfigureSet? || w.ConfigureDelete? || w.ConfigureMultipleOp?
    ensures w.ImageAdd? ==> c.url == w.url && c.file == JNull && c.name == JNull
    ensures w.ImageDelete? ==> c.name == w.name && c.file == JNull
  {
    match w
    case RetrieveShowConfig(p) => Call("retrieve", JStr("showConfig"), p.GetOr([]), JNull, JNull, JNull)
    case RetrieveReturnValues(p) => Call("retrieve", JStr("returnValues"), p.GetOr([]), JNull, JNull, JNull)
    case Reset(p) => Call("reset", JStr("reset"), p.GetOr([]), JNull, JNull, JNull)
    case ImageAdd(u, _, _) => Call("image", JStr("add"), [], JNull, u, JNull)
    case ImageDelete(n, _, _, _) => Call("image", JStr("delete"), [], JNull, JNull, n)
    case Show(p) => Call("show", JStr("show"), p.GetOr([]), JNull, JNull, JNull)
    case Generate(p) => Call("generate", JStr("generate"), p.GetOr([]), JNull, JNull, JNull)
    case ConfigureSet(p) => Call("configure", JStr("set"), p.GetOr([]), JNull, JNull, JNull)
    case ConfigureDelete(p) => Call("configure", JStr("delete"), p.GetOr([]), JNull, JNull, JNull)
    case ConfigureMultipleOp(p) => Call("configure", JStr(""), p.GetOr([]), JNull, JNull, JNull)
    case ConfigFileSave(f) => Call("config-file", JStr("save"), [], f, JNull, JNull)
    case ConfigFileLoad(f) => Call("config-file", JStr("load"), [], f, JNull, JNull)
    case Reboot(p) => Call("reboot", JStr("reboot"), p.GetOr(Now), JNull, JNull, JNull)
    case Poweroff(p) => Call("poweroff", JStr("poweroff"), p.GetOr(Now), JNull, JNull, JNull)
  }

  /** The calls `_api_request` completes without raising. */
  predicate Accepts(c: Call) {
    DataBound(c.op, c.path) && (!Truthy(c.op) ==> forall i :: 0 <= i < |c.path| ==> c.path[i].DictRef?)
  }

  /** Only `configure_multiple_op` can be refused: its empty op selects the
      passthrough shape, which needs a non-empty list of dicts. */
  lemma OnlyMultipleOpCanRaise(w: Operation)
    ensures Accepts(Forward(w)) <==>
      !w.ConfigureMultipleOp? ||
      (var p := w.opPath.GetOr([]); |p| > 0 && forall i :: 0 <= i < |p| ==> p[i].DictRef?)
  {
  }

  /** Calling a named operation. */
  method Invoke(dev: Profile, w: Operation, outcome: Outcome) returns (sent: Post, r: ApiResponse)
    requires Accepts(Forward(w))
    requires WellFormed(outcome)
    modifies Objects(Forward(w).path)
    ensures var c := Forward(w);
      && Buildable(c.op, old(SnapAll(c.path)), c.file, JStr(Url(dev, c.command)), c.name)
      && sent == Post(Url(dev, c.command),
                      BuildPayload(dev.apikey, c.op, old(SnapAll(c.path)), c.file, JStr(Url(dev, c.command)), c.name),
                      dev.verify, dev.timeout)
      && r == RequestSpec(dev, c.command, c.op, old(SnapAll(c.path)), c.file, c.name, outcome)
    ensures var c := Forward(w);
      w.ConfigureMultipleOp? ==>
        forall d :: d in Objects(c.path) ==> d.entries == WithExtras(old(d.entries), c.file, JStr(Url(dev, c.command)), c.name)
    ensures !w.ConfigureMultipleOp? ==> unchanged(Objects(Forward(w).path))
  {
    var c := Forward(w);
    sent, r := ApiRequest(dev, c.command, c.op, c.path, c.file, c.url, c.name, outcome);
  }

  // ---------------------------------------------------------------------
  // The url argument of image_add.
  // ---------------------------------------------------------------------

  /** As written, `image_add(url=u)` sends the endpoint address under "url"
      and u nowhere: the image source is lost. */
  lemma ImageAddSendsEndpointUrl(dev: Profile, u: JVal, outcome: Outcome)
    requires WellFormed(outcome)
    ensures var c := Forward(ImageAdd(u, JNull, None));
      && Buildable(c.op, [], c.file, JStr(Url(dev, c.command)), c.name)
      && var r := RequestSpec(dev, c.command, c.op, [], c.file, c.name, outcome);
         var data := BuildData(c.op, [], c.file, JStr(Url(dev, c.command)), c.name);
         && r.request == [("data", Dumped(data))]
         && data == JObj([("op", JStr("add")), ("path", JArr([])), ("url", JStr(Url(dev, "image")))])
  {
    var e := JStr(Url(dev, "image"));
    UrlIsTruthy(dev, "image");
    assert WithExtras([("op", JStr("add")), ("path", JArr([]))], JNull, e, JNull)
        == [("op", JStr("add")), ("path", JArr([])), ("url", e)];
  }

  /** `_api_request` as intended: the endpoint address goes to the transport
      only, and the payload carries the caller's own url. */
  function IntendedRequest(dev: Profile, op: JVal, path: seq<JVal>,
                           file: JVal, url: JVal, name: JVal, outcome: Outcome): (r: ApiResponse)
    requires Buildable(op, path, file, url, name)
    requires WellFormed(outcome)
    ensures Keys(r.request) == ["data"]
    ensures r.request == [("data", Dumped(BuildData(op, path, file, url, name)))]
  {
    var payload := BuildPayload(dev.apikey, op, path, file, url, name);
    DeleteKeyLeavesData(payload[0].1, dev.apikey);
    Classify(outcome, Delete(payload, "key"))
  }

  /** With the intended request, `image_add(url=u)` sends u under "url", and
      sends no "url" at all when u is None or "". */
  lemma IntendedImageAddSendsImageUrl(dev: Profile, u: JVal, outcome: Outcome)
    requires WellFormed(outcome)
    ensures var c := Forward(ImageAdd(u, JNull, None));
      && Buildable(c.op, [], c.file, c.url, c.name)
      && var data := BuildData(c.op, [], c.file, c.url, c.name);
         && IntendedRequest(dev, c.op, [], c.file, c.url, c.name, outcome).request == [("data", Dumped(data))]
         && data.JObj?
         && Lookup(data.fields, "url") == if Truthy(u) then Some(u) else None
  {
    var fs: seq<(string, JVal)> := [("op", JStr("add")), ("path", JArr([]))];
    assert ShapeOf(JStr("add"), []) == Some(Single);
    if Truthy(u) {
      assert "url" !in Keys(fs);
      assert WithExtras(fs, JNull, u, JNull) == fs + [("url", u)];
    } else {
      assert WithExtras(fs, JNull, u, JNull) == fs;
    }
  }

  /** The correction changes nothing when the caller's url is the endpoint
      address itself. */
  lemma IntendedAgreesAtEndpoint(dev: Profile, command: string, op: JVal, path: seq<JVal>,
                                 file: JVal, name: JVal, outcome: Outcome)
    requires Buildable(op, path, file, JStr(Url(dev, command)), name)
    requires WellFormed(outcome)
    ensures IntendedRequest(dev, op, path, file, JStr(Url(dev, command)), name, outcome)
         == RequestSpec(dev, command, op, path, file, name, outcome)
  {
  }
}
