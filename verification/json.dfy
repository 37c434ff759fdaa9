/** JSON-shaped Python values, Python truthiness, and the insertion-ordered
    dictionary operations the client performs (`d[k] = v`, `d[k]`, `del d[k]`). */
module Json {
  import opened Wrappers

  /** A Python value built from None, bool, int, str, list and dict, as
      `json.dumps` and `json.loads` exchange them. A dict keeps its keys in
      insertion order, which is the order `json.dumps` writes them in. */
  datatype JVal =
    | JNull
    | JBool(b: bool)
    | JInt(i: int)
    | JStr(s: string)
    | JArr(items: seq<JVal>)
    | JObj(fields: seq<(string, JVal)>)

  /** The six values Python's `bool` maps to False. */
  const FalsyValues: set<JVal> := {JNull, JBool(false), JInt(0), JStr(""), JArr([]), JObj([])}

  /** Python's `bool(v)`: None, False, 0, "", [] and {} are falsy, and every
      other value is truthy. */
  predicate Truthy(v: JVal): (t: bool)
    ensures t <==> v !in FalsyValues
  {
    match v
    case JNull => false
    case JBool(b) => b
    case JInt(i) => i != 0
    case JStr(s) => s != ""
    case JArr(xs) => xs != []
    case JObj(fs) => fs != []
  }

  /** Python's `v == True`, which also holds for the integer 1. */
  predicate EqualsTrue(v: JVal): (e: bool)
    ensures e ==> Truthy(v)
    ensures v.JBool? ==> (e <==> v.b)
    ensures v.JInt? ==> (e <==> v.i == 1)
    ensures !(v.JBool? || v.JInt?) ==> !e
  {
    v == JBool(true) || v == JInt(1)
  }

  /** The keys of a dictionary, in insertion order. */
  function Keys<V>(fs: seq<(string, V)>): seq<string> {
    seq(|fs|, i requires 0 <= i < |fs| => fs[i].0)
  }

  /** `d[k]`, or None where Python raises KeyError. When a key occurs more
      than once (a decoded body with a repeated key) the last one wins, as in
      `json.loads`. */
  function Lookup<V(==)>(fs: seq<(string, V)>, k: string): (r: Option<V>)
    ensures r.None? <==> k !in Keys(fs)
  {
    if fs == [] then None
    else if fs[|fs| - 1].0 == k then
      assert Keys(fs)[|fs| - 1] == k;
      Some(fs[|fs| - 1].1)
    else
      var r := Lookup(fs[..|fs| - 1], k);
      assert Keys(fs) == Keys(fs[..|fs| - 1]) + [fs[|fs| - 1].0];
      r
  }

  /** A key that is present finds the value of its last entry. */
  lemma {:induction false} LookupLast<V>(fs: seq<(string, V)>, k: string)
    requires k in Keys(fs)
    ensures exists i :: 0 <= i < |fs| && fs[i] == (k, Lookup(fs, k).value) && LastWithKey(fs, k, i)
  {
    var n := |fs| - 1;
    if fs[n].0 == k {
      assert LastWithKey(fs, k, n);
    } else {
      var init := fs[..n];
      assert Keys(fs) == Keys(init) + [fs[n].0];
      LookupLast(init, k);
      var i :| 0 <= i < |init| && init[i] == (k, Lookup(init, k).value) && LastWithKey(init, k, i);
      assert LastWithKey(fs, k, i);
    }
  }

  /** Index i is the last entry of fs with key k. */
  predicate LastWithKey<V>(fs: seq<(string, V)>, k: string, i: int)
    requires 0 <= i < |fs|
  {
    fs[i].0 == k && forall j :: i < j < |fs| ==> fs[j].0 != k
  }

  /** Python's `d[k] = v`: an existing key keeps its place and takes the new
      value; a new key is appended at the end. */
  function Assign<V>(fs: seq<(string, V)>, k: string, v: V): (r: seq<(string, V)>)
    ensures |r| == if k in Keys(fs) then |fs| else |fs| + 1
    ensures forall i :: 0 <= i < |fs| ==> r[i].0 == fs[i].0
    ensures k !in Keys(fs) ==> r[|fs|] == (k, v)
  {
    if k in Keys(fs) then seq(|fs|, i requires 0 <= i < |fs| => if fs[i].0 == k then (k, v) else fs[i])
    else fs + [(k, v)]
  }

  /** Python's `del d[k]` on a dictionary: every entry with key k is gone and
      every other entry is kept. */
  function Delete<V(==)>(fs: seq<(string, V)>, k: string): (r: seq<(string, V)>)
    ensures k !in Keys(r)
    ensures forall i :: 0 <= i < |r| ==> r[i] in fs && r[i].0 != k
    ensures forall i :: 0 <= i < |fs| && fs[i].0 != k ==> fs[i] in r
  {
    if fs == [] then []
    else
      var rest := Delete(fs[1..], k);
      assert forall i :: 1 <= i < |fs| ==> fs[i] == fs[1..][i - 1];
      if fs[0].0 == k then rest else [fs[0]] + rest
  }

  /** After `d[k] = v`, `d[k]` is v. */
  lemma LookupAssignSame<V>(fs: seq<(string, V)>, k: string, v: V)
    ensures Lookup(Assign(fs, k, v), k) == Some(v)
  {
    var r := Assign(fs, k, v);
    assert k in Keys(r) by {
      if k !in Keys(fs) {
        assert Keys(r)[|r| - 1] == k;
      } else {
        var j :| 0 <= j < |fs| && Keys(fs)[j] == k;
        assert Keys(r)[j] == k;
      }
    }
    var w := Lookup(r, k).value;
    LookupLast(r, k);
    var i :| 0 <= i < |r| && r[i] == (k, w) && LastWithKey(r, k, i);
    if k !in Keys(fs) {
      assert r[|r| - 1].0 == k;
      assert i == |r| - 1;
    }
  }

  /** `d[k] = v` leaves every other key's value alone. */
  lemma LookupAssignOther<V>(fs: seq<(string, V)>, k: string, v: V, k': string)
    requires k' != k
    ensures Lookup(Assign(fs, k, v), k') == Lookup(fs, k')
  {
    var r := Assign(fs, k, v);
    assert |r| >= |fs|;
    assert forall j :: 0 <= j < |fs| && fs[j].0 == k' ==> r[j] == fs[j];
    assert forall j :: 0 <= j < |fs| && r[j].0 == k' ==> r[j] == fs[j];
    assert forall j :: |fs| <= j < |r| ==> r[j].0 == k;
    assert k' in Keys(r) <==> k' in Keys(fs) by {
      if k' in Keys(r) {
        var j :| 0 <= j < |r| && Keys(r)[j] == k';
        assert Keys(fs)[j] == k';
      }
      if k' in Keys(fs) {
        var j :| 0 <= j < |fs| && Keys(fs)[j] == k';
        assert Keys(r)[j] == k';
      }
    }
    if k' in Keys(fs) {
      var a := Lookup(r, k').value;
      var b := Lookup(fs, k').value;
      LookupLast(r, k');
      LookupLast(fs, k');
      var i :| 0 <= i < |r| && r[i] == (k', a) && LastWithKey(r, k', i);
      var j :| 0 <= j < |fs| && fs[j] == (k', b) && LastWithKey(fs, k', j);
      assert i < |fs|;
      assert i == j;
    }
  }

  /** `d[k] = v` keeps the key order; a new key goes last. */
  lemma KeysAssign<V>(fs: seq<(string, V)>, k: string, v: V)
    ensures Keys(Assign(fs, k, v)) == if k in Keys(fs) then Keys(fs) else Keys(fs) + [k]
  {
  }

  /** Writing the same key and value twice is the same as writing it once,
      which is why a dict that occurs twice in a list may be updated twice. */
  lemma AssignTwice<V>(fs: seq<(string, V)>, k: string, v: V)
    ensures Assign(Assign(fs, k, v), k, v) == Assign(fs, k, v)
  {
    var r := Assign(fs, k, v);
    KeysAssign(fs, k, v);
    assert k in Keys(r) by {
      if k !in Keys(fs) {
        assert Keys(r)[|fs|] == k;
      }
    }
    forall i | 0 <= i < |r| && r[i].0 == k
      ensures r[i] == (k, v)
    {
      if i < |fs| {
        assert Keys(fs)[i] == fs[i].0;
      }
    }
    assert Assign(r, k, v) == r;
  }
}
