/** The parsed JSON document as JavaScript sees it after `JSON.parse`: objects
    keep their keys in insertion order (JSON.parse never yields two equal keys). */
module Json {
  import opened Wrappers

  datatype Json =
    | JNull
    | JBool(b: bool)
    | JNum(n: real)
    | JStr(s: string)
    | JArr(items: seq<Json>)
    | JObj(fields: seq<Field>)

  datatype Field = Field(key: string, value: Json)

  /** JavaScript truthiness (`if (v)`); JSON has no NaN, so only 0 is a falsy number. */
  predicate Truthy(j: Json) {
    match j
    case JNull => false
    case JBool(b) => b
    case JNum(n) => n != 0.0
    case JStr(s) => s != ""
    case _ => true
  }

  /** `typeof v === "object"`: true for objects, arrays and (notoriously) null. */
  predicate IsObjectTyped(j: Json) {
    j.JNull? || j.JArr? || j.JObj?
  }

  predicate HasKey(fs: seq<Field>, k: string) {
    exists i :: 0 <= i < |fs| && fs[i].key == k
  }

  /** Property read `obj[k]` on an object: the value stored under `k`, if any. */
  function Get(fs: seq<Field>, k: string): (r: Option<Json>)
    ensures r.Some? <==> HasKey(fs, k)
    ensures r.Some? ==> exists i :: 0 <= i < |fs| && fs[i].key == k && fs[i].value == r.value
  {
    if |fs| == 0 then None
    else if fs[0].key == k then Some(fs[0].value)
    else
      var r := Get(fs[1..], k);
      assert forall i :: 0 <= i < |fs| - 1 ==> fs[1..][i] == fs[i + 1];
      r
  }

  /** `delete obj[k]`: every other field stays, in its order. */
  function RemoveKey(fs: seq<Field>, k: string): (r: seq<Field>)
    ensures !HasKey(r, k)
    ensures forall f :: f in r <==> f in fs && f.key != k
    ensures !HasKey(fs, k) ==> r == fs
    ensures forall k' :: k' != k ==> Get(r, k') == Get(fs, k')
  {
    if |fs| == 0 then []
    else
      var rest := RemoveKey(fs[1..], k);
      if fs[0].key == k then rest else [fs[0]] + rest
  }

  /** What `obj[k] = v` does to the fields `fs` when the result is `r`: the
      first field under `k` (the one `Get` reads) takes the new value and
      keeps its position; keys, order and every other key's value stay. */
  ghost predicate SetKeySpec(fs: seq<Field>, k: string, v: Json, r: seq<Field>) {
    && |r| == |fs|
    && (forall i :: 0 <= i < |fs| ==> r[i].key == fs[i].key)
    && (forall i :: 0 <= i < |fs| ==> r[i].value == fs[i].value || (r[i].value == v && Get(fs, k) == Some(fs[i].value)))
    && (HasKey(fs, k) ==> Get(r, k) == Some(v))
    && (forall k' :: k' != k ==> Get(r, k') == Get(fs, k'))
    && (!HasKey(fs, k) || Get(fs, k) == Some(v) ==> r == fs)
  }

  /** `obj[k] = v` for a key that may be present. */
  function SetKey(fs: seq<Field>, k: string, v: Json): (r: seq<Field>)
    ensures SetKeySpec(fs, k, v, r)
  {
    if |fs| == 0 then []
    else if fs[0].key == k then
      SetKeyAtHead(fs, k, v);
      [Field(k, v)] + fs[1..]
    else
      var rest := SetKey(fs[1..], k, v);
      SetKeyPastHead(fs, k, v, rest);
      [fs[0]] + rest
  }

  /** Setting `k` leaves every other key's value as it was. */
  lemma SetKeyOther(fs: seq<Field>, k: string, v: Json, k': string)
    requires k' != k
    ensures Get(SetKey(fs, k, v), k') == Get(fs, k')
  {
  }

  /** After setting a present key, reading it gives the new value. */
  lemma SetKeyHit(fs: seq<Field>, k: string, v: Json)
    requires HasKey(fs, k)
    ensures Get(SetKey(fs, k, v), k) == Some(v)
  {
  }

  /** Reading a key from a list with one field in front. */
  lemma GetCons(f: Field, rest: seq<Field>, k: string)
    ensures Get([f] + rest, k) == if f.key == k then Some(f.value) else Get(rest, k)
  {
    assert ([f] + rest)[0] == f;
    assert ([f] + rest)[1..] == rest;
  }

  lemma SetKeyAtHead(fs: seq<Field>, k: string, v: Json)
    requires |fs| > 0 && fs[0].key == k
    ensures SetKeySpec(fs, k, v, [Field(k, v)] + fs[1..])
  {
    var r := [Field(k, v)] + fs[1..];
    forall k' ensures Get(r, k') == if k' == k then Some(v) else Get(fs[1..], k') {
      GetCons(Field(k, v), fs[1..], k');
    }
    assert forall i :: 1 <= i < |fs| ==> r[i] == fs[i];
    if Get(fs, k) == Some(v) {
      assert fs == [fs[0]] + fs[1..];
    }
  }

  lemma SetKeyPastHead(fs: seq<Field>, k: string, v: Json, rest: seq<Field>)
    requires |fs| > 0 && fs[0].key != k && SetKeySpec(fs[1..], k, v, rest)
    ensures SetKeySpec(fs, k, v, [fs[0]] + rest)
  {
    PastHeadKeys(fs, rest);
    PastHeadValues(fs, k, v, rest);
    PastHeadGet(fs, k, v, rest);
    PastHeadSame(fs, k, v, rest);
  }

  lemma PastHeadKeys(fs: seq<Field>, rest: seq<Field>)
    requires |fs| > 0 && |rest| == |fs| - 1
    requires forall i :: 0 <= i < |rest| ==> rest[i].key == fs[1..][i].key
    ensures var r := [fs[0]] + rest; |r| == |fs| && forall i :: 0 <= i < |fs| ==> r[i].key == fs[i].key
  {
    var r := [fs[0]] + rest;
    assert forall i :: 1 <= i < |fs| ==> fs[i] == fs[1..][i - 1] && r[i] == rest[i - 1];
  }

  lemma PastHeadValues(fs: seq<Field>, k: string, v: Json, rest: seq<Field>)
    requires |fs| > 0 && fs[0].key != k && |rest| == |fs| - 1
    requires forall i :: 0 <= i < |rest| ==>
      rest[i].value == fs[1..][i].value || (rest[i].value == v && Get(fs[1..], k) == Some(fs[1..][i].value))
    ensures var r := [fs[0]] + rest;
      forall i :: 0 <= i < |fs| ==> r[i].value == fs[i].value || (r[i].value == v && Get(fs, k) == Some(fs[i].value))
  {
    var r := [fs[0]] + rest;
    assert forall i :: 1 <= i < |fs| ==> fs[i] == fs[1..][i - 1] && r[i] == rest[i - 1];
    assert Get(fs, k) == Get(fs[1..], k);
  }

  lemma PastHeadGet(fs: seq<Field>, k: string, v: Json, rest: seq<Field>)
    requires |fs| > 0 && fs[0].key != k
    requires HasKey(fs[1..], k) ==> Get(rest, k) == Some(v)
    requires forall k' :: k' != k ==> Get(rest, k') == Get(fs[1..], k')
    ensures HasKey(fs, k) ==> Get([fs[0]] + rest, k) == Some(v)
    ensures forall k' :: k' != k ==> Get([fs[0]] + rest, k') == Get(fs, k')
  {
    forall k' ensures Get([fs[0]] + rest, k') == if k' == fs[0].key then Some(fs[0].value) else Get(rest, k') {
      GetCons(fs[0], rest, k');
    }
    assert HasKey(fs, k) ==> HasKey(fs[1..], k);
  }

  lemma PastHeadSame(fs: seq<Field>, k: string, v: Json, rest: seq<Field>)
    requires |fs| > 0 && fs[0].key != k
    requires !HasKey(fs[1..], k) || Get(fs[1..], k) == Some(v) ==> rest == fs[1..]
    ensures !HasKey(fs, k) || Get(fs, k) == Some(v) ==> [fs[0]] + rest == fs
  {
    assert Get(fs, k) == Get(fs[1..], k);
    assert HasKey(fs, k) <==> HasKey(fs[1..], k);
    assert fs == [fs[0]] + fs[1..];
  }

  /** Two field lists with the same keys in the same places find a key at the same place. */
  lemma {:induction false} GetSameKeys(fs: seq<Field>, gs: seq<Field>, k: string)
    requires |fs| == |gs| && forall i :: 0 <= i < |fs| ==> fs[i].key == gs[i].key
    ensures Get(fs, k).Some? <==> Get(gs, k).Some?
    ensures Get(fs, k).Some? ==> exists i :: 0 <= i < |fs| && Get(fs, k) == Some(fs[i].value) && Get(gs, k) == Some(gs[i].value)
  {
    if |fs| > 0 && fs[0].key != k {
      GetSameKeys(fs[1..], gs[1..], k);
      if Get(fs, k).Some? {
        var i :| 0 <= i < |fs[1..]| && Get(fs[1..], k) == Some(fs[1..][i].value) && Get(gs[1..], k) == Some(gs[1..][i].value);
        assert fs[1..][i] == fs[i + 1] && gs[1..][i] == gs[i + 1];
      }
    }
  }

  /** `Object.values(v)` for the values whose elements the preprocessor visits:
      the values of an object, the elements of an array.  The characters of a
      string are strings too, on which nothing is ever done, and numbers and
      booleans have no values; both are given as empty. */
  function Values(j: Json): (vs: seq<Json>)
    ensures j.JArr? ==> vs == j.items
    ensures j.JObj? ==> |vs| == |j.fields| && forall i :: 0 <= i < |vs| ==> vs[i] == j.fields[i].value
    ensures !j.JArr? && !j.JObj? ==> vs == []
  {
    match j
    case JArr(items) => items
    case JObj(fs) => seq(|fs|, i requires 0 <= i < |fs| => fs[i].value)
    case _ => []
  }

  /** The same container with its values replaced, in place and in order. */
  function WithValues(j: Json, vs: seq<Json>): (r: Json)
    requires |vs| == |Values(j)|
    ensures Values(r) == vs
    ensures r.JArr? <==> j.JArr?
    ensures r.JObj? <==> j.JObj?
    ensures r.JObj? ==> |r.fields| == |j.fields| && forall i :: 0 <= i < |vs| ==> r.fields[i].key == j.fields[i].key
    ensures !j.JArr? && !j.JObj? ==> r == j
  {
    match j
    case JArr(_) => JArr(vs)
    case JObj(fs) => JObj(seq(|fs|, i requires 0 <= i < |fs| => Field(fs[i].key, vs[i])))
    case _ => j
  }

  lemma WithOwnValues(j: Json)
    ensures WithValues(j, Values(j)) == j
  {
    if j.JObj? {
      assert WithValues(j, Values(j)).fields == j.fields;
    }
  }

  /** The document with every "description" key removed at every depth: two
      documents with the same image differ at most in descriptions. */
  function StripAll(j: Json): Json
    decreases j
  {
    match j
    case JArr(items) => JArr(StripItems(items))
    case JObj(fs) => JObj(StripFields(fs))
    case _ => j
  }

  function StripItems(items: seq<Json>): seq<Json>
    decreases items
  {
    if |items| == 0 then [] else [StripAll(items[0])] + StripItems(items[1..])
  }

  function StripFields(fs: seq<Field>): seq<Field>
    decreases fs
  {
    if |fs| == 0 then []
    else
      var head := if fs[0].key == "description" then [] else [Field(fs[0].key, StripAll(fs[0].value))];
      head + StripFields(fs[1..])
  }

  /** Deleting the "description" fields changes nothing once descriptions are stripped. */
  lemma {:induction false} StripRemoveDescription(fs: seq<Field>)
    ensures StripFields(RemoveKey(fs, "description")) == StripFields(fs)
  {
    if |fs| > 0 {
      StripRemoveDescription(fs[1..]);
      if fs[0].key != "description" {
        var rest := RemoveKey(fs[1..], "description");
        assert ([fs[0]] + rest)[1..] == rest;
      }
    }
  }

  /** Element lists whose elements agree once stripped agree once stripped. */
  lemma {:induction false} StripItemsPointwise(xs: seq<Json>, ys: seq<Json>)
    requires |xs| == |ys| && forall i :: 0 <= i < |xs| ==> StripAll(xs[i]) == StripAll(ys[i])
    ensures StripItems(xs) == StripItems(ys)
  {
    if |xs| > 0 {
      StripItemsPointwise(xs[1..], ys[1..]);
    }
  }

  /** Field lists with the same keys whose values agree once stripped agree once stripped. */
  lemma {:induction false} StripFieldsPointwise(fs: seq<Field>, gs: seq<Field>)
    requires |fs| == |gs|
    requires forall i :: 0 <= i < |fs| ==> fs[i].key == gs[i].key && StripAll(fs[i].value) == StripAll(gs[i].value)
    ensures StripFields(fs) == StripFields(gs)
  {
    if |fs| > 0 {
      StripFieldsPointwise(fs[1..], gs[1..]);
    }
  }

  /** Replacing the values of a container by values that agree once stripped. */
  lemma StripWithValues(j: Json, vs: seq<Json>)
    requires |vs| == |Values(j)| && forall i :: 0 <= i < |vs| ==> StripAll(vs[i]) == StripAll(Values(j)[i])
    ensures StripAll(WithValues(j, vs)) == StripAll(j)
  {
    match j
    case JArr(items) => StripItemsPointwise(vs, items);
    case JObj(fs) => StripFieldsPointwise(WithValues(j, vs).fields, fs);
    case _ =>
  }

  /** Setting a non-description key to a value that agrees, once stripped, with the current one. */
  lemma StripSetKey(fs: seq<Field>, k: string, v: Json)
    requires Get(fs, k).Some? ==> StripAll(v) == StripAll(Get(fs, k).value)
    ensures StripFields(SetKey(fs, k, v)) == StripFields(fs)
  {
    StripFieldsPointwise(SetKey(fs, k, v), fs);
  }
}
