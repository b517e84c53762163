/** JSON values as the client sees them after `JSON.parse`, together with the
    few JavaScript operations the runtime applies to them: truthiness, property
    access (`undefined` for a missing property), `??`, property assignment and
    `String(v)` as used in template strings.

    Objects keep their fields in insertion order, as JavaScript objects do for
    string keys. Numbers are integral (floating point is not modelled). */
module Json {
  import opened Base

  datatype Value =
    | JNull
    | JBool(b: bool)
    | JNum(n: int)
    | JStr(s: string)
    | JArr(items: seq<Value>)
    | JObj(fields: seq<(string, Value)>)

  /** JavaScript truthiness of a defined value. */
  predicate Truthy(v: Value) {
    match v
    case JNull => false
    case JBool(b) => b
    case JNum(n) => n != 0
    case JStr(s) => s != ""
    case JArr(_) => true
    case JObj(_) => true
  }

  /** Truthiness of a possibly `undefined` value. */
  predicate TruthyOpt(o: Option<Value>) {
    o.Some? && Truthy(o.value)
  }

  /** `null` or `undefined`: the values that `??` and `?.` skip. */
  predicate Nullish(o: Option<Value>) {
    o == None || o == Some(JNull)
  }

  /** `a ?? b` */
  function Coalesce(a: Option<Value>, b: Option<Value>): (r: Option<Value>)
    ensures !Nullish(a) ==> r == a
    ensures Nullish(a) ==> r == b
  {
    if Nullish(a) then b else a
  }

  /** Index of the first field named `key`, if any. */
  function FieldIndex(fields: seq<(string, Value)>, key: string): (r: Option<nat>)
    ensures r.Some? ==> r.value < |fields| && fields[r.value].0 == key
    ensures r.Some? ==> forall j :: 0 <= j < r.value ==> fields[j].0 != key
    ensures r.None? <==> forall j :: 0 <= j < |fields| ==> fields[j].0 != key
  {
    if |fields| == 0 then None
    else if fields[0].0 == key then Some(0)
    else
      match FieldIndex(fields[1..], key)
      case None => None
      case Some(i) => Some(i + 1)
  }

  lemma FieldIndexIs(fields: seq<(string, Value)>, key: string, i: nat)
    requires i < |fields| && fields[i].0 == key
    requires forall j :: 0 <= j < i ==> fields[j].0 != key
    ensures FieldIndex(fields, key) == Some(i)
  {
    var r := FieldIndex(fields, key);
    assert r.Some?;
    assert !(r.value < i);
    assert !(r.value > i);
  }

  /** The first field named `fields[i].0` is field `i`. */
  lemma GetField(fields: seq<(string, Value)>, i: nat)
    requires i < |fields|
    requires forall j :: 0 <= j < i ==> fields[j].0 != fields[i].0
    ensures Get(JObj(fields), fields[i].0) == Some(fields[i].1)
  {
    FieldIndexIs(fields, fields[i].0, i);
  }

  /** An object without a field named `key` reads `undefined` there. */
  lemma GetAbsent(fields: seq<(string, Value)>, key: string)
    requires forall j :: 0 <= j < |fields| ==> fields[j].0 != key
    ensures Get(JObj(fields), key) == None
  {
  }

  /** Reading an object whose fields are `a` followed by `b`: the first
      field named `key` is in `a` when `a` has one, else in `b`. */
  lemma GetAppend(a: seq<(string, Value)>, b: seq<(string, Value)>, key: string)
    ensures Get(JObj(a + b), key) == if Get(JObj(a), key).Some? then Get(JObj(a), key) else Get(JObj(b), key)
  {
    var ia, ib := FieldIndex(a, key), FieldIndex(b, key);
    if ia.Some? {
      FieldIndexIs(a + b, key, ia.value);
    } else if ib.Some? {
      FieldIndexIs(a + b, key, |a| + ib.value);
    } else {
      assert forall j :: 0 <= j < |a + b| ==> (a + b)[j].0 != key by {
        forall j | 0 <= j < |a + b| ensures (a + b)[j].0 != key {
          if j >= |a| {
            assert (a + b)[j] == b[j - |a|];
          }
        }
      }
    }
  }

  /** `v.key` for a value that is not `null`: a missing property, or any
      property of a primitive or an array, reads as `undefined`. */
  function Get(v: Value, key: string): Option<Value> {
    if v.JObj? then
      var i := FieldIndex(v.fields, key);
      if i.Some? then Some(v.fields[i.value].1) else None
    else None
  }

  /** `o?.key` */
  function GetOpt(o: Option<Value>, key: string): Option<Value> {
    if Nullish(o) then None else Get(o.value, key)
  }

  /** `obj.key = x`: an existing property keeps its position, a new one is
      appended; assigning to a property of a non-object changes nothing. */
  function Set(v: Value, key: string, x: Value): (r: Value)
    ensures v.JObj? <==> r.JObj?
    ensures v.JObj? ==> Get(r, key) == Some(x)
    ensures forall k :: k != key ==> Get(r, k) == Get(v, k)
    ensures !v.JObj? ==> r == v
  {
    if v.JObj? then
      SetKeepsOthers(v.fields, key, x);
      JObj(SetField(v.fields, key, x))
    else v
  }

  function SetField(fields: seq<(string, Value)>, key: string, x: Value): seq<(string, Value)> {
    var i := FieldIndex(fields, key);
    if i.Some? then fields[i.value := (key, x)] else fields + [(key, x)]
  }

  lemma SetKeepsOthers(fields: seq<(string, Value)>, key: string, x: Value)
    ensures Get(JObj(SetField(fields, key, x)), key) == Some(x)
    ensures forall k :: k != key ==> Get(JObj(SetField(fields, key, x)), k) == Get(JObj(fields), k)
  {
    var r := SetField(fields, key, x);
    var i := FieldIndex(fields, key);
    assert |r| >= |fields|;
    if i.Some? {
      FieldIndexIs(r, key, i.value);
    } else {
      FieldIndexIs(r, key, |fields|);
    }
    assert forall j :: 0 <= j < |fields| && fields[j].0 != key ==> r[j] == fields[j];
    forall k | k != key
      ensures Get(JObj(r), k) == Get(JObj(fields), k)
    {
      assert forall j :: 0 <= j < |r| ==> (r[j].0 == k <==> j < |fields| && fields[j].0 == k);
      var a := FieldIndex(r, k);
      var b := FieldIndex(fields, k);
      if b.Some? {
        FieldIndexIs(r, k, b.value);
      }
    }
  }

  /** The names of an object's properties, in order. */
  function Keys(v: Value): seq<string> {
    match v
    case JObj(fields) => seq(|fields|, i requires 0 <= i < |fields| => fields[i].0)
    case _ => []
  }

  /** `String(v)` for a defined value (`Array.prototype.join` renders
      `null` elements as the empty string). */
  function JsString(v: Value): string {
    match v
    case JNull => "null"
    case JBool(b) => if b then "true" else "false"
    case JNum(n) => IntToString(n)
    case JStr(s) => s
    case JArr(items) => JoinItems(items)
    case JObj(_) => "[object Object]"
  }

  function JoinItems(items: seq<Value>): string
    decreases items
  {
    if |items| == 0 then ""
    else
      var head := if items[0] == JNull then "" else JsString(items[0]);
      if |items| == 1 then head else head + "," + JoinItems(items[1..])
  }

  /** `${o}` for a possibly `undefined` value. */
  function JsStringOpt(o: Option<Value>): string {
    match o
    case None => "undefined"
    case Some(v) => JsString(v)
  }
}
