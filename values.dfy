/**
 * The values both data stores hold: JSON-shaped trees, as `JSON.parse`
 * produces them, and the JavaScript rules for reading a property of such a
 * value, for truthiness and for converting a value to a string.
 */
module JsValues {
  import opened Optional
  import opened Text

  /** A JSON value. Numbers are JavaScript doubles, written here as reals;
      NaN and the infinities never occur in a tree (JSON has no syntax for
      them and the widgets drop NaN before writing). */
  datatype Json =
    | JNull
    | JBool(b: bool)
    | JNum(n: real)
    | JStr(s: string)
    | JArr(items: seq<Json>)
    | JObj(fields: map<string, Json>)

  predicate IsPrimitive(j: Json) {
    !j.JArr? && !j.JObj?
  }

  type Primitive = j: Json | IsPrimitive(j) witness JNull

  /** What reading a property can give: `undefined`, or a JSON value. */
  datatype Js = Undefined | Defined(value: Json)

  /** JavaScript truthiness: `undefined`, `null`, `false`, `0` and `""` are
      falsy; every other value, every array and every object is truthy. */
  predicate Truthy(v: Js) {
    match v
    case Undefined => false
    case Defined(j) =>
      match j
      case JNull => false
      case JBool(b) => b
      case JNum(n) => n != 0.0
      case JStr(s) => s != ""
      case JArr(_) => true
      case JObj(_) => true
  }

  /** `j[key]` for a JSON value `j`; None when it throws, which it does
      exactly for `null`. Strings and arrays expose their elements under
      canonical index keys and their size under "length"; objects expose their
      own keys (inherited members such as `toString` are not modelled);
      numbers and booleans have no own properties. */
  function MemberOf(j: Json, key: string): (r: Option<Js>)
    ensures r.None? <==> j == JNull
    ensures j.JObj? ==> r.Some? && (r.value.Defined? <==> key in j.fields)
    ensures j.JObj? && key in j.fields ==> r.value.value == j.fields[key]
    ensures IsPrimitive(j) && r.Some? && r.value.Defined? ==> IsPrimitive(r.value.value)
  {
    match j
    case JNull => None
    case JBool(_) => Some(Undefined)
    case JNum(_) => Some(Undefined)
    case JStr(s) =>
      var i := IndexOf(key);
      if i.Some? && i.value < |s| then Some(Defined(JStr([s[i.value]])))
      else if key == "length" then Some(Defined(JNum(|s| as real)))
      else Some(Undefined)
    case JArr(a) =>
      var i := IndexOf(key);
      if i.Some? && i.value < |a| then Some(Defined(a[i.value]))
      else if key == "length" then Some(Defined(JNum(|a| as real)))
      else Some(Undefined)
    case JObj(m) =>
      if key in m then Some(Defined(m[key])) else Some(Undefined)
  }

  /** `base[key]`; None when it throws (base is `undefined` or `null`). */
  function Member(base: Js, key: string): (r: Option<Js>)
    ensures r.None? <==> base == Undefined || base == Defined(JNull)
  {
    match base
    case Undefined => None
    case Defined(j) => MemberOf(j, key)
  }

  /** `String(j)` / `j.toString()` for a value other than `null` or
      `undefined` (on those `toString` throws). Number formatting is the
      engine's and is passed in as `numText`. */
  function ToText(j: Json, numText: real -> string): string
    decreases j, 1
  {
    match j
    case JNull => "null"
    case JBool(b) => if b then "true" else "false"
    case JNum(n) => numText(n)
    case JStr(s) => s
    case JArr(items) => JoinTexts(items, numText)
    case JObj(_) => "[object Object]"
  }

  /** `items.join(",")`: `null` elements print as the empty string. */
  function JoinTexts(items: seq<Json>, numText: real -> string): string
    decreases items, 0
  {
    if items == [] then ""
    else
      var first := if items[0] == JNull then "" else ToText(items[0], numText);
      if |items| == 1 then first else first + "," + JoinTexts(items[1..], numText)
  }

  /** Reading `keys` one after the other from `v`, as `current = current[key]`
      does; None when a read throws. */
  function Resolve(v: Js, keys: seq<string>): Option<Js>
    decreases |keys|
  {
    if keys == [] then Some(v)
    else
      match Member(v, keys[0])
      case None => None
      case Some(c) => Resolve(c, keys[1..])
  }

  /** Reading one more key reads it from wherever the shorter path ended. */
  lemma {:induction false} ResolveAppend(v: Js, pre: seq<string>, k: string)
    ensures Resolve(v, pre + [k]) ==
      match Resolve(v, pre) case None => None case Some(x) => Member(x, k)
    decreases |pre|
  {
    if pre == [] {
      assert pre + [k] == [k];
    } else {
      assert (pre + [k])[0] == pre[0];
      assert (pre + [k])[1..] == pre[1..] + [k];
      match Member(v, pre[0]) {
        case None =>
        case Some(c) => ResolveAppend(c, pre[1..], k);
      }
    }
  }

  /** Once a read throws, reading further keys throws too. */
  lemma {:induction false} ResolveThrowsOnward(v: Js, pre: seq<string>, rest: seq<string>)
    requires Resolve(v, pre) == None
    ensures Resolve(v, pre + rest) == None
    decreases |pre|
  {
    assert pre != [];
    assert (pre + rest)[0] == pre[0];
    assert (pre + rest)[1..] == pre[1..] + rest;
    match Member(v, pre[0]) {
      case None =>
      case Some(c) => ResolveThrowsOnward(c, pre[1..], rest);
    }
  }

  // ------------------------------------------------- reading known paths

  /** `a` is an own field of the object `t`. */
  predicate Names1(t: Json, a: string) {
    t.JObj? && a in t.fields
  }

  /** `a.b` leads through objects of `t` to an existing field. */
  predicate Names2(t: Json, a: string, b: string) {
    Names1(t, a) && Names1(t.fields[a], b)
  }

  /** `a.b.c` leads through objects of `t` to an existing field. */
  predicate Names3(t: Json, a: string, b: string, c: string) {
    Names2(t, a, b) && Names1(t.fields[a].fields[b], c)
  }

  /** A one-segment path reads the field it names. */
  lemma Names1Resolves(t: Json, a: string)
    requires Names1(t, a) && '.' !in a
    ensures Resolve(Defined(t), Split(a, '.')) == Some(Defined(t.fields[a]))
  {
    SplitNoSeparator(a, '.');
    assert Resolve(Defined(t), [a]) == Resolve(Defined(t.fields[a]), []);
  }

  /** A two-segment path written `a.b` reads the field it names. */
  lemma Names2Resolves(t: Json, a: string, b: string)
    requires Names2(t, a, b) && '.' !in a && '.' !in b
    ensures Resolve(Defined(t), Split(a + "." + b, '.')) == Some(Defined(t.fields[a].fields[b]))
  {
    SplitPrefix(a, b, '.');
    SplitNoSeparator(b, '.');
    var keys := [a, b];
    assert Split(a + "." + b, '.') == keys;
    assert Resolve(Defined(t), keys) == Resolve(Defined(t.fields[a]), [b]);
    assert Resolve(Defined(t.fields[a]), [b]) == Resolve(Defined(t.fields[a].fields[b]), []);
  }

  /** A three-segment path written `a.b.c` reads the field it names. */
  lemma Names3Resolves(t: Json, a: string, b: string, c: string)
    requires Names3(t, a, b, c) && '.' !in a && '.' !in b && '.' !in c
    ensures Resolve(Defined(t), Split(a + "." + b + "." + c, '.')) ==
      Some(Defined(t.fields[a].fields[b].fields[c]))
  {
    assert a + "." + b + "." + c == a + "." + (b + "." + c);
    SplitPrefix(a, b + "." + c, '.');
    SplitPrefix(b, c, '.');
    SplitNoSeparator(c, '.');
    var keys := [a, b, c];
    assert Split(a + "." + b + "." + c, '.') == keys;
    var x, y := t.fields[a], t.fields[a].fields[b];
    assert Resolve(Defined(t), keys) == Resolve(Defined(x), [b, c]);
    assert Resolve(Defined(x), [b, c]) == Resolve(Defined(y), [c]);
    assert Resolve(Defined(y), [c]) == Resolve(Defined(y.fields[c]), []);
  }
}
