/**
 * JSON-shaped JavaScript values, with the few library operations the modelled
 * code applies to them: truthiness, `lodash.merge`, `lodash.get` and `lodash.set`.
 * Objects are maps from keys to values; `undefined` is the absence of a key.
 */
module Json {
  import opened Wrappers
  import opened Text

  datatype Json =
    | JNull
    | JBool(b: bool)
    | JNum(n: int)
    | JStr(s: string)
    | JArr(items: seq<Json>)
    | JObj(fields: map<string, Json>)

  /** JavaScript truthiness: `null`, `false`, `0` and `''` are falsy. */
  predicate Truthy(v: Json) {
    match v
    case JNull => false
    case JBool(b) => b
    case JNum(n) => n != 0
    case JStr(s) => s != ""
    case JArr(_) => true
    case JObj(_) => true
  }

  /** Truthiness of a value that may be `undefined`. */
  predicate TruthyOpt(v: Option<Json>) {
    v.Some? && Truthy(v.value)
  }

  /** How a template string renders a value: arrays join their items with commas, `null` items as empty. */
  function ValueText(v: Json): string
    decreases v
  {
    match v
    case JNull => "null"
    case JBool(b) => if b then "true" else "false"
    case JNum(n) => IntToString(n)
    case JStr(s) => s
    case JArr(items) => Join(seq(|items|, i requires 0 <= i < |items| => if items[i].JNull? then "" else ValueText(items[i])), ",")
    case JObj(_) => "[object Object]"
  }

  /** `o[k]` on an object, `undefined` when the key is missing. */
  function Field(fields: map<string, Json>, k: string): Option<Json> {
    if k in fields then Some(fields[k]) else None
  }

  /**
   * The deep step of `lodash.merge`: objects merge key by key, arrays merge
   * index by index (entries past the end of `src` keep their old value), and in
   * every other case the value from `src` wins.
   */
  function MergeValue(dst: Json, src: Json): Json
    decreases src
  {
    match src
    case JObj(sf) =>
      if dst.JObj? then
        JObj(map k | k in dst.fields.Keys + sf.Keys ::
               if k in sf then (if k in dst.fields then MergeValue(dst.fields[k], sf[k]) else sf[k])
               else dst.fields[k])
      else src
    case JArr(si) =>
      if dst.JArr? then
        var n := if |dst.items| > |si| then |dst.items| else |si|;
        JArr(seq(n, i requires 0 <= i < n =>
                   if i < |si| then (if i < |dst.items| then MergeValue(dst.items[i], si[i]) else si[i])
                   else dst.items[i]))
      else src
    case _ => src
  }

  /**
   * `merge(defaults, extras)` as the service constructors call it: an absent or
   * non-object `extras` leaves the defaults as they are.
   */
  function Merge(defaults: map<string, Json>, extras: Option<Json>): (r: map<string, Json>)
    ensures r.Keys == defaults.Keys + (if extras.Some? && extras.value.JObj? then extras.value.fields.Keys else {})
    ensures forall k :: k in defaults && !(extras.Some? && extras.value.JObj? && k in extras.value.fields) ==>
      r[k] == defaults[k]
    ensures extras.Some? && extras.value.JObj? ==> forall k :: k in extras.value.fields ==>
      r[k] == (if k in defaults then MergeValue(defaults[k], extras.value.fields[k]) else extras.value.fields[k])
  {
    if extras.Some? && extras.value.JObj? then MergeValue(JObj(defaults), extras.value).fields
    else defaults
  }

  /** Merging a value onto itself gives the value back. */
  lemma {:induction false} MergeValueSelf(v: Json)
    ensures MergeValue(v, v) == v
    decreases v
  {
    match v
    case JObj(f) =>
      forall k | k in f ensures MergeValue(f[k], f[k]) == f[k] {
        MergeValueSelf(f[k]);
      }
      assert MergeValue(v, v).fields == f;
    case JArr(items) =>
      forall i | 0 <= i < |items| ensures MergeValue(items[i], items[i]) == items[i] {
        MergeValueSelf(items[i]);
      }
      assert MergeValue(v, v).items == items;
    case _ =>
  }

  /** An empty default (`[]` or `{}`) takes the overriding value as it is. */
  lemma MergeOntoEmpty(src: Json)
    ensures src.JArr? ==> MergeValue(JArr([]), src) == src
    ensures src.JObj? ==> MergeValue(JObj(map[]), src) == src
  {
    if src.JArr? {
      assert MergeValue(JArr([]), src).items == src.items;
    }
    if src.JObj? {
      assert MergeValue(JObj(map[]), src).fields == src.fields;
    }
  }

  /**
   * Arrays merge position by position: an overriding array at least as long as
   * the default replaces every default entry that is not itself an object or array.
   */
  lemma MergeArrayCovers(dst: seq<Json>, src: seq<Json>)
    requires |src| >= |dst|
    requires forall i :: 0 <= i < |dst| ==> !src[i].JObj? && !src[i].JArr?
    ensures MergeValue(JArr(dst), JArr(src)) == JArr(src)
  {
    assert MergeValue(JArr(dst), JArr(src)).items == src;
  }

  /** `lodash.get(v, path)`: follows object keys, `undefined` once a step is missing. */
  function GetPath(v: Json, path: seq<string>): Option<Json>
    decreases |path|
  {
    if |path| == 0 then Some(v)
    else if v.JObj? && path[0] in v.fields then GetPath(v.fields[path[0]], path[1..])
    else None
  }

  /**
   * The object-level step of `lodash.set`: creates the missing intermediate
   * objects and replaces intermediate values that are not objects by `{}`.
   */
  function SetIn(fields: map<string, Json>, path: seq<string>, x: Json): (r: map<string, Json>)
    requires |path| > 0
    ensures r.Keys == fields.Keys + {path[0]}
    ensures forall k :: k in fields && k != path[0] ==> r[k] == fields[k]
    decreases |path|
  {
    var k := path[0];
    if |path| == 1 then fields[k := x]
    else
      var child := if k in fields && fields[k].JObj? then fields[k].fields else map[];
      fields[k := JObj(SetIn(child, path[1..], x))]
  }

  /** `lodash.set(v, path, x)`: a value that is not an object is returned as it is. */
  function SetPath(v: Json, path: seq<string>, x: Json): (r: Json)
    requires |path| > 0
    ensures v.JObj? <==> r.JObj?
    ensures !v.JObj? ==> r == v
  {
    if v.JObj? then JObj(SetIn(v.fields, path, x)) else v
  }

  /** What `set` stores, `get` reads back. */
  lemma {:induction false} GetAfterSetIn(fields: map<string, Json>, path: seq<string>, x: Json)
    requires |path| > 0
    ensures GetPath(JObj(SetIn(fields, path, x)), path) == Some(x)
    decreases |path|
  {
    if |path| > 1 {
      var k := path[0];
      var child := if k in fields && fields[k].JObj? then fields[k].fields else map[];
      GetAfterSetIn(child, path[1..], x);
    }
  }

  lemma GetAfterSet(v: Json, path: seq<string>, x: Json)
    requires |path| > 0 && v.JObj?
    ensures GetPath(SetPath(v, path, x), path) == Some(x)
  {
    GetAfterSetIn(v.fields, path, x);
  }
}
