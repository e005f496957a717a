/**
 * Parameter shaping done by the facade methods before a call: for each listed
 * key, `if (options && Array.isArray(options.key)) options.key = options.key.join(',')`.
 * The source assigns into the caller's object; here the updated object is the
 * function's result.
 */
module Flatten {
  import opened Wrappers
  import opened JsValue

  /** The caller's `options` object: parameter name to value. */
  type Params = map<string, Value>

  /** What one flattening leaves in a slot: an array becomes the comma join of
      its elements, anything else stays as it is. */
  function Flattened(v: Value): (r: Value)
    ensures !r.Arr?
    ensures v.Arr? ==> r.Str? && r.s == ToString(v)
    ensures !v.Arr? ==> r == v
  {
    if v.Arr? then Str(ToString(v)) else v
  }

  /** Flattening of one key; absent options, a missing key and a non-array
      value all leave the options as they are. */
  function FlattenKey(options: Option<Params>, key: string): (r: Option<Params>)
    ensures r.Some? <==> options.Some?
    ensures options.Some? ==> r.value.Keys == options.value.Keys
    ensures options.Some? ==> forall k :: k in options.value && k != key ==> r.value[k] == options.value[k]
    ensures options.Some? && key in options.value ==> r.value[key] == Flattened(options.value[key])
  {
    match options
    case None => None
    case Some(m) =>
      if key in m && m[key].Arr? then Some(m[key := Flattened(m[key])]) else options
  }

  /** The facade's flattening of each key of `keys` in turn. */
  function FlattenKeys(options: Option<Params>, keys: seq<string>): (r: Option<Params>)
    ensures r.Some? <==> options.Some?
    ensures options.Some? ==> r.value.Keys == options.value.Keys
    ensures options.Some? ==> forall k :: k in options.value && k !in keys ==> r.value[k] == options.value[k]
    ensures options.Some? ==> forall k :: k in options.value && k in keys ==> r.value[k] == Flattened(options.value[k])
    decreases |keys|
  {
    if |keys| == 0 then options else FlattenKeys(FlattenKey(options, keys[0]), keys[1..])
  }

  /** After flattening no listed key holds an array, so a second pass changes nothing. */
  lemma {:induction false} FlattenIdempotent(options: Option<Params>, keys: seq<string>)
    ensures FlattenKeys(FlattenKeys(options, keys), keys) == FlattenKeys(options, keys)
  {
    if options.Some? {
      var once := FlattenKeys(options, keys).value;
      var twice := FlattenKeys(FlattenKeys(options, keys), keys).value;
      assert forall k :: k in twice ==> twice[k] == once[k];
      assert twice == once;
    }
  }

  /** Sending a list under a flattened key is the same as sending its comma join
      as a string: `["a","b","c"]` and `"a,b,c"` leave identical options. */
  lemma {:induction false} ListSameAsJoinedString(m: Params, key: string, elems: seq<Value>, keys: seq<string>)
    requires key in keys
    ensures FlattenKeys(Some(m[key := Arr(elems)]), keys)
         == FlattenKeys(Some(m[key := Str(ToString(Arr(elems)))]), keys)
  {
    var a := FlattenKeys(Some(m[key := Arr(elems)]), keys).value;
    var b := FlattenKeys(Some(m[key := Str(ToString(Arr(elems)))]), keys).value;
    assert a.Keys == b.Keys;
    assert forall k :: k in a ==> a[k] == b[k];
    assert a == b;
  }

  /** A key whose value is not an array can be added to the list without
      changing the result. */
  lemma {:induction false} ExtraKeyWithoutArray(options: Option<Params>, keys: seq<string>, extra: string)
    requires options.Some? && extra in options.value ==> !options.value[extra].Arr?
    ensures FlattenKeys(options, keys + [extra]) == FlattenKeys(options, keys)
  {
    if options.Some? {
      var a := FlattenKeys(options, keys + [extra]).value;
      var b := FlattenKeys(options, keys).value;
      assert forall k :: k in a ==> a[k] == b[k];
      assert a == b;
    }
  }

  /** Flattening a list of comma-free strings loses nothing: splitting the
      flattened value at its commas gives back the list, complete and in order. */
  lemma FlattenedSplitsBack(items: seq<string>)
    requires |items| >= 1
    requires forall i :: 0 <= i < |items| ==> ',' !in items[i]
    ensures Flattened(Arr(seq(|items|, i requires 0 <= i < |items| => Str(items[i])))).Str?
    ensures Split(Flattened(Arr(seq(|items|, i requires 0 <= i < |items| => Str(items[i])))).s, ',') == items
  {
    ArrayOfStringsToString(items);
    JoinThenSplit(items, ',');
  }
}
