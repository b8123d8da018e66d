/**
 * Typed decoding of parsed JSON, following what serde's derived
 * `Deserialize` implementations and serde_json's collection impls accept:
 * a struct is a JSON object; a known field may appear at most once; a
 * required field must appear; unknown fields are ignored; a `HashMap` is an
 * object whose every member value decodes (a repeated key keeps its last
 * value); a `Vec` is an array whose every item decodes.
 */
module Serde {
  import opened Wrappers
  import opened Json

  /** A required struct field: present exactly once and of the right type. */
  function Required<T>(members: seq<(string, Value)>, key: string, decode: Value -> Option<T>): (r: Option<T>)
    ensures r.Some? ==> Count(members, key) == 1
    ensures Count(members, key) == 0 ==> r.None?
  {
    if Count(members, key) == 1 then decode(Get(members, key).value) else None
  }

  /** In an object without repeated keys, a field, required or defaulted, is read from its member. */
  lemma FieldAt<T>(members: seq<(string, Value)>, i: nat, decode: Value -> Option<T>, default: T)
    requires DistinctKeys(members) && i < |members|
    ensures Required(members, members[i].0, decode) == decode(members[i].1)
    ensures WithDefault(members, members[i].0, decode, default) == decode(members[i].1)
  {
    LookupDistinct(members, i);
  }

  /** A `#[serde(default)]` field: absent means `default`, a repeat is an error. */
  function WithDefault<T>(members: seq<(string, Value)>, key: string, decode: Value -> Option<T>, default: T): (r: Option<T>)
    ensures Count(members, key) == 0 ==> r == Some(default)
    ensures Count(members, key) > 1 ==> r.None?
  {
    if Count(members, key) == 0 then Some(default)
    else if Count(members, key) == 1 then decode(Get(members, key).value)
    else None
  }

  function AsBool(v: Value): (r: Option<bool>)
    ensures r.Some? <==> v.Bool?
  {
    if v.Bool? then Some(v.b) else None
  }

  function AsString(v: Value): (r: Option<string>)
    ensures r.Some? <==> v.Str?
  {
    if v.Str? then Some(v.s) else None
  }

  /** A `serde_json::Value` field accepts anything. */
  function AsAny(v: Value): (r: Option<Value>)
    ensures r == Some(v)
  {
    Some(v)
  }

  /** `HashMap<String, serde_json::Value>`. */
  function AsValueMap(v: Value): (r: Option<map<string, Value>>)
    ensures r.Some? <==> v.Object?
  {
    if v.Object? then Some(ToMap(v.members)) else None
  }

  /** `HashMap<String, T>`: every member value must decode; later members overwrite earlier ones. */
  function AsMapOf<T>(v: Value, decode: Value -> Option<T>): (r: Option<map<string, T>>)
    ensures r.Some? ==> v.Object?
  {
    if v.Object? then MembersToMap(v.members, decode) else None
  }

  function MembersToMap<T>(members: seq<(string, Value)>, decode: Value -> Option<T>): (r: Option<map<string, T>>)
    ensures r.Some? <==> forall i :: 0 <= i < |members| ==> decode(members[i].1).Some?
    ensures r.Some? ==> forall k :: k in r.value <==> Count(members, k) > 0
    ensures r.Some? ==> forall i :: 0 <= i < |members| ==> members[i].0 in r.value
    ensures r.Some? ==> forall i :: LastOf(members, i) ==>
      Some(r.value[members[i].0]) == decode(members[i].1)
  {
    if |members| == 0 then Some(map[])
    else
      var init, last := members[..|members| - 1], members[|members| - 1];
      assert members == init + [last];
      match MembersToMap(init, decode)
      case None =>
        var i :| 0 <= i < |init| && decode(init[i].1).None?;
        assert members[i] == init[i];
        None
      case Some(m) =>
        match decode(last.1)
        case None =>
          assert decode(members[|init|].1).None?;
          None
        case Some(x) =>
          SnocKeys(init, last, m, x);
          SnocValues(init, last, m, x, decode);
          Some(m[last.0 := x])
  }

  /** One more member that decodes is one more update of the map, at the end. */
  lemma MembersToMapSnoc<T>(init: seq<(string, Value)>, last: (string, Value), decode: Value -> Option<T>)
    requires MembersToMap(init, decode).Some? && decode(last.1).Some?
    ensures MembersToMap(init + [last], decode) == Some(MembersToMap(init, decode).value[last.0 := decode(last.1).value])
  {
    assert (init + [last])[..|init|] == init;
  }

  /** Adding one member to a map built from `init` adds exactly its key. */
  lemma SnocKeys<T>(init: seq<(string, Value)>, last: (string, Value), m: map<string, T>, x: T)
    requires forall k :: k in m <==> Count(init, k) > 0
    ensures forall k :: k in m[last.0 := x] <==> Count(init + [last], k) > 0
  {
    forall k ensures Count(init + [last], k) == Count(init, k) + Count([last], k) {
      CountAppend(init, [last], k);
    }
  }

  /** Adding one member keeps every earlier last occurrence that it does not repeat, and is its own last occurrence. */
  lemma SnocValues<T>(init: seq<(string, Value)>, last: (string, Value), m: map<string, T>, x: T, decode: Value -> Option<T>)
    requires forall i :: 0 <= i < |init| ==> init[i].0 in m
    requires forall i :: LastOf(init, i) ==>
      Some(m[init[i].0]) == decode(init[i].1)
    requires decode(last.1) == Some(x)
    ensures var members, r := init + [last], m[last.0 := x];
      (forall i :: 0 <= i < |members| ==> members[i].0 in r)
      && (forall i :: LastOf(members, i) ==>
           Some(r[members[i].0]) == decode(members[i].1))
  {
    var members, r := init + [last], m[last.0 := x];
    forall i | 0 <= i < |members| ensures members[i].0 in r {
      if i < |init| { assert members[i] == init[i]; }
    }
    forall i | LastOf(members, i)
      ensures Some(r[members[i].0]) == decode(members[i].1)
    {
      if i < |init| {
        assert members[i] == init[i];
        forall j | i < j < |init| ensures init[j].0 != init[i].0 {
          assert init[j] == members[j];
        }
        assert LastOf(init, i);
        assert members[|init|] == last;
      }
    }
  }

  /** `Vec<T>`: the value must be an array whose every item decodes. */
  function AsSeqOf<T>(v: Value, decode: Value -> Option<T>): (r: Option<seq<T>>)
    ensures r.Some? <==> v.Array? && forall i :: 0 <= i < |v.items| ==> decode(v.items[i]).Some?
    ensures r.Some? ==> |r.value| == |v.items|
    ensures r.Some? ==> forall i :: 0 <= i < |v.items| ==> Some(r.value[i]) == decode(v.items[i])
  {
    if v.Array? then ItemsToSeq(v.items, decode) else None
  }

  function ItemsToSeq<T>(items: seq<Value>, decode: Value -> Option<T>): (r: Option<seq<T>>)
    ensures r.Some? <==> forall i :: 0 <= i < |items| ==> decode(items[i]).Some?
    ensures r.Some? ==> |r.value| == |items|
    ensures r.Some? ==> forall i :: 0 <= i < |items| ==> Some(r.value[i]) == decode(items[i])
  {
    if |items| == 0 then Some([])
    else
      match (decode(items[0]), ItemsToSeq(items[1..], decode))
      case (Some(x), Some(xs)) => Some([x] + xs)
      case _ => None
  }
}
