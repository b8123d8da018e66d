/**
 * Parsed JSON, as serde_json's `Value` sees it, and the abstraction of a
 * JSON text used by the variable decoders.
 *
 * Lexing and parsing of the text are not modelled: a text is represented by
 * the sequence of top-level values it parses into, followed by whether the
 * parse stopped on a syntax error.
 */
module Json {
  import opened Wrappers

  /** A JSON value. Objects keep their members in document order. */
  datatype Value =
    | Null
    | Bool(b: bool)
    | Number(n: int)
    | Str(s: string)
    | Array(items: seq<Value>)
    | Object(members: seq<(string, Value)>)

  /** A JSON text: the complete top-level values it holds, and whether a syntax error follows them. */
  datatype Payload = Payload(values: seq<Value>, endsInError: bool)

  /**
   * `serde_json::from_str`: the whole text must be exactly one value with
   * nothing but whitespace around it.
   */
  function WholeDocument(p: Payload): (r: Option<Value>)
    ensures r.Some? <==> |p.values| == 1 && !p.endsInError
    ensures r.Some? ==> r.value == p.values[0]
  {
    if |p.values| == 1 && !p.endsInError then Some(p.values[0]) else None
  }

  /** How many members of an object carry `key`. */
  function Count(members: seq<(string, Value)>, key: string): (c: nat)
    ensures c <= |members|
  {
    if |members| == 0 then 0
    else (if members[0].0 == key then 1 else 0) + Count(members[1..], key)
  }

  /** The value of the first member carrying `key`. */
  function Get(members: seq<(string, Value)>, key: string): (r: Option<Value>)
    ensures r.None? <==> Count(members, key) == 0
  {
    if |members| == 0 then None
    else if members[0].0 == key then Some(members[0].1)
    else Get(members[1..], key)
  }

  lemma {:induction false} CountZero(members: seq<(string, Value)>, key: string)
    ensures Count(members, key) == 0 <==> forall i :: 0 <= i < |members| ==> members[i].0 != key
  {
    if |members| > 0 {
      CountZero(members[1..], key);
      assert forall i :: 1 <= i < |members| ==> members[i] == members[1..][i - 1];
    }
  }

  lemma {:induction false} CountAppend(a: seq<(string, Value)>, b: seq<(string, Value)>, key: string)
    ensures Count(a + b, key) == Count(a, key) + Count(b, key)
  {
    if |a| > 0 {
      assert (a + b)[1..] == a[1..] + b;
      CountAppend(a[1..], b, key);
    } else {
      assert a + b == b;
    }
  }

  lemma {:induction false} GetAppend(a: seq<(string, Value)>, b: seq<(string, Value)>, key: string)
    requires Count(b, key) == 0
    ensures Get(a + b, key) == Get(a, key)
  {
    if |a| > 0 {
      assert (a + b)[1..] == a[1..] + b;
      GetAppend(a[1..], b, key);
    } else {
      assert a + b == b;
    }
  }

  /** Member `i` is the last member carrying its key: the one a map reader keeps. */
  predicate LastOf(members: seq<(string, Value)>, i: int)
  {
    0 <= i < |members| && forall j :: i < j < |members| ==> members[j].0 != members[i].0
  }

  /** No key occurs twice among an object's members. */
  predicate DistinctKeys(members: seq<(string, Value)>)
  {
    forall i, j :: 0 <= i < j < |members| ==> members[i].0 != members[j].0
  }

  /** In an object without repeated keys, each member is found exactly once, by its key. */
  lemma {:induction false} LookupDistinct(members: seq<(string, Value)>, i: nat)
    requires DistinctKeys(members) && i < |members|
    ensures Count(members, members[i].0) == 1
    ensures Get(members, members[i].0) == Some(members[i].1)
  {
    if i == 0 {
      assert Count(members[1..], members[0].0) == 0 by {
        forall j | 0 <= j < |members[1..]| ensures members[1..][j].0 != members[0].0 {
          assert members[1..][j] == members[j + 1];
        }
        CountZero(members[1..], members[0].0);
      }
    } else {
      assert DistinctKeys(members[1..]) by {
        forall a, b | 0 <= a < b < |members[1..]| ensures members[1..][a].0 != members[1..][b].0 {
          assert members[1..][a] == members[a + 1] && members[1..][b] == members[b + 1];
        }
      }
      assert members[1..][i - 1] == members[i];
      LookupDistinct(members[1..], i - 1);
    }
  }

  /**
   * The members of an object collected into a map the way a `HashMap` is
   * filled from them: a repeated key keeps its last value.
   */
  function ToMap(members: seq<(string, Value)>): (m: map<string, Value>)
    ensures forall k :: k in m <==> Count(members, k) > 0
  {
    if |members| == 0 then map[]
    else
      var init, last := members[..|members| - 1], members[|members| - 1];
      assert members == init + [last];
      forall k ensures Count(members, k) == Count(init, k) + Count([last], k) {
        CountAppend(init, [last], k);
      }
      ToMap(init)[last.0 := last.1]
  }

  /** The map holds, under each key, the value of the last member carrying it. */
  lemma {:induction false} ToMapLastWins(members: seq<(string, Value)>, i: int)
    requires LastOf(members, i)
    ensures members[i].0 in ToMap(members) && ToMap(members)[members[i].0] == members[i].1
  {
    var init, last := members[..|members| - 1], members[|members| - 1];
    if i < |init| {
      assert init[i] == members[i];
      assert LastOf(init, i) by {
        forall j | i < j < |init| ensures init[j].0 != init[i].0 {
          assert init[j] == members[j];
        }
      }
      ToMapLastWins(init, i);
    }
  }

  /** A member placed in front counts only where no later member carries its key. */
  lemma {:induction false} ToMapCons(p: (string, Value), members: seq<(string, Value)>)
    ensures ToMap([p] + members) == map[p.0 := p.1] + ToMap(members)
    decreases |members|
  {
    if |members| == 0 {
      assert [p] + members == [p];
      assert [p][..0] == [];
    } else {
      var init, last := members[..|members| - 1], members[|members| - 1];
      assert ([p] + members)[..|members|] == [p] + init;
      ToMapCons(p, init);
    }
  }

  /** In an object without repeated keys, the map holds each member's own value. */
  lemma ToMapDistinct(members: seq<(string, Value)>, i: nat)
    requires DistinctKeys(members) && i < |members|
    ensures members[i].0 in ToMap(members) && ToMap(members)[members[i].0] == members[i].1
  {
    ToMapLastWins(members, i);
  }

  // ---------------------------------------------------------------------
  // Serialisation (`Value::to_string`): compact JSON text.
  // ---------------------------------------------------------------------

  function Digit(d: nat): char
    requires d < 10
  {
    "0123456789"[d]
  }

  function NatToString(n: nat): (s: string)
    ensures |s| > 0
    decreases n
  {
    if n < 10 then [Digit(n)] else NatToString(n / 10) + [Digit(n % 10)]
  }

  function IntToString(n: int): string
  {
    if n < 0 then "-" + NatToString(-n) else NatToString(n)
  }

  function HexDigit(d: nat): char
    requires d < 16
  {
    "0123456789abcdef"[d]
  }

  /** serde_json's escape of one character inside a string literal. */
  function EscapeChar(c: char): (e: string)
    ensures |e| >= 1
  {
    if c == '"' then "\\\""
    else if c == '\\' then "\\\\"
    else if c == '\n' then "\\n"
    else if c == '\r' then "\\r"
    else if c == '\t' then "\\t"
    else if c as int == 8 then "\\b"
    else if c as int == 12 then "\\f"
    else if c as int < 0x20 then "\\u00" + [HexDigit(c as int / 16), HexDigit(c as int % 16)]
    else [c]
  }

  function Escape(s: string): string
  {
    if |s| == 0 then "" else EscapeChar(s[0]) + Escape(s[1..])
  }

  function Quote(s: string): string
  {
    "\"" + Escape(s) + "\""
  }

  /** `Value::to_string`: compact text, whose first and last characters tell arrays, objects and strings apart. */
  function Serialize(v: Value): (r: string)
    ensures |r| >= 1
    ensures v.Array? ==> r[0] == '[' && r[|r| - 1] == ']'
    ensures v.Object? ==> r[0] == '{' && r[|r| - 1] == '}'
    ensures v.Str? ==> |r| >= 2 && r[0] == '"' && r[|r| - 1] == '"'
    ensures v.Null? ==> r == "null"
    decreases v, 1
  {
    match v
    case Null => "null"
    case Bool(b) => if b then "true" else "false"
    case Number(n) => IntToString(n)
    case Str(s) => Quote(s)
    case Array(items) => "[" + SerializeItems(items) + "]"
    case Object(members) => "{" + SerializeMembers(v, members) + "}"
  }

  function SerializeItems(items: seq<Value>): string
    decreases items
  {
    if |items| == 0 then ""
    else if |items| == 1 then Serialize(items[0])
    else Serialize(items[0]) + "," + SerializeItems(items[1..])
  }

  function SerializeMembers(parent: Value, members: seq<(string, Value)>): string
    requires forall i :: 0 <= i < |members| ==> members[i].1 < parent
    decreases parent, 0, |members|
  {
    if |members| == 0 then ""
    else
      var member := Quote(members[0].0) + ":" + Serialize(members[0].1);
      if |members| == 1 then member
      else member + "," + SerializeMembers(parent, members[1..])
  }

  lemma {:induction false} EscapeNoShorter(s: string)
    ensures |Escape(s)| >= |s|
  {
    if |s| > 0 {
      EscapeNoShorter(s[1..]);
    }
  }

  /**
   * A serialised string is always longer than the string itself, so the
   * serialisation of a value is never equal to the string the value holds.
   */
  lemma SerializedStringIsLonger(s: string)
    ensures |Serialize(Str(s))| >= |s| + 2
  {
    EscapeNoShorter(s);
  }
}
