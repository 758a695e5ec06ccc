/**
 * The JSON values the event snapshots are made of, and their text form.
 *
 * `json.dumps(d, indent=4).splitlines()` puts every scalar member on a line
 * of its own and every nested object between an opening and a closing line.
 * That line structure is what the changelog diff works on, so the text is
 * modelled as a sequence of `Line`s rather than as characters: `Dumps` is
 * `json.dumps` and `Loads` is `json.loads`. Python dicts keep insertion
 * order, so an object is an ordered sequence of members.
 */
module JsonText {
  import opened Wrappers

  datatype Json =
    | JNull
    | JBool(b: bool)
    | JInt(i: int)
    | JStr(s: string)
    | JObject(members: seq<Member>)

  datatype Member = Member(key: string, value: Json)

  /** One line of indented JSON text: `"key": {`, `"key": value` or `}`. */
  datatype Line =
    | Open(key: Option<string>)
    | Item(key: Option<string>, scalar: Json)
    | Close

  datatype Parsed = Parsed(key: Option<string>, value: Json, rest: seq<Line>)
  datatype ParsedMembers = ParsedMembers(members: seq<Member>, rest: seq<Line>)

  function DumpValue(key: Option<string>, j: Json): seq<Line>
    decreases j
  {
    match j
    case JObject(ms) => [Open(key)] + DumpMembers(ms) + [Close]
    case _ => [Item(key, j)]
  }

  function DumpMembers(ms: seq<Member>): seq<Line>
    decreases ms
  {
    if ms == [] then [] else DumpValue(Some(ms[0].key), ms[0].value) + DumpMembers(ms[1..])
  }

  /** `json.dumps(j, indent=4).splitlines()` */
  function Dumps(j: Json): seq<Line>
  {
    DumpValue(None, j)
  }

  function ParseValue(ls: seq<Line>): (r: Option<Parsed>)
    ensures r.Some? ==> |r.value.rest| < |ls|
    decreases |ls|, 0
  {
    if ls == [] then None
    else match ls[0]
      case Close => None
      case Item(k, v) => if v.JObject? then None else Some(Parsed(k, v, ls[1..]))
      case Open(k) =>
        match ParseMembers(ls[1..])
        case None => None
        case Some(pm) => Some(Parsed(k, JObject(pm.members), pm.rest))
  }

  /** Members up to and including the closing line of the enclosing object. */
  function ParseMembers(ls: seq<Line>): (r: Option<ParsedMembers>)
    ensures r.Some? ==> |r.value.rest| < |ls|
    decreases |ls|, 1
  {
    if ls == [] then None
    else if ls[0].Close? then Some(ParsedMembers([], ls[1..]))
    else match ParseValue(ls)
      case None => None
      case Some(p) =>
        if p.key.None? then None
        else match ParseMembers(p.rest)
          case None => None
          case Some(pm) => Some(ParsedMembers([Member(p.key.value, p.value)] + pm.members, pm.rest))
  }

  /** `json.loads`: None where Python raises a decoding error. */
  function Loads(ls: seq<Line>): Option<Json>
  {
    match ParseValue(ls)
    case Some(Parsed(None, j, rest)) => if rest == [] then Some(j) else None
    case _ => None
  }

  lemma {:induction false} ParseDumpValue(key: Option<string>, j: Json, rest: seq<Line>)
    ensures ParseValue(DumpValue(key, j) + rest) == Some(Parsed(key, j, rest))
    decreases j
  {
    match j
    case JObject(ms) =>
      var ls := DumpValue(key, j) + rest;
      assert ls == [Open(key)] + (DumpMembers(ms) + [Close] + rest);
      ParseDumpMembers(ms, rest);
    case _ =>
      assert DumpValue(key, j) + rest == [Item(key, j)] + rest;
  }

  lemma {:induction false} ParseDumpMembers(ms: seq<Member>, rest: seq<Line>)
    ensures ParseMembers(DumpMembers(ms) + [Close] + rest) == Some(ParsedMembers(ms, rest))
    decreases ms
  {
    if ms == [] {
      assert DumpMembers(ms) + [Close] + rest == [Close] + rest;
    } else {
      var head := DumpValue(Some(ms[0].key), ms[0].value);
      var tail := DumpMembers(ms[1..]) + [Close] + rest;
      assert DumpMembers(ms) + [Close] + rest == head + tail;
      assert head[0] != Close;
      ParseDumpValue(Some(ms[0].key), ms[0].value, tail);
      ParseDumpMembers(ms[1..], rest);
      assert [Member(ms[0].key, ms[0].value)] + ms[1..] == ms;
    }
  }

  /** `json.loads` inverts `json.dumps`. */
  lemma LoadsDumps(j: Json)
    ensures Loads(Dumps(j)) == Some(j)
  {
    ParseDumpValue(None, j, []);
    assert Dumps(j) + [] == Dumps(j);
  }

  /** `d.get(k)` on a decoded object: the last member with that key wins. */
  function Get(ms: seq<Member>, k: string): (r: Option<Json>)
    ensures r.Some? <==> exists i :: 0 <= i < |ms| && ms[i].key == k
  {
    if ms == [] then None
    else if ms[|ms| - 1].key == k then Some(ms[|ms| - 1].value)
    else Get(ms[..|ms| - 1], k)
  }

  /** `get` finds a member that no later member with the same key overrides. */
  lemma {:induction false} GetAt(ms: seq<Member>, i: int, k: string)
    requires 0 <= i < |ms| && ms[i].key == k
    requires forall j :: i < j < |ms| ==> ms[j].key != k
    ensures Get(ms, k) == Some(ms[i].value)
  {
    if i < |ms| - 1 {
      GetAt(ms[..|ms| - 1], i, k);
    }
  }

  /** In an object without repeated keys, `get` finds every member. */
  lemma GetDistinct(ms: seq<Member>)
    requires forall i, j :: 0 <= i < j < |ms| ==> ms[i].key != ms[j].key
    ensures forall i :: 0 <= i < |ms| ==> Get(ms, ms[i].key) == Some(ms[i].value)
  {
    forall i | 0 <= i < |ms|
      ensures Get(ms, ms[i].key) == Some(ms[i].value)
    {
      GetAt(ms, i, ms[i].key);
    }
  }

  /** The keys of an object's members, in order. */
  predicate HasKeys(ms: seq<Member>, keys: seq<string>)
  {
    |ms| == |keys| && forall i :: 0 <= i < |ms| ==> ms[i].key == keys[i]
  }

  /** No key occurs twice. */
  predicate DistinctKeys(keys: seq<string>)
  {
    forall i, j :: 0 <= i < j < |keys| ==> keys[i] != keys[j]
  }

  /** With the given keys, none repeated, `get` finds each key's member. */
  lemma GetKeyed(ms: seq<Member>, keys: seq<string>, i: int)
    requires HasKeys(ms, keys) && DistinctKeys(keys) && 0 <= i < |keys|
    ensures Get(ms, keys[i]) == Some(ms[i].value)
  {
    GetAt(ms, i, keys[i]);
  }

  /** `dumps` is one-to-one, since `loads` inverts it. */
  lemma DumpsInjective(j: Json, k: Json)
    ensures Dumps(j) == Dumps(k) ==> j == k
  {
    LoadsDumps(j);
    LoadsDumps(k);
  }

  function DigitChar(d: nat): char
    requires d < 10
  {
    "0123456789"[d]
  }

  function NatText(n: nat): string
  {
    if n < 10 then [DigitChar(n)] else NatText(n / 10) + [DigitChar(n % 10)]
  }

  function ScalarText(j: Json): string
  {
    match j
    case JNull => "null"
    case JBool(b) => if b then "true" else "false"
    case JInt(i) => if i < 0 then "-" + NatText(-i) else NatText(i)
    case JStr(s) => "\"" + s + "\""
    case JObject(_) => "{}"
  }

  function KeyText(key: Option<string>): string
  {
    match key
    case None => ""
    case Some(k) => "\"" + k + "\": "
  }

  /** The characters of one line, without indentation or trailing comma. */
  function LineText(l: Line): string
  {
    match l
    case Open(k) => KeyText(k) + "{"
    case Item(k, v) => KeyText(k) + ScalarText(v)
    case Close => "}"
  }
}
