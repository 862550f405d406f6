/**
 * The server's JSON as an abstract tree, and the gjson accessors the record
 * decoders use: path lookup ("field.0"), String(), Bool(), Int(), ForEach and
 * Array(). Numbers are integers; an object keeps its members in order.
 */
module Json {

  import opened Wrappers
  import opened Text
  import opened DateTime

  datatype Json =
    | JNull
    | JBool(b: bool)
    | JNumber(n: int)
    | JString(s: string)
    | JArray(items: seq<Json>)
    | JObject(members: seq<Member>)

  datatype Member = Member(key: string, value: Json)

  /**
   * A byte buffer handed to a decoder: either text that is not JSON (an absent
   * json.RawMessage included), or the tree it parses to.
   */
  datatype Raw = Unparsable | Parsed(tree: Json)

  /** gjson's member lookup: the first member with the key. */
  function Lookup(members: seq<Member>, key: string): Option<Json> {
    if |members| == 0 then None
    else if members[0].key == key then Some(members[0].value)
    else Lookup(members[1..], key)
  }

  /** A lookup finds a value exactly when some member has the key, and then it is the first such member's. */
  lemma {:induction false} LookupMeaning(members: seq<Member>, key: string)
    ensures var r := Lookup(members, key);
      (r.Some? <==> exists i :: 0 <= i < |members| && members[i].key == key) &&
      (r.Some? ==> exists i :: 0 <= i < |members| && members[i].key == key && members[i].value == r.value
                              && forall j :: 0 <= j < i ==> members[j].key != key)
  {
    if |members| > 0 && members[0].key != key {
      LookupMeaning(members[1..], key);
      assert forall i :: 1 <= i < |members| ==> members[i] == members[1..][i - 1];
      var r := Lookup(members[1..], key);
      if r.Some? {
        var i :| 0 <= i < |members| - 1 && members[1..][i].key == key && members[1..][i].value == r.value
                 && forall j :: 0 <= j < i ==> members[1..][j].key != key;
        assert members[i + 1].key == key && members[i + 1].value == r.value;
        assert forall j :: 0 <= j < i + 1 ==> members[j].key != key;
      }
    }
  }

  /** One path component: a member of an object, or a decimal index into an array. */
  function Step(j: Json, key: string): Option<Json> {
    match j
    case JObject(ms) => Lookup(ms, key)
    case JArray(xs) =>
      if |key| > 0 && AllDigits(key) && DigitsValue(key) < |xs| then Some(xs[DigitsValue(key)]) else None
    case _ => None
  }

  /** gjson's Get with a dotted path, the path given as its components. */
  function Get(j: Json, path: seq<string>): Option<Json>
    decreases |path|
  {
    if |path| == 0 then Some(j)
    else match Step(j, path[0])
      case None => None
      case Some(c) => Get(c, path[1..])
  }

  /** The JSON text of a value in compact form; it stands in for gjson's Raw, the input's own text, of an array or object. */
  function Encode(j: Json): (r: string)
    ensures |r| >= 1
    ensures j.JArray? ==> r[0] == '['
    ensures j.JObject? ==> r[0] == '{'
  {
    match j
    case JNull => "null"
    case JBool(b) => if b then "true" else "false"
    case JNumber(n) => Decimal(n)
    case JString(s) => Quote(s)
    case JArray(xs) => "[" + EncodeItems(xs) + "]"
    case JObject(ms) => "{" + EncodeMembers(ms) + "}"
  }

  function EncodeItems(xs: seq<Json>): string
    decreases xs
  {
    if |xs| == 0 then ""
    else if |xs| == 1 then Encode(xs[0])
    else Encode(xs[0]) + "," + EncodeItems(xs[1..])
  }

  function EncodeMembers(ms: seq<Member>): string
    decreases ms
  {
    if |ms| == 0 then ""
    else
      var first := Quote(ms[0].key) + ":" + Encode(ms[0].value);
      if |ms| == 1 then first else first + "," + EncodeMembers(ms[1..])
  }

  function Quote(s: string): string {
    "\"" + Escape(s) + "\""
  }

  function Escape(s: string): string {
    if |s| == 0 then ""
    else (if s[0] == '"' || s[0] == '\\' then ['\\', s[0]] else [s[0]]) + Escape(s[1..])
  }

  /** gjson's Result.String(): "" for a missing value or null, the text of a string, the JSON of the rest. */
  function AsString(o: Option<Json>): string
  {
    match o
    case None => ""
    case Some(JNull) => ""
    case Some(JString(s)) => s
    case Some(j) => Encode(j)
  }

  /** String() case by case: "" for a missing value or null, a string's own text, the JSON of an array or object. */
  lemma AsStringCases(o: Option<Json>)
    ensures o.None? || o == Some(JNull) ==> AsString(o) == ""
    ensures o.Some? && o.value.JString? ==> AsString(o) == o.value.s
    ensures o.Some? && (o.value.JArray? || o.value.JObject?) ==> AsString(o) == Encode(o.value)
  {
  }

  /** A string is "TRUE" as gjson text only when it is the JSON string "TRUE". */
  lemma TextIsTRUE(o: Option<Json>)
    ensures AsString(o) == "TRUE" <==> o == Some(JString("TRUE"))
  {
    if o.Some? && o.value.JNumber? {
      var d := Decimal(o.value.n);
      assert d[0] == '-' || IsDigit(d[0]) by {
        if o.value.n >= 0 { assert IsDigit(d[0]); }
      }
    }
  }

  /** strconv.ParseBool of the lower-cased text, as gjson's Bool() applies it to a string. */
  predicate TruthyText(s: string) {
    s == "1" || s == "t" || s == "T" || (|s| == 4 && Lower(s[0]) == 't' && Lower(s[1]) == 'r' && Lower(s[2]) == 'u' && Lower(s[3]) == 'e')
  }

  /** ASCII lower-casing; no other character lower-cases to a letter of "true". */
  function Lower(c: char): char {
    if 'A' <= c <= 'Z' then (c as int + 32) as char else c
  }

  /** gjson's Result.Bool(). */
  function AsBool(o: Option<Json>): bool
  {
    match o
    case Some(JBool(b)) => b
    case Some(JString(s)) => TruthyText(s)
    case Some(JNumber(n)) => n != 0
    case _ => false
  }

  /** Bool() case by case: false for a missing value, null, an array or an object; a JSON bool is itself. */
  lemma AsBoolCases(o: Option<Json>)
    ensures o.None? || o == Some(JNull) ==> !AsBool(o)
    ensures o.Some? && o.value.JBool? ==> AsBool(o) == o.value.b
    ensures o == Some(JString("TRUE")) || o == Some(JString("true")) || o == Some(JString("1")) ==> AsBool(o)
    ensures o.Some? && (o.value.JArray? || o.value.JObject?) ==> !AsBool(o)
  {
  }

  /** gjson's Result.Int(). */
  function AsInt(o: Option<Json>): int
  {
    match o
    case Some(JBool(b)) => if b then 1 else 0
    case Some(JString(s)) => ParseInt(s)
    case Some(JNumber(n)) => n
    case _ => 0
  }

  /** Int() case by case: 0 for a missing value, null, an array or an object; a number is itself. */
  lemma AsIntCases(o: Option<Json>)
    ensures o.None? || o == Some(JNull) ==> AsInt(o) == 0
    ensures o.Some? && o.value.JNumber? ==> AsInt(o) == o.value.n
    ensures o.Some? && (o.value.JArray? || o.value.JObject?) ==> AsInt(o) == 0
  {
  }

  /** Int() reads back the number that Go's %d wrote into a string. */
  lemma IntOfDecimalText(i: int)
    ensures AsInt(Some(JString(Decimal(i)))) == i
  {
    DecimalRoundTrip(i);
  }

  /**
   * The values gjson's ForEach visits: none for a missing value, the items of an
   * array, the member values of an object, and any other value once.
   */
  function Values(o: Option<Json>): (vs: seq<Json>)
    ensures o.Some? && o.value.JArray? ==> vs == o.value.items
    ensures o.None? ==> vs == []
  {
    match o
    case None => []
    case Some(JArray(xs)) => xs
    case Some(JObject(ms)) => seq(|ms|, i requires 0 <= i < |ms| => ms[i].value)
    case Some(j) => [j]
  }

  /** gjson's Result.Array(): nothing for a missing value or null, the items of an array, any other value alone. */
  function Elements(r: Raw): (xs: seq<Json>)
    ensures r.Unparsable? || r == Parsed(JNull) ==> xs == []
    ensures r.Parsed? && r.tree.JArray? ==> xs == r.tree.items
    ensures r.Parsed? && !r.tree.JArray? && !r.tree.JNull? ==> |xs| == 1
  {
    match r
    case Unparsable => []
    case Parsed(JNull) => []
    case Parsed(JArray(xs)) => xs
    case Parsed(j) => [j]
  }

  /** The texts of a sequence of values, in order. */
  function Texts(vs: seq<Json>): seq<string> {
    seq(|vs|, i requires 0 <= i < |vs| => AsString(Some(vs[i])))
  }

  // ---------------------------------------------------------------------------
  // The record-field idioms of the decoders (user.go, otp.go).
  // ---------------------------------------------------------------------------

  /** res.Get(name).String() */
  function Field(j: Json, name: string): string {
    AsString(Get(j, [name]))
  }

  /** A missing field reads as "", and a string member as its text. */
  lemma FieldReads(j: Json, name: string)
    ensures Get(j, [name]).None? ==> Field(j, name) == ""
    ensures j.JObject? && Lookup(j.members, name).Some? && Lookup(j.members, name).value.JString? ==>
              Field(j, name) == Lookup(j.members, name).value.s
  {
    assert [name][1..] == [];
    assert j.JObject? && Lookup(j.members, name).Some? ==>
      Get(j, [name]) == Get(Lookup(j.members, name).value, []) == Lookup(j.members, name);
  }

  /** res.Get(name + ".0").String(): element 0 of an array-wrapped scalar. */
  function Scalar(j: Json, name: string): string {
    AsString(Get(j, [name, "0"]))
  }

  /** A field without element 0 reads as "", and an array member whose element 0 is a string as that text. */
  lemma ScalarReads(j: Json, name: string)
    ensures Get(j, [name, "0"]).None? ==> Scalar(j, name) == ""
    ensures j.JObject? && Lookup(j.members, name).Some? && Lookup(j.members, name).value.JArray? &&
            |Lookup(j.members, name).value.items| > 0 && Lookup(j.members, name).value.items[0].JString? ==>
              Scalar(j, name) == Lookup(j.members, name).value.items[0].s
  {
    assert [name, "0"][1..] == ["0"] && ["0"][1..] == [];
    assert DigitsValue("0") == 0 by {
      assert "0"[..0] == [];
    }
    assert j.JObject? && Lookup(j.members, name).Some? ==>
      Get(j, [name, "0"]) == Get(Lookup(j.members, name).value, ["0"]);
    assert forall xs: seq<Json> :: |xs| > 0 ==> Get(JArray(xs), ["0"]) == Get(xs[0], []);
  }

  /** res.Get(name + ".0").Int() */
  function ScalarInt(j: Json, name: string): int {
    AsInt(Get(j, [name, "0"]))
  }

  /** res.Get(name).Bool() */
  function Flag(j: Json, name: string): bool {
    AsBool(Get(j, [name]))
  }

  /** ParseDateTime(res.Get(name + ".0.__datetime__").String()): a class-hinted datetime. */
  function DateField(j: Json, name: string): Time {
    ParseDateTime(AsString(Get(j, [name, "0", "__datetime__"])))
  }

  /** A datetime field is always a valid time, and the zero time when it is missing. */
  lemma DateFieldReads(j: Json, name: string)
    ensures ValidTime(DateField(j, name))
    ensures Get(j, [name, "0", "__datetime__"]).None? ==> IsZero(DateField(j, name))
  {
    ParseDateTimeValid(AsString(Get(j, [name, "0", "__datetime__"])));
  }

  /** The texts ForEach over res.Get(name) appends, in array order. */
  function ListField(j: Json, name: string): seq<string> {
    Texts(Values(Get(j, [name])))
  }

  /** A missing field gives no texts, and an array one text per item, in order. */
  lemma ListFieldReads(j: Json, name: string)
    ensures Get(j, [name]).None? ==> ListField(j, name) == []
    ensures Get(j, [name]).Some? && Get(j, [name]).value.JArray? ==>
              |ListField(j, name)| == |Get(j, [name]).value.items| &&
              forall i :: 0 <= i < |ListField(j, name)| ==>
                ListField(j, name)[i] == AsString(Some(Get(j, [name]).value.items[i]))
  {
  }

  /** An array-wrapped scalar decodes to its element 0, whatever follows it. */
  lemma ScalarUnwraps(ms: seq<Member>, name: string, v: string, rest: seq<Json>)
    requires Lookup(ms, name) == Some(JArray([JString(v)] + rest))
    ensures Scalar(JObject(ms), name) == v
  {
    assert [name, "0"][1..] == ["0"];
    assert Get(JObject(ms), [name, "0"]) == Get(JArray([JString(v)] + rest), ["0"]);
    assert DigitsValue("0") == 0 by {
      assert "0"[..0] == [];
    }
  }

  /** An absent field, or an empty array, decodes to "". */
  lemma ScalarDefaults(ms: seq<Member>, name: string)
    requires Lookup(ms, name) == None || Lookup(ms, name) == Some(JArray([]))
    ensures Scalar(JObject(ms), name) == ""
  {
    assert [name, "0"][1..] == ["0"];
    if Lookup(ms, name).Some? {
      assert Step(JArray([]), "0") == None;
      assert Get(JObject(ms), [name, "0"]) == Get(JArray([]), ["0"]);
    }
  }

  /**
   * Unwrapping, re-wrapping as a one-element array and unwrapping again gives the
   * first unwrapped text back.
   */
  lemma ScalarRewrap(ms: seq<Member>, name: string)
    ensures var v := Scalar(JObject(ms), name);
      Scalar(JObject([Member(name, JArray([JString(v)]))]), name) == v
  {
    var v := Scalar(JObject(ms), name);
    assert [JString(v)] + [] == [JString(v)];
    ScalarUnwraps([Member(name, JArray([JString(v)]))], name, v, []);
  }
}
