/**
 * OTP tokens: the display name, decoding a token from the server's JSON,
 * the defaults AddOTPToken fills in and the options it sends, and the token
 * list FetchOTPTokens assembles.
 */
module Otp {

  import opened Wrappers
  import opened Text
  import opened DateTime
  import opened Json
  import opened Errors
  import opened Ipa

  /** The hash algorithms FreeIPA supports for OTP tokens. */
  const AlgorithmSHA1: string := "sha1"
  const AlgorithmSHA256: string := "sha256"
  const AlgorithmSHA384: string := "sha384"
  const AlgorithmSHA512: string := "sha512"

  /** The token types FreeIPA supports. */
  const TokenTypeTOTP: string := "totp"
  const TokenTypeHOTP: string := "hotp"

  /** The fields of an OTPToken, in the struct's order. */
  datatype TokenRecord = TokenRecord(
    dn: string, uuid: string, algorithm: string, digits: int, owner: string, timeStep: int,
    clockOffset: int, managedBy: string, enabled: bool, tokenType: string, uri: string,
    description: string, vendor: string, model: string, serial: string,
    notBefore: Time, notAfter: Time)

  /** new(OTPToken): every field at its zero value. */
  const BlankToken := TokenRecord("", "", "", 0, "", 0, 0, "", false, "", "", "", "", "", "", ZeroTime, ZeroTime)

  /** DefaultTOTPToken: a time-based SHA-1 token of six digits and a 30-second step. */
  const DefaultToken := BlankToken.(tokenType := TokenTypeTOTP, algorithm := AlgorithmSHA1, digits := 6, timeStep := 30)

  /** The defaults AddOTPToken fills into the four fields left at their zero value. */
  function WithDefaults(t: TokenRecord): (r: TokenRecord)
    ensures r.tokenType != "" && r.algorithm != "" && r.digits != 0 && r.timeStep != 0
    ensures t.tokenType != "" ==> r.tokenType == t.tokenType
    ensures t.algorithm != "" ==> r.algorithm == t.algorithm
    ensures t.digits != 0 ==> r.digits == t.digits
    ensures t.timeStep != 0 ==> r.timeStep == t.timeStep
    ensures t.tokenType == "" ==> r.tokenType == DefaultToken.tokenType
    ensures t.algorithm == "" ==> r.algorithm == DefaultToken.algorithm
    ensures t.digits == 0 ==> r.digits == DefaultToken.digits
    ensures t.timeStep == 0 ==> r.timeStep == DefaultToken.timeStep
    ensures r == t.(tokenType := r.tokenType, algorithm := r.algorithm, digits := r.digits, timeStep := r.timeStep)
  {
    t.(tokenType := if t.tokenType == "" then DefaultToken.tokenType else t.tokenType,
       algorithm := if t.algorithm == "" then DefaultToken.algorithm else t.algorithm,
       digits := if t.digits == 0 then DefaultToken.digits else t.digits,
       timeStep := if t.timeStep == 0 then DefaultToken.timeStep else t.timeStep)
  }

  /** Filling the defaults twice is filling them once; the default token needs none. */
  lemma WithDefaultsIdempotent(t: TokenRecord)
    ensures WithDefaults(WithDefaults(t)) == WithDefaults(t)
    ensures WithDefaults(DefaultToken) == DefaultToken
  {
    var once := WithDefaults(t);
    assert WithDefaults(once) == once.(tokenType := once.tokenType, algorithm := once.algorithm,
                                         digits := once.digits, timeStep := once.timeStep);
  }

  /** The options every otptoken_add call carries. */
  const FixedTokenOptionKeys: set<string> :=
    {"type", "ipatokenotpalgorithm", "ipatokenotpdigits", "ipatokentotptimestep",
     "no_qrcode", "qrcode", "no_members", "all"}

  /** The options sent only when the token supplies them. */
  const OptionalTokenOptionKeys: set<string> :=
    {"description", "ipatokenvendor", "ipatokenmodel", "ipatokenserial", "ipatokennotbefore", "ipatokennotafter"}

  /** A time as the JSON-RPC datetime object {"__datetime__": "YYYYMMDDHHMMSSZ"}. */
  function DatetimeValue(t: Time): Json {
    JObject([Member("__datetime__", JString(FormatDateTime(t)))])
  }

  /** Whether AddOTPToken sends a key: the fixed ones always, each optional one when the token supplies it. */
  predicate Sends(t: TokenRecord, key: string) {
    || key in FixedTokenOptionKeys
    || (key == "description" && t.description != "")
    || (key == "ipatokenvendor" && t.vendor != "")
    || (key == "ipatokenmodel" && t.model != "")
    || (key == "ipatokenserial" && t.serial != "")
    || (key == "ipatokennotbefore" && !IsZero(t.notBefore))
    || (key == "ipatokennotafter" && !IsZero(t.notAfter))
  }

  /** The value AddOTPToken sends under a key. */
  function TokenOptionValue(t: TokenRecord, key: string): Json {
    match key
    case "type" => JString(t.tokenType)
    case "ipatokenotpalgorithm" => JString(t.algorithm)
    case "ipatokenotpdigits" => JNumber(t.digits)
    case "ipatokentotptimestep" => JNumber(t.timeStep)
    case "no_qrcode" => JBool(true)
    case "qrcode" => JBool(false)
    case "no_members" => JBool(false)
    case "all" => JBool(true)
    case "description" => JString(t.description)
    case "ipatokenvendor" => JString(t.vendor)
    case "ipatokenmodel" => JString(t.model)
    case "ipatokenserial" => JString(t.serial)
    case "ipatokennotbefore" => DatetimeValue(t.notBefore)
    case _ => DatetimeValue(t.notAfter)
  }

  /** The option map AddOTPToken sends for a token. */
  function TokenOptions(t: TokenRecord): (m: map<string, Json>)
    ensures m.Keys <= FixedTokenOptionKeys + OptionalTokenOptionKeys
  {
    map key | key in FixedTokenOptionKeys + OptionalTokenOptionKeys && Sends(t, key) :: TokenOptionValue(t, key)
  }

  /** The eight fixed options are always sent, with the token's type, algorithm, digits and step. */
  lemma TokenOptionsFixed(t: TokenRecord)
    ensures var m := TokenOptions(t);
      FixedTokenOptionKeys <= m.Keys <= FixedTokenOptionKeys + OptionalTokenOptionKeys &&
      m["type"] == JString(t.tokenType) && m["ipatokenotpalgorithm"] == JString(t.algorithm) &&
      m["ipatokenotpdigits"] == JNumber(t.digits) && m["ipatokentotptimestep"] == JNumber(t.timeStep) &&
      m["no_qrcode"] == JBool(true) && m["qrcode"] == JBool(false) &&
      m["no_members"] == JBool(false) && m["all"] == JBool(true)
  {
    assert "ipatokenotpalgorithm"[8] != "ipatokentotptimestep"[8];
  }

  /** Description, vendor, model and serial are sent only when not empty, as the token's text. */
  lemma TokenOptionsTexts(t: TokenRecord)
    ensures var m := TokenOptions(t);
      ("description" in m <==> t.description != "") &&
      (t.description != "" ==> m["description"] == JString(t.description)) &&
      ("ipatokenvendor" in m <==> t.vendor != "") &&
      (t.vendor != "" ==> m["ipatokenvendor"] == JString(t.vendor)) &&
      ("ipatokenmodel" in m <==> t.model != "") &&
      (t.model != "" ==> m["ipatokenmodel"] == JString(t.model)) &&
      ("ipatokenserial" in m <==> t.serial != "") &&
      (t.serial != "" ==> m["ipatokenserial"] == JString(t.serial))
  {
    assert "ipatokenvendor"[8] != "ipatokenserial"[8];
  }

  /** NotBefore is sent only when it is not the zero time, as a datetime object. */
  lemma TokenOptionsNotBefore(t: TokenRecord)
    ensures var m := TokenOptions(t);
      ("ipatokennotbefore" in m <==> !IsZero(t.notBefore)) &&
      (!IsZero(t.notBefore) ==> m["ipatokennotbefore"] == DatetimeValue(t.notBefore))
  {
    assert "ipatokennotbefore"[8] != "ipatokenotpdigits"[8];
  }

  /** NotAfter is sent only when it is not the zero time, as a datetime object. */
  lemma TokenOptionsNotAfter(t: TokenRecord)
    ensures var m := TokenOptions(t);
      ("ipatokennotafter" in m <==> !IsZero(t.notAfter)) &&
      (!IsZero(t.notAfter) ==> m["ipatokennotafter"] == DatetimeValue(t.notAfter))
  {
    assert "ipatokennotafter" !in FixedTokenOptionKeys;
    assert Sends(t, "ipatokennotafter") <==> !IsZero(t.notAfter);
    assert TokenOptionValue(t, "ipatokennotafter") == DatetimeValue(t.notAfter);
  }

  /** fromJSON as a value: every field read afresh from the server's record. */
  function DecodedToken(j: Json): TokenRecord {
    TokenRecord(
      dn := Field(j, "dn"),
      uuid := Scalar(j, "ipatokenuniqueid"),
      algorithm := Scalar(j, "ipatokenotpalgorithm"),
      digits := ScalarInt(j, "ipatokenotpdigits"),
      owner := Scalar(j, "ipatokenowner"),
      timeStep := ScalarInt(j, "ipatokentotptimestep"),
      clockOffset := ScalarInt(j, "ipatokentotpclockoffset"),
      managedBy := Scalar(j, "managedby_user"),
      enabled := "TRUE" != Scalar(j, "ipatokendisabled"),
      tokenType := Field(j, "type"),
      uri := Field(j, "uri"),
      description := Scalar(j, "description"),
      vendor := Scalar(j, "ipatokenvendor"),
      model := Scalar(j, "ipatokenmodel"),
      serial := Scalar(j, "ipatokenserial"),
      notBefore := DateField(j, "ipatokennotbefore"),
      notAfter := DateField(j, "ipatokennotafter"))
  }

  /** The defaults of a record the server leaves fields out of: enabled, no type, no NotBefore. */
  lemma DecodedTokenDefaults(j: Json)
    ensures Get(j, ["ipatokendisabled", "0"]).None? ==> DecodedToken(j).enabled
    ensures Get(j, ["type"]).None? ==> DecodedToken(j).tokenType == ""
    ensures Get(j, ["ipatokennotbefore", "0", "__datetime__"]).None? ==> IsZero(DecodedToken(j).notBefore)
  {
    ScalarReads(j, "ipatokendisabled");
    FieldReads(j, "type");
    DateFieldReads(j, "ipatokennotbefore");
  }

  /** A token is disabled exactly when element 0 of ipatokendisabled is the text "TRUE", in that case. */
  lemma EnabledRule(j: Json)
    ensures !DecodedToken(j).enabled <==> Get(j, ["ipatokendisabled", "0"]) == Some(JString("TRUE"))
  {
    var d := Get(j, ["ipatokendisabled", "0"]);
    assert DecodedToken(j).enabled <==> AsString(d) != "TRUE";
    TextIsTRUE(d);
  }

  /**
   * A time sent as an option and echoed back by the server as a one-element
   * array decodes to the time sent, for whole-second times with a four-digit year.
   */
  lemma DatetimeRoundTrip(ms: seq<Member>, name: string, t: Time)
    requires ValidTime(t) && 0 <= t.year <= 9999 && t.nanosecond == 0
    requires Lookup(ms, name) == Some(JArray([DatetimeValue(t)]))
    ensures DateField(JObject(ms), name) == t
  {
    var v := DatetimeValue(t);
    assert [name, "0", "__datetime__"][1..] == ["0", "__datetime__"];
    assert ["0", "__datetime__"][1..] == ["__datetime__"];
    assert DigitsValue("0") == 0 by {
      assert "0"[..0] == [];
    }
    assert Get(JObject(ms), [name, "0", "__datetime__"]) == Get(v, ["__datetime__"]);
    assert Get(v, ["__datetime__"]) == Some(JString(FormatDateTime(t)));
    FormatThenParse(t);
  }

  /** The NotBefore and NotAfter options, echoed back by the server, decode to the token's times. */
  lemma TokenTimesRoundTrip(t: TokenRecord)
    requires ValidTime(t.notBefore) && ValidTime(t.notAfter)
    requires !IsZero(t.notBefore) && 0 <= t.notBefore.year <= 9999 && t.notBefore.nanosecond == 0
    requires !IsZero(t.notAfter) && 0 <= t.notAfter.year <= 9999 && t.notAfter.nanosecond == 0
    ensures var m := TokenOptions(t);
      var echo := JObject([Member("ipatokennotbefore", JArray([m["ipatokennotbefore"]])),
                           Member("ipatokennotafter", JArray([m["ipatokennotafter"]]))]);
      DecodedToken(echo).notBefore == t.notBefore && DecodedToken(echo).notAfter == t.notAfter
  {
    TokenOptionsNotBefore(t);
    TokenOptionsNotAfter(t);
    var before := Member("ipatokennotbefore", JArray([DatetimeValue(t.notBefore)]));
    var after := Member("ipatokennotafter", JArray([DatetimeValue(t.notAfter)]));
    DatetimeRoundTrip([before, after], "ipatokennotbefore", t.notBefore);
    DatetimeRoundTrip([before, after], "ipatokennotafter", t.notAfter);
  }

  class OTPToken {
    var record: TokenRecord

    constructor ()
      ensures record == BlankToken
    {
      record := BlankToken;
    }

    /** A copy of DefaultTOTPToken. */
    constructor Default()
      ensures record == DefaultToken
    {
      record := DefaultToken;
    }

    /** The owner and the last six characters of a 36-character UUID; any other UUID as it is. */
    function DisplayName(): (s: string)
      reads this
      ensures var u := record.uuid;
              var o := record.owner;
              |u| == 36 ==> |s| == |o| + 7 && s[..|o|] == o && s[|o|] == '-' && s[|o| + 1..] == u[30..]
      ensures |record.uuid| != 36 ==> s == record.uuid
    {
      var u := record.uuid;
      if |u| == 36 then record.owner + "-" + u[|u| - 6..] else u
    }

    /** The in-place default filling of AddOTPToken. */
    method FillDefaults()
      modifies this
      ensures record == WithDefaults(old(record))
    {
      if record.tokenType == "" {
        record := record.(tokenType := DefaultToken.tokenType);
      }
      if record.algorithm == "" {
        record := record.(algorithm := DefaultToken.algorithm);
      }
      if record.digits == 0 {
        record := record.(digits := DefaultToken.digits);
      }
      if record.timeStep == 0 {
        record := record.(timeStep := DefaultToken.timeStep);
      }
    }

    /** fromJSON: refuse text that is not JSON; otherwise set every field from the record. */
    method FromJson(raw: Raw) returns (err: Option<Error>)
      modifies this
      ensures raw.Unparsable? ==> err == Some(InvalidOtpJson) && record == old(record)
      ensures raw.Parsed? ==> err.None? && record == DecodedToken(raw.tree)
    {
      if raw.Unparsable? {
        return Some(InvalidOtpJson);
      }
      var res := raw.tree;
      record := record.(dn := Field(res, "dn"));
      record := record.(uuid := Scalar(res, "ipatokenuniqueid"));
      record := record.(algorithm := Scalar(res, "ipatokenotpalgorithm"));
      record := record.(digits := ScalarInt(res, "ipatokenotpdigits"));
      record := record.(owner := Scalar(res, "ipatokenowner"));
      record := record.(timeStep := ScalarInt(res, "ipatokentotptimestep"));
      record := record.(clockOffset := ScalarInt(res, "ipatokentotpclockoffset"));
      record := record.(managedBy := Scalar(res, "managedby_user"));
      record := record.(enabled := "TRUE" != Scalar(res, "ipatokendisabled"));
      record := record.(tokenType := Field(res, "type"));
      record := record.(uri := Field(res, "uri"));
      record := record.(description := Scalar(res, "description"));
      record := record.(vendor := Scalar(res, "ipatokenvendor"));
      record := record.(model := Scalar(res, "ipatokenmodel"));
      record := record.(serial := Scalar(res, "ipatokenserial"));
      record := record.(notBefore := DateField(res, "ipatokennotbefore"));
      record := record.(notAfter := DateField(res, "ipatokennotafter"));
      return None;
    }
  }

  /** The body of a token call's successful response: tokenRec := new(OTPToken); tokenRec.fromJSON(res.Result.Data). */
  method DecodeToken(res: Response) returns (rec: OTPToken?, err: Option<Error>)
    ensures err.None? <==> rec != null
    ensures err.None? <==> DataOf(res).Ok? && DataOf(res).value.Parsed?
    ensures DataOf(res).Err? ==> err == Some(DataOf(res).error)
    ensures DataOf(res) == Ok(Unparsable) ==> err == Some(InvalidOtpJson)
    ensures rec != null ==> fresh(rec) && rec.record == DecodedToken(DataOf(res).value.tree)
  {
    var data := DataOf(res);
    if data.Err? {
      return null, Some(data.error);
    }
    var t := new OTPToken();
    var e := t.FromJson(data.value);
    if e.Some? {
      return null, e;
    }
    return t, None;
  }

  /**
   * AddOTPToken: fill the defaults into the token given (a copy of the
   * default token when there is none), send its options, and decode the new
   * token from the reply.
   */
  method AddOTPToken(c: Client, token: OTPToken?, reply: Reply)
    returns (sent: RpcRequest, rec: OTPToken?, err: Option<Error>)
    modifies c`sessionID, token
    ensures token != null ==> token.record == WithDefaults(old(token.record))
    ensures sent == RequestFor(c.host, old(c.sessionID), c.hasKerberos,
                               Payload(0, "otptoken_add", [],
                                       WithVersion(TokenOptions(WithDefaults(if token == null then DefaultToken
                                                                             else old(token.record))))))
    ensures var x := RpcOutcome(reply, c.sticky);
      c.sessionID == (if x.session.Some? then x.session.value else old(c.sessionID)) &&
      (x.result.Err? ==> rec == null && err == Some(x.result.error)) &&
      (x.result.Ok? ==> (err.None? <==> DataOf(x.result.value).Ok? && DataOf(x.result.value).value.Parsed?))
    ensures err.None? <==> rec != null
    ensures rec != null ==>
      fresh(rec) && rec.record == DecodedToken(DataOf(RpcOutcome(reply, c.sticky).result.value).value.tree)
  {
    var t := token;
    if t == null {
      t := new OTPToken.Default();
    }
    t.FillDefaults();
    var options := TokenOptions(t.record);
    var opts := new Options(options);
    var r;
    sent, r := c.Rpc("otptoken_add", [], opts, reply);
    if r.Err? {
      return sent, null, Some(r.error);
    }
    rec, err := DecodeToken(r.value);
  }

  /** want holds, at each position, the record decoded from the element at that position. */
  ghost predicate DecodedFrom(want: seq<TokenRecord>, items: seq<Json>) {
    |want| == |items| &&
    forall k {:trigger DecodedToken(items[k])} :: 0 <= k < |items| ==> want[k] == DecodedToken(items[k])
  }

  /** tok := new(OTPToken); tok.fromJSON(t.Raw), for element i of a parsed array. */
  method NewToken(items: seq<Json>, i: nat, ghost want: seq<TokenRecord>) returns (tok: OTPToken)
    requires i < |items| && DecodedFrom(want, items)
    ensures fresh(tok) && tok.record == want[i]
  {
    tok := new OTPToken();
    var _ := tok.FromJson(Parsed(items[i]));
  }

  /** The loop of FetchOTPTokens, against the records it is to produce. */
  method BuildTokens(items: seq<Json>, ghost want: seq<TokenRecord>) returns (tokens: seq<OTPToken>)
    requires DecodedFrom(want, items)
    ensures |tokens| == |items|
    ensures forall i :: 0 <= i < |tokens| ==> tokens[i].record == want[i]
    ensures forall i :: 0 <= i < |tokens| ==> fresh(tokens[i])
    ensures forall i, k :: 0 <= i < k < |tokens| ==> tokens[i] != tokens[k]
  {
    tokens := [];
    var i := 0;
    while i < |items|
      invariant 0 <= i <= |items| && |tokens| == i
      invariant forall k :: 0 <= k < i ==> tokens[k].record == want[k]
      invariant forall k :: 0 <= k < i ==> fresh(tokens[k])
      invariant forall k, m :: 0 <= k < m < i ==> tokens[k] != tokens[m]
    {
      var tok := NewToken(items, i, want);
      tokens := tokens + [tok];
      i := i + 1;
    }
  }

  /** The tokens of FetchOTPTokens: a new token decoded from each element, in order. */
  method DecodeTokens(items: seq<Json>) returns (tokens: seq<OTPToken>)
    ensures |tokens| == |items|
    ensures forall i :: 0 <= i < |tokens| ==> tokens[i].record == DecodedToken(items[i])
    ensures forall i :: 0 <= i < |tokens| ==> fresh(tokens[i])
    ensures forall i, k :: 0 <= i < k < |tokens| ==> tokens[i] != tokens[k]
  {
    ghost var want := seq(|items|, k requires 0 <= k < |items| => DecodedToken(items[k]));
    tokens := BuildTokens(items, want);
  }

  /** The options of FetchOTPTokens' otptoken_find call. */
  function FetchOptions(owner: string): map<string, Json> {
    map["ipatokenowner" := JString(owner), "all" := JBool(true)]
  }

  /**
   * FetchOTPTokens: one new token per element of the reply's array, in the
   * server's order. Every element of a parsed array is itself JSON, so
   * decoding an element cannot fail.
   */
  method FetchOTPTokens(c: Client, owner: string, reply: Reply)
    returns (sent: RpcRequest, tokens: seq<OTPToken>, err: Option<Error>)
    modifies c`sessionID
    ensures sent == RequestFor(c.host, old(c.sessionID), c.hasKerberos,
                               Payload(0, "otptoken_find", [], WithVersion(FetchOptions(owner))))
    ensures var x := RpcOutcome(reply, c.sticky);
      c.sessionID == (if x.session.Some? then x.session.value else old(c.sessionID)) &&
      (x.result.Err? ==> tokens == [] && err == Some(x.result.error)) &&
      (x.result.Ok? && DataOf(x.result.value).Err? ==> tokens == [] && err == Some(DataOf(x.result.value).error)) &&
      (err.None? <==> x.result.Ok? && DataOf(x.result.value).Ok?)
    ensures err.None? ==>
      var items := Elements(DataOf(RpcOutcome(reply, c.sticky).result.value).value);
      |tokens| == |items| &&
      (forall i :: 0 <= i < |tokens| ==> tokens[i].record == DecodedToken(items[i])) &&
      (forall i :: 0 <= i < |tokens| ==> fresh(tokens[i])) &&
      (forall i, k :: 0 <= i < k < |tokens| ==> tokens[i] != tokens[k])
  {
    var opts := new Options(FetchOptions(owner));
    var r;
    sent, r := c.Rpc("otptoken_find", [], opts, reply);
    if r.Err? {
      return sent, [], Some(r.error);
    }
    var data := DataOf(r.value);
    if data.Err? {
      return sent, [], Some(data.error);
    }
    tokens := DecodeTokens(Elements(data.value));
    return sent, tokens, None;
  }
}
