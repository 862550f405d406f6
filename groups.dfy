/**
 * Group records: the record as encoding/json fills it from the server's
 * reply, getCn, the group calls and the membership check built on GroupShow.
 */
module Groups {

  import opened Wrappers
  import opened Text
  import opened Json
  import opened Errors
  import opened Ipa

  /** The fields of a GroupRecord, with the JSON names dn, cn, ipauniqueid, gidnumber, objectclass, member_user. */
  datatype GroupRecord = GroupRecord(dn: string, cn: seq<string>, ipaUniqueId: seq<string>,
                                     gidNumber: seq<string>, objectClass: seq<string>, users: seq<string>)

  /** The JSON names of the record's fields. */
  const GroupKeys: set<string> := {"dn", "cn", "ipauniqueid", "gidnumber", "objectclass", "member_user"}

  /** A GroupRecord at its zero value. */
  const BlankGroup := GroupRecord("", [], [], [], [], [])

  /** getCn: the first common name, or "" and ErrorGroupRecordNotInitialized when there is none. */
  function GetCn(g: GroupRecord): (r: (string, Option<Error>))
    ensures r.1.None? <==> |g.cn| > 0
    ensures r.1.None? ==> r.0 == g.cn[0]
    ensures r.1.Some? ==> r.0 == "" && r.1.value == GroupRecordNotInitialized
  {
    if |g.cn| <= 0 then ("", Some(GroupRecordNotInitialized)) else (g.cn[0], None)
  }

  // ---------------------------------------------------------------------------
  // json.Unmarshal(data, &groupRec), for groupRec a nil *GroupRecord.
  // ---------------------------------------------------------------------------

  /** The name encoding/json gives a JSON value's kind in its type errors. */
  function Kind(j: Json): string {
    match j
    case JNull => "null"
    case JBool(_) => "bool"
    case JNumber(_) => "number"
    case JString(_) => "string"
    case JArray(_) => "array"
    case JObject(_) => "object"
  }

  /** The first of two errors, as encoding/json keeps the earliest type error. */
  function FirstError(e: Option<Error>, later: Option<Error>): Option<Error> {
    if e.Some? then e else later
  }

  function FieldTypeError(v: Json, field: string, goType: string): Error {
    JsonType(Kind(v), "struct field GroupRecord." + field + " of type " + goType)
  }

  /**
   * A JSON array decoded into the []string a field already holds: element i
   * is decoded into slot i, so a string replaces the slot, while null or any
   * other value (the latter with a type error) leaves what the slot held, or
   * "" for a slot past the old length. The result has the array's length.
   */
  function DecodeStrings(old_: seq<string>, xs: seq<Json>, field: string): (r: (seq<string>, Option<Error>))
    ensures |r.0| == |xs|
    ensures r.1.None? <==> forall i :: 0 <= i < |xs| ==> xs[i].JString? || xs[i].JNull?
    ensures forall i :: 0 <= i < |xs| && xs[i].JString? ==> r.0[i] == xs[i].s
    ensures forall i :: 0 <= i < |xs| && !xs[i].JString? ==> r.0[i] == (if i < |old_| then old_[i] else "")
  {
    if |xs| == 0 then ([], None)
    else
      var (init, e) := DecodeStrings(old_, xs[..|xs| - 1], field);
      var last := xs[|xs| - 1];
      var kept := if |xs| - 1 < |old_| then old_[|xs| - 1] else "";
      var (s, e') := match last
        case JString(s) => (s, None)
        case JNull => (kept, None)
        case _ => (kept, Some(FieldTypeError(last, field, "string")));
      (init + [s], FirstError(e, e'))
  }

  /** A JSON value decoded into a []string field: null empties it, an array is decoded into it, anything else is refused. */
  function DecodeList(old_: seq<string>, v: Json, field: string): (r: (seq<string>, Option<Error>))
    ensures v.JNull? ==> r == ([], None)
    ensures v.JArray? ==> r == DecodeStrings(old_, v.items, field)
    ensures !v.JNull? && !v.JArray? ==> r.0 == old_ && r.1.Some?
  {
    match v
    case JNull => ([], None)
    case JArray(xs) => DecodeStrings(old_, xs, field)
    case _ => (old_, Some(FieldTypeError(v, field, "[]string")))
  }

  /** One member of the reply's object stored into the record; members with other keys are ignored. */
  function SetField(g: GroupRecord, m: Member): (r: (GroupRecord, Option<Error>))
    ensures m.key !in GroupKeys ==> r == (g, None)
    ensures m.key != "dn" ==> r.0.dn == g.dn
    ensures m.key != "cn" ==> r.0.cn == g.cn
    ensures m.key != "ipauniqueid" ==> r.0.ipaUniqueId == g.ipaUniqueId
    ensures m.key != "gidnumber" ==> r.0.gidNumber == g.gidNumber
    ensures m.key != "objectclass" ==> r.0.objectClass == g.objectClass
    ensures m.key != "member_user" ==> r.0.users == g.users
  {
    match m.key
    case "dn" =>
      (match m.value
       case JString(s) => (g.(dn := s), None)
       case JNull => (g, None)
       case _ => (g, Some(FieldTypeError(m.value, "dn", "string"))))
    case "cn" => var (l, e) := DecodeList(g.cn, m.value, "cn"); (g.(cn := l), e)
    case "ipauniqueid" => var (l, e) := DecodeList(g.ipaUniqueId, m.value, "ipauniqueid"); (g.(ipaUniqueId := l), e)
    case "gidnumber" => var (l, e) := DecodeList(g.gidNumber, m.value, "gidnumber"); (g.(gidNumber := l), e)
    case "objectclass" => var (l, e) := DecodeList(g.objectClass, m.value, "objectclass"); (g.(objectClass := l), e)
    case "member_user" => var (l, e) := DecodeList(g.users, m.value, "member_user"); (g.(users := l), e)
    case _ => (g, None)
  }

  /** The members of the object stored in order, later ones overwriting earlier ones; the first error is kept. */
  function DecodeMembers(g: GroupRecord, ms: seq<Member>): (r: (GroupRecord, Option<Error>))
    ensures r.1.Some? ==> |ms| > 0
    ensures |ms| > 0 && SetField(g, ms[0]).1.Some? ==> r.1 == SetField(g, ms[0]).1
    decreases |ms|
  {
    if |ms| == 0 then (g, None)
    else
      var (g', e) := SetField(g, ms[0]);
      var (g'', e') := DecodeMembers(g', ms[1..]);
      (g'', FirstError(e, e'))
  }

  /**
   * The record json.Unmarshal leaves behind, and its error: nothing for text
   * that is not JSON or for null, a new record for an object, and a new zero
   * record with a type error for any other value.
   */
  function DecodeGroup(raw: Raw): (r: (Option<GroupRecord>, Option<Error>))
    ensures raw.Unparsable? ==> r.0.None? && r.1.Some?
    ensures raw == Parsed(JNull) ==> r == (None, None)
    ensures raw.Parsed? && !raw.tree.JNull? ==> r.0.Some?
    ensures raw.Parsed? && !raw.tree.JNull? && !raw.tree.JObject? ==>
              r == (Some(BlankGroup), Some(JsonType(Kind(raw.tree), "value of type ipa.GroupRecord")))
  {
    match raw
    case Unparsable => (None, Some(JsonSyntax("invalid JSON")))
    case Parsed(JNull) => (None, None)
    case Parsed(JObject(ms)) => var (g, e) := DecodeMembers(BlankGroup, ms); (Some(g), e)
    case Parsed(j) => (Some(BlankGroup), Some(JsonType(Kind(j), "value of type ipa.GroupRecord")))
  }

  // ---------------------------------------------------------------------------
  // Decoding reads back what json.Marshal writes.
  // ---------------------------------------------------------------------------

  /** A []string as the JSON array json.Marshal writes for it. */
  function StringArray(xs: seq<string>): (j: Json)
    ensures j.JArray? && |j.items| == |xs|
    ensures forall i :: 0 <= i < |xs| ==> j.items[i] == JString(xs[i])
  {
    JArray(seq(|xs|, i requires 0 <= i < |xs| => JString(xs[i])))
  }

  /** The object json.Marshal writes for a record (every slice non-nil). */
  function EncodeGroup(g: GroupRecord): (j: Json)
    ensures j.JObject? && |j.members| == 6
    ensures forall i :: 0 <= i < 6 ==> j.members[i].key in GroupKeys
    ensures forall i, k :: 0 <= i < k < 6 ==> j.members[i].key != j.members[k].key
  {
    JObject([Member("dn", JString(g.dn)), Member("cn", StringArray(g.cn)),
             Member("ipauniqueid", StringArray(g.ipaUniqueId)), Member("gidnumber", StringArray(g.gidNumber)),
             Member("objectclass", StringArray(g.objectClass)), Member("member_user", StringArray(g.users))])
  }

  /** An array of strings decodes to exactly those strings, without error. */
  lemma DecodeStringArray(old_: seq<string>, xs: seq<string>, field: string)
    ensures DecodeStrings(old_, StringArray(xs).items, field) == (xs, None)
  {
    var r := DecodeStrings(old_, StringArray(xs).items, field);
    assert r.0 == xs;
  }

  /** Decoding from member k on, when member k is stored without error, goes on from member k + 1. */
  lemma DecodeMembersFrom(g: GroupRecord, ms: seq<Member>, k: nat, g': GroupRecord)
    requires k < |ms| && SetField(g, ms[k]) == (g', None)
    ensures DecodeMembers(g, ms[k..]) == DecodeMembers(g', ms[k + 1..])
  {
    assert ms[k..][0] == ms[k] && ms[k..][1..] == ms[k + 1..];
  }

  /** The first three members json.Marshal writes are stored back into their own fields. */
  lemma SetEncodedFields(g: GroupRecord, h: GroupRecord)
    ensures SetField(h, Member("dn", JString(g.dn))) == (h.(dn := g.dn), None)
    ensures SetField(h, Member("cn", StringArray(g.cn))) == (h.(cn := g.cn), None)
    ensures SetField(h, Member("ipauniqueid", StringArray(g.ipaUniqueId))) == (h.(ipaUniqueId := g.ipaUniqueId), None)
  {
    DecodeStringArray(h.cn, g.cn, "cn");
    DecodeStringArray(h.ipaUniqueId, g.ipaUniqueId, "ipauniqueid");
  }

  /** The last three members json.Marshal writes are stored back into their own fields. */
  lemma SetEncodedLists(g: GroupRecord, h: GroupRecord)
    ensures SetField(h, Member("gidnumber", StringArray(g.gidNumber))) == (h.(gidNumber := g.gidNumber), None)
    ensures SetField(h, Member("objectclass", StringArray(g.objectClass))) == (h.(objectClass := g.objectClass), None)
    ensures SetField(h, Member("member_user", StringArray(g.users))) == (h.(users := g.users), None)
  {
    DecodeStringArray(h.gidNumber, g.gidNumber, "gidnumber");
    DecodeStringArray(h.objectClass, g.objectClass, "objectclass");
    DecodeStringArray(h.users, g.users, "member_user");
  }

  /** json.Unmarshal of the JSON a record marshals to gives back the record, and no error. */
  lemma DecodeEncodeGroup(g: GroupRecord)
    ensures DecodeGroup(Parsed(EncodeGroup(g))) == (Some(g), None)
  {
    var ms := EncodeGroup(g).members;
    var g1 := BlankGroup.(dn := g.dn);
    var g2 := g1.(cn := g.cn);
    var g3 := g2.(ipaUniqueId := g.ipaUniqueId);
    SetEncodedFields(g, BlankGroup);
    SetEncodedFields(g, g1);
    SetEncodedFields(g, g2);
    DecodeEncodedLists(g);
    DecodeMembersFrom(g2, ms, 2, g3);
    DecodeMembersFrom(g1, ms, 1, g2);
    DecodeMembersFrom(BlankGroup, ms, 0, g1);
    assert ms[0..] == ms;
  }

  /** The last three members json.Marshal writes, decoded after the first three, complete the record. */
  lemma DecodeEncodedLists(g: GroupRecord)
    ensures DecodeMembers(BlankGroup.(dn := g.dn, cn := g.cn, ipaUniqueId := g.ipaUniqueId), EncodeGroup(g).members[3..]) ==
            (g, None)
  {
    var ms := EncodeGroup(g).members;
    var g3 := BlankGroup.(dn := g.dn, cn := g.cn, ipaUniqueId := g.ipaUniqueId);
    var g4 := g3.(gidNumber := g.gidNumber);
    var g5 := g4.(objectClass := g.objectClass);
    SetEncodedLists(g, g3);
    SetEncodedLists(g, g4);
    SetEncodedLists(g, g5);
    assert g5.(users := g.users) == g;
    DecodeMembersFrom(g5, ms, 5, g);
    DecodeMembersFrom(g4, ms, 4, g5);
    DecodeMembersFrom(g3, ms, 3, g4);
  }

  /** Members the record has no field for change nothing and raise no error. */
  lemma {:induction false} UnknownKeysIgnored(g: GroupRecord, ms: seq<Member>)
    requires forall i :: 0 <= i < |ms| ==> ms[i].key !in {"dn", "cn", "ipauniqueid", "gidnumber", "objectclass", "member_user"}
    ensures DecodeMembers(g, ms) == (g, None)
    decreases |ms|
  {
    if |ms| > 0 {
      UnknownKeysIgnored(g, ms[1..]);
    }
  }

  /** The first of two `cn` members: a one-string array decodes into the blank record without error. */
  lemma FirstCn(a: string)
    ensures SetField(BlankGroup, Member("cn", JArray([JString(a)]))) == (BlankGroup.(cn := [a]), None)
  {
    var r := DecodeStrings([], [JString(a)], "cn");
    assert r.0 == [a] && r.1.None?;
  }

  /**
   * A key repeated in the object decodes its second array into the slice the
   * first one left: a null element keeps the earlier string.
   */
  lemma RepeatedKeyNull(a: string)
    ensures var ms := [Member("cn", JArray([JString(a)])), Member("cn", JArray([JNull]))];
      DecodeMembers(BlankGroup, ms) == (BlankGroup.(cn := [a]), None)
  {
    var g := BlankGroup.(cn := [a]);
    var ms := [Member("cn", JArray([JString(a)])), Member("cn", JArray([JNull]))];
    FirstCn(a);
    var r := DecodeStrings([a], [JNull], "cn");
    assert r.0 == [a] && r.1.None?;
    assert SetField(g, ms[1]) == (g, None);
    DecodeMembersFrom(BlankGroup, ms, 0, g);
    DecodeMembersFrom(g, ms, 1, g);
    assert ms[0..] == ms && ms[2..] == [];
  }

  /** As for null, a mistyped element of the repeated key keeps the earlier string, with a type error. */
  lemma RepeatedKeyMistyped(a: string)
    ensures var ms := [Member("cn", JArray([JString(a)])), Member("cn", JArray([JNumber(5)]))];
      DecodeMembers(BlankGroup, ms) == (BlankGroup.(cn := [a]), Some(FieldTypeError(JNumber(5), "cn", "string")))
  {
    var g := BlankGroup.(cn := [a]);
    var e := FieldTypeError(JNumber(5), "cn", "string");
    var ms := [Member("cn", JArray([JString(a)])), Member("cn", JArray([JNumber(5)]))];
    FirstCn(a);
    var r := DecodeStrings([a], [JNumber(5)], "cn");
    assert [JNumber(5)][..0] == [];
    assert r == ([a], Some(e));
    assert SetField(g, ms[1]) == (g, Some(e));
    DecodeOneMember(g, ms[1]);
    DecodeMembersFrom(BlankGroup, ms, 0, g);
    assert ms[0..] == ms && ms[1..] == [ms[1]];
  }

  /** An object of one member decodes as that member is stored. */
  lemma DecodeOneMember(g: GroupRecord, m: Member)
    ensures DecodeMembers(g, [m]) == SetField(g, m)
  {
    assert [m][0] == m && [m][1..] == [];
  }

  // ---------------------------------------------------------------------------
  // The group calls.
  // ---------------------------------------------------------------------------

  /** The options of group_show. */
  const ShowOptions: map<string, Json> :=
    map["no_members" := JBool(false), "raw" := JBool(false), "all" := JBool(false), "rights" := JBool(false)]

  /** The options AddUserToGroup and RemoveUserFromGroup both send. */
  function MemberOptions(userUid: string): (m: map<string, Json>)
    ensures m.Keys == {"no_members", "raw", "all", "user"}
    ensures m["user"] == StringArray([userUid])
    ensures m["no_members"] == m["raw"] == m["all"] == JBool(false)
  {
    map["no_members" := JBool(false), "raw" := JBool(false), "all" := JBool(false), "user" := StringArray([userUid])]
  }

  /** What a group call returns for an rpc result: the error alone, or the decoded data. */
  function GroupReply(r: Result<Response, Error>): (x: (Option<GroupRecord>, Option<Error>))
    ensures r.Err? ==> x == (None, Some(r.error))
    ensures r.Ok? && DataOf(r.value).Err? ==> x == (None, Some(DataOf(r.value).error))
    ensures r.Ok? && DataOf(r.value).Ok? ==> x == DecodeGroup(DataOf(r.value).value)
  {
    match r
    case Err(e) => (None, Some(e))
    case Ok(res) =>
      match DataOf(res)
      case Err(e) => (None, Some(e))
      case Ok(data) => DecodeGroup(data)
  }

  /** GroupAdd: create the group cn with no options. */
  method GroupAdd(c: Client, cn: string, reply: Reply)
    returns (sent: RpcRequest, rec: Option<GroupRecord>, err: Option<Error>)
    modifies c`sessionID
    ensures sent == RequestFor(c.host, old(c.sessionID), c.hasKerberos, Payload(0, "group_add", [cn], WithVersion(map[])))
    ensures var x := RpcOutcome(reply, c.sticky);
      c.sessionID == (if x.session.Some? then x.session.value else old(c.sessionID)) &&
      (rec, err) == GroupReply(x.result)
  {
    var opts := new Options(map[]);
    var r;
    sent, r := c.Rpc("group_add", [cn], opts, reply);
    if r.Err? {
      return sent, None, Some(r.error);
    }
    var data := DataOf(r.value);
    if data.Err? {
      return sent, None, Some(data.error);
    }
    rec, err := DecodeGroup(data.value).0, DecodeGroup(data.value).1;
  }

  /** GroupShow: fetch the group cn. */
  method GroupShow(c: Client, cn: string, reply: Reply)
    returns (sent: RpcRequest, rec: Option<GroupRecord>, err: Option<Error>)
    modifies c`sessionID
    ensures sent == RequestFor(c.host, old(c.sessionID), c.hasKerberos, Payload(0, "group_show", [cn], WithVersion(ShowOptions)))
    ensures var x := RpcOutcome(reply, c.sticky);
      c.sessionID == (if x.session.Some? then x.session.value else old(c.sessionID)) &&
      (rec, err) == GroupReply(x.result)
  {
    var opts := new Options(ShowOptions);
    var r;
    sent, r := c.Rpc("group_show", [cn], opts, reply);
    if r.Err? {
      return sent, None, Some(r.error);
    }
    var data := DataOf(r.value);
    if data.Err? {
      return sent, None, Some(data.error);
    }
    rec, err := DecodeGroup(data.value).0, DecodeGroup(data.value).1;
  }

  /** AddUserToGroup: add the user userUid to the group groupCn. */
  method AddUserToGroup(c: Client, groupCn: string, userUid: string, reply: Reply)
    returns (sent: RpcRequest, rec: Option<GroupRecord>, err: Option<Error>)
    modifies c`sessionID
    ensures sent == RequestFor(c.host, old(c.sessionID), c.hasKerberos,
                               Payload(0, "group_add_member", [groupCn], WithVersion(MemberOptions(userUid))))
    ensures var x := RpcOutcome(reply, c.sticky);
      c.sessionID == (if x.session.Some? then x.session.value else old(c.sessionID)) &&
      (rec, err) == GroupReply(x.result)
  {
    var opts := new Options(MemberOptions(userUid));
    var r;
    sent, r := c.Rpc("group_add_member", [groupCn], opts, reply);
    if r.Err? {
      return sent, None, Some(r.error);
    }
    var data := DataOf(r.value);
    if data.Err? {
      return sent, None, Some(data.error);
    }
    rec, err := DecodeGroup(data.value).0, DecodeGroup(data.value).1;
  }

  /** RemoveUserFromGroup: remove the user userUid from the group groupCn; only the error is kept. */
  method RemoveUserFromGroup(c: Client, groupCn: string, userUid: string, reply: Reply)
    returns (sent: RpcRequest, err: Option<Error>)
    modifies c`sessionID
    ensures sent == RequestFor(c.host, old(c.sessionID), c.hasKerberos,
                               Payload(0, "group_remove_member", [groupCn], WithVersion(MemberOptions(userUid))))
    ensures var x := RpcOutcome(reply, c.sticky);
      c.sessionID == (if x.session.Some? then x.session.value else old(c.sessionID)) &&
      err == (if x.result.Err? then Some(x.result.error) else None)
  {
    var opts := new Options(MemberOptions(userUid));
    var r;
    sent, r := c.Rpc("group_remove_member", [groupCn], opts, reply);
    if r.Err? {
      return sent, Some(r.error);
    }
    return sent, None;
  }

  /**
   * CheckUserMemberOfGroup: true exactly when the user is among the group's
   * users. A failed GroupShow gives false and its error; a reply whose data
   * is null leaves no record, and reading its users is Go's nil dereference.
   */
  method CheckUserMemberOfGroup(c: Client, userName: string, groupName: string, reply: Reply)
    returns (sent: RpcRequest, member: bool, err: Option<Error>)
    modifies c`sessionID
    ensures sent == RequestFor(c.host, old(c.sessionID), c.hasKerberos,
                               Payload(0, "group_show", [groupName], WithVersion(ShowOptions)))
    ensures var x := RpcOutcome(reply, c.sticky);
      var (rec, e) := GroupReply(x.result);
      c.sessionID == (if x.session.Some? then x.session.value else old(c.sessionID)) &&
      (e.Some? ==> !member && err == e) &&
      (e.None? && rec.None? ==> !member && err == Some(NilDereference("GroupRecord"))) &&
      (e.None? && rec.Some? ==> err.None? && (member <==> userName in rec.value.users))
  {
    var group, e;
    sent, group, e := GroupShow(c, groupName, reply);
    if e.Some? {
      return sent, false, e;
    }
    if group.None? {
      return sent, false, Some(NilDereference("GroupRecord"));
    }
    member := Contains(group.value.users, userName);
    return sent, member, None;
  }
}
