/**
 * User records: SSH keys and their text form, the in-place edits of a user's
 * key list, membership and authentication-type queries, decoding a record
 * from the server's JSON, and the user calls with their own validation and
 * error handling.
 */
module Users {

  import opened Wrappers
  import opened Text
  import opened DateTime
  import opened Json
  import opened Errors
  import opened Ipa

  /**
   * An authorized SSH key: its comment, its options, the public key as
   * MarshalAuthorizedKey writes it (without the final newline) and its
   * SHA256 fingerprint.
   */
  datatype SshKey = SshKey(comment: string, options: seq<string>, publicKey: string, fingerprint: string)

  /** The SSH library's parser of an authorized_keys line; None when the line does not parse. */
  type KeyParser = string -> Option<SshKey>

  /** SSHAuthorizedKey.String(): the parts present, space-joined. */
  function KeyString(k: SshKey): (s: string)
    ensures |k.options| == 0 && k.comment == "" ==> s == k.publicKey
  {
    var out := if |k.options| > 0 then [Join(k.options, ",")] else [];
    var out := out + [k.publicKey];
    var out := if k.comment != "" then out + [k.comment] else out;
    Join(out, " ")
  }

  /** The authorized_keys layout: "[options ]key[ comment]", options comma-joined. */
  lemma KeyStringLayout(k: SshKey)
    ensures KeyString(k) == (if |k.options| > 0 then Join(k.options, ",") + " " else "")
                            + k.publicKey + (if k.comment != "" then " " + k.comment else "")
  {
    var o := Join(k.options, ",");
    if |k.options| > 0 && k.comment != "" {
      assert [o] + [k.publicKey] + [k.comment] == [o, k.publicKey, k.comment];
      assert Join([k.publicKey, k.comment], " ") == k.publicKey + " " + Join([k.comment], " ");
      assert Join([o, k.publicKey, k.comment], " ") == o + " " + Join([k.publicKey, k.comment], " ");
    } else if |k.options| > 0 {
      assert [o] + [k.publicKey] == [o, k.publicKey];
      assert [o, k.publicKey][1..] == [k.publicKey];
      assert KeyString(k) == Join([o, k.publicKey], " ") == o + " " + k.publicKey;
      assert o + " " + k.publicKey + "" == o + " " + k.publicKey;
    } else if k.comment != "" {
      assert [] + [k.publicKey] + [k.comment] == [k.publicKey, k.comment];
      assert Join([k.publicKey, k.comment], " ") == k.publicKey + " " + Join([k.comment], " ");
    } else {
      assert [] + [k.publicKey] == [k.publicKey];
    }
  }

  // ---------------------------------------------------------------------------
  // The key list.
  // ---------------------------------------------------------------------------

  /** The first key with the fingerprint. */
  function FirstMatch(keys: seq<SshKey>, fp: string): (r: Option<nat>)
    ensures r.Some? ==> r.value < |keys| && keys[r.value].fingerprint == fp
                        && forall j :: 0 <= j < r.value ==> keys[j].fingerprint != fp
    ensures r.None? ==> forall j :: 0 <= j < |keys| ==> keys[j].fingerprint != fp
  {
    if |keys| == 0 then None
    else if keys[0].fingerprint == fp then Some(0)
    else match FirstMatch(keys[1..], fp)
      case None => None
      case Some(k) => Some(k + 1)
  }

  /** The last key with the fingerprint. */
  function LastMatch(keys: seq<SshKey>, fp: string): (r: Option<nat>)
    ensures r.Some? ==> r.value < |keys| && keys[r.value].fingerprint == fp
                        && forall j :: r.value < j < |keys| ==> keys[j].fingerprint != fp
    ensures r.None? ==> forall j :: 0 <= j < |keys| ==> keys[j].fingerprint != fp
  {
    if |keys| == 0 then None
    else if keys[|keys| - 1].fingerprint == fp then Some(|keys| - 1)
    else LastMatch(keys[..|keys| - 1], fp)
  }

  /** The key list after RemoveSSHAuthorizedKey: the first match dropped, the rest in order. */
  function WithoutKey(keys: seq<SshKey>, fp: string): (r: seq<SshKey>)
    ensures multiset(r) <= multiset(keys)
    ensures |r| == |keys| || |r| == |keys| - 1
  {
    match FirstMatch(keys, fp)
    case None => keys
    case Some(i) =>
      assert keys == keys[..i] + [keys[i]] + keys[i + 1..];
      keys[..i] + keys[i + 1..]
  }

  /** The key list after AddSSHAuthorizedKey: the last match overwritten, or the key appended. */
  function WithKey(keys: seq<SshKey>, key: SshKey): (r: seq<SshKey>)
    ensures forall i :: 0 <= i < |r| ==> r[i] == key || (i < |keys| && r[i] == keys[i])
    ensures |keys| <= |r| <= |keys| + 1
  {
    match LastMatch(keys, key.fingerprint)
    case None => keys + [key]
    case Some(i) => keys[i := key]
  }

  /** Removing drops exactly one key, a matching one, when any key matches. */
  lemma WithoutKeyDropsOne(keys: seq<SshKey>, fp: string)
    ensures (exists j :: 0 <= j < |keys| && keys[j].fingerprint == fp) ==>
              |WithoutKey(keys, fp)| == |keys| - 1 &&
              multiset(WithoutKey(keys, fp)) + multiset{keys[FirstMatch(keys, fp).value]} == multiset(keys)
    ensures (forall j :: 0 <= j < |keys| ==> keys[j].fingerprint != fp) ==> WithoutKey(keys, fp) == keys
  {
    var r := FirstMatch(keys, fp);
    if r.Some? {
      var i := r.value;
      assert WithoutKey(keys, fp) == keys[..i] + keys[i + 1..];
      assert keys == keys[..i] + ([keys[i]] + keys[i + 1..]);
      assert multiset(keys) == multiset(keys[..i]) + (multiset{keys[i]} + multiset(keys[i + 1..]));
    }
  }

  /** The keys before the first match keep their slots, and those after it move up by one, in order. */
  lemma WithoutKeyKeepsOrder(keys: seq<SshKey>, fp: string)
    ensures FirstMatch(keys, fp).Some? ==> var i, r := FirstMatch(keys, fp).value, WithoutKey(keys, fp);
      |r| == |keys| - 1 &&
      (forall j :: 0 <= j < i ==> r[j] == keys[j]) && (forall j :: i <= j < |r| ==> r[j] == keys[j + 1])
  {
    var r := FirstMatch(keys, fp);
    if r.Some? {
      var i := r.value;
      var w := keys[..i] + keys[i + 1..];
      assert WithoutKey(keys, fp) == w;
      assert forall j :: 0 <= j < i ==> w[j] == keys[j];
      assert forall j :: i <= j < |w| ==> w[j] == keys[j + 1];
    }
  }

  /** Adding leaves the key in the list and the list never shorter; it grows only when nothing matched. */
  lemma WithKeyHolds(keys: seq<SshKey>, key: SshKey)
    ensures key in WithKey(keys, key)
    ensures |WithKey(keys, key)| == if LastMatch(keys, key.fingerprint).Some? then |keys| else |keys| + 1
    ensures forall j :: 0 <= j < |keys| && keys[j].fingerprint != key.fingerprint ==> WithKey(keys, key)[j] == keys[j]
    ensures LastMatch(keys, key.fingerprint).Some? ==> var i, r := LastMatch(keys, key.fingerprint).value, WithKey(keys, key);
      |r| == |keys| && r[i] == key && forall j :: 0 <= j < |keys| && j != i ==> r[j] == keys[j]
    ensures LastMatch(keys, key.fingerprint).None? ==> var r := WithKey(keys, key);
      r[..|keys|] == keys && r[|keys|] == key
  {
    var r := LastMatch(keys, key.fingerprint);
    if r.Some? {
      assert WithKey(keys, key)[r.value] == key;
    } else {
      assert WithKey(keys, key)[|keys|] == key;
    }
  }

  /** LastMatch finds i when key i matches and no later key does. */
  lemma {:induction false} LastMatchIs(keys: seq<SshKey>, fp: string, i: nat)
    requires i < |keys| && keys[i].fingerprint == fp
    requires forall j :: i < j < |keys| ==> keys[j].fingerprint != fp
    ensures LastMatch(keys, fp) == Some(i)
    decreases |keys|
  {
    if i < |keys| - 1 {
      var init := keys[..|keys| - 1];
      assert init[i] == keys[i];
      forall j | i < j < |init| ensures init[j].fingerprint != fp {
        assert init[j] == keys[j];
      }
      LastMatchIs(init, fp, i);
    }
  }

  /** Adding the same key twice is adding it once. */
  lemma WithKeyIdempotent(keys: seq<SshKey>, key: SshKey)
    ensures WithKey(WithKey(keys, key), key) == WithKey(keys, key)
  {
    var once := WithKey(keys, key);
    var i := match LastMatch(keys, key.fingerprint) case None => |keys| case Some(i) => i;
    assert i < |once| && once[i] == key;
    forall j | i < j < |once| ensures once[j].fingerprint != key.fingerprint {
      assert once[j] == keys[j];
    }
    LastMatchIs(once, key.fingerprint, i);
    assert once[i := key] == once;
  }

  /** Removing a key just added under a fresh fingerprint restores the list. */
  lemma RemoveUndoesAdd(keys: seq<SshKey>, key: SshKey)
    requires forall j :: 0 <= j < |keys| ==> keys[j].fingerprint != key.fingerprint
    ensures WithoutKey(WithKey(keys, key), key.fingerprint) == keys
  {
    var once := WithKey(keys, key);
    assert once == keys + [key];
    assert once[|keys|] == key;
    assert FirstMatch(once, key.fingerprint) == Some(|keys|);
    assert once[..|keys|] == keys;
  }

  /** FormatSSHAuthorizedKeys as a value: the text of every key, in order. */
  function FormattedKeys(keys: seq<SshKey>): seq<string> {
    seq(|keys|, i requires 0 <= i < |keys| => KeyString(keys[i]))
  }

  /** A []string as the JSON array it marshals to. */
  function Strings(xs: seq<string>): seq<Json> {
    seq(|xs|, i requires 0 <= i < |xs| => JString(xs[i]))
  }

  /** The keys that parse, in order; lines that do not parse are dropped. */
  function ParsedKeys(parse: KeyParser, lines: seq<string>): (keys: seq<SshKey>)
    ensures (forall i :: 0 <= i < |lines| ==> parse(lines[i]).Some?) ==>
              |keys| == |lines| && forall i :: 0 <= i < |lines| ==> keys[i] == parse(lines[i]).value
  {
    if |lines| == 0 then []
    else
      var init := ParsedKeys(parse, lines[..|lines| - 1]);
      match parse(lines[|lines| - 1])
      case Some(k) => init + [k]
      case None => init
  }

  /** A line that parses contributes its key, and only keys of lines that parse appear. */
  lemma {:induction false} ParsedKeysMeaning(parse: KeyParser, lines: seq<string>)
    ensures |ParsedKeys(parse, lines)| <= |lines|
    ensures forall k :: k in ParsedKeys(parse, lines) ==> exists i :: 0 <= i < |lines| && parse(lines[i]) == Some(k)
    ensures forall i :: 0 <= i < |lines| && parse(lines[i]).Some? ==> parse(lines[i]).value in ParsedKeys(parse, lines)
  {
    if |lines| > 0 {
      var init := lines[..|lines| - 1];
      ParsedKeysMeaning(parse, init);
      forall i | 0 <= i < |init| ensures init[i] == lines[i] { }
    }
  }

  /** The option keys ToOptions sends. */
  const UserOptionKeys: set<string> :=
    {"mail", "givenname", "sn", "homedirectory", "loginshell", "displayname",
     "ipasshpubkey", "telephonenumber", "mobile", "userclass"}

  // ---------------------------------------------------------------------------
  // The user record.
  // ---------------------------------------------------------------------------

  /** The fields of a User, in the struct's order. */
  datatype UserRecord = UserRecord(
    uuid: string, dn: string, first: string, last: string, displayName: string, principal: string,
    username: string, uid: string, gid: string, groups: seq<string>, sshAuthKeys: seq<SshKey>,
    authTypes: seq<string>, hasKeytab: bool, hasPassword: bool, locked: bool, preserved: bool,
    homeDir: string, email: string, telephoneNumber: string, mobile: string, shell: string,
    category: string, sudoRules: seq<string>, hbacRules: seq<string>, lastPasswdChange: Time,
    passwdExpire: Time, principalExpire: Time, lastLoginSuccess: Time, lastLoginFail: Time,
    randomPassword: string)

  /** new(User): every field at its zero value. */
  const BlankUser := UserRecord("", "", "", "", "", "", "", "", "", [], [], [], false, false, false, false,
                                "", "", "", "", "", "", [], [], ZeroTime, ZeroTime, ZeroTime, ZeroTime,
                                ZeroTime, "")

  /**
   * fromJSON applied to a record: every single-valued field read afresh from
   * the server's JSON, every list field extended, in array order, by what the
   * server lists; keys that do not parse are left out.
   */
  function DecodedUser(u: UserRecord, j: Json, parse: KeyParser): UserRecord {
    u.(uuid := Scalar(j, "ipauniqueid"), dn := Field(j, "dn"), first := Scalar(j, "givenname"),
       last := Scalar(j, "sn"), displayName := Scalar(j, "displayname"),
       principal := Scalar(j, "krbprincipalname"), username := Scalar(j, "uid"),
       uid := Scalar(j, "uidnumber"), gid := Scalar(j, "gidnumber"), hasKeytab := Flag(j, "has_keytab"),
       hasPassword := Flag(j, "has_password"), locked := Flag(j, "nsaccountlock"),
       preserved := Flag(j, "preserved"), homeDir := Scalar(j, "homedirectory"), email := Scalar(j, "mail"),
       mobile := Scalar(j, "mobile"), telephoneNumber := Scalar(j, "telephonenumber"),
       shell := Scalar(j, "loginshell"), category := Scalar(j, "userclass"),
       randomPassword := Field(j, "randompassword"),
       lastPasswdChange := DateField(j, "krblastpwdchange"),
       passwdExpire := DateField(j, "krbpasswordexpiration"),
       principalExpire := DateField(j, "krbprincipalexpiration"),
       lastLoginSuccess := DateField(j, "krblastsuccessfulauth"),
       lastLoginFail := DateField(j, "krblastfailedauth"),
       groups := u.groups + ListField(j, "memberof_group"),
       sshAuthKeys := u.sshAuthKeys + ParsedKeys(parse, ListField(j, "ipasshpubkey")),
       authTypes := u.authTypes + ListField(j, "ipauserauthtype"),
       hbacRules := u.hbacRules + ListField(j, "memberof_hbacrule") + ListField(j, "memberofindirect_hbacrule"),
       sudoRules := u.sudoRules + ListField(j, "memberofindirect_sudorule"))
  }

  /** The lists the record held are kept as prefixes of the lists it ends with. */
  lemma DecodedUserKeepsLists(u: UserRecord, j: Json, parse: KeyParser)
    ensures var r := DecodedUser(u, j, parse);
      u.groups <= r.groups && u.sshAuthKeys <= r.sshAuthKeys && u.authTypes <= r.authTypes &&
      u.hbacRules <= r.hbacRules && u.sudoRules <= r.sudoRules
  {
    PrefixOfAppend(u.groups, ListField(j, "memberof_group"));
    PrefixOfAppend(u.sshAuthKeys, ParsedKeys(parse, ListField(j, "ipasshpubkey")));
    PrefixOfAppend(u.authTypes, ListField(j, "ipauserauthtype"));
    PrefixOfAppend(u.hbacRules + ListField(j, "memberof_hbacrule"), ListField(j, "memberofindirect_hbacrule"));
    PrefixOfAppend(u.hbacRules, ListField(j, "memberof_hbacrule"));
    PrefixOfAppend(u.sudoRules, ListField(j, "memberofindirect_sudorule"));
  }

  /** A list is a prefix of itself extended. */
  lemma PrefixOfAppend<T>(a: seq<T>, b: seq<T>)
    ensures a <= a + b
  {
  }

  /** Every date the record ends with is a valid time. */
  lemma DecodedUserDates(u: UserRecord, j: Json, parse: KeyParser)
    ensures var r := DecodedUser(u, j, parse);
      ValidTime(r.lastPasswdChange) && ValidTime(r.passwdExpire) && ValidTime(r.principalExpire) &&
      ValidTime(r.lastLoginSuccess) && ValidTime(r.lastLoginFail)
  {
    DateFieldReads(j, "krblastpwdchange");
    DateFieldReads(j, "krbpasswordexpiration");
    DateFieldReads(j, "krbprincipalexpiration");
    DateFieldReads(j, "krblastsuccessfulauth");
    DateFieldReads(j, "krblastfailedauth");
  }

  /**
   * A second fromJSON of the same reply reads the same single values and
   * appends the lists once more: the lists are not reset.
   */
  lemma DecodedTwice(u: UserRecord, j: Json, parse: KeyParser)
    ensures var once := DecodedUser(u, j, parse);
      var twice := DecodedUser(once, j, parse);
      twice == once.(groups := once.groups + ListField(j, "memberof_group"),
                     sshAuthKeys := once.sshAuthKeys + ParsedKeys(parse, ListField(j, "ipasshpubkey")),
                     authTypes := once.authTypes + ListField(j, "ipauserauthtype"),
                     hbacRules := once.hbacRules + ListField(j, "memberof_hbacrule") + ListField(j, "memberofindirect_hbacrule"),
                     sudoRules := once.sudoRules + ListField(j, "memberofindirect_sudorule"))
  {
  }

  class User {
    var record: UserRecord

    constructor ()
      ensures record == BlankUser
    {
      record := BlankUser;
    }

    /** OTP is the only authentication type. */
    predicate OTPOnly()
      reads this
      ensures OTPOnly() <==> record.authTypes == ["otp"]
    {
      |record.authTypes| == 1 && record.authTypes[0] == "otp"
    }

    method HasGroup(group: string) returns (found: bool)
      ensures found <==> group in record.groups
    {
      found := Contains(record.groups, group);
    }

    /** Drop the first key with the fingerprint; the list is unchanged when none has it. */
    method RemoveSSHAuthorizedKey(fingerprint: string)
      modifies this
      ensures record == old(record).(sshAuthKeys := WithoutKey(old(record).sshAuthKeys, fingerprint))
    {
      var keys := record.sshAuthKeys;
      var index := -1;
      var i := 0;
      while i < |keys|
        invariant 0 <= i <= |keys|
        invariant index == -1
        invariant forall j :: 0 <= j < i ==> keys[j].fingerprint != fingerprint
      {
        if keys[i].fingerprint == fingerprint {
          index := i;
          break;
        }
        i := i + 1;
      }
      if index != -1 {
        record := record.(sshAuthKeys := keys[..index] + keys[index + 1..]);
      }
    }

    /** Overwrite the last key with the same fingerprint, or append the key. */
    method AddSSHAuthorizedKey(key: SshKey)
      modifies this
      ensures record == old(record).(sshAuthKeys := WithKey(old(record).sshAuthKeys, key))
    {
      var keys := record.sshAuthKeys;
      var index := -1;
      var i := 0;
      while i < |keys|
        invariant 0 <= i <= |keys|
        invariant -1 <= index < i
        invariant index >= 0 ==> keys[index].fingerprint == key.fingerprint
        invariant forall j :: index < j < i ==> keys[j].fingerprint != key.fingerprint
      {
        if key.fingerprint == keys[i].fingerprint {
          index := i;
        }
        i := i + 1;
      }
      if index == -1 {
        record := record.(sshAuthKeys := keys + [key]);
      } else {
        record := record.(sshAuthKeys := keys[index := key]);
      }
    }

    /** The text of every key, one per key, in order. */
    method FormatSSHAuthorizedKeys() returns (keys: seq<string>)
      ensures |keys| == |record.sshAuthKeys|
      ensures forall i :: 0 <= i < |keys| ==> keys[i] == KeyString(record.sshAuthKeys[i])
    {
      var all := record.sshAuthKeys;
      keys := [];
      var i := 0;
      while i < |all|
        invariant 0 <= i <= |all|
        invariant |keys| == i
        invariant forall j :: 0 <= j < i ==> keys[j] == KeyString(all[j])
      {
        keys := keys + [KeyString(all[i])];
        i := i + 1;
      }
    }

    /** The options UserAdd and UserMod send: ten attributes, the keys as their text. */
    function ToOptions(): map<string, Json>
      reads this
    {
      var u := record;
      map["mail" := JString(u.email), "givenname" := JString(u.first), "sn" := JString(u.last),
          "homedirectory" := JString(u.homeDir), "loginshell" := JString(u.shell),
          "displayname" := JString(u.displayName), "ipasshpubkey" := JArray(Strings(FormattedKeys(u.sshAuthKeys))),
          "telephonenumber" := JString(u.telephoneNumber), "mobile" := JString(u.mobile),
          "userclass" := JString(u.category)]
    }

    /** The ten attribute keys are sent, the keys as their text and every other field as its own string. */
    lemma OptionsSent()
      ensures var m := ToOptions();
        m.Keys == UserOptionKeys &&
        m["ipasshpubkey"] == JArray(Strings(FormattedKeys(record.sshAuthKeys))) &&
        (forall k :: k in m && k != "ipasshpubkey" ==> m[k].JString?)
      ensures var m := ToOptions();
        m["mail"] == JString(record.email) && m["sn"] == JString(record.last) &&
        m["givenname"] == JString(record.first) &&
        m["homedirectory"] == JString(record.homeDir) && m["loginshell"] == JString(record.shell) &&
        m["displayname"] == JString(record.displayName) &&
        m["telephonenumber"] == JString(record.telephoneNumber) && m["mobile"] == JString(record.mobile) &&
        m["userclass"] == JString(record.category)
    {
    }

    /**
     * fromJSON: refuse text that is not JSON; otherwise set every scalar field
     * and append each list field's values, in array order, to what it held.
     */
    method FromJson(raw: Raw, parse: KeyParser) returns (err: Option<Error>)
      modifies this
      ensures raw.Unparsable? ==> err == Some(InvalidUserJson) && record == old(record)
      ensures raw.Parsed? ==> err.None? && record == DecodedUser(old(record), raw.tree, parse)
    {
      if raw.Unparsable? {
        return Some(InvalidUserJson);
      }
      var res := raw.tree;
      record := record.(uuid := Scalar(res, "ipauniqueid"));
      record := record.(dn := Field(res, "dn"));
      record := record.(first := Scalar(res, "givenname"));
      record := record.(last := Scalar(res, "sn"));
      record := record.(displayName := Scalar(res, "displayname"));
      record := record.(principal := Scalar(res, "krbprincipalname"));
      record := record.(username := Scalar(res, "uid"));
      record := record.(uid := Scalar(res, "uidnumber"));
      record := record.(gid := Scalar(res, "gidnumber"));
      record := record.(hasKeytab := Flag(res, "has_keytab"));
      record := record.(hasPassword := Flag(res, "has_password"));
      record := record.(locked := Flag(res, "nsaccountlock"));
      record := record.(preserved := Flag(res, "preserved"));
      record := record.(homeDir := Scalar(res, "homedirectory"));
      record := record.(email := Scalar(res, "mail"));
      record := record.(mobile := Scalar(res, "mobile"));
      record := record.(telephoneNumber := Scalar(res, "telephonenumber"));
      record := record.(shell := Scalar(res, "loginshell"));
      record := record.(category := Scalar(res, "userclass"));
      record := record.(randomPassword := Field(res, "randompassword"));
      record := record.(lastPasswdChange := DateField(res, "krblastpwdchange"));
      record := record.(passwdExpire := DateField(res, "krbpasswordexpiration"));
      record := record.(principalExpire := DateField(res, "krbprincipalexpiration"));
      record := record.(lastLoginSuccess := DateField(res, "krblastsuccessfulauth"));
      record := record.(lastLoginFail := DateField(res, "krblastfailedauth"));
      var groups := AppendTexts(record.groups, Values(Get(res, ["memberof_group"])));
      record := record.(groups := groups);
      var keys := AppendKeys(record.sshAuthKeys, Values(Get(res, ["ipasshpubkey"])), parse);
      record := record.(sshAuthKeys := keys);
      var authTypes := AppendTexts(record.authTypes, Values(Get(res, ["ipauserauthtype"])));
      record := record.(authTypes := authTypes);
      var hbac := AppendTexts(record.hbacRules, Values(Get(res, ["memberof_hbacrule"])));
      hbac := AppendTexts(hbac, Values(Get(res, ["memberofindirect_hbacrule"])));
      record := record.(hbacRules := hbac);
      var sudo := AppendTexts(record.sudoRules, Values(Get(res, ["memberofindirect_sudorule"])));
      record := record.(sudoRules := sudo);
      return None;
    }
  }

  /** The attributes FreeIPA echoes in a user_add or user_mod reply: each sent text as a one-element array. */
  function Echoed(m: map<string, Json>): Json
    requires UserOptionKeys <= m.Keys
  {
    JObject([Member("mail", JArray([m["mail"]])), Member("givenname", JArray([m["givenname"]])),
             Member("sn", JArray([m["sn"]])), Member("homedirectory", JArray([m["homedirectory"]])),
             Member("loginshell", JArray([m["loginshell"]])), Member("displayname", JArray([m["displayname"]])),
             Member("telephonenumber", JArray([m["telephonenumber"]])), Member("mobile", JArray([m["mobile"]])),
             Member("userclass", JArray([m["userclass"]]))])
  }

  /** The lookup finds member i when it has the key and no earlier member does. */
  lemma {:induction false} LookupAt(ms: seq<Member>, key: string, i: nat)
    requires i < |ms| && ms[i].key == key
    requires forall j :: 0 <= j < i ==> ms[j].key != key
    ensures Lookup(ms, key) == Some(ms[i].value)
  {
    if i > 0 {
      LookupAt(ms[1..], key, i - 1);
    }
  }

  /** An echoed attribute reads back as the text sent under its key. */
  lemma EchoedScalar(m: map<string, Json>, key: string)
    requires UserOptionKeys <= m.Keys && key in UserOptionKeys && key != "ipasshpubkey" && m[key].JString?
    ensures Scalar(Echoed(m), key) == m[key].s
  {
    var ms := Echoed(m).members;
    var i := if key == "mail" then 0 else if key == "givenname" then 1 else if key == "sn" then 2
             else if key == "homedirectory" then 3 else if key == "loginshell" then 4
             else if key == "displayname" then 5 else if key == "telephonenumber" then 6
             else if key == "mobile" then 7 else 8;
    LookupAt(ms, key, i);
    assert [m[key]] == [JString(m[key].s)] + [];
    ScalarUnwraps(ms, key, m[key].s, []);
  }

  /**
   * What ToOptions sends comes back: fromJSON of a reply echoing the options
   * gives every one of the nine text attributes the user's own value.
   */
  lemma OptionsReadBack(u: User, v: UserRecord, parse: KeyParser)
    ensures var r := DecodedUser(v, Echoed(u.ToOptions()), parse);
      r.email == u.record.email && r.first == u.record.first && r.last == u.record.last &&
      r.homeDir == u.record.homeDir && r.shell == u.record.shell && r.displayName == u.record.displayName &&
      r.telephoneNumber == u.record.telephoneNumber && r.mobile == u.record.mobile &&
      r.category == u.record.category
  {
    var m := u.ToOptions();
    EchoedScalar(m, "mail");
    EchoedScalar(m, "givenname");
    EchoedScalar(m, "sn");
    EchoedScalar(m, "homedirectory");
    EchoedScalar(m, "loginshell");
    EchoedScalar(m, "displayname");
    EchoedScalar(m, "telephonenumber");
    EchoedScalar(m, "mobile");
    EchoedScalar(m, "userclass");
  }

  /** A ForEach loop appending value.String() of every value visited. */
  method AppendTexts(acc: seq<string>, values: seq<Json>) returns (out: seq<string>)
    ensures out == acc + Texts(values)
  {
    out := acc;
    var i := 0;
    while i < |values|
      invariant 0 <= i <= |values|
      invariant |out| == |acc| + i && out[..|acc|] == acc
      invariant forall k :: 0 <= k < i ==> out[|acc| + k] == AsString(Some(values[k]))
    {
      out := out + [AsString(Some(values[i]))];
      i := i + 1;
    }
  }

  /** The ForEach loop over "ipasshpubkey": append the keys that parse, skip the rest. */
  method AppendKeys(acc: seq<SshKey>, values: seq<Json>, parse: KeyParser) returns (out: seq<SshKey>)
    ensures out == acc + ParsedKeys(parse, Texts(values))
  {
    out := acc;
    var i := 0;
    while i < |values|
      invariant 0 <= i <= |values|
      invariant out == acc + ParsedKeys(parse, Texts(values[..i]))
    {
      var line := AsString(Some(values[i]));
      assert Texts(values[..i + 1]) == Texts(values[..i]) + [line];
      var k := parse(line);
      if k.Some? {
        out := out + [k.value];
      }
      i := i + 1;
    }
    assert values[..i] == values;
  }

  // ---------------------------------------------------------------------------
  // The user calls.
  // ---------------------------------------------------------------------------

  /** UserAdd's reading of an rpc error: code 4002 means the user exists. */
  function UserAddFailure(e: Error): (r: Error)
    ensures e.Server? && e.ipa.code == 4002 ==> r == UserExists
    ensures !(e.Server? && e.ipa.code == 4002) ==> r == e
  {
    if e.Server? && e.ipa.code == 4002 then UserExists else e
  }

  /** UserMod's reading of an rpc error: code 4202 ("no modifications") is not an error. */
  function UserModFailure(e: Error): (r: Option<Error>)
    ensures r.None? <==> e.Server? && e.ipa.code == 4202
    ensures r.Some? ==> r.value == e
  {
    if e.Server? && e.ipa.code == 4202 then None else Some(e)
  }

  /** The X-IPA-Pwchange-Result value "ok" in any case, as strings.ToLower sees it (K includes the Kelvin sign). */
  predicate IsOk(s: string)
    ensures s == "ok" || s == "OK" || s == "Ok" || s == "oK" ==> IsOk(s)
    ensures IsOk(s) ==> |s| == 2 && s != "policy-error" && s != "invalid-password"
  {
    |s| == 2 && (s[0] == 'o' || s[0] == 'O') && (s[1] == 'k' || s[1] == 'K' || s[1] == '\U{212A}')
  }

  /** SetPassword's reading of a delivered reply. */
  function PasswordChangeFailure(status: int, result: string): (r: Option<Error>)
    ensures r.None? <==> status == 200 && IsOk(result)
    ensures status != 200 ==> r == Some(PasswordChangeHttpStatus(status))
    ensures r == Some(PasswordPolicy) <==> status == 200 && result == "policy-error"
    ensures r == Some(InvalidPassword) <==> status == 200 && result == "invalid-password"
    ensures r == Some(UnknownPasswordStatus(result)) <==>
              status == 200 && !IsOk(result) && result != "policy-error" && result != "invalid-password"
  {
    if status != 200 then Some(PasswordChangeHttpStatus(status))
    else if result == "policy-error" then Some(PasswordPolicy)
    else if result == "invalid-password" then Some(InvalidPassword)
    else if !IsOk(result) then Some(UnknownPasswordStatus(result))
    else None
  }

  /**
   * What a user call's successful response decodes to: the record fromJSON
   * fills in a new(User), or the error that stops it.
   */
  function UserDecoding(res: Response, parse: KeyParser): (r: Result<UserRecord, Error>)
    ensures r.Ok? <==> DataOf(res).Ok? && DataOf(res).value.Parsed?
  {
    match DataOf(res)
    case Err(e) => Err(e)
    case Ok(Unparsable) => Err(InvalidUserJson)
    case Ok(Parsed(tree)) => Ok(DecodedUser(BlankUser, tree, parse))
  }

  /** The body of a user call's successful response:
   * userRec := new(User); userRec.fromJSON(res.Result.Data). */
  method DecodeUser(res: Response, parse: KeyParser) returns (rec: User?, err: Option<Error>)
    ensures err.None? <==> rec != null
    ensures err.None? <==> DataOf(res).Ok? && DataOf(res).value.Parsed?
    ensures DataOf(res).Err? ==> err == Some(DataOf(res).error)
    ensures DataOf(res) == Ok(Unparsable) ==> err == Some(InvalidUserJson)
    ensures rec != null ==> fresh(rec) && rec.record == DecodedUser(BlankUser, DataOf(res).value.tree, parse)
    ensures rec != null ==> UserDecoding(res, parse) == Ok(rec.record)
    ensures rec == null ==> UserDecoding(res, parse) == Err(err.value)
  {
    var data := DataOf(res);
    if data.Err? {
      return null, Some(data.error);
    }
    var u := new User();
    var e := u.FromJson(data.value, parse);
    if e.Some? {
      return null, e;
    }
    return u, None;
  }

  /** UserAdd: a username is required; code 4002 becomes ErrUserExists; the reply decodes to a new record. */
  method UserAdd(c: Client, user: User, random: bool, reply: Reply, parse: KeyParser)
    returns (sent: Option<RpcRequest>, rec: User?, err: Option<Error>)
    modifies c`sessionID
    ensures user.record.username == "" ==>
              sent.None? && rec == null && err == Some(UsernameRequired) && c.sessionID == old(c.sessionID)
    ensures user.record.username != "" ==>
              var options := if random then user.ToOptions()["random" := JBool(true)] else user.ToOptions();
              sent == Some(RequestFor(c.host, old(c.sessionID), c.hasKerberos,
                                      Payload(0, "user_add", [user.record.username], WithVersion(options))))
    ensures user.record.username != "" ==>
              var x := RpcOutcome(reply, c.sticky);
              c.sessionID == (if x.session.Some? then x.session.value else old(c.sessionID)) &&
              (x.result.Err? ==> rec == null && err == Some(UserAddFailure(x.result.error))) &&
              (x.result.Ok? ==> (err.None? <==> DataOf(x.result.value).Ok? && DataOf(x.result.value).value.Parsed?))
    ensures user.record.username != "" ==>
              var x := RpcOutcome(reply, c.sticky);
              x.result.Ok? ==> var d := UserDecoding(x.result.value, parse);
                (d.Ok? ==> rec != null && rec.record == d.value) &&
                (d.Err? ==> rec == null && err == Some(d.error))
    ensures err.None? <==> rec != null
    ensures rec != null ==> fresh(rec)
  {
    if user.record.username == "" {
      return None, null, Some(UsernameRequired);
    }
    var options := user.ToOptions();
    if random {
      options := options["random" := JBool(true)];
    }
    var opts := new Options(options);
    var req, r := c.Rpc("user_add", [user.record.username], opts, reply);
    sent := Some(req);
    rec, err := AddedUser(r, parse);
  }

  /** The end of UserAdd: an rpc error read through UserAddFailure, otherwise the decoded user. */
  method AddedUser(r: Result<Response, Error>, parse: KeyParser) returns (rec: User?, err: Option<Error>)
    ensures r.Err? ==> rec == null && err == Some(UserAddFailure(r.error))
    ensures r.Ok? ==> var d := UserDecoding(r.value, parse);
      (d.Ok? ==> rec != null && rec.record == d.value) &&
      (d.Err? ==> rec == null && err == Some(d.error))
    ensures err.None? <==> rec != null
    ensures rec != null ==> fresh(rec)
  {
    if r.Err? {
      return null, Some(UserAddFailure(r.error));
    }
    rec, err := DecodeUser(r.value, parse);
  }

  /** UserMod: a username is required; code 4202 returns the user given, unchanged. */
  method UserMod(c: Client, user: User, reply: Reply, parse: KeyParser)
    returns (sent: Option<RpcRequest>, rec: User?, err: Option<Error>)
    modifies c`sessionID
    ensures user.record.username == "" ==>
              sent.None? && rec == null && err == Some(UsernameRequired) && c.sessionID == old(c.sessionID)
    ensures user.record.username != "" ==>
              sent == Some(RequestFor(c.host, old(c.sessionID), c.hasKerberos,
                                      Payload(0, "user_mod", [user.record.username], WithVersion(user.ToOptions()))))
    ensures user.record.username != "" ==>
              var x := RpcOutcome(reply, c.sticky);
              c.sessionID == (if x.session.Some? then x.session.value else old(c.sessionID)) &&
              (x.result.Err? ==> err == UserModFailure(x.result.error) &&
                                 rec == (if err.None? then user else null))
    ensures user.record.username != "" ==>
              var x := RpcOutcome(reply, c.sticky);
              x.result.Ok? ==> var d := UserDecoding(x.result.value, parse);
                (d.Ok? ==> rec != null && rec != user && rec.record == d.value) &&
                (d.Err? ==> rec == null && err == Some(d.error))
    ensures err.None? <==> rec != null
    ensures rec != null && rec != user ==> fresh(rec)
  {
    if user.record.username == "" {
      return None, null, Some(UsernameRequired);
    }
    var opts := new Options(user.ToOptions());
    var req, r := c.Rpc("user_mod", [user.record.username], opts, reply);
    sent := Some(req);
    if r.Err? {
      var failure := UserModFailure(r.error);
      if failure.None? {
        return sent, user, None;
      }
      return sent, null, failure;
    }
    rec, err := DecodeUser(r.value, parse);
  }

  /** The options of ResetPassword's user_mod call. */
  const ResetOptions: map<string, Json> :=
    map["no_members" := JBool(false), "random" := JBool(true), "all" := JBool(true)]

  /** The tail of ResetPassword: decode the reply into a user and take its random password, which must not be empty. */
  method ReadPassword(res: Response, parse: KeyParser) returns (password: string, err: Option<Error>)
    ensures err.None? <==> password != ""
    ensures err.None? ==>
      DataOf(res).Ok? && DataOf(res).value.Parsed? && password == Field(DataOf(res).value.tree, "randompassword")
    ensures DataOf(res).Err? ==> err == Some(DataOf(res).error)
    ensures DataOf(res) == Ok(Unparsable) ==> err == Some(InvalidUserJson)
    ensures err == Some(EmptyRandomPassword) <==>
      DataOf(res).Ok? && DataOf(res).value.Parsed? && Field(DataOf(res).value.tree, "randompassword") == ""
  {
    var userRec, e := DecodeUser(res, parse);
    if e.Some? {
      return "", e;
    }
    if |userRec.record.randomPassword| == 0 {
      return "", Some(EmptyRandomPassword);
    }
    return userRec.record.randomPassword, None;
  }

  /** ResetPassword: the new random password, which must not be empty. */
  method ResetPassword(c: Client, username: string, reply: Reply, parse: KeyParser)
    returns (sent: RpcRequest, password: string, err: Option<Error>)
    modifies c`sessionID
    ensures sent == RequestFor(c.host, old(c.sessionID), c.hasKerberos,
                               Payload(0, "user_mod", [username], WithVersion(ResetOptions)))
    ensures var x := RpcOutcome(reply, c.sticky);
      c.sessionID == (if x.session.Some? then x.session.value else old(c.sessionID)) &&
      (x.result.Err? ==> password == "" && err == Some(x.result.error))
    ensures err.None? <==> password != ""
    ensures err.None? ==> var x := RpcOutcome(reply, c.sticky);
      x.result.Ok? && DataOf(x.result.value).Ok? && DataOf(x.result.value).value.Parsed? &&
      password == Field(DataOf(x.result.value).value.tree, "randompassword")
    ensures err == Some(EmptyRandomPassword) ==> var x := RpcOutcome(reply, c.sticky);
      x.result.Ok? && DataOf(x.result.value).Ok? && DataOf(x.result.value).value.Parsed? &&
      Field(DataOf(x.result.value).value.tree, "randompassword") == ""
    ensures var x := RpcOutcome(reply, c.sticky);
      x.result.Ok? ==> var d := DataOf(x.result.value);
        (d.Err? ==> err == Some(d.error)) &&
        (d == Ok(Unparsable) ==> err == Some(InvalidUserJson)) &&
        (err == Some(EmptyRandomPassword) <==> d.Ok? && d.value.Parsed? && Field(d.value.tree, "randompassword") == "")
  {
    var opts := new Options(ResetOptions);
    var r;
    sent, r := c.Rpc("user_mod", [username], opts, reply);
    if r.Err? {
      return sent, "", Some(r.error);
    }
    password, err := ReadPassword(r.value, parse);
  }

  /** The change-password form SetPassword posts, with the Referer it sends. */
  function PasswordForm(host: string, username: string, oldPassword: string, newPassword: string, otpcode: string)
    : (f: FormRequest)
    ensures f.form.Keys == {"user", "otp", "old_password", "new_password"}
    ensures f.form["user"] == username && f.form["otp"] == otpcode
    ensures f.form["old_password"] == oldPassword && f.form["new_password"] == newPassword
  {
    FormRequest("https://" + host + "/ipa/session/change_password", "https://" + host + "/ipa",
                map["user" := username, "otp" := otpcode, "old_password" := oldPassword, "new_password" := newPassword])
  }

  /** SetPassword: post the change-password form and read the X-IPA-Pwchange-Result header. */
  method SetPassword(c: Client, username: string, oldPassword: string, newPassword: string, otpcode: string, reply: Reply)
    returns (sent: FormRequest, err: Option<Error>)
    ensures sent == PasswordForm(c.host, username, oldPassword, newPassword, otpcode)
    ensures sent.url == "https://" + c.host + "/ipa/session/change_password"
    ensures reply.NetworkFailure? ==> err == Some(Transport(reply.reason))
    ensures reply.Delivered? ==>
              err == PasswordChangeFailure(reply.response.status, reply.response.passwordChangeResult)
  {
    sent := PasswordForm(c.host, username, oldPassword, newPassword, otpcode);
    if reply.NetworkFailure? {
      return sent, Some(Transport(reply.reason));
    }
    var res := reply.response;
    if res.status != 200 {
      return sent, Some(PasswordChangeHttpStatus(res.status));
    }
    var status := res.passwordChangeResult;
    if status == "policy-error" {
      return sent, Some(PasswordPolicy);
    } else if status == "invalid-password" {
      return sent, Some(InvalidPassword);
    } else if !IsOk(status) {
      return sent, Some(UnknownPasswordStatus(status));
    }
    return sent, None;
  }

  /**
   * UserAddWithPassword: a username and a password are required before any
   * call; the user is added with a random password, which is then changed
   * from the random one to the one given, as the added record names them.
   */
  method UserAddWithPassword(c: Client, user: User, password: string, addReply: Reply, setReply: Reply, parse: KeyParser)
    returns (sentAdd: Option<RpcRequest>, sentSet: Option<FormRequest>, rec: User?, err: Option<Error>)
    modifies c`sessionID
    ensures user.record.username == "" ==>
              sentAdd.None? && sentSet.None? && rec == null && err == Some(UsernameRequired) &&
              c.sessionID == old(c.sessionID)
    ensures user.record.username != "" && password == "" ==>
              sentAdd.None? && sentSet.None? && rec == null && err == Some(PasswordRequired) &&
              c.sessionID == old(c.sessionID)
    ensures user.record.username != "" && password != "" ==>
              sentAdd == Some(RequestFor(c.host, old(c.sessionID), c.hasKerberos,
                                         Payload(0, "user_add", [user.record.username],
                                                 WithVersion(user.ToOptions()["random" := JBool(true)]))))
    ensures user.record.username != "" && password != "" ==>
              var x := RpcOutcome(addReply, c.sticky);
              c.sessionID == (if x.session.Some? then x.session.value else old(c.sessionID)) &&
              (x.result.Err? ==> sentSet.None? && rec == null && err == Some(UserAddFailure(x.result.error)))
    ensures user.record.username != "" && password != "" ==>
              var x := RpcOutcome(addReply, c.sticky);
              x.result.Ok? ==> var d := UserDecoding(x.result.value, parse);
                (d.Err? ==> sentSet.None? && rec == null && err == Some(d.error)) &&
                (d.Ok? ==> sentSet == Some(PasswordForm(c.host, d.value.username, d.value.randomPassword, password, "")) &&
                           err == (if setReply.NetworkFailure? then Some(Transport(setReply.reason))
                                   else PasswordChangeFailure(setReply.response.status,
                                                              setReply.response.passwordChangeResult)) &&
                           (err.None? ==> rec != null && rec.record == d.value))
    ensures err.None? <==> rec != null
    ensures rec != null ==> fresh(rec)
  {
    if user.record.username == "" {
      return None, None, null, Some(UsernameRequired);
    }
    if password == "" {
      return None, None, null, Some(PasswordRequired);
    }
    var added, e;
    sentAdd, added, e := UserAdd(c, user, true, addReply, parse);
    if e.Some? {
      return sentAdd, None, null, e;
    }
    var form, e2 := SetPassword(c, added.record.username, added.record.randomPassword, password, "", setReply);
    sentSet := Some(form);
    if e2.Some? {
      return sentAdd, sentSet, null, e2;
    }
    return sentAdd, sentSet, added, None;
  }
}
