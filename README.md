# goipa client core, modelled in Dafny

This project models the decision logic of goipa, a Go client for the FreeIPA
identity server's JSON-RPC interface. It covers:

- **Session and transport** (`ipa.dfy`, module `Ipa`).
  - The `Client` class holds the session id, the sticky-session flag and whether a Kerberos client is set.
  - `SetSessionID` reads the `ipa_session=<v>;` cookie. It adopts `v` only when `v` has length 32 or starts with `MagBearerToken`.
  - `Rpc` writes `"version" = "2.237"` into the caller's options. It picks the session or the anonymous endpoint, and a cookie, SPNEGO or no authentication. It then classifies the reply in a fixed order: HTTP status, cookie, body, error envelope.
  - `RemoteLogin` maps a 401 and its rejection reason to distinct sentinels.
  - The HTTP exchange is an input value: `Reply` and `HttpResponse` hold the status, the first `Set-Cookie` header, the rejection-reason and password-change headers, and the body. Methods return the request they would send.
- **Errors** (`errors.dfy`): the sentinels, `IpaError` and the text `Error()` gives each error. `ErrUnauthorized` and `ErrUserExists` are distinct values with the same text, "unauthorized".
- **Datetimes** (`datetime.dfy`): `ParseDateTime` follows Go's `time.Parse` through the layout `20060102150405Z` and gives the zero time on any failure. `FormatDateTime` is `Time.Format` with that layout. Both round trips are proved.
- **JSON** (`json.dfy`): the server's JSON as an abstract tree. It includes the gjson accessors the decoders use: path lookup (`field.0`), `String()`, `Bool()`, `Int()`, `ForEach` and `Array()`.
- **Users** (`users.dfy`):
  - SSH keys are opaque records (comment, options, key text, fingerprint), with their text form;
  - the in-place edits of the key list;
  - `OTPOnly` and `HasGroup`;
  - `fromJSON`;
  - `UserAdd`, `UserMod`, `ResetPassword`, `SetPassword` and `UserAddWithPassword`, with their validation and error codes (4002, 4202).
- **OTP tokens** (`otp.dfy`): `DisplayName`, the defaults `AddOTPToken` fills in and the options it sends, `fromJSON` with its `Enabled` rule, and `FetchOTPTokens`.
- **Groups** (`groups.dfy`):
  - `getCn`;
  - decoding a `GroupRecord` the way encoding/json does;
  - the group calls, and `CheckUserMemberOfGroup`.

The SSH library's key parser is a parameter (`KeyParser`). A user's or a token's record is a datatype held in a class (`User`, `OTPToken`), because the source edits those records in place.

## Model

| member | source | states |
|---|---|---|
| `DateTime.ParseDateTimeMeaning` | ipa.go:441-448 | ParseDateTime never fails. It gives the instant a well-formed string spells out (14 digits, an optional fraction, `Z`, every field in range, days per month with leap years), and Go's zero time for every other string. |
| `DateTime.ParseLayoutValid` | ipa.go:442 | Whatever time.Parse accepts for the layout is a valid calendar time. |
| `DateTime.ParseDateTimeValid` | ipa.go:441-448 | The result is always a valid time, and text too short for the year is the zero time. ParseDateTimeMeaning says exactly which time. |
| `DateTime.FormatDateTime` | otp.go:172-181 | The text is at least 15 characters and ends in `Z`. FormatThenParse and ParseThenFormat relate it to ParseDateTime. |
| `DateTime.ParseShaped` | ipa.go:442 | On a string of the right shape, time.Parse reads exactly the six digit groups and accepts exactly when they are in range. |
| `DateTime.ParseNeedsShape` | ipa.go:442 | Any string time.Parse accepts has the shape: 14 digits, an optional `.`/`,` fraction and a final `Z`. A one-digit hour never parses. |
| `DateTime.FormatThenParse` | otp.go:172-181 | Formatting a whole-second UTC time with a four-digit year using IpaDatetimeFormat, then parsing it, gives the time back. |
| `DateTime.ParseThenFormat` | ipa.go:441-448 | A well-formed 15-character string is what formatting its parse writes. |
| `Errors.SentinelsShareText` | ipa.go:52-58 | ErrUnauthorized and ErrUserExists are different values with the same text. |
| `Errors.IpaErrorText` | ipa.go:179-181 | The text starts with `ipa: error ` and is at least 15 characters longer than the server's message. IpaErrorTextInjective shows the code and message can be read back. |
| `Errors.Message` | ipa.go:45-58 | Only the wrapped transport and JSON errors can have empty text. A server error's text starts with `ipa: error `. |
| `Errors.IpaErrorTextInjective` | ipa.go:179-181 | Two IpaErrors with the same `Error()` text have the same code and message. |
| `Text.DecimalRoundTrip` | ipa.go:180 | The `%d` text of a code parses back to the code. |
| `Text.ParseIntSign` | otp.go:73-76 | A digit string parses to a non-negative number, and a negative result needs a leading `-` and at least one more character. |
| `Text.Contains` | group.go:132-136 | True exactly when the target is in the list. |
| `Json.LookupMeaning` | user.go:118-121 | A member lookup finds a value exactly when some member has the key, and then it is the first such member's value. |
| `Json.AsStringCases` | user.go:120-138 | `String()`: "" for a missing value or null, and a string's own text. An array or object gives its JSON text, written compactly (see Left out). |
| `Json.AsBoolCases` | user.go:129-132 | `Bool()`: false for a missing value, null, an array or an object. A JSON bool is itself, and the texts "TRUE", "true" and "1" are true. |
| `Json.AsIntCases` | otp.go:73-76 | `Int()`: 0 for a missing value, null, an array or an object, and a number is itself. |
| `Json.Elements` | otp.go:118 | `Array()`: nothing for non-JSON or null, an array's items, and any other value alone. |
| `Json.FieldReads` | user.go:121 | `Get(name).String()`: "" for a missing field, and the text of a string member. |
| `Json.ScalarReads` | user.go:120 | `Get(name + ".0").String()`: "" when there is no element 0, and the text of element 0 of an array member when it is a string. |
| `Json.DateFieldReads` | user.go:140-144 | A datetime field always decodes to a valid time, and to the zero time when it is missing. |
| `Json.ListFieldReads` | user.go:145-148 | A missing field gives nothing, and an array gives one text per item, in order. |
| `Json.ScalarUnwraps` | user.go:120-138 | An array-wrapped scalar field decodes to its element 0, whatever follows it. |
| `Json.ScalarDefaults` | user.go:120-138 | An absent field or an empty array decodes to "". |
| `Json.ScalarRewrap` | user.go:120 | For any record and any value under the field, decoding, re-wrapping the text as a one-element array and decoding again gives the same text. |
| `Json.TextIsTRUE` | otp.go:78 | A value's text is "TRUE" exactly when it is the JSON string "TRUE". |
| `Json.IntOfDecimalText` | otp.go:73-76 | `Int()` of a decimal string reads back the number. |
| `Json.Values` | user.go:145-171 | ForEach visits an array's items in order, and nothing for a missing field. |
| `Ipa.ExtractSession` | ipa.go:43 | A captured session value matches `^ipa_session=([^;]+);`: it is non-empty, has no `;`, and is followed by `;`. |
| `Ipa.ExtractSessionMeaning` | ipa.go:309-313 | The capture is `v` exactly when the cookie matches the pattern with `v`. |
| `Ipa.CookieEffectOf` | ipa.go:299-322 | The header changes nothing exactly when sticky sessions are off or the header is empty. An adopted value matches the pattern and is acceptable. |
| `Ipa.CookieAdoptMeaning` | ipa.go:309-316 | A value is adopted exactly when sessions are sticky, the cookie matches with it, and it has length 32 or the MagBearerToken prefix. |
| `Ipa.CookieRejectMeaning` | ipa.go:315-319 | A non-empty header read under sticky sessions is refused exactly when no value it matches with is acceptable. |
| `Ipa.WithVersion` | ipa.go:185-188 | The options gain `"version" = "2.237"`, overwriting any caller value. Every other key keeps its value and no other key appears. |
| `Ipa.RpcUrl` | ipa.go:206-209 | The endpoint is `/ipa/session/json` when a session id is set, and `/ipa/json` otherwise. |
| `Ipa.RpcAuth` | ipa.go:215-221 | A set session id sends the `ipa_session` cookie. Otherwise SPNEGO is used exactly when a Kerberos client is set, and no authentication when none is. |
| `Ipa.AdoptedSessionIsSent` | ipa.go:206-221 | After a session is adopted, the next request goes to the session endpoint with exactly that cookie. |
| `Ipa.RpcOutcome` | ipa.go:228-259 | Outcome order: a transport failure, then a non-200 status (session untouched), then a refused cookie, then the body, then the server's error as IpaError. The response comes only after all of these, and only a 200 reply can change the session. |
| `Ipa.LoginFailure` | ipa.go:345-359 | A 401 with reason password-expired gives ErrExpiredPassword. With invalid-password it gives ErrInvalidPassword, and any other 401 gives ErrUnauthorized. Any other non-200 status is a status error, and 200 goes on to the cookie. |
| `Ipa.LoginOutcome` | ipa.go:334-365 | RemoteLogin succeeds exactly on a 200 reply whose cookie is not refused. A session is adopted exactly when such a reply's cookie is adopted, and the adopted value is the cookie's. A transport failure returns its error with no session. A non-200 status gives LoginFailure's error, and a refused cookie on a 200 gives `invalid set-cookie header`. |
| `Ipa.DataOf` | user.go:252 | `res.Result.Data` is the undecoded result exactly when the reply has one. A missing result is the nil-dereference error (see Left out). |
| `Ipa.Client.constructor` | ipa.go:160-167 | A new client has sticky sessions, no session and no Kerberos client. |
| `Ipa.Client.WithSession` | ipa.go:149-157 | A client made with a session id starts with it, with sticky sessions. |
| `Ipa.Client.ClearSession` | ipa.go:289-291 | The session id becomes empty. |
| `Ipa.Client.StickySession` | ipa.go:294-296 | The sticky flag becomes the value given. |
| `Ipa.Client.SetSessionID` | ipa.go:299-322 | The session id becomes the adopted value. Otherwise it is unchanged, and the error "invalid set-cookie header" is returned exactly when the header is refused. |
| `Ipa.Client.Rpc` | ipa.go:184-260 | Writes the version into the caller's options (a fresh map for nil) and sends `{id: 0, method, params: [params, options]}` to the endpoint and with the auth the old session state selects. Result and new session are RpcOutcome's. |
| `Ipa.Client.ReadReply` | ipa.go:228-259 | The reply's result and the new session id are RpcOutcome's. |
| `Ipa.Client.Ping` | ipa.go:273-281 | A `ping` call with nil options. |
| `Ipa.Client.RemoteLogin` | ipa.go:326-366 | Posts user and password to `/ipa/session/login_password`. The error and the new session id are LoginOutcome's. |
| `Ipa.Client.KerberosLogin` | ipa.go:369-385 | A successful Kerberos login sets the Kerberos client. A failed one returns its error and changes nothing. |
| `Users.KeyStringLayout` | user.go:78-90 | A key's text is the comma-joined options and a space (only if there are options), the key, and a space and the comment (only if it is non-empty). |
| `Users.KeyString` | user.go:78-90 | A key without options or comment is written as the key text alone. KeyStringLayout gives the full layout. |
| `Users.FirstMatch` | user.go:198-204 | The index found is the first key with the fingerprint. None means no key has it. |
| `Users.LastMatch` | user.go:213-218 | The index found is the last key with the fingerprint. None means no key has it. |
| `Users.WithoutKey` | user.go:197-209 | Removing takes nothing new in and drops at most one key. WithoutKeyDropsOne says which one. |
| `Users.WithKey` | user.go:212-225 | Adding brings in no key other than the one added and grows the list by at most one. |
| `Users.WithoutKeyDropsOne` | user.go:197-209 | Removing drops exactly the first matching key, and the other keys stay as a multiset. With no match, the list is unchanged. |
| `Users.WithoutKeyKeepsOrder` | user.go:197-209 | Removing the first match keeps the keys before it in their slots and moves those after it up by one, in order. |
| `Users.WithKeyHolds` | user.go:212-225 | After adding, the key is in the list. With a match, the last matching slot is overwritten and every other slot is kept, including earlier matches. With no match, the key is appended after the unchanged list. |
| `Users.WithKeyIdempotent` | user.go:212-225 | Adding the same key twice is the same as adding it once. |
| `Users.RemoveUndoesAdd` | user.go:197-225 | Removing a key just added under a fresh fingerprint restores the list. |
| `Users.ParsedKeys` | user.go:149-155 | When every line parses, there is one key per line, in order. |
| `Users.ParsedKeysMeaning` | user.go:149-155 | Every line that parses contributes its key, only such keys appear, and lines that fail to parse are skipped. |
| `Users.DecodedUserKeepsLists` | user.go:113-174 | fromJSON never shortens a list field: the old lists are prefixes of the new ones. |
| `Users.DecodedUserDates` | user.go:140-144 | Every datetime field fromJSON sets is a valid time. |
| `Users.DecodedTwice` | user.go:145-171 | A second fromJSON of the same reply appends the list fields again instead of resetting them. |
| `Users.User.constructor` | user.go:251 | `new(User)` has every field at its zero value. |
| `Users.User.OTPOnly` | user.go:177-183 | True exactly when the auth types are `["otp"]`. |
| `Users.User.HasGroup` | user.go:186-194 | True exactly when the group is among the user's groups. |
| `Users.User.RemoveSSHAuthorizedKey` | user.go:197-209 | The key list becomes the list with its first matching key removed. Nothing else changes. |
| `Users.User.AddSSHAuthorizedKey` | user.go:212-225 | The key list becomes the list with the last matching slot overwritten, or the key appended. Nothing else changes. |
| `Users.User.FormatSSHAuthorizedKeys` | user.go:228-235 | One text per key, in order. Element i is key i's text. |
| `Users.User.OptionsSent` | user.go:96-111 | Exactly the ten attribute keys are sent. `ipasshpubkey` holds the keys' texts. Each of the other nine keys holds its own field as a string: mail, givenname, sn, homedirectory, loginshell, displayname, telephonenumber, mobile and userclass. |
| `Users.OptionsReadBack` | user.go:96-111 | A reply that echoes the options ToOptions sends, each as a one-element array, decodes back to the user's nine text attributes. |
| `Users.User.FromJson` | user.go:113-174 | Text that is not JSON is refused and the record is left alone. Otherwise every scalar field is read afresh and every list field is extended in array order. |
| `Users.AppendTexts` | user.go:145-148 | The ForEach loop appends the text of each value, in order. |
| `Users.AppendKeys` | user.go:149-155 | The ForEach loop appends the keys that parse, in order. |
| `Users.UserAddFailure` | user.go:470-476 | IpaError code 4002 becomes ErrUserExists, and every other error is returned as it is. |
| `Users.UserModFailure` | user.go:516-523 | IpaError code 4202 is not an error, and every other error is returned as it is. |
| `Users.IsOk` | user.go:383 | `ok` in any letter case is accepted, and an accepted status is two characters long and is not one of the two named failures. |
| `Users.PasswordChangeFailure` | user.go:374-387 | A non-200 status is an error. `policy-error` gives ErrPasswordPolicy and `invalid-password` gives ErrInvalidPassword. `ok` in any case is success, and anything else is an unknown-status error. |
| `Users.UserDecoding` | user.go:479-485 | A user call's response decodes to a record exactly when it has a result and the data is JSON. |
| `Users.DecodeUser` | user.go:479-485 | A decoded reply is a fresh user whose record is fromJSON of the data. A missing result or unparsable data is an error. |
| `Users.UserAdd` | user.go:458-486 | An empty username is refused before any call. Otherwise `user_add` is sent with the user's options (and `random` when asked). 4002 becomes ErrUserExists. A success returns a fresh user whose record is UserDecoding of the reply, or UserDecoding's error. |
| `Users.AddedUser` | user.go:470-486 | An rpc error comes back through UserAddFailure with no user. Otherwise the result is UserDecoding of the reply: a fresh user with the decoded record, or its error. |
| `Users.UserMod` | user.go:508-533 | An empty username is refused before any call. Otherwise `user_mod` is sent with the user's options. 4202 returns the user given, and other errors are returned. A success returns a new user (not the one given) whose record is UserDecoding of the reply, or UserDecoding's error. |
| `Users.ReadPassword` | user.go:304-314 | The password is the record's non-empty random password. An empty one is the empty-random-password error. |
| `Users.ResetPassword` | user.go:291-315 | `user_mod` with `random` is sent. An rpc error is returned as it is, and success means a non-empty random password. After a successful rpc, a missing result and non-JSON data give their errors, and an empty random password gives exactly EmptyRandomPassword. |
| `Users.PasswordForm` | user.go:350-361 | The form has exactly the fields user, otp, old_password and new_password, each holding its argument. |
| `Users.SetPassword` | user.go:349-388 | Posts PasswordForm to `/ipa/session/change_password`. A transport failure is returned, and otherwise the result is PasswordChangeFailure of the status and the X-IPA-Pwchange-Result header. |
| `Users.UserAddWithPassword` | user.go:435-454 | An empty username, then an empty password, is refused before any call, and nothing is sent. Otherwise `user_add` is sent with the user's options and `random`, and its failures are returned as UserAdd returns them. After a decoded add, the password form carries the added record's username, its random password as the old password, the given password and an empty OTP code. The result is that change's outcome, with the added record on success. The session is the add's. |
| `Otp.WithDefaults` | otp.go:133-147 | Empty type, empty algorithm, zero digits and zero step become totp, sha1, 6 and 30. Fields already set and all other fields are kept. |
| `Otp.WithDefaultsIdempotent` | otp.go:136-147 | Filling the defaults twice is filling them once. The default token needs none. |
| `Otp.TokenOptionsFixed` | otp.go:149-158 | The eight fixed options are always sent, with the token's type, algorithm, digits and step. No key outside the known fourteen is sent. |
| `Otp.TokenOptionsTexts` | otp.go:160-171 | Description, vendor, model and serial are sent exactly when non-empty, as their text. |
| `Otp.TokenOptionsNotBefore` | otp.go:172-176 | NotBefore is sent exactly when it is not the zero time, as `{"__datetime__": formatted}`. |
| `Otp.TokenOptionsNotAfter` | otp.go:177-181 | NotAfter is sent exactly when it is not the zero time, as `{"__datetime__": formatted}`. |
| `Otp.TokenOptions` | otp.go:149-181 | No key outside the fourteen known ones is sent. The TokenOptions lemmas say which keys are sent and with what values. |
| `Otp.DecodedTokenDefaults` | otp.go:63-89 | A record without `ipatokendisabled` gives an enabled token, one without `type` an empty type, and one without `ipatokennotbefore` a zero NotBefore. |
| `Otp.EnabledRule` | otp.go:78 | A token is disabled exactly when `ipatokendisabled.0` is the JSON string "TRUE". |
| `Otp.DatetimeRoundTrip` | otp.go:85 | A datetime option echoed back as a one-element array decodes to the time sent. |
| `Otp.TokenTimesRoundTrip` | otp.go:172-181 | The NotBefore/NotAfter options, echoed back by the server, decode to the token's times. |
| `Otp.OTPToken.constructor` | otp.go:189 | `new(OTPToken)` has every field at its zero value. |
| `Otp.OTPToken.Default` | otp.go:49-54 | A copy of DefaultTOTPToken. |
| `Otp.OTPToken.DisplayName` | otp.go:56-61 | For a 36-character UUID: the owner, `-`, and the UUID's last six characters. Any other UUID as it is. |
| `Otp.OTPToken.FillDefaults` | otp.go:133-147 | The record becomes WithDefaults of itself. |
| `Otp.OTPToken.FromJson` | otp.go:63-89 | Text that is not JSON is refused and the record is left alone. Otherwise every field is read afresh from the record. |
| `Otp.DecodeToken` | otp.go:189-195 | A decoded reply is a fresh token whose record is fromJSON of the data. |
| `Otp.AddOTPToken` | otp.go:132-196 | Fills the defaults into the token given (the default token for nil), sends its options and decodes the new token. |
| `Otp.NewToken` | otp.go:119-120 | A fresh token whose record is the one decoded from element i. |
| `Otp.BuildTokens` | otp.go:115-126 | The loop: one fresh, distinct token per element, in order, each holding the record decoded from its element. |
| `Otp.DecodeTokens` | otp.go:115-126 | One fresh, distinct token per element, in the server's order. |
| `Otp.FetchOTPTokens` | otp.go:103-129 | `otptoken_find` by owner. An rpc or result error returns no tokens, and otherwise one token per array element, in order. |
| `Groups.GetCn` | group.go:25-31 | `Cn[0]` when Cn is non-empty. Otherwise "" with ErrorGroupRecordNotInitialized. |
| `Groups.DecodeStrings` | group.go:14-21 | A JSON array decoded into the field's []string takes the array's length and its strings in place. A null or mistyped element keeps what that slot held, or "" past the old length. It is error-free exactly when every element is a string or null. |
| `Groups.DecodeList` | group.go:14-21 | null empties the field. An array is decoded into the slice the field holds. Any other value leaves the field alone, with an error. |
| `Groups.RepeatedKeyNull` | group.go:14-21 | When `cn` is repeated, a null element of the second array keeps the first array's string, without error. |
| `Groups.RepeatedKeyMistyped` | group.go:14-21 | When `cn` is repeated, a number in the second array keeps the first array's string and gives a type error. |
| `Groups.SetField` | group.go:14-21 | A member changes only the field of its own name. A member with no field is ignored without error. |
| `Groups.DecodeMembers` | group.go:14-21 | An error is reported only for a non-empty object, and an error from the first member is the one kept. |
| `Groups.DecodeGroup` | group.go:43-46 | Non-JSON gives an error and no record, and null gives no record and no error. Any non-object gives a zero record and a type error, and an object gives a record. |
| `Groups.EncodeGroup` | group.go:14-21 | The encoding is an object with the record's six keys, each once. |
| `Groups.DecodeEncodeGroup` | group.go:14-21 | Decoding the JSON a record marshals to gives the record back, without error. |
| `Groups.UnknownKeysIgnored` | group.go:14-21 | Members the record has no field for change nothing. |
| `Groups.MemberOptions` | group.go:88-93 | Member add and remove send `user = [uid]` and no_members, raw and all set to false, and nothing else. |
| `Groups.GroupReply` | group.go:38-48 | An rpc failure returns a nil record and the error without decoding. Otherwise the result is the decode of the data. |
| `Groups.GroupAdd` | group.go:33-49 | `group_add` of cn with no options, answered by GroupReply. |
| `Groups.GroupShow` | group.go:62-83 | `group_show` of cn with the four false flags, answered by GroupReply. |
| `Groups.AddUserToGroup` | group.go:85-108 | `group_add_member` with the group as sole argument and MemberOptions, answered by GroupReply. |
| `Groups.RemoveUserFromGroup` | group.go:110-124 | `group_remove_member` with the same arguments and options, returning only the rpc error. |
| `Groups.CheckUserMemberOfGroup` | group.go:126-139 | True exactly when the user is among the group's users. A GroupShow failure gives false and its error. |

## Left out

- HTTP and TLS plumbing (`newHTTPClient`, building and sending requests, trace logging): the reply is an input value and the request is returned as a value.
- `init()` and the default-client constructors' reads of `/etc/ipa/ca.crt` and `/etc/ipa/default.conf`: this is file I/O. The host and realm are parameters.
- The gokrb5 logins (`Login`, `LoginWithKeytab`, `LoginFromCCache`) and the SPNEGO header: `KerberosLogin` takes the library's outcome and only keeps whether a Kerberos client is set.
- The SSH library (`ssh.ParseAuthorizedKey`, `MarshalAuthorizedKey`, `FingerprintSHA256`): a key's text and fingerprint are opaque strings, and the parser is a parameter. Keys are values, not shared pointers, so aliasing between the caller's key and the stored one is not modelled.
- The JSON parsers (gjson, encoding/json) are modelled only as far as the decoders use them. Numbers are integers. Object keys are matched exactly, without encoding/json's case-insensitive fallback. A syntax error's text is not reproduced.
- Strings are sequences of characters, while Go strings are bytes: `DisplayName`'s length 36 and the cookie value's length 32 are counted in characters.
- `ParseDateTime` represents times as calendar fields, not instants. Time zones other than the literal `Z` are not modelled.
- The thin wrappers that only pass values through: hbac.go, sudo_rule.go, password.go, host_group.go, host.go, and `UserShow`, `UserFind`, `ChangePassword`, `SetAuthTypes`, `UserDisable`, `UserEnable`, `UserDelete`, `RemoveOTPToken`, `EnableOTPToken`, `DisableOTPToken`, `GroupDelete`, `Host`, `Realm`, `SessionID`, `NewClientCustomHttp`.
- The `fmt.Printf` of the reply in `AddUserToGroup`: this is output only.
- Concurrency: the unsynchronized last-write-wins update of the session id.
- `Otp.AddOTPToken`: with a nil token the source fills the defaults into the shared `DefaultTOTPToken` itself. The model fills a fresh copy. The sent options are the same, and the global is not modelled.
- `Otp.FetchOTPTokens`: the source's abort on a record that fails to decode cannot happen, because every element of a parsed array is valid JSON. The model has no such branch.
- `Json.AsInt`, `Text.ParseInt`: gjson accumulates `Int()` in a 64-bit integer, which wraps silently past 19 digits, and otp.go narrows the result with `int(...)`. The model's integers are unbounded, so that wrap-around and narrowing are not modelled.
- `Ipa.DataOf`: when a reply has no `result`, Go panics at every `res.Result.Data` (user.go:252, 276, 305, 480, 527; otp.go:117, 190; group.go:43, 77, 100). The model returns a nil-dereference error instead, and `UserAdd`, `UserMod`, `ResetPassword`, `UserAddWithPassword`, `AddOTPToken`, `FetchOTPTokens` and the group calls return it like any other error.
- `Json.AsString`, `Json.Encode`: gjson's `String()` of an array or object is the raw text of the input, whitespace included. The model writes the value's JSON compactly, so it matches the raw text only when the server sends compact JSON.
- `Groups.DecodeStrings`: a slice shortened by an earlier array under the same key keeps its old elements in spare capacity, and encoding/json exposes them when a longer array follows. The model reads slots past the current length as "".
- `Groups.CheckUserMemberOfGroup`: when the server's data is `null`, Go dereferences a nil record and panics. The model returns a nil-dereference error instead.
