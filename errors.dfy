/**
 * The errors the client returns: the exported sentinels, the server's IpaError,
 * and the formatted errors of the request paths, each with the text Go's
 * Error() gives it.
 */
module Errors {

  import opened Text

  /** FreeIPA's JSON-RPC error object: a numeric code and a message. */
  datatype IpaError = IpaError(message: string, code: int)

  datatype Error =
    | PasswordPolicy                       // ErrPasswordPolicy
    | InvalidPassword                      // ErrInvalidPassword
    | ExpiredPassword                      // ErrExpiredPassword
    | Unauthorized                         // ErrUnauthorized
    | UserExists                           // ErrUserExists
    | GroupRecordNotInitialized            // ErrorGroupRecordNotInitialized
    | Server(ipa: IpaError)                // an error envelope from the server
    | RpcHttpStatus(status: int)           // non-200 reply to a JSON-RPC call
    | LoginHttpStatus(status: int)         // non-200, non-401 reply to a password login
    | PasswordChangeHttpStatus(status: int)
    | UnknownPasswordStatus(result: string)
    | InvalidSetCookie
    | InvalidUserJson
    | InvalidOtpJson
    | UsernameRequired
    | PasswordRequired
    | EmptyRandomPassword
    | Transport(reason: string)            // the HTTP client or the body reader failed
    | JsonSyntax(reason: string)           // encoding/json rejected the bytes
    | JsonType(found: string, target: string)  // encoding/json: a value of the wrong JSON type
    | NilDereference(what: string)         // a Go nil-pointer panic, returned as an error

  /** IpaError.Error(): "ipa: error <code> - <message>". */
  function IpaErrorText(e: IpaError): (s: string)
    ensures HasPrefix(s, "ipa: error ") && |s| >= 15 + |e.message|
  {
    "ipa: error " + Decimal(e.code) + " - " + e.message
  }

  /** The text Go's Error() gives each error. */
  function Message(e: Error): (s: string)
    ensures s == "" ==> e.Transport? || e.JsonSyntax?
    ensures e.Server? ==> HasPrefix(s, "ipa: error ")
  {
    match e
    case PasswordPolicy => "password does not conform to policy"
    case InvalidPassword => "invalid current password"
    case ExpiredPassword => "password expired"
    case Unauthorized => "unauthorized"
    case UserExists => "unauthorized"
    case GroupRecordNotInitialized => "group record is not initialized"
    case Server(ipa) => IpaErrorText(ipa)
    case RpcHttpStatus(s) => "IPA RPC called failed with HTTP status code: " + Decimal(s)
    case LoginHttpStatus(s) => "IPA login failed with HTTP status code: " + Decimal(s)
    case PasswordChangeHttpStatus(s) => "ipa: change password failed with HTTP status code: " + Decimal(s)
    case UnknownPasswordStatus(r) => "ipa: change password failed. Unknown status: " + r
    case InvalidSetCookie => "invalid set-cookie header"
    case InvalidUserJson => "invalid user record json"
    case InvalidOtpJson => "invalid otp token record json"
    case UsernameRequired => "Username is required"
    case PasswordRequired => "password is required"
    case EmptyRandomPassword => "ipa: failed to reset user password. empty random password returned"
    case Transport(reason) => reason
    case JsonSyntax(reason) => reason
    case JsonType(found, target) => "json: cannot unmarshal " + found + " into Go " + target
    case NilDereference(what) => "runtime error: invalid memory address or nil pointer dereference (" + what + ")"
  }

  /**
   * ErrUnauthorized and ErrUserExists are different values that callers can tell
   * apart, but their texts are the same.
   */
  lemma SentinelsShareText()
    ensures Unauthorized != UserExists
    ensures Message(Unauthorized) == Message(UserExists)
  {
  }

  /** No character of a %d text is a space. */
  lemma DecimalHasNoSpace(i: int, k: nat)
    requires k < |Decimal(i)|
    ensures Decimal(i)[k] != ' '
  {
    var d := Decimal(i);
    if i < 0 && k > 0 {
      assert d[k] == d[1..][k - 1];
    }
  }

  /** The server's code and message can be read back from IpaError.Error(). */
  lemma IpaErrorTextInjective(a: IpaError, b: IpaError)
    requires IpaErrorText(a) == IpaErrorText(b)
    ensures a == b
  {
    var p := "ipa: error ";
    var da, db := Decimal(a.code), Decimal(b.code);
    var ta, tb := da + " - " + a.message, db + " - " + b.message;
    assert IpaErrorText(a) == p + ta && IpaErrorText(b) == p + tb;
    assert ta == IpaErrorText(a)[|p|..] && tb == IpaErrorText(b)[|p|..];
    assert ta == tb;
    // The first space after the prefix ends the code.
    if |da| < |db| {
      assert ta[|da|] == ' ' && tb[|da|] == db[|da|];
      DecimalHasNoSpace(b.code, |da|);
      assert false;
    } else if |db| < |da| {
      assert tb[|db|] == ' ' && ta[|db|] == da[|db|];
      DecimalHasNoSpace(a.code, |db|);
      assert false;
    }
    assert da == ta[..|da|] && db == tb[..|db|];
    DecimalRoundTrip(a.code);
    DecimalRoundTrip(b.code);
    assert a.message == ta[|da| + 3..] && b.message == tb[|db| + 3..];
  }
}
