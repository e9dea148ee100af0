/** The `/login` handler: with no code it issues one; with a code it
    verifies it and, on success, finds the user by phone number or creates
    one. The user collection is a table keyed by phone number. */
module Auth {
  import opened Wrappers
  import opened Twilio

  /** The one phone number whose new user gets the `admin` role. */
  const AdminPhoneNumber := "+77777777777"

  datatype User = User(phoneNumber: string, role: string, region: string, city: string)

  /** The handler's answer; `Failed` stands for an error thrown by the code issue. */
  datatype LoginReply =
    | CodeSent                 // "Verification code sent"
    | InvalidCode              // status 400, "Invalid verification code"
    | LoggedIn(role: string)   // "Login successful" with the user's stored role
    | Failed(error: SmsError)

  /** The role a user created by login gets. */
  function RoleFor(phoneNumber: string): (role: string)
    ensures role == "admin" <==> phoneNumber == AdminPhoneNumber
    ensures role == "admin" || role == "user"
  {
    if phoneNumber == AdminPhoneNumber then "admin" else "user"
  }

  /** A missing or empty code is falsy and selects the issue branch; any
      other string is truthy and selects verification. */
  predicate IsFalsy(code: Option<string>): (r: bool)
    ensures !r <==> code.Some? && |code.value| > 0
  {
    code.None? || code.value == ""
  }

  class UserTable {
    var byPhone: map<string, User>

    /** Every user is stored under its own phone number. */
    ghost predicate Valid()
      reads this
    {
      forall p :: p in byPhone ==> byPhone[p].phoneNumber == p
    }

    constructor ()
      ensures Valid() && byPhone == map[]
    {
      byPhone := map[];
    }

    /** `createUser`: stores a new user record and returns it. */
    method CreateUser(phoneNumber: string, role: string, region: string, city: string) returns (user: User)
      requires Valid()
      modifies this
      ensures Valid()
      ensures user == User(phoneNumber, role, region, city)
      ensures byPhone == old(byPhone)[phoneNumber := user]
    {
      user := User(phoneNumber, role, region, city);
      byPhone := byPhone[phoneNumber := user];
    }
  }

  /** The `/login` handler, with the issue's random draw as `n`, the
      provider's answer as `dispatchOk` and the configured sender number as
      `sender`. */
  method Login(store: CodeStore, users: UserTable, phoneNumber: string, code: Option<string>,
               region: string, city: string, sender: Option<string>, n: nat, dispatchOk: bool)
    returns (reply: LoginReply)
    requires store.Valid() && users.Valid()
    requires 100000 <= n <= 999999
    modifies store, users
    ensures store.Valid() && users.Valid()
    // no code: issue one, and touch no user
    ensures IsFalsy(code) ==>
      && users.byPhone == old(users.byPhone)
      && (IssueCheck(phoneNumber, sender).Fail? ==>
            reply == Failed(IssueCheck(phoneNumber, sender).error) && store.codes == old(store.codes))
      && (IssueCheck(phoneNumber, sender).Pass? ==>
            && store.codes == old(store.codes)[phoneNumber := DecimalString(n)]
            && reply == (if dispatchOk then CodeSent else Failed(DispatchFailed)))
    // a wrong code: 400, and nothing changes
    ensures !IsFalsy(code) && !(phoneNumber in old(store.codes) && old(store.codes)[phoneNumber] == code.value) ==>
      reply == InvalidCode && store.codes == old(store.codes) && users.byPhone == old(users.byPhone)
    // the right code: consume it, then find or create the user
    ensures !IsFalsy(code) && phoneNumber in old(store.codes) && old(store.codes)[phoneNumber] == code.value ==>
      && store.codes == old(store.codes) - {phoneNumber}
      && (phoneNumber in old(users.byPhone) ==>
            users.byPhone == old(users.byPhone) && reply == LoggedIn(old(users.byPhone)[phoneNumber].role))
      && (phoneNumber !in old(users.byPhone) ==>
            && users.byPhone == old(users.byPhone)[phoneNumber := User(phoneNumber, RoleFor(phoneNumber), region, city)]
            && reply == LoggedIn(RoleFor(phoneNumber)))
    // the user table changes only after a successful verification
    ensures users.byPhone != old(users.byPhone) ==>
      && reply.LoggedIn? && !IsFalsy(code)
      && phoneNumber in old(store.codes) && old(store.codes)[phoneNumber] == code.value
      && phoneNumber !in old(users.byPhone)
  {
    if IsFalsy(code) {
      var r, request := store.SendVerificationCode(phoneNumber, sender, n, dispatchOk);
      if r.Fail? {
        return Failed(r.error);
      }
      return CodeSent;
    }
    var isVerified := store.VerifyCode(phoneNumber, code.value);
    if !isVerified {
      return InvalidCode;
    }
    var user: User;
    if phoneNumber in users.byPhone {
      user := users.byPhone[phoneNumber];
    } else {
      var role := RoleFor(phoneNumber);
      user := users.CreateUser(phoneNumber, role, region, city);
    }
    return LoggedIn(user.role);
  }

  /** A first login request issues a code, a second one with that code logs
      in (as `admin` only for the admin number), and replaying the code is
      refused. */
  method LoginReplayScenario(phoneNumber: string, n: nat) returns (first: LoginReply, second: LoginReply, third: LoginReply)
    requires ValidatePhoneNumber(phoneNumber).Pass?
    requires 100000 <= n <= 999999
    ensures first == CodeSent
    ensures second == LoggedIn(if phoneNumber == "+77777777777" then "admin" else "user")
    ensures third == InvalidCode
  {
    var store := new CodeStore();
    var users := new UserTable();
    var sender := Some("+15550000000");
    assert E164Shape(sender.value);
    first := Login(store, users, phoneNumber, None, "north", "town", sender, n, true);
    IssuedCodeShape(n);
    second := Login(store, users, phoneNumber, Some(DecimalString(n)), "north", "town", sender, n, true);
    third := Login(store, users, phoneNumber, Some(DecimalString(n)), "north", "town", sender, n, true);
  }
}
