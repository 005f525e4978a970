/**
 * The auth service: the account collection and the claims it issues on
 * sign-up and sign-in, plus the account update and delete handlers.
 */
module Auth {
  import opened Collection
  import opened Jwt

  /** An account record as decoded from a request body and stored. */
  datatype User = User(username: string, password: string, email: string, dateOfBirth: string)

  /** The credentials of a sign-in request. */
  datatype SignIn = SignIn(username: string, password: string)

  const NoMatchingDocuments: string := "No matching documents\n u"
  const AccountDeleted: string := "Successfully deleted account!"

  function UserUpdatedMessage(username: string): string { "Successfully updated user: '" + username + "'" }

  /** JWTcreate: the claims of the issued token, before signing. */
  function JwtCreate(username: string, password: string): (c: Claims)
    ensures c.Keys == {UsernameKey, PasswordKey}
    ensures c[UsernameKey] == username && c[PasswordKey] == password
  {
    map[UsernameKey := username, PasswordKey := password]
  }

  /** SignInHandler's filter: username and password both equal. */
  predicate HasCredentials(a: User, c: SignIn)
  {
    a.username == c.username && a.password == c.password
  }

  function CredentialsMatch(c: SignIn): User -> bool
  {
    a => HasCredentials(a, c)
  }

  /** UpdateUser's filter: username, password and email all equal the form values. */
  predicate HasAccount(a: User, username: string, password: string, email: string)
  {
    a.username == username && a.password == password && a.email == email
  }

  function AccountMatch(username: string, password: string, email: string): User -> bool
  {
    a => HasAccount(a, username, password, email)
  }

  /** DeleteUser's filter: username equal to the form value. */
  function UsernameMatch(username: string): User -> bool
  {
    (a: User) => a.username == username
  }

  /** UpdateUser's `$set`: username, password and email from the body; the date of birth stays. */
  function Reset(a: User, body: User): User
  {
    a.(username := body.username, password := body.password, email := body.email)
  }

  function ResetFrom(body: User): User -> User
  {
    a => Reset(a, body)
  }

  /** UpdateUser changes at most the first matching account, and never its date of birth. */
  lemma UpdateUserKeepsOthers(s: seq<User>, username: string, password: string, email: string, body: User)
    ensures |UpdateFirst(s, AccountMatch(username, password, email), ResetFrom(body))| == |s|
    ensures forall i :: 0 <= i < |s| ==>
      UpdateFirst(s, AccountMatch(username, password, email), ResetFrom(body))[i].dateOfBirth == s[i].dateOfBirth
    ensures forall i :: 0 <= i < |s| && !HasAccount(s[i], username, password, email) ==>
      UpdateFirst(s, AccountMatch(username, password, email), ResetFrom(body))[i] == s[i]
  {
    UpdateFirstTouchesOnlyFirstMatch(s, AccountMatch(username, password, email), ResetFrom(body));
  }

  /** The account collection, in the store's natural order. */
  class UserStore {
    var users: seq<User>

    constructor (initial: seq<User>)
      ensures users == initial
    {
      users := initial;
    }

    /**
     * SignUpHandler stores the decoded record as it is, with no uniqueness
     * check, and issues claims from its username and password.
     */
    method SignUpHandler(u: User) returns (token: Claims)
      modifies this
      ensures users == old(users) + [u]
      ensures token == JwtCreate(u.username, u.password)
    {
      users := users + [u];
      token := JwtCreate(u.username, u.password);
    }

    /**
     * SignInHandler looks up the first account with exactly the submitted
     * username and password. The token header is set after the body, so a
     * miss writes the miss message and delivers no token; a hit delivers
     * the claims of the credentials it matched, which are the submitted ones.
     */
    method SignInHandler(submitted: SignIn) returns (body: string, token: Option<Claims>)
      ensures body == NoMatchingDocuments <==> forall i :: 0 <= i < |users| ==> !HasCredentials(users[i], submitted)
      ensures body != NoMatchingDocuments ==> body == ""
      ensures token.Some? <==> exists i :: 0 <= i < |users| && HasCredentials(users[i], submitted)
      ensures token.Some? ==> token.value.Keys == {UsernameKey, PasswordKey}
      ensures token.Some? ==>
        token.value[UsernameKey] == submitted.username && token.value[PasswordKey] == submitted.password
    {
      var u := submitted;
      body := "";
      match FirstMatch(users, CredentialsMatch(u)) {
        case None =>
          body := NoMatchingDocuments;
        case Some(k) =>
          u := SignIn(users[k].username, users[k].password);
      }
      // once the body has been written, the Authorization header is no longer sent
      token := if body == "" then Some(JwtCreate(u.username, u.password)) else None;
    }

    /**
     * UpdateUser sets username, password and email of the first account
     * matching all three form values; the reply is the same either way.
     */
    method UpdateUser(formUsername: string, formPassword: string, formEmail: string, body: User) returns (reply: string)
      modifies this
      ensures users == UpdateFirst(old(users), AccountMatch(formUsername, formPassword, formEmail), ResetFrom(body))
      ensures |users| == |old(users)|
      ensures match FirstMatch(old(users), AccountMatch(formUsername, formPassword, formEmail))
        case None => users == old(users)
        case Some(k) => users == old(users)[k := Reset(old(users)[k], body)]
      ensures reply == UserUpdatedMessage(body.username)
    {
      users := UpdateFirst(users, AccountMatch(formUsername, formPassword, formEmail), ResetFrom(body));
      reply := UserUpdatedMessage(body.username);
    }

    /** DeleteUser removes the first account with the given username; the reply is the same either way. */
    method DeleteUser(formUsername: string) returns (reply: string)
      modifies this
      ensures users == DeleteFirst(old(users), UsernameMatch(formUsername))
      ensures match FirstMatch(old(users), UsernameMatch(formUsername))
        case None => users == old(users)
        case Some(k) => users == old(users)[..k] + old(users)[k + 1..]
      ensures reply == AccountDeleted
    {
      users := DeleteFirst(users, UsernameMatch(formUsername));
      reply := AccountDeleted;
    }
  }
}
