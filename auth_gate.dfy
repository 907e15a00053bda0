/**
 * The bearer-token gate in front of every wine route (`authenticate`): the
 * `Authorization` header must start with "Bearer ", the rest of it is the
 * token, the token is verified, and the account named by its claims is
 * loaded without its password and attached to the request.
 *
 * Token verification (signature, secret, expiry) and the account lookup are
 * parameters: `verify` gives the claims of a token it accepts, `lookup`
 * finds an account by id, reports that none exists, or fails.
 */
module AuthGate {
  import opened Wrappers

  /** The claims a verified token carries. */
  datatype Claims = Claims(userId: string, email: string)

  /** A stored account; its timestamps are not part of the model. */
  datatype Account = Account(id: string, email: string, password: string, firstName: string, lastName: string)

  /** The account as attached to the request: every field but the password. */
  datatype Profile = Profile(id: string, email: string, firstName: string, lastName: string)

  /** What loading an account by id gives: the account, no account, or a failure of the lookup itself. */
  datatype Lookup = Found(account: Account) | NoSuchUser | LookupFailed

  /** The gate either answers the request itself or lets it through with the caller attached. */
  datatype Outcome = Reject(status: int, message: string) | Proceed(user: Profile)

  const BearerPrefix := "Bearer "
  const MissingToken := "Access token is missing or invalid"
  const UserNotFound := "User not found"
  const BadToken := "Invalid or expired token"

  /** `authHeader.startsWith('Bearer ')`, case-sensitively. */
  predicate HasBearerPrefix(header: string) {
    |header| >= |BearerPrefix| && header[..|BearerPrefix|] == BearerPrefix
  }

  /** `authHeader.substring(7)`: the header with the prefix removed. */
  function TokenOf(header: string): (token: string)
    requires HasBearerPrefix(header)
    ensures BearerPrefix + token == header
  {
    header[|BearerPrefix|..]
  }

  /** `select('-password')`. */
  function WithoutPassword(a: Account): Profile {
    Profile(a.id, a.email, a.firstName, a.lastName)
  }

  /** The inner block: verify the token, load the account, attach it. Any failure in here is a 401. */
  function VerifyAndLoad(token: string, verify: string -> Option<Claims>, lookup: string -> Lookup): Outcome {
    match verify(token)
    case None => Reject(401, BadToken)
    case Some(claims) =>
      match lookup(claims.userId)
      case Found(account) => Proceed(WithoutPassword(account))
      case NoSuchUser => Reject(401, UserNotFound)
      case LookupFailed => Reject(401, BadToken)
  }

  /** `authenticate` on the request's `Authorization` header, absent or not. */
  function Authenticate(header: Option<string>, verify: string -> Option<Claims>, lookup: string -> Lookup): (o: Outcome)
    ensures o.Proceed? ==> header.Some? && HasBearerPrefix(header.value) && verify(TokenOf(header.value)).Some?
  {
    if header.None? || header.value == "" || !HasBearerPrefix(header.value) then Reject(401, MissingToken)
    else VerifyAndLoad(TokenOf(header.value), verify, lookup)
  }

  /** Prefixing a token with "Bearer " gives a header the gate reads that same token from. */
  lemma BearerRoundTrip(token: string)
    ensures HasBearerPrefix(BearerPrefix + token)
    ensures TokenOf(BearerPrefix + token) == token
  {
    assert (BearerPrefix + token)[..|BearerPrefix|] == BearerPrefix;
  }

  /** What is verified is exactly the text after "Bearer ". */
  lemma BearerHeaderVerifiesToken(token: string, verify: string -> Option<Claims>, lookup: string -> Lookup)
    ensures Authenticate(Some(BearerPrefix + token), verify, lookup) == VerifyAndLoad(token, verify, lookup)
  {
    BearerRoundTrip(token);
  }

  /** The missing-token reply is given exactly when the header is absent or lacks the exact prefix. */
  lemma MissingTokenIff(header: Option<string>, verify: string -> Option<Claims>, lookup: string -> Lookup)
    ensures Authenticate(header, verify, lookup) == Reject(401, MissingToken)
        <==> header.None? || !HasBearerPrefix(header.value)
  {
  }

  /** The prefix test is case-sensitive: a lower-case "bearer " header is refused whatever the token. */
  lemma LowerCaseBearerRefused(token: string, verify: string -> Option<Claims>, lookup: string -> Lookup)
    ensures Authenticate(Some("bearer " + token), verify, lookup) == Reject(401, MissingToken)
  {
    assert ("bearer " + token)[0] == 'b';
  }

  /**
   * A request goes through exactly when the header carries a token that
   * verifies and whose account exists; the attached caller is that account
   * without its password.
   */
  lemma ProceedIff(header: Option<string>, verify: string -> Option<Claims>, lookup: string -> Lookup)
    ensures Authenticate(header, verify, lookup).Proceed?
        <==> header.Some? && HasBearerPrefix(header.value)
             && verify(TokenOf(header.value)).Some?
             && lookup(verify(TokenOf(header.value)).value.userId).Found?
    ensures var o := Authenticate(header, verify, lookup);
            o.Proceed? ==>
              var account := lookup(verify(TokenOf(header.value)).value.userId).account;
              o.user == WithoutPassword(account) && o.user.id == account.id
  {
  }

  /** When lookups return the account they were asked for, the attached caller is the one the token names. */
  lemma CallerIsTokenSubject(header: Option<string>, verify: string -> Option<Claims>, lookup: string -> Lookup)
    requires forall id :: lookup(id).Found? ==> lookup(id).account.id == id
    ensures var o := Authenticate(header, verify, lookup);
            o.Proceed? ==> o.user.id == verify(TokenOf(header.value)).value.userId
  {
  }

  /** Every rejection is a 401 with one of the gate's three messages. */
  lemma RejectionsAre401(header: Option<string>, verify: string -> Option<Claims>, lookup: string -> Lookup)
    ensures var o := Authenticate(header, verify, lookup);
            o.Reject? ==> o.status == 401 && o.message in {MissingToken, BadToken, UserNotFound}
  {
  }

  /** A token that verifies but names no account gets "User not found"; one that does not verify gets "Invalid or expired token". */
  lemma TokenFailures(token: string, verify: string -> Option<Claims>, lookup: string -> Lookup)
    ensures verify(token).None? ==> Authenticate(Some(BearerPrefix + token), verify, lookup) == Reject(401, BadToken)
    ensures verify(token).Some? && lookup(verify(token).value.userId).NoSuchUser?
            ==> Authenticate(Some(BearerPrefix + token), verify, lookup) == Reject(401, UserNotFound)
  {
    BearerHeaderVerifiesToken(token, verify, lookup);
  }
}
