/**
 * The login decision chain: look the user up by e-mail, refuse an
 * unverified account, compare the password, then sign a one-day session
 * and return the user's public profile together with their partner's.
 *
 * bcrypt's comparison is the parameter `passwordMatches(plain, hash)`; the
 * JWT is represented by the claims it signs.
 */
module LoginService {
  import opened Wrappers
  import opened Schema

  const InvalidCredentialsMessage: string := "Invalid email or password"
  const NotVerifiedMessage: string := "User is not verified"
  /** `expiresIn: '1d'`. */
  const SessionLifetimeSeconds: nat := 24 * 60 * 60

  /** The nine columns a login response shows of a user. */
  datatype Profile = Profile(
    id: nat,
    email: string,
    firstName: string,
    role: Role,
    coupleId: Option<nat>,
    isFirstPartner: bool,
    dateOfBirth: Option<string>,
    gender: Option<Gender>,
    profilePic: Option<string>)

  /** What the session token carries and how long it lives. */
  datatype SessionClaims = SessionClaims(id: nat, email: string, expiresInSeconds: nat)

  /** A thrown error is `LoginFailed` with the error's message. */
  datatype LoginResult =
    | LoginOk(session: SessionClaims, user: Profile, partner: Option<Profile>)
    | LoginFailed(message: string)

  function Project(u: User): Profile {
    Profile(u.id, u.email, u.firstName, u.role, u.coupleId, u.isFirstPartner,
            u.dateOfBirth, u.gender, u.profilePic)
  }

  /** Two rows that differ at most in columns the profile does not show. */
  predicate SamePublicColumns(u: User, v: User) {
    && u.id == v.id && u.email == v.email && u.firstName == v.firstName && u.role == v.role
    && u.coupleId == v.coupleId && u.isFirstPartner == v.isFirstPartner
    && u.dateOfBirth == v.dateOfBirth && u.gender == v.gender && u.profilePic == v.profilePic
  }

  /** The partner of `u`: the first other row of the same couple, sought only when `couple_id` is truthy. */
  function PartnerOf(us: seq<User>, u: User): (p: Option<Profile>)
    ensures p.Some? ==> Truthy(u.coupleId)
    ensures p.Some? ==> exists k :: 0 <= k < |us| && us[k].coupleId == u.coupleId && us[k].id != u.id
                                    && p.value == Project(us[k])
    ensures p.None? <==> !Truthy(u.coupleId) || forall k :: 0 <= k < |us| ==> us[k].coupleId != u.coupleId || us[k].id == u.id
  {
    if !Truthy(u.coupleId) then None
    else
      var k := FindPartner(us, u.coupleId.value, u.id);
      if k.None? then None else Some(Project(us[k.value]))
  }

  /** loginService(email, password) over the users table `us`. */
  function Login(us: seq<User>, email: string, password: string,
                 passwordMatches: (string, string) -> bool): (r: LoginResult)
    // an unknown e-mail
    ensures FindUserByEmail(us, email).None? ==> r == LoginFailed(InvalidCredentialsMessage)
    // an unverified account, whatever the password
    ensures var f := FindUserByEmail(us, email);
            f.Some? && !us[f.value].verified ==> r == LoginFailed(NotVerifiedMessage)
    // a verified account and a wrong password: the same message as an unknown e-mail
    ensures var f := FindUserByEmail(us, email);
            f.Some? && us[f.value].verified && !passwordMatches(password, us[f.value].passwordHash)
            ==> r == LoginFailed(InvalidCredentialsMessage)
    // success exactly when all three checks pass, for the row holding the e-mail
    ensures r.LoginOk? <==>
              exists k :: 0 <= k < |us| && us[k].email == email && us[k].verified
                          && passwordMatches(password, us[k].passwordHash)
                          && FindUserByEmail(us, email) == Some(k)
    ensures r.LoginOk? ==>
              var u := us[FindUserByEmail(us, email).value];
              && r.session == SessionClaims(u.id, email, SessionLifetimeSeconds)
              && r.user == Project(u) && r.user.email == email
              && r.partner == PartnerOf(us, u)
  {
    var found := FindUserByEmail(us, email);
    if found.None? then LoginFailed(InvalidCredentialsMessage)
    else
      var u := us[found.value];
      if !u.verified then LoginFailed(NotVerifiedMessage)
      else if !passwordMatches(password, u.passwordHash) then LoginFailed(InvalidCredentialsMessage)
      else LoginOk(SessionClaims(u.id, u.email, SessionLifetimeSeconds), Project(u), PartnerOf(us, u))
  }

  /** The profile shows none of the password hash, the token, its expiry, the flag or the creation time. */
  lemma ProjectionHidesSecrets(u: User, v: User)
    requires SamePublicColumns(u, v)
    ensures Project(u) == Project(v)
  {
  }

  /** The partner, when found, belongs to the same couple and is another user. */
  lemma PartnerSharesCouple(us: seq<User>, email: string, password: string,
                            passwordMatches: (string, string) -> bool)
    requires Login(us, email, password, passwordMatches).LoginOk?
    ensures var r := Login(us, email, password, passwordMatches);
            r.partner.Some? ==>
              && r.user.coupleId.Some? && r.user.coupleId.value != 0
              && r.partner.value.coupleId == r.user.coupleId
              && r.partner.value.id != r.user.id
  {
    var u := us[FindUserByEmail(us, email).value];
    var r := Login(us, email, password, passwordMatches);
    if r.partner.Some? {
      var k :| 0 <= k < |us| && us[k].coupleId == u.coupleId && us[k].id != u.id
               && r.partner.value == Project(us[k]);
    }
  }

  /**
   * The password is never looked at for an unverified account: any two
   * passwords, and any comparison, give the same answer.
   */
  lemma VerifiedCheckedBeforePassword(us: seq<User>, email: string, p1: string, p2: string,
                                      m1: (string, string) -> bool, m2: (string, string) -> bool)
    requires FindUserByEmail(us, email).Some? && !us[FindUserByEmail(us, email).value].verified
    ensures Login(us, email, p1, m1) == Login(us, email, p2, m2) == LoginFailed(NotVerifiedMessage)
  {
  }

  /** A caller cannot tell an unknown e-mail from a wrong password. */
  lemma UnknownEmailLooksLikeWrongPassword(us1: seq<User>, us2: seq<User>, email: string, password: string,
                                           passwordMatches: (string, string) -> bool)
    requires FindUserByEmail(us1, email).None?
    requires FindUserByEmail(us2, email).Some? && us2[FindUserByEmail(us2, email).value].verified
    requires !passwordMatches(password, us2[FindUserByEmail(us2, email).value].passwordHash)
    ensures Login(us1, email, password, passwordMatches) == Login(us2, email, password, passwordMatches)
  {
  }
}
