/**
 * The pairing flow end to end, on fresh tables: the first partner registers
 * and verifies (which creates the couple and mails its code), the second
 * partner registers with that code and verifies (which confirms the
 * couple), and each partner's login then shows the other as partner.
 */
module Pairing {
  import opened Wrappers
  import opened Schema
  import opened Codes
  import opened Registration
  import opened LoginService

  /** A registration payload with every required column given. */
  function SignUp(email: string, password: string, firstName: string, role: Role,
                  firstPartner: bool, invitation: Option<string>): (p: Payload)
    ensures PasswordGiven(p.password) <==> password != ""
    ensures IsTrue(p.isFirstPartner) <==> firstPartner
  {
    Payload(Some(email), Some(password), Some(firstName), None, None, Some(role), Some(firstPartner), invitation)
  }

  /** The row registerUser inserts for these inputs. */
  function RegisteredRow(id: nat, coupleId: Option<nat>, first: bool, role: Role, email: string, hash: string,
                 name: string, token: string, now: int): User
  {
    User(id, coupleId, first, role, email, hash, name, None, None, None, Some(token), Some(now + OneYearMs), false, 0)
  }

  /** The table limits the flow's inputs have to respect. */
  predicate FitsTables(email: string, name: string, hash: string, token: string) {
    |email| <= MaxEmailLength && |name| <= MaxFirstNameLength && |hash| <= MaxVarcharLength
    && IsVerificationToken(token)
  }

  method FirstRegisters(store: PairingStore, email: string, password: string, name: string, hash: string,
                        token: string, now: int)
    returns (r: RegisterResponse)
    requires store.Valid() && store.users == [] && store.couples == []
    requires store.nextUserId == 1 && store.nextCoupleId == 1 && store.userCreatedAtDefault == 0
    requires password != "" && FitsTables(email, name, hash, token)
    modifies store
    ensures store.Valid() && store.couples == [] && store.nextUserId == 2 && store.nextCoupleId == 1
    ensures store.users == [RegisteredRow(1, None, true, Girlfriend, email, hash, name, token, now)]
    ensures r == Registered(1) && r.Status() == 200
  {
    r := store.RegisterUser(SignUp(email, password, name, Girlfriend, true, None), hash, token, now, true);
  }

  method FirstVerifies(store: PairingStore, a: User, token: string, now: int, code: nat)
    returns (r: VerifyResponse)
    requires store.Valid() && store.users == [a] && store.couples == []
    requires store.nextUserId == 2 && store.nextCoupleId == 1 && store.coupleCreatedAtDefault == 0
    requires a.id == 1 && a.isFirstPartner && a.coupleId.None? && !a.verified
    requires a.verificationToken == Some(token) && a.verificationExpiresAt == Some(now + OneYearMs)
    requires IsInvitationCode(code)
    modifies store
    ensures store.Valid() && store.nextUserId == 2 && store.nextCoupleId == 2
    ensures store.users == [MarkVerified(a).(coupleId := Some(1))]
    ensures store.couples == [Couple(1, Pending, Some(DecimalString(code)), 0)]
    ensures r == VerifyOk(InvitationSentPrefix + a.email) && r.Status() == 200
  {
    InvitationCodeIsSixDigits(code);
    assert FindUserById(store.users, 1) == Some(0);
    r := store.VerifyUser(1, Some(token), now, code, true);
  }

  method SecondRegisters(store: PairingStore, a: User, email: string, password: string, name: string,
                         hash: string, token: string, now: int, code: nat)
    returns (r: RegisterResponse)
    requires store.Valid() && store.users == [a] && store.couples == [Couple(1, Pending, Some(DecimalString(code)), 0)]
    requires store.nextUserId == 2 && store.nextCoupleId == 2 && store.userCreatedAtDefault == 0
    requires a.email != email && password != "" && FitsTables(email, name, hash, token)
    modifies store
    ensures store.Valid() && store.nextUserId == 3 && store.nextCoupleId == 2
    ensures store.couples == old(store.couples)
    ensures store.users == [a, RegisteredRow(2, Some(1), false, Boyfriend, email, hash, name, token, now)]
    ensures r == Registered(2) && r.Status() == 200
  {
    var invitation := Some(DecimalString(code));
    assert FindPendingCouple(store.couples, invitation) == Some(0);
    r := store.RegisterUser(SignUp(email, password, name, Boyfriend, false, invitation), hash, token, now, true);
  }

  method SecondVerifies(store: PairingStore, a: User, b: User, token: string, now: int, code: nat)
    returns (r: VerifyResponse)
    requires store.Valid() && store.users == [a, b] && |store.couples| == 1 && store.couples[0].id == 1
    requires a.id == 1 && b.id == 2 && !b.isFirstPartner && b.coupleId == Some(1) && !b.verified
    requires b.verificationToken == Some(token) && b.verificationExpiresAt == Some(now + OneYearMs)
    requires IsInvitationCode(code)
    modifies store
    ensures store.users == [a, MarkVerified(b)]
    ensures store.couples == [old(store.couples)[0].(status := Verified)]
    ensures r == VerifyOk(CoupleVerifiedMessage) && r.Status() == 200
  {
    assert store.users[0].id == 1 && store.users[1].id == 2;
    assert FindUserById(store.users, 2) == Some(1);
    r := store.VerifyUser(2, Some(token), now, code, true);
  }

  /** The four steps, on fresh tables. */
  method RegisterAndVerifyBoth(store: PairingStore, emailA: string, emailB: string, nameA: string, nameB: string,
                               password: string, hashA: string, hashB: string,
                               tokenA: string, tokenB: string, now: int, code: nat, otherCode: nat)
    returns (r1: RegisterResponse, r2: VerifyResponse, r3: RegisterResponse, r4: VerifyResponse)
    requires store.Valid() && store.users == [] && store.couples == []
    requires store.nextUserId == 1 && store.nextCoupleId == 1
    requires store.userCreatedAtDefault == 0 && store.coupleCreatedAtDefault == 0
    requires emailA != emailB && password != ""
    requires FitsTables(emailA, nameA, hashA, tokenA) && FitsTables(emailB, nameB, hashB, tokenB)
    requires IsInvitationCode(code) && IsInvitationCode(otherCode)
    modifies store
    ensures store.users == [MarkVerified(RegisteredRow(1, None, true, Girlfriend, emailA, hashA, nameA, tokenA, now)).(coupleId := Some(1)),
                            MarkVerified(RegisteredRow(2, Some(1), false, Boyfriend, emailB, hashB, nameB, tokenB, now))]
    ensures store.couples == [Couple(1, Verified, Some(DecimalString(code)), 0)]
    ensures r1 == Registered(1) && r2 == VerifyOk(InvitationSentPrefix + emailA)
    ensures r3 == Registered(2) && r4 == VerifyOk(CoupleVerifiedMessage)
  {
    r1 := FirstRegisters(store, emailA, password, nameA, hashA, tokenA, now);
    var a := store.users[0];
    r2 := FirstVerifies(store, a, tokenA, now, code);
    var a' := store.users[0];
    r3 := SecondRegisters(store, a', emailB, password, nameB, hashB, tokenB, now, code);
    var b := store.users[1];
    r4 := SecondVerifies(store, a', b, tokenB, now, otherCode);
  }

  /** Two verified members of one couple, alone in the table, each log in and see the other. */
  lemma PairedLogins(a: User, b: User, password: string, passwordMatches: (string, string) -> bool)
    requires a.email != b.email && a.id != b.id && a.verified && b.verified
    requires a.coupleId == b.coupleId && Truthy(a.coupleId)
    requires passwordMatches(password, a.passwordHash) && passwordMatches(password, b.passwordHash)
    ensures Login([a, b], a.email, password, passwordMatches).user == Project(a)
    ensures Login([a, b], a.email, password, passwordMatches).partner == Some(Project(b))
    ensures Login([a, b], b.email, password, passwordMatches).user == Project(b)
    ensures Login([a, b], b.email, password, passwordMatches).partner == Some(Project(a))
  {
    var us := [a, b];
    assert us[0] == a && us[1] == b;
    assert FindUserByEmail(us, a.email) == Some(0);
    assert FindUserByEmail(us, b.email) == Some(1);
    assert FindPartner(us, a.coupleId.value, a.id) == Some(1);
    assert FindPartner(us, a.coupleId.value, b.id) == Some(0);
  }

  /**
   * Both partners signing up and verifying pairs them: each one's login
   * succeeds and shows the other's profile as the partner.
   */
  method PairTwoUsers(emailA: string, emailB: string, nameA: string, nameB: string,
                      password: string, hashA: string, hashB: string,
                      tokenA: string, tokenB: string, now: int, code: nat, otherCode: nat,
                      passwordMatches: (string, string) -> bool)
    returns (loginA: LoginResult, loginB: LoginResult)
    requires emailA != emailB && password != ""
    requires FitsTables(emailA, nameA, hashA, tokenA) && FitsTables(emailB, nameB, hashB, tokenB)
    requires IsInvitationCode(code) && IsInvitationCode(otherCode)
    requires passwordMatches(password, hashA) && passwordMatches(password, hashB)
    ensures loginA.LoginOk? && loginB.LoginOk?
    ensures loginA.user.email == emailA && loginB.user.email == emailB
    ensures loginA.partner == Some(loginB.user) && loginB.partner == Some(loginA.user)
    ensures loginA.user.coupleId == loginB.user.coupleId == Some(1)
    ensures loginA.user.isFirstPartner && !loginB.user.isFirstPartner
  {
    var store := new PairingStore(0, 0);
    var r1, r2, r3, r4 := RegisterAndVerifyBoth(store, emailA, emailB, nameA, nameB, password, hashA, hashB, tokenA, tokenB, now, code, otherCode);
    PairedLogins(store.users[0], store.users[1], password, passwordMatches);
    loginA := Login(store.users, emailA, password, passwordMatches);
    loginB := Login(store.users, emailB, password, passwordMatches);
  }
}
