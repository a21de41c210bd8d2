/**
 * server/services/registration.service.js: registerUser and verifyUser over
 * the users and couples tables.
 *
 * The environment is passed in: the bcrypt hash of the password, the
 * generated verification token and invitation code, the current time and
 * whether the mail transport delivered the message.
 */
module Registration {
  import opened Wrappers
  import opened Schema
  import opened Codes

  /** `ONE_YEAR`, in milliseconds. */
  const OneYearMs: int := 365 * 24 * 60 * 60 * 1000

  /** The request body of POST /register. Absent fields are `None`. */
  datatype Payload = Payload(
    email: Option<string>,
    password: Option<string>,
    firstName: Option<string>,
    dateOfBirth: Option<string>,
    gender: Option<Gender>,
    role: Option<Role>,
    isFirstPartner: Option<bool>,
    invitationToken: Option<string>)

  /** `!password` is false exactly for a present, non-empty password. */
  predicate PasswordGiven(password: Option<string>) {
    password.Some? && password.value != ""
  }

  /** `isFirstPartner` is truthy. */
  predicate IsTrue(b: Option<bool>) {
    b == Some(true)
  }

  datatype RegisterError = PasswordRequired | InsertRejected | VerificationEmailFailed

  /** The three object literals registerUser returns. */
  datatype RegisterResponse =
    | Registered(userId: nat)
    | InvitationRejected
    | RegisterFailed(error: RegisterError)
  {
    function Status(): nat {
      match this
      case Registered(_) => 200
      case InvitationRejected => 400
      case RegisterFailed(_) => 500
    }
    function Message(): string {
      match this
      case Registered(_) => "Registration successful. Check your email to verify."
      case InvitationRejected => "Invalid or expired invitation code."
      case RegisterFailed(_) => "Server error during registration"
    }
  }

  datatype VerifyError =
    | UserNotFound
    | AlreadyVerified
    | InvalidToken
    | TokenExpired
    | DuplicateInvitationCode   // the couples insert violates the unique invitation_token
    | CoupleCreationFailed
    | InvitationEmailFailed
    | CoupleVerificationFailed
  {
    function Text(): string {
      match this
      case UserNotFound => "User not found"
      case AlreadyVerified => "User already verified"
      case InvalidToken => "Invalid token"
      case TokenExpired => "Token expired"
      case DuplicateInvitationCode => "Duplicate entry for key invitation_token"
      case CoupleCreationFailed => "Couple creation failed"
      case InvitationEmailFailed => "Invitation email could not be sent"
      case CoupleVerificationFailed => "Couple verification failed"
    }
  }

  /** What verifyUser returns. No error carries the code ER_PARSE_ERROR, so every failure is a 500. */
  datatype VerifyResponse = VerifyOk(message: string) | VerifyFailed(error: VerifyError)
  {
    function Status(): nat {
      if VerifyOk? then 200 else 500
    }
    function Message(): string {
      if VerifyOk? then message else "Verification failed: " + error.Text()
    }
  }

  const InvitationSentPrefix: string := "Verification complete. Invitation code sent to "
  const CoupleVerifiedMessage: string := "Couple verification completed successfully"
  const EmailVerifiedMessage: string := "Email verification completed"

  /** `foundUser.verification_token !== token` is false: a stored token equal to the given one. */
  predicate TokenMatches(stored: Option<string>, given: Option<string>) {
    stored.Some? && given == stored
  }

  /** `verification_expires_at < new Date()`; a NULL expiry compares as 0. */
  predicate Expired(expiresAt: Option<int>, now: int) {
    (if expiresAt.Some? then expiresAt.value else 0) < now
  }

  /** The row update of a successful verification. */
  function MarkVerified(u: User): (v: User)
  {
    u.(verified := true, verificationToken := None, verificationExpiresAt := None)
  }

  /**
   * The row registerUser inserts, or None when a NOT NULL column
   * (email, role, first_name) would be NULL.
   */
  function UserRow(p: Payload, id: nat, passwordHash: string, coupleId: Option<nat>,
                   token: string, expiresAt: int, createdAt: int): (r: Option<User>)
    ensures r.Some? <==> p.email.Some? && p.role.Some? && p.firstName.Some?
    ensures r.Some? ==> r.value.id == id && r.value.coupleId == coupleId && !r.value.verified
    ensures r.Some? ==> r.value.verificationToken == Some(token) && r.value.verificationExpiresAt == Some(expiresAt)
    ensures r.Some? ==> r.value.email == p.email.value && r.value.passwordHash == passwordHash
  {
    if p.email.None? || p.role.None? || p.firstName.None? then None
    else Some(User(
      id := id,
      coupleId := coupleId,
      isFirstPartner := if p.isFirstPartner.Some? then p.isFirstPartner.value else DefaultIsFirstPartner,
      role := p.role.value,
      email := p.email.value,
      passwordHash := passwordHash,
      firstName := p.firstName.value,
      dateOfBirth := p.dateOfBirth,
      gender := p.gender,
      profilePic := None,
      verificationToken := Some(token),
      verificationExpiresAt := Some(expiresAt),
      verified := false,
      createdAt := createdAt))
  }

  // ---------------------------------------------------------------------
  // The workflow invariant: what registerUser and verifyUser keep true of
  // the tables, beyond what the database itself enforces.

  /** The verification token and its expiry are present exactly while the user is unverified. */
  ghost predicate TokensSingleUse(us: seq<User>) {
    forall k :: 0 <= k < |us| ==>
      && (us[k].verified <==> us[k].verificationToken.None?)
      && (us[k].verified <==> us[k].verificationExpiresAt.None?)
      && (us[k].verificationToken.Some? ==> IsVerificationToken(us[k].verificationToken.value))
  }

  /** A first partner gets a couple only when their own verification succeeds. */
  ghost predicate PairedFirstPartnersVerified(us: seq<User>) {
    forall k :: 0 <= k < |us| && us[k].isFirstPartner && us[k].coupleId.Some? ==> us[k].verified
  }

  /** A second partner is linked to a couple from the moment their row exists. */
  ghost predicate SecondPartnersPaired(us: seq<User>) {
    forall k :: 0 <= k < |us| && !us[k].isFirstPartner ==> us[k].coupleId.Some?
  }

  /** No two first partners share a couple. */
  ghost predicate OneFirstPartnerPerCouple(us: seq<User>) {
    forall i, j :: 0 <= i < j < |us| && us[i].isFirstPartner && us[j].isFirstPartner && us[i].coupleId.Some? ==>
      us[i].coupleId != us[j].coupleId
  }

  /** A verified second partner's couple is verified. */
  ghost predicate VerifiedPairsConfirmed(us: seq<User>, cs: seq<Couple>) {
    forall i, j ::
      (0 <= i < |us| && 0 <= j < |cs| && !us[i].isFirstPartner && us[i].verified && us[i].coupleId == Some(cs[j].id))
      ==> cs[j].status == Verified
  }

  ghost predicate WorkflowInvariant(us: seq<User>, cs: seq<Couple>) {
    && TokensSingleUse(us)
    && PairedFirstPartnersVerified(us)
    && SecondPartnersPaired(us)
    && OneFirstPartnerPerCouple(us)
    && VerifiedPairsConfirmed(us, cs)
  }

  /**
   * What no operation ever undoes on users: rows are never deleted; ids,
   * emails and first-partner flags never change; `verified` never reverts;
   * a couple_id once set never changes.
   */
  ghost predicate UsersGrow(us0: seq<User>, us1: seq<User>) {
    && |us0| <= |us1|
    && (forall k :: 0 <= k < |us0| ==>
          && us1[k].id == us0[k].id && us1[k].email == us0[k].email
          && us1[k].isFirstPartner == us0[k].isFirstPartner
          && (us0[k].verified ==> us1[k].verified)
          && (us0[k].coupleId.Some? ==> us1[k].coupleId == us0[k].coupleId))
  }

  /** What no operation ever undoes on couples: rows stay, keep id and token, and `verified` never reverts. */
  ghost predicate CouplesGrow(cs0: seq<Couple>, cs1: seq<Couple>) {
    && |cs0| <= |cs1|
    && (forall k :: 0 <= k < |cs0| ==>
          && cs1[k].id == cs0[k].id && cs1[k].invitationToken == cs0[k].invitationToken
          && (cs0[k].status == Verified ==> cs1[k].status == Verified))
  }

  // ---------------------------------------------------------------------
  // Lemmas about single steps of the two operations.

  /** Appending an accepted row with the next auto-increment id keeps the schema constraints. */
  lemma InsertUserKeepsSchema(us: seq<User>, cs: seq<Couple>, nu: nat, nc: nat, u: User)
    requires SchemaValid(us, cs, nu, nc)
    requires UserInsertAccepted(us, cs, u) && u.id == nu
    ensures SchemaValid(us + [u], cs, nu + 1, nc)
  {
    var us' := us + [u];
    forall i, j | 0 <= i < j < |us'| ensures us'[i].email != us'[j].email {
      if j == |us| {
        assert us'[i] == us[i];
      }
    }
  }

  /**
   * Appending a freshly registered row (unverified, holding a generated
   * token and an expiry, paired exactly when it is a second partner) keeps
   * the workflow invariant.
   */
  lemma InsertUserKeepsWorkflow(us: seq<User>, cs: seq<Couple>, u: User)
    requires !u.verified && u.verificationExpiresAt.Some?
    requires u.verificationToken.Some? && IsVerificationToken(u.verificationToken.value)
    requires u.isFirstPartner <==> u.coupleId.None?
    ensures WorkflowInvariant(us, cs) ==> WorkflowInvariant(us + [u], cs)
    ensures UsersGrow(us, us + [u])
  {
    var us' := us + [u];
    assert forall k :: 0 <= k < |us| ==> us'[k] == us[k];
  }

  /** Marking a row verified touches no constrained column. */
  lemma MarkVerifiedKeepsSchema(us: seq<User>, cs: seq<Couple>, nu: nat, nc: nat, i: nat)
    requires SchemaValid(us, cs, nu, nc) && i < |us|
    ensures SchemaValid(us[i := MarkVerified(us[i])], cs, nu, nc)
  {
  }

  /**
   * The re-select after inserting a pending couple (registration.service.js
   * lines 223-231) finds exactly the inserted row, so "Couple creation
   * failed" is never thrown.
   */
  lemma ReselectFindsInsertedCouple(cs: seq<Couple>, c: Couple)
    requires CoupleInsertAccepted(cs, c)
    requires c.status == Pending && c.invitationToken.Some?
    ensures FindPendingCouple(cs + [c], c.invitationToken) == Some(|cs|)
  {
    var cs' := cs + [c];
    forall k | 0 <= k < |cs| ensures cs'[k].invitationToken != c.invitationToken {
      assert cs'[k] == cs[k];
    }
    assert cs'[|cs|] == c;
    assert FindPendingCouple(cs', c.invitationToken).Some?;
  }

  /**
   * The id the re-select after the couples insert yields ("select ... where
   * invitation_token = code and verification_status = 'pending' limit 1"
   * over the table with the new row).
   */
  function ReselectInsertedCouple(cs: seq<Couple>, c: Couple): (id: nat)
    requires CoupleInsertAccepted(cs, c)
    requires c.status == Pending && c.invitationToken.Some?
    ensures id == c.id
  {
    ReselectFindsInsertedCouple(cs, c);
    var found := FindPendingCouple(cs + [c], c.invitationToken);
    (cs + [c])[found.value].id
  }

  /** The couple ids after appending one couple. */
  lemma CoupleIdsAppend(cs: seq<Couple>, c: Couple)
    ensures CoupleIds(cs + [c]) == CoupleIds(cs) + {c.id}
  {
    var cs' := cs + [c];
    forall id | id in CoupleIds(cs') ensures id in CoupleIds(cs) + {c.id} {
      var k :| 0 <= k < |cs'| && cs'[k].id == id;
      if k < |cs| { assert cs'[k] == cs[k]; }
    }
    forall id | id in CoupleIds(cs) ensures id in CoupleIds(cs') {
      var k :| 0 <= k < |cs| && cs[k].id == id;
      assert cs'[k] == cs[k];
    }
  }

  /** Every couple id a user row references is below the couples' next auto-increment value. */
  lemma ReferencedCoupleIsOld(us: seq<User>, cs: seq<Couple>, nu: nat, nc: nat, k: nat)
    requires SchemaValid(us, cs, nu, nc) && k < |us|
    ensures us[k].coupleId.Some? ==> 1 <= us[k].coupleId.value < nc
  {
    if us[k].coupleId.Some? {
      var j :| 0 <= j < |cs| && cs[j].id == us[k].coupleId.value;
    }
  }

  /** Inserting an accepted couple with the next auto-increment id keeps the couples' constraints. */
  lemma InsertCoupleKeepsCouples(cs: seq<Couple>, nc: nat, c: Couple)
    requires AutoIncrementCouples(cs, nc) && InvitationTokensUnique(cs)
    requires forall k :: 0 <= k < |cs| ==> CoupleFitsColumns(cs[k])
    requires CoupleInsertAccepted(cs, c) && c.id == nc
    ensures AutoIncrementCouples(cs + [c], nc + 1) && InvitationTokensUnique(cs + [c])
    ensures forall k :: 0 <= k < |cs + [c]| ==> CoupleFitsColumns((cs + [c])[k])
  {
    var cs' := cs + [c];
    assert forall k :: 0 <= k < |cs| ==> cs'[k] == cs[k];
    forall a, b | 0 <= a < b < |cs'| && cs'[a].invitationToken.Some?
      ensures cs'[a].invitationToken != cs'[b].invitationToken
    {
      if b == |cs| { assert cs'[a] == cs[a]; }
    }
  }

  /** Linking a row to a couple that is being inserted keeps every reference valid. */
  lemma LinkNewCoupleKeepsRefs(us: seq<User>, cs: seq<Couple>, i: nat, v: User, c: Couple)
    requires CoupleRefsValid(us, cs) && i < |us| && v.coupleId == Some(c.id)
    ensures CoupleRefsValid(us[i := v], cs + [c])
  {
    var us' := us[i := v];
    CoupleIdsAppend(cs, c);
    forall k | 0 <= k < |us'| && us'[k].coupleId.Some? ensures us'[k].coupleId.value in CoupleIds(cs + [c]) {
      if k != i { assert us'[k] == us[k]; }
    }
  }

  /**
   * A first partner's verification: the row is marked verified and linked to
   * a freshly inserted pending couple. The schema constraints still hold.
   */
  lemma LinkNewCoupleKeepsSchema(us: seq<User>, cs: seq<Couple>, nu: nat, nc: nat, i: nat, c: Couple)
    requires SchemaValid(us, cs, nu, nc) && i < |us|
    requires CoupleInsertAccepted(cs, c) && c.id == nc
    ensures SchemaValid(us[i := MarkVerified(us[i]).(coupleId := Some(nc))], cs + [c], nu, nc + 1)
  {
    InsertCoupleKeepsCouples(cs, nc, c);
    LinkNewCoupleKeepsRefs(us, cs, i, MarkVerified(us[i]).(coupleId := Some(nc)), c);
  }

  /** "update couples set verification_status = 'verified'" changes no id. */
  lemma MarkCoupleVerifiedKeepsIds(cs: seq<Couple>, cid: nat)
    ensures CoupleIds(MarkCoupleVerified(cs, cid)) == CoupleIds(cs)
  {
    var cs' := MarkCoupleVerified(cs, cid);
    forall id | id in CoupleIds(cs') ensures id in CoupleIds(cs) {
      var k :| 0 <= k < |cs'| && cs'[k].id == id;
    }
    forall id | id in CoupleIds(cs) ensures id in CoupleIds(cs') {
      var k :| 0 <= k < |cs| && cs[k].id == id;
      assert cs'[k].id == id;
    }
  }

  /** "update couples set verification_status = 'verified'" only grows the couples table. */
  lemma MarkCoupleVerifiedGrows(cs: seq<Couple>, cid: nat)
    ensures CouplesGrow(cs, MarkCoupleVerified(cs, cid))
  {
  }

  /** A second partner's verification: the schema constraints still hold. */
  lemma ConfirmCoupleKeepsSchema(us: seq<User>, cs: seq<Couple>, nu: nat, nc: nat, i: nat, cid: nat)
    requires SchemaValid(us, cs, nu, nc) && i < |us|
    ensures SchemaValid(us[i := MarkVerified(us[i])], MarkCoupleVerified(cs, cid), nu, nc)
  {
    var cs' := MarkCoupleVerified(cs, cid);
    MarkCoupleVerifiedKeepsIds(cs, cid);
    assert forall k :: 0 <= k < |cs| ==> cs'[k].id == cs[k].id && cs'[k].invitationToken == cs[k].invitationToken;
    assert AutoIncrementCouples(cs', nc);
    assert InvitationTokensUnique(cs');
    assert forall k :: 0 <= k < |cs'| ==> CoupleFitsColumns(cs'[k]);
    MarkVerifiedKeepsSchema(us, cs, nu, nc, i);
  }

  /**
   * The "update couples ... where id = couple_id" of a second partner's
   * verification affects exactly one row: the foreign key guarantees the
   * couple exists and the primary key that it is the only one, so "Couple
   * verification failed" (lines 258-260) is never thrown.
   */
  lemma {:induction false} LinkedCoupleIsOneRow(cs: seq<Couple>, nc: nat, cid: nat)
    requires AutoIncrementCouples(cs, nc) && cid in CoupleIds(cs)
    ensures CountCouplesWithId(cs, cid) == 1
  {
    if cs[0].id == cid {
      forall k | 0 <= k < |cs| - 1 ensures cs[1..][k].id != cid {
        assert cs[1..][k] == cs[k + 1];
      }
      assert cid !in CoupleIds(cs[1..]);
    } else {
      assert AutoIncrementCouples(cs[1..], nc) by {
        forall a, b | 0 <= a < b < |cs| - 1 ensures cs[1..][a].id < cs[1..][b].id {
          assert cs[1..][a] == cs[a + 1] && cs[1..][b] == cs[b + 1];
        }
      }
      var k :| 0 <= k < |cs| && cs[k].id == cid;
      assert cs[1..][k - 1] == cs[k];
      LinkedCoupleIsOneRow(cs[1..], nc, cid);
    }
  }

  /**
   * Under the workflow invariant an unverified user is either a first partner
   * without a couple or a second partner with one, so verifyUser's final
   * "Email verification completed" branch (line 269) is never reached.
   */
  lemma DefaultBranchUnreachable(us: seq<User>, cs: seq<Couple>, nu: nat, nc: nat, k: nat)
    requires SchemaValid(us, cs, nu, nc) && k < |us| && !us[k].verified
    ensures WorkflowInvariant(us, cs) ==>
              (us[k].isFirstPartner && !Truthy(us[k].coupleId)) || (!us[k].isFirstPartner && Truthy(us[k].coupleId))
  {
    ReferencedCoupleIsOld(us, cs, nu, nc, k);
  }

  /** The first partner's verification keeps the workflow invariant. */
  lemma FirstPartnerLinkKeepsWorkflow(us: seq<User>, cs: seq<Couple>, nu: nat, nc: nat, i: nat, c: Couple)
    requires SchemaValid(us, cs, nu, nc) && i < |us| && us[i].isFirstPartner
    requires c.id == nc
    ensures WorkflowInvariant(us, cs) ==>
              WorkflowInvariant(us[i := MarkVerified(us[i]).(coupleId := Some(nc))], cs + [c])
  {
    if WorkflowInvariant(us, cs) {
      var us' := us[i := MarkVerified(us[i]).(coupleId := Some(nc))];
      var cs' := cs + [c];
      forall a, b | 0 <= a < b < |us'| && us'[a].isFirstPartner && us'[b].isFirstPartner && us'[a].coupleId.Some?
        ensures us'[a].coupleId != us'[b].coupleId
      {
        ReferencedCoupleIsOld(us, cs, nu, nc, a);
        ReferencedCoupleIsOld(us, cs, nu, nc, b);
      }
      forall a, b | 0 <= a < |us'| && 0 <= b < |cs'| && !us'[a].isFirstPartner && us'[a].verified
                    && us'[a].coupleId == Some(cs'[b].id)
        ensures cs'[b].status == Verified
      {
        ReferencedCoupleIsOld(us, cs, nu, nc, a);
        assert b < |cs| && cs'[b] == cs[b];
      }
    }
  }

  /** The second partner's verification keeps the workflow invariant. */
  lemma SecondPartnerConfirmKeepsWorkflow(us: seq<User>, cs: seq<Couple>, i: nat)
    requires i < |us| && !us[i].isFirstPartner && us[i].coupleId.Some?
    ensures WorkflowInvariant(us, cs) ==>
              WorkflowInvariant(us[i := MarkVerified(us[i])], MarkCoupleVerified(cs, us[i].coupleId.value))
  {
  }

  /** Everything the writes of a first partner's verification keep true. */
  lemma FirstPartnerVerificationKeepsTables(us: seq<User>, cs: seq<Couple>, nu: nat, nc: nat, i: nat, c: Couple)
    requires SchemaValid(us, cs, nu, nc) && i < |us| && us[i].isFirstPartner && !Truthy(us[i].coupleId)
    requires CoupleInsertAccepted(cs, c) && c.id == nc
    ensures var us' := us[i := MarkVerified(us[i]).(coupleId := Some(nc))];
            && SchemaValid(us', cs + [c], nu, nc + 1)
            && (WorkflowInvariant(us, cs) ==> WorkflowInvariant(us', cs + [c]))
            && UsersGrow(us, us') && CouplesGrow(cs, cs + [c])
  {
    LinkNewCoupleKeepsSchema(us, cs, nu, nc, i, c);
    FirstPartnerLinkKeepsWorkflow(us, cs, nu, nc, i, c);
    ReferencedCoupleIsOld(us, cs, nu, nc, i);
    VerifiedRowGrows(us, i, MarkVerified(us[i]).(coupleId := Some(nc)));
    AppendCoupleGrows(cs, c);
  }

  /** Two writes to the same row leave the second. */
  lemma SecondWriteWins<T>(s: seq<T>, i: nat, x: T, y: T)
    requires i < |s|
    ensures s[i := x][i := y] == s[i := y]
  {
  }

  /** Verifying one row, keeping its id, email, first-partner flag and any couple, only grows the users table. */
  lemma VerifiedRowGrows(us: seq<User>, i: nat, v: User)
    requires i < |us| && v.id == us[i].id && v.email == us[i].email && v.isFirstPartner == us[i].isFirstPartner
    requires v.verified && (us[i].coupleId.Some? ==> v.coupleId == us[i].coupleId)
    ensures UsersGrow(us, us[i := v])
  {
  }

  /** Appending a couple only grows the couples table. */
  lemma AppendCoupleGrows(cs: seq<Couple>, c: Couple)
    ensures CouplesGrow(cs, cs + [c])
  {
  }

  // ---------------------------------------------------------------------

  /** The users and couples tables, with their auto-increment counters. */
  class PairingStore {
    var users: seq<User>
    var couples: seq<Couple>
    var nextUserId: nat
    var nextCoupleId: nat
    /** The `created_at` defaults: `new Date()` evaluated once, when the schema modules load. */
    const userCreatedAtDefault: int
    const coupleCreatedAtDefault: int

    ghost predicate Valid()
      reads this
    {
      SchemaValid(users, couples, nextUserId, nextCoupleId)
    }

    /** Empty tables whose auto-increment counters start at 1. */
    constructor (schemaLoadedAt: int, couplesLoadedAt: int)
      ensures Valid() && WorkflowInvariant(users, couples)
      ensures users == [] && couples == [] && nextUserId == 1 && nextCoupleId == 1
      ensures userCreatedAtDefault == schemaLoadedAt && coupleCreatedAtDefault == couplesLoadedAt
    {
      users, couples := [], [];
      nextUserId, nextCoupleId := 1, 1;
      userCreatedAtDefault, coupleCreatedAtDefault := schemaLoadedAt, couplesLoadedAt;
    }

    /**
     * registerUser: validate the password, resolve a second partner's
     * invitation token to a pending couple, insert one unverified user in a
     * transaction, then send the verification mail after the commit.
     */
    method RegisterUser(p: Payload, passwordHash: string, verificationToken: string, now: int, emailSent: bool)
      returns (r: RegisterResponse)
      requires Valid()
      requires IsVerificationToken(verificationToken)
      modifies this
      ensures Valid()
      ensures couples == old(couples) && nextCoupleId == old(nextCoupleId)
      ensures UsersGrow(old(users), users)
      ensures old(WorkflowInvariant(users, couples)) ==> WorkflowInvariant(users, couples)
      // the password check comes first
      ensures !PasswordGiven(p.password) ==>
                r == RegisterFailed(PasswordRequired) && users == old(users) && nextUserId == old(nextUserId)
      // a second partner needs a pending couple holding the token
      ensures PasswordGiven(p.password) && !IsTrue(p.isFirstPartner)
              && FindPendingCouple(old(couples), p.invitationToken).None? ==>
                r == InvitationRejected && users == old(users) && nextUserId == old(nextUserId)
      // otherwise the row is inserted if the table accepts it; the mail is sent after the commit
      ensures PasswordGiven(p.password) ==>
                var found := FindPendingCouple(old(couples), p.invitationToken);
                (IsTrue(p.isFirstPartner) || found.Some?) ==>
                  var coupleId := if IsTrue(p.isFirstPartner) then None else Some(old(couples)[found.value].id);
                  var row := UserRow(p, old(nextUserId), passwordHash, coupleId, verificationToken,
                                     now + OneYearMs, userCreatedAtDefault);
                  if row.Some? && UserInsertAccepted(old(users), old(couples), row.value) then
                    && users == old(users) + [row.value] && nextUserId == old(nextUserId) + 1
                    && r == (if emailSent then Registered(row.value.id) else RegisterFailed(VerificationEmailFailed))
                  else
                    users == old(users) && nextUserId == old(nextUserId) && r == RegisterFailed(InsertRejected)
    {
      if !PasswordGiven(p.password) {
        return RegisterFailed(PasswordRequired);
      }
      var expiresAt := now + OneYearMs;

      var coupleId: Option<nat> := None;
      if !IsTrue(p.isFirstPartner) {
        var found := FindPendingCouple(couples, p.invitationToken);
        if found.None? {
          return InvitationRejected;
        }
        coupleId := Some(couples[found.value].id);
      }

      var row := UserRow(p, nextUserId, passwordHash, coupleId, verificationToken, expiresAt, userCreatedAtDefault);
      if row.None? {
        // a NOT NULL column would be NULL: the insert throws and the transaction rolls back
        return RegisterFailed(InsertRejected);
      }
      r := InsertAndNotify(row.value, emailSent);
    }

    /**
     * The insert transaction of registerUser followed, once it has
     * committed, by the verification mail: a failed mail still leaves the
     * new row in place.
     */
    method InsertAndNotify(row: User, emailSent: bool) returns (r: RegisterResponse)
      requires Valid() && row.id == nextUserId
      requires !row.verified && row.verificationExpiresAt.Some?
      requires row.verificationToken.Some? && IsVerificationToken(row.verificationToken.value)
      requires row.isFirstPartner <==> row.coupleId.None?
      modifies this
      ensures Valid()
      ensures couples == old(couples) && nextCoupleId == old(nextCoupleId)
      ensures UsersGrow(old(users), users)
      ensures old(WorkflowInvariant(users, couples)) ==> WorkflowInvariant(users, couples)
      ensures if UserInsertAccepted(old(users), old(couples), row) then
                && users == old(users) + [row] && nextUserId == old(nextUserId) + 1
                && r == (if emailSent then Registered(row.id) else RegisterFailed(VerificationEmailFailed))
              else
                users == old(users) && nextUserId == old(nextUserId) && r == RegisterFailed(InsertRejected)
    {
      if !UserInsertAccepted(users, couples, row) {
        return RegisterFailed(InsertRejected);
      }
      InsertUserKeepsSchema(users, couples, nextUserId, nextCoupleId, row);
      InsertUserKeepsWorkflow(users, couples, row);
      users := users + [row];
      var insertedId := nextUserId;
      nextUserId := nextUserId + 1;

      // the verification mail, after the commit
      if !emailSent {
        return RegisterFailed(VerificationEmailFailed);
      }
      return Registered(insertedId);
    }

    /**
     * verifyUser, one transaction: check the user and the token, mark the
     * user verified, then either create the first partner's pending couple
     * (and mail its code) or confirm the second partner's couple. Any failure
     * leaves both tables as they were.
     */
    method VerifyUser(userId: int, token: Option<string>, now: int, invitationCode: nat, emailSent: bool)
      returns (r: VerifyResponse)
      requires Valid()
      requires IsInvitationCode(invitationCode)
      modifies this
      ensures Valid()
      ensures nextUserId == old(nextUserId)
      ensures UsersGrow(old(users), users) && CouplesGrow(old(couples), couples)
      ensures old(WorkflowInvariant(users, couples)) ==> WorkflowInvariant(users, couples)
      // all or nothing
      ensures r.VerifyFailed? ==>
                users == old(users) && couples == old(couples) && nextCoupleId == old(nextCoupleId)
      // the four guards, in order
      ensures var f := FindUserById(old(users), userId);
              && (f.None? ==> r == VerifyFailed(UserNotFound))
              && (f.Some? ==> var u := old(users)[f.value];
                   && (u.verified ==> r == VerifyFailed(AlreadyVerified))
                   && (!u.verified && !TokenMatches(u.verificationToken, token) ==> r == VerifyFailed(InvalidToken))
                   && (!u.verified && TokenMatches(u.verificationToken, token) && Expired(u.verificationExpiresAt, now)
                       ==> r == VerifyFailed(TokenExpired)))
      // past the guards
      ensures var f := FindUserById(old(users), userId);
              (f.Some? && !old(users)[f.value].verified && TokenMatches(old(users)[f.value].verificationToken, token)
               && !Expired(old(users)[f.value].verificationExpiresAt, now)) ==>
                var i := f.value;
                var u := old(users)[i];
                if u.isFirstPartner && !Truthy(u.coupleId) then
                  var c := Couple(old(nextCoupleId), Pending, Some(DecimalString(invitationCode)), coupleCreatedAtDefault);
                  if !CoupleInsertAccepted(old(couples), c) then r == VerifyFailed(DuplicateInvitationCode)
                  else if !emailSent then r == VerifyFailed(InvitationEmailFailed)
                  else
                    && r == VerifyOk(InvitationSentPrefix + u.email)
                    && users == old(users)[i := MarkVerified(u).(coupleId := Some(c.id))]
                    && couples == old(couples) + [c]
                    && nextCoupleId == old(nextCoupleId) + 1
                else if !u.isFirstPartner && Truthy(u.coupleId) then
                  && r == VerifyOk(CoupleVerifiedMessage)
                  && users == old(users)[i := MarkVerified(u)]
                  && couples == MarkCoupleVerified(old(couples), u.coupleId.value)
                  && nextCoupleId == old(nextCoupleId)
                else
                  && r == VerifyOk(EmailVerifiedMessage)
                  && users == old(users)[i := MarkVerified(u)]
                  && couples == old(couples) && nextCoupleId == old(nextCoupleId)
    {
      var found := FindUserById(users, userId);
      if found.None? {
        return VerifyFailed(UserNotFound);
      }
      var i := found.value;
      var u := users[i];
      if u.verified {
        return VerifyFailed(AlreadyVerified);
      }
      if !TokenMatches(u.verificationToken, token) {
        return VerifyFailed(InvalidToken);
      }
      if Expired(u.verificationExpiresAt, now) {
        return VerifyFailed(TokenExpired);
      }
      if u.isFirstPartner && !Truthy(u.coupleId) {
        r := VerifyFirstPartner(i, invitationCode, emailSent);
      } else if !u.isFirstPartner && Truthy(u.coupleId) {
        r := VerifySecondPartner(i);
      } else {
        r := VerifyUnpaired(i);
      }
    }

    /**
     * The transaction past the guards for a first partner without a couple:
     * mark the row verified, insert a pending couple holding the invitation
     * code, re-select it, link the row to it, and mail the code. A duplicate
     * code or a failed mail rolls everything back.
     */
    method VerifyFirstPartner(i: nat, invitationCode: nat, emailSent: bool) returns (r: VerifyResponse)
      requires Valid() && i < |users| && users[i].isFirstPartner && !Truthy(users[i].coupleId)
      modifies this
      ensures Valid()
      ensures nextUserId == old(nextUserId)
      ensures UsersGrow(old(users), users) && CouplesGrow(old(couples), couples)
      ensures old(WorkflowInvariant(users, couples)) ==> WorkflowInvariant(users, couples)
      ensures r.VerifyFailed? ==>
                users == old(users) && couples == old(couples) && nextCoupleId == old(nextCoupleId)
      ensures var c := Couple(old(nextCoupleId), Pending, Some(DecimalString(invitationCode)), coupleCreatedAtDefault);
              if !CoupleInsertAccepted(old(couples), c) then r == VerifyFailed(DuplicateInvitationCode)
              else if !emailSent then r == VerifyFailed(InvitationEmailFailed)
              else
                && r == VerifyOk(InvitationSentPrefix + old(users)[i].email)
                && users == old(users)[i := MarkVerified(old(users)[i]).(coupleId := Some(c.id))]
                && couples == old(couples) + [c]
                && nextCoupleId == old(nextCoupleId) + 1
    {
      var couple := Couple(nextCoupleId, Pending, Some(DecimalString(invitationCode)), coupleCreatedAtDefault);
      if !CoupleInsertAccepted(couples, couple) {
        // the insert throws; the transaction rolls back the verified flag with it
        return VerifyFailed(DuplicateInvitationCode);
      }
      var savedUsers, savedCouples, savedNextCoupleId := users, couples, nextCoupleId;
      InsertCoupleAndLink(i, couple);
      if !emailSent {
        // the invitation mail is sent inside the transaction: its failure rolls everything back
        users, couples, nextCoupleId := savedUsers, savedCouples, savedNextCoupleId;
        return VerifyFailed(InvitationEmailFailed);
      }
      return VerifyOk(InvitationSentPrefix + users[i].email);
    }

    /**
     * The writes of a first partner's verification: mark the row verified,
     * insert the pending couple, re-select it by its code, and link the row to it.
     */
    method InsertCoupleAndLink(i: nat, couple: Couple)
      requires Valid() && i < |users| && users[i].isFirstPartner && !Truthy(users[i].coupleId)
      requires CoupleInsertAccepted(couples, couple) && couple.id == nextCoupleId
      requires couple.status == Pending && couple.invitationToken.Some?
      modifies this
      ensures Valid()
      ensures nextUserId == old(nextUserId) && nextCoupleId == old(nextCoupleId) + 1
      ensures UsersGrow(old(users), users) && CouplesGrow(old(couples), couples)
      ensures old(WorkflowInvariant(users, couples)) ==> WorkflowInvariant(users, couples)
      ensures users == old(users)[i := MarkVerified(old(users)[i]).(coupleId := Some(couple.id))]
      ensures couples == old(couples) + [couple]
    {
      var u := users[i];
      var txUsers := users[i := MarkVerified(u)];
      var txCouples := couples + [couple];
      var newCoupleId := ReselectInsertedCouple(couples, couple);
      txUsers := txUsers[i := txUsers[i].(coupleId := Some(newCoupleId))];
      SecondWriteWins(users, i, MarkVerified(u), MarkVerified(u).(coupleId := Some(nextCoupleId)));
      FirstPartnerVerificationKeepsTables(users, couples, nextUserId, nextCoupleId, i, couple);
      users, couples, nextCoupleId := txUsers, txCouples, nextCoupleId + 1;
    }

    /**
     * The transaction past the guards for a second partner with a couple:
     * mark the row verified and the couple verified.
     */
    method VerifySecondPartner(i: nat) returns (r: VerifyResponse)
      requires Valid() && i < |users| && !users[i].isFirstPartner && Truthy(users[i].coupleId)
      modifies this
      ensures Valid()
      ensures nextUserId == old(nextUserId) && nextCoupleId == old(nextCoupleId)
      ensures UsersGrow(old(users), users) && CouplesGrow(old(couples), couples)
      ensures old(WorkflowInvariant(users, couples)) ==> WorkflowInvariant(users, couples)
      ensures r == VerifyOk(CoupleVerifiedMessage)
      ensures users == old(users)[i := MarkVerified(old(users)[i])]
      ensures couples == MarkCoupleVerified(old(couples), old(users)[i].coupleId.value)
    {
      var u := users[i];
      var txUsers := users[i := MarkVerified(u)];
      var cid := u.coupleId.value;
      ReferencedCoupleIsOld(users, couples, nextUserId, nextCoupleId, i);
      ghost var rowsAffected := CountCouplesWithId(couples, cid);
      LinkedCoupleIsOneRow(couples, nextCoupleId, cid);
      var txCouples := MarkCoupleVerified(couples, cid);
      ConfirmCoupleKeepsSchema(users, couples, nextUserId, nextCoupleId, i, cid);
      SecondPartnerConfirmKeepsWorkflow(users, couples, i);
      MarkCoupleVerifiedGrows(couples, cid);
      VerifiedRowGrows(users, i, MarkVerified(u));
      users, couples := txUsers, txCouples;
      return VerifyOk(CoupleVerifiedMessage);
    }

    /** The transaction past the guards for any other user: only the row is marked verified. */
    method VerifyUnpaired(i: nat) returns (r: VerifyResponse)
      requires Valid() && i < |users| && !users[i].verified
      requires users[i].isFirstPartner == Truthy(users[i].coupleId)
      modifies this
      ensures Valid()
      ensures nextUserId == old(nextUserId) && nextCoupleId == old(nextCoupleId) && couples == old(couples)
      ensures UsersGrow(old(users), users)
      ensures old(WorkflowInvariant(users, couples)) ==> WorkflowInvariant(users, couples)
      ensures r == VerifyOk(EmailVerifiedMessage)
      ensures users == old(users)[i := MarkVerified(old(users)[i])]
    {
      MarkVerifiedKeepsSchema(users, couples, nextUserId, nextCoupleId, i);
      DefaultBranchUnreachable(users, couples, nextUserId, nextCoupleId, i);
      VerifiedRowGrows(users, i, MarkVerified(users[i]));
      users := users[i := MarkVerified(users[i])];
      return VerifyOk(EmailVerifiedMessage);
    }
  }
}
