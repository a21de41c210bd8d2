/**
 * The two tables of the pairing core, `users` and `couples`, as declared by
 * server/database/schema/users.js and server/database/schema/couples.js:
 * column types, enums, nullability, defaults, and the constraints MySQL
 * enforces on every insert (auto-increment keys, unique email, unique
 * invitation token, the couple_id foreign key, varchar lengths).
 * It also holds the row lookups ("select ... where ... limit 1") and the
 * row-affected count the two services rely on.
 */
module Schema {
  import opened Wrappers

  datatype Role = Girlfriend | Boyfriend
  datatype Gender = Male | Female | Other
  datatype CoupleStatus = Pending | Verified

  // varchar widths of the columns
  const MaxEmailLength: nat := 100
  const MaxFirstNameLength: nat := 50
  const MaxVarcharLength: nat := 255

  // column defaults
  const DefaultIsFirstPartner: bool := false

  /** A row of `users`. Times are milliseconds since the epoch. */
  datatype User = User(
    id: nat,
    coupleId: Option<nat>,
    isFirstPartner: bool,
    role: Role,
    email: string,
    passwordHash: string,
    firstName: string,
    dateOfBirth: Option<string>,
    gender: Option<Gender>,
    profilePic: Option<string>,
    verificationToken: Option<string>,
    verificationExpiresAt: Option<int>,
    verified: bool,
    createdAt: int)

  /** A row of `couples`. */
  datatype Couple = Couple(
    id: nat,
    status: CoupleStatus,
    invitationToken: Option<string>,
    createdAt: int)

  /** JavaScript truthiness of a nullable integer column: null and 0 are both false. */
  predicate Truthy(c: Option<nat>) {
    c.Some? && c.value != 0
  }

  // ---------------------------------------------------------------------
  // Lookups: "select ... where P ... limit 1" yields the first row, in key
  // order, that satisfies P.

  /** The index of the first element of `s` satisfying `p`, if any. */
  function FirstMatch<T>(s: seq<T>, p: T -> bool): (r: Option<nat>)
    ensures r.Some? ==> r.value < |s| && p(s[r.value])
    ensures r.Some? ==> forall k :: 0 <= k < r.value ==> !p(s[k])
    ensures r.None? <==> forall k :: 0 <= k < |s| ==> !p(s[k])
  {
    if s == [] then None
    else if p(s[0]) then Some(0)
    else match FirstMatch(s[1..], p)
      case None => None
      case Some(k) => Some(k + 1)
  }

  function FindUserById(us: seq<User>, id: int): (r: Option<nat>)
    ensures r.Some? ==> r.value < |us| && us[r.value].id == id
    ensures r.Some? ==> forall k :: 0 <= k < r.value ==> us[k].id != id
    ensures r.None? <==> forall k :: 0 <= k < |us| ==> us[k].id != id
  {
    FirstMatch(us, (u: User) => u.id == id)
  }

  function FindUserByEmail(us: seq<User>, email: string): (r: Option<nat>)
    ensures r.Some? ==> r.value < |us| && us[r.value].email == email
    ensures r.Some? ==> forall k :: 0 <= k < r.value ==> us[k].email != email
    ensures r.None? <==> forall k :: 0 <= k < |us| ==> us[k].email != email
  {
    FirstMatch(us, (u: User) => u.email == email)
  }

  /**
   * "where invitation_token = t and verification_status = 'pending'".
   * An absent token compares as SQL NULL, which equals nothing.
   */
  function FindPendingCouple(cs: seq<Couple>, token: Option<string>): (r: Option<nat>)
    ensures r.Some? ==> r.value < |cs| && token.Some? && cs[r.value].invitationToken == token
                        && cs[r.value].status == Pending
    ensures r.Some? ==> forall k :: 0 <= k < r.value ==>
                          cs[k].invitationToken != token || cs[k].status != Pending
    ensures r.None? <==> forall k :: 0 <= k < |cs| ==>
                           token.None? || cs[k].invitationToken != token || cs[k].status != Pending
  {
    FirstMatch(cs, (c: Couple) => token.Some? && c.invitationToken == token && c.status == Pending)
  }

  /** "where couple_id = cid and id <> self": another member of the same couple. */
  function FindPartner(us: seq<User>, cid: nat, self: nat): (r: Option<nat>)
    ensures r.Some? ==> r.value < |us| && us[r.value].coupleId == Some(cid) && us[r.value].id != self
    ensures r.Some? ==> forall k :: 0 <= k < r.value ==> us[k].coupleId != Some(cid) || us[k].id == self
    ensures r.None? <==> forall k :: 0 <= k < |us| ==> us[k].coupleId != Some(cid) || us[k].id == self
  {
    FirstMatch(us, (u: User) => u.coupleId == Some(cid) && u.id != self)
  }

  /** The ids present in `couples`: what the couple_id foreign key may reference. */
  function CoupleIds(cs: seq<Couple>): (ids: set<nat>)
    ensures forall k :: 0 <= k < |cs| ==> cs[k].id in ids
    ensures forall id :: id in ids ==> exists k :: 0 <= k < |cs| && cs[k].id == id
  {
    set c | c in cs :: c.id
  }

  /** The number of couples an "update couples ... where id = cid" touches. */
  function CountCouplesWithId(cs: seq<Couple>, cid: nat): (n: nat)
    ensures n <= |cs|
    ensures n == 0 <==> cid !in CoupleIds(cs)
  {
    if cs == [] then 0
    else (if cs[0].id == cid then 1 else 0) + CountCouplesWithId(cs[1..], cid)
  }

  /** "update couples set verification_status = 'verified' where id = cid". */
  function MarkCoupleVerified(cs: seq<Couple>, cid: nat): (r: seq<Couple>)
    ensures |r| == |cs|
    ensures forall k :: 0 <= k < |cs| ==>
              r[k] == if cs[k].id == cid then cs[k].(status := Verified) else cs[k]
  {
    seq(|cs|, k requires 0 <= k < |cs| => if cs[k].id == cid then cs[k].(status := Verified) else cs[k])
  }

  // ---------------------------------------------------------------------
  // What MySQL enforces.

  /** `id int primary key autoincrement`: positive, increasing in row order, below the next value. */
  ghost predicate AutoIncrementUsers(us: seq<User>, nextId: nat) {
    && nextId >= 1
    && (forall k :: 0 <= k < |us| ==> 1 <= us[k].id < nextId)
    && (forall i, j :: 0 <= i < j < |us| ==> us[i].id < us[j].id)
  }

  ghost predicate AutoIncrementCouples(cs: seq<Couple>, nextId: nat) {
    && nextId >= 1
    && (forall k :: 0 <= k < |cs| ==> 1 <= cs[k].id < nextId)
    && (forall i, j :: 0 <= i < j < |cs| ==> cs[i].id < cs[j].id)
  }

  /** `email varchar(100) unique not null`. */
  ghost predicate EmailsUnique(us: seq<User>) {
    forall i, j :: 0 <= i < j < |us| ==> us[i].email != us[j].email
  }

  /** `invitation_token varchar(255) unique`: among ALL couples, whatever their status. */
  ghost predicate InvitationTokensUnique(cs: seq<Couple>) {
    forall i, j :: 0 <= i < j < |cs| && cs[i].invitationToken.Some? ==>
      cs[i].invitationToken != cs[j].invitationToken
  }

  /** `couple_id int references couples.id`. */
  ghost predicate CoupleRefsValid(us: seq<User>, cs: seq<Couple>) {
    forall k :: 0 <= k < |us| && us[k].coupleId.Some? ==> us[k].coupleId.value in CoupleIds(cs)
  }

  predicate UserFitsColumns(u: User) {
    && |u.email| <= MaxEmailLength
    && |u.firstName| <= MaxFirstNameLength
    && |u.passwordHash| <= MaxVarcharLength
    && (u.profilePic.Some? ==> |u.profilePic.value| <= MaxVarcharLength)
    && (u.verificationToken.Some? ==> |u.verificationToken.value| <= MaxVarcharLength)
  }

  predicate CoupleFitsColumns(c: Couple) {
    c.invitationToken.Some? ==> |c.invitationToken.value| <= MaxVarcharLength
  }

  /** Every constraint the database holds both tables to. */
  ghost predicate SchemaValid(us: seq<User>, cs: seq<Couple>, nextUserId: nat, nextCoupleId: nat) {
    && AutoIncrementUsers(us, nextUserId)
    && AutoIncrementCouples(cs, nextCoupleId)
    && EmailsUnique(us)
    && InvitationTokensUnique(cs)
    && CoupleRefsValid(us, cs)
    && (forall k :: 0 <= k < |us| ==> UserFitsColumns(us[k]))
    && (forall k :: 0 <= k < |cs| ==> CoupleFitsColumns(cs[k]))
  }

  /** Whether MySQL accepts appending `u` to `users` (the id is the table's next auto-increment value). */
  predicate UserInsertAccepted(us: seq<User>, cs: seq<Couple>, u: User) {
    && UserFitsColumns(u)
    && FindUserByEmail(us, u.email).None?
    && (u.coupleId.Some? ==> u.coupleId.value in CoupleIds(cs))
  }

  /** Whether MySQL accepts appending `c` to `couples`: the token must not be held by any couple. */
  predicate CoupleInsertAccepted(cs: seq<Couple>, c: Couple) {
    && CoupleFitsColumns(c)
    && (c.invitationToken.Some? ==> forall k :: 0 <= k < |cs| ==> cs[k].invitationToken != c.invitationToken)
  }
}
