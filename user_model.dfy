/** A store account (server/models/User.js): store name, proprietor, email,
    phone, address and password, each required, with the schema's setters
    (`trim`, `lowercase`), length limits, the email and phone patterns, the
    `role` enum with its default, and the unique indexes on email and phone. */
module UserModel {
  import opened Wrappers
  import opened Text
  import CustomerModel

  datatype Role = UserRole | AdminRole

  /** The `role` enum: `None` is a string outside it. */
  function ParseRole(s: string): (r: Option<Role>)
    ensures r == Some(UserRole) <==> s == "user"
    ensures r == Some(AdminRole) <==> s == "admin"
  {
    if s == "user" then Some(UserRole) else if s == "admin" then Some(AdminRole) else None
  }

  function RoleName(r: Role): string {
    match r
    case UserRole => "user"
    case AdminRole => "admin"
  }

  lemma RoleRoundTrip(r: Role)
    ensures ParseRole(RoleName(r)) == Some(r)
  {
  }

  datatype User = User(
    id: ObjectId,
    storeName: string,
    proprietor: string,
    email: string,
    phone: string,
    address: string,
    password: string,
    role: Role,
    createdAt: Millis,
    updatedAt: Millis)

  /** A match of `\S+@\S+\.\S+` with its `@` at `p` and its `.` at `q`:
      non-space characters before the `@`, between the two and after the `.`. */
  predicate EmailAt(s: string, p: nat, q: nat)
    requires 0 < p < q < |s| - 1
  {
    && s[p] == '@' && s[q] == '.' && p + 1 < q
    && !IsSpace(s[p - 1]) && !IsSpace(s[q + 1])
    && (forall k | p < k < q :: !IsSpace(s[k]))
  }

  /** The unanchored pattern `/\S+@\S+\.\S+/`: it matches somewhere in the string. */
  predicate EmailPattern(s: string) {
    exists p: nat, q: nat | 0 < p < q < |s| - 1 :: EmailAt(s, p, q)
  }

  /** The pattern is not anchored: whatever surrounds a match, spaces
      included, still matches. */
  lemma EmailPatternUnanchored(x: string, s: string, y: string)
    requires EmailPattern(s)
    ensures EmailPattern(x + s + y)
  {
    var p: nat, q: nat :| 0 < p < q < |s| - 1 && EmailAt(s, p, q);
    var t := x + s + y;
    assert forall k | 0 <= k < |s| :: t[|x| + k] == s[k];
    forall k | |x| + p < k < |x| + q
      ensures !IsSpace(t[k])
    {
      assert t[k] == s[k - |x|];
    }
    assert EmailAt(t, |x| + p, |x| + q);
  }

  lemma EmailPatternExamples()
    ensures EmailPattern("a@b.c")
    ensures !EmailPattern("a@b")
    ensures !EmailPattern("@b.c")
  {
    var s := "a@b.c";
    assert s[1] == '@' && s[3] == '.' && !IsSpace(s[0]) && !IsSpace(s[2]) && !IsSpace(s[4]);
    assert EmailAt(s, 1, 3);
  }

  /** A required string of at least `n` characters after `trim`. */
  predicate TrimmedAtLeast(f: Option<string>, n: nat) {
    f.Some? && |Trim(f.value)| >= n && |Trim(f.value)| > 0
  }

  /** What the schema guarantees of every stored account. */
  predicate Valid(u: User) {
    && |u.storeName| >= 2 && Trim(u.storeName) == u.storeName
    && |u.proprietor| >= 2 && Trim(u.proprietor) == u.proprietor
    && u.email != [] && Trim(u.email) == u.email && ToLower(u.email) == u.email && EmailPattern(u.email)
    && Trim(u.phone) == u.phone && CustomerModel.IsPhone(u.phone)
    && |u.address| >= 5 && Trim(u.address) == u.address
    && |u.password| >= 6
  }

  /** The fields of `new User({...})`; `None` is a field that is absent. */
  datatype UserDraft = UserDraft(
    storeName: Option<string>,
    proprietor: Option<string>,
    email: Option<string>,
    phone: Option<string>,
    address: Option<string>,
    password: Option<string>,
    role: Option<string>)

  /** The stored email: `trim` and `lowercase` applied, in either order. */
  function NormalEmail(e: string): (r: string)
    ensures r == Trim(ToLower(e))
    ensures Trim(r) == r && ToLower(r) == r
  {
    NormalEmailSettled(e);
    ToLower(Trim(e))
  }

  lemma NormalEmailSettled(e: string)
    ensures ToLower(Trim(e)) == Trim(ToLower(e))
    ensures Trim(ToLower(Trim(e))) == ToLower(Trim(e))
    ensures ToLower(ToLower(Trim(e))) == ToLower(Trim(e))
  {
    LowerTrimCommute(e);
    LowerTrimCommute(Trim(e));
    TrimIdempotent(e);
    LowerIdempotent(Trim(e));
  }

  /** The schema's rules on the fields of a new account, after the setters. */
  predicate DraftValid(d: UserDraft) {
    && TrimmedAtLeast(d.storeName, 2)
    && TrimmedAtLeast(d.proprietor, 2)
    && d.email.Some? && NormalEmail(d.email.value) != [] && EmailPattern(NormalEmail(d.email.value))
    && d.phone.Some? && CustomerModel.IsPhone(Trim(d.phone.value))
    && TrimmedAtLeast(d.address, 5)
    && d.password.Some? && |d.password.value| >= 6
    && (d.role.None? || ParseRole(d.role.value).Some?)
  }

  /** The document the setters and the `role` default make of a complete draft. */
  function Build(d: UserDraft, id: ObjectId, now: Millis): User
    requires DraftValid(d)
  {
    User(id, Trim(d.storeName.value), Trim(d.proprietor.value), NormalEmail(d.email.value),
         Trim(d.phone.value), Trim(d.address.value), d.password.value,
         if d.role.None? then UserRole else ParseRole(d.role.value).value, now, now)
  }

  lemma BuildValid(d: UserDraft, id: ObjectId, now: Millis)
    requires DraftValid(d)
    ensures Valid(Build(d, id, now))
  {
    TrimIdempotent(d.storeName.value);
    TrimIdempotent(d.proprietor.value);
    TrimIdempotent(d.phone.value);
    TrimIdempotent(d.address.value);
  }

  /** Setters, defaults, validation and the first save of a new account at
      time `now`; `None` is a validation error. */
  function Create(d: UserDraft, id: ObjectId, now: Millis): (r: Option<User>)
    ensures r.Some? <==> DraftValid(d)
    ensures r.Some? ==> Valid(r.value)
    ensures r.Some? ==>
      && r.value.id == id
      && r.value.storeName == Trim(d.storeName.value)
      && r.value.proprietor == Trim(d.proprietor.value)
      && r.value.email == Trim(ToLower(d.email.value))
      && r.value.phone == Trim(d.phone.value)
      && r.value.address == Trim(d.address.value)
      && r.value.password == d.password.value
      && r.value.role == (if d.role.None? then UserRole else ParseRole(d.role.value).value)
      && r.value.createdAt == now && r.value.updatedAt == now
  {
    if DraftValid(d) then
      BuildValid(d, id, now);
      Some(Build(d, id, now))
    else None
  }

  /** Registering the fields of a valid account reproduces it, stamped with
      the time of creation. */
  lemma CreateRoundTrip(u: User, now: Millis)
    requires Valid(u)
    ensures Create(DraftOf(u), u.id, now) == Some(u.(createdAt := now, updatedAt := now))
  {
    NormalEmailSettled(u.email);
    RoleRoundTrip(u.role);
  }

  function DraftOf(u: User): UserDraft {
    UserDraft(Some(u.storeName), Some(u.proprietor), Some(u.email), Some(u.phone), Some(u.address),
              Some(u.password), Some(RoleName(u.role)))
  }

  /** The unique indexes on `email` and `phone`. */
  predicate Unique(users: seq<User>) {
    forall i, j | 0 <= i < j < |users| :: users[i].email != users[j].email && users[i].phone != users[j].phone
  }

  /** Two submitted emails that differ only in letter case or surrounding
      blanks are stored as the same email, so the unique index lets only one
      of them be registered. */
  lemma EmailUniqueUpToCaseAndBlanks(d1: UserDraft, d2: UserDraft, id1: ObjectId, id2: ObjectId, now1: Millis, now2: Millis)
    requires Create(d1, id1, now1).Some? && Create(d2, id2, now2).Some?
    requires ToLower(Trim(d1.email.value)) == ToLower(Trim(d2.email.value))
    ensures !Unique([Create(d1, id1, now1).value, Create(d2, id2, now2).value])
  {
    var u1 := Create(d1, id1, now1).value;
    var u2 := Create(d2, id2, now2).value;
    NormalEmailSettled(d1.email.value);
    NormalEmailSettled(d2.email.value);
    assert u1.email == u2.email;
    var us := [u1, u2];
    assert us[0].email == us[1].email;
  }
}
