/**
 * The account rules of the user service: registration, age and adulthood, profile updates,
 * role replacement and deletion, plus the signup endpoint that validates the body first.
 * The current principal, today's date, the clock and the password encoder are parameters.
 */
module UserService {
  import opened Wrappers
  import opened Dates
  import opened Model
  import opened AccountRequests
  import opened Profile

  /** Youngest age, in whole years, at which an account can be created. */
  const MinimumAge := 13

  /** calculateAge: the Period.between year count, or an error for a missing date of birth. */
  function CalculateAge(dob: Option<LocalDate>, today: LocalDate): (r: Result<int, Exn>)
    ensures dob.None? <==> r.Err?
    ensures dob.None? ==> r.error == IllegalArgument("Date of birth cannot be null for age calculation.")
    ensures dob.Some? && !Before(today, dob.value) ==> r == Ok(WholeYears(dob.value, today))
  {
    match dob
    case None => Err(IllegalArgument("Date of birth cannot be null for age calculation."))
    case Some(d) =>
      if Before(today, d) then Ok(PeriodYears(d, today))
      else (PeriodYearsIsWholeYears(d, today); Ok(PeriodYears(d, today)))
  }

  /** The age check lets a user in on their thirteenth birthday. */
  lemma ThirteenOnBirthday(dob: LocalDate, today: LocalDate)
    requires today.month == dob.month && today.day == dob.day && today.year == dob.year + MinimumAge
    ensures CalculateAge(Some(dob), today) == Ok(MinimumAge)
  {
    AgeOnBirthday(dob, today);
  }

  /** ... and keeps them out the day before it. */
  lemma TwelveTheDayBefore(dob: LocalDate, today: LocalDate)
    requires today.month == dob.month && today.day + 1 == dob.day && today.year == dob.year + MinimumAge
    ensures CalculateAge(Some(dob), today) == Ok(MinimumAge - 1)
  {
    AgeDayBeforeBirthday(dob, today);
  }

  /** isUserAdult: unknown id is an error, no date of birth means not adult, otherwise age >= 18. */
  function IsUserAdult(users: map<UserId, User>, id: UserId, today: LocalDate): (r: Result<bool, Exn>)
    ensures id !in users <==> r.Err?
    ensures id !in users ==> r.error == RuntimeError("User not found with id: " + id)
    ensures id in users && users[id].dateOfBirth.None? ==> r == Ok(false)
    ensures id in users && users[id].dateOfBirth.Some? && !Before(today, users[id].dateOfBirth.value) ==>
      r == Ok(WholeYears(users[id].dateOfBirth.value, today) >= AdultAge)
  {
    if id !in users then Err(RuntimeError("User not found with id: " + id))
    else match users[id].dateOfBirth
      case None => Ok(false)
      case Some(_) => Ok(CalculateAge(users[id].dateOfBirth, today).value >= AdultAge)
  }

  /** The profile view and isUserAdult agree on every stored user. */
  lemma ProfileAgreesWithIsUserAdult(users: map<UserId, User>, id: UserId, today: LocalDate)
    requires id in users
    ensures IsUserAdult(users, id, today) == Ok(ToProfileResponse(users[id], today).isAdult)
  {
    var u := users[id];
    if u.dateOfBirth.Some? {
      assert CalculateAge(u.dateOfBirth, today) == Ok(PeriodYears(u.dateOfBirth.value, today));
    }
  }

  /** The username a principal stands for: UserDetails' username, otherwise its toString(). */
  function PrincipalName(p: Principal): string {
    match p
    case UserPrincipal(_, name) => name
    case Named(name) => name
  }

  /** getCurrentAuthenticatedUser, for the principal held by the security context. */
  function CurrentAuthenticatedUser(users: map<UserId, User>, principal: Option<Principal>): (r: Result<User, Exn>)
    requires UsersKeyed(users) && UsernamesUnique(users)
    ensures principal.None? ==> r == Err(RuntimeError("Error: No authenticated principal found."))
    ensures principal.Some? ==> (r.Ok? <==> UsernameTaken(users, PrincipalName(principal.value)))
    ensures principal.Some? && r.Err? ==>
      r.error == RuntimeError("Error: Authenticated user not found with username: " + PrincipalName(principal.value))
    ensures r.Ok? ==> (r.value.id in users && users[r.value.id] == r.value
      && r.value.username == PrincipalName(principal.value))
  {
    match principal
    case None => Err(RuntimeError("Error: No authenticated principal found."))
    case Some(p) =>
      match FindByUsername(users, PrincipalName(p))
      case Some(u) => Ok(u)
      case None => Err(RuntimeError("Error: Authenticated user not found with username: " + PrincipalName(p)))
  }

  /** getCurrentUserProfile */
  function CurrentUserProfile(users: map<UserId, User>, principal: Option<Principal>, today: LocalDate)
    : (r: Result<ProfileResponse, Exn>)
    requires UsersKeyed(users) && UsernamesUnique(users)
    ensures r.Ok? <==> CurrentAuthenticatedUser(users, principal).Ok?
    ensures r.Ok? ==> (r.value.username == PrincipalName(principal.value)
      && r.value.id in users && r.value.email == users[r.value.id].email)
  {
    match CurrentAuthenticatedUser(users, principal)
    case Ok(u) => Ok(ToProfileResponse(u, today))
    case Err(e) => Err(e)
  }

  /**
   * The field updates shared by updateCurrentUserProfile and updateUserProfile: a present e-mail
   * that differs from the current one replaces it unless another user holds it; a present
   * date of birth replaces the current one, with no minimum-age re-check.
   */
  function ApplyProfileUpdate(users: map<UserId, User>, u: User, req: ProfileUpdateRequest, now: Instant)
    : (r: Result<User, Exn>)
    ensures r.Err? <==> req.email.Some? && req.email.value != u.email && EmailTakenByOther(users, req.email.value, u.id)
    ensures r.Err? ==> r.error == RuntimeError("Error: Email is already in use by another account!")
    ensures r.Ok? ==> && r.value.id == u.id && r.value.username == u.username && r.value.password == u.password
                      && r.value.roles == u.roles && r.value.createdAt == u.createdAt && r.value.updatedAt == now
    ensures r.Ok? ==> r.value.email == (if req.email.Some? then req.email.value else u.email)
    ensures r.Ok? ==> r.value.dateOfBirth == (if req.dateOfBirth.Some? then req.dateOfBirth else u.dateOfBirth)
  {
    if req.email.Some? && req.email.value != u.email && EmailTakenByOther(users, req.email.value, u.id) then
      Err(RuntimeError("Error: Email is already in use by another account!"))
    else
      var withEmail := if req.email.Some? && req.email.value != u.email then u.(email := req.email.value) else u;
      var withDob := if req.dateOfBirth.Some? then withEmail.(dateOfBirth := req.dateOfBirth) else withEmail;
      Ok(withDob.(updatedAt := now))
  }

  /** Saving an accepted profile update keeps ids, usernames and e-mails unique. */
  lemma ProfileUpdateKeepsUnique(users: map<UserId, User>, id: UserId, req: ProfileUpdateRequest, now: Instant)
    requires UsersKeyed(users) && UsernamesUnique(users) && EmailsUnique(users)
    requires id in users && ApplyProfileUpdate(users, users[id], req, now).Ok?
    ensures var users' := users[id := ApplyProfileUpdate(users, users[id], req, now).value];
      UsersKeyed(users') && UsernamesUnique(users') && EmailsUnique(users')
  {
    var v := ApplyProfileUpdate(users, users[id], req, now).value;
    var users' := users[id := v];
    forall a, b | a in users' && b in users' && users'[a].email == users'[b].email
      ensures a == b
    {
      if a != b && (a == id || b == id) {
        var other := if a == id then b else a;
        assert users'[other] == users[other];
        if v.email != users[id].email {
          assert EmailTakenByOther(users, v.email, id);
          assert false;
        }
      }
    }
  }

  /** A request with neither field is valid, and applying it only moves the update stamp. */
  lemma EmptyProfileUpdate(users: map<UserId, User>, u: User, today: LocalDate, shaped: string -> bool, now: Instant)
    ensures ValidProfileUpdate(ProfileUpdateRequest(None, None), today, shaped)
    ensures ApplyProfileUpdate(users, u, ProfileUpdateRequest(None, None), now) == Ok(u.(updatedAt := now))
  {
  }

  /** registerUser: the three checks in order, then one new user with the default role. */
  method RegisterUser(st: Store, req: SignupRequest, today: LocalDate, now: Instant,
                      encode: string -> string, newId: UserId) returns (r: Result<User, Exn>)
    requires st.Valid() && newId !in st.users
    modifies st`users
    ensures st.Valid()
    ensures UsernameTaken(old(st.users), req.username) ==>
      r == Err(RuntimeError("Error: Username is already taken!"))
    ensures !UsernameTaken(old(st.users), req.username) && EmailTaken(old(st.users), req.email) ==>
      r == Err(RuntimeError("Error: Email is already in use!"))
    ensures !UsernameTaken(old(st.users), req.username) && !EmailTaken(old(st.users), req.email) ==>
      match CalculateAge(req.dateOfBirth, today)
      case Err(e) => r == Err(e)
      case Ok(age) => age < MinimumAge ==> r == Err(RuntimeError("You must be at least 13 years old to sign up."))
    ensures r.Ok? <==> !UsernameTaken(old(st.users), req.username) && !EmailTaken(old(st.users), req.email)
                       && CalculateAge(req.dateOfBirth, today).Ok? && CalculateAge(req.dateOfBirth, today).value >= MinimumAge
    ensures r.Err? ==> st.users == old(st.users)
    ensures r.Ok? ==> r.value == User(newId, req.username, req.email, encode(req.password), req.dateOfBirth, {"ROLE_USER"}, now, now)
    ensures r.Ok? ==> st.users == old(st.users)[newId := r.value]
  {
    if UsernameTaken(st.users, req.username) {
      return Err(RuntimeError("Error: Username is already taken!"));
    }
    if EmailTaken(st.users, req.email) {
      return Err(RuntimeError("Error: Email is already in use!"));
    }
    var age := CalculateAge(req.dateOfBirth, today);
    if age.Err? {
      return Err(age.error);
    }
    if age.value < MinimumAge {
      return Err(RuntimeError("You must be at least 13 years old to sign up."));
    }
    var user := User(newId, req.username, req.email, encode(req.password), req.dateOfBirth, {"ROLE_USER"}, now, now);
    st.users := st.users[newId := user];
    r := Ok(user);
  }

  /** updateCurrentUserProfile: the profile update applied to the caller's own account. */
  method UpdateCurrentUserProfile(st: Store, principal: Option<Principal>, req: ProfileUpdateRequest,
                                  today: LocalDate, now: Instant) returns (r: Result<ProfileResponse, Exn>)
    requires st.Valid()
    modifies st`users
    ensures st.Valid()
    ensures CurrentAuthenticatedUser(old(st.users), principal).Err? ==>
      r == Err(CurrentAuthenticatedUser(old(st.users), principal).error) && st.users == old(st.users)
    ensures CurrentAuthenticatedUser(old(st.users), principal).Ok? ==>
      var u := CurrentAuthenticatedUser(old(st.users), principal).value;
      match ApplyProfileUpdate(old(st.users), u, req, now)
      case Err(e) => r == Err(e) && st.users == old(st.users)
      case Ok(v) => r == Ok(ToProfileResponse(v, today)) && st.users == old(st.users)[u.id := v]
  {
    var cur := CurrentAuthenticatedUser(st.users, principal);
    if cur.Err? {
      return Err(cur.error);
    }
    var upd := ApplyProfileUpdate(st.users, cur.value, req, now);
    if upd.Err? {
      return Err(upd.error);
    }
    ProfileUpdateKeepsUnique(st.users, cur.value.id, req, now);
    st.users := st.users[cur.value.id := upd.value];
    r := Ok(ToProfileResponse(upd.value, today));
  }

  /** updateUserProfile: the same update applied to the account with the given id. */
  method UpdateUserProfile(st: Store, userId: UserId, req: ProfileUpdateRequest, now: Instant)
    returns (r: Result<User, Exn>)
    requires st.Valid()
    modifies st`users
    ensures st.Valid()
    ensures userId !in old(st.users) ==>
      r == Err(RuntimeError("User not found with id: " + userId)) && st.users == old(st.users)
    ensures userId in old(st.users) ==>
      match ApplyProfileUpdate(old(st.users), old(st.users)[userId], req, now)
      case Err(e) => r == Err(e) && st.users == old(st.users)
      case Ok(v) => r == Ok(v) && st.users == old(st.users)[userId := v]
  {
    if userId !in st.users {
      return Err(RuntimeError("User not found with id: " + userId));
    }
    var upd := ApplyProfileUpdate(st.users, st.users[userId], req, now);
    if upd.Err? {
      return Err(upd.error);
    }
    ProfileUpdateKeepsUnique(st.users, userId, req, now);
    st.users := st.users[userId := upd.value];
    r := Ok(upd.value);
  }

  /** hasRole('ADMIN') as checked by @PreAuthorize before the method body runs. */
  predicate HasAdminRole(authorities: set<string>) {
    "ROLE_ADMIN" in authorities
  }

  /** getAllUsers: admin only; the listing holds every stored user and nothing else. */
  function GetAllUsers(users: map<UserId, User>, callerAuthorities: set<string>): (r: Result<set<User>, Exn>)
    requires UsersKeyed(users)
    ensures r.Ok? <==> HasAdminRole(callerAuthorities)
    ensures r.Err? ==> r.error == AccessDenied("Access Denied")
    ensures r.Ok? ==> forall id :: id in users ==> users[id] in r.value
    ensures r.Ok? ==> forall u :: u in r.value ==> u.id in users && users[u.id] == u
  {
    if !HasAdminRole(callerAuthorities) then Err(AccessDenied("Access Denied"))
    else Ok(set id | id in users :: users[id])
  }

  /**
   * updateUserRoles: admin only; an unknown user is reported before the roles are looked at;
   * null or empty roles are rejected; otherwise the role set is replaced as a whole.
   */
  method UpdateUserRoles(st: Store, callerAuthorities: set<string>, userId: UserId,
                         newRoles: Option<set<string>>, now: Instant) returns (r: Result<User, Exn>)
    requires st.Valid()
    modifies st`users
    ensures st.Valid()
    ensures r.Err? ==> st.users == old(st.users)
    ensures !HasAdminRole(callerAuthorities) ==> r == Err(AccessDenied("Access Denied"))
    ensures HasAdminRole(callerAuthorities) && userId !in old(st.users) ==>
      r == Err(RuntimeError("User not found with id: " + userId))
    ensures HasAdminRole(callerAuthorities) && userId in old(st.users) && (newRoles.None? || newRoles.value == {}) ==>
      r == Err(IllegalArgument("Roles cannot be empty."))
    ensures r.Ok? <==> HasAdminRole(callerAuthorities) && userId in old(st.users) && newRoles.Some? && newRoles.value != {}
    ensures r.Ok? ==> (r.value == old(st.users)[userId].(roles := newRoles.value, updatedAt := now)
      && st.users == old(st.users)[userId := r.value])
  {
    if !HasAdminRole(callerAuthorities) {
      return Err(AccessDenied("Access Denied"));
    }
    if userId !in st.users {
      return Err(RuntimeError("User not found with id: " + userId));
    }
    if newRoles.None? || newRoles.value == {} {
      return Err(IllegalArgument("Roles cannot be empty."));
    }
    var user := st.users[userId].(roles := newRoles.value, updatedAt := now);
    st.users := st.users[userId := user];
    r := Ok(user);
  }

  /** deleteUser: no role check of its own; an unknown id is an error. */
  method DeleteUser(st: Store, userId: UserId) returns (r: Result<(), Exn>)
    requires st.Valid()
    modifies st`users
    ensures st.Valid()
    ensures userId !in old(st.users) ==> r == Err(RuntimeError("User not found with id: " + userId)) && st.users == old(st.users)
    ensures userId in old(st.users) ==> r == Ok(()) && st.users == old(st.users) - {userId}
  {
    if userId !in st.users {
      return Err(RuntimeError("User not found with id: " + userId));
    }
    st.users := st.users - {userId};
    r := Ok(());
  }

  /**
   * POST /api/auth/signup: an invalid body is answered 400 by the framework before the service
   * runs; otherwise 200 "User registered successfully!" or 400 with the service's message.
   */
  method Signup(st: Store, req: SignupRequest, today: LocalDate, now: Instant, encode: string -> string,
                shaped: string -> bool, newId: UserId) returns (resp: HttpResponse<string>)
    requires st.Valid() && newId !in st.users
    modifies st`users
    ensures st.Valid()
    ensures !ValidSignup(req, today, shaped) ==> resp == HttpResponse(400, None) && st.users == old(st.users)
    ensures resp.status == 200 ==> (resp.body == Some("User registered successfully!") && newId in st.users
      && st.users[newId].roles == {"ROLE_USER"} && st.users[newId].password == encode(req.password))
    ensures resp.status == 200 || resp.status == 400
    ensures resp.status == 400 ==> st.users == old(st.users)
  {
    if !ValidSignup(req, today, shaped) {
      return HttpResponse(400, None);
    }
    ValidSignupHasAge(req, today, shaped);
    var r := RegisterUser(st, req, today, now, encode, newId);
    match r
    case Ok(_) => resp := HttpResponse(200, Some("User registered successfully!"));
    case Err(e) => resp := HttpResponse(400, Some(e.msg));
  }
}
