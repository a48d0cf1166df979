/** The profile view of a user, with the age and adulthood derived from the date of birth. */
module Profile {
  import opened Wrappers
  import opened Dates
  import opened Model

  /** Adulthood threshold, in whole years. */
  const AdultAge := 18

  datatype ProfileResponse = ProfileResponse(
    id: UserId,
    username: string,
    email: string,
    dateOfBirth: Option<LocalDate>,
    age: Option<int>,
    isAdult: bool,
    createdAt: Instant,
    updatedAt: Instant,
    roles: set<string>)

  /** The UserProfileResponse constructor, evaluated on `today`. */
  function ToProfileResponse(u: User, today: LocalDate): (r: ProfileResponse)
    ensures r.id == u.id && r.username == u.username && r.email == u.email
    ensures r.dateOfBirth == u.dateOfBirth && r.roles == u.roles
    ensures r.createdAt == u.createdAt && r.updatedAt == u.updatedAt
    ensures r.isAdult <==> r.age.Some? && r.age.value >= AdultAge
    ensures u.dateOfBirth.None? ==> r.age.None? && !r.isAdult
    ensures u.dateOfBirth.Some? ==> r.age.Some?
    ensures u.dateOfBirth.Some? && !Before(today, u.dateOfBirth.value) ==>
      r.age == Some(WholeYears(u.dateOfBirth.value, today))
  {
    var age := match u.dateOfBirth
      case Some(d) =>
        if Before(today, d) then Some(PeriodYears(d, today))
        else (PeriodYearsIsWholeYears(d, today); Some(PeriodYears(d, today)))
      case None => None;
    ProfileResponse(u.id, u.username, u.email, u.dateOfBirth, age,
      age.Some? && age.value >= AdultAge, u.createdAt, u.updatedAt, u.roles)
  }
}
