/**
 * The bean-validation constraints of the two account request bodies, as predicates. The e-mail
 * shape test of Hibernate's @Email is left abstract: it is the `shaped` parameter, which is
 * only consulted on a non-empty string because @Email accepts null and "".
 */
module AccountRequests {
  import opened Wrappers
  import opened Dates
  import opened JavaStrings

  /** The body of POST /api/auth/signup. A missing date of birth is `None`. */
  datatype SignupRequest = SignupRequest(
    username: string,
    email: string,
    password: string,
    dateOfBirth: Option<LocalDate>)

  /** The body of PUT /api/users/profile: only e-mail and date of birth can be sent. */
  datatype ProfileUpdateRequest = ProfileUpdateRequest(
    email: Option<string>,
    dateOfBirth: Option<LocalDate>)

  /** @NotBlank: rejects a string made only of characters at or below U+0020 (the trim rule). */
  predicate NotBlank(s: string) {
    !IsBlank(s)
  }

  /** @Email: the empty string passes; anything else must have the e-mail shape. */
  predicate EmailOk(s: string, shaped: string -> bool) {
    |s| == 0 || shaped(s)
  }

  /** @Past: strictly before today. */
  predicate Past(d: LocalDate, today: LocalDate) {
    Before(d, today)
  }

  /** @Size: the length in UTF-16 code units lies between the bounds. */
  predicate SizeWithin(s: string, min: nat, max: nat) {
    min <= Utf16Length(s) <= max
  }

  /** The constraints on SignupRequest, field by field. */
  predicate ValidSignup(req: SignupRequest, today: LocalDate, shaped: string -> bool) {
    && NotBlank(req.username) && SizeWithin(req.username, 3, 20)
    && NotBlank(req.email) && SizeWithin(req.email, 0, 50) && EmailOk(req.email, shaped)
    && NotBlank(req.password) && SizeWithin(req.password, 6, 40)
    && req.dateOfBirth.Some? && Past(req.dateOfBirth.value, today)
  }

  /**
   * The length bounds count code units: a username of twenty characters, one of them outside
   * the Basic Multilingual Plane, is one unit too long, whatever the other fields are.
   */
  lemma SupplementaryUsernameTooLong(req: SignupRequest, today: LocalDate, shaped: string -> bool)
    requires |req.username| == 20 && (req.username[0] as int) >= 0x1_0000
    ensures !ValidSignup(req, today, shaped)
  {
    assert req.username == [req.username[0]] + req.username[1..];
    Utf16LengthConcat([req.username[0]], req.username[1..]);
    assert Utf16Length([req.username[0]]) == 2 by {
      assert [req.username[0]][..0] == [];
    }
  }

  /** The constraints on UserProfileUpdateRequest: each field is checked only when present. */
  predicate ValidProfileUpdate(req: ProfileUpdateRequest, today: LocalDate, shaped: string -> bool) {
    && (req.email.Some? ==> EmailOk(req.email.value, shaped))
    && (req.dateOfBirth.Some? ==> Past(req.dateOfBirth.value, today))
  }

  /**
   * A valid signup request names a date of birth that is not after today, so the age
   * computed from it is a whole, non-negative number of years.
   */
  lemma ValidSignupHasAge(req: SignupRequest, today: LocalDate, shaped: string -> bool)
    requires ValidSignup(req, today, shaped)
    ensures req.dateOfBirth.Some? && !Before(today, req.dateOfBirth.value)
    ensures PeriodYears(req.dateOfBirth.value, today) == WholeYears(req.dateOfBirth.value, today) >= 0
  {
    PeriodYearsIsWholeYears(req.dateOfBirth.value, today);
  }
}
