/**
 * Validated value objects: `PlainPassword` (auth), `Username` (users) and the
 * `Email` they travel with. Construction either yields a value that satisfies
 * the rule or raises; the subset types carry the rule with the value.
 */
module ValueObjects {
  import opened Wrappers
  import opened Errors

  const MinPasswordLength: nat := 8
  const MinUsernameLength: nat := 3

  datatype PasswordText = PasswordText(value: string)

  /** A `PlainPassword` that passed `__post_init__`. */
  type PlainPassword = p: PasswordText | |p.value| >= MinPasswordLength
    witness PasswordText("password")

  /** `PlainPassword(value)`: raises `PasswordTooWeakException` iff the text is shorter than 8. */
  function NewPlainPassword(value: string): (r: Result<PlainPassword, Error>)
    ensures r.Success? <==> |value| >= MinPasswordLength
    ensures r.Success? ==> r.value.value == value
    ensures r.Failure? ==> r.error == PasswordTooWeak
  {
    if |value| < MinPasswordLength then Failure(PasswordTooWeak)
    else Success(PasswordText(value))
  }

  datatype UsernameText = UsernameText(value: string)

  /** A `Username` that passed `__post_init__`. */
  type Username = u: UsernameText | |u.value| >= MinUsernameLength
    witness UsernameText("abc")

  /** `Username(value)`: raises `UsernameIsTooShortException` iff the text is empty or shorter than 3. */
  function NewUsername(value: string): (r: Result<Username, Error>)
    ensures r.Success? <==> |value| >= MinUsernameLength
    ensures r.Success? ==> r.value.value == value
    ensures r.Failure? ==> r.error == UsernameIsTooShort
  {
    if value == [] || |value| < MinUsernameLength then Failure(UsernameIsTooShort)
    else Success(UsernameText(value))
  }

  /** Two constructed passwords are equal exactly when their texts are. */
  lemma PasswordEqualityIsByValue(a: string, b: string)
    requires NewPlainPassword(a).Success? && NewPlainPassword(b).Success?
    ensures NewPlainPassword(a) == NewPlainPassword(b) <==> a == b
  {
  }

  /** An `Email` whose text the (external) validator accepted. */
  datatype Email = Email(value: string)

  /** `Email(value)`: raises `InvalidEmailException` when the validator rejects the text. */
  function NewEmail(value: string, isEmail: string -> bool): (r: Result<Email, Error>)
    ensures r.Success? <==> isEmail(value)
    ensures r.Success? ==> r.value.value == value
    ensures r.Failure? ==> r.error == InvalidEmail
  {
    if isEmail(value) then Success(Email(value)) else Failure(InvalidEmail)
  }
}
