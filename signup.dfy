/** The sign-up form's input checks (Views/Authentication/SignUpView.swift).
    `String.count` is the length of the character sequence. */
module SignUp {

  /** Shortest password the form accepts. */
  const MinPasswordLength := 6

  /** Whether "Passwords do not match" is shown under the fields. */
  function ShowsMismatch(password: string, confirmPassword: string): (r: bool)
    ensures r ==> password != confirmPassword
    ensures !r <==> password == [] || confirmPassword == [] || password == confirmPassword
  {
    password != [] && confirmPassword != [] && password != confirmPassword
  }

  /** `isValidInput`. Valid input has an email, matching passwords and a
      password of at least six characters; the non-empty password test is
      implied by the length test. */
  function IsValidInput(email: string, password: string, confirmPassword: string): (valid: bool)
    ensures valid ==> email != []
    ensures valid ==> password == confirmPassword
    ensures valid ==> |password| >= MinPasswordLength && password != []
    ensures valid <== email != [] && password == confirmPassword && |password| >= MinPasswordLength
    ensures ShowsMismatch(password, confirmPassword) ==> !valid
  {
    email != [] && password != [] && password == confirmPassword && |password| >= MinPasswordLength
  }

  /** Whether the Create Account button is disabled. */
  function CreateAccountDisabled(email: string, password: string, confirmPassword: string, isLoading: bool): (r: bool)
    ensures isLoading ==> r
    ensures ShowsMismatch(password, confirmPassword) ==> r
    ensures !r ==> email != [] && password == confirmPassword && |password| >= MinPasswordLength
    ensures !isLoading && email != [] && password == confirmPassword && |password| >= MinPasswordLength ==> !r
  {
    !IsValidInput(email, password, confirmPassword) || isLoading
  }

  /** The mismatch message and valid input exclude each other. */
  lemma MismatchMeansInvalid(email: string, password: string, confirmPassword: string)
    requires ShowsMismatch(password, confirmPassword)
    ensures !IsValidInput(email, password, confirmPassword)
    ensures CreateAccountDisabled(email, password, confirmPassword, false)
  {
  }

  /** Invalid input is not always announced: a short or empty field, or an
      empty confirmation, disables the button without a message. */
  lemma SilentlyInvalid(email: string)
    ensures !IsValidInput(email, "abc", "abc") && !ShowsMismatch("abc", "abc")
    ensures !IsValidInput(email, "secret1", "") && !ShowsMismatch("secret1", "")
  {
  }

  /** Six characters are enough and five are not: with an email and equal
      fields, a five-character password disables the button without any
      message. */
  lemma PasswordLengthBoundary(email: string, password: string)
    requires email != []
    ensures |password| == MinPasswordLength ==> !CreateAccountDisabled(email, password, password, false)
    ensures |password| == MinPasswordLength - 1 ==>
              CreateAccountDisabled(email, password, password, false) && !ShowsMismatch(password, password)
  {
  }
}
