/**
 * The express-validator check lists of middleware/validation.js. Each list is a
 * conjunction of checks; the request's validation result holds one error per
 * failed check, in the order the checks are listed. `isLength` counts code
 * points, which is what the length of a Dafny string counts. The email and
 * currency format checks are library predicates this model does not open:
 * they are supplied as parameters.
 */
module Validation {

  /** `isEmail()` and `isCurrency({digits_after_decimal: [2]})`. */
  datatype Formats = Formats(isEmail: string -> bool, isCurrency: string -> bool)

  /** One failed check, named after the text middleware/validation.js attaches to it. */
  datatype Failure =
    | UsernameTooShort     // "Username must be longer than 5 characters"
    | PasswordTooShort     // "Password must be of minimum 8 characters"
    | EmailInvalid         // "Email entered is not valid"
    | ProfileEmailInvalid  // "New email entered is not valid"
    | NameLength           // "Please enter a name for your campground."
    | PriceInvalid         // "Please enter a valid price"
    | LocationLength       // "Please enter a valid location."
    | DescriptionLength    // "Please enter a description for your campground."
    | CommentEmpty         // "Please enter your comment in the text area."

  /** `isLength({min, max})`; a missing field reads as the empty string. */
  predicate LengthWithin(s: string, min: nat, max: nat)
  {
    min <= |s| <= max
  }

  /** The errors of one check: none when it holds, its failure otherwise. */
  function Check(holds: bool, failure: Failure): seq<Failure>
  {
    if holds then [] else [failure]
  }

  datatype RegisterForm = RegisterForm(username: string, password: string, email: string, firstname: string, lastname: string)

  /** `validationObj.register`. A username of exactly five characters passes, whatever the message says. */
  function RegisterErrors(f: RegisterForm, formats: Formats): (errs: seq<Failure>)
    ensures UsernameTooShort in errs <==> |f.username| < 5
    ensures PasswordTooShort in errs <==> |f.password| < 8
    ensures EmailInvalid in errs <==> !formats.isEmail(f.email)
    ensures errs == [] <==> |f.username| >= 5 && |f.password| >= 8 && formats.isEmail(f.email)
    ensures forall e | e in errs :: e in {UsernameTooShort, PasswordTooShort, EmailInvalid}
  {
    Check(|f.username| >= 5, UsernameTooShort)
    + Check(|f.password| >= 8, PasswordTooShort)
    + Check(formats.isEmail(f.email), EmailInvalid)
  }

  /** `validationObj.profile`: only the new email is checked. */
  function ProfileErrors(email: string, formats: Formats): (errs: seq<Failure>)
    ensures errs == [] <==> formats.isEmail(email)
    ensures errs != [] ==> errs == [ProfileEmailInvalid]
  {
    Check(formats.isEmail(email), ProfileEmailInvalid)
  }

  /** The `campground[...]` fields of a submitted campground form. */
  datatype CampgroundFields = CampgroundFields(name: string, price: string, location: string, description: string)

  /** `validationObj.campground`. */
  function CampgroundErrors(c: CampgroundFields, formats: Formats): (errs: seq<Failure>)
    ensures NameLength in errs <==> !LengthWithin(c.name, 1, 255)
    ensures PriceInvalid in errs <==> !formats.isCurrency(c.price)
    ensures LocationLength in errs <==> !LengthWithin(c.location, 1, 255)
    ensures DescriptionLength in errs <==> !LengthWithin(c.description, 1, 500)
    ensures errs == [] <==>
      && 1 <= |c.name| <= 255 && formats.isCurrency(c.price)
      && 1 <= |c.location| <= 255 && 1 <= |c.description| <= 500
  {
    Check(LengthWithin(c.name, 1, 255), NameLength)
    + Check(formats.isCurrency(c.price), PriceInvalid)
    + Check(LengthWithin(c.location, 1, 255), LocationLength)
    + Check(LengthWithin(c.description, 1, 500), DescriptionLength)
  }

  /** `validationObj.comment`: the text must not be empty (there is no upper bound). */
  function CommentErrors(text: string): (errs: seq<Failure>)
    ensures errs == [] <==> |text| >= 1
  {
    Check(|text| >= 1, CommentEmpty)
  }

  /** The boundary of the username rule: five characters are enough, four are not. */
  lemma UsernameBoundary(formats: Formats, f: RegisterForm)
    requires |f.password| >= 8 && formats.isEmail(f.email)
    ensures |f.username| == 5 ==> RegisterErrors(f, formats) == []
    ensures |f.username| == 4 ==> RegisterErrors(f, formats) == [UsernameTooShort]
  {
  }
}
