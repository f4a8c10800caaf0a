/**
  Vocabulary shared by the mongoose models and the controllers: optional
  request fields, schema-validation results, and the User record.

  The User model file itself is not part of this model; the User record is
  reconstructed from how controllers/userController.js builds and queries it.
 */
module Documents {

  /** A request-body field that may be absent (JavaScript `undefined`). */
  datatype Option<+T> = None | Some(value: T)

  /** Identifier of a stored User (a MongoDB ObjectId, abstracted to a number). */
  type UserId = nat

  datatype User = User(firstName: string, lastName: string, mobileNumber: string, isVerified: bool)

  /** A failed `required` check lists every schema path that was missing. */
  datatype ValidationError = ValidationError(paths: set<string>)

  datatype Result<+T> = Ok(value: T) | Err(error: ValidationError)

  /**
    Mongoose's `required` check for a String path: the value must be present
    and must not be the empty string.
   */
  predicate RequiredString(v: Option<string>) {
    v.Some? && |v.value| > 0
  }

  /** How a JavaScript template literal renders a possibly-undefined string. */
  function Render(v: Option<string>): string {
    match v
    case Some(s) => s
    case None => "undefined"
  }
}
