/**
 * The exceptions raised inside the event-delivery pipeline and the domain
 * rules that feed it. Each constructor stands for one Python exception class
 * (or, for the built-in ones, one kind of failure of a built-in operation).
 */
module Errors {

  datatype Error =
      // built-in failures
    | KeyError(key: string)               // `data["key"]` on a missing key
    | ValueError(message: string)         // `UUID(text)` on malformed text
    | JsonDecodeError                     // `json.loads` on a malformed body
    | UnicodeDecodeError                  // `bytes.decode("utf-8")` on invalid UTF-8
    | UnboundLocalError(variable: string) // reading a local before it is assigned
      // domain and application rules
    | InvalidEmail
    | PasswordTooWeak
    | UsernameIsTooShort
    | InvalidPassword
    | AccountNotVerified
    | AccountAlreadyVerified
    | UsernameIsAlreadyTaken
    | UserAlreadyExistsForAccount
    | UserProfileNotFound
    | PasswordMustBeDifferent
    | PasswordsDoNotMatch
    | AccountDoesNotExist
      // infrastructure
    | EventReconstruction(eventName: string)
    | SessionNotInitialized
    | ProducerNotStarted
    | ConsumerNotStarted
    | BusError
    | PermissionDenied
      // raised by a collaborator outside the model (a handler, the broker, the database)
    | External(message: string)

  /** `str(e)`: the text that the outbox stores as `last_error`. */
  function Message(e: Error): string {
    match e
    case KeyError(key) => "'" + key + "'"
    case ValueError(message) => message
    case JsonDecodeError => "Expecting value"
    case UnicodeDecodeError => "'utf-8' codec can't decode bytes"
    case UnboundLocalError(variable) =>
      "cannot access local variable '" + variable + "' where it is not associated with a value"
    case InvalidEmail => "Invalid email address format."
    case PasswordTooWeak => "Password must be at least 8 characters long."
    case UsernameIsTooShort => "Username is too short. Minimum length is 3 characters."
    case InvalidPassword => "Invalid email or password."
    case AccountNotVerified => "Email address is not verified."
    case AccountAlreadyVerified => "Account already verified."
    case UsernameIsAlreadyTaken => "Username is already taken."
    case UserAlreadyExistsForAccount => "User already exists for this account."
    case UserProfileNotFound => "User profile not found."
    case PasswordMustBeDifferent => "PasswordMustBeDifferentException"
    case PasswordsDoNotMatch => "The provided passwords do not match."
    case AccountDoesNotExist => "AccountDoesNotExistException"
    case EventReconstruction(name) => "Event " + name + " not registered."
    case SessionNotInitialized => "Session not initialized."
    case ProducerNotStarted => "Producer not started."
    case ConsumerNotStarted => "Consumer not started."
    case BusError => "No handler found for this query or command."
    case PermissionDenied => "No permission to perform this action."
    case External(message) => message
  }
}
