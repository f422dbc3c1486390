/** The errors `trigger` can throw. The source throws plain `Error` objects;
    here each origin is a constructor so that "the same error" is value equality. */
module Errors {

  /** The message `generateAscJwt` throws when a credential is missing (action.js:25-28). */
  const MissingCredentialsMessage: string :=
    "Missing credentials to generate App Store Connect token. " +
    "Provide either params[\"appstore-connect-token\"] or env/input keyId, issuerId, key."

  datatype Error =
    | RequiredParameterMissing(param: string)  // thrown by the validation loop of trigger
    | MissingCredentials                       // thrown by generateAscJwt
    | Thrown(message: string)                  // thrown by jwt.sign or by the App Store Connect client

  /** The message of a failed required-parameter check starts with this and then names the parameter. */
  const RequiredParameterPrefix: string := "Required parameter '"

  /** The `message` property of the thrown error. */
  function Message(e: Error): (m: string)
    ensures e.RequiredParameterMissing? ==> RequiredParameterPrefix + e.param <= m
    ensures e.Thrown? ==> m == e.message
  {
    match e
    case RequiredParameterMissing(p) => RequiredParameterPrefix + p + "' is not provided"
    case MissingCredentials => MissingCredentialsMessage
    case Thrown(msg) => msg
  }
}
