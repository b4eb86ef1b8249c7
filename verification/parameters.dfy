/** `AuthParameter.convert` of httpcli/parameters.py: the `--auth` JSON option. */
module Parameters {
  import opened Wrappers
  import opened JsonValue
  import opened Models
  import opened Config

  /** `click.BadParameter(message)` */
  datatype BadParameter = BadParameter(message: string)

  const AuthNotValidMessage: string := "authentication information is not valid"

  /**
   * `AuthParameter.convert`: the JSON test comes first and fails with the
   * not-JSON message naming the value; JSON that the configuration's auth field
   * refuses fails with the auth message; otherwise the result is the auth the
   * configuration makes of the parsed value.
   */
  function ConvertAuth(value: string, loads: string -> Option<Json>, authOf: Json -> Option<Auth>)
    : (r: Result<Option<Auth>, BadParameter>)
    ensures loads(value).None? ==> r == Failure(BadParameter(JsonErrorMessage(value)))
    ensures loads(value).Some? ==> (r.Failure? <==> ValidateAuth(loads(value).value, loads, authOf).Failure?)
    ensures loads(value).Some? && r.Failure? ==> r.error.message == AuthNotValidMessage
    ensures r.Success? ==> Success(r.value) == ValidateAuth(loads(value).value, loads, authOf)
  {
    match loads(value)
    case None => Failure(BadParameter(JsonErrorMessage(value)))
    case Some(authInfo) =>
      (match ValidateAuth(authInfo, loads, authOf)
       case Success(auth) => Success(auth)
       case Failure(_) => Failure(BadParameter(AuthNotValidMessage)))
  }

  /**
   * `convert(auth.json())` gives back `auth`, given the two facts of the
   * libraries involved: `json.loads` reads back the dictionary the model
   * dumped, and pydantic validates that dictionary into the same model.
   */
  lemma ConvertAuthRoundTrip(a: Auth, dumped: string, loads: string -> Option<Json>, authOf: Json -> Option<Auth>)
    requires loads(dumped) == Some(AuthJson(a))
    requires authOf(AuthJson(a)) == Some(a)
    ensures ConvertAuth(dumped, loads, authOf) == Success(Some(a))
  {
  }

  /** A JSON value that is no auth record, such as `4`, gets the auth message and not the JSON one. */
  lemma NumberIsNotAnAuth(loads: string -> Option<Json>, authOf: Json -> Option<Auth>)
    requires loads("4") == Some(JNumber("4"))
    requires authOf(JNumber("4")) == None
    ensures ConvertAuth("4", loads, authOf) == Failure(BadParameter(AuthNotValidMessage))
  {
  }
}
