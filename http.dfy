/** The constants of Spring's HttpStatus enum that the response envelope's presets use. */
module Http {
  datatype HttpStatus =
    | OK
    | ACCEPTED
    | BAD_REQUEST
    | FORBIDDEN
    | NOT_ACCEPTABLE
    | INTERNAL_SERVER_ERROR
  {
    /** The numeric code, as HttpStatus.value() gives it. */
    function Value(): (code: int)
      ensures 200 <= code <= 599
    {
      match this
      case OK => 200
      case ACCEPTED => 202
      case BAD_REQUEST => 400
      case FORBIDDEN => 403
      case NOT_ACCEPTABLE => 406
      case INTERNAL_SERVER_ERROR => 500
    }
  }

  /** No two constants share a code, so a code names its status. */
  lemma ValueIsInjective(s: HttpStatus, t: HttpStatus)
    ensures s.Value() == t.Value() ==> s == t
  {
  }
}
