/** The exceptions the user service raises, and its classifier of database errors. */
module Errors {
  import Text

  /** The HTTP exception kinds the service throws, with their messages. */
  datatype Exception =
    | BadRequest(message: string)
    | NotFound(message: string)
    | InternalServerError(message: string)
    | Unimplemented(message: string)

  /** A database error as the service sees it: a code and a detail text. */
  datatype DbError = DbError(code: string, detail: string)

  /** PostgreSQL's code for a unique-constraint violation. */
  const UniqueViolationCode: string := "23505"

  /** The service's own code for "no such record". */
  const NotFoundCode: string := "error-001"

  /** The only message an unexpected failure shows the caller. */
  const ServerLogsMessage: string := "Please check server logs"

  /**
   * handleDBErrors: every error becomes an exception. A unique violation is a
   * bad request whose message is the detail without its first "Key "; the
   * service's not-found code keeps the detail; anything else is an internal
   * error that does not repeat the detail.
   */
  function HandleDbErrors(error: DbError): (x: Exception)
    ensures x.BadRequest? <==> error.code == UniqueViolationCode
    ensures x.NotFound? <==> error.code == NotFoundCode
    ensures x.InternalServerError? <==> error.code != UniqueViolationCode && error.code != NotFoundCode
    ensures x.BadRequest? ==> x.message == Text.RemoveFirst(error.detail, "Key ")
    ensures x.NotFound? ==> x.message == error.detail
    ensures x.InternalServerError? ==> x.message == ServerLogsMessage
  {
    if error.code == UniqueViolationCode then BadRequest(Text.RemoveFirst(error.detail, "Key "))
    else if error.code == NotFoundCode then NotFound(error.detail)
    else InternalServerError(ServerLogsMessage)
  }

  /** What a unique violation of `column` by `value` reports, after the leading "Key ". */
  function ConflictText(column: string, value: string): string {
    "(" + column + ")=(" + value + ") already exists."
  }

  /** The detail PostgreSQL gives a unique violation of `column` by `value`. */
  function UniqueViolationDetail(column: string, value: string): string {
    "Key " + ConflictText(column, value)
  }

  /** A duplicate value reaches the caller as a bad request naming the column and the value. */
  lemma UniqueViolationIsBadRequest(column: string, value: string)
    ensures HandleDbErrors(DbError(UniqueViolationCode, UniqueViolationDetail(column, value)))
         == BadRequest(ConflictText(column, value))
  {
  }

  /** An unexpected failure never reveals its detail: two such errors with the same code look alike. */
  lemma InternalErrorHidesDetail(code: string, d1: string, d2: string)
    requires code != UniqueViolationCode && code != NotFoundCode
    ensures HandleDbErrors(DbError(code, d1)) == HandleDbErrors(DbError(code, d2)) == InternalServerError(ServerLogsMessage)
  {
  }
}
