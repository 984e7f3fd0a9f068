/** The exceptions the core raises, as values. */
module Errors {
  import opened Primitives

  /** One constructor per `DomainValidationError` message of the entities
      (app/domain/entities/case.py). */
  datatype ValidationFailure =
    | EmptyDatabaseName     // a blank database name
    | EmptySchemaName       // a blank schema name
    | EmptyQueryText        // a blank query text
    | InvalidExecutorEmail  // an executor address without `@`
    | EmptyTitle            // a blank title
    | TitleTooLong          // a title over 200 characters
    | InvalidCreatorEmail   // a creator address without `@`
    | QueryNotOwned         // add_query with a foreign case_id
    | CaseClosed            // mark_as_in_progress on a closed case
    | NotResolvable         // mark_as_resolved outside open / in_progress
    | NotClosable           // close outside resolved

  datatype Error =
    | Validation(failure: ValidationFailure)  // DomainValidationError
    | UnknownEnumValue(value: string)         // ValueError from an Enum lookup
    | PoolNotInitialized                      // RuntimeError("Database pool not initialized")
    | NoActiveTransaction                     // RuntimeError("No active transaction")
    | UniqueViolation                         // INSERT of an id the table already holds
    | TransactionNotActive                    // commit/rollback of a finished transaction
    | ServerFault                             // the server rejected a COMMIT or ROLLBACK
}
