/** Failure-compatible wrappers and the exceptions MongoDataSource lets escape. */
module Errors {

  datatype Option<+T> = None | Some(value: T)

  datatype Result<+T, +E> = Success(value: T) | Failure(error: E)

  datatype Outcome<+E> = Pass | Fail(error: E)

  /** Why a DataImportHandlerException of severity SEVERE was thrown. */
  datatype SevereCause =
    | DatabaseMissing       // init: no "database" property
    | ConnectFailed         // init: the host could not be resolved
    | AuthenticationFailed  // init: the store refused the credentials
    | StoreFault            // hasnext: a MongoException, wrapped and rethrown

  /** Every exception that can leave a MongoDataSource operation. */
  datatype ImportError =
    | Severe(cause: SevereCause)
    | NumberFormat   // Integer.parseInt on the port text failed
    | NullPointer    // a field or property the code dereferences is null
    | QueryParse     // the query text is not a JSON document
    | IllegalState   // the driver refuses to use a closed cursor
    | NoSuchElement  // next() on an exhausted cursor
    | DriverFault    // a MongoException the code does not catch
}
