/** JavaScript and PostgreSQL values as the pipeline passes them around, and the
    error classes of classes/errors.js that its stages can reject with. */
module Values {

  datatype Option<+T> = None | Some(value: T)

  datatype Result<+T> = Ok(value: T) | Err(error: Error)

  /** Property names: request fields, columns and output names.  Names are only ever
      compared, so they are numbered; those of the shipped schemas have the first numbers,
      and every other string has a number of its own.  COL_ marks lower-case columns. */
  datatype Key = Key(id: int)

  const ACCOUNT_ID: Key := Key(0)
  const LISTING_ID: Key := Key(1)
  const CONVERSATION_ID: Key := Key(2)
  const RECEIVER_ID: Key := Key(3)
  const USER_ID: Key := Key(4)
  const CATEGORY_ID: Key := Key(5)
  const TITLE: Key := Key(6)
  const DESCRIPTION: Key := Key(7)
  const CONDITION: Key := Key(8)
  const LOCATION: Key := Key(9)
  const REGION: Key := Key(10)
  const TEXT_CONTENT: Key := Key(11)
  const MEDIA_CONTENT: Key := Key(12)
  const URL: Key := Key(13)
  const MIME_TYPE: Key := Key(14)
  const MEDIA_INDEX: Key := Key(15)
  const MEDIA: Key := Key(16)
  const PICTURE: Key := Key(17)
  const NAME: Key := Key(18)
  const EMAIL: Key := Key(19)
  const PASSWORD: Key := Key(20)
  const NEW_PASSWORD: Key := Key(21)
  const PASS_HASH: Key := Key(22)
  const DOB: Key := Key(23)
  const ADDRESS: Key := Key(24)
  const COUNTRY: Key := Key(25)
  const POSTCODE: Key := Key(26)
  const MAX_RESULTS: Key := Key(27)
  const START_RESULTS: Key := Key(28)
  const REGISTRATION_TOKEN: Key := Key(29)
  const DEVICE_TOKEN: Key := Key(30)
  const DEVICE_TOKEN_SNAKE: Key := Key(31)
  const COL_USER_ID: Key := Key(32)
  const COL_ADDRESS_ID: Key := Key(33)
  const COL_LISTING_ID: Key := Key(34)
  const COL_CONVERSATION_ID: Key := Key(35)
  const COL_MESSAGE_ID: Key := Key(36)
  const COL_MEDIA_ID: Key := Key(37)
  const COL_CONTRIBUTOR_ID: Key := Key(38)
  const COL_CATEGORY_ID: Key := Key(39)
  const COL_CREATION_DATE: Key := Key(40)
  const COL_MODIFICATION_DATE: Key := Key(41)
  const COL_CLOSED_DATE: Key := Key(42)
  const COL_RECEIVER_ID: Key := Key(43)
  const CONTRIBUTOR_ID: Key := Key(44)
  const SAVED: Key := Key(45)
  const LISTINGS: Key := Key(46)
  const CATEGORIES: Key := Key(47)
  const ADDRESSES: Key := Key(48)
  const CONVERSATIONS: Key := Key(49)
  const MESSAGES: Key := Key(50)
  const SUCCESS: Key := Key(51)
  const PFP_MIME_TYPE: Key := Key(52)
  const PFP_URL: Key := Key(53)
  const ADDRESS_ID: Key := Key(54)
  const SENDER_ID: Key := Key(55)
  const MIME_TYPE_MAIN: Key := Key(56)
  const URL_MAIN: Key := Key(57)
  const RECEIVER_NAME: Key := Key(58)
  const CONTRIBUTOR_NAME: Key := Key(59)
  const CLOSED_DATE: Key := Key(60)
  const CREATION_DATE: Key := Key(61)
  const MODIFICATION_DATE: Key := Key(62)

  /** `Func` is a function object handed over as if it were data. */
  datatype Val =
    | Undef
    | Null
    | Bool(b: bool)
    | Num(n: int)
    | Str(s: string)
    | Arr(items: seq<Val>)
    | Obj(fields: map<Key, Val>)
    | Func

  type Input = map<Key, Val>
  type Row = map<Key, Val>
  type Rows = seq<Row>

  /** The reasons for which `build` throws a QueryConstructionError. */
  datatype BuildFault =
    | ConditionThrew
    | TimesThrew
    | TimesNotNatural
    | ValueThrew
    | ReferencedQueryDidNotRun
    | CopiesMismatch

  /** What `Store` looks at in a database error: the codes 23503 and 23505, and
      whether the message names the `addr_owner_agrees` constraint. */
  datatype PgCode = ForeignKeyViolation | UniqueViolation | OwnerAgrees | OtherCode(code: string)

  /** The names that the status maps mention, and all the others. */
  datatype ErrorName =
    | PipelineInitialisationError | MissingTemplateError | PipelineExecutionError | PrivateKeyReadError
    | AlreadyAuthenticatedError | UnauthenticatedUserError | UnauthorizedUserError | InvalidCredentialsError
    | InvalidTokenError | TamperedTokenError | ExpiredTokenError | NotBeforeTokenError
    | ServerException | TemplateError | ValidationError
    | AbsentArgumentError | UnprocessableArgumentError | InvalidArgumentError | DirtyArgumentError
    | QueryError | DatabaseConnectionError | DBClientNotAvailableError | QueryTemplateError | EmptyQueryError
    | EmptyResponseError | QueryConstructionError | BackreferenceError | QueryExecutionError
    | ForeignKeyError | UniqueConstraintError
    | UnlistedError(text: string)

  datatype Error =
    | QueryConstruction(fault: BuildFault)
    | EmptyQuery
    | EmptyResponse
    | Backreference
    | QueryExecution(code: PgCode)
    | ForeignKey
    | UniqueConstraint
    | ClientNotAvailable
    | FailedUpload
    | AbsentArgument(arg: Key)
    | UnprocessableArgument(arg: Key)
    | InvalidArgument(arg: Key)
    | DirtyArgument(arg: Key)
    | OtherError(name: ErrorName)  // any other instance of Error
    | NotAnError                   // a thrown value that is no instance of Error

  /** `err.name` */
  function NameOf(e: Error): ErrorName {
    match e
    case QueryConstruction(_) => QueryConstructionError
    case EmptyQuery => EmptyQueryError
    case EmptyResponse => EmptyResponseError
    case Backreference => BackreferenceError
    case QueryExecution(_) => QueryExecutionError
    case ForeignKey => ForeignKeyError
    case UniqueConstraint => UniqueConstraintError
    case ClientNotAvailable => DBClientNotAvailableError
    case FailedUpload => UnlistedError("FailedUploadError")
    case AbsentArgument(_) => AbsentArgumentError
    case UnprocessableArgument(_) => UnprocessableArgumentError
    case InvalidArgument(_) => InvalidArgumentError
    case DirtyArgument(_) => DirtyArgumentError
    case OtherError(name) => name
    case NotAnError => UnlistedError("")
  }

  /** `obj[key]`; None when JavaScript throws a TypeError. */
  function Property(v: Val, key: Key): Option<Val> {
    match v
    case Undef => None
    case Null => None
    case Obj(fields) => Some(if key in fields then fields[key] else Undef)
    case _ => Some(Undef)
  }

  /** `typeof v === 'object'`, which is also true of null and of arrays. */
  predicate IsObjectType(v: Val) {
    v.Null? || v.Arr? || v.Obj?
  }

  function Lookup(input: Input, key: Key): Val {
    if key in input then input[key] else Undef
  }
}
