/**
 * Shared result types. Every operation of the library that can throw is
 * modelled as a function or method returning a `Result`, whose `Err` side
 * names the failure the source raises.
 */
module Wrappers {

  datatype Option<T> = None | Some(value: T)

  datatype Result<T> = Ok(value: T) | Err(error: Fault)
  {
    predicate IsFailure() { Err? }

    function PropagateFailure<U>(): Result<U>
      requires Err?
    {
      Err(error)
    }

    function Extract(): T
      requires Ok?
    {
      value
    }
  }

  /** Outcome of a guard or of an operation with no value. */
  datatype Outcome = Pass | Fail(error: Fault)

  /** The failures the library raises, one constructor per kind of thrown error. */
  datatype Fault =
    // argument guards
    | Falsy(name: string)
    | NotPositive(name: string)
    | NotANumber(name: string)
    | Negative(name: string)
    | NoElements(name: string)
    // unsigned values
    | InvalidNegativeValue
    | BigIntSyntax
    // registries
    | AlreadyRegistered
    | WarpIdAlreadyRegistered
    | NotRegistered
    | UnknownInstance
    | LiveInstanceExists
    | MissingValue
    // value codec
    | UnsupportedValueType
    | MessageNotSerializable
    | DifferentWarps
    | InvalidData
    | InvalidValueType
    | NoItemsFound
    | EmptyPrimaryKey
    | NoWarpKey
    | DuplicateKey
    | InvalidVersion
    | StackOverflow
    // responses
    | MissingResponse
    | EmptyResponseBytes
    | NoneResponseType
    | UnexpectedResponseType
    | UnexpectedMessages
    | InvalidMessageBytes
    | Platform(codeString: string)
    | Script(message: string, stack: string)
    | NotOkWithoutError
    | TransportFailure
    | ConnectionFailed
    // warp facade
    | InvalidMessageSource
    | UnexpectedEvent
    // push channel
    | EmptyLogContext
    | EmptyMessage
    | WrongWarp(reason: string)
    | UnknownMessageType
    | UnknownSourceType
    | NoDataKeyForListenedObject
    // multiplexer
    | SocketNotOpen
    | SocketNotReady
    | TypedArrayLength
    | InvalidSendKind
    | UnknownSendKind
    | NotAnArrayBuffer
    | HeaderOutOfRange
    // tools
    | InvalidJson
    | TypeError(what: string)
    | BadErrorObject(what: string)
    | InvalidKeyFile(what: string)
    | InvalidConfig(what: string)
    | EmptyIndexField(owner: string, field: string)
    | InvalidIndexId(owner: string, field: string)
    | InvalidMethodKind(owner: string, reason: string)
    | Refused(what: string)
}
