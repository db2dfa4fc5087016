/** The collaborators the client drives: the WSDL interpreter (or its shim),
    the request used to fetch the WSDL, and the operation layer. Their
    internals are not modelled; they appear as data and as function-valued
    parameters. */
module Service {
  import opened Wrappers
  import opened GlobalOptions

  type OperationName = string

  /** The errors the client itself raises, and the two kinds it only passes on. */
  datatype ClientError =
    | InitializationError            // neither :wsdl nor :endpoint with :namespace
    | MissingWsdlError               // introspection on the shim
    | WsdlFailure(reason: string)    // raised while fetching or parsing the WSDL

  /** The service description the client holds: a parsed interpreter, or the
      shim used when no WSDL was given (it knows no operations). */
  datatype Description =
    | Parsed(endpoint: Value, namespace: Value, operations: seq<OperationName>)
    | Shim(endpoint: Value, namespace: Value)

  /** What the WSDL parser returns: always the parsed variant. */
  type Interpreter = d: Description | d.Parsed? witness Parsed(Nil, Nil, [])

  /** A fresh shim: no endpoint and no namespace yet. */
  function NewShim(): Description
  {
    Shim(Nil, Nil)
  }

  /** The HTTP request used to fetch a remote WSDL, built from the options
      (timeouts, credentials, proxy); its construction is not modelled. */
  datatype WsdlRequest = WsdlRequest(options: Options)

  function BuildWsdlRequest(globals: Options): WsdlRequest
  {
    WsdlRequest(globals)
  }

  /** Wasabi.interpreter: from the :wsdl value and the request, the interpreter
      of the document (its endpoint, namespace and operations as declared) or
      the message of the error it raised. */
  type Parser = (Value, WsdlRequest) -> Result<Interpreter, string>

  /** Operation.create(name, wsdl, globals). */
  datatype Operation = Create(name: OperationName, wsdl: Description, globals: Options)

  /** The per-call options passed to Operation#call. */
  type Locals = map<Key, Value>

  /** What Operation#call returns; `http` is the raw transport exchange. */
  datatype Response = Response(http: HttpExchange, body: string)

  /** Operation#call: a response, or the message of the error it raised. */
  type Invoker = (Operation, Locals) -> Result<Response, string>
}
