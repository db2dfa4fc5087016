/** The client-wide option store (Savon's GlobalOptions): a mapping from option
    key to value. Every decision the client takes asks only whether a key is
    present, never what it is bound to. */
module GlobalOptions {
  import opened Wrappers

  /** The raw HTTP exchange of one call, as the transport hands it back. */
  datatype HttpExchange = HttpExchange(code: int, body: string)

  /** Option keys (Ruby symbols). The four the client inspects are named;
      every other option is `Other`. */
  datatype Key = Wsdl | Endpoint | Namespace | LastResponse | Other(name: string)

  /** Option values. `Nil` is Ruby's nil: a key bound to it is still present. */
  datatype Value = Nil | Text(text: string) | Http(exchange: HttpExchange) | Opaque(id: nat)

  type Options = map<Key, Value>

  /** The options after the optional configuration block has run. A block is
      modelled by the options it sets (None when no block was given); what it
      sets overwrites what the caller passed, and nothing is removed. */
  function EvaluateBlock(initial: Options, block: Option<Options>): (globals: Options)
    ensures block.None? ==> globals == initial
    ensures block.Some? ==> globals.Keys == initial.Keys + block.value.Keys
    ensures block.Some? ==> forall k :: k in block.value ==> globals[k] == block.value[k]
    ensures block.Some? ==> forall k :: k in initial && k !in block.value ==> globals[k] == initial[k]
  {
    match block
    case None => initial
    case Some(settings) => initial + settings
  }
}
