/** Savon::Client: the options it owns, the service description it builds once,
    introspection, operation lookup and the call that records the last response. */
module Savon {
  import opened Wrappers
  import opened GlobalOptions
  import opened Service
  import ClientSpec

  class Client {
    /** @globals: the option store, shared with every operation the client creates. */
    var globals: Options
    /** @wsdl: None until build_wsdl has assigned it. */
    var wsdl: Option<Description>

    /** A constructed client: its description is built and its options pass the check. */
    predicate Ready()
      reads this
    {
      wsdl.Some? && ClientSpec.WsdlOrEndpointAndNamespaceSpecified(globals)
    }

    /** The first half of initialize: store the options, then run the block over them. */
    constructor (initial: Options, block: Option<Options>)
      ensures globals == EvaluateBlock(initial, block)
      ensures wsdl.None?
    {
      globals := initial;
      wsdl := None;
      new;
      if block.Some? {
        globals := EvaluateBlock(globals, block);
      }
    }

    /** build_wsdl: assign the interpreter or the shim, then overwrite its
        endpoint and namespace from the options that are present. */
    method BuildWsdl(parse: Parser) returns (outcome: Result<(), ClientError>)
      modifies this
      ensures globals == old(globals)
      ensures outcome.Success? <==> ClientSpec.ResolveDescription(globals, parse).Success?
      ensures outcome.Success? ==> wsdl == Some(ClientSpec.ResolveDescription(globals, parse).value)
      ensures outcome.Failure? ==> outcome.error == ClientSpec.ResolveDescription(globals, parse).error
      ensures outcome.Failure? ==> wsdl == old(wsdl)
    {
      if Wsdl in globals {
        var request := BuildWsdlRequest(globals);
        var parsed := parse(globals[Wsdl], request);
        if parsed.Failure? {
          return Failure(WsdlFailure(parsed.error));
        }
        wsdl := Some(parsed.value);
      } else {
        wsdl := Some(NewShim());
      }
      if Endpoint in globals {
        wsdl := Some(wsdl.value.(endpoint := globals[Endpoint]));
      }
      if Namespace in globals {
        wsdl := Some(wsdl.value.(namespace := globals[Namespace]));
      }
      outcome := Success(());
    }

    /** operations: refused on the shim, otherwise the description's operations. */
    method Operations() returns (r: Result<seq<OperationName>, ClientError>)
      requires Ready()
      ensures r == ClientSpec.Operations(wsdl.value)
    {
      if wsdl.value.Shim? {
        return Failure(MissingWsdlError);
      }
      r := Success(wsdl.value.operations);
    }

    /** operation: binds the name to the client's own description and options,
        whether or not the description declares that name; changes nothing. */
    method Operation(name: OperationName) returns (op: Service.Operation)
      requires Ready()
      ensures op.name == name && op.wsdl == wsdl.value && op.globals == globals
    {
      op := Service.Operation.Create(name, wsdl.value, globals);
    }

    /** call: invoke the operation; when it returns normally, record its raw
        exchange under :last_response and return the response unchanged. */
    method Call(name: OperationName, locals: Locals, invoke: Invoker) returns (r: Result<Response, string>)
      requires Ready()
      modifies this
      ensures Ready() && wsdl == old(wsdl)
      ensures r == invoke(Service.Operation.Create(name, old(wsdl).value, old(globals)), locals)
      ensures r.Success? ==> globals == ClientSpec.PersistLastResponse(old(globals), r.value)
      ensures r.Failure? ==> globals == old(globals)
      ensures globals == ClientSpec.AfterCall(old(globals), r)
    {
      var op := Operation(name);
      r := invoke(op, locals);
      if r.Success? {
        PersistLastResponse(r.value);
      }
    }

    /** persist_last_response. */
    method PersistLastResponse(response: Response)
      modifies this
      ensures globals == ClientSpec.PersistLastResponse(old(globals), response)
      ensures wsdl == old(wsdl)
    {
      globals := globals[LastResponse := Http(response.http)];
    }
  }

  /** Client.new: allocate, run initialize, and either return the ready client
      or the error initialize raised. */
  method NewClient(initial: Options, block: Option<Options>, parse: Parser) returns (r: Result<Client, ClientError>)
    ensures r.Failure? <==> ClientSpec.Initialize(initial, block, parse).Failure?
    ensures r.Failure? ==> r.error == ClientSpec.Initialize(initial, block, parse).error
    ensures r.Success? ==> fresh(r.value) && r.value.Ready()
    ensures r.Success? ==>
      ClientSpec.Initialize(initial, block, parse).value == ClientSpec.ClientState(r.value.globals, r.value.wsdl.value)
  {
    var client := new Client(initial, block);
    if !ClientSpec.WsdlOrEndpointAndNamespaceSpecified(client.globals) {
      return Failure(InitializationError);
    }
    var built := client.BuildWsdl(parse);
    if built.Failure? {
      return Failure(built.error);
    }
    return Success(client);
  }
}
