# Savon::Client — a verified model of the SOAP client front end

This project models `Savon::Client`, the construction-and-call front end of the
Savon SOAP client. A client owns a mutable option store (`@globals`), builds one
service description (`@wsdl`) when it is constructed, answers introspection
(`operations`), builds operations (`operation`) and runs calls (`call`), after
which it records the raw HTTP exchange under `:last_response`.

Layout:

- `wrappers.dfy` (`Wrappers`): `Option` and `Result`; a `Failure` stands for a Ruby `raise`.
- `global_options.dfy` (`GlobalOptions`): option keys and values, the option map, and the configuration block modelled as the options it sets.
- `service.dfy` (`Service`): the collaborators as data. It holds the two-variant description (`Parsed | Shim`), the WSDL request, the `Operation` and `Response` records, and the function types of the WSDL parser (`Parser`, which returns a `Parsed` description) and of `Operation#call` (`Invoker`).
- `client_spec.dfy` (`ClientSpec`): the behaviour as functions of the options. It covers the construction precondition `WsdlOrEndpointAndNamespaceSpecified`, the description `build_wsdl` produces, construction, introspection and what calls leave in the options, with the lemmas about them.
- `client.dfy` (`Savon`): the class `Client` with fields `globals: map` and `wsdl: Option<Description>`. It has methods for `initialize`, `build_wsdl`, `operations`, `operation`, `call` and `persist_last_response`. `BuildWsdl`, `Operations`, `Call`, `PersistLastResponse` and `NewClient` are proved against `ClientSpec` functions. The constructor is proved against `GlobalOptions.EvaluateBlock`. `Operation` states its result directly.

The two errors the client raises itself are the `ClientError` constructors
`InitializationError` (from `raise_initialization_error!`) and `MissingWsdlError`.
`raise_missing_wsdl_error!` raises a plain `RuntimeError` with a message, and
`MissingWsdlError` only names that kind of failure. Errors raised by the WSDL parser become
`WsdlFailure(reason)`. Errors raised by `Operation#call` are passed back unchanged
as the `Failure` of `Call`.

`call` writes `:last_response` only when `Operation#call` returns normally
(lib/savon/client.rb:33-37). A fault the operation raises leaves the options
unchanged. A fault the operation returns as a response is captured.

## Model

| member | source | states |
|---|---|---|
| `GlobalOptions.EvaluateBlock` | lib/savon/client.rb:11-13 | Without a block the options are the caller's. With one, the keys are the union and the values the block sets win. |
| `ClientSpec.WsdlOrEndpointAndNamespaceSpecified` | lib/savon/client.rb:57-66 | Fails exactly when, among `:wsdl`, `:endpoint` and `:namespace`, the options hold none, only `:endpoint`, or only `:namespace`. These are the complement of the accepted shapes `raise_initialization_error!` lists. Only key presence matters. |
| `ClientSpec.ApplyOverrides` | lib/savon/client.rb:49-50 | A present `:endpoint` or `:namespace` replaces that field. An absent key keeps the built value. The variant and the operations are untouched. |
| `ClientSpec.ResolveDescription` | lib/savon/client.rb:41-51 | With `:wsdl` present: the parsed interpreter of `globals[:wsdl]`, or the parser's error. Without it: the shim, which never fails. After either, present overrides win. Absent ones leave the document's values, or nil on the shim. |
| `ClientSpec.Initialize` | lib/savon/client.rb:10-20 | Construction fails with `InitializationError` exactly when the options after the block fail the precondition. Otherwise it fails only when the description cannot be built, and then with exactly the error the build raised (the parser's `WsdlFailure`). On success the state holds the post-block options, which pass the check, and the resolved description. |
| `ClientSpec.Operations` | lib/savon/client.rb:24-27 | Fails, with `MissingWsdlError`, exactly on the shim. On a parsed description it returns exactly that description's operations. |
| `ClientSpec.PersistLastResponse` | lib/savon/client.rb:53-55 | `:last_response` holds the response's `http` exchange. Every other key and value is kept, and no key is added besides `:last_response`. |
| `ClientSpec.AfterCall` | lib/savon/client.rb:33-37 | The options after one call. They are unchanged when the operation raised. Otherwise `:last_response` holds the response's `http` exchange and every other entry is as before. |
| `ClientSpec.LastSuccess` | lib/savon/client.rb:33-37 | Picks the index of the last call that returned normally. Every later call raised. `None` means every call raised. |
| `ClientSpec.LastResponseIsLatestCall` | lib/savon/client.rb:33-37 | Over any sequence of calls, the options equal the starting ones, except that `:last_response` holds the exchange of the last call that returned. If no call returned, they are unchanged. |
| `ClientSpec.FailedCheckBuildsNothing` | lib/savon/client.rb:15-19 | When the check fails, the result is `InitializationError` whatever the parser, so no description is built. |
| `ClientSpec.BlockOptionsSatisfyCheck` | lib/savon/client.rb:13-15 | The check runs after the block. Options set only by the block can satisfy it, even over an empty option map. |
| `ClientSpec.PresenceNotValue` | lib/savon/client.rb:41-59 | Two option maps with the same keys pass or fail the check alike and build the same variant. They have the same override keys. A present `:endpoint` or `:namespace` sets each map's description to that map's own value. |
| `ClientSpec.ShimTakesConfiguredEndpoint` | lib/savon/client.rb:42-50 | A constructed shim always carries the configured `:endpoint` and `:namespace`. The precondition forces both keys when `:wsdl` is absent. |
| `ClientSpec.NoWsdlClientCannotIntrospect` | lib/savon/client.rb:24-27 | `{endpoint: "http://x", namespace: "http://ns"}` builds the shim with those values, and `operations` on it fails with `MissingWsdlError`. |
| `ClientSpec.IncompleteOptionsRejected` | lib/savon/client.rb:15-17 | `{}` and `{endpoint: "http://x"}` are both refused with `InitializationError`. |
| `ClientSpec.NilOptionsArePresent` | lib/savon/client.rb:57-59 | `{endpoint: nil, namespace: nil}` passes the check, because presence is tested and truthiness is not. |
| `ClientSpec.OverrideBeatsDocument` | lib/savon/client.rb:49 | The document declares `http://original` but `:endpoint` is `http://override`: the description's endpoint is the override. Its namespace and operations come from the document. |
| `Savon.Client.constructor` | lib/savon/client.rb:11-13 | Stores the caller's options, runs the block over them, and leaves the description unassigned. |
| `Savon.Client.BuildWsdl` | lib/savon/client.rb:41-51 | Assigns `@wsdl` to exactly `ResolveDescription(globals)`, or fails with its error and leaves `@wsdl` as it was. The options are unchanged. |
| `Savon.Client.Operations` | lib/savon/client.rb:24-27 | Returns `ClientSpec.Operations` of the held description and changes nothing. |
| `Savon.Client.Operation` | lib/savon/client.rb:29-31 | Builds the operation from the given name and the client's current description and options. It does not check the name against the description's operations, and it changes nothing. |
| `Savon.Client.Call` | lib/savon/client.rb:33-37 | Returns exactly what the operation built by `operation(name)` returned. The description is unchanged and the client stays ready. The options change only by `PersistLastResponse`, and only when the operation returned normally. |
| `Savon.Client.PersistLastResponse` | lib/savon/client.rb:53-55 | Sets the options to `ClientSpec.PersistLastResponse` of the old options and leaves the description alone. |
| `Savon.NewClient` | lib/savon/client.rb:10-20 | Fails exactly when `ClientSpec.Initialize` fails, with the same error. Otherwise it returns a fresh, ready client whose options and description are `Initialize`'s. |

## Left out

- The WSDL parser (`Wasabi.interpreter`) is a `Parser` parameter: a total function from the `:wsdl` value and the request to a `Parsed` description, holding the document's endpoint, namespace and operations, or to an error message. Fetching, WSDL grammar and laziness inside the interpreter are not part of this model.
- `Wasabi::InterpreterShim` is modelled by `Shim` and `NewShim`; its internals are not part of this model. The shim's endpoint and namespace start as nil here.
- `WSDLRequest.new(@globals).build` is modelled as an opaque request that carries the options. Transport settings are not interpreted.
- `Operation.create` internals and `Operation#call` (envelope building, HTTP transport, fault handling, the merge of locals) are not modelled. `Operation#call` is an `Invoker` parameter, which is a total function returning a response or an error message. The block that `call` forwards to the operation is taken to be part of the `Locals`.
- Aliasing: in Ruby every `Operation` holds the client's `GlobalOptions` object itself, so it sees later writes of `:last_response`. Here an `Operation` holds the option map as a value, taken when it was built. The model also assumes that `Operation#call` does not write to the client's options itself.
- `BlockInterface#evaluate` is modelled by the options the block sets, merged over the caller's. Blocks that remove options or run other code are not modelled.
- `GlobalOptions` defaults and option validation are not part of this model. The store is a plain map.
- The text of the `InitializationError` message is left out. Only the error kind is modelled.
- Concurrent calls against one client are not modelled. The source has no locking, and the model is sequential.
