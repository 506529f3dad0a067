/** The browser wallet extension (`window.hive_keychain`) that both keychain services talk to.
    It is outside the application: the model gives it a fixed answer for every request
    (`respond`) and a log of every request it was handed (`received`). */
module KeychainExtension {
  import opened Wrappers

  /** The `result` payload of a wallet answer; the application only ever reads `transactionId`. */
  datatype Opaque = Opaque(transactionId: Option<string>, text: string)

  /** The wallet's callback argument. */
  datatype Response = Response(success: bool, message: Option<string>, result: Option<Opaque>, error: Option<string>)

  /** How a promise settles: resolved with a value, or rejected; the reason is the message of a
      thrown `Error`, and absent when something other than an `Error` was thrown. */
  datatype Settled<T> = Resolved(value: T) | Rejected(reason: Option<string>)

  /** A blockchain operation `[opType, opData]`; `fields` holds the string fields of `opData`. */
  datatype Operation = Operation(opType: string, fields: map<string, string>)

  /** The `contractPayload` of a Hive Engine token operation; absent keys are `None`. */
  datatype TokenPayload = TokenPayload(symbol: string, to: Option<string>, quantity: string, memo: Option<string>)

  /** The JSON object sent to the Hive Engine side chain. */
  datatype TokenOp = TokenOp(contractName: string, contractAction: string, contractPayload: TokenPayload)

  /** The wallet requests the application makes, with their arguments in call order; `keyType` is
      the key the wallet is asked to sign with (the `method` argument: "Posting", "Active", ...). */
  datatype Request =
    | SignBuffer(username: string, message: string, keyType: string)
    | Transfer(username: string, to: string, amount: string, memo: string, currency: string)
    | PowerUp(username: string, to: string, amount: string)
    | CustomJson(username: string, id: string, keyType: string, json: TokenOp, displayName: string)
    | Broadcast(username: string, operations: seq<Operation>, keyType: string)

  /** A failed answer carrying only an error text, as the services build them. */
  function Failure(error: string): (r: Response)
    ensures !r.success && r.error == Some(error)
  {
    Response(false, None, None, Some(error))
  }

  class Extension {
    /** Whether the extension is installed (`window.hive_keychain?.isInstalled`). */
    const installed: bool
    /** The wallet's answer to each request: how the user and the chain respond. */
    const respond: Request -> Settled<Response>
    /** Every request handed to the wallet so far, oldest first. */
    var received: seq<Request>

    constructor (installed: bool, respond: Request -> Settled<Response>)
      ensures this.installed == installed && this.respond == respond && received == []
    {
      this.installed := installed;
      this.respond := respond;
      received := [];
    }

    /** Hands one request to the wallet and waits for its callback. */
    method Call(req: Request) returns (o: Settled<Response>)
      modifies this
      ensures received == old(received) + [req]
      ensures o == respond(req)
    {
      received := received + [req];
      o := respond(req);
    }
  }
}
