/** `bridgeETH`: configure the relay client once, then drive every private
    key, in order, through wallet build, amount parsing, quote and execute,
    catching each key's failure and watching execute's progress snapshots
    for the first transaction hash.

    The relay SDK, the wallet adapter and the ether unit codec are not part
    of this model: what they return is an input. */
module Bridge {
  import opened Wrappers
  import opened Network
  import opened Progress

  /** The four levels the logger is called with. */
  datatype Level = INFO | DEBUG | SUCCESS | ERROR

  /** One logger call, reduced to the parts its message is built from. */
  datatype LogEntry =
    | Info(keyPrefix: string)                                // processing wallet <prefix>...
    | Debug                                                  // quote fetched
    | Success(amount: string, destination: int, url: string) // bridged <amount> ETH to <destination> with hash <url>
    | Error(keyPrefix: string, message: string)              // error processing wallet <prefix>: <message>

  function LevelOf(e: LogEntry): Level
  {
    match e
    case Info(_) => INFO
    case Debug => DEBUG
    case Success(_, _, _) => SUCCESS
    case Error(_, _) => ERROR
  }

  function Levels(log: seq<LogEntry>): seq<Level>
  {
    if log == [] then [] else [LevelOf(log[0])] + Levels(log[1..])
  }

  /** How many characters of a private key the log may show. */
  const PrefixLength: nat := 6

  /** `privateKey.slice(0, 6)`: the whole key when it is shorter. */
  function KeyPrefix(privateKey: string): (prefix: string)
    ensures prefix <= privateKey
    ensures |prefix| == if |privateKey| < PrefixLength then |privateKey| else PrefixLength
  {
    if |privateKey| <= PrefixLength then privateKey else privateKey[..PrefixLength]
  }

  // What the foreign calls do for one key, supplied as input.

  /** How `execute` ends after delivering its snapshots: it resolves, or it throws. */
  datatype ExecEnd = Settled | ExecFails(message: string)

  /** `getQuote` throws, or returns a quote whose execution delivers `snapshots`, in order, to `onProgress`. */
  datatype QuoteOutcome =
    | QuoteFails(message: string)
    | QuoteOk(snapshots: seq<Snapshot>, end: ExecEnd)

  /** `createAdaptedWallet` throws, or builds a wallet with which the quote call has `quote` as outcome. */
  datatype Outcome =
    | WalletFails(message: string)
    | WalletBuilt(quote: QuoteOutcome)

  /** One element of `privateKeys`, with what the foreign calls do for it. */
  datatype KeyAttempt = KeyAttempt(privateKey: string, outcome: Outcome)

  /** What the ether unit codec makes of the `amount` argument:
      `parseEther(amount.trim())` throws, or gives an amount in wei, which
      `formatEther` renders as `formatted`. Both calls are deterministic, so every key sees
      the same value. */
  datatype Amount = Unparsable(message: string) | Parsed(formatted: string)

  /** The arguments every key shares. */
  datatype Request = Request(destinationChainId: int, amount: Amount, explorerUrl: string)

  /** What a SUCCESS line is built from, besides the hash. */
  datatype SuccessLine = SuccessLine(amount: string, destination: int, explorerUrl: string)

  function LineFor(req: Request): SuccessLine
    requires req.amount.Parsed?
  {
    SuccessLine(req.amount.formatted, req.destinationChainId, req.explorerUrl)
  }

  /** The SUCCESS entry for a snapshot: explorer prefix followed by the snapshot's first hash. */
  function SuccessFor(line: SuccessLine, p: Snapshot): LogEntry
    requires HasHash(p)
  {
    Success(line.amount, line.destination, line.explorerUrl + FirstHash(p))
  }

  /** One call of `onProgress`: the new `logged` flag and the entries it logs. */
  function ProgressStep(line: SuccessLine, logged: bool, p: Snapshot): (bool, seq<LogEntry>)
  {
    if HasHash(p) && !logged then (true, [SuccessFor(line, p)]) else (logged, [])
  }

  /** The `logged` flag and the entries after `onProgress` has seen
      `snapshots` in order, starting from `logged = false`. */
  function Watch(line: SuccessLine, snapshots: seq<Snapshot>): (bool, seq<LogEntry>)
  {
    if snapshots == [] then (false, [])
    else
      var before := Watch(line, snapshots[..|snapshots| - 1]);
      var step := ProgressStep(line, before.0, snapshots[|snapshots| - 1]);
      (step.0, before.1 + step.1)
  }

  /** The `try` block after its INFO line: the entries it logs and the
      message of the error that reaches the `catch`, if any. */
  function TryBlock(req: Request, outcome: Outcome): (seq<LogEntry>, Option<string>)
  {
    match outcome
    case WalletFails(m) => ([], Some(m))
    case WalletBuilt(quote) =>
      match req.amount
      case Unparsable(m) => ([], Some(m))
      case Parsed(_) =>
        match quote
        case QuoteFails(m) => ([], Some(m))
        case QuoteOk(snapshots, end) =>
          ([Debug] + Watch(LineFor(req), snapshots).1,
           if end.ExecFails? then Some(end.message) else None)
  }

  /** Everything one key logs. */
  function WalletLog(req: Request, attempt: KeyAttempt): seq<LogEntry>
  {
    var prefix := KeyPrefix(attempt.privateKey);
    var tried := TryBlock(req, attempt.outcome);
    [Info(prefix)] + tried.0 + if tried.1.Some? then [Error(prefix, tried.1.value)] else []
  }

  /** Everything the keys log, one after another. */
  function BatchLog(req: Request, attempts: seq<KeyAttempt>): seq<LogEntry>
  {
    if attempts == [] then []
    else BatchLog(req, attempts[..|attempts| - 1]) + WalletLog(req, attempts[|attempts| - 1])
  }

  /** The quote was fetched: the wallet was built, the amount parsed and `getQuote` returned. */
  predicate QuoteFetched(req: Request, outcome: Outcome)
  {
    outcome.WalletBuilt? && req.amount.Parsed? && outcome.quote.QuoteOk?
  }

  /** Some snapshot carries a transaction hash. */
  predicate AnyHash(snapshots: seq<Snapshot>)
  {
    exists i :: 0 <= i < |snapshots| && HasHash(snapshots[i])
  }

  /** `snapshots[j]` is the first snapshot that carries a hash. */
  predicate FirstWithHash(snapshots: seq<Snapshot>, j: int)
  {
    0 <= j < |snapshots| && HasHash(snapshots[j]) &&
    forall i :: 0 <= i < j ==> !HasHash(snapshots[i])
  }

  // The code itself.

  /** The `onProgress` closure; `logged` is the variable it captures. */
  method OnProgress(line: SuccessLine, progress: Snapshot, logged: bool, log: seq<LogEntry>)
    returns (logged': bool, log': seq<LogEntry>)
    ensures logged' == (logged || HasHash(progress))
    ensures !logged && HasHash(progress) ==> log' == log + [SuccessFor(line, progress)]
    ensures logged || !HasHash(progress) ==> log' == log
    ensures logged' == ProgressStep(line, logged, progress).0 && log' == log + ProgressStep(line, logged, progress).1
  {
    var txHashes := TxHashes(progress);
    logged', log' := logged, log;
    if txHashes.Some? && |txHashes.value| > 0 && !logged {
      log' := log' + [Success(line.amount, line.destination, line.explorerUrl + txHashes.value[0])];
      logged' := true;
    }
  }

  /** The `execute` call: a fresh `logged` flag, then every snapshot handed to `onProgress` in order. */
  method Execute(line: SuccessLine, snapshots: seq<Snapshot>, log: seq<LogEntry>) returns (log': seq<LogEntry>)
    ensures log' == log + Watch(line, snapshots).1
  {
    var logged := false;
    log' := log;
    for k := 0 to |snapshots|
      invariant logged == Watch(line, snapshots[..k]).0
      invariant log' == log + Watch(line, snapshots[..k]).1
    {
      assert snapshots[..k + 1][..k] == snapshots[..k];
      logged, log' := OnProgress(line, snapshots[k], logged, log');
    }
    assert snapshots[..|snapshots|] == snapshots;
  }

  /** One iteration of the key loop: the `try` block and its `catch`. */
  method ProcessKey(req: Request, attempt: KeyAttempt, log: seq<LogEntry>) returns (log': seq<LogEntry>)
    ensures log' == log + WalletLog(req, attempt)
  {
    var prefix := KeyPrefix(attempt.privateKey);
    log' := log + [Info(prefix)];
    var failure: Option<string> := None;
    match attempt.outcome {
      case WalletFails(m) =>
        failure := Some(m);
      case WalletBuilt(quote) =>
        var parsedAmount := req.amount;
        if parsedAmount.Unparsable? {
          failure := Some(parsedAmount.message);
        } else {
          match quote {
            case QuoteFails(m) =>
              failure := Some(m);
            case QuoteOk(snapshots, end) =>
              log' := log' + [Debug];
              log' := Execute(LineFor(req), snapshots, log');
              if end.ExecFails? {
                failure := Some(end.message);
              }
          }
        }
    }
    if failure.Some? {
      log' := log' + [Error(prefix, failure.value)];
    }
  }

  /** `bridgeETH`: the client configurations created (one) and the log written. */
  method BridgeEth(originChainId: int, destinationChainId: int, amount: Amount,
                   attempts: seq<KeyAttempt>, explorerUrl: string)
    returns (clients: seq<ClientConfig>, log: seq<LogEntry>)
    ensures clients == [SelectNetwork(originChainId)]
    ensures log == BatchLog(Request(destinationChainId, amount, explorerUrl), attempts)
  {
    clients := [SelectNetwork(originChainId)];
    var req := Request(destinationChainId, amount, explorerUrl);
    log := [];
    for i := 0 to |attempts|
      invariant log == BatchLog(req, attempts[..i])
    {
      assert attempts[..i + 1][..i] == attempts[..i];
      log := ProcessKey(req, attempts[i], log);
    }
    assert attempts[..|attempts|] == attempts;
  }
}
