/** The enterprise keychain service: a session kept for eight hours after a signed login, wallet
    requests guarded by the extension's availability, Hive Engine token operations, and the
    sequential reward and workflow loops that return one answer per input. */
module EnhancedKeychain {
  import opened Wrappers
  import opened Strings
  import opened Numbers
  import opened KeychainExtension
  import Engine

  datatype AuthenticationData = AuthenticationData(username: string, timestamp: int, signature: Option<Opaque>)

  datatype BatchReward = BatchReward(to: string, amount: string, memo: string)

  datatype Currency = HIVE | HBD
  datatype WorkflowType = Payroll | Expense | Procurement | Treasury

  datatype CorporateTransaction = CorporateTransaction(
    to: string, amount: string, currency: Currency, memo: string, category: WorkflowType)

  /** The balance summary of `getUserBalance`. */
  datatype UserBalance = UserBalance(hive: real, hbd: real, peakeCoin: Num, peakeCoinStaked: Num, estimatedValue: Num)

  /** Eight hours, in milliseconds. */
  const MaxAuthAge := 8 * 60 * 60 * 1000
  const EngineChainId := "ssc-mainnet-hive"
  const Unavailable := "Hive Keychain not available"
  const Insufficient := "Insufficient rewards to distribute"

  function CurrencyText(c: Currency): string {
    match c
    case HIVE => "HIVE"
    case HBD => "HBD"
  }

  function WorkflowText(w: WorkflowType): string {
    match w
    case Payroll => "payroll"
    case Expense => "expense"
    case Procurement => "procurement"
    case Treasury => "treasury"
  }

  /** The text signed at login; `timestamp` is the login time and `nonce` a random token. */
  function AuthMessage(timestamp: nat, nonce: string, requireActive: bool): string {
    "PeakeCorp Enterprise Authentication\nTimestamp: " + NatToString(timestamp) + "\nNonce: " + nonce
      + "\nSecurity Level: " + (if requireActive then "High" else "Standard")
  }

  /** The sign request of `authenticateUser`. */
  function AuthRequest(username: string, timestamp: nat, nonce: string, requireActive: bool): (r: Request)
    ensures r.SignBuffer? && r.username == username
    ensures r.keyType == (if requireActive then "Active" else "Posting")
  {
    SignBuffer(username, AuthMessage(timestamp, nonce, requireActive), if requireActive then "Active" else "Posting")
  }

  /** The request of `transferToken`: a `tokens.transfer` custom JSON on the side chain. */
  function TransferTokenRequest(username: string, to: string, amount: string, symbol: string, memo: string): (r: Request)
    ensures r.CustomJson? && r.username == username && r.id == EngineChainId && r.keyType == "Posting"
    ensures r.json.contractName == "tokens" && r.json.contractAction == "transfer"
    ensures r.json.contractPayload == TokenPayload(symbol, Some(to), amount, Some(memo))
    ensures r.displayName == "Transfer " + amount + " " + symbol + " to " + to
  {
    CustomJson(username, EngineChainId, "Posting",
      TokenOp("tokens", "transfer", TokenPayload(symbol, Some(to), amount, Some(memo))),
      "Transfer " + amount + " " + symbol + " to " + to)
  }

  /** The request of `stakeToken`: the stake goes to the caller's own account. */
  function StakeTokenRequest(username: string, amount: string, symbol: string): (r: Request)
    ensures r.CustomJson? && r.username == username && r.id == EngineChainId && r.keyType == "Posting"
    ensures r.json.contractName == "tokens" && r.json.contractAction == "stake"
    ensures r.json.contractPayload == TokenPayload(symbol, Some(username), amount, None)
    ensures r.displayName == "Stake " + amount + " " + symbol
  {
    CustomJson(username, EngineChainId, "Posting",
      TokenOp("tokens", "stake", TokenPayload(symbol, Some(username), amount, None)),
      "Stake " + amount + " " + symbol)
  }

  /** The request of `unstakeToken`: no recipient and no memo. */
  function UnstakeTokenRequest(username: string, amount: string, symbol: string): (r: Request)
    ensures r.CustomJson? && r.username == username && r.id == EngineChainId && r.keyType == "Posting"
    ensures r.json.contractName == "tokens" && r.json.contractAction == "unstake"
    ensures r.json.contractPayload == TokenPayload(symbol, None, amount, None)
    ensures r.displayName == "Unstake " + amount + " " + symbol
  {
    CustomJson(username, EngineChainId, "Posting",
      TokenOp("tokens", "unstake", TokenPayload(symbol, None, amount, None)),
      "Unstake " + amount + " " + symbol)
  }

  /** The three token operations differ in their contract action and agree on everything that
      routes them to the side chain. */
  lemma TokenOperationsRouteToSideChain(username: string, to: string, amount: string, symbol: string, memo: string)
    ensures var t, s, u := TransferTokenRequest(username, to, amount, symbol, memo),
      StakeTokenRequest(username, amount, symbol), UnstakeTokenRequest(username, amount, symbol);
      t.id == s.id == u.id == EngineChainId && t.json.contractName == s.json.contractName == u.json.contractName
      && t.json.contractAction != s.json.contractAction && s.json.contractAction != u.json.contractAction
      && t.json.contractAction != u.json.contractAction
  {
  }

  /** The transfer of one reward in PEAKE. */
  function RewardRequest(username: string, reward: BatchReward): Request {
    TransferTokenRequest(username, reward.to, reward.amount, Engine.PeakeSymbol, reward.memo)
  }

  function RewardRequests(username: string, rewards: seq<BatchReward>): (r: seq<Request>)
    ensures |r| == |rewards| && forall i :: 0 <= i < |rewards| ==> r[i] == RewardRequest(username, rewards[i])
  {
    seq(|rewards|, i requires 0 <= i < |rewards| => RewardRequest(username, rewards[i]))
  }

  /** The transfer of one workflow transaction, its memo tagged with the upper-cased workflow type. */
  function WorkflowRequest(username: string, workflowType: WorkflowType, tx: CorporateTransaction): (r: Request)
    ensures r.Transfer? && r.username == username && r.to == tx.to && r.amount == tx.amount
    ensures r.memo == "[" + Upper(WorkflowText(workflowType)) + "] " + tx.memo
    ensures r.currency == CurrencyText(tx.currency)
  {
    Transfer(username, tx.to, tx.amount, "[" + Upper(WorkflowText(workflowType)) + "] " + tx.memo, CurrencyText(tx.currency))
  }

  function WorkflowRequests(username: string, workflowType: WorkflowType, txs: seq<CorporateTransaction>): (r: seq<Request>)
    ensures |r| == |txs| && forall i :: 0 <= i < |txs| ==> r[i] == WorkflowRequest(username, workflowType, txs[i])
  {
    seq(|txs|, i requires 0 <= i < |txs| => WorkflowRequest(username, workflowType, txs[i]))
  }

  /** The per-item `try`/`catch` of the loops: a rejected call becomes a failure carrying the
      thrown message, or `fallback` when what was thrown is not an `Error`. */
  function Caught(o: Settled<Response>, fallback: string): (r: Response)
    ensures o.Resolved? ==> r == o.value
    ensures o.Rejected? ==> !r.success && r.error == Some(o.reason.GetOr(fallback))
  {
    match o
    case Resolved(v) => v
    case Rejected(reason) => Failure(reason.GetOr(fallback))
  }

  // Efficiency rewards

  /** 1.5% of the volume, floored. */
  function EfficiencyBase(volume: real): (r: int)
    ensures r as real <= volume * 0.015 < r as real + 1.0
    ensures volume >= 0.0 ==> r >= 0
  {
    (volume * 0.015).Floor
  }

  /** The efficiency bonus: the base times the score as a percentage, floored. */
  function EfficiencyBonus(base: int, score: real): (r: int)
    ensures r as real <= base as real * (score / 100.0) < r as real + 1.0
    ensures base >= 0 && score >= 0.0 ==> r >= 0
  {
    (base as real * (score / 100.0)).Floor
  }

  /** Base, bonus and compliance bonus together. */
  function EfficiencyTotal(volume: real, score: real, compliance: real): (r: real)
    ensures volume >= 0.0 && score >= 0.0 ==> r >= compliance
  {
    var base := EfficiencyBase(volume);
    (base + EfficiencyBonus(base, score)) as real + compliance
  }

  /** `Math.floor(total / n)` for at least one employee. */
  function PerEmployee(total: real, n: nat): (per: int)
    requires n > 0
    ensures per as real * n as real <= total < (per + 1) as real * n as real
  {
    var per := (total / n as real).Floor;
    assert per as real <= total / n as real < (per + 1) as real;
    QuotientBounds(total, n as real, per);
    per
  }

  lemma QuotientBounds(total: real, n: real, per: int)
    requires n > 0.0
    requires per as real <= total / n < (per + 1) as real
    ensures per as real * n <= total < (per + 1) as real * n
  {
    assert per as real * n <= (total / n) * n;
    assert (total / n) * n < (per + 1) as real * n;
  }

  /** Whether the split is refused. With no employees the quotient is an infinity or NaN: only a
      negative total (giving -Infinity) is below 1. */
  predicate InsufficientRewards(total: real, n: nat)
    ensures InsufficientRewards(total, n) <==> total < n as real || (n == 0 && total < 0.0)
  {
    if n > 0 then PerEmployee(total, n) < 1 else total < 0.0
  }

  /** The memo of every efficiency reward; `show` renders a number as JavaScript does. */
  function EfficiencyMemo(volume: real, score: real, compliance: real, show: real -> string): string {
    "PeakeCorp Efficiency Reward - Volume: " + show(volume) + ", Score: " + show(score) + "%, Compliance: +" + show(compliance)
  }

  /** The rewards of `distributeCorporateEfficiencyRewards`, or `None` when the split is refused. */
  function EfficiencyRewards(employees: seq<string>, volume: real, score: real, compliance: real, show: real -> string): (r: Option<seq<BatchReward>>)
    ensures r.None? <==> InsufficientRewards(EfficiencyTotal(volume, score, compliance), |employees|)
    ensures r.Some? ==> |r.value| == |employees|
    ensures r.Some? && |employees| > 0 ==> forall i :: 0 <= i < |employees| ==>
      r.value[i] == BatchReward(employees[i], NatToString(PerEmployee(EfficiencyTotal(volume, score, compliance), |employees|)),
                                EfficiencyMemo(volume, score, compliance, show))
  {
    var total := EfficiencyTotal(volume, score, compliance);
    if InsufficientRewards(total, |employees|) then None
    else if |employees| == 0 then Some([])
    else
      var per := PerEmployee(total, |employees|);
      var memo := EfficiencyMemo(volume, score, compliance, show);
      Some(seq(|employees|, i requires 0 <= i < |employees| => BatchReward(employees[i], NatToString(per), memo)))
  }

  /** Every employee gets the same whole amount of at least 1, and together they never get more
      than the total: what is left over is less than one share per employee. */
  lemma {:induction false} EfficiencySplitIsFair(employees: seq<string>, volume: real, score: real, compliance: real, show: real -> string)
    requires |employees| > 0
    requires EfficiencyRewards(employees, volume, score, compliance, show).Some?
    ensures var total, n := EfficiencyTotal(volume, score, compliance), |employees|;
      var per := PerEmployee(total, n);
      per >= 1 && per as real * n as real <= total && total - per as real * n as real < n as real
  {
    var total, n := EfficiencyTotal(volume, score, compliance), |employees|;
    var per := PerEmployee(total, n);
    assert total < (per + 1) as real * n as real;
  }

  /** Base and bonus are whole and non-negative for a non-negative volume and score, so the
      total is at least the compliance bonus. */
  lemma EfficiencyTotalBounds(volume: real, score: real, compliance: real)
    requires volume >= 0.0 && score >= 0.0
    ensures EfficiencyBase(volume) >= 0 && EfficiencyBonus(EfficiencyBase(volume), score) >= 0
    ensures EfficiencyTotal(volume, score, compliance) >= compliance
  {
    assert volume * 0.015 >= 0.0;
    var base := EfficiencyBase(volume);
    var pct := score / 100.0;
    assert base >= 0 && pct >= 0.0;
    assert base as real * pct >= 0.0;
  }

  /** `getUserBalance`: PEAKE balance and stake from the two side-chain queries (absent when a
      query failed); the main-chain balances are not fetched and read 0. */
  function GetUserBalance(balanceQuery: Option<seq<Engine.HiveEngineToken>>, stakeQuery: Option<seq<Engine.HiveEngineToken>>): (r: UserBalance)
    ensures r.hive == 0.0 && r.hbd == 0.0
    ensures r.peakeCoin == Engine.PeakeCoinBalance(balanceQuery) && r.peakeCoinStaked == Engine.PeakeCoinStake(stakeQuery)
    ensures r.estimatedValue == r.peakeCoin.Times(Engine.FallbackPrice)
  {
    var peake := Engine.PeakeCoinBalance(balanceQuery);
    UserBalance(0.0, 0.0, peake, Engine.PeakeCoinStake(stakeQuery), peake.Times(0.05))
  }

  class Service {
    /** The wallet extension of the page. */
    const extension: Extension
    var isAvailable: bool
    var isInitialized: bool
    var currentUser: Option<string>
    var authData: Option<AuthenticationData>
    /** The `peakecorp_auth` entry of local storage, as parsed; `None` when absent or unreadable. */
    var stored: Option<AuthenticationData>

    /** Creates the service and runs `initialize` to completion: `extension.installed` is the
        extension's presence once the polling is over, `stored` what local storage holds. */
    constructor (extension: Extension, stored: Option<AuthenticationData>)
      ensures this.extension == extension && this.stored == stored
      ensures isInitialized && isAvailable == extension.installed
      ensures authData == (if extension.installed then stored else None)
      ensures currentUser == (if extension.installed && stored.Some? && stored.value.username != "" then Some(stored.value.username) else None)
    {
      this.extension := extension;
      this.stored := stored;
      isAvailable := extension.installed;
      isInitialized := true;
      currentUser := None;
      authData := None;
      new;
      if isAvailable {
        LoadAuthenticationData();
      }
    }

    /** Reads the stored session; an empty user name counts as no user. */
    method LoadAuthenticationData()
      modifies this
      ensures stored == old(stored) && isAvailable == old(isAvailable) && isInitialized == old(isInitialized)
      ensures stored.Some? ==> authData == stored && currentUser == (if stored.value.username != "" then Some(stored.value.username) else None)
      ensures stored.None? ==> authData == old(authData) && currentUser == old(currentUser)
    {
      if stored.Some? {
        authData := stored;
        currentUser := if stored.value.username != "" then Some(stored.value.username) else None;
      }
    }

    /** A session is valid for eight hours from its timestamp. */
    predicate IsAuthenticated(now: int)
      reads this
    {
      authData.Some? && now - authData.value.timestamp < MaxAuthAge
    }

    function GetCurrentUser(now: int): (r: Option<string>)
      reads this
      ensures !IsAuthenticated(now) ==> r.None?
      ensures IsAuthenticated(now) ==> r == currentUser
    {
      if IsAuthenticated(now) then currentUser else None
    }

    /** A session valid at some time was valid at every earlier time and is gone eight hours after
        its timestamp. */
    lemma SessionWindow(now: int, earlier: int)
      requires IsAuthenticated(now) && earlier <= now
      ensures IsAuthenticated(earlier)
      ensures !IsAuthenticated(authData.value.timestamp + MaxAuthAge)
    {
    }

    method SaveAuthenticationData(data: AuthenticationData)
      modifies this
      ensures authData == Some(data) && currentUser == Some(data.username) && stored == Some(data)
      ensures isAvailable == old(isAvailable) && isInitialized == old(isInitialized)
      ensures forall t :: data.timestamp <= t < data.timestamp + MaxAuthAge ==> GetCurrentUser(t) == Some(data.username)
    {
      authData := Some(data);
      currentUser := Some(data.username);
      stored := Some(data);
    }

    method SignOut()
      modifies this
      ensures currentUser.None? && authData.None? && stored.None?
      ensures isAvailable == old(isAvailable) && isInitialized == old(isInitialized)
      ensures forall t :: !IsAuthenticated(t) && GetCurrentUser(t).None?
    {
      currentUser := None;
      authData := None;
      stored := None;
    }

    /** What a guarded request answers: the wallet's answer, or a failure when it is unavailable. */
    function Outcome(req: Request): Settled<Response>
      reads this
    {
      if isAvailable then extension.respond(req) else Resolved(Failure(Unavailable))
    }

    /** The requests that actually reach the wallet: all of them or, when unavailable, none. */
    function Dispatched(reqs: seq<Request>): seq<Request>
      reads this
    {
      if isAvailable then reqs else []
    }

    /** The availability guard shared by `transfer`, `powerUp` and `customJson`. */
    method Dispatch(req: Request) returns (o: Settled<Response>)
      modifies extension
      ensures o == Outcome(req)
      ensures extension.received == old(extension.received) + Dispatched([req])
      ensures !isAvailable ==> o == Resolved(Failure(Unavailable)) && extension.received == old(extension.received)
    {
      if !isAvailable {
        o := Resolved(Failure(Unavailable));
      } else {
        o := extension.Call(req);
      }
    }

    /** `authenticateUser`: signs a login message; `now` is the clock and `nonce` the random token.
        The session is saved exactly when the wallet answers with success. */
    method AuthenticateUser(username: string, requireActive: bool, now: nat, nonce: string) returns (o: Settled<Response>)
      modifies this, extension
      ensures o == Outcome(AuthRequest(username, now, nonce, requireActive))
      ensures extension.received == old(extension.received) + Dispatched([AuthRequest(username, now, nonce, requireActive)])
      ensures isAvailable == old(isAvailable) && isInitialized == old(isInitialized)
      ensures o.Resolved? && o.value.success ==>
        authData == Some(AuthenticationData(username, now, o.value.result)) && stored == authData
        && forall t :: now <= t < now + MaxAuthAge ==> GetCurrentUser(t) == Some(username)
      ensures !(o.Resolved? && o.value.success) ==>
        authData == old(authData) && currentUser == old(currentUser) && stored == old(stored)
    {
      var req := AuthRequest(username, now, nonce, requireActive);
      o := Dispatch(req);
      if o.Resolved? && o.value.success {
        SaveAuthenticationData(AuthenticationData(username, now, o.value.result));
      }
    }

    /** `transfer`; the currency is passed on as text, whatever it is. */
    method Transfer(username: string, to: string, amount: string, memo: string, currency: string) returns (o: Settled<Response>)
      modifies extension
      ensures o == Outcome(Request.Transfer(username, to, amount, memo, currency))
      ensures extension.received == old(extension.received) + Dispatched([Request.Transfer(username, to, amount, memo, currency)])
    {
      o := Dispatch(Request.Transfer(username, to, amount, memo, currency));
    }

    method PowerUp(username: string, to: string, amount: string) returns (o: Settled<Response>)
      modifies extension
      ensures o == Outcome(Request.PowerUp(username, to, amount))
      ensures extension.received == old(extension.received) + Dispatched([Request.PowerUp(username, to, amount)])
    {
      o := Dispatch(Request.PowerUp(username, to, amount));
    }

    method CustomJson(username: string, id: string, json: TokenOp, displayName: string, keyType: string) returns (o: Settled<Response>)
      modifies extension
      ensures o == Outcome(Request.CustomJson(username, id, keyType, json, displayName))
      ensures extension.received == old(extension.received) + Dispatched([Request.CustomJson(username, id, keyType, json, displayName)])
    {
      o := Dispatch(Request.CustomJson(username, id, keyType, json, displayName));
    }

    method TransferToken(username: string, to: string, amount: string, symbol: string, memo: string) returns (o: Settled<Response>)
      modifies extension
      ensures o == Outcome(TransferTokenRequest(username, to, amount, symbol, memo))
      ensures extension.received == old(extension.received) + Dispatched([TransferTokenRequest(username, to, amount, symbol, memo)])
    {
      var r := TransferTokenRequest(username, to, amount, symbol, memo);
      o := CustomJson(username, r.id, r.json, r.displayName, r.keyType);
    }

    method StakeToken(username: string, amount: string, symbol: string) returns (o: Settled<Response>)
      modifies extension
      ensures o == Outcome(StakeTokenRequest(username, amount, symbol))
      ensures extension.received == old(extension.received) + Dispatched([StakeTokenRequest(username, amount, symbol)])
    {
      var r := StakeTokenRequest(username, amount, symbol);
      o := CustomJson(username, r.id, r.json, r.displayName, r.keyType);
    }

    method UnstakeToken(username: string, amount: string, symbol: string) returns (o: Settled<Response>)
      modifies extension
      ensures o == Outcome(UnstakeTokenRequest(username, amount, symbol))
      ensures extension.received == old(extension.received) + Dispatched([UnstakeTokenRequest(username, amount, symbol)])
    {
      var r := UnstakeTokenRequest(username, amount, symbol);
      o := CustomJson(username, r.id, r.json, r.displayName, r.keyType);
    }

    /** The answers of `distributePeakeCoinRewards`, one per reward. */
    function RewardAnswers(username: string, rewards: seq<BatchReward>): (r: seq<Response>)
      reads this
      ensures |r| == |rewards|
      ensures forall i :: 0 <= i < |rewards| ==> r[i] == Caught(Outcome(RewardRequest(username, rewards[i])), "Unknown error")
    {
      seq(|rewards|, i requires 0 <= i < |rewards| reads this => Caught(Outcome(RewardRequest(username, rewards[i])), "Unknown error"))
    }

    /** The answers of `executeCorporateWorkflow`, one per transaction. */
    function WorkflowAnswers(username: string, workflowType: WorkflowType, txs: seq<CorporateTransaction>): (r: seq<Response>)
      reads this
      ensures |r| == |txs|
      ensures forall i :: 0 <= i < |txs| ==> r[i] == Caught(Outcome(WorkflowRequest(username, workflowType, txs[i])), "Transaction failed")
    {
      seq(|txs|, i requires 0 <= i < |txs| reads this => Caught(Outcome(WorkflowRequest(username, workflowType, txs[i])), "Transaction failed"))
    }

    /** Sends each reward in PEAKE, one after the other; one answer per reward, in order, a
        rejected call recorded as a failure without stopping the loop. */
    method DistributePeakeCoinRewards(username: string, rewards: seq<BatchReward>) returns (results: seq<Response>)
      modifies extension
      ensures results == RewardAnswers(username, rewards)
      ensures extension.received == old(extension.received) + Dispatched(RewardRequests(username, rewards))
    {
      results := [];
      var i := 0;
      while i < |rewards|
        invariant 0 <= i <= |rewards| && |results| == i
        invariant forall k :: 0 <= k < i ==> results[k] == Caught(Outcome(RewardRequest(username, rewards[k])), "Unknown error")
        invariant extension.received == old(extension.received) + Dispatched(RewardRequests(username, rewards)[..i])
      {
        var o := TransferToken(username, rewards[i].to, rewards[i].amount, Engine.PeakeSymbol, rewards[i].memo);
        results := results + [Caught(o, "Unknown error")];
        assert RewardRequests(username, rewards)[..i + 1] == RewardRequests(username, rewards)[..i] + [RewardRequest(username, rewards[i])];
        i := i + 1;
      }
      assert RewardRequests(username, rewards)[..i] == RewardRequests(username, rewards);
    }

    /** Sends each workflow transaction as a transfer with its memo tagged by the workflow type;
        one answer per transaction, in order. */
    method ExecuteCorporateWorkflow(username: string, workflowType: WorkflowType, txs: seq<CorporateTransaction>) returns (results: seq<Response>)
      modifies extension
      ensures results == WorkflowAnswers(username, workflowType, txs)
      ensures extension.received == old(extension.received) + Dispatched(WorkflowRequests(username, workflowType, txs))
    {
      results := [];
      var i := 0;
      while i < |txs|
        invariant 0 <= i <= |txs| && |results| == i
        invariant forall k :: 0 <= k < i ==> results[k] == Caught(Outcome(WorkflowRequest(username, workflowType, txs[k])), "Transaction failed")
        invariant extension.received == old(extension.received) + Dispatched(WorkflowRequests(username, workflowType, txs)[..i])
      {
        var memo := "[" + Upper(WorkflowText(workflowType)) + "] " + txs[i].memo;
        var o := Transfer(username, txs[i].to, txs[i].amount, memo, CurrencyText(txs[i].currency));
        results := results + [Caught(o, "Transaction failed")];
        assert WorkflowRequests(username, workflowType, txs)[..i + 1] == WorkflowRequests(username, workflowType, txs)[..i] + [WorkflowRequest(username, workflowType, txs[i])];
        i := i + 1;
      }
      assert WorkflowRequests(username, workflowType, txs)[..i] == WorkflowRequests(username, workflowType, txs);
    }

    /** Splits the efficiency reward equally and sends it, or answers with a single failure and
        sends nothing when a share would be below 1. The compliance bonus defaults to 0. */
    method DistributeCorporateEfficiencyRewards(corporate: string, employees: seq<string>, volume: real, score: real,
                                                show: real -> string, compliance: real := 0.0) returns (results: seq<Response>)
      modifies extension
      ensures EfficiencyRewards(employees, volume, score, compliance, show).None? ==>
        results == [Failure(Insufficient)] && extension.received == old(extension.received)
      ensures EfficiencyRewards(employees, volume, score, compliance, show).Some? ==>
        var rewards := EfficiencyRewards(employees, volume, score, compliance, show).value;
        results == RewardAnswers(corporate, rewards)
        && extension.received == old(extension.received) + Dispatched(RewardRequests(corporate, rewards))
    {
      var plan := EfficiencyRewards(employees, volume, score, compliance, show);
      if plan.None? {
        results := [Failure(Insufficient)];
      } else {
        results := DistributePeakeCoinRewards(corporate, plan.value);
      }
    }
  }
}
