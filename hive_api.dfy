/** The Hive API helpers: reading sender, recipient, amount, currency and memo out of a raw
    operation, the approximate resource-credit cost table, the shape of the account history, and
    the direct-submission path that refuses every transaction. The RPC client is left out: the
    history it would return is a parameter. */
module HiveApi {
  import opened Wrappers
  import opened Strings
  import opened Numbers
  import opened KeychainExtension

  /** `opData.key` of a raw operation, absent when the key is not there. */
  function Field(op: Operation, key: string): (r: Option<string>)
    ensures r.Some? <==> key in op.fields
    ensures r.Some? ==> r.value == op.fields[key]
  {
    if key in op.fields then Some(op.fields[key]) else None
  }

  /** JavaScript truthiness of an optional string. */
  predicate Truthy(s: Option<string>) {
    s.Some? && s.value != ""
  }

  /** `a || b` on optional strings. */
  function Or(a: Option<string>, b: Option<string>): (r: Option<string>)
    ensures Truthy(a) ==> r == a
    ensures !Truthy(a) ==> r == b
  {
    if Truthy(a) then a else b
  }

  /** `extractFromAddress`: the named operation types read their own key as is (possibly
      undefined); any other type falls back from `from` to `account` to the empty string. */
  function ExtractFromAddress(op: Operation): (r: Option<string>)
    ensures r.None? ==> op.opType in {"transfer", "transfer_to_vesting", "withdraw_vesting"}
    ensures op.opType == "withdraw_vesting" ==> r == Field(op, "account")
    ensures op.opType != "withdraw_vesting" && Truthy(Field(op, "from")) ==> r == Field(op, "from")
    ensures op.opType !in {"transfer", "transfer_to_vesting", "withdraw_vesting"} && !Truthy(Field(op, "from")) ==>
      r == Some(OrElse(Field(op, "account"), ""))
  {
    match op.opType
    case "transfer" => Field(op, "from")
    case "transfer_to_vesting" => Field(op, "from")
    case "withdraw_vesting" => Field(op, "account")
    case _ => Some(OrElse(Or(Field(op, "from"), Field(op, "account")), ""))
  }

  /** `extractToAddress`: `to` as is for transfers, `to || ''` otherwise. */
  function ExtractToAddress(op: Operation): (r: Option<string>)
    ensures r.None? ==> op.opType in {"transfer", "transfer_to_vesting"} && "to" !in op.fields
    ensures "to" in op.fields && op.fields["to"] != "" ==> r == Some(op.fields["to"])
    ensures op.opType !in {"transfer", "transfer_to_vesting"} && !Truthy(Field(op, "to")) ==> r == Some("")
  {
    match op.opType
    case "transfer" => Field(op, "to")
    case "transfer_to_vesting" => Field(op, "to")
    case _ => Some(OrElse(Field(op, "to"), ""))
  }

  /** `extractAmount`: the number before the first space of a truthy `amount`, else 0. */
  function ExtractAmount(op: Operation): (r: Num)
    ensures !Truthy(Field(op, "amount")) ==> r == Finite(0.0)
    ensures Truthy(Field(op, "amount")) ==> r == ParseFloat(FirstField(op.fields["amount"]))
  {
    var amount := Field(op, "amount");
    if Truthy(amount) then ParseFloat(FirstField(amount.value)) else Finite(0.0)
  }

  /** `extractCurrency`: the token after the first space of a truthy `amount` (undefined when there
      is no space), else `'HIVE'`. */
  function ExtractCurrency(op: Operation): (r: Option<string>)
    ensures !Truthy(Field(op, "amount")) ==> r == Some("HIVE")
    ensures Truthy(Field(op, "amount")) ==> r == SecondField(op.fields["amount"])
    ensures r.Some? ==> ' ' !in r.value
  {
    var amount := Field(op, "amount");
    if Truthy(amount) then SecondField(amount.value) else Some("HIVE")
  }

  /** `extractMemo`: `memo || ''`. */
  function ExtractMemo(op: Operation): (r: string)
    ensures Truthy(Field(op, "memo")) ==> r == op.fields["memo"]
    ensures !Truthy(Field(op, "memo")) ==> r == ""
  {
    OrElse(Field(op, "memo"), "")
  }

  lemma {:induction false} SpaceIndexOfDigits(d: string, rest: string)
    requires forall i :: 0 <= i < |d| ==> IsDigit(d[i])
    ensures SpaceIndex(d + " " + rest) == |d|
  {
    if d != [] {
      assert (d + " " + rest)[1..] == d[1..] + " " + rest;
      SpaceIndexOfDigits(d[1..], rest);
    } else {
      assert (d + " " + rest)[0] == ' ';
    }
  }

  /** An amount written `"<n> <SYM>"` reads back as the number `n` in currency `SYM`. */
  lemma AmountRoundTrip(opType: string, fields: map<string, string>, n: nat, symbol: string)
    requires ' ' !in symbol
    ensures var op := Operation(opType, fields["amount" := NatToString(n) + " " + symbol]);
      ExtractAmount(op) == Finite(n as real) && ExtractCurrency(op) == Some(symbol)
  {
    var d := NatToString(n);
    var s := d + " " + symbol;
    SpaceIndexOfDigits(d, symbol);
    assert s[..|d|] == d;
    assert s[|d| + 1..] == symbol;
    assert SpaceIndex(symbol) == |symbol|;
    assert symbol[..|symbol|] == symbol;
    ParseFloatOfNatToString(n);
  }

  /** `calculateResourceCost`: the approximate resource-credit cost of an operation type. */
  function CalculateResourceCost(opType: string): (r: nat)
    ensures 10 <= r <= 500
    ensures r == 10 <==> opType !in {"transfer", "transfer_to_vesting", "comment", "vote"}
    ensures opType == "transfer" ==> r == 100
    ensures opType == "transfer_to_vesting" ==> r == 150
    ensures opType == "comment" ==> r == 500
    ensures opType == "vote" ==> r == 50
  {
    match opType
    case "transfer" => 100
    case "transfer_to_vesting" => 150
    case "comment" => 500
    case "vote" => 50
    case _ => 10
  }

  // Account history

  /** One `[id, op]` entry of the account history the node returns. */
  datatype HistoryEntry = HistoryEntry(id: nat, op: Operation, timestamp: string, block: nat, trxId: string)

  datatype HiveTransaction = HiveTransaction(
    id: string, txType: string, timestamp: string, from: Option<string>, to: Option<string>,
    amount: Num, currency: Option<string>, memo: string, blockNumber: nat, transactionId: string,
    status: string, resourceCost: nat, metadata: map<string, string>)

  datatype HiveTransactionHistory = HiveTransactionHistory(transactions: seq<HiveTransaction>, totalCount: nat, hasMore: bool)

  function ToTransaction(e: HistoryEntry): HiveTransaction {
    HiveTransaction(NatToString(e.id), e.op.opType, e.timestamp, ExtractFromAddress(e.op), ExtractToAddress(e.op),
                    ExtractAmount(e.op), ExtractCurrency(e.op), ExtractMemo(e.op), e.block, e.trxId,
                    "completed", CalculateResourceCost(e.op.opType), e.op.fields)
  }

  /** `getTransactionHistory` over the history the node returned for `limit`. */
  function GetTransactionHistory(history: seq<HistoryEntry>, limit: int): (r: HiveTransactionHistory)
    ensures |r.transactions| == r.totalCount == |history|
    ensures r.hasMore <==> |history| == limit
    ensures forall i :: 0 <= i < |history| ==> r.transactions[i].status == "completed"
    ensures forall i :: 0 <= i < |history| ==>
      r.transactions[i].id == NatToString(history[i].id)
      && r.transactions[i].txType == history[i].op.opType
      && r.transactions[i].resourceCost == CalculateResourceCost(history[i].op.opType)
      && r.transactions[i].metadata == history[i].op.fields
    ensures forall i :: 0 <= i < |history| ==>
      var t, e := r.transactions[i], history[i];
      t.from == ExtractFromAddress(e.op) && t.to == ExtractToAddress(e.op) && t.amount == ExtractAmount(e.op)
      && t.currency == ExtractCurrency(e.op) && t.memo == ExtractMemo(e.op)
      && t.timestamp == e.timestamp && t.blockNumber == e.block && t.transactionId == e.trxId
  {
    HiveTransactionHistory(seq(|history|, i requires 0 <= i < |history| => ToTransaction(history[i])), |history|, |history| == limit)
  }

  /** Distinct history ids give distinct transaction ids. */
  lemma HistoryIdsDistinct(history: seq<HistoryEntry>, limit: int, i: nat, j: nat)
    requires i < |history| && j < |history| && history[i].id != history[j].id
    ensures GetTransactionHistory(history, limit).transactions[i].id != GetTransactionHistory(history, limit).transactions[j].id
  {
    DigitsValueOfNat(history[i].id);
    DigitsValueOfNat(history[j].id);
  }

  // Direct submission

  datatype TxKind = Transfer | TransferToVesting | CustomJson
  datatype Currency = HIVE | HBD | PEAKE
  datatype BatchTransaction = BatchTransaction(id: string, kind: TxKind, from: string, to: string, amount: real,
                                               currency: Currency, memo: Option<string>)
  datatype TransactionResult = TransactionResult(success: bool, transactionId: string, error: Option<string>)

  const NotImplemented := "Direct transaction submission not implemented. Use HiveKeychain for signing."

  /** `submitTransaction`: signing is left to the keychain, so every submission fails. */
  function SubmitTransaction(tx: BatchTransaction): (r: TransactionResult)
    ensures !r.success && r.transactionId == "" && r.error == Some(NotImplemented)
  {
    TransactionResult(false, "", Some(NotImplemented))
  }

  /** `processBatchTransactions`: one result per transaction, in order; the pauses between
      submissions are left out. */
  method ProcessBatchTransactions(transactions: seq<BatchTransaction>) returns (results: seq<TransactionResult>)
    ensures |results| == |transactions|
    ensures forall i :: 0 <= i < |transactions| ==> results[i] == SubmitTransaction(transactions[i])
    ensures forall i :: 0 <= i < |results| ==> !results[i].success && results[i].transactionId == ""
  {
    results := [];
    var k := 0;
    while k < |transactions|
      invariant k <= |transactions| && |results| == k
      invariant forall i :: 0 <= i < k ==> results[i] == SubmitTransaction(transactions[i])
    {
      var result := SubmitTransaction(transactions[k]);
      results := results + [result];
      k := k + 1;
    }
  }
}
