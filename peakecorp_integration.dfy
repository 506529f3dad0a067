/** The integration hub: payroll and expense workflows run through the enterprise keychain and
    summarised from its answers, a reward pay-out that reports whether everything succeeded, the
    efficiency-metrics table and the treasury recommendations. */
module PeakeCorpIntegration {
  import opened Wrappers
  import opened Strings
  import opened Numbers
  import opened KeychainExtension
  import Engine
  import EK = EnhancedKeychain

  datatype Employee = Employee(username: string, amount: real, department: string)
  datatype Expense = Expense(employee: string, amount: real, category: string, description: string)

  datatype PayrollResult = PayrollResult(success: bool, transactionIds: seq<string>, errors: seq<string>)
  datatype ExpenseResult = ExpenseResult(success: bool, processedCount: nat, totalAmount: real)

  datatype Timeframe = Daily | Weekly | Monthly
  datatype EfficiencyMetrics = EfficiencyMetrics(
    transactionVolume: real, costSavings: real, automationRate: real,
    complianceScore: real, peakeCoinEarned: Num, efficiencyGain: real)

  datatype TargetAllocations = TargetAllocations(hive: real, hbd: real, peakeCoin: real)
  datatype TreasuryPlan = TreasuryPlan(recommendations: seq<string>, estimatedSavings: real, riskAssessment: string)

  // Filters over answers

  /** `results.filter(r => r.success)`. */
  function Successes(rs: seq<Response>): (r: seq<Response>)
    ensures |r| <= |rs|
    ensures forall x :: x in r <==> x in rs && x.success
  {
    if rs == [] then []
    else Successes(rs[..|rs| - 1]) + (if rs[|rs| - 1].success then [rs[|rs| - 1]] else [])
  }

  /** `results.filter(r => !r.success)`. */
  function Failures(rs: seq<Response>): (r: seq<Response>)
    ensures |r| <= |rs|
    ensures forall x :: x in r <==> x in rs && !x.success
  {
    if rs == [] then []
    else Failures(rs[..|rs| - 1]) + (if rs[|rs| - 1].success then [] else [rs[|rs| - 1]])
  }

  /** Each answer lands in exactly one of the two lists, as often as it occurs. */
  lemma {:induction false} PartitionMultiset(rs: seq<Response>)
    ensures multiset(Successes(rs)) + multiset(Failures(rs)) == multiset(rs)
  {
    if rs != [] {
      var p, x := rs[..|rs| - 1], rs[|rs| - 1];
      PartitionMultiset(p);
      assert multiset(rs) == multiset(p) + multiset{x} by { assert rs == p + [x]; }
    }
  }

  /** An answer occurs among the successes as often as among all answers when it succeeded,
      and not at all otherwise; the same holds of the failures the other way round. */
  lemma PartitionOccurrences(rs: seq<Response>, x: Response)
    ensures multiset(Successes(rs))[x] == if x.success then multiset(rs)[x] else 0
    ensures multiset(Failures(rs))[x] == if x.success then 0 else multiset(rs)[x]
  {
    PartitionMultiset(rs);
    if x.success {
      assert x !in Failures(rs);
    } else {
      assert x !in Successes(rs);
    }
  }

  lemma {:induction false} PartitionCount(rs: seq<Response>)
    ensures |Successes(rs)| + |Failures(rs)| == |rs|
  {
    if rs != [] {
      PartitionCount(rs[..|rs| - 1]);
    }
  }

  lemma {:induction false} NoFailuresIff(rs: seq<Response>)
    ensures Failures(rs) == [] <==> forall i :: 0 <= i < |rs| ==> rs[i].success
  {
    if rs != [] {
      var p := rs[..|rs| - 1];
      NoFailuresIff(p);
      assert forall i :: 0 <= i < |p| ==> p[i] == rs[i];
    }
  }

  /** Every answer is a success or a failure, and there are no failures exactly when every
      answer is a success. */
  lemma SuccessesAndFailures(rs: seq<Response>)
    ensures |Successes(rs)| + |Failures(rs)| == |rs|
    ensures Failures(rs) == [] <==> forall i :: 0 <= i < |rs| ==> rs[i].success
    ensures |Successes(rs)| == |rs| <==> Failures(rs) == []
  {
    PartitionCount(rs);
    NoFailuresIff(rs);
  }

  // Payroll

  /** One HBD payroll transaction per employee, in order; `show` renders an amount as JavaScript. */
  function PayrollTransactions(employees: seq<Employee>, payPeriod: string, show: real -> string): (r: seq<EK.CorporateTransaction>)
    ensures |r| == |employees|
    ensures forall i :: 0 <= i < |employees| ==>
      r[i] == EK.CorporateTransaction(employees[i].username, show(employees[i].amount), EK.HBD,
                                      "Payroll - " + payPeriod + " - " + employees[i].department, EK.Payroll)
  {
    seq(|employees|, i requires 0 <= i < |employees| =>
      EK.CorporateTransaction(employees[i].username, show(employees[i].amount), EK.HBD,
                              "Payroll - " + payPeriod + " - " + employees[i].department, EK.Payroll))
  }

  function TransactionIdOf(r: Response): string {
    if r.result.Some? then OrElse(r.result.value.transactionId, "") else ""
  }

  function TransactionIds(rs: seq<Response>): (r: seq<string>)
    ensures |r| == |rs| && forall i :: 0 <= i < |rs| ==> r[i] == TransactionIdOf(rs[i])
  {
    seq(|rs|, i requires 0 <= i < |rs| => TransactionIdOf(rs[i]))
  }

  function ErrorTexts(rs: seq<Response>): (r: seq<string>)
    ensures |r| == |rs| && forall i :: 0 <= i < |rs| ==> r[i] == OrElse(rs[i].error, "Unknown error")
  {
    seq(|rs|, i requires 0 <= i < |rs| => OrElse(rs[i].error, "Unknown error"))
  }

  /** The summary of a payroll run: one id per success, one error per failure. */
  function PayrollSummary(rs: seq<Response>): (r: PayrollResult)
    ensures |r.transactionIds| == |Successes(rs)| && |r.errors| == |Failures(rs)|
    ensures |r.transactionIds| + |r.errors| == |rs|
    ensures forall i :: 0 <= i < |r.transactionIds| ==> r.transactionIds[i] == TransactionIdOf(Successes(rs)[i])
    ensures forall i :: 0 <= i < |r.errors| ==> r.errors[i] == OrElse(Failures(rs)[i].error, "Unknown error")
    ensures r.success <==> forall i :: 0 <= i < |rs| ==> rs[i].success
    ensures r.success <==> r.errors == []
  {
    SuccessesAndFailures(rs);
    PayrollResult(|Failures(rs)| == 0, TransactionIds(Successes(rs)), ErrorTexts(Failures(rs)))
  }

  /** The executor's own reward: 5 PEAKE per successful payment, only when there was one. */
  function PayrollRewards(executor: string, rs: seq<Response>): (r: seq<EK.BatchReward>)
    ensures |Successes(rs)| == 0 ==> r == []
    ensures |Successes(rs)| > 0 ==> r == [EK.BatchReward(executor, NatToString(5 * |Successes(rs)|),
      "Payroll automation reward - " + NatToString(|Successes(rs)|) + " payments processed")]
  {
    var n := |Successes(rs)|;
    if n > 0 then [EK.BatchReward(executor, NatToString(5 * n), "Payroll automation reward - " + NatToString(n) + " payments processed")]
    else []
  }

  /** `distributePeakeCoinRewards` of the hub: whether every reward transfer succeeded (true for
      none). */
  method DistributePeakeCoinRewards(keychain: EK.Service, distributor: string, rewards: seq<EK.BatchReward>) returns (ok: bool)
    modifies keychain.extension
    ensures ok <==> forall i :: 0 <= i < |rewards| ==> keychain.RewardAnswers(distributor, rewards)[i].success
    ensures rewards == [] ==> ok
    ensures keychain.extension.received == old(keychain.extension.received) + keychain.Dispatched(EK.RewardRequests(distributor, rewards))
  {
    var results := keychain.DistributePeakeCoinRewards(distributor, rewards);
    ok := forall i :: 0 <= i < |results| ==> results[i].success;
  }

  /** `executePayrollWorkflow`: pays every employee, rewards the executor when a payment went
      through, and summarises the answers. */
  method ExecutePayrollWorkflow(keychain: EK.Service, executor: string, employees: seq<Employee>, payPeriod: string,
                                show: real -> string) returns (out: PayrollResult)
    modifies keychain.extension
    ensures var answers := keychain.WorkflowAnswers(executor, EK.Payroll, PayrollTransactions(employees, payPeriod, show));
      out == PayrollSummary(answers)
      && keychain.extension.received == old(keychain.extension.received)
           + keychain.Dispatched(EK.WorkflowRequests(executor, EK.Payroll, PayrollTransactions(employees, payPeriod, show)))
           + keychain.Dispatched(EK.RewardRequests(executor, PayrollRewards(executor, answers)))
  {
    var transactions := PayrollTransactions(employees, payPeriod, show);
    var results := keychain.ExecuteCorporateWorkflow(executor, EK.Payroll, transactions);
    var successful := Successes(results);
    if |successful| > 0 {
      var _ := DistributePeakeCoinRewards(keychain, executor, PayrollRewards(executor, results));
    } else {
      assert EK.RewardRequests(executor, []) == [];
    }
    out := PayrollSummary(results);
  }

  // Expenses

  function ExpenseTransactions(expenses: seq<Expense>, show: real -> string): (r: seq<EK.CorporateTransaction>)
    ensures |r| == |expenses|
    ensures forall i :: 0 <= i < |expenses| ==>
      r[i] == EK.CorporateTransaction(expenses[i].employee, show(expenses[i].amount), EK.HIVE,
                                      "Expense Reimbursement - " + expenses[i].category + ": " + expenses[i].description, EK.Expense)
  {
    seq(|expenses|, i requires 0 <= i < |expenses| =>
      EK.CorporateTransaction(expenses[i].employee, show(expenses[i].amount), EK.HIVE,
                              "Expense Reimbursement - " + expenses[i].category + ": " + expenses[i].description, EK.Expense))
  }

  /** Σ amount over the first `k` expenses. */
  function SumFirst(expenses: seq<Expense>, k: nat): (r: real)
    requires k <= |expenses|
    ensures (forall i :: 0 <= i < k ==> expenses[i].amount >= 0.0) ==> r >= 0.0
  {
    if k == 0 then 0.0 else SumFirst(expenses, k - 1) + expenses[k - 1].amount
  }

  /** The summary of a reimbursement run as the code computes it: the total adds up the amounts
      of the first `processedCount` expenses, by position in the list of successes. */
  function ExpenseSummary(expenses: seq<Expense>, rs: seq<Response>): (r: ExpenseResult)
    requires |rs| == |expenses|
    ensures r.processedCount == |Successes(rs)| <= |expenses|
    ensures r.success <==> forall i :: 0 <= i < |rs| ==> rs[i].success
    ensures r.totalAmount == SumFirst(expenses, r.processedCount)
  {
    SuccessesAndFailures(rs);
    var n := |Successes(rs)|;
    ExpenseResult(n == |expenses|, n, SumFirst(expenses, n))
  }

  /** Σ amount over the expenses whose transfer succeeded. */
  function ReimbursedAmount(expenses: seq<Expense>, rs: seq<Response>): (r: real)
    requires |rs| == |expenses|
    ensures (forall i :: 0 <= i < |expenses| ==> expenses[i].amount >= 0.0) ==>
      0.0 <= r <= SumFirst(expenses, |expenses|)
  {
    if rs == [] then 0.0
    else
      SumFirstPrefix(expenses, |rs| - 1, |rs| - 1);
      ReimbursedAmount(expenses[..|rs| - 1], rs[..|rs| - 1]) + (if rs[|rs| - 1].success then expenses[|rs| - 1].amount else 0.0)
  }

  /** When every expense was reimbursed the reported total is what was paid. */
  lemma {:induction false} ExpenseTotalWhenAllSucceed(expenses: seq<Expense>, rs: seq<Response>)
    requires |rs| == |expenses| && forall i :: 0 <= i < |rs| ==> rs[i].success
    ensures ExpenseSummary(expenses, rs).totalAmount == ReimbursedAmount(expenses, rs)
    ensures ExpenseSummary(expenses, rs).success
  {
    if rs != [] {
      var e', r' := expenses[..|rs| - 1], rs[..|rs| - 1];
      ExpenseTotalWhenAllSucceed(e', r');
      SuccessesAndFailures(rs);
      SuccessesAndFailures(r');
      SumFirstPrefix(expenses, |rs| - 1, |rs| - 1);
    }
  }

  lemma {:induction false} SumFirstPrefix(expenses: seq<Expense>, m: nat, k: nat)
    requires k <= m <= |expenses|
    ensures SumFirst(expenses[..m], k) == SumFirst(expenses, k)
  {
    if k > 0 {
      SumFirstPrefix(expenses, m, k - 1);
    }
  }

  /** The reported total can differ from what was paid: when the first of two expenses fails,
      the total is the first amount although only the second was reimbursed. */
  lemma ExpenseTotalCountsByPosition(ok: Response, failed: Response)
    requires ok.success && !failed.success
    ensures var expenses := [Expense("alice", 10.0, "travel", "taxi"), Expense("bob", 20.0, "meals", "lunch")];
      ExpenseSummary(expenses, [failed, ok]).totalAmount == 10.0
      && ReimbursedAmount(expenses, [failed, ok]) == 20.0
  {
    var expenses := [Expense("alice", 10.0, "travel", "taxi"), Expense("bob", 20.0, "meals", "lunch")];
    assert [failed, ok][..1] == [failed] && [failed][..0] == [];
    assert Successes([failed]) == [];
    assert Successes([failed, ok]) == [ok];
    assert expenses[..1] == [expenses[0]] && [expenses[0]][..0] == [];
    assert SumFirst(expenses, 1) == 10.0;
    assert ReimbursedAmount(expenses[..1], [failed]) == 0.0;
  }

  /** `processExpenseReimbursements`. */
  method ProcessExpenseReimbursements(keychain: EK.Service, executor: string, expenses: seq<Expense>, show: real -> string)
    returns (out: ExpenseResult)
    modifies keychain.extension
    ensures out == ExpenseSummary(expenses, keychain.WorkflowAnswers(executor, EK.Expense, ExpenseTransactions(expenses, show)))
    ensures keychain.extension.received == old(keychain.extension.received)
      + keychain.Dispatched(EK.WorkflowRequests(executor, EK.Expense, ExpenseTransactions(expenses, show)))
  {
    var transactions := ExpenseTransactions(expenses, show);
    var results := keychain.ExecuteCorporateWorkflow(executor, EK.Expense, transactions);
    out := ExpenseSummary(expenses, results);
  }

  // Efficiency metrics and treasury

  /** `calculateEfficiencyMetrics`; `balanceQuery` is the PEAKE balance query of the account. */
  function CalculateEfficiencyMetrics(timeframe: Timeframe, balanceQuery: Option<seq<Engine.HiveEngineToken>>): (r: EfficiencyMetrics)
    ensures timeframe == Daily ==> (r.transactionVolume, r.costSavings, r.automationRate) == (5000.0, 250.0, 85.0)
    ensures timeframe == Weekly ==> (r.transactionVolume, r.costSavings, r.automationRate) == (35000.0, 1750.0, 87.0)
    ensures timeframe == Monthly ==> (r.transactionVolume, r.costSavings, r.automationRate) == (150000.0, 7500.0, 90.0)
    ensures r.complianceScore == 94.5 && r.efficiencyGain == 15.7
    ensures r.peakeCoinEarned == Engine.PeakeCoinBalance(balanceQuery)
    ensures r.costSavings == r.transactionVolume * 0.05
  {
    var (volume, savings, automation) :=
      match timeframe
      case Daily => (5000.0, 250.0, 85.0)
      case Weekly => (35000.0, 1750.0, 87.0)
      case Monthly => (150000.0, 7500.0, 90.0);
    EfficiencyMetrics(volume, savings, automation, 94.5, Engine.PeakeCoinBalance(balanceQuery), 15.7)
  }

  /** Whether the PEAKE balance is below the target; a NaN balance compares false. */
  predicate PeakeBelow(peake: Num, target: real) {
    peake.Finite? && peake.value < target
  }

  /** `optimizeTreasuryOperations` over the account's balance; `fixed2` renders with two decimals. */
  method OptimizeTreasuryOperations(balance: EK.UserBalance, targets: TargetAllocations, fixed2: real -> string)
    returns (plan: TreasuryPlan)
    ensures |plan.recommendations| <= 2
    ensures |plan.recommendations| == (if balance.hive > targets.hive then 1 else 0) + (if PeakeBelow(balance.peakeCoin, targets.peakeCoin) then 1 else 0)
    ensures balance.hive > targets.hive ==>
      plan.recommendations[0] == "Convert " + fixed2(balance.hive - targets.hive) + " HIVE to HBD for stability"
    ensures PeakeBelow(balance.peakeCoin, targets.peakeCoin) ==>
      plan.recommendations[|plan.recommendations| - 1] ==
        "Stake " + fixed2(targets.peakeCoin - balance.peakeCoin.value) + " PEAKE for enhanced rewards"
    ensures plan.estimatedSavings ==
      (if balance.hive > targets.hive then (balance.hive - targets.hive) * 0.02 else 0.0)
      + (if PeakeBelow(balance.peakeCoin, targets.peakeCoin) then (targets.peakeCoin - balance.peakeCoin.value) * 0.05 else 0.0)
    ensures plan.estimatedSavings >= 0.0
    ensures plan.riskAssessment == (if plan.estimatedSavings > 1000.0 then "Low Risk - High Reward" else "Moderate Risk")
  {
    var recommendations: seq<string> := [];
    var estimatedSavings := 0.0;
    if balance.hive > targets.hive {
      var excess := balance.hive - targets.hive;
      recommendations := recommendations + ["Convert " + fixed2(excess) + " HIVE to HBD for stability"];
      estimatedSavings := estimatedSavings + excess * 0.02;
    }
    if PeakeBelow(balance.peakeCoin, targets.peakeCoin) {
      var needed := targets.peakeCoin - balance.peakeCoin.value;
      recommendations := recommendations + ["Stake " + fixed2(needed) + " PEAKE for enhanced rewards"];
      estimatedSavings := estimatedSavings + needed * 0.05;
    }
    plan := TreasuryPlan(recommendations, estimatedSavings,
      if estimatedSavings > 1000.0 then "Low Risk - High Reward" else "Moderate Risk");
  }

  /** With the balance the enterprise keychain reports (HIVE always 0), the conversion advice is
      given exactly when the HIVE target is negative. */
  lemma TreasuryHiveAdvice(balanceQuery: Option<seq<Engine.HiveEngineToken>>, stakeQuery: Option<seq<Engine.HiveEngineToken>>,
                           targets: TargetAllocations)
    ensures EK.GetUserBalance(balanceQuery, stakeQuery).hive > targets.hive <==> targets.hive < 0.0
  {
  }
}
