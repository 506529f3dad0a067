/** The enhanced batch processor: jobs of wallet transactions, created and extended from a form,
    then processed category by category (categories in the order they first occur, transactions
    in their original order within a category), one wallet call per transaction. */
module EnhancedBatchProcessor {
  import opened Wrappers
  import opened Strings
  import opened Numbers
  import opened KeychainExtension
  import EK = EnhancedKeychain

  datatype TxType = TransferTx | PowerUpTx | TokenTransferTx | CustomJsonTx
  datatype TxCurrency = HIVE | HBD | PEAKE
  datatype Category = Payroll | Expense | Procurement | Treasury | Rewards
  datatype Priority = Low | Medium | High
  datatype TxStatus = Pending | Processing | Completed | Failed
  datatype JobStatus = Draft | Ready | Processing | Completed | Failed
  datatype ComplianceLevel = Standard | Enhanced | Enterprise

  datatype BatchTransaction = BatchTransaction(
    id: string,
    txType: TxType,
    to: string,
    amount: string,
    currency: TxCurrency,
    memo: string,
    category: Category,
    priority: Priority,
    estimatedCost: Num,
    status: TxStatus,
    result: Option<Response>,
    error: Option<string>)

  datatype BatchJob = BatchJob(
    id: string,
    name: string,
    description: string,
    transactions: seq<BatchTransaction>,
    status: JobStatus,
    createdAt: int,
    scheduledAt: Option<int>,
    completedAt: Option<int>,
    totalEstimatedCost: Num,
    actualCost: Option<Num>,
    peakeCoinRewards: real,
    complianceLevel: ComplianceLevel)

  /** The new-transaction form (a partial transaction): every field may be missing. */
  datatype TxDraft = TxDraft(
    txType: Option<TxType>,
    to: Option<string>,
    amount: Option<string>,
    currency: Option<TxCurrency>,
    memo: Option<string>,
    category: Option<Category>,
    priority: Option<Priority>)

  /** The form as it starts and as it is reset after each added transaction. */
  const EmptyDraft := TxDraft(Some(TransferTx), Some(""), Some(""), Some(HIVE), Some(""), Some(Expense), Some(Medium))

  function TypeText(t: TxType): string {
    match t
    case TransferTx => "transfer"
    case PowerUpTx => "power_up"
    case TokenTransferTx => "token_transfer"
    case CustomJsonTx => "custom_json"
  }

  function CurrencyText(c: TxCurrency): string {
    match c
    case HIVE => "HIVE"
    case HBD => "HBD"
    case PEAKE => "PEAKE"
  }

  function CategoryText(c: Category): string {
    match c
    case Payroll => "payroll"
    case Expense => "expense"
    case Procurement => "procurement"
    case Treasury => "treasury"
    case Rewards => "rewards"
  }

  // Costs and rewards

  /** The base fee of a transaction type; a missing type counts as 0.001. */
  function BaseCost(t: Option<TxType>): (r: real)
    ensures r == (if t == Some(TokenTransferTx) then 0.002 else 0.001)
  {
    match t
    case Some(TokenTransferTx) => 0.002
    case _ => 0.001
  }

  /** `calculateEstimatedCost`: the base fee plus 0.01% of the amount, read with `parseFloat`
      (a missing or empty amount reads as "0"). NaN when the amount is not a number. */
  function EstimatedCost(d: TxDraft): (r: Num)
    ensures r.Finite? <==> ParseFloat(OrElse(d.amount, "0")).Finite?
  {
    Finite(BaseCost(d.txType)).Plus(ParseFloat(OrElse(d.amount, "0")).Times(0.0001))
  }

  /** The cost of a form is its base fee when the amount is missing, and grows with the amount. */
  lemma EstimatedCostMonotone(d1: TxDraft, d2: TxDraft, x1: real, x2: real)
    requires d1.txType == d2.txType
    requires ParseFloat(OrElse(d1.amount, "0")) == Finite(x1) && ParseFloat(OrElse(d2.amount, "0")) == Finite(x2)
    requires x1 <= x2
    ensures EstimatedCost(d1).Finite? && EstimatedCost(d2).Finite?
    ensures EstimatedCost(d1).value <= EstimatedCost(d2).value
    ensures EstimatedCost(d1).value == BaseCost(d1.txType) + x1 * 0.0001
  {
  }

  lemma EstimatedCostWithoutAmount(d: TxDraft)
    requires d.amount.None? || d.amount == Some("")
    ensures EstimatedCost(d) == Finite(BaseCost(d.txType))
  {
    ParseFloatOfNatToString(0);
    assert NatToString(0) == "0";
  }

  /** `calculatePeakeCoinRewards` of the processor: 2 per transaction, 0.5 more each beyond ten
      transactions, and a fifth of the base on top for enterprise compliance. */
  function JobRewards(job: BatchJob): (r: real)
    ensures r >= 2.0 * |job.transactions| as real
  {
    var n := |job.transactions| as real;
    var base := n * 2.0;
    var batchBonus := if |job.transactions| > 10 then n * 0.5 else 0.0;
    var complianceBonus := if job.complianceLevel == Enterprise then base * 0.2 else 0.0;
    base + batchBonus + complianceBonus
  }

  lemma JobRewardsBounds(job: BatchJob)
    ensures var n := |job.transactions| as real;
      2.0 * n <= JobRewards(job) <= 2.9 * n
      && (JobRewards(job) == 0.0 <==> |job.transactions| == 0)
      && (|job.transactions| <= 10 && job.complianceLevel != Enterprise ==> JobRewards(job) == 2.0 * n)
      && (|job.transactions| > 10 && job.complianceLevel == Enterprise ==> JobRewards(job) == 2.9 * n)
      && (|job.transactions| > 10 && job.complianceLevel != Enterprise ==> JobRewards(job) == 2.5 * n)
      && (|job.transactions| <= 10 && job.complianceLevel == Enterprise ==> JobRewards(job) == 2.4 * n)
  {
  }

  /** Σ estimatedCost, from 0, as `reduce` adds it up. */
  function SumCost(txs: seq<BatchTransaction>): Num {
    if txs == [] then Finite(0.0) else SumCost(txs[..|txs| - 1]).Plus(txs[|txs| - 1].estimatedCost)
  }

  lemma {:induction false} SumCostAppend(a: seq<BatchTransaction>, b: seq<BatchTransaction>)
    ensures SumCost(a + b) == SumCost(a).Plus(SumCost(b))
    decreases |b|
  {
    if b == [] {
      assert a + b == a;
    } else {
      var b' := b[..|b| - 1];
      assert (a + b)[..|a + b| - 1] == a + b';
      SumCostAppend(a, b');
    }
  }

  // Building jobs

  /** The job of `createNewJob`; `count` is the number of jobs so far. */
  function NewJob(id: string, count: nat, now: int): (j: BatchJob)
    ensures j.id == id && j.name == "Batch Job " + NatToString(count + 1) && j.createdAt == now
    ensures j.transactions == [] && j.status == Draft && j.complianceLevel == Standard
    ensures j.totalEstimatedCost == SumCost(j.transactions) && j.peakeCoinRewards == JobRewards(j)
    ensures j.scheduledAt.None? && j.completedAt.None? && j.actualCost.None?
  {
    BatchJob(id, "Batch Job " + NatToString(count + 1), "New corporate workflow batch", [], Draft,
      now, None, None, Finite(0.0), None, 0.0, Standard)
  }

  /** Whether the form may be added: both recipient and amount must be non-empty. */
  predicate Fillable(d: TxDraft) {
    OrElse(d.to, "") != "" && OrElse(d.amount, "") != ""
  }

  /** The transaction built from a filled form, missing choices replaced by their defaults. */
  function NewTransaction(d: TxDraft, id: string): (t: BatchTransaction)
    ensures t.id == id && t.status == TxStatus.Pending && t.result.None? && t.error.None?
    ensures t.to == OrElse(d.to, "") && t.amount == OrElse(d.amount, "") && t.memo == OrElse(d.memo, "")
    ensures t.txType == d.txType.GetOr(TransferTx) && t.currency == d.currency.GetOr(HIVE)
    ensures t.category == d.category.GetOr(Expense) && t.priority == d.priority.GetOr(Medium)
    ensures t.estimatedCost == EstimatedCost(d)
  {
    BatchTransaction(id, d.txType.GetOr(TransferTx), OrElse(d.to, ""), OrElse(d.amount, ""), d.currency.GetOr(HIVE),
      OrElse(d.memo, ""), d.category.GetOr(Expense), d.priority.GetOr(Medium), EstimatedCost(d), TxStatus.Pending, None, None)
  }

  /** The job with one more transaction and its cost added to the running total. */
  function WithTransaction(job: BatchJob, t: BatchTransaction): (r: BatchJob)
    ensures r.transactions == job.transactions + [t]
    ensures r.totalEstimatedCost == job.totalEstimatedCost.Plus(t.estimatedCost)
    ensures r.(transactions := job.transactions, totalEstimatedCost := job.totalEstimatedCost) == job
  {
    job.(transactions := job.transactions + [t], totalEstimatedCost := job.totalEstimatedCost.Plus(t.estimatedCost))
  }

  /** A job whose running total is the sum of its transactions' costs keeps that property when a
      transaction is added. */
  lemma WithTransactionKeepsTotal(job: BatchJob, t: BatchTransaction)
    requires job.totalEstimatedCost == SumCost(job.transactions)
    ensures WithTransaction(job, t).totalEstimatedCost == SumCost(WithTransaction(job, t).transactions)
  {
    assert (job.transactions + [t])[..|job.transactions|] == job.transactions;
  }

  /** `jobs.map(j => j.id === id ? job : j)`. */
  function ReplaceById(jobs: seq<BatchJob>, id: string, job: BatchJob): (r: seq<BatchJob>)
    ensures |r| == |jobs|
    ensures forall i :: 0 <= i < |jobs| ==> r[i] == (if jobs[i].id == id then job else jobs[i])
  {
    seq(|jobs|, i requires 0 <= i < |jobs| => if jobs[i].id == id then job else jobs[i])
  }

  /** `findIndex` on the job id: the first position holding it, or -1. */
  function FindIndex(jobs: seq<BatchJob>, id: string): (r: int)
    ensures -1 <= r < |jobs|
    ensures r == -1 <==> forall k :: 0 <= k < |jobs| ==> jobs[k].id != id
    ensures r >= 0 ==> jobs[r].id == id && forall k :: 0 <= k < r ==> jobs[k].id != id
  {
    if jobs == [] then -1
    else if jobs[0].id == id then 0
    else
      var r := FindIndex(jobs[1..], id);
      assert forall k :: 0 < k < |jobs| ==> jobs[k] == jobs[1..][k - 1];
      if r == -1 then -1 else r + 1
  }

  /** `list[index] = job` on a copy: an element is replaced only for an index inside the list; the
      -1 of a missing job sets a property that is no element of the array. */
  function PutAt(jobs: seq<BatchJob>, index: int, job: BatchJob): (r: seq<BatchJob>)
    ensures |r| == |jobs|
    ensures 0 <= index < |jobs| ==> r == jobs[index := job]
    ensures !(0 <= index < |jobs|) ==> r == jobs
  {
    if 0 <= index < |jobs| then jobs[index := job] else jobs
  }

  /** The field reset of `importJob`: new id, new creation time, back to draft; every other field,
      including the transactions and their statuses, as imported. */
  function Imported(job: BatchJob, id: string, now: int): (r: BatchJob)
    ensures r.id == id && r.createdAt == now && r.status == Draft
    ensures r.(id := job.id, createdAt := job.createdAt, status := job.status) == job
  {
    job.(id := id, createdAt := now, status := Draft)
  }

  // Grouping by category

  /** The categories in the order they first occur. */
  function FirstSeen(txs: seq<BatchTransaction>): seq<Category> {
    if txs == [] then []
    else
      var seen := FirstSeen(txs[..|txs| - 1]);
      if txs[|txs| - 1].category in seen then seen else seen + [txs[|txs| - 1].category]
  }

  /** The transactions of one category, in their original order. */
  function InCategory(txs: seq<BatchTransaction>, c: Category): seq<BatchTransaction> {
    if txs == [] then []
    else InCategory(txs[..|txs| - 1], c) + (if txs[|txs| - 1].category == c then [txs[|txs| - 1]] else [])
  }

  /** The groups of `cats`, one after the other. */
  function Grouped(txs: seq<BatchTransaction>, cats: seq<Category>): seq<BatchTransaction> {
    if cats == [] then [] else Grouped(txs, cats[..|cats| - 1]) + InCategory(txs, cats[|cats| - 1])
  }

  /** The processing order of `processByCategoryOptimized`: the groups in first-seen order. */
  function CategoryOrder(txs: seq<BatchTransaction>): seq<BatchTransaction> {
    Grouped(txs, FirstSeen(txs))
  }

  predicate Distinct(cats: seq<Category>) {
    forall i, j :: 0 <= i < j < |cats| ==> cats[i] != cats[j]
  }

  lemma {:induction false} FirstSeenMembers(txs: seq<BatchTransaction>)
    ensures Distinct(FirstSeen(txs))
    ensures forall c :: c in FirstSeen(txs) <==> exists i :: 0 <= i < |txs| && txs[i].category == c
  {
    if txs != [] {
      var p := txs[..|txs| - 1];
      FirstSeenMembers(p);
      forall c ensures c in FirstSeen(txs) <==> exists i :: 0 <= i < |txs| && txs[i].category == c {
        if c in FirstSeen(p) {
          var i :| 0 <= i < |p| && p[i].category == c;
          assert txs[i] == p[i];
        }
        if exists i :: 0 <= i < |txs| && txs[i].category == c {
          var i :| 0 <= i < |txs| && txs[i].category == c;
          if i < |p| { assert p[i] == txs[i]; }
        }
      }
    }
  }

  lemma {:induction false} InCategoryUnseen(txs: seq<BatchTransaction>, c: Category)
    requires c !in FirstSeen(txs)
    ensures InCategory(txs, c) == []
  {
    if txs != [] {
      InCategoryUnseen(txs[..|txs| - 1], c);
    }
  }

  lemma {:induction false} InCategoryMembers(txs: seq<BatchTransaction>, c: Category)
    ensures forall t :: t in InCategory(txs, c) ==> t.category == c
    ensures multiset(InCategory(txs, c)) <= multiset(txs)
  {
    if txs != [] {
      InCategoryMembers(txs[..|txs| - 1], c);
      assert txs == txs[..|txs| - 1] + [txs[|txs| - 1]];
    }
  }

  lemma {:induction false} InCategoryAppend(a: seq<BatchTransaction>, b: seq<BatchTransaction>, c: Category)
    ensures InCategory(a + b, c) == InCategory(a, c) + InCategory(b, c)
    decreases |b|
  {
    if b == [] {
      assert a + b == a;
    } else {
      var b' := b[..|b| - 1];
      assert (a + b)[..|a + b| - 1] == a + b';
      InCategoryAppend(a, b', c);
    }
  }

  /** Filtering a group again by a category keeps it whole or empties it. */
  lemma {:induction false} InCategoryOfGroup(txs: seq<BatchTransaction>, d: Category, c: Category)
    ensures InCategory(InCategory(txs, d), c) == if c == d then InCategory(txs, c) else []
  {
    if txs != [] {
      var p, t := txs[..|txs| - 1], txs[|txs| - 1];
      InCategoryOfGroup(p, d, c);
      InCategoryAppend(InCategory(p, d), if t.category == d then [t] else [], c);
      assert InCategory([t], c) == InCategory([], c) + (if t.category == c then [t] else []);
    }
  }

  lemma {:induction false} InCategoryOfGrouped(txs: seq<BatchTransaction>, cats: seq<Category>, c: Category)
    requires Distinct(cats)
    ensures InCategory(Grouped(txs, cats), c) == if c in cats then InCategory(txs, c) else []
  {
    if cats != [] {
      var p, d := cats[..|cats| - 1], cats[|cats| - 1];
      assert Distinct(p);
      InCategoryOfGrouped(txs, p, c);
      InCategoryAppend(Grouped(txs, p), InCategory(txs, d), c);
      InCategoryOfGroup(txs, d, c);
      assert c in cats <==> c in p || c == d;
      if c == d {
        assert c !in p;
      }
    }
  }

  lemma InCategorySnoc(txs: seq<BatchTransaction>, t: BatchTransaction, c: Category)
    ensures InCategory(txs + [t], c) == InCategory(txs, c) + (if t.category == c then [t] else [])
  {
    assert (txs + [t])[..|txs + [t]| - 1] == txs;
  }

  /** Appending a transaction adds it to its own group, when that group is listed. */
  lemma {:induction false} GroupedSnocMultiset(txs: seq<BatchTransaction>, t: BatchTransaction, cats: seq<Category>)
    requires Distinct(cats)
    ensures multiset(Grouped(txs + [t], cats)) == multiset(Grouped(txs, cats)) + (if t.category in cats then multiset{t} else multiset{})
  {
    if cats != [] {
      var p, d := cats[..|cats| - 1], cats[|cats| - 1];
      assert Distinct(p);
      GroupedSnocMultiset(txs, t, p);
      var g, h := Grouped(txs, p), InCategory(txs, d);
      var g', h' := Grouped(txs + [t], p), InCategory(txs + [t], d);
      assert Grouped(txs, cats) == g + h;
      assert Grouped(txs + [t], cats) == g' + h';
      assert multiset(g + h) == multiset(g) + multiset(h);
      assert multiset(g' + h') == multiset(g') + multiset(h');
      InCategorySnoc(txs, t, d);
      assert t.category in cats <==> t.category in p || t.category == d;
      if t.category == d {
        assert t.category !in p;
        assert h' == h + [t];
        assert multiset(h') == multiset(h) + multiset{t};
      } else {
        assert h' == h;
      }
    }
  }

  /** Appending one transaction to a list adds its cost to the list's sum. */
  lemma SumCostSnoc(txs: seq<BatchTransaction>, t: BatchTransaction)
    ensures SumCost(txs + [t]) == SumCost(txs).Plus(t.estimatedCost)
  {
    assert (txs + [t])[..|txs|] == txs;
  }

  /** The cost of the grouped list after an append, from the costs of its two parts. */
  lemma GroupCostStep(g: Num, h: Num, c: Num, inPrefix: bool, isLast: bool)
    requires !(inPrefix && isLast)
    ensures (if inPrefix then g.Plus(c) else g).Plus(if isLast then h.Plus(c) else h) ==
      (if inPrefix || isLast then g.Plus(h).Plus(c) else g.Plus(h))
  {
    PlusRegroups(g, c, h);
    PlusRegroups(g, h, c);
    PlusRegroups(c, h, g);
  }

  lemma {:induction false} GroupedSnocCost(txs: seq<BatchTransaction>, t: BatchTransaction, cats: seq<Category>)
    requires Distinct(cats)
    ensures SumCost(Grouped(txs + [t], cats)) ==
      if t.category in cats then SumCost(Grouped(txs, cats)).Plus(t.estimatedCost) else SumCost(Grouped(txs, cats))
  {
    if cats != [] {
      var p, d := cats[..|cats| - 1], cats[|cats| - 1];
      assert Distinct(p);
      GroupedSnocCost(txs, t, p);
      var g, h := Grouped(txs, p), InCategory(txs, d);
      var g', h' := Grouped(txs + [t], p), InCategory(txs + [t], d);
      assert Grouped(txs, cats) == g + h;
      assert Grouped(txs + [t], cats) == g' + h';
      SumCostAppend(g', h');
      SumCostAppend(g, h);
      InCategorySnoc(txs, t, d);
      if t.category == d {
        assert h' == h + [t];
        SumCostSnoc(h, t);
      } else {
        assert h' == h;
      }
      assert t.category in cats <==> t.category in p || t.category == d;
      assert t.category == d ==> t.category !in p;
      GroupCostStep(SumCost(g), SumCost(h), t.estimatedCost, t.category in p, t.category == d);
    }
  }

  lemma FirstSeenSnoc(txs: seq<BatchTransaction>, t: BatchTransaction)
    ensures FirstSeen(txs + [t]) == if t.category in FirstSeen(txs) then FirstSeen(txs) else FirstSeen(txs) + [t.category]
  {
    assert (txs + [t])[..|txs + [t]| - 1] == txs;
  }

  /** A transaction of a new category forms a group of its own, placed last. */
  lemma GroupedNewCategory(txs: seq<BatchTransaction>, t: BatchTransaction)
    requires t.category !in FirstSeen(txs)
    ensures Grouped(txs + [t], FirstSeen(txs) + [t.category]) == Grouped(txs + [t], FirstSeen(txs)) + [t]
  {
    var fs := FirstSeen(txs) + [t.category];
    assert fs[..|fs| - 1] == FirstSeen(txs);
    InCategoryUnseen(txs, t.category);
    InCategorySnoc(txs, t, t.category);
  }

  /** Appending a transaction adds it once to the processing order. */
  lemma CategoryOrderSnocMultiset(txs: seq<BatchTransaction>, t: BatchTransaction)
    ensures multiset(CategoryOrder(txs + [t])) == multiset(CategoryOrder(txs)) + multiset{t}
  {
    var seen := FirstSeen(txs);
    FirstSeenMembers(txs);
    FirstSeenSnoc(txs, t);
    GroupedSnocMultiset(txs, t, seen);
    if t.category !in seen {
      GroupedNewCategory(txs, t);
      assert multiset(Grouped(txs + [t], seen) + [t]) == multiset(Grouped(txs + [t], seen)) + multiset{t};
    }
  }

  lemma {:induction false} CategoryOrderMultiset(txs: seq<BatchTransaction>)
    ensures multiset(CategoryOrder(txs)) == multiset(txs)
  {
    if txs != [] {
      var p, t := txs[..|txs| - 1], txs[|txs| - 1];
      CategoryOrderMultiset(p);
      assert p + [t] == txs;
      CategoryOrderSnocMultiset(p, t);
      assert multiset(p + [t]) == multiset(p) + multiset{t};
    }
  }

  /** Appending a transaction adds its cost once to the processing order's sum. */
  lemma CategoryOrderSnocCost(txs: seq<BatchTransaction>, t: BatchTransaction)
    ensures SumCost(CategoryOrder(txs + [t])) == SumCost(CategoryOrder(txs)).Plus(t.estimatedCost)
  {
    var seen := FirstSeen(txs);
    FirstSeenMembers(txs);
    FirstSeenSnoc(txs, t);
    GroupedSnocCost(txs, t, seen);
    if t.category !in seen {
      GroupedNewCategory(txs, t);
      SumCostSnoc(Grouped(txs + [t], seen), t);
    }
  }

  lemma {:induction false} CategoryOrderCost(txs: seq<BatchTransaction>)
    ensures SumCost(CategoryOrder(txs)) == SumCost(txs)
  {
    if txs != [] {
      var p, t := txs[..|txs| - 1], txs[|txs| - 1];
      CategoryOrderCost(p);
      assert p + [t] == txs;
      CategoryOrderSnocCost(p, t);
      SumCostSnoc(p, t);
    }
  }

  /** The processing order is a permutation of the job's transactions with the same total cost. */
  lemma CategoryOrderPermutes(txs: seq<BatchTransaction>)
    ensures multiset(CategoryOrder(txs)) == multiset(txs)
    ensures |CategoryOrder(txs)| == |txs|
    ensures SumCost(CategoryOrder(txs)) == SumCost(txs)
  {
    CategoryOrderMultiset(txs);
    CategoryOrderCost(txs);
    assert |CategoryOrder(txs)| == |multiset(CategoryOrder(txs))|;
  }

  lemma CategoryOrderLength(txs: seq<BatchTransaction>)
    ensures |CategoryOrder(txs)| == |txs|
  {
    CategoryOrderPermutes(txs);
  }

  /** Within every category the processing order keeps the original order. */
  lemma CategoryOrderStable(txs: seq<BatchTransaction>, c: Category)
    ensures InCategory(CategoryOrder(txs), c) == InCategory(txs, c)
  {
    FirstSeenMembers(txs);
    InCategoryOfGrouped(txs, FirstSeen(txs), c);
    if c !in FirstSeen(txs) {
      InCategoryUnseen(txs, c);
    }
  }

  /** The position of a category in a list of categories (its length when absent). */
  function Rank(cats: seq<Category>, c: Category): (r: nat)
    ensures r <= |cats| && (r < |cats| <==> c in cats) && (r < |cats| ==> cats[r] == c)
  {
    if cats == [] then 0 else if cats[0] == c then 0 else 1 + Rank(cats[1..], c)
  }

  lemma {:induction false} GroupedOrdered(txs: seq<BatchTransaction>, cats: seq<Category>)
    requires Distinct(cats)
    ensures forall t :: t in Grouped(txs, cats) ==> t.category in cats
    ensures forall i, j :: 0 <= i < j < |Grouped(txs, cats)| ==>
      Rank(cats, Grouped(txs, cats)[i].category) <= Rank(cats, Grouped(txs, cats)[j].category)
  {
    if cats != [] {
      var p, d := cats[..|cats| - 1], cats[|cats| - 1];
      assert Distinct(p);
      GroupedOrdered(txs, p);
      InCategoryMembers(txs, d);
      var g, h := Grouped(txs, p), InCategory(txs, d);
      var out := g + h;
      RankFirst(cats, d, |cats| - 1);
      forall t | t in g ensures Rank(cats, t.category) == Rank(p, t.category) < |p| {
        RankPrefixAgrees(cats, t.category);
      }
      forall i, j | 0 <= i < j < |out| ensures Rank(cats, out[i].category) <= Rank(cats, out[j].category) {
        if j < |g| {
          assert out[i] == g[i] && out[j] == g[j];
          assert out[i] in g && out[j] in g;
        } else if i < |g| {
          assert out[i] == g[i] && out[i] in g;
          assert out[j] == h[j - |g|] && out[j] in h;
        } else {
          assert out[i] == h[i - |g|] && out[i] in h;
          assert out[j] == h[j - |g|] && out[j] in h;
        }
      }
    }
  }

  lemma RankPrefixAgrees(cats: seq<Category>, c: Category)
    requires Distinct(cats) && cats != [] && c in cats[..|cats| - 1]
    ensures Rank(cats, c) == Rank(cats[..|cats| - 1], c)
  {
    var p := cats[..|cats| - 1];
    var r := Rank(p, c);
    assert p[r] == c && cats[r] == c;
    RankFirst(cats, c, r);
  }

  lemma RankFirst(cats: seq<Category>, c: Category, r: nat)
    requires Distinct(cats) && r < |cats| && cats[r] == c
    ensures Rank(cats, c) == r
  {
    var k := Rank(cats, c);
    assert cats[k] == c;
  }

  /** The groups come in first-seen order: along the processing order, the first occurrence of
      each transaction's category in the input never moves backwards. */
  lemma CategoryOrderGroupsFirstSeen(txs: seq<BatchTransaction>)
    ensures forall i, j :: 0 <= i < j < |CategoryOrder(txs)| ==>
      Rank(FirstSeen(txs), CategoryOrder(txs)[i].category) <= Rank(FirstSeen(txs), CategoryOrder(txs)[j].category)
  {
    FirstSeenMembers(txs);
    GroupedOrdered(txs, FirstSeen(txs));
  }

  lemma ExampleFirstSeen(a: BatchTransaction, b: BatchTransaction, c: BatchTransaction)
    requires a.category == Expense && b.category == Payroll && c.category == Expense
    ensures FirstSeen([a, b, c]) == [Expense, Payroll]
  {
    assert [] + [a] == [a] && [a] + [b] == [a, b] && [a, b] + [c] == [a, b, c];
    FirstSeenSnoc([], a);
    FirstSeenSnoc([a], b);
    FirstSeenSnoc([a, b], c);
  }

  lemma ExampleInCategory(a: BatchTransaction, b: BatchTransaction, c: BatchTransaction, d: Category)
    requires a.category == Expense && b.category == Payroll && c.category == Expense
    ensures InCategory([a, b, c], d) == if d == Expense then [a, c] else if d == Payroll then [b] else []
  {
    assert [] + [a] == [a] && [a] + [b] == [a, b] && [a, b] + [c] == [a, b, c];
    InCategorySnoc([], a, d);
    InCategorySnoc([a], b, d);
    InCategorySnoc([a, b], c, d);
  }

  /** Three transactions of two categories: the second expense moves up before the payroll entry. */
  lemma CategoryOrderExample(a: BatchTransaction, b: BatchTransaction, c: BatchTransaction)
    requires a.category == Expense && b.category == Payroll && c.category == Expense
    ensures CategoryOrder([a, b, c]) == [a, c, b]
  {
    var txs := [a, b, c];
    var cats := [Expense, Payroll];
    ExampleFirstSeen(a, b, c);
    ExampleInCategory(a, b, c, Expense);
    ExampleInCategory(a, b, c, Payroll);
    GroupedStep(txs, cats, 0);
    GroupedStep(txs, cats, 1);
    assert cats[..0] == [] && cats[..2] == cats;
  }

  // Processing

  /** The wallet request made for a transaction; `None` for an unsupported type. The transfer memo
      is tagged with the upper-cased category. */
  function TxRequest(username: string, tx: BatchTransaction): (r: Option<Request>)
    ensures r.None? <==> tx.txType == CustomJsonTx
    ensures tx.txType == TransferTx ==> r == Some(Transfer(username, tx.to, tx.amount,
      "[" + Upper(CategoryText(tx.category)) + "] " + tx.memo, CurrencyText(tx.currency)))
  {
    match tx.txType
    case TransferTx => Some(Transfer(username, tx.to, tx.amount, "[" + Upper(CategoryText(tx.category)) + "] " + tx.memo, CurrencyText(tx.currency)))
    case PowerUpTx => Some(PowerUp(username, tx.to, tx.amount))
    case TokenTransferTx => Some(EK.TransferTokenRequest(username, tx.to, tx.amount, CurrencyText(tx.currency), tx.memo))
    case CustomJsonTx => None
  }

  /** The requests made for a sequence of transactions, in order. */
  function RequestsOf(username: string, txs: seq<BatchTransaction>): seq<Request> {
    if txs == [] then []
    else
      RequestsOf(username, txs[..|txs| - 1]) +
        match TxRequest(username, txs[|txs| - 1]) { case None => [] case Some(r) => [r] }
  }

  lemma {:induction false} RequestsOfAppend(username: string, a: seq<BatchTransaction>, b: seq<BatchTransaction>)
    ensures RequestsOf(username, a + b) == RequestsOf(username, a) + RequestsOf(username, b)
    decreases |b|
  {
    if b == [] {
      assert a + b == a;
    } else {
      var b' := b[..|b| - 1];
      assert (a + b)[..|a + b| - 1] == a + b';
      RequestsOfAppend(username, a, b');
    }
  }

  /** The answer a transaction gets: `None` when it is refused before any call is made. */
  function OutcomeOf(keychain: EK.Service, username: string, tx: BatchTransaction): Option<Settled<Response>>
    reads keychain
  {
    match TxRequest(username, tx)
    case None => None
    case Some(r) => Some(keychain.Outcome(r))
  }

  /** The transaction as recorded after its call: completed exactly when the wallet reports
      success, the answer kept only on success and its error only on failure; a rejected call or an
      unsupported type is a failure with the thrown message. */
  function Processed(tx: BatchTransaction, o: Option<Settled<Response>>): (r: BatchTransaction)
    ensures r.status == TxStatus.Completed <==> o.Some? && o.value.Resolved? && o.value.value.success
    ensures r.status != TxStatus.Completed ==> r.status == TxStatus.Failed
    ensures o.Some? && o.value.Resolved? ==>
      r.result == (if o.value.value.success then Some(o.value.value) else None)
      && r.error == (if o.value.value.success then None else o.value.value.error)
    ensures o.Some? && o.value.Rejected? ==> r.result == tx.result && r.error == Some(o.value.reason.GetOr("Unknown error"))
    ensures o.None? ==> r.result == tx.result && r.error == Some("Unsupported transaction type: " + TypeText(tx.txType))
    ensures r.(status := tx.status, result := tx.result, error := tx.error) == tx
  {
    match o
    case None => tx.(status := TxStatus.Failed, error := Some("Unsupported transaction type: " + TypeText(tx.txType)))
    case Some(Resolved(v)) =>
      tx.(status := if v.success then TxStatus.Completed else TxStatus.Failed,
          result := if v.success then Some(v) else None,
          error := if v.success then None else v.error)
    case Some(Rejected(reason)) => tx.(status := TxStatus.Failed, error := Some(reason.GetOr("Unknown error")))
  }

  /** Every transaction of `txs` as recorded after its call, in order. */
  function ProcessedAll(keychain: EK.Service, username: string, txs: seq<BatchTransaction>): (r: seq<BatchTransaction>)
    reads keychain
    ensures |r| == |txs|
  {
    if txs == [] then []
    else ProcessedAll(keychain, username, txs[..|txs| - 1]) + [Processed(txs[|txs| - 1], OutcomeOf(keychain, username, txs[|txs| - 1]))]
  }

  lemma {:induction false} ProcessedAllElements(keychain: EK.Service, username: string, txs: seq<BatchTransaction>)
    ensures forall i :: 0 <= i < |txs| ==>
      ProcessedAll(keychain, username, txs)[i] == Processed(txs[i], OutcomeOf(keychain, username, txs[i]))
  {
    if txs != [] {
      ProcessedAllElements(keychain, username, txs[..|txs| - 1]);
    }
  }

  lemma {:induction false} ProcessedAllAppend(keychain: EK.Service, username: string, a: seq<BatchTransaction>, b: seq<BatchTransaction>)
    ensures ProcessedAll(keychain, username, a + b) == ProcessedAll(keychain, username, a) + ProcessedAll(keychain, username, b)
    decreases |b|
  {
    if b == [] {
      assert a + b == a;
    } else {
      var b' := b[..|b| - 1];
      assert (a + b)[..|a + b| - 1] == a + b';
      ProcessedAllAppend(keychain, username, a, b');
    }
  }

  /** The try block of one transaction: the call its type asks for, and the recorded outcome. */
  method ProcessTransaction(keychain: EK.Service, username: string, tx: BatchTransaction) returns (r: BatchTransaction)
    modifies keychain.extension
    ensures r == Processed(tx, OutcomeOf(keychain, username, tx))
    ensures keychain.extension.received == old(keychain.extension.received) + keychain.Dispatched(RequestsOf(username, [tx]))
  {
    assert [tx][..0] == [];
    var o: Settled<Response>;
    match tx.txType {
      case TransferTx =>
        o := keychain.Transfer(username, tx.to, tx.amount, "[" + Upper(CategoryText(tx.category)) + "] " + tx.memo, CurrencyText(tx.currency));
      case PowerUpTx =>
        o := keychain.PowerUp(username, tx.to, tx.amount);
      case TokenTransferTx =>
        o := keychain.TransferToken(username, tx.to, tx.amount, CurrencyText(tx.currency), tx.memo);
      case CustomJsonTx =>
        r := Processed(tx, None);
        return;
    }
    r := Processed(tx, Some(o));
  }

  /** The `reduce` of `processByCategoryOptimized`: one list per category, and the categories in
      the order their lists were created (the key order of the record). */
  method GroupByCategory(txs: seq<BatchTransaction>) returns (groups: map<Category, seq<BatchTransaction>>, keys: seq<Category>)
    ensures keys == FirstSeen(txs)
    ensures forall c :: c in groups <==> c in keys
    ensures forall c :: c in groups ==> groups[c] == InCategory(txs, c)
  {
    groups := map[];
    keys := [];
    var i := 0;
    while i < |txs|
      invariant 0 <= i <= |txs|
      invariant keys == FirstSeen(txs[..i])
      invariant forall c :: c in groups <==> c in keys
      invariant forall c :: c in groups ==> groups[c] == InCategory(txs[..i], c)
    {
      var tx := txs[i];
      assert txs[..i + 1][..i] == txs[..i] && txs[..i + 1][i] == tx;
      if tx.category !in groups {
        InCategoryUnseen(txs[..i], tx.category);
        groups := groups[tx.category := []];
        keys := keys + [tx.category];
      }
      groups := groups[tx.category := groups[tx.category] + [tx]];
      i := i + 1;
    }
    assert txs[..i] == txs;
  }

  /** One step of the inner loop: the requests and the recorded outcomes grow by those of the
      next transaction of the group. */
  lemma GroupLoopStep(keychain: EK.Service, username: string, prior: seq<BatchTransaction>, group: seq<BatchTransaction>, j: nat)
    requires j < |group|
    ensures RequestsOf(username, prior + group[..j + 1]) == RequestsOf(username, prior + group[..j]) + RequestsOf(username, [group[j]])
    ensures ProcessedAll(keychain, username, group[..j + 1]) ==
      ProcessedAll(keychain, username, group[..j]) + [Processed(group[j], OutcomeOf(keychain, username, group[j]))]
  {
    RequestsOfAppend(username, prior + group[..j], [group[j]]);
    ProcessedAllAppend(keychain, username, group[..j], [group[j]]);
    assert group[..j + 1] == group[..j] + [group[j]];
    assert prior + group[..j + 1] == (prior + group[..j]) + [group[j]];
    assert [group[j]][..0] == [];
  }

  /** The body of the inner loop: the `j`-th transaction of the group is processed and its
      record appended to those of the transactions before it. */
  method ProcessNext(keychain: EK.Service, username: string, group: seq<BatchTransaction>, j: nat, results: seq<BatchTransaction>,
                     ghost start: seq<Request>, ghost prior: seq<BatchTransaction>) returns (results': seq<BatchTransaction>)
    requires j < |group|
    requires results == ProcessedAll(keychain, username, group[..j])
    requires keychain.extension.received == start + keychain.Dispatched(RequestsOf(username, prior + group[..j]))
    modifies keychain.extension
    ensures results' == ProcessedAll(keychain, username, group[..j + 1])
    ensures keychain.extension.received == start + keychain.Dispatched(RequestsOf(username, prior + group[..j + 1]))
  {
    ghost var done := RequestsOf(username, prior + group[..j]);
    ghost var next := RequestsOf(username, [group[j]]);
    var r := ProcessTransaction(keychain, username, group[j]);
    GroupLoopStep(keychain, username, prior, group, j);
    assert keychain.Dispatched(done + next) == keychain.Dispatched(done) + keychain.Dispatched(next);
    results' := results + [r];
  }

  /** The inner loop: the transactions of one group, one after the other. `start` and `prior`
      are the wallet log before the first group and the transactions processed before this one. */
  method ProcessGroup(keychain: EK.Service, username: string, group: seq<BatchTransaction>,
                      ghost start: seq<Request>, ghost prior: seq<BatchTransaction>) returns (results: seq<BatchTransaction>)
    requires keychain.extension.received == start + keychain.Dispatched(RequestsOf(username, prior))
    modifies keychain.extension
    ensures results == ProcessedAll(keychain, username, group)
    ensures keychain.extension.received == start + keychain.Dispatched(RequestsOf(username, prior + group))
  {
    results := [];
    var j := 0;
    assert group[..0] == [] && prior + group[..0] == prior;
    while j < |group|
      invariant 0 <= j <= |group|
      invariant results == ProcessedAll(keychain, username, group[..j])
      invariant keychain.extension.received == start + keychain.Dispatched(RequestsOf(username, prior + group[..j]))
    {
      results := ProcessNext(keychain, username, group, j, results, start, prior);
      j := j + 1;
    }
    assert group[..j] == group;
  }

  lemma GroupedStep(txs: seq<BatchTransaction>, keys: seq<Category>, k: nat)
    requires k < |keys|
    ensures Grouped(txs, keys[..k + 1]) == Grouped(txs, keys[..k]) + InCategory(txs, keys[k])
  {
    assert keys[..k + 1][..k] == keys[..k];
  }

  /** `processByCategoryOptimized`: groups the job's transactions by category, then processes
      the groups in first-seen order; one recorded transaction per input, in `CategoryOrder`. */
  method ProcessByCategoryOptimized(keychain: EK.Service, username: string, job: BatchJob) returns (results: seq<BatchTransaction>)
    modifies keychain.extension
    ensures |CategoryOrder(job.transactions)| == |job.transactions|
    ensures results == ProcessedAll(keychain, username, CategoryOrder(job.transactions))
    ensures keychain.extension.received ==
      old(keychain.extension.received) + keychain.Dispatched(RequestsOf(username, CategoryOrder(job.transactions)))
  {
    var txs := job.transactions;
    var groups, keys := GroupByCategory(txs);
    results := [];
    ghost var done: seq<BatchTransaction> := [];
    assert RequestsOf(username, done) == [];
    var k := 0;
    while k < |keys|
      invariant 0 <= k <= |keys|
      invariant done == Grouped(txs, keys[..k])
      invariant results == ProcessedAll(keychain, username, done)
      invariant keychain.extension.received == old(keychain.extension.received) + keychain.Dispatched(RequestsOf(username, done))
    {
      var group := groups[keys[k]];
      var rs := ProcessGroup(keychain, username, group, old(keychain.extension.received), done);
      ProcessedAllAppend(keychain, username, done, group);
      GroupedStep(txs, keys, k);
      done := done + group;
      results := results + rs;
      k := k + 1;
    }
    assert keys[..k] == keys;
    assert done == CategoryOrder(txs);
    CategoryOrderLength(txs);
  }

  /** Recording an outcome keeps a transaction's cost, so the processed list costs what the
      input did. */
  lemma {:induction false} ProcessedAllCost(keychain: EK.Service, username: string, txs: seq<BatchTransaction>)
    ensures SumCost(ProcessedAll(keychain, username, txs)) == SumCost(txs)
  {
    if txs != [] {
      var p := txs[..|txs| - 1];
      ProcessedAllCost(keychain, username, p);
      var r := ProcessedAll(keychain, username, txs);
      assert r[..|r| - 1] == ProcessedAll(keychain, username, p);
      var t := txs[|txs| - 1];
      var pt := Processed(t, OutcomeOf(keychain, username, t));
      assert pt.estimatedCost == pt.(status := t.status, result := t.result, error := t.error).estimatedCost;
    }
  }

  /** The job while it is processed: its status and its computed rewards. */
  function Running(job: BatchJob): (r: BatchJob)
    ensures r.status == JobStatus.Processing && r.peakeCoinRewards == JobRewards(job)
    ensures r.(status := job.status, peakeCoinRewards := job.peakeCoinRewards) == job
  {
    job.(status := JobStatus.Processing, peakeCoinRewards := JobRewards(job))
  }

  /** What processing a job in category order yields: one record per transaction of the
      category order, each its outcome, costing what the job's transactions cost. */
  lemma ProcessedInOrder(keychain: EK.Service, username: string, txs: seq<BatchTransaction>)
    ensures var order := CategoryOrder(txs);
      var results := ProcessedAll(keychain, username, order);
      |results| == |order| && SumCost(results) == SumCost(txs)
      && forall i :: 0 <= i < |order| ==> results[i] == Processed(order[i], OutcomeOf(keychain, username, order[i]))
  {
    var order := CategoryOrder(txs);
    ProcessedAllCost(keychain, username, order);
    ProcessedAllElements(keychain, username, order);
    CategoryOrderPermutes(txs);
  }

  /** The state of the processor component: the signed-in user, the job list, the job shown,
      the form, and the log of job lists written to local storage. */
  class Processor {
    const keychain: EK.Service
    var currentUser: Option<string>
    var jobs: seq<BatchJob>
    var activeJob: Option<BatchJob>
    var draft: TxDraft
    /** Every job list saved so far, oldest first. */
    var saved: seq<seq<BatchJob>>

    /** The component as mounted: the user of a valid session at `now` and the saved jobs, when
        local storage holds readable ones. */
    constructor (keychain: EK.Service, now: int, savedJobs: Option<seq<BatchJob>>)
      ensures this.keychain == keychain && currentUser == keychain.GetCurrentUser(now)
      ensures jobs == savedJobs.GetOr([]) && activeJob.None? && draft == EmptyDraft && saved == []
    {
      this.keychain := keychain;
      currentUser := keychain.GetCurrentUser(now);
      jobs := savedJobs.GetOr([]);
      activeJob := None;
      draft := EmptyDraft;
      saved := [];
    }

    method SaveJobs(updated: seq<BatchJob>)
      modifies this
      ensures saved == old(saved) + [updated] && jobs == updated
      ensures currentUser == old(currentUser) && activeJob == old(activeJob) && draft == old(draft)
    {
      saved := saved + [updated];
      jobs := updated;
    }

    /** An edit of the form. */
    method EditDraft(d: TxDraft)
      modifies this
      ensures draft == d
      ensures currentUser == old(currentUser) && jobs == old(jobs) && activeJob == old(activeJob) && saved == old(saved)
    {
      draft := d;
    }

    /** `createNewJob`; `id` and `now` stand for the clock-based id and the creation time. */
    method CreateNewJob(id: string, now: int)
      modifies this
      ensures jobs == old(jobs) + [NewJob(id, |old(jobs)|, now)] && saved == old(saved) + [jobs]
      ensures activeJob == Some(NewJob(id, |old(jobs)|, now))
      ensures currentUser == old(currentUser) && draft == old(draft)
    {
      var job := NewJob(id, |jobs|, now);
      SaveJobs(jobs + [job]);
      activeJob := Some(job);
    }

    /** `addTransactionToJob`; `txId` stands for the clock-based id. Without an active job or with
        an empty recipient or amount nothing changes. */
    method AddTransactionToJob(txId: string)
      modifies this
      ensures currentUser == old(currentUser)
      ensures old(activeJob).None? || !Fillable(old(draft)) ==>
        jobs == old(jobs) && saved == old(saved) && activeJob == old(activeJob) && draft == old(draft)
      ensures old(activeJob).Some? && Fillable(old(draft)) ==>
        var updated := WithTransaction(old(activeJob).value, NewTransaction(old(draft), txId));
        activeJob == Some(updated) && jobs == ReplaceById(old(jobs), old(activeJob).value.id, updated)
        && saved == old(saved) + [jobs] && draft == EmptyDraft
    {
      if activeJob.None? || !Fillable(draft) {
        return;
      }
      var job := activeJob.value;
      var tx := NewTransaction(draft, txId);
      var updated := WithTransaction(job, tx);
      SaveJobs(ReplaceById(jobs, job.id, updated));
      activeJob := Some(updated);
      draft := EmptyDraft;
    }

    /** `processJob`: without a user nothing happens. Otherwise the job is saved as processing with
        its rewards, its transactions are processed, and it is saved again as completed with the
        processed transactions and their summed cost, whatever their individual outcomes. */
    method ProcessJob(job: BatchJob, now: int)
      modifies this, keychain.extension
      ensures currentUser == old(currentUser) && draft == old(draft)
      ensures currentUser.None? ==>
        jobs == old(jobs) && saved == old(saved) && activeJob == old(activeJob)
        && keychain.extension.received == old(keychain.extension.received)
      ensures currentUser.Some? ==>
        var index := FindIndex(old(jobs), job.id);
        var order := CategoryOrder(job.transactions);
        activeJob.Some? && activeJob.value.status == JobStatus.Completed && activeJob.value.completedAt == Some(now)
        && activeJob.value == Running(job).(status := JobStatus.Completed, completedAt := Some(now),
             transactions := activeJob.value.transactions, actualCost := Some(SumCost(job.transactions)))
        && |activeJob.value.transactions| == |order|
        && (forall i :: 0 <= i < |order| ==>
             activeJob.value.transactions[i] == Processed(order[i], OutcomeOf(keychain, currentUser.value, order[i])))
        && saved == old(saved) + [PutAt(old(jobs), index, Running(job)), jobs]
        && jobs == PutAt(old(jobs), index, activeJob.value)
        && keychain.extension.received ==
             old(keychain.extension.received) + keychain.Dispatched(RequestsOf(currentUser.value, order))
    {
      if currentUser.None? {
        return;
      }
      var running := Running(job);
      var index := FindIndex(jobs, job.id);
      var list := jobs;
      var updatedJobs := PutAt(list, index, running);
      SaveJobs(updatedJobs);
      activeJob := Some(running);

      var results := ProcessByCategoryOptimized(keychain, currentUser.value, running);
      assert running.transactions == job.transactions;
      ProcessedInOrder(keychain, currentUser.value, job.transactions);
      var completed := running.(status := JobStatus.Completed, completedAt := Some(now),
                                transactions := results, actualCost := Some(SumCost(results)));
      updatedJobs := PutAt(list, index, completed);
      SaveJobs(updatedJobs);
      activeJob := Some(completed);
    }

    /** `importJob` once the file is read and parsed; `id` and `now` stand for the new id and time. */
    method ImportJob(imported: BatchJob, id: string, now: int)
      modifies this
      ensures jobs == old(jobs) + [Imported(imported, id, now)] && saved == old(saved) + [jobs]
      ensures currentUser == old(currentUser) && activeJob == old(activeJob) && draft == old(draft)
    {
      SaveJobs(jobs + [Imported(imported, id, now)]);
    }
  }

  /** Processing does not change what a job costs: for a job whose running total was kept by
      `WithTransaction`, the measured cost equals the estimate. */
  lemma ActualCostIsEstimate(job: BatchJob)
    requires job.totalEstimatedCost == SumCost(job.transactions)
    ensures SumCost(CategoryOrder(job.transactions)) == job.totalEstimatedCost
  {
    CategoryOrderPermutes(job.transactions);
  }
}
