/** The batch group store of the batch manager screen: batches of transfer entries whose aggregates
    (total cost, total amount, resource-credit savings, PEAKE rewards and the batching bonus) are
    recomputed from scratch over the entry list after every mutation. Every handler builds the next
    batch list from the current one; nothing is changed in place. */
module BatchTransactionManager {
  import opened Wrappers

  datatype Priority = Low | Medium | High
  datatype Token = HIVE | PEAKE | HBD
  datatype BatchStatus = Draft | Pending | Confirmed | Failed

  datatype BatchEntry = BatchEntry(
    id: string,
    description: string,
    amount: real,
    recipient: string,
    resourceCost: real,
    priority: Priority,
    category: string,
    timestamp: int,
    token: Token,
    memo: Option<string>,
    peakeRewards: Option<real>,   // `undefined` when the entry carries no reward
    peakeMultiplier: real)

  datatype BatchGroup = BatchGroup(
    id: string,
    name: string,
    entries: seq<BatchEntry>,
    totalResourceCost: real,
    totalAmount: real,
    status: BatchStatus,
    estimatedSavings: int,
    scheduledTime: Option<int>,
    peakeRewards: real,
    peakeBonus: int,
    hivePower: real)

  /** Resource-credit cost of submitting one transaction on its own. */
  const IndividualCost: int := 1000
  /** Resource-credit cost of each further transaction inside a batch. */
  const MarginalCost: int := 200

  /** `calculateResourceSavings`: individual cost of N submissions minus the batched cost. */
  function ResourceSavings(entries: seq<BatchEntry>): (r: int)
    ensures r == 800 * (|entries| - 1)
    ensures r >= 0 <==> |entries| >= 1
    ensures entries == [] ==> r == -800
  {
    |entries| * IndividualCost - (IndividualCost + (|entries| - 1) * MarginalCost)
  }

  /** `e.peakeRewards || 0`. */
  function RewardOf(e: BatchEntry): real {
    if e.peakeRewards.Some? then e.peakeRewards.value else 0.0
  }

  /** The `reduce` sums over an entry list, folded from the left as `reduce` does. */
  function SumResourceCost(es: seq<BatchEntry>): (r: real)
    ensures (forall k :: 0 <= k < |es| ==> es[k].resourceCost >= 0.0) ==> r >= 0.0
  {
    if es == [] then 0.0 else SumResourceCost(es[..|es| - 1]) + es[|es| - 1].resourceCost
  }

  function SumAmount(es: seq<BatchEntry>): (r: real)
    ensures (forall k :: 0 <= k < |es| ==> es[k].amount >= 0.0) ==> r >= 0.0
  {
    if es == [] then 0.0 else SumAmount(es[..|es| - 1]) + es[|es| - 1].amount
  }

  function SumRewards(es: seq<BatchEntry>): (r: real)
    ensures (forall k :: 0 <= k < |es| ==> RewardOf(es[k]) >= 0.0) ==> r >= 0.0
  {
    if es == [] then 0.0 else SumRewards(es[..|es| - 1]) + RewardOf(es[|es| - 1])
  }

  /** `Math.floor(totalPeakeRewards * 0.2)`: the 20% batching bonus. */
  function PeakeBonus(totalRewards: real): (r: int)
    ensures r as real <= totalRewards / 5.0 < r as real + 1.0
  {
    (totalRewards * 0.2).Floor
  }

  /** The aggregates of a batch agree with its entry list. */
  predicate Consistent(b: BatchGroup) {
    && b.totalResourceCost == SumResourceCost(b.entries)
    && b.totalAmount == SumAmount(b.entries)
    && b.estimatedSavings == ResourceSavings(b.entries)
    && b.peakeRewards == SumRewards(b.entries)
    && b.peakeBonus == PeakeBonus(SumRewards(b.entries))
  }

  /** The shared body of the add and remove handlers: install `entries` and recompute every
      aggregate from them, keeping the other fields of the batch. */
  function WithEntries(b: BatchGroup, entries: seq<BatchEntry>): (r: BatchGroup)
    ensures Consistent(r) && r.entries == entries
    ensures r.id == b.id && r.name == b.name && r.status == b.status
    ensures r.scheduledTime == b.scheduledTime && r.hivePower == b.hivePower
  {
    var rewards := SumRewards(entries);
    b.(entries := entries,
       totalResourceCost := SumResourceCost(entries),
       totalAmount := SumAmount(entries),
       estimatedSavings := ResourceSavings(entries),
       peakeRewards := rewards,
       peakeBonus := PeakeBonus(rewards))
  }

  /** The batch that `createNewBatch` appends. */
  function NewBatch(id: string, name: string): (b: BatchGroup)
    ensures b.id == id && b.name == name && b.status == Draft && b.entries == []
    ensures b.totalResourceCost == 0.0 && b.totalAmount == 0.0 && b.estimatedSavings == 0
    ensures b.peakeRewards == 0.0 && b.peakeBonus == 0 && b.hivePower == 0.0 && b.scheduledTime.None?
  {
    BatchGroup(id, name, [], 0.0, 0.0, Draft, 0, None, 0.0, 0, 0.0)
  }

  /** `createNewBatch`: the id is `Date.now()` as text, passed in. No check on the name. */
  function CreateNewBatch(batches: seq<BatchGroup>, id: string, name: string): (r: seq<BatchGroup>)
    ensures |r| == |batches| + 1 && r[..|batches|] == batches
    ensures r[|batches|] == NewBatch(id, name)
  {
    batches + [NewBatch(id, name)]
  }

  /** `addEntryToBatch`: every batch with the given id gets the entry appended and its aggregates
      recomputed; other batches are returned unchanged; no status check is made. */
  function AddEntryToBatch(batches: seq<BatchGroup>, batchId: string, entry: BatchEntry): (r: seq<BatchGroup>)
    ensures |r| == |batches|
    ensures forall i :: 0 <= i < |r| && batches[i].id != batchId ==> r[i] == batches[i]
    ensures forall i :: 0 <= i < |r| && batches[i].id == batchId ==>
      r[i] == WithEntries(batches[i], batches[i].entries + [entry])
  {
    seq(|batches|, i requires 0 <= i < |batches| =>
      if batches[i].id == batchId then WithEntries(batches[i], batches[i].entries + [entry]) else batches[i])
  }

  /** `entries.filter(e => e.id !== entryId)`. */
  function WithoutId(es: seq<BatchEntry>, entryId: string): (r: seq<BatchEntry>)
    ensures |r| <= |es|
    ensures forall e :: e in r <==> e in es && e.id != entryId
  {
    if es == [] then []
    else if es[0].id == entryId then WithoutId(es[1..], entryId)
    else [es[0]] + WithoutId(es[1..], entryId)
  }

  /** The filter keeps every entry without the id as often as it occurs, and no other. */
  lemma {:induction false} WithoutIdOccurrences(es: seq<BatchEntry>, entryId: string, e: BatchEntry)
    ensures multiset(WithoutId(es, entryId))[e] == if e.id == entryId then 0 else multiset(es)[e]
  {
    if es != [] {
      WithoutIdOccurrences(es[1..], entryId, e);
      assert es == [es[0]] + es[1..];
    }
  }

  /** `removeEntryFromBatch`: drops every entry with the id from every batch with the batch id and
      recomputes the aggregates exactly as the add handler does. */
  function RemoveEntryFromBatch(batches: seq<BatchGroup>, batchId: string, entryId: string): (r: seq<BatchGroup>)
    ensures |r| == |batches|
    ensures forall i :: 0 <= i < |r| && batches[i].id != batchId ==> r[i] == batches[i]
    ensures forall i :: 0 <= i < |r| && batches[i].id == batchId ==>
      r[i] == WithEntries(batches[i], WithoutId(batches[i].entries, entryId))
  {
    seq(|batches|, i requires 0 <= i < |batches| =>
      if batches[i].id == batchId then WithEntries(batches[i], WithoutId(batches[i].entries, entryId)) else batches[i])
  }

  predicate HasId(es: seq<BatchEntry>, id: string) {
    exists k :: 0 <= k < |es| && es[k].id == id
  }

  // ---------------------------------------------------------------------------------------------
  // Properties of the store

  /** Appending an entry adds its cost, amount and reward to the running sums. */
  lemma SumsOfAppend(es: seq<BatchEntry>, e: BatchEntry)
    ensures SumResourceCost(es + [e]) == SumResourceCost(es) + e.resourceCost
    ensures SumAmount(es + [e]) == SumAmount(es) + e.amount
    ensures SumRewards(es + [e]) == SumRewards(es) + RewardOf(e)
  {
    assert (es + [e])[..|es|] == es;
  }

  /** After `addEntryToBatch` the target's entries are the old ones followed by the new one, and
      every aggregate is the old aggregate plus the entry's share. */
  lemma AddEntryUpdatesAggregates(batches: seq<BatchGroup>, batchId: string, entry: BatchEntry, i: nat)
    requires i < |batches| && batches[i].id == batchId && Consistent(batches[i])
    ensures var b := AddEntryToBatch(batches, batchId, entry)[i];
      && b.entries == batches[i].entries + [entry]
      && b.totalResourceCost == batches[i].totalResourceCost + entry.resourceCost
      && b.totalAmount == batches[i].totalAmount + entry.amount
      && b.peakeRewards == batches[i].peakeRewards + RewardOf(entry)
      && b.estimatedSavings == batches[i].estimatedSavings + 800
  {
    SumsOfAppend(batches[i].entries, entry);
  }

  /** The sum of non-negative rewards is non-negative, so the bonus is between 0 and a fifth. */
  lemma {:induction false} RewardsNonNegative(es: seq<BatchEntry>)
    requires forall k :: 0 <= k < |es| ==> RewardOf(es[k]) >= 0.0
    ensures SumRewards(es) >= 0.0
    ensures 0 <= PeakeBonus(SumRewards(es))
    ensures PeakeBonus(SumRewards(es)) as real <= SumRewards(es) / 5.0
  {
    if es != [] {
      RewardsNonNegative(es[..|es| - 1]);
    }
  }

  /** Removing an id no entry carries leaves the entry list as it was. */
  lemma {:induction false} WithoutAbsentId(es: seq<BatchEntry>, entryId: string)
    requires !HasId(es, entryId)
    ensures WithoutId(es, entryId) == es
  {
    if es != [] {
      assert !HasId(es[1..], entryId) by {
        forall k | 0 <= k < |es[1..]| ensures es[1..][k].id != entryId {
          assert es[1..][k] == es[k + 1];
        }
      }
      WithoutAbsentId(es[1..], entryId);
    }
  }

  /** Filtering an appended entry whose id is the one removed gives the filtered prefix. */
  lemma {:induction false} WithoutIdAppend(es: seq<BatchEntry>, e: BatchEntry)
    ensures WithoutId(es + [e], e.id) == WithoutId(es, e.id)
  {
    if es == [] {
      assert es + [e] == [e];
    } else {
      assert (es + [e])[1..] == es[1..] + [e];
      WithoutIdAppend(es[1..], e);
    }
  }

  /** Removing an absent id keeps the entries, and the aggregates stay consistent with them. */
  lemma RemoveAbsentEntry(batches: seq<BatchGroup>, batchId: string, entryId: string)
    requires forall i :: 0 <= i < |batches| ==> !HasId(batches[i].entries, entryId)
    ensures var r := RemoveEntryFromBatch(batches, batchId, entryId);
      forall i :: 0 <= i < |r| ==> r[i].entries == batches[i].entries && (batches[i].id == batchId ==> Consistent(r[i]))
  {
    forall i | 0 <= i < |batches| {
      WithoutAbsentId(batches[i].entries, entryId);
    }
  }

  /** Adding an entry with a fresh id and then removing that id restores every batch, provided the
      target batches were consistent to begin with: the aggregates depend on the entry list alone. */
  lemma AddThenRemoveRestores(batches: seq<BatchGroup>, batchId: string, entry: BatchEntry)
    requires forall i :: 0 <= i < |batches| && batches[i].id == batchId ==>
      Consistent(batches[i]) && !HasId(batches[i].entries, entry.id)
    ensures RemoveEntryFromBatch(AddEntryToBatch(batches, batchId, entry), batchId, entry.id) == batches
  {
    var added := AddEntryToBatch(batches, batchId, entry);
    var r := RemoveEntryFromBatch(added, batchId, entry.id);
    forall i | 0 <= i < |batches| ensures r[i] == batches[i] {
      if batches[i].id == batchId {
        WithoutIdAppend(batches[i].entries, entry);
        WithoutAbsentId(batches[i].entries, entry.id);
      }
    }
  }

  /** Recomputing the aggregates of a consistent batch changes nothing. */
  lemma RecomputeIdempotent(b: BatchGroup)
    requires Consistent(b)
    ensures WithEntries(b, b.entries) == b
  {
  }

  /** A freshly created batch shows 0 savings, while the recomputation gives an empty entry list
      -800: a new batch is not consistent, and adding then removing its only entry leaves it with
      -800 savings instead of the 0 it started with. */
  lemma NewBatchSavingsDiffer(id: string, name: string, entry: BatchEntry)
    ensures !Consistent(NewBatch(id, name))
    ensures var r := RemoveEntryFromBatch(AddEntryToBatch(CreateNewBatch([], id, name), id, entry), id, entry.id);
      |r| == 1 && r[0].entries == [] && r[0].estimatedSavings == -800
  {
    WithoutIdAppend([], entry);
  }
}
