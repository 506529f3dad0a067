# PeakeCorp batch transactions, keychain services and rule engines in Dafny

PeakeCorp is a web application for corporate payments on the Hive blockchain. This project models its core logic:

- **Batch manager screen** (`BatchTransactionManager`): batches of transfer entries. Each batch's aggregates (cost, amount, resource-credit savings, PEAKE rewards and the 20% batching bonus) are recomputed from its entry list.
- **Enhanced batch processor** (`EnhancedBatchProcessor`): jobs built from a form. A job is processed category by category through the wallet. It is saved as processing, then as completed.
- **Two keychain services**:
  - the simple one (`Keychain`): connect, login, broadcast, transfer, and sorting batch outcomes into results and errors;
  - the enterprise one (`EnhancedKeychain`): an eight-hour session, guarded wallet requests, Hive Engine token operations, reward and workflow loops, and the equal split of efficiency rewards.
- **Hive Engine calculator** (`Engine`): the PEAKE lookups and the reward calculator.
- **Integration hub** (`PeakeCorpIntegration`): payroll, expense reimbursement, reward pay-out, efficiency metrics and treasury advice.
- **Hive API helpers** (`HiveApi`): reading addresses, amounts and memos out of raw operations, the resource-cost table, the history shape, and the submission path that always fails.
- **Timeline extrapolation rules** (`Timeline`).
- **Small list utilities**:
  - the 20-point live chart (`RealTimeAnalytics`);
  - the process filter (`WorkflowTracker`);
  - the quote figures (`ProjectManagement`);
  - the analytics period tables and report summary (`BlockchainAnalytics`).

## How the model is built

- **Parameters.** The browser wallet extension is a class `KeychainExtension.Extension`:
  - a fixed answer for every request (`respond`);
  - an installed flag;
  - a log of every request handed to it (`received`).

  Methods that talk to the wallet state exactly which requests reached it, in order. Clocks, random draws, `Date.now` ids and the side-chain query results are parameters. Integers are rendered by `Strings.NatToString`: integer `toString()` and template interpolation of whole numbers. Only non-integer formatting is a parameter: `toString` of a fractional number, `toFixed`, `toISOString` and locale dates.
- **State.** Objects whose fields the source updates are classes with `modifies` frames:
  - the two keychain services;
  - the processor component, which keeps its job list and a log of what it saved to local storage.

  The pure React handlers and calculators are functions over datatypes.
- **Loops.** The source's loops are `while`/`for` loops with invariants, each proved against a specification function:
  - the reward and workflow loops;
  - the batch broadcaster;
  - the category grouping and the nested processing loop;
  - the analytics loop;
  - the API batch loop.
- **Helper modules:**
  - `Wrappers` (Option);
  - `Strings` (JavaScript's `||` on strings, ASCII case mapping, decimal rendering, `split(' ')`);
  - `Numbers`: JavaScript numbers as exact reals that may be NaN, a `parseFloat` for signed decimals, `Math.round` and `Math.ceil`.

## Model

| member | source | states |
|---|---|---|
| BatchTransactionManager.ResourceSavings | src/components/BatchTransactionManager.tsx:120-124 | Savings are 800·(N−1). They are non-negative exactly when there is at least one entry, and −800 for an empty list. |
| BatchTransactionManager.PeakeBonus | src/components/BatchTransactionManager.tsx:148-149 | The bonus is the whole number just below a fifth of the reward total: bonus ≤ total/5 < bonus+1. |
| BatchTransactionManager.WithEntries | src/components/BatchTransactionManager.tsx:150-157 | The recomputed batch has exactly the given entries and aggregates consistent with them. Id, name, status, scheduled time and hive power are kept. |
| BatchTransactionManager.NewBatch | src/components/BatchTransactionManager.tsx:127-138 | A new batch is a draft with no entries, every aggregate zero and no schedule. |
| BatchTransactionManager.CreateNewBatch | src/components/BatchTransactionManager.tsx:126-142 | One batch is appended and the existing batches are unchanged. |
| BatchTransactionManager.AddEntryToBatch | src/components/BatchTransactionManager.tsx:144-162 | Batches with other ids are unchanged. Each batch with the id gets the entry appended and its aggregates recomputed. There is no status check. |
| BatchTransactionManager.WithoutId | src/components/BatchTransactionManager.tsx:166 | The kept entries are exactly those whose id differs. |
| BatchTransactionManager.WithoutIdOccurrences | src/components/BatchTransactionManager.tsx:166 | An entry without the id is kept as often as it occurs, and an entry with the id not at all. |
| BatchTransactionManager.RemoveEntryFromBatch | src/components/BatchTransactionManager.tsx:164-182 | Batches with other ids are unchanged. Each target batch loses every entry with the id, and its aggregates are recomputed as the add handler does. |
| BatchTransactionManager.SumsOfAppend | src/components/BatchTransactionManager.tsx:148-154 | Each `reduce` sum over a list with one more entry is the old sum plus that entry's share. |
| BatchTransactionManager.SumResourceCost | src/components/BatchTransactionManager.tsx:153 | With non-negative resource costs the total resource cost is non-negative. |
| BatchTransactionManager.SumAmount | src/components/BatchTransactionManager.tsx:154 | With non-negative amounts the total amount is non-negative. |
| BatchTransactionManager.SumRewards | src/components/BatchTransactionManager.tsx:148 | With non-negative rewards, a missing one counting as 0, the reward total is non-negative. |
| BatchTransactionManager.AddEntryUpdatesAggregates | src/components/BatchTransactionManager.tsx:147-156 | For a consistent target batch, the new entries are the old ones plus the entry. Cost, amount and rewards grow by the entry's share, and savings by 800. |
| BatchTransactionManager.RewardsNonNegative | src/components/BatchTransactionManager.tsx:148-149 | With non-negative rewards, the total is non-negative and the bonus lies between 0 and a fifth of it. |
| BatchTransactionManager.WithoutAbsentId | src/components/BatchTransactionManager.tsx:166 | Filtering out an id that no entry carries keeps the list. |
| BatchTransactionManager.WithoutIdAppend | src/components/BatchTransactionManager.tsx:166 | Filtering out the id of an appended entry gives the filtered prefix. |
| BatchTransactionManager.RemoveAbsentEntry | src/components/BatchTransactionManager.tsx:164-182 | Removing an absent id keeps every entry list, and targets become consistent. |
| BatchTransactionManager.AddThenRemoveRestores | src/components/BatchTransactionManager.tsx:144-182 | Adding an entry with a fresh id and then removing it restores every consistent batch. |
| BatchTransactionManager.RecomputeIdempotent | src/components/BatchTransactionManager.tsx:150-157 | Recomputing a consistent batch changes nothing. |
| BatchTransactionManager.NewBatchSavingsDiffer | src/components/BatchTransactionManager.tsx:126-182 | A new batch's savings are 0, while their recomputation is −800. Adding, then removing, a batch's only entry leaves it at −800. |
| EnhancedBatchProcessor.BaseCost | src/components/EnhancedBatchProcessor.tsx:172-179 | The base fee is 0.002 for token transfers and 0.001 for every other type, including a missing one. |
| EnhancedBatchProcessor.EstimatedCost | src/components/EnhancedBatchProcessor.tsx:170-184 | The cost is a number exactly when the amount reads as one, a missing amount reading as "0"; otherwise it is NaN. |
| EnhancedBatchProcessor.EstimatedCostMonotone | src/components/EnhancedBatchProcessor.tsx:170-184 | For a numeric amount x, the cost is the base fee plus x·0.0001, and it grows with the amount. |
| EnhancedBatchProcessor.EstimatedCostWithoutAmount | src/components/EnhancedBatchProcessor.tsx:180-183 | A missing or empty amount reads as 0, so the cost is the base fee. |
| EnhancedBatchProcessor.JobRewards | src/components/EnhancedBatchProcessor.tsx:186-193 | A job earns at least 2 PEAKE per transaction. |
| EnhancedBatchProcessor.JobRewardsBounds | src/components/EnhancedBatchProcessor.tsx:186-193 | The reward lies between 2n and 2.9n, and is 0 exactly for an empty job. It is exactly 2n for small standard jobs, 2.4n for small enterprise jobs, 2.5n for large standard jobs and 2.9n for large enterprise jobs. |
| EnhancedBatchProcessor.SumCostAppend | src/components/EnhancedBatchProcessor.tsx:226 | The summed cost of two lists is the sum of their sums, NaN included. |
| EnhancedBatchProcessor.NewJob | src/components/EnhancedBatchProcessor.tsx:109-119 | The job is named "Batch Job n+1". It is an empty standard draft with zero cost and rewards consistent with its transactions. |
| EnhancedBatchProcessor.NewTransaction | src/components/EnhancedBatchProcessor.tsx:132-143 | The transaction is pending. Missing choices take their defaults (transfer, HIVE, expense, medium). Its cost is the estimate of the form. |
| EnhancedBatchProcessor.WithTransaction | src/components/EnhancedBatchProcessor.tsx:145-149 | Exactly one transaction is appended and the running cost grows by its estimate. All other fields are kept. |
| EnhancedBatchProcessor.WithTransactionKeepsTotal | src/components/EnhancedBatchProcessor.tsx:145-149 | A running total equal to the summed cost stays equal after an append. |
| EnhancedBatchProcessor.ReplaceById | src/components/EnhancedBatchProcessor.tsx:151-153 | Each job with the id is replaced and every other job is unchanged. |
| EnhancedBatchProcessor.FindIndex | src/components/EnhancedBatchProcessor.tsx:211 | Returns −1 exactly when no job has the id, and otherwise the first position that has it. |
| EnhancedBatchProcessor.PutAt | src/components/EnhancedBatchProcessor.tsx:212-213 | An index inside the list replaces that element. The −1 of a missing job leaves the array's elements as they were. |
| EnhancedBatchProcessor.Imported | src/components/EnhancedBatchProcessor.tsx:365-370 | The job gets the new id, the new creation time and draft status. Every other field, transaction statuses included, is kept. |
| EnhancedBatchProcessor.FirstSeenMembers | src/components/EnhancedBatchProcessor.tsx:264-270 | The group keys are distinct and are exactly the categories that occur. |
| EnhancedBatchProcessor.InCategoryUnseen | src/components/EnhancedBatchProcessor.tsx:265-267 | A category that has not occurred yet has an empty group. |
| EnhancedBatchProcessor.CategoryOrderPermutes | src/components/EnhancedBatchProcessor.tsx:264-276 | The processing order is a permutation of the job's transactions, with the same length and the same total cost. |
| EnhancedBatchProcessor.CategoryOrderLength | src/components/EnhancedBatchProcessor.tsx:264-276 | The processing order has one entry per transaction. |
| EnhancedBatchProcessor.CategoryOrderStable | src/components/EnhancedBatchProcessor.tsx:268-276 | Within each category the original order is kept. |
| EnhancedBatchProcessor.Rank | src/components/EnhancedBatchProcessor.tsx:273 | The position of a category among the keys, which is below the length exactly when the category is present. |
| EnhancedBatchProcessor.GroupedOrdered | src/components/EnhancedBatchProcessor.tsx:273-276 | Concatenated groups follow the key order. |
| EnhancedBatchProcessor.CategoryOrderGroupsFirstSeen | src/components/EnhancedBatchProcessor.tsx:264-276 | Along the processing order, categories never go back in first-seen order. |
| EnhancedBatchProcessor.CategoryOrderMultiset | src/components/EnhancedBatchProcessor.tsx:264-276 | Grouping by first-seen category keeps every transaction exactly once. |
| EnhancedBatchProcessor.CategoryOrderCost | src/components/EnhancedBatchProcessor.tsx:264-276 | Grouping by first-seen category keeps the total estimated cost, NaN included. |
| EnhancedBatchProcessor.CategoryOrderExample | src/components/EnhancedBatchProcessor.tsx:264-276 | For expense, payroll, expense, the second expense is processed before the payroll entry. |
| EnhancedBatchProcessor.TxRequest | src/components/EnhancedBatchProcessor.tsx:280-311 | Only the custom-JSON type makes no request. A transfer carries the memo "[CATEGORY] memo" and the currency as text. |
| EnhancedBatchProcessor.RequestsOfAppend | src/components/EnhancedBatchProcessor.tsx:276-330 | The requests of two lists run one after the other. |
| EnhancedBatchProcessor.Processed | src/components/EnhancedBatchProcessor.tsx:313-328 | Completed exactly when the wallet reports success, and failed otherwise. The result is kept only on success and the error only on failure. A thrown call or an unsupported type fails with the thrown message. Every other field is kept. |
| EnhancedBatchProcessor.ProcessedAll | src/components/EnhancedBatchProcessor.tsx:276-330 | One recorded transaction per input. |
| EnhancedBatchProcessor.ProcessedAllElements | src/components/EnhancedBatchProcessor.tsx:276-330 | Entry i is transaction i as recorded after its own call. |
| EnhancedBatchProcessor.ProcessedAllAppend | src/components/EnhancedBatchProcessor.tsx:273-331 | Processing two lists one after the other gives the two outcomes concatenated. |
| EnhancedBatchProcessor.ProcessTransaction | src/components/EnhancedBatchProcessor.tsx:277-328 | One transaction's outcome is recorded, and the wallet sees exactly its request, or none for an unsupported type. |
| EnhancedBatchProcessor.GroupByCategory | src/components/EnhancedBatchProcessor.tsx:264-270 | The keys are the categories in first-seen order. Each key's list holds that category's transactions in input order. |
| EnhancedBatchProcessor.ProcessNext | src/components/EnhancedBatchProcessor.tsx:276-330 | One step of the inner loop: the next transaction's record is appended to those before it, and exactly its request reaches the wallet after theirs. |
| EnhancedBatchProcessor.ProcessGroup | src/components/EnhancedBatchProcessor.tsx:276-330 | The inner loop records every transaction of the group in order and sends their requests in order. |
| EnhancedBatchProcessor.ProcessByCategoryOptimized | src/components/EnhancedBatchProcessor.tsx:257-334 | The results are the job's transactions in category order, each recorded after its call. The wallet sees their requests in that order. |
| EnhancedBatchProcessor.ProcessedAllCost | src/components/EnhancedBatchProcessor.tsx:226 | Recording outcomes keeps the summed cost. |
| EnhancedBatchProcessor.Running | src/components/EnhancedBatchProcessor.tsx:204-208 | The job is marked processing with its computed rewards, and everything else is kept. |
| EnhancedBatchProcessor.Processor.SaveJobs | src/components/EnhancedBatchProcessor.tsx:99-106 | The list is stored and logged, and nothing else changes. |
| EnhancedBatchProcessor.Processor.EditDraft | src/components/EnhancedBatchProcessor.tsx:453 | The form holds the edited transaction; the user, the jobs, the active job and the save log are unchanged. |
| EnhancedBatchProcessor.Processor.CreateNewJob | src/components/EnhancedBatchProcessor.tsx:108-124 | The new job is appended, saved and made active. |
| EnhancedBatchProcessor.Processor.AddTransactionToJob | src/components/EnhancedBatchProcessor.tsx:126-168 | Nothing changes without an active job or with an empty recipient or amount. Otherwise one transaction is added to the active job, the list is saved and the form is reset. |
| EnhancedBatchProcessor.ProcessedInOrder | src/components/EnhancedBatchProcessor.tsx:218-227 | A completed job holds one record per transaction, in category order, each with its own outcome. Its actual cost equals the cost of the job's transactions. |
| EnhancedBatchProcessor.Processor.ProcessJob | src/components/EnhancedBatchProcessor.tsx:195-236 | Nothing happens without a user. Otherwise the job is saved as processing, then as completed. Its transactions are the processed ones in category order; the actual cost is their sum, whatever their outcomes. |
| EnhancedBatchProcessor.Processor.ImportJob | src/components/EnhancedBatchProcessor.tsx:358-377 | The reset job is appended and saved. |
| EnhancedBatchProcessor.ActualCostIsEstimate | src/components/EnhancedBatchProcessor.tsx:145-226 | For a job built by adding transactions, the measured cost equals the running estimate. |
| EnhancedKeychain.AuthRequest | src/lib/hive/enhanced-keychain.ts:179-188 | The login is a sign request for the user, with the Active key when active is required and Posting otherwise. |
| EnhancedKeychain.TransferTokenRequest | src/lib/hive/enhanced-keychain.ts:313-337 | A `tokens`/`transfer` custom JSON on `ssc-mainnet-hive` with symbol, recipient, quantity and memo. |
| EnhancedKeychain.StakeTokenRequest | src/lib/hive/enhanced-keychain.ts:342-363 | A `tokens`/`stake` custom JSON that stakes to the caller's own account. |
| EnhancedKeychain.UnstakeTokenRequest | src/lib/hive/enhanced-keychain.ts:368-388 | A `tokens`/`unstake` custom JSON with no recipient and no memo. |
| EnhancedKeychain.TokenOperationsRouteToSideChain | src/lib/hive/enhanced-keychain.ts:320-387 | The three token operations share the chain id and contract name, and differ in their action. |
| EnhancedKeychain.RewardRequests | src/lib/hive/enhanced-keychain.ts:399-408 | Each reward is sent as one PEAKE token transfer, in order. |
| EnhancedKeychain.WorkflowRequest | src/lib/hive/enhanced-keychain.ts:435-442 | A transfer with the memo "[WORKFLOW] memo" and the transaction's currency. |
| EnhancedKeychain.WorkflowRequests | src/lib/hive/enhanced-keychain.ts:433-453 | Each workflow transaction is sent as one transfer, in order. |
| EnhancedKeychain.Caught | src/lib/hive/enhanced-keychain.ts:412-452 | An answer is kept as it is. A thrown call becomes a failure carrying its message or the fallback. |
| EnhancedKeychain.PerEmployee | src/lib/hive/enhanced-keychain.ts:475 | The share is the floor of total/n: per·n ≤ total < (per+1)·n. |
| EnhancedKeychain.EfficiencyRewards | src/lib/hive/enhanced-keychain.ts:469-490 | Refused exactly when a share would be below 1. Otherwise every employee, in order, gets the same share with one memo. |
| EnhancedKeychain.EfficiencySplitIsFair | src/lib/hive/enhanced-keychain.ts:475-490 | Each share is at least 1, the shares never exceed the total, and less than one share per employee is left over. |
| EnhancedKeychain.EfficiencyBase | src/lib/hive/enhanced-keychain.ts:469-470 | The base is the whole number just below 1.5% of the volume, non-negative for a non-negative volume. |
| EnhancedKeychain.EfficiencyBonus | src/lib/hive/enhanced-keychain.ts:471 | The bonus is the whole number just below the base times the score percentage, non-negative for a non-negative base and score. |
| EnhancedKeychain.EfficiencyTotal | src/lib/hive/enhanced-keychain.ts:472 | For non-negative volume and score the total is at least the compliance bonus. |
| EnhancedKeychain.InsufficientRewards | src/lib/hive/enhanced-keychain.ts:475-477 | The split is refused exactly when the total is below the number of employees; with no employees, exactly when the total is negative. |
| EnhancedKeychain.EfficiencyTotalBounds | src/lib/hive/enhanced-keychain.ts:469-474 | For non-negative volume and score, base and bonus are non-negative, so the total is at least the compliance bonus. |
| EnhancedKeychain.GetUserBalance | src/lib/hive/enhanced-keychain.ts:496-527 | HIVE and HBD read 0. PEAKE balance and stake come from the side-chain lookups, and the estimated value is PEAKE·0.05. |
| EnhancedKeychain.Service.constructor | src/lib/hive/enhanced-keychain.ts:59-99 | After initialisation, availability is the extension's presence. The stored session is loaded only when the extension is available. |
| EnhancedKeychain.Service.LoadAuthenticationData | src/lib/hive/enhanced-keychain.ts:104-116 | A stored session is loaded, and an empty user name counts as no user. |
| EnhancedKeychain.Service.GetCurrentUser | src/lib/hive/enhanced-keychain.ts:207-221 | There is no user whenever the session is not authenticated, and the current user otherwise. |
| EnhancedKeychain.Service.SessionWindow | src/lib/hive/enhanced-keychain.ts:207-214 | A session valid now was valid earlier, and it has expired eight hours after its timestamp. |
| EnhancedKeychain.Service.IsAuthenticated | src/lib/hive/enhanced-keychain.ts:207-214 | No contract of its own: a stored session younger than eight hours. SessionWindow states its window. |
| EnhancedKeychain.Service.SaveAuthenticationData | src/lib/hive/enhanced-keychain.ts:121-127 | The session is stored, and the user is current for the next eight hours. |
| EnhancedKeychain.Service.SignOut | src/lib/hive/enhanced-keychain.ts:226-232 | User, session and storage are cleared, and no later time is authenticated. |
| EnhancedKeychain.Service.Dispatch | src/lib/hive/enhanced-keychain.ts:246-248 | When the wallet is unavailable, the call fails with "Hive Keychain not available" and no request is made. Otherwise the wallet's answer is returned and exactly one request is made. |
| EnhancedKeychain.Service.AuthenticateUser | src/lib/hive/enhanced-keychain.ts:169-202 | The session is saved exactly when the signature succeeds, and is then current for eight hours. Otherwise the state is unchanged. |
| EnhancedKeychain.Service.Transfer | src/lib/hive/enhanced-keychain.ts:237-260 | One guarded transfer request. |
| EnhancedKeychain.Service.PowerUp | src/lib/hive/enhanced-keychain.ts:265-280 | One guarded power-up request. |
| EnhancedKeychain.Service.CustomJson | src/lib/hive/enhanced-keychain.ts:285-308 | One guarded custom-JSON request. |
| EnhancedKeychain.Service.TransferToken | src/lib/hive/enhanced-keychain.ts:313-337 | One guarded token-transfer request. |
| EnhancedKeychain.Service.StakeToken | src/lib/hive/enhanced-keychain.ts:342-363 | One guarded stake request. |
| EnhancedKeychain.Service.UnstakeToken | src/lib/hive/enhanced-keychain.ts:368-388 | One guarded unstake request. |
| EnhancedKeychain.Service.RewardAnswers | src/lib/hive/enhanced-keychain.ts:397-420 | One answer per reward, in order. A thrown call is a failure. |
| EnhancedKeychain.Service.WorkflowAnswers | src/lib/hive/enhanced-keychain.ts:433-453 | One answer per workflow transaction, in order. |
| EnhancedKeychain.Service.DistributePeakeCoinRewards | src/lib/hive/enhanced-keychain.ts:393-421 | The loop returns one answer per reward, carries on after a thrown call, and sends the requests in order. |
| EnhancedKeychain.Service.ExecuteCorporateWorkflow | src/lib/hive/enhanced-keychain.ts:426-456 | The loop returns one answer per transaction, with tagged memos, in order. |
| EnhancedKeychain.Service.DistributeCorporateEfficiencyRewards | src/lib/hive/enhanced-keychain.ts:461-491 | A refused split answers one failure and sends nothing. Otherwise the shares are sent as rewards. The compliance bonus defaults to 0, as in the source. |
| Engine.FindPeake | src/lib/hive/engine.ts:77 | Finds the first token whose symbol is PEAKE, or none when no token has that symbol. |
| Engine.PeakeCoinBalance | src/lib/hive/engine.ts:74-83 | The PEAKE balance parsed, or 0 when the query failed or PEAKE is absent. |
| Engine.PeakeCoinStake | src/lib/hive/engine.ts:88-97 | The PEAKE stake parsed, or 0 when the query failed or PEAKE is absent. |
| Engine.PeakeCoinPrice | src/lib/hive/engine.ts:125-133 | The last price, or 0.05 when market data is missing or the price is 0. |
| Engine.CalculatePeakeCoinRewards | src/lib/hive/engine.ts:169-206 | The total is base times multiplier, and the multiplier is tier times batch factor. The bonus type is batch exactly for batches. The transaction id is empty. |
| Engine.BaseRate | src/lib/hive/engine.ts:176-194 | Every rate lies between 0.1 and 3. A type other than the four keys with their own rate gets 1, the `|| 1` default. |
| Engine.TierMultiplier | src/lib/hive/engine.ts:185-189 | The tier factor lies between 1 and 2. It is 1 exactly for professional and 2 exactly for business-critical. |
| Engine.BatchMultiplier | src/lib/hive/engine.ts:192 | The batch factor is at least 1, and above 1 exactly for a batch. |
| Engine.BaseReward | src/lib/hive/engine.ts:194 | The base reward never exceeds ten times the rate, and is non-negative for a non-negative amount. |
| Engine.BaseRewardCappedAndMonotone | src/lib/hive/engine.ts:176-194 | The base reward grows with the amount, is capped at ten times the rate, and reaches the cap from an amount of 1000. |
| Engine.MultiplierRange | src/lib/hive/engine.ts:185-196 | The multiplier lies between 1 and 2.5, and exceeds 2 exactly for a business-critical batch. |
| Keychain.Relay | src/lib/hive/keychain.ts:147-192 | The result is kept on success. On failure the result is the wallet's message or the fallback. A thrown call stays thrown. |
| Keychain.RewardTransfer | src/lib/hive/keychain.ts:222-237 | A transfer from peakecorp-treasury in PEAKE, with memo "PeakeCorp Reward - Workflow: id - Task: desc". |
| Keychain.Summary | src/lib/hive/keychain.ts:245-270 | Success exactly when there are no errors. |
| Keychain.SummaryPartitions | src/lib/hive/keychain.ts:245-270 | Results and errors together count every item, and success means every item succeeded. |
| Keychain.SummaryCountsSuccesses | src/lib/hive/keychain.ts:245-270 | There is one result per succeeded item. |
| Keychain.SucceededAnswers | src/lib/hive/keychain.ts:256-257 | An answer is kept exactly when it is among the answers and succeeded. |
| Keychain.FailedAnswers | src/lib/hive/keychain.ts:258-262 | An answer is kept exactly when it is among the answers and did not succeed. |
| Keychain.SummaryResults | src/lib/hive/keychain.ts:256-257 | The results are the results of the succeeded answers, one each, in order. |
| Keychain.SummaryErrors | src/lib/hive/keychain.ts:258-263 | The errors belong to the answers that failed or threw, one each, in order. |
| Keychain.SummaryContents | src/lib/hive/keychain.ts:249-264 | The i-th result is the result of the i-th succeeded answer. The i-th error is the message, or "Unknown error", of the i-th answer that failed or threw. |
| Keychain.BroadcastRequests | src/lib/hive/keychain.ts:249-255 | Each item is broadcast with its operations and key, in order. |
| Keychain.Service.constructor | src/lib/hive/keychain.ts:55-58 | The service starts disconnected, with no account. |
| Keychain.Service.IsKeychainInstalled | src/lib/hive/keychain.ts:70-75 | No contract of its own: the extension parameter's installed flag. |
| Keychain.Service.IsUserConnected | src/lib/hive/keychain.ts:207-209 | No contract of its own: connected and with an account. |
| Keychain.Service.GetConnectedAccount | src/lib/hive/keychain.ts:200-202 | No contract of its own: the account last logged in. |
| Keychain.Service.Initialize | src/lib/hive/keychain.ts:80-94 | Returns true and connects exactly when the extension is installed. Otherwise nothing changes. |
| Keychain.Service.RequestLogin | src/lib/hive/keychain.ts:99-127 | Fails at once without the extension. The account is recorded only by a successful signature, and a failure reports the wallet's message or "Login failed". |
| Keychain.Service.BroadcastTransaction | src/lib/hive/keychain.ts:132-159 | Makes one broadcast request, or none when the extension is not installed. |
| Keychain.Service.Transfer | src/lib/hive/keychain.ts:164-195 | Makes one transfer request, or none when the extension is not installed. The currency defaults to HIVE. |
| Keychain.Service.Disconnect | src/lib/hive/keychain.ts:214-217 | The service is no longer connected. |
| Keychain.Service.CreatePeakeCoinReward | src/lib/hive/keychain.ts:222-237 | Makes the treasury reward transfer. |
| Keychain.Service.Answers | src/lib/hive/keychain.ts:249-263 | One answer per item, in order. |
| Keychain.Service.ProcessBatchTransactions | src/lib/hive/keychain.ts:242-271 | Results plus errors count every item, success means every item succeeded, and the items are broadcast in order. |
| PeakeCorpIntegration.Successes | src/lib/peakecorp-integration.ts:113 | An answer is kept exactly when it is among the answers and succeeded. |
| PeakeCorpIntegration.Failures | src/lib/peakecorp-integration.ts:114 | An answer is kept exactly when it is among the answers and failed. |
| PeakeCorpIntegration.PartitionMultiset | src/lib/peakecorp-integration.ts:113-114 | Successes and failures together are the answers, each as often as it occurs. |
| PeakeCorpIntegration.PartitionOccurrences | src/lib/peakecorp-integration.ts:113-114 | A successful answer occurs among the successes as often as among the answers, and never among the failures; a failed one the other way round. |
| PeakeCorpIntegration.SuccessesAndFailures | src/lib/peakecorp-integration.ts:113-114 | Every answer lands in one of the two lists. There are no failures exactly when all answers succeeded. |
| PeakeCorpIntegration.PayrollTransactions | src/lib/peakecorp-integration.ts:99-105 | One HBD transaction per employee, in order, with memo "Payroll - period - department". |
| PeakeCorpIntegration.TransactionIds | src/lib/peakecorp-integration.ts:128 | Each answer's transaction id, or "". |
| PeakeCorpIntegration.ErrorTexts | src/lib/peakecorp-integration.ts:129 | Each answer's error, or "Unknown error". |
| PeakeCorpIntegration.PayrollSummary | src/lib/peakecorp-integration.ts:113-130 | One id per success, the i-th being the i-th success's `transactionId` or "". One error per failure, the i-th being the i-th failure's error or "Unknown error". Success means every payment succeeded, which means no errors. |
| PeakeCorpIntegration.PayrollRewards | src/lib/peakecorp-integration.ts:117-124 | A single self-reward of 5 per success, given only when some payment succeeded. |
| PeakeCorpIntegration.DistributePeakeCoinRewards | src/lib/peakecorp-integration.ts:183-198 | True exactly when every reward transfer succeeded, so true for no rewards. |
| PeakeCorpIntegration.ExecutePayrollWorkflow | src/lib/peakecorp-integration.ts:93-138 | The result is the summary of the payroll answers. The wallet sees the payments, then the reward, if any. |
| PeakeCorpIntegration.ExpenseTransactions | src/lib/peakecorp-integration.ts:148-154 | One HIVE transaction per expense, with memo "Expense Reimbursement - category: description". |
| PeakeCorpIntegration.ExpenseSummary | src/lib/peakecorp-integration.ts:162-168 | The processed count is the number of successes, and success means every expense succeeded. The total is the sum of the first processed-count amounts. |
| PeakeCorpIntegration.SumFirst | src/lib/peakecorp-integration.ts:163 | With non-negative amounts, the sum of the first k amounts is non-negative. |
| PeakeCorpIntegration.ReimbursedAmount | src/lib/peakecorp-integration.ts:162-163 | The amount actually paid, the sum over the succeeded expenses: a reference definition for the reported total. With non-negative amounts it lies between 0 and the sum of all amounts. |
| PeakeCorpIntegration.ExpenseTotalWhenAllSucceed | src/lib/peakecorp-integration.ts:163 | When every expense succeeded, the reported total is what was reimbursed. |
| PeakeCorpIntegration.SumFirstPrefix | src/lib/peakecorp-integration.ts:163 | A sum of the first k amounts depends only on those k. |
| PeakeCorpIntegration.ExpenseTotalCountsByPosition | src/lib/peakecorp-integration.ts:163 | With amounts 10 and 20, where the first fails and the second succeeds, the code reports 10 while 20 was paid. |
| PeakeCorpIntegration.ProcessExpenseReimbursements | src/lib/peakecorp-integration.ts:143-178 | The result is the summary of the expense answers. The wallet sees the reimbursements in order. |
| PeakeCorpIntegration.CalculateEfficiencyMetrics | src/lib/peakecorp-integration.ts:235-264 | The fixed volume, savings and automation triple per timeframe, compliance 94.5 and gain 15.7. The PEAKE earned is the account's balance, and savings are 5% of volume. |
| PeakeCorpIntegration.OptimizeTreasuryOperations | src/lib/peakecorp-integration.ts:324-347 | At most two recommendations, each present exactly when its condition holds. Savings are 2% of the HIVE excess plus 5% of the PEAKE shortfall, and never negative. The low-risk text appears exactly above 1000. |
| PeakeCorpIntegration.TreasuryHiveAdvice | src/lib/peakecorp-integration.ts:325-335 | With the balance the keychain reports, the HIVE advice appears exactly when the HIVE target is negative. |
| HiveApi.Field | src/lib/hive/api.ts:241-298 | The value is present exactly when the operation has the key. |
| HiveApi.Or | src/lib/hive/api.ts:249-252 | JavaScript's `a \|\| b`: the first value when truthy, else the second. |
| HiveApi.ExtractFromAddress | src/lib/hive/api.ts:241-253 | withdraw_vesting reads `account`. The named types read their own key as given. Other types fall back from `from` to `account` to "". |
| HiveApi.ExtractToAddress | src/lib/hive/api.ts:258-268 | A non-empty `to` is returned. Other types give "" when `to` is missing. |
| HiveApi.ExtractAmount | src/lib/hive/api.ts:273-279 | The number before the first space of a truthy amount, else 0. |
| HiveApi.ExtractCurrency | src/lib/hive/api.ts:284-290 | The token after the first space of a truthy amount, else HIVE. |
| HiveApi.ExtractMemo | src/lib/hive/api.ts:295-298 | The memo, or "". |
| HiveApi.AmountRoundTrip | src/lib/hive/api.ts:273-290 | An amount written "n SYM" reads back as n in currency SYM. |
| HiveApi.CalculateResourceCost | src/lib/hive/api.ts:303-318 | transfer 100, transfer_to_vesting 150, comment 500, vote 50, and 10 exactly for any other type. |
| HiveApi.ToTransaction | src/lib/hive/api.ts:114-128 | No contract of its own: the record built from one history entry. GetTransactionHistory states every one of its fields per entry. |
| HiveApi.GetTransactionHistory | src/lib/hive/api.ts:110-139 | One completed transaction per history entry, in order. Each has the entry's id, type, timestamp, block and transaction id, the addresses, amount, currency and memo read out of its operation, the resource cost of its type, and the operation's fields as metadata. There are more entries exactly when the node returned `limit` of them. |
| HiveApi.HistoryIdsDistinct | src/lib/hive/api.ts:114-121 | Distinct history ids give distinct transaction ids. |
| HiveApi.SubmitTransaction | src/lib/hive/api.ts:187-200 | Every submission fails with an empty transaction id. |
| HiveApi.ProcessBatchTransactions | src/lib/hive/api.ts:205-225 | One failed result per transaction, in order. |
| Timeline.Kept | src/components/TimelineExtrapolationEngine.tsx:235-256 | There is no more than one message per rule. |
| Timeline.KeptMembers | src/components/TimelineExtrapolationEngine.tsx:235-256 | A message is listed exactly when some rule with that text holds. |
| Timeline.KeptIff | src/components/TimelineExtrapolationEngine.tsx:235-256 | A rule whose message no other rule shares is listed exactly when its condition holds. |
| Timeline.KeptSnoc | src/components/TimelineExtrapolationEngine.tsx:235-256 | Checking one more rule appends its message exactly when it holds. |
| Timeline.GenerateRiskFactors | src/components/TimelineExtrapolationEngine.tsx:235-245 | The pushes yield the messages of the holding risk rules, in order, at most 5. |
| Timeline.RiskFactorsIff | src/components/TimelineExtrapolationEngine.tsx:235-245 | Each of the five risk factors is listed exactly when its condition holds. |
| Timeline.GenerateRecommendations | src/components/TimelineExtrapolationEngine.tsx:247-256 | The pushes yield the messages of the holding recommendation rules, in order, at most 4. |
| Timeline.RecommendationsIff | src/components/TimelineExtrapolationEngine.tsx:247-256 | Each of the four recommendations is listed exactly when its condition holds. |
| Timeline.GenerateMilestones | src/components/TimelineExtrapolationEngine.tsx:258-274 | Six named milestones, each dependent on the previous, with shared confidence max(60, 100−5·timeline). Each falls at start + duration·share hours. |
| Timeline.MilestonesInOrder | src/components/TimelineExtrapolationEngine.tsx:259-270 | For a non-negative duration, dates never decrease, and deployment falls after the whole duration. |
| Timeline.RelevantHistory | src/components/TimelineExtrapolationEngine.tsx:178-180 | A history row matching both category and complexity, or none exactly when no row matches. |
| Timeline.RelevantHistoryIsFirst | src/components/TimelineExtrapolationEngine.tsx:178-180 | The row found is the first matching one: no earlier row matches. |
| Timeline.StartingDuration | src/components/TimelineExtrapolationEngine.tsx:204-207 | The estimate when no history row matches. Otherwise the average duration of the first matching row. |
| Timeline.BaseMultiplier | src/components/TimelineExtrapolationEngine.tsx:182-186 | The mode factor lies between 0.9 and 1.3. It is below 1 exactly in aggressive mode and 1.3 exactly in conservative mode. |
| Timeline.ComplexityMultiplier | src/components/TimelineExtrapolationEngine.tsx:188-193 | The complexity factor lies between 1 and 3. It is 1 exactly for low and 3 exactly for enterprise complexity. |
| Timeline.ExperienceMultiplier | src/components/TimelineExtrapolationEngine.tsx:195-200 | The team factor lies between 0.8 and 1.4. It is below 1 exactly for a senior team and 1.4 exactly for a junior one. |
| Timeline.ChainMultiplier | src/components/TimelineExtrapolationEngine.tsx:202 | The chain factor is at least 0.8. It is at least 1 exactly when there is a chain, and 1 for a single chain. |
| Timeline.RiskMultiplier | src/components/TimelineExtrapolationEngine.tsx:211 | The risk factor is at least 1 for non-negative risks, and 2 exactly when the three risks add up to 30. |
| Timeline.ScaleMultiplier | src/components/TimelineExtrapolationEngine.tsx:209 | The combined mode, complexity, team and chain factor is positive. |
| Timeline.PredictedHours | src/components/TimelineExtrapolationEngine.tsx:204-213 | For non-negative risks the prediction is non-negative exactly when the starting duration is. |
| Timeline.PredictedHoursScales | src/components/TimelineExtrapolationEngine.tsx:182-213 | With non-negative risks and a non-negative start, the prediction is non-negative. |
| Timeline.PredictedHoursWithoutHistory | src/components/TimelineExtrapolationEngine.tsx:203-206 | With no matching row the prediction starts from the estimate, whatever the history holds. |
| Timeline.ConfidenceLevel | src/components/TimelineExtrapolationEngine.tsx:215 | At least 50, at most 100 for non-negative risks, and exactly 50 when technical plus timeline risk reaches 10. |
| Timeline.PredictDuration | src/components/TimelineExtrapolationEngine.tsx:203-213 | The duration scaled in place ends equal to the predicted hours: the matching history's average, or the estimate, times the mode, scale and risk multipliers. |
| Timeline.GeneratePrediction | src/components/TimelineExtrapolationEngine.tsx:177-233 | Duration and cost are the rounded prediction. Confidence, risks, recommendations and milestones come from their rules; auditors are one per chain and testers a third of the features, rounded up. |
| Timeline.TestersCoverFeatures | src/components/TimelineExtrapolationEngine.tsx:229 | Testers cover the custom features three at a time, with none to spare. |
| RealTimeAnalytics.NewDataPoint | src/components/RealTimeAnalytics.tsx:65-71 | The point copies transactions and price, the volume is market cap/1000, and the efficiency is 95% of the success rate. |
| RealTimeAnalytics.Slide | src/components/RealTimeAnalytics.tsx:73-77 | At most 20 points, the last being the new one. Below 20 the point is appended; otherwise the oldest are dropped. |
| RealTimeAnalytics.ReplayKeepsLatest | src/components/RealTimeAnalytics.tsx:73-77 | After any number of fetches the chart holds the latest twenty points, oldest first. |
| RealTimeAnalytics.AfterFetch | src/components/RealTimeAnalytics.tsx:54-83 | Connected exactly when the fetch succeeded. A failed fetch keeps the chart; a successful one slides the new point in. |
| RealTimeAnalytics.GetStatusColor | src/components/RealTimeAnalytics.tsx:100-101 | Green exactly when the value reaches the threshold. |
| WorkflowTracker.FilteredProcesses | src/components/WorkflowTracker.tsx:115-120 | A process is shown exactly when the filter and the case-folded search both let it through. With a filter other than 'all', every shown process has that status. |
| WorkflowTracker.FilteredIsSubsequence | src/components/WorkflowTracker.tsx:115-120 | The shown list keeps the original order. |
| WorkflowTracker.FilteredOccurrences | src/components/WorkflowTracker.tsx:115-120 | A shown process occurs as often as in the full list, and a hidden one not at all. |
| WorkflowTracker.AllWithEmptySearch | src/components/WorkflowTracker.tsx:116-119 | With 'all' and an empty search every process is shown. |
| ProjectManagement.TotalQuoteValue | src/components/ProjectManagementDashboard.tsx:174-177 | With non-negative costs the quoted value is non-negative. |
| ProjectManagement.TotalBatchSavings | src/components/ProjectManagementDashboard.tsx:183-186 | With non-negative savings the total savings are non-negative. |
| ProjectManagement.TotalsOfAppend | src/components/ProjectManagementDashboard.tsx:174-186 | Both totals add up over a split list. |
| ProjectManagement.ApprovedQuotes | src/components/ProjectManagementDashboard.tsx:178 | Exactly the approved quotes. |
| ProjectManagement.NonDraftQuotes | src/components/ProjectManagementDashboard.tsx:256 | Exactly the quotes that are not drafts. |
| ProjectManagement.ApprovedValue | src/components/ProjectManagementDashboard.tsx:178-182 | With non-negative costs the approved value is non-negative, and it is 0 when no quote is approved. |
| ProjectManagement.ApprovedWithinTotals | src/components/ProjectManagementDashboard.tsx:174-182 | With non-negative costs, approved value lies between 0 and the total value. |
| ProjectManagement.ApprovedNotMoreThanNonDraft | src/components/ProjectManagementDashboard.tsx:178-258 | Approved quotes are no more than non-draft ones. |
| ProjectManagement.WinRate | src/components/ProjectManagementDashboard.tsx:254-258 | NaN exactly when every quote is a draft. |
| ProjectManagement.WinRateIsPercentage | src/components/ProjectManagementDashboard.tsx:254-258 | With a non-draft quote the win rate lies between 0 and 100. |
| BlockchainAnalytics.PeriodsForTimeframe | src/lib/blockchain-analytics.ts:337-346 | 24h gives 24, 30d gives 30, 90d and 1y give 12, and anything else 7. |
| BlockchainAnalytics.PeriodLabel | src/lib/blockchain-analytics.ts:348-367 | "i:00" for 24h, "Week i+1" for 90d and "Period i+1" for unknown timeframes. The date branches use the date label. |
| BlockchainAnalytics.GrowthFactor | src/lib/blockchain-analytics.ts:85 | The growth factor is at least 1, and exactly 1 in the first period. |
| BlockchainAnalytics.Period | src/lib/blockchain-analytics.ts:84-97 | No contract of its own: the entry of period i from its draws. PeriodRanges and HiveVolumeGrows state its ranges. |
| BlockchainAnalytics.PeriodRanges | src/lib/blockchain-analytics.ts:84-96 | Per period, efficiency lies in [85,95), utilisation in [60,85) and cost in [0.001,0.006). |
| BlockchainAnalytics.GrowthFactorRises | src/lib/blockchain-analytics.ts:85 | The growth factor is at least 1 and rises by 0.05 per period. |
| BlockchainAnalytics.HiveVolumeGrows | src/lib/blockchain-analytics.ts:86-90 | The volume is a whole base in [15000,25000) times the period's growth factor. |
| BlockchainAnalytics.GetBlockchainAnalytics | src/lib/blockchain-analytics.ts:74-105 | Exactly one entry per period, entry i built from draws i. |
| BlockchainAnalytics.SumTransactions | src/lib/blockchain-analytics.ts:317 | With non-negative counts the transaction total is non-negative. |
| BlockchainAnalytics.SumVolume | src/lib/blockchain-analytics.ts:318 | With non-negative volumes the volume total is non-negative. |
| BlockchainAnalytics.SumEfficiency | src/lib/blockchain-analytics.ts:319 | No contract of its own: the efficiency sum. EfficiencySumBounds bounds it. |
| BlockchainAnalytics.SumRewards | src/lib/blockchain-analytics.ts:320 | With non-negative rewards the reward total is non-negative. |
| BlockchainAnalytics.ReportSummary | src/lib/blockchain-analytics.ts:316-321 | The average efficiency is NaN exactly for an empty report, and otherwise average·n equals the sum. |
| BlockchainAnalytics.EfficiencySumBounds | src/lib/blockchain-analytics.ts:319 | A sum of values in [lo,hi) lies in [lo·n, hi·n). |
| BlockchainAnalytics.AverageInRange | src/lib/blockchain-analytics.ts:316-321 | A non-empty report whose efficiencies all lie in [lo,hi) has a finite average in [lo,hi). |
| BlockchainAnalytics.ReportAverageInRange | src/lib/blockchain-analytics.ts:316-321 | The report over a generated series averages between 85 and 95. |

## Left out

- Local storage, JSON parsing and serialisation, FileReader import and export download links are outside the model. The stored job list and session are parameters, and saves are recorded in a log.
- The base64 audit hash in the enterprise keychain's `createAuditTrail` is left out, as are the enterprise keychain's `requestHandshake` and `isKeychainAvailable`. They are wallet I/O without logic of their own.
- The 100 ms polling and all `setTimeout` pauses are left out. They are timing; the constructor models the end of initialisation.
- The enterprise keychain's `ensureInitialized` is left out. The constructor runs `initialize` to completion.
- The `isProcessing` flag, promise interleaving and the five-second refresh interval are left out. The model is single-threaded.
- In `api.ts`, these RPC calls are out: `getAccount`, `getAccountBalance` with its reputation formula, `getPeakeCoinBalance`, `calculateEstimatedValue`, `switchEndpoint` and `getBlockchainInfo`. The history the node returns is a parameter.
- In `engine.ts`, these are out: the RPC calls `getTokenBalances` and `getTokenMarketData`, and `getTokenHistory`, `getTokenInfo`, `getAllTokens`, `issuePeakeCoinRewards` and `initializePeakeCoin`. The query results are parameters.
- Mock data generators are out: `initializeEnterpriseSession`, `generateComplianceAudit`, `createEnterpriseAuditTrail`, `calculateCorporateKPIs`, `getRealTimeMetrics`, `generatePredictiveModels` and `generateAdvancedInsights`. They produce random or constant figures.
- `Math.random` draws and `Date.now` ids and times are parameters.
- Non-integer number formatting is a function parameter: `toString` of a fractional number, `toFixed`, `toISOString`, `toLocaleTimeString` and locale dates. Integer rendering is modelled by `Strings.NatToString`.
- The date branches of the analytics `getPeriodLabel` are a parameter.
- `parseFloat` covers an optional sign, digits and a fraction. Exponents, `Infinity` and leading whitespace are not covered.
- Numbers are exact reals with NaN. Floating-point rounding and infinities are not modelled.
- Case mapping is over ASCII letters only.
- The catch branches of the hub's payroll, expense and reward calls are unreachable and not modelled. The enterprise keychain loops already turn every thrown call into a failure answer.
- The catch of `processJob` (its `failed` job) is not modelled. It is reachable only through a storage error in `saveJobs`, or through an imported job whose category is not one of the five declared ones, such as an Object-prototype key that breaks the grouping `reduce`. The model excludes both: saves always succeed, and a category is one of the `Category` values.
- The analytics catch that returns `[]` is unreachable and not modelled.
- The processor's final reward distribution and the `console` logging are left out. The distribution only logs, so it changes no state.
- Object-prototype keys such as `constructor` are not modelled when they are looked up in the source's rate tables. Every other unknown key takes the default.
- The `HiveTransaction` type that `keychain.ts` imports has no `operations` or `method` field. The batch broadcaster's items are modelled as carrying them.
- Engine.BaseRate: the contract states the range of the rates and the default of 1. The individual entries of the rate table are stated only in the function body.
- Engine.CalculatePeakeCoinRewards: the contract relates the fields to the base reward and the multipliers. The contracts of TierMultiplier and BatchMultiplier pin down only the ends of their tables; the enterprise factor 1.5 and the batch factor 1.25 are stated only in the function bodies.
- Timeline.GeneratePrediction: the duration is a real, not a floating-point value, so the rounding chain does not model binary rounding.
