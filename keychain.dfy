/** The simple keychain service: a connected flag and a logged-in account, wallet requests that
    turn the wallet's answer into `{success, result?, error?}`, and a batch broadcaster that
    sorts the outcomes into results and errors. */
module Keychain {
  import opened Wrappers
  import opened Strings
  import opened KeychainExtension

  const NotInstalled := "HiveKeychain not installed"
  const TreasuryAccount := "peakecorp-treasury"

  /** `{ success, result?, error? }` of a broadcast or a transfer. */
  datatype Answer = Answer(success: bool, result: Option<Opaque>, error: Option<string>)

  /** `{ success, username?, error? }` of a login. */
  datatype LoginAnswer = LoginAnswer(success: bool, username: Option<string>, error: Option<string>)

  /** One transaction of a batch: the operations and the signing key the loop reads from it;
      `keyType` is absent when the object has no `method`. */
  datatype BatchItem = BatchItem(operations: seq<Operation>, keyType: Option<string>)

  datatype BatchOutcome = BatchOutcome(success: bool, results: seq<Option<Opaque>>, errors: seq<string>)

  /** The answer built from the wallet's callback: its result on success, otherwise its message
      or `fallback`. A rejected call stays rejected. */
  function Relay(o: Settled<Response>, fallback: string): (r: Settled<Answer>)
    ensures o.Rejected? <==> r.Rejected?
    ensures o.Rejected? ==> r.reason == o.reason
    ensures o.Resolved? ==> r.value.success == o.value.success
    ensures o.Resolved? && o.value.success ==> r.value == Answer(true, o.value.result, None)
    ensures o.Resolved? && !o.value.success ==> r.value == Answer(false, None, Some(OrElse(o.value.message, fallback)))
  {
    match o
    case Rejected(reason) => Rejected(reason)
    case Resolved(resp) =>
      if resp.success then Resolved(Answer(true, resp.result, None))
      else Resolved(Answer(false, None, Some(OrElse(resp.message, fallback))))
  }

  /** The transfer of `createPeakeCoinReward`: from the treasury, in PEAKE, with the workflow and
      task in the memo; `fixed3` renders the amount with three decimals. */
  function RewardTransfer(username: string, rewardAmount: real, workflowId: string, taskDescription: string,
                          fixed3: real -> string): (r: Request)
    ensures r.Transfer? && r.username == TreasuryAccount && r.to == username && r.currency == "PEAKE"
    ensures r.amount == fixed3(rewardAmount) + " PEAKE"
    ensures r.memo == "PeakeCorp Reward - Workflow: " + workflowId + " - Task: " + taskDescription
  {
    Transfer(TreasuryAccount, username, fixed3(rewardAmount) + " PEAKE",
      "PeakeCorp Reward - Workflow: " + workflowId + " - Task: " + taskDescription, "PEAKE")
  }

  /** The message of a failed or rejected batch item. */
  function ErrorOf(o: Settled<Answer>): string {
    match o
    case Resolved(a) => OrElse(a.error, "Unknown error")
    case Rejected(reason) => reason.GetOr("Unknown error")
  }

  predicate Succeeded(o: Settled<Answer>) {
    o.Resolved? && o.value.success
  }

  /** The outcome of `processBatchTransactions` for the answers of its items, in order: the
      result of every success, the error of every failure. */
  function Summary(answers: seq<Settled<Answer>>): (r: BatchOutcome)
    ensures r.success <==> r.errors == []
  {
    if answers == [] then BatchOutcome(true, [], [])
    else
      var s := Summary(answers[..|answers| - 1]);
      var last := answers[|answers| - 1];
      if Succeeded(last) then BatchOutcome(s.errors == [], s.results + [last.value.result], s.errors)
      else BatchOutcome(false, s.results, s.errors + [ErrorOf(last)])
  }

  /** Summarising one more answer appends its result or its error. */
  lemma SummarySnoc(answers: seq<Settled<Answer>>, i: nat)
    requires i < |answers|
    ensures var s := Summary(answers[..i]);
      Summary(answers[..i + 1]) ==
        if Succeeded(answers[i]) then BatchOutcome(s.errors == [], s.results + [answers[i].value.result], s.errors)
        else BatchOutcome(false, s.results, s.errors + [ErrorOf(answers[i])])
  {
    assert answers[..i + 1][..i] == answers[..i];
  }

  /** Every item lands in exactly one of the two lists, and the batch succeeds exactly when every
      item did. */
  lemma {:induction false} SummaryPartitions(answers: seq<Settled<Answer>>)
    ensures |Summary(answers).results| + |Summary(answers).errors| == |answers|
    ensures Summary(answers).success <==> forall i :: 0 <= i < |answers| ==> Succeeded(answers[i])
  {
    if answers != [] {
      var p := answers[..|answers| - 1];
      SummaryPartitions(p);
      assert forall i :: 0 <= i < |p| ==> p[i] == answers[i];
    }
  }

  /** The results are one per succeeded item. */
  lemma {:induction false} SummaryCountsSuccesses(answers: seq<Settled<Answer>>)
    ensures |Summary(answers).results| == |set i | 0 <= i < |answers| && Succeeded(answers[i])|
  {
    if answers != [] {
      var p := answers[..|answers| - 1];
      SummaryCountsSuccesses(p);
      var n := |answers| - 1;
      var sp := set i | 0 <= i < n && Succeeded(p[i]);
      var sa := set i | 0 <= i < |answers| && Succeeded(answers[i]);
      assert forall i :: 0 <= i < n ==> p[i] == answers[i];
      if Succeeded(answers[n]) {
        assert sa == sp + {n};
      } else {
        assert sa == sp;
      }
    }
  }

  /** The succeeded answers, in order. */
  function SucceededAnswers(answers: seq<Settled<Answer>>): (r: seq<Settled<Answer>>)
    ensures forall x :: x in r <==> x in answers && Succeeded(x)
  {
    if answers == [] then []
    else
      var p, last := answers[..|answers| - 1], answers[|answers| - 1];
      assert forall x :: x in answers <==> x in p || x == last;
      SucceededAnswers(p) + (if Succeeded(last) then [last] else [])
  }

  /** The answers that did not succeed, in order. */
  function FailedAnswers(answers: seq<Settled<Answer>>): (r: seq<Settled<Answer>>)
    ensures forall x :: x in r <==> x in answers && !Succeeded(x)
  {
    if answers == [] then []
    else
      var p, last := answers[..|answers| - 1], answers[|answers| - 1];
      assert forall x :: x in answers <==> x in p || x == last;
      FailedAnswers(p) + (if Succeeded(last) then [] else [last])
  }

  /** The results are those of the succeeded answers, in order. */
  lemma {:induction false} SummaryResults(answers: seq<Settled<Answer>>)
    ensures var s, ok := Summary(answers), SucceededAnswers(answers);
      |s.results| == |ok| && forall i :: 0 <= i < |ok| ==> Succeeded(ok[i]) && s.results[i] == ok[i].value.result
  {
    if answers != [] {
      var p, last := answers[..|answers| - 1], answers[|answers| - 1];
      SummaryResults(p);
      if Succeeded(last) {
        assert SucceededAnswers(answers) == SucceededAnswers(p) + [last];
        assert Summary(answers).results == Summary(p).results + [last.value.result];
      } else {
        assert SucceededAnswers(answers) == SucceededAnswers(p);
        assert Summary(answers).results == Summary(p).results;
      }
    }
  }

  /** The errors are those of the answers that did not succeed, in order. */
  lemma {:induction false} SummaryErrors(answers: seq<Settled<Answer>>)
    ensures var s, ko := Summary(answers), FailedAnswers(answers);
      |s.errors| == |ko| && forall i :: 0 <= i < |ko| ==> s.errors[i] == ErrorOf(ko[i])
  {
    if answers != [] {
      var p, last := answers[..|answers| - 1], answers[|answers| - 1];
      SummaryErrors(p);
      if Succeeded(last) {
        assert FailedAnswers(answers) == FailedAnswers(p);
        assert Summary(answers).errors == Summary(p).errors;
      } else {
        assert FailedAnswers(answers) == FailedAnswers(p) + [last];
        assert Summary(answers).errors == Summary(p).errors + [ErrorOf(last)];
      }
    }
  }

  /** The results are those of the succeeded answers, and the errors those of the others, each
      in the order of the items. */
  lemma SummaryContents(answers: seq<Settled<Answer>>)
    ensures var s, ok, ko := Summary(answers), SucceededAnswers(answers), FailedAnswers(answers);
      |s.results| == |ok| && |s.errors| == |ko|
      && (forall i :: 0 <= i < |ok| ==> Succeeded(ok[i]) && s.results[i] == ok[i].value.result)
      && (forall i :: 0 <= i < |ko| ==> s.errors[i] == ErrorOf(ko[i]))
  {
    SummaryResults(answers);
    SummaryErrors(answers);
  }

  function BroadcastRequest(username: string, item: BatchItem): Request {
    Broadcast(username, item.operations, item.keyType.GetOr("active"))
  }

  function BroadcastRequests(username: string, items: seq<BatchItem>): (r: seq<Request>)
    ensures |r| == |items| && forall i :: 0 <= i < |items| ==> r[i] == BroadcastRequest(username, items[i])
  {
    seq(|items|, i requires 0 <= i < |items| => BroadcastRequest(username, items[i]))
  }

  class Service {
    const extension: Extension
    var isConnected: bool
    var connectedAccount: Option<string>

    constructor (extension: Extension)
      ensures this.extension == extension && !isConnected && connectedAccount.None?
    {
      this.extension := extension;
      isConnected := false;
      connectedAccount := None;
    }

    predicate IsKeychainInstalled() {
      extension.installed
    }

    /** What a request answers: not installed, or the wallet's answer relayed. */
    function Outcome(req: Request, fallback: string): Settled<Answer> {
      if extension.installed then Relay(extension.respond(req), fallback) else Resolved(Answer(false, None, Some(NotInstalled)))
    }

    function Sent(reqs: seq<Request>): seq<Request> {
      if extension.installed then reqs else []
    }

    /** Sending one more request appends it to what reached the wallet, if anything did. */
    lemma SentStep(reqs: seq<Request>, i: nat)
      requires i < |reqs|
      ensures Sent(reqs[..i + 1]) == Sent(reqs[..i]) + Sent([reqs[i]])
    {
      assert reqs[..i + 1] == reqs[..i] + [reqs[i]];
    }

    predicate IsUserConnected()
      reads this
    {
      isConnected && connectedAccount.Some?
    }

    function GetConnectedAccount(): Option<string>
      reads this
    {
      connectedAccount
    }

    /** `initialize`: connected, and `true`, exactly when the extension is installed; nothing
        changes otherwise. */
    method Initialize() returns (ok: bool)
      modifies this
      ensures ok == extension.installed
      ensures isConnected == (old(isConnected) || extension.installed)
      ensures connectedAccount == old(connectedAccount)
    {
      if !IsKeychainInstalled() {
        return false;
      }
      isConnected := true;
      return true;
    }

    /** `requestLogin`; `isoNow` is the current time in ISO format. The account is recorded only
        by a successful signature. */
    method RequestLogin(username: string, isoNow: string) returns (o: Settled<LoginAnswer>)
      modifies this, extension
      ensures isConnected == old(isConnected)
      ensures !extension.installed ==>
        o == Resolved(LoginAnswer(false, None, Some(NotInstalled)))
        && extension.received == old(extension.received) && connectedAccount == old(connectedAccount)
      ensures extension.installed ==>
        var answer := extension.respond(SignBuffer(username, "Login to PeakeCorp at " + isoNow, "Posting"));
        extension.received == old(extension.received) + [SignBuffer(username, "Login to PeakeCorp at " + isoNow, "Posting")]
        && (answer.Rejected? ==> o == Rejected(answer.reason) && connectedAccount == old(connectedAccount))
        && (answer.Resolved? && answer.value.success ==>
              o == Resolved(LoginAnswer(true, Some(username), None)) && connectedAccount == Some(username))
        && (answer.Resolved? && !answer.value.success ==>
              o == Resolved(LoginAnswer(false, None, Some(OrElse(answer.value.message, "Login failed"))))
              && connectedAccount == old(connectedAccount))
    {
      if !IsKeychainInstalled() {
        return Resolved(LoginAnswer(false, None, Some(NotInstalled)));
      }
      var answer := extension.Call(SignBuffer(username, "Login to PeakeCorp at " + isoNow, "Posting"));
      match answer {
        case Rejected(reason) =>
          o := Rejected(reason);
        case Resolved(resp) =>
          if resp.success {
            connectedAccount := Some(username);
            o := Resolved(LoginAnswer(true, Some(username), None));
          } else {
            o := Resolved(LoginAnswer(false, None, Some(OrElse(resp.message, "Login failed"))));
          }
      }
    }

    /** `broadcastTransaction`; `keyType` defaults to "active" at the call sites that omit it. */
    method BroadcastTransaction(username: string, operations: seq<Operation>, keyType: string) returns (o: Settled<Answer>)
      modifies extension
      ensures o == Outcome(Broadcast(username, operations, keyType), "Transaction failed")
      ensures extension.received == old(extension.received) + Sent([Broadcast(username, operations, keyType)])
    {
      if !IsKeychainInstalled() {
        return Resolved(Answer(false, None, Some(NotInstalled)));
      }
      var answer := extension.Call(Broadcast(username, operations, keyType));
      o := Relay(answer, "Transaction failed");
    }

    method Transfer(from: string, to: string, amount: string, memo: string, currency: string := "HIVE") returns (o: Settled<Answer>)
      modifies extension
      ensures o == Outcome(Request.Transfer(from, to, amount, memo, currency), "Transfer failed")
      ensures extension.received == old(extension.received) + Sent([Request.Transfer(from, to, amount, memo, currency)])
    {
      if !IsKeychainInstalled() {
        return Resolved(Answer(false, None, Some(NotInstalled)));
      }
      var answer := extension.Call(Request.Transfer(from, to, amount, memo, currency));
      o := Relay(answer, "Transfer failed");
    }

    method Disconnect()
      modifies this
      ensures connectedAccount.None? && !isConnected && !IsUserConnected()
    {
      connectedAccount := None;
      isConnected := false;
    }

    method CreatePeakeCoinReward(username: string, rewardAmount: real, workflowId: string, taskDescription: string,
                                 fixed3: real -> string) returns (o: Settled<Answer>)
      modifies extension
      ensures o == Outcome(RewardTransfer(username, rewardAmount, workflowId, taskDescription, fixed3), "Transfer failed")
      ensures extension.received == old(extension.received) + Sent([RewardTransfer(username, rewardAmount, workflowId, taskDescription, fixed3)])
    {
      var r := RewardTransfer(username, rewardAmount, workflowId, taskDescription, fixed3);
      o := Transfer(r.username, r.to, r.amount, r.memo, r.currency);
    }

    /** The answers the items of a batch get, in order. */
    function Answers(username: string, items: seq<BatchItem>): (r: seq<Settled<Answer>>)
      ensures |r| == |items|
      ensures forall i :: 0 <= i < |items| ==> r[i] == Outcome(BroadcastRequest(username, items[i]), "Transaction failed")
    {
      seq(|items|, i requires 0 <= i < |items| => Outcome(BroadcastRequest(username, items[i]), "Transaction failed"))
    }

    /** `processBatchTransactions`: broadcasts the items one after the other and sorts the
        outcomes; a rejected broadcast is an error and the loop carries on. */
    method ProcessBatchTransactions(username: string, items: seq<BatchItem>) returns (out: BatchOutcome)
      modifies extension
      ensures out == Summary(Answers(username, items))
      ensures |out.results| + |out.errors| == |items|
      ensures out.success <==> forall i :: 0 <= i < |items| ==> Succeeded(Answers(username, items)[i])
      ensures extension.received == old(extension.received) + Sent(BroadcastRequests(username, items))
    {
      ghost var answers := Answers(username, items);
      ghost var requests := BroadcastRequests(username, items);
      var results: seq<Option<Opaque>> := [];
      var errors: seq<string> := [];
      var i := 0;
      while i < |items|
        invariant 0 <= i <= |items|
        invariant Summary(answers[..i]) == BatchOutcome(errors == [], results, errors)
        invariant extension.received == old(extension.received) + Sent(requests[..i])
      {
        var item := items[i];
        var result := BroadcastTransaction(username, item.operations, item.keyType.GetOr("active"));
        SummarySnoc(answers, i);
        assert answers[i] == result;
        if Succeeded(result) {
          results := results + [result.value.result];
        } else {
          errors := errors + [ErrorOf(result)];
        }
        assert requests[i] == BroadcastRequest(username, item);
        SentStep(requests, i);
        i := i + 1;
      }
      assert answers[..i] == answers;
      assert requests[..i] == requests;
      out := BatchOutcome(errors == [], results, errors);
      SummaryPartitions(answers);
    }
  }
}
