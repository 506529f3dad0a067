/** The headline figures of the project-management dashboard: quoted value, approved value,
    batch savings and win rate over the list of client quotes. */
module ProjectManagement {
  import opened Numbers

  datatype QuoteStatus = Draft | Sent | Approved | Declined

  datatype ProjectQuote = ProjectQuote(id: string, clientName: string, projectName: string,
                                       estimatedCost: real, batchSavings: real, status: QuoteStatus)

  /** Σ estimatedCost. */
  function TotalQuoteValue(quotes: seq<ProjectQuote>): (r: real)
    ensures (forall i :: 0 <= i < |quotes| ==> quotes[i].estimatedCost >= 0.0) ==> r >= 0.0
  {
    if quotes == [] then 0.0 else TotalQuoteValue(quotes[..|quotes| - 1]) + quotes[|quotes| - 1].estimatedCost
  }

  /** Σ batchSavings. */
  function TotalBatchSavings(quotes: seq<ProjectQuote>): (r: real)
    ensures (forall i :: 0 <= i < |quotes| ==> quotes[i].batchSavings >= 0.0) ==> r >= 0.0
  {
    if quotes == [] then 0.0 else TotalBatchSavings(quotes[..|quotes| - 1]) + quotes[|quotes| - 1].batchSavings
  }

  /** Both totals add up over a list split in two, so each quote counts exactly once. */
  lemma {:induction false} TotalsOfAppend(a: seq<ProjectQuote>, b: seq<ProjectQuote>)
    ensures TotalQuoteValue(a + b) == TotalQuoteValue(a) + TotalQuoteValue(b)
    ensures TotalBatchSavings(a + b) == TotalBatchSavings(a) + TotalBatchSavings(b)
  {
    if b != [] {
      assert (a + b)[..|a + b| - 1] == a + b[..|b| - 1];
      TotalsOfAppend(a, b[..|b| - 1]);
    } else {
      assert a + b == a;
    }
  }

  /** `quotes.filter(q => q.status === "approved")`. */
  function ApprovedQuotes(quotes: seq<ProjectQuote>): (r: seq<ProjectQuote>)
    ensures |r| <= |quotes|
    ensures forall q :: q in r <==> q in quotes && q.status == Approved
  {
    if quotes == [] then []
    else
      var last := quotes[|quotes| - 1];
      assert forall q :: q in quotes <==> q in quotes[..|quotes| - 1] || q == last;
      ApprovedQuotes(quotes[..|quotes| - 1]) + (if last.status == Approved then [last] else [])
  }

  /** `quotes.filter(q => q.status !== "draft")`. */
  function NonDraftQuotes(quotes: seq<ProjectQuote>): (r: seq<ProjectQuote>)
    ensures |r| <= |quotes|
    ensures forall q :: q in r <==> q in quotes && q.status != Draft
  {
    if quotes == [] then []
    else
      var last := quotes[|quotes| - 1];
      assert forall q :: q in quotes <==> q in quotes[..|quotes| - 1] || q == last;
      NonDraftQuotes(quotes[..|quotes| - 1]) + (if last.status != Draft then [last] else [])
  }

  /** `approvedValue`: Σ estimatedCost over the approved quotes. */
  function ApprovedValue(quotes: seq<ProjectQuote>): (r: real)
    ensures (forall i :: 0 <= i < |quotes| ==> quotes[i].estimatedCost >= 0.0) ==> r >= 0.0
    ensures (forall i :: 0 <= i < |quotes| ==> quotes[i].status != Approved) ==> r == 0.0
  {
    var approved := ApprovedQuotes(quotes);
    assert (forall i :: 0 <= i < |quotes| ==> quotes[i].estimatedCost >= 0.0) ==>
      forall i :: 0 <= i < |approved| ==> approved[i].estimatedCost >= 0.0 by {
      forall i | 0 <= i < |approved| ensures approved[i] in quotes {
        assert approved[i] in approved;
      }
    }
    assert (forall i :: 0 <= i < |quotes| ==> quotes[i].status != Approved) ==> approved == [] by {
      if approved != [] {
        assert approved[0] in approved;
      }
    }
    TotalQuoteValue(approved)
  }

  /** With non-negative costs the approved value never exceeds the quoted value. */
  lemma {:induction false} ApprovedWithinTotals(quotes: seq<ProjectQuote>)
    requires forall i :: 0 <= i < |quotes| ==> quotes[i].estimatedCost >= 0.0
    ensures 0.0 <= ApprovedValue(quotes) <= TotalQuoteValue(quotes)
  {
    if quotes != [] {
      var init := quotes[..|quotes| - 1];
      ApprovedWithinTotals(init);
      var last := quotes[|quotes| - 1];
      if last.status == Approved {
        assert ApprovedQuotes(quotes)[..|ApprovedQuotes(quotes)| - 1] == ApprovedQuotes(init);
      } else {
        assert ApprovedQuotes(quotes) == ApprovedQuotes(init);
      }
    }
  }

  /** The win rate `Math.round(approved / nonDraft * 100)`; 0/0 is NaN when every quote is a draft. */
  function WinRate(quotes: seq<ProjectQuote>): (r: Num)
    ensures r.NaN? <==> |NonDraftQuotes(quotes)| == 0
  {
    var nonDraft := |NonDraftQuotes(quotes)|;
    if nonDraft == 0 then NaN
    else Finite(Round(|ApprovedQuotes(quotes)| as real / nonDraft as real * 100.0) as real)
  }

  /** With at least one sent, approved or declined quote the win rate is a percentage. */
  lemma WinRateIsPercentage(quotes: seq<ProjectQuote>)
    requires |NonDraftQuotes(quotes)| > 0
    ensures 0.0 <= WinRate(quotes).value <= 100.0
  {
    ApprovedNotMoreThanNonDraft(quotes);
    Percentage(|ApprovedQuotes(quotes)|, |NonDraftQuotes(quotes)|);
  }

  lemma Percentage(a: nat, n: nat)
    requires a <= n && n > 0
    ensures 0.0 <= Round(a as real / n as real * 100.0) as real <= 100.0
  {
    var q := a as real / n as real;
    assert q * n as real == a as real;
    assert 0.0 <= q <= 1.0;
  }

  /** Approved quotes are among the non-draft ones. */
  lemma {:induction false} ApprovedNotMoreThanNonDraft(quotes: seq<ProjectQuote>)
    ensures |ApprovedQuotes(quotes)| <= |NonDraftQuotes(quotes)|
  {
    if quotes != [] {
      ApprovedNotMoreThanNonDraft(quotes[..|quotes| - 1]);
    }
  }
}
