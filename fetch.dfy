/** The bounded-retry download loop of Algo.get_historical_data. The
    market-data call is replaced by an oracle: succeeds(k) is the outcome
    of the k-th API call of the run (k counted from 0). */
module Fetch {

  /** Global ceiling on API calls per run. */
  const MaxApiCalls: nat := 1800
  /** A failure skips the ticker once the failure counter is above this. */
  const MaxFailures: nat := 5

  /** What happens to the failure counter when a ticker is skipped:
      the program keeps counting (KeepCounter); ResetCounter is the
      per-ticker policy its comment describes. */
  datatype SkipPolicy = KeepCounter | ResetCounter

  /** The loop's counters, plus the tickers whose CSV file was written. */
  datatype FetchState = FetchState(
    i: nat,               // index of the current ticker
    apiCalls: nat,        // num_api_calls
    stockFailure: nat,    // stock_failure
    notImported: nat,     // stocks_not_imported
    written: seq<string>) // tickers saved to disk, in order

  const Start := FetchState(0, 0, 0, 0, [])

  /** The loop guard. */
  predicate Continues(tickers: seq<string>, s: FetchState)
  {
    s.i < |tickers| && s.apiCalls < MaxApiCalls
  }

  /** One loop iteration: one API call with outcome ok. */
  function Step(tickers: seq<string>, s: FetchState, ok: bool, policy: SkipPolicy): FetchState
    requires s.i < |tickers|
  {
    if ok then
      FetchState(s.i + 1, s.apiCalls + 1, 0, s.notImported, s.written + [tickers[s.i]])
    else if s.stockFailure > MaxFailures then
      FetchState(s.i + 1, s.apiCalls + 1, if policy == KeepCounter then s.stockFailure + 1 else 0,
                 s.notImported + 1, s.written)
    else
      FetchState(s.i, s.apiCalls + 1, s.stockFailure + 1, s.notImported, s.written)
  }

  /** At most k iterations of the loop from s. */
  function Iterate(tickers: seq<string>, succeeds: nat -> bool, policy: SkipPolicy, s: FetchState, k: nat): FetchState
    decreases k
  {
    if k == 0 || !Continues(tickers, s) then s
    else Iterate(tickers, succeeds, policy, Step(tickers, s, succeeds(s.apiCalls), policy), k - 1)
  }

  /** The loop run to exhaustion from s. */
  function Run(tickers: seq<string>, succeeds: nat -> bool, policy: SkipPolicy, s: FetchState): FetchState
    decreases MaxApiCalls - s.apiCalls
  {
    if !Continues(tickers, s) then s
    else Run(tickers, succeeds, policy, Step(tickers, s, succeeds(s.apiCalls), policy))
  }

  /** Number of successful calls among calls lo .. hi - 1. */
  function Successes(succeeds: nat -> bool, lo: nat, hi: nat): nat
    decreases hi - lo
  {
    if hi <= lo then 0 else Successes(succeeds, lo, hi - 1) + (if succeeds(hi - 1) then 1 else 0)
  }

  /** The bookkeeping the loop keeps: every ticker below i was either
      written or counted as not imported, each written file stems from a
      successful call, and the call budget is respected. */
  ghost predicate Valid(tickers: seq<string>, succeeds: nat -> bool, s: FetchState)
  {
    s.i <= |tickers| &&
    s.apiCalls <= MaxApiCalls &&
    s.notImported <= s.i &&
    |s.written| == s.i - s.notImported &&
    |s.written| == Successes(succeeds, 0, s.apiCalls) &&
    (forall k :: 0 <= k < |s.written| ==> s.written[k] in tickers[..s.i])
  }

  // ---------------------------------------------------------------------
  // Lemmas

  lemma StepValid(tickers: seq<string>, succeeds: nat -> bool, policy: SkipPolicy, s: FetchState)
    requires Valid(tickers, succeeds, s) && Continues(tickers, s)
    ensures var t := Step(tickers, s, succeeds(s.apiCalls), policy);
            Valid(tickers, succeeds, t) && t.apiCalls == s.apiCalls + 1 && s.i <= t.i <= s.i + 1
  {
    var t := Step(tickers, s, succeeds(s.apiCalls), policy);
    assert tickers[..t.i] == tickers[..s.i] + tickers[s.i..t.i];
  }

  /** The loop terminates with the bookkeeping intact, having made at most
      1800 calls, and it stops only when every ticker has been handled or
      the budget is used up. */
  lemma {:induction false} RunEnds(tickers: seq<string>, succeeds: nat -> bool, policy: SkipPolicy, s: FetchState)
    requires Valid(tickers, succeeds, s)
    ensures var r := Run(tickers, succeeds, policy, s);
            Valid(tickers, succeeds, r) &&
            s.apiCalls <= r.apiCalls <= MaxApiCalls && s.i <= r.i <= |tickers| &&
            (r.i == |tickers| || r.apiCalls == MaxApiCalls)
    decreases MaxApiCalls - s.apiCalls
  {
    if Continues(tickers, s) {
      StepValid(tickers, succeeds, policy, s);
      RunEnds(tickers, succeeds, policy, Step(tickers, s, succeeds(s.apiCalls), policy));
    }
  }

  /** The reported count i - stocks_not_imported is never negative and is
      the number of files written, which is the number of successful calls. */
  lemma ReportedCountIsSuccesses(tickers: seq<string>, succeeds: nat -> bool)
    ensures var r := Run(tickers, succeeds, KeepCounter, Start);
            r.notImported <= r.i &&
            r.i - r.notImported == |r.written| == Successes(succeeds, 0, r.apiCalls)
  {
    RunEnds(tickers, succeeds, KeepCounter, Start);
  }

  /** Failures needed before the current ticker is skipped, given the counter f. */
  function FailuresToSkip(f: nat): (n: nat)
    ensures 1 <= n <= MaxFailures + 2
    ensures n == 1 <==> f > MaxFailures
  {
    if f > MaxFailures then 1 else MaxFailures + 2 - f
  }

  /** The skip rule. With failure counter f on the current ticker and only
      failing calls ahead, the ticker is kept for FailuresToSkip(f) - 1
      calls (the counter rising by one each time) and skipped on the next,
      counted as not imported; nothing is written meanwhile. */
  lemma {:induction false} SkipRule(tickers: seq<string>, succeeds: nat -> bool, policy: SkipPolicy, s: FetchState, k: nat)
    requires Continues(tickers, s)
    requires s.apiCalls + FailuresToSkip(s.stockFailure) <= MaxApiCalls
    requires forall j :: s.apiCalls <= j < s.apiCalls + FailuresToSkip(s.stockFailure) ==> !succeeds(j)
    requires k <= FailuresToSkip(s.stockFailure)
    decreases k
    ensures var t := Iterate(tickers, succeeds, policy, s, k);
            t.apiCalls == s.apiCalls + k && t.written == s.written &&
            (k < FailuresToSkip(s.stockFailure) ==>
               t.i == s.i && t.notImported == s.notImported && t.stockFailure == s.stockFailure + k) &&
            (k == FailuresToSkip(s.stockFailure) ==>
               t.i == s.i + 1 && t.notImported == s.notImported + 1 &&
               t.stockFailure == if policy == KeepCounter then s.stockFailure + k else 0)
  {
    if k > 0 {
      var t := Step(tickers, s, succeeds(s.apiCalls), policy);
      if s.stockFailure <= MaxFailures {
        assert t.i == s.i && t.stockFailure == s.stockFailure + 1;
        assert FailuresToSkip(t.stockFailure) == FailuresToSkip(s.stockFailure) - 1;
        SkipRule(tickers, succeeds, policy, t, k - 1);
      }
    }
  }

  /** A success resets the counter, writes the ticker's file and moves on. */
  lemma SuccessResets(tickers: seq<string>, succeeds: nat -> bool, policy: SkipPolicy, s: FetchState)
    requires Continues(tickers, s) && succeeds(s.apiCalls)
    ensures var t := Iterate(tickers, succeeds, policy, s, 1);
            t.i == s.i + 1 && t.stockFailure == 0 && t.notImported == s.notImported &&
            t.written == s.written + [tickers[s.i]]
  {
  }

  /** A ticker met with a fresh counter is skipped on its 7th consecutive failure. */
  lemma FreshTickerSkippedOnSeventhFailure(tickers: seq<string>, succeeds: nat -> bool, policy: SkipPolicy, s: FetchState)
    requires Continues(tickers, s) && s.stockFailure == 0 && s.apiCalls + 7 <= MaxApiCalls
    requires forall j :: s.apiCalls <= j < s.apiCalls + 7 ==> !succeeds(j)
    ensures Iterate(tickers, succeeds, policy, s, 6).i == s.i
    ensures var t := Iterate(tickers, succeeds, policy, s, 7);
            t.i == s.i + 1 && t.notImported == s.notImported + 1 && t.apiCalls == s.apiCalls + 7
  {
    SkipRule(tickers, succeeds, policy, s, 6);
    SkipRule(tickers, succeeds, policy, s, 7);
  }

  lemma {:induction false} IterateAdd(tickers: seq<string>, succeeds: nat -> bool, policy: SkipPolicy, s: FetchState, a: nat, b: nat)
    ensures Iterate(tickers, succeeds, policy, s, a + b)
         == Iterate(tickers, succeeds, policy, Iterate(tickers, succeeds, policy, s, a), b)
    decreases a
  {
    if a > 0 && Continues(tickers, s) {
      IterateAdd(tickers, succeeds, policy, Step(tickers, s, succeeds(s.apiCalls), policy), a - 1, b);
    }
  }

  /** As written, the counter is not reset when a ticker is skipped: with two
      tickers and every call failing, the first ticker is tried 7 times but
      the second only once, and the run ends after 8 calls with nothing written. */
  lemma KeptCounterSkipsNextTickerAtOnce(a: string, b: string)
    ensures var fails := (_: nat) => false;
            var s7 := Iterate([a, b], fails, KeepCounter, Start, 7);
            s7.i == 1 && s7.stockFailure == 7 &&
            Run([a, b], fails, KeepCounter, Start) == FetchState(2, 8, 8, 2, [])
  {
    var tickers, fails := [a, b], (_: nat) => false;
    SkipRule(tickers, fails, KeepCounter, Start, 7);
    var s7 := Iterate(tickers, fails, KeepCounter, Start, 7);
    var s8 := Step(tickers, s7, false, KeepCounter);
    assert s8 == FetchState(2, 8, 8, 2, []);
    RunFromIterate(tickers, fails, KeepCounter, Start, 7);
  }

  /** Under the corrected per-ticker policy, any ticker met with a fresh
      counter is skipped on its 7th consecutive failure AND hands the next
      ticker a fresh counter, so every ticker gets the same 7 attempts. */
  lemma ResetCounterSkipsEachTickerAfterSeven(tickers: seq<string>, succeeds: nat -> bool, s: FetchState)
    requires Continues(tickers, s) && s.stockFailure == 0 && s.apiCalls + 7 <= MaxApiCalls
    requires forall j :: s.apiCalls <= j < s.apiCalls + 7 ==> !succeeds(j)
    ensures Iterate(tickers, succeeds, ResetCounter, s, 6).i == s.i
    ensures var t := Iterate(tickers, succeeds, ResetCounter, s, 7);
            t.i == s.i + 1 && t.stockFailure == 0 && t.notImported == s.notImported + 1
  {
    SkipRule(tickers, succeeds, ResetCounter, s, 6);
    SkipRule(tickers, succeeds, ResetCounter, s, 7);
  }

  /** Under the corrected policy, two always-failing tickers are each tried
      7 times: the run ends after 14 calls with nothing written. */
  lemma ResetCounterTriesBothTickersSevenTimes(a: string, b: string)
    ensures Run([a, b], (_: nat) => false, ResetCounter, Start) == FetchState(2, 14, 0, 2, [])
  {
    var ts, fails := [a, b], (_: nat) => false;
    ResetCounterSkipsEachTickerAfterSeven(ts, fails, Start);
    var s7 := Iterate(ts, fails, ResetCounter, Start, 7);
    ResetCounterSkipsEachTickerAfterSeven(ts, fails, s7);
    IterateAdd(ts, fails, ResetCounter, Start, 7, 7);
    RunFromIterate(ts, fails, ResetCounter, Start, 14);
  }

  lemma {:induction false} RunFromIterate(tickers: seq<string>, succeeds: nat -> bool, policy: SkipPolicy, s: FetchState, k: nat)
    ensures Run(tickers, succeeds, policy, s) == Run(tickers, succeeds, policy, Iterate(tickers, succeeds, policy, s, k))
    decreases k
  {
    if k > 0 && Continues(tickers, s) {
      RunFromIterate(tickers, succeeds, policy, Step(tickers, s, succeeds(s.apiCalls), policy), k - 1);
    }
  }

  // ---------------------------------------------------------------------
  // The loop

  /** Downloads every ticker in turn, retrying failed calls, until all are
      handled or 1800 calls have been made. Returns the tickers whose file
      was written and the count reported as successfully imported. */
  method GetHistoricalData(tickers: seq<string>, succeeds: nat -> bool) returns (written: seq<string>, reported: int)
    ensures var r := Run(tickers, succeeds, KeepCounter, Start);
            written == r.written && reported == r.i - r.notImported
    ensures reported == |written| == Successes(succeeds, 0, Run(tickers, succeeds, KeepCounter, Start).apiCalls)
    ensures forall k :: 0 <= k < |written| ==> written[k] in tickers
  {
    var numApiCalls := 0;
    var stockFailure := 0;
    var stocksNotImported := 0;
    var i := 0;
    written := [];
    while i < |tickers| && numApiCalls < MaxApiCalls
      invariant Valid(tickers, succeeds, FetchState(i, numApiCalls, stockFailure, stocksNotImported, written))
      invariant Run(tickers, succeeds, KeepCounter, FetchState(i, numApiCalls, stockFailure, stocksNotImported, written))
             == Run(tickers, succeeds, KeepCounter, Start)
      decreases MaxApiCalls - numApiCalls
    {
      StepValid(tickers, succeeds, KeepCounter, FetchState(i, numApiCalls, stockFailure, stocksNotImported, written));
      if succeeds(numApiCalls) {
        written := written + [tickers[i]];
        numApiCalls := numApiCalls + 1;
        stockFailure := 0;
        i := i + 1;
      } else {
        if stockFailure > MaxFailures {
          i := i + 1;
          stocksNotImported := stocksNotImported + 1;
        }
        numApiCalls := numApiCalls + 1;
        stockFailure := stockFailure + 1;
      }
    }
    reported := i - stocksNotImported;
    forall k | 0 <= k < |written| ensures written[k] in tickers {
      assert written[k] in tickers[..i];
    }
  }
}
