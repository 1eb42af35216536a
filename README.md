# Stock data preparation: fetch loop and outcome labels

This project models the two pieces of logic of `algo.py` (class `Algo`) that the
script computes itself:

- **The bounded-retry download loop** of `get_historical_data` (module `Fetch`,
  `fetch.dfy`). The loop walks the ticker list with four counters: the ticker
  index `i`, `num_api_calls`, `stock_failure` and `stocks_not_imported`. It stops
  when every ticker is handled or 1800 calls have been made. The market-data call
  is replaced by an oracle `succeeds: nat -> bool`, where `succeeds(k)` is the
  outcome of the k-th API call of the run. A failed call is the provider's
  `ValueError`; a successful call writes the ticker's CSV file. The method
  `GetHistoricalData` keeps the source's local counters and its `while` loop. It
  is proved equal to `Run`, a function that iterates one loop step (`Step`) over a
  `FetchState` value. The properties are proved as lemmas about `Run`.
- **The forward-window outcome labels** of `get_technical_indicators` (module
  `Labels`, `labels.dfy`). The first 100 rows of each price file are dropped.
  Three 0/1 label columns are then computed over the close prices that remain:
  - the 5-day label compares the mean of the five *following* closes with the
    current close;
  - the 30- and 60-day labels compare the mean of a window that *starts at* the
    current row with the current close;
  - each label is forced to 0 in the last h rows.

  The `while` loops (`x`; `y`/`y2`; `z`/`z2`) are the methods
  `FiveDayObservation` and `WindowObservation`. They are proved against the
  specification functions `FiveDayOutcome` and `WindowOutcome`. `LabelBars` does
  one file and `GetTechnicalIndicators` loops over all files.

Prices are exact `real`s, and labels are the integers 0 and 1 that the source
appends.

Two consequences of the code's test order:

- The comment at algo.py:80 says a ticker is moved on from when it fails more
  than 5 times. Because `stock_failure > 5` is tested before the increment at
  algo.py:84, a ticker met with a fresh counter is skipped on its 7th
  consecutive failure (`Fetch.FreshTickerSkippedOnSeventhFailure`).
- The 30- and 60-day labels are forced to 0 for `y >= len - h` (algo.py:119 and
  algo.py:134). That includes `y = len - h`, where the window `close[y..y+h-1]`
  would still fit, so the window loops never read past index `len - 2`.

## Model

| member | source | states |
|---|---|---|
| `Labels.Trim` | algo.py:101 | dropping the warm-up leaves max(0, L − 100) rows, row k being input row 100 + k |
| `Labels.ForwardOutcome` | algo.py:108-115 | a label over the h closes after row x is 0 or 1, and is 1 only if the window fits and its sum exceeds h times the current close |
| `Labels.FiveDayOutcome` | algo.py:107-116 | the 5-day label is 0 or 1 and is forced to 0 in the last 5 rows |
| `Labels.WindowOutcome` | algo.py:118-131 | the 30/60-day label is 0 or 1 and is forced to 0 in the last h rows |
| `Labels.FiveDayObservation` | algo.py:106-116 | the x loop yields one label per close, and label x is the mean of close[x+1..x+5] compared with close[x] (the verified body reads only close[x..x+5] for x < len − 5) |
| `Labels.WindowObservation` | algo.py:117-146 | the y/y2 and z/z2 loops yield one label per close, and label y is the running sum of close[y..y+h−1] over h compared with close[y] (the body asserts each read index is at most len − 2) |
| `Labels.LabelBars` | algo.py:101-149 | one file: trim, close column, three loops and column assignment give exactly the specified table `Labelled(bars)` |
| `Labels.GetTechnicalIndicators` | algo.py:96-151 | every raw file yields a labelled file of the same stock, whose rows are `Labelled` of its bars |
| `Labels.LabelledShape` | algo.py:101-149 | the table has max(0, L − 100) rows, each row keeps its bar, every label is 0 or 1, and the last 5/30/60 labels of the three columns are 0 |
| `Labels.LabelMeaning` | algo.py:102-146 | each label is 1 exactly when the mean of its window of the table's own closes is above the row's close (5 rows after it; 30 or 60 rows from it) and the window lies before the tail |
| `Labels.WindowIsShorterForwardWindow` | algo.py:118-131 | including the current close in an h-row mean is the same as comparing the mean of the next h − 1 closes: the 30-day label is a 29-day forward label cut off one row early |
| `Labels.IncludingCurrentRowChangesLabel` | algo.py:107-131 | for every horizon h, the series of h closes of 1.0 followed by 2.0 gets label 0 from the including window and 1 from the forward window |
| `Labels.ToySeriesFiveDayLabels` | algo.py:107-116 | on closes [10, 12, 13, 11, 9, 20] the first 5-day label is 1 (mean 13 > 10) and the other five are 0 |
| `Fetch.GetHistoricalData` | algo.py:43-85 | the loop ends in the state `Run` gives; the files written and the reported count `i − stocks_not_imported` are that state's; the count equals the number of files written and the number of successful calls |
| `Fetch.StepValid` | algo.py:60-84 | one iteration adds exactly one API call, advances `i` by at most one and keeps the bookkeeping invariant |
| `Fetch.RunEnds` | algo.py:60-84 | the loop terminates with at most 1800 calls and `i ≤ len(tickers)`, and it stops only when `i = len(tickers)` or 1800 calls are made |
| `Fetch.ReportedCountIsSuccesses` | algo.py:76-85 | `stocks_not_imported ≤ i`, and `i − stocks_not_imported` is the number of files written and the number of successful calls |
| `Fetch.FailuresToSkip` | algo.py:80-84 | a ticker with failure counter f is skipped after 1 more failure if f > 5, otherwise after 7 − f more |
| `Fetch.SkipRule` | algo.py:75-84 | with only failures ahead, the ticker is kept while the counter climbs, then skipped and counted as not imported on failure number `FailuresToSkip(f)`; nothing is written meanwhile; the counter keeps counting, not reset, under the kept policy, and is zeroed under the reset policy |
| `Fetch.SuccessResets` | algo.py:74-76 | a successful call writes the ticker's file, zeroes the counter and moves to the next ticker |
| `Fetch.FreshTickerSkippedOnSeventhFailure` | algo.py:78-84 | with a fresh counter the ticker is still current after 6 failures and is skipped on the 7th |
| `Fetch.KeptCounterSkipsNextTickerAtOnce` | algo.py:80-84 | as written: two always-failing tickers; the second is skipped on its first failure and the run ends after 8 calls |
| `Fetch.ResetCounterSkipsEachTickerAfterSeven` | algo.py:80-84 | with the counter reset on skip, a ticker met with a fresh counter is kept for 6 failures, skipped on the 7th and hands on a fresh counter |
| `Fetch.ResetCounterTriesBothTickersSevenTimes` | algo.py:80-84 | with the counter reset on skip, two always-failing tickers are each tried 7 times: the run ends after 14 calls with nothing written |

## Findings

| source | as written | input that shows it | evidently intended | confidence | as-written member | corrected member |
|---|---|---|---|---|---|---|
| algo.py:80-84 | `stock_failure` is not reset when a ticker is skipped. Every later ticker is then skipped on its first failure until some call succeeds. | two tickers, every call fails: the first is tried 7 times, the second once (8 calls in all) | the comment says a ticker is moved on from when *it* fails more than 5 times, so the counter should restart per ticker; each ticker then gets 7 tries (14 calls) | medium, not executed | `Fetch.KeptCounterSkipsNextTickerAtOnce` | `Fetch.ResetCounterSkipsEachTickerAfterSeven` |

`Step`, `Run` and the skip-rule lemmas take the counter policy as a parameter
(`KeepCounter` or `ResetCounter`). `GetHistoricalData` models the program as it
behaves, so it uses `KeepCounter`.

## Left out

- Ticker selection through the listing service (`get_tickers`, algo.py:28-41) is a network call. The ticker list is an input of `GetHistoricalData`.
- The market-data call, the two-second sleep, console output and the CSV writes and reads (algo.py:63-73, 77-79, 85, 98, 150-151) are I/O. The call outcome is the oracle `succeeds`, a write is an entry of `written`, and a read is a `RawFile` value.
- Exceptions other than `ValueError` from the market-data call propagate and end the run. Only the `ValueError` path is modelled.
- Directory resets (`shutil.rmtree`/`os.mkdir`) and the `glob` listing (algo.py:39-40, 90-91, 95) are filesystem side effects. The files to label are the input of `GetTechnicalIndicators`. The file name is reduced to the stock name.
- `add_all_ta_features` (algo.py:100) is a call into the indicator library, which is not part of this model. The model assumes it keeps the rows and their order, and its indicator columns are not represented.
- `dropna(data)` (algo.py:99) returns a new table that the code discards, so rows pass through it unchanged.
- Floating-point rounding in the mean comparisons is not modelled. Prices are exact reals.
- Prices are never missing (NaN). Because the `dropna` result is discarded, a row with a missing close reaches the label loops, where every comparison involving it (algo.py:110, 125, 140) is false and the label is 0; exact reals cannot express this.
- `GetTechnicalIndicators` assumes every file is read and featurized without an exception. In the code an exception from `read_csv` or `add_all_ta_features` (algo.py:98-100), for instance on an empty CSV, ends the whole stage, and that file and every later one get no output.
- `execute` (algo.py:23-26) only calls the three stages in order. The bars of each written file come from the provider and are not modelled, so the two stages are not chained.
