/**
 The fuzzer's gas histogram: sending with bounded retries, counting gas usage in bins of
 fixed width, and reporting the bins between the first and last that are in use.
 */
module GasHistogram {

  const INTERVAL_WIDTH: nat := 10000
  const NUMBER_OF_BINS: nat := 800

  // Where a bin's interval starts.
  function Start(bin: int): int {
    INTERVAL_WIDTH * bin
  }

  // What one send comes back with: a receipt, or none when sending or waiting for it throws.
  datatype Attempt = Receipt(succeeded: bool, gasUsed: nat, gasLimit: nat) | NoReceipt

  predicate Succeeded(a: Attempt) {
    a.Receipt? && a.succeeded
  }

  predicate OutOfGas(a: Attempt) {
    a.Receipt? && !a.succeeded && a.gasUsed >= a.gasLimit
  }

  // Where transactions are sent: what the k-th send comes back with, and how many were made.
  class Network {
    const attempts: nat -> Attempt
    var sent: nat

    constructor (attempts: nat -> Attempt)
      ensures this.attempts == attempts && sent == 0
    {
      this.attempts, sent := attempts, 0;
    }

    method Send() returns (receipt: Attempt)
      modifies this
      ensures sent == old(sent) + 1 && receipt == attempts(old(sent))
    {
      receipt := attempts(sent);
      sent := sent + 1;
    }
  }

  // --- Retrying ---

  // How many retries a call makes that starts with send `at`: up to the first send that is
  // not out of gas, if any is left.
  function Retries(times: nat, attempts: nat -> Attempt, at: nat): (r: nat)
    ensures r <= times
    ensures forall k :: at <= k < at + r ==> OutOfGas(attempts(k))
    ensures OutOfGas(attempts(at + r)) ==> r == times
  {
    if times == 0 || !OutOfGas(attempts(at)) then 0 else 1 + Retries(times - 1, attempts, at + 1)
  }

  // One send more than there are retries. Every send but the last ran out of gas, and the
  // last one did only if the retries are used up. A result of `NoReceipt` is the exception.
  method RetryUpTo(times: nat, network: Network) returns (retries: nat, receipt: Attempt)
    modifies network
    ensures network.sent == old(network.sent) + retries + 1 <= old(network.sent) + times + 1
    ensures receipt == network.attempts(network.sent - 1)
    ensures forall k :: old(network.sent) <= k < network.sent - 1 ==> OutOfGas(network.attempts(k))
    ensures OutOfGas(receipt) ==> retries == times
    ensures retries == Retries(times, network.attempts, old(network.sent))
  {
    retries := 0;
    while true
      invariant retries <= times && network.sent == old(network.sent) + retries
      invariant Retries(times, network.attempts, old(network.sent)) ==
                retries + Retries(times - retries, network.attempts, network.sent)
      decreases times - retries
    {
      receipt := network.Send();
      if receipt.NoReceipt? || receipt.succeeded || receipt.gasUsed < receipt.gasLimit || retries == times {
        return;
      }
      retries := retries + 1;
    }
  }

  // --- Counting ---

  function Sum(bins: seq<nat>): nat {
    if bins == [] then 0 else Sum(bins[..|bins| - 1]) + bins[|bins| - 1]
  }

  // How many of the recorded amounts lie in [low, high).
  function CountWithin(recorded: seq<nat>, low: int, high: int): nat {
    if recorded == [] then 0
    else
      var n := |recorded| - 1;
      CountWithin(recorded[..n], low, high) + (if low <= recorded[n] < high then 1 else 0)
  }

  // The bins hold exactly the recorded amounts.
  ghost predicate Holds(bins: seq<nat>, recorded: seq<nat>) {
    && |bins| == NUMBER_OF_BINS
    && forall i :: 0 <= i < |bins| ==>
         bins[i] == CountWithin(recorded, Start(i), Start(i + 1))
  }

  lemma {:induction false} SumOfUpdate(bins: seq<nat>, i: nat)
    requires i < |bins|
    ensures Sum(bins[i := bins[i] + 1]) == Sum(bins) + 1
  {
    var n, updated := |bins| - 1, bins[i := bins[i] + 1];
    if i < n {
      SumOfUpdate(bins[..n], i);
      assert updated[..n] == bins[..n][i := bins[i] + 1];
    } else {
      assert updated[..n] == bins[..n];
    }
  }

  lemma {:induction false} SumOfConcat(a: seq<nat>, b: seq<nat>)
    ensures Sum(a + b) == Sum(a) + Sum(b)
  {
    if b == [] {
      assert a + b == a;
    } else {
      var n := |b| - 1;
      SumOfConcat(a, b[..n]);
      assert (a + b)[..|a + b| - 1] == a + b[..n];
    }
  }

  lemma {:induction false} SumOfZeros(bins: seq<nat>)
    requires forall i :: 0 <= i < |bins| ==> bins[i] == 0
    ensures Sum(bins) == 0
  {
    if bins != [] {
      SumOfZeros(bins[..|bins| - 1]);
    }
  }

  // Recording one amount adds one to its bin and keeps every other.
  lemma RecordOne(bins: seq<nat>, recorded: seq<nat>, gasUsed: nat)
    requires Holds(bins, recorded) && gasUsed / INTERVAL_WIDTH < NUMBER_OF_BINS
    ensures var i := gasUsed / INTERVAL_WIDTH;
            Holds(bins[i := bins[i] + 1], recorded + [gasUsed])
  {
    var n := |recorded|;
    assert (recorded + [gasUsed])[..n] == recorded;
  }

  // --- Reporting ---

  // `findIndex(x => x > 0)`
  function FindNonZero(bins: seq<nat>): (i: int)
    ensures i == -1 <==> forall k :: 0 <= k < |bins| ==> bins[k] == 0
    ensures i != -1 ==> 0 <= i < |bins| && bins[i] > 0 && forall k :: 0 <= k < i ==> bins[k] == 0
  {
    FindFrom(bins, 0)
  }

  function FindFrom(bins: seq<nat>, from: nat): (i: int)
    requires from <= |bins|
    ensures i == -1 <==> forall k :: from <= k < |bins| ==> bins[k] == 0
    ensures i != -1 ==> from <= i < |bins| && bins[i] > 0 && forall k :: from <= k < i ==> bins[k] == 0
    decreases |bins| - from
  {
    if from == |bins| then -1
    else if bins[from] > 0 then from
    else FindFrom(bins, from + 1)
  }

  function Reverse(bins: seq<nat>): (r: seq<nat>)
    ensures |r| == |bins| && forall i :: 0 <= i < |r| ==> r[i] == bins[|bins| - 1 - i]
  {
    seq(|bins|, i requires 0 <= i < |bins| => bins[|bins| - 1 - i])
  }

  function SliceIndex(length: nat, i: int): nat {
    if i < 0 then (if length + i < 0 then 0 else length + i) else if i > length then length else i
  }

  // JavaScript's `slice`: negative positions count from the end, and both are clamped.
  function Slice(bins: seq<nat>, from: int, to: int): seq<nat> {
    var low, high := SliceIndex(|bins|, from), SliceIndex(|bins|, to);
    if low <= high then bins[low..high] else []
  }

  datatype Interval = Interval(min: int, frequency: nat)

  function Results(bins: seq<nat>): seq<Interval> {
    var first := FindNonZero(bins);
    var fromEnd := FindNonZero(Reverse(bins));
    Rows(first, Slice(bins, first, |bins| - fromEnd))
  }

  function Rows(first: int, kept: seq<nat>): (rows: seq<Interval>)
    ensures |rows| == |kept|
    ensures forall i :: 0 <= i < |rows| ==> rows[i] == Interval(Start(first + i), kept[i])
  {
    seq(|kept|, i requires 0 <= i < |kept| => Interval(Start(first + i), kept[i]))
  }

  // The bins a report stands for.
  function Restore(rows: seq<Interval>, length: nat): seq<nat> {
    seq(length, i requires 0 <= i < length => FrequencyAt(rows, 10000 * i))
  }

  function FrequencyAt(rows: seq<Interval>, min: int): nat {
    if rows == [] then 0
    else if rows[0].min == min then rows[0].frequency
    else FrequencyAt(rows[1..], min)
  }

  lemma {:induction false} FrequencyAtRow(rows: seq<Interval>, first: int, k: int)
    requires forall i :: 0 <= i < |rows| ==> rows[i].min == Start(first + i)
    ensures FrequencyAt(rows, Start(k)) ==
            if first <= k < first + |rows| then rows[k - first].frequency else 0
  {
    if rows != [] {
      assert rows[0].min == Start(first + 0);
      FrequencyAtRow(rows[1..], first + 1, k);
    }
  }

  predicate InUse(bins: seq<nat>) {
    exists i :: 0 <= i < |bins| && bins[i] > 0
  }

  // The second search finds the last bin in use.
  lemma LastInUse(bins: seq<nat>) returns (last: nat)
    requires InUse(bins)
    ensures |bins| - FindNonZero(Reverse(bins)) == last + 1
    ensures last < |bins| && bins[last] > 0 && forall i :: last < i < |bins| ==> bins[i] == 0
  {
    var used :| 0 <= used < |bins| && bins[used] > 0;
    var reversed := Reverse(bins);
    assert reversed[|bins| - 1 - used] > 0;
    last := |bins| - 1 - FindNonZero(reversed);
    forall i | last < i < |bins|
      ensures bins[i] == 0
    {
      assert reversed[|bins| - 1 - i] == bins[i];
    }
  }

  // The outermost bins in use.
  predicate Outermost(bins: seq<nat>, first: nat, last: nat) {
    && first <= last < |bins| && bins[first] > 0 && bins[last] > 0
    && (forall i :: 0 <= i < first ==> bins[i] == 0)
    && (forall i :: last < i < |bins| ==> bins[i] == 0)
  }

  // The report is the stretch of bins between these.
  lemma ResultsAre(bins: seq<nat>) returns (first: nat, last: nat)
    requires InUse(bins)
    ensures Outermost(bins, first, last)
    ensures Results(bins) == Rows(first, bins[first..last + 1])
  {
    first := FindNonZero(bins);
    last := LastInUse(bins);
    SliceInside(bins, first, last + 1);
  }

  lemma SliceInside(bins: seq<nat>, low: nat, high: nat)
    requires low <= high <= |bins|
    ensures Slice(bins, low, high) == bins[low..high]
  {
  }

  lemma RowsFollow(first: int, kept: seq<nat>)
    ensures var rows := Rows(first, kept);
            forall i :: 0 <= i < |rows| - 1 ==> rows[i + 1].min == rows[i].min + INTERVAL_WIDTH
    ensures Frequencies(Rows(first, kept)) == kept
  {
    var rows := Rows(first, kept);
    forall i | 0 <= i < |rows| - 1
      ensures rows[i + 1].min == rows[i].min + INTERVAL_WIDTH
    {
      assert rows[i + 1].min == Start(first + (i + 1));
    }
  }

  // It starts and ends with bins in use and its intervals follow each other.
  predicate WellShaped(rows: seq<Interval>) {
    && rows != [] && rows[0].frequency > 0 && rows[|rows| - 1].frequency > 0
    && rows[0].min % 10000 == 0
    && forall i :: 0 <= i < |rows| - 1 ==> rows[i + 1].min == rows[i].min + 10000
  }

  // With any bin in use, the report is so.
  lemma ReportShape(bins: seq<nat>)
    requires InUse(bins)
    ensures WellShaped(Results(bins))
  {
    var first, last := ResultsAre(bins);
    KeptShape(bins, first, last);
  }

  lemma KeptShape(bins: seq<nat>, first: nat, last: nat)
    requires Outermost(bins, first, last)
    ensures WellShaped(Rows(first, bins[first..last + 1]))
  {
    RowsFollow(first, bins[first..last + 1]);
  }

  // The report keeps the sum of all bins.
  lemma ReportSum(bins: seq<nat>)
    requires InUse(bins)
    ensures Sum(Frequencies(Results(bins))) == Sum(bins)
  {
    var first, last := ResultsAre(bins);
    TrimKeepsSum(bins, first, last + 1);
    RowsFollow(first, bins[first..last + 1]);
  }

  // The frequency is the number of recorded amounts in the row's interval.
  predicate CountsItsInterval(row: Interval, recorded: seq<nat>) {
    row.frequency == CountWithin(recorded, row.min, row.min + 10000)
  }

  lemma BinCounts(bins: seq<nat>, recorded: seq<nat>, bin: nat)
    requires Holds(bins, recorded) && bin < |bins|
    ensures CountsItsInterval(Interval(Start(bin), bins[bin]), recorded)
  {
    assert Start(bin + 1) == Start(bin) + INTERVAL_WIDTH;
  }

  lemma RowsCount(bins: seq<nat>, recorded: seq<nat>, low: nat, high: nat)
    requires Holds(bins, recorded) && low <= high <= |bins|
    ensures forall row <- Rows(low, bins[low..high]) :: CountsItsInterval(row, recorded)
  {
    var kept := bins[low..high];
    var rows := Rows(low, kept);
    forall i | 0 <= i < |rows|
      ensures CountsItsInterval(rows[i], recorded)
    {
      BinCounts(bins, recorded, low + i);
      assert rows[i] == Interval(Start(low + i), kept[i]);
    }
  }

  // Every row of a histogram that recorded anything counts its interval, and together
  // they count every amount.
  lemma ReportIsFaithful(bins: seq<nat>, recorded: seq<nat>)
    requires Holds(bins, recorded) && Sum(bins) == |recorded| > 0
    ensures InUse(bins) && Sum(Frequencies(Results(bins))) == |recorded|
    ensures forall row <- Results(bins) :: CountsItsInterval(row, recorded)
  {
    SomeInUse(bins);
    ReportSum(bins);
    ReportCounts(bins, recorded);
  }

  lemma SomeInUse(bins: seq<nat>)
    requires Sum(bins) > 0
    ensures InUse(bins)
  {
    if !InUse(bins) {
      SumOfZeros(bins);
    }
  }

  lemma ReportCounts(bins: seq<nat>, recorded: seq<nat>)
    requires Holds(bins, recorded) && InUse(bins)
    ensures forall row <- Results(bins) :: CountsItsInterval(row, recorded)
  {
    var first, last := ResultsAre(bins);
    RowsCount(bins, recorded, first, last + 1);
  }

  lemma TrimKeepsSum(bins: seq<nat>, low: nat, high: nat)
    requires low <= high <= |bins|
    requires forall i :: 0 <= i < low ==> bins[i] == 0
    requires forall i :: high <= i < |bins| ==> bins[i] == 0
    ensures Sum(bins[low..high]) == Sum(bins)
  {
    assert bins == bins[..low] + bins[low..high] + bins[high..];
    SumOfConcat(bins[..low] + bins[low..high], bins[high..]);
    SumOfConcat(bins[..low], bins[low..high]);
    SumOfZeros(bins[..low]);
    SumOfZeros(bins[high..]);
  }

  function Frequencies(rows: seq<Interval>): seq<nat> {
    seq(|rows|, i requires 0 <= i < |rows| => rows[i].frequency)
  }

  lemma RestoresKept(bins: seq<nat>, first: nat, last: nat)
    requires Outermost(bins, first, last)
    ensures Restore(Rows(first, bins[first..last + 1]), |bins|) == bins
  {
    var rows := Rows(first, bins[first..last + 1]);
    forall k | 0 <= k < |bins|
      ensures Restore(rows, |bins|)[k] == bins[k]
    {
      FrequencyAtRow(rows, first, k);
    }
  }

  // Nothing is lost: the bins can be rebuilt from the report whenever any bin is in use.
  // An empty histogram reports its last bin under a negative start.
  lemma ReportIsLossless(bins: seq<nat>)
    requires bins != []
    ensures InUse(bins) ==> Restore(Results(bins), |bins|) == bins
    ensures !InUse(bins) ==> Results(bins) == [Interval(-10000, 0)]
  {
    if InUse(bins) {
      UsedReport(bins);
    } else {
      EmptyReport(bins);
    }
  }

  lemma UsedReport(bins: seq<nat>)
    requires InUse(bins)
    ensures Restore(Results(bins), |bins|) == bins
  {
    var first, last := ResultsAre(bins);
    RestoresKept(bins, first, last);
  }

  lemma EmptyReport(bins: seq<nat>)
    requires bins != [] && !InUse(bins)
    ensures Results(bins) == [Interval(-10000, 0)]
  {
    NothingFound(bins);
    LastBinOnly(bins);
    OneRow(-1, bins[|bins| - 1]);
  }

  lemma NothingFound(bins: seq<nat>)
    requires !InUse(bins)
    ensures FindNonZero(bins) == -1 == FindNonZero(Reverse(bins))
  {
    assert forall i :: 0 <= i < |bins| ==> bins[i] == 0;
  }

  lemma LastBinOnly(bins: seq<nat>)
    requires bins != []
    ensures Slice(bins, -1, |bins| + 1) == [bins[|bins| - 1]]
  {
  }

  lemma OneRow(first: int, frequency: nat)
    ensures Rows(first, [frequency]) == [Interval(Start(first), frequency)]
  {
    assert Start(first + 0) == Start(first);
  }

  // --- The class ---

  // `Rejected` is the exception for a failed transaction, `Overflow` the failed assertion
  // on a gas amount beyond the last bin; `Unanswered` passes on the exception of a send.
  datatype Verdict = Accepted | Rejected | Overflow | Unanswered

  function VerdictOf(receipt: Attempt): Verdict {
    if receipt.NoReceipt? then Unanswered
    else if !receipt.succeeded then Rejected
    else if receipt.gasUsed / INTERVAL_WIDTH >= NUMBER_OF_BINS then Overflow
    else Accepted
  }

  // A call of `expectSuccess`, or one of `expectFailure` for a transaction that fails or not.
  datatype Call = ToSucceed | ToFail(fails: bool)

  class Histogram {
    var expectedFailures: nat
    var outOfGasFailures: nat
    const gasUsedBins: array<nat>
    ghost var recorded: seq<nat>

    ghost predicate Valid()
      reads this, gasUsedBins
    {
      gasUsedBins.Length == NUMBER_OF_BINS && Holds(gasUsedBins[..], recorded)
      && Sum(gasUsedBins[..]) == |recorded|
    }

    constructor ()
      ensures Valid() && fresh(gasUsedBins)
      ensures expectedFailures == 0 && outOfGasFailures == 0 && recorded == []
    {
      expectedFailures, outOfGasFailures, recorded := 0, 0, [];
      gasUsedBins := new nat[NUMBER_OF_BINS](_ => 0);
      new;
      SumOfZeros(gasUsedBins[..]);
    }

    method AddToGasUsedHisto(gasUsed: nat) returns (ok: bool)
      requires Valid()
      modifies gasUsedBins, this`recorded
      ensures Valid()
      ensures ok == (gasUsed < 8000000)
      ensures recorded == if ok then old(recorded) + [gasUsed] else old(recorded)
    {
      var binIndex := gasUsed / INTERVAL_WIDTH;
      if binIndex >= gasUsedBins.Length {
        return false;
      }
      ghost var before := gasUsedBins[..];
      RecordOne(before, recorded, gasUsed);
      SumOfUpdate(before, binIndex);
      gasUsedBins[binIndex] := gasUsedBins[binIndex] + 1;
      recorded := recorded + [gasUsed];
      assert gasUsedBins[..] == before[binIndex := before[binIndex] + 1];
      ok := true;
    }

    method ExpectSuccess(network: Network) returns (verdict: Verdict)
      requires Valid()
      modifies this, gasUsedBins, network
      ensures Valid() && expectedFailures == old(expectedFailures)
      ensures outOfGasFailures == old(outOfGasFailures)
                                  + if verdict.Unanswered? then 0 else network.sent - old(network.sent) - 1
      ensures network.sent == old(network.sent) + Retries(1, network.attempts, old(network.sent)) + 1
      ensures verdict == VerdictOf(network.attempts(network.sent - 1))
      ensures recorded == if verdict.Accepted? then old(recorded) + [network.attempts(network.sent - 1).gasUsed]
                          else old(recorded)
    {
      var retries, receipt := RetryUpTo(1, network);
      if receipt.NoReceipt? {
        return Unanswered;
      }
      outOfGasFailures := outOfGasFailures + retries;
      if !receipt.succeeded {
        return Rejected;
      }
      var ok := AddToGasUsedHisto(receipt.gasUsed);
      verdict := if ok then Accepted else Overflow;
    }

    // `failed` says whether waiting for success threw; the result whether this call throws.
    method ExpectFailure(failed: bool) returns (unexpectedSuccess: bool)
      modifies this`expectedFailures
      ensures unexpectedSuccess == !failed
      ensures expectedFailures == if failed then old(expectedFailures) + 1 else old(expectedFailures)
    {
      if failed {
        expectedFailures := expectedFailures + 1;
      }
      unexpectedSuccess := !failed;
    }

    method GetResults() returns (rows: seq<Interval>)
      requires Valid()
      ensures rows == Results(gasUsedBins[..])
      ensures recorded != [] ==>
                && WellShaped(rows) && Sum(Frequencies(rows)) == |recorded|
                && forall row <- rows :: CountsItsInterval(row, recorded)
    {
      if recorded != [] {
        ReportIsFaithful(gasUsedBins[..], recorded);
        ReportShape(gasUsedBins[..]);
      }
      rows := Results(gasUsedBins[..]);
    }

    // Everything a session counts.
    ghost function Now(network: Network, thrown: nat): Counts
      reads this, network
    {
      Counts(network.sent, outOfGasFailures, expectedFailures, recorded, thrown)
    }

    // One call of a session.
    method Expect(network: Network, call: Call) returns (threw: bool)
      requires Valid()
      modifies this, gasUsedBins, network
      ensures Valid()
      ensures Now(network, if threw then 1 else 0) == AfterCall(network.attempts, old(Now(network, 0)), call)
    {
      if call.ToSucceed? {
        var verdict := ExpectSuccess(network);
        threw := !verdict.Accepted?;
      } else {
        threw := ExpectFailure(call.fails);
      }
    }

    // A whole fuzzing session: every send beyond one per `expectSuccess` is an out-of-gas
    // failure, but for the retries that got no receipt; and each call is counted once: in the
    // bins, as an expected failure, or as one that threw.
    method Session(network: Network, calls: seq<Call>) returns (thrown: nat)
      requires Valid()
      modifies this, gasUsedBins, network
      ensures Valid()
      ensures Now(network, thrown) == AfterCalls(network.attempts, old(Now(network, 0)), calls)
      ensures outOfGasFailures == old(outOfGasFailures) + (network.sent - old(network.sent)) - CallsToSucceed(calls)
                                  - LostRetries(network.attempts, old(network.sent), calls)
      ensures recorded == old(recorded) + GasOf(Receipts(network.attempts, old(network.sent), calls))
      ensures expectedFailures == old(expectedFailures) + FailingCalls(calls)
      ensures Sum(gasUsedBins[..]) + expectedFailures + thrown ==
              old(Sum(gasUsedBins[..]) + expectedFailures) + |calls|
    {
      thrown := 0;
      ghost var start := Now(network, 0);
      assert calls[0..] == calls;
      for i := 0 to |calls|
        invariant Valid()
        invariant AfterCalls(network.attempts, start, calls) ==
                  AfterCalls(network.attempts, Now(network, thrown), calls[i..])
      {
        ghost var before := Now(network, thrown);
        assert calls[i..][0] == calls[i] && calls[i..][1..] == calls[i + 1..];
        var threw := Expect(network, calls[i]);
        AfterCallShifts(network.attempts, before, calls[i]);
        thrown := thrown + if threw then 1 else 0;
      }
      SessionCounts(network.attempts, start, calls);
      SessionRecords(network.attempts, start, calls);
      SessionFailures(network.attempts, start, calls);
    }
  }

  // --- Sessions ---

  datatype Counts = Counts(sent: nat, outOfGas: nat, expected: nat, recorded: seq<nat>, thrown: nat)

  // The final receipt of an `expectSuccess` that starts with send `at`.
  function Final(attempts: nat -> Attempt, at: nat): Attempt {
    attempts(at + Retries(1, attempts, at))
  }

  function AfterCall(attempts: nat -> Attempt, c: Counts, call: Call): Counts {
    match call
    case ToFail(fails) => if fails then c.(expected := c.expected + 1) else c.(thrown := c.thrown + 1)
    case ToSucceed =>
      var retries, receipt := Retries(1, attempts, c.sent), Final(attempts, c.sent);
      var counted := if receipt.NoReceipt? then 0 else retries;
      var sent := c.(sent := c.sent + retries + 1, outOfGas := c.outOfGas + counted);
      if VerdictOf(receipt).Accepted? then sent.(recorded := c.recorded + [receipt.gasUsed])
      else sent.(thrown := c.thrown + 1)
  }

  function AfterCalls(attempts: nat -> Attempt, c: Counts, calls: seq<Call>): Counts
    decreases |calls|
  {
    if calls == [] then c else AfterCalls(attempts, AfterCall(attempts, c, calls[0]), calls[1..])
  }

  lemma AfterCallShifts(attempts: nat -> Attempt, c: Counts, call: Call)
    ensures var alone := AfterCall(attempts, c.(thrown := 0), call);
            AfterCall(attempts, c, call) == alone.(thrown := c.thrown + alone.thrown)
  {
  }

  function CallsToSucceed(calls: seq<Call>): nat {
    if calls == [] then 0 else (if calls[0].ToSucceed? then 1 else 0) + CallsToSucceed(calls[1..])
  }

  // The `expectFailure` calls whose transaction fails.
  function FailingCalls(calls: seq<Call>): nat {
    if calls == [] then 0 else (if calls[0] == ToFail(true) then 1 else 0) + FailingCalls(calls[1..])
  }

  // Where the next call starts.
  function NextAt(attempts: nat -> Attempt, at: nat, call: Call): nat {
    if call.ToSucceed? then at + Retries(1, attempts, at) + 1 else at
  }

  // The first and the final receipts of the `expectSuccess` calls, from send `at` on.
  function FirstReceipts(attempts: nat -> Attempt, at: nat, calls: seq<Call>): seq<Attempt>
    decreases |calls|
  {
    if calls == [] then []
    else
      var rest := FirstReceipts(attempts, NextAt(attempts, at, calls[0]), calls[1..]);
      if calls[0].ToSucceed? then [attempts(at)] + rest else rest
  }

  function Receipts(attempts: nat -> Attempt, at: nat, calls: seq<Call>): seq<Attempt>
    decreases |calls|
  {
    if calls == [] then []
    else
      var rest := Receipts(attempts, NextAt(attempts, at, calls[0]), calls[1..]);
      if calls[0].ToSucceed? then [Final(attempts, at)] + rest else rest
  }

  // The retries that are never counted, because the last send got no receipt.
  function LostRetries(attempts: nat -> Attempt, at: nat, calls: seq<Call>): nat
    decreases |calls|
  {
    if calls == [] then 0
    else
      var rest := LostRetries(attempts, NextAt(attempts, at, calls[0]), calls[1..]);
      if calls[0].ToSucceed? && Final(attempts, at).NoReceipt? then Retries(1, attempts, at) + rest else rest
  }

  // The gas of the accepted receipts.
  function GasOf(receipts: seq<Attempt>): seq<nat> {
    if receipts == [] then []
    else if VerdictOf(receipts[0]).Accepted? then [receipts[0].gasUsed] + GasOf(receipts[1..])
    else GasOf(receipts[1..])
  }

  function CountSucceeded(receipts: seq<Attempt>): nat {
    if receipts == [] then 0 else (if Succeeded(receipts[0]) then 1 else 0) + CountSucceeded(receipts[1..])
  }

  function CountOutOfGas(receipts: seq<Attempt>): nat {
    if receipts == [] then 0 else (if OutOfGas(receipts[0]) then 1 else 0) + CountOutOfGas(receipts[1..])
  }

  lemma {:induction false} SessionCounts(attempts: nat -> Attempt, c: Counts, calls: seq<Call>)
    ensures var r := AfterCalls(attempts, c, calls);
            && r.outOfGas == c.outOfGas + (r.sent - c.sent) - CallsToSucceed(calls)
                             - LostRetries(attempts, c.sent, calls)
            && |r.recorded| + r.expected + r.thrown == |c.recorded| + c.expected + c.thrown + |calls|
    decreases |calls|
  {
    if calls != [] {
      SessionCounts(attempts, AfterCall(attempts, c, calls[0]), calls[1..]);
    }
  }

  lemma {:induction false} SessionFailures(attempts: nat -> Attempt, c: Counts, calls: seq<Call>)
    ensures AfterCalls(attempts, c, calls).expected == c.expected + FailingCalls(calls)
    decreases |calls|
  {
    if calls != [] {
      SessionFailures(attempts, AfterCall(attempts, c, calls[0]), calls[1..]);
    }
  }

  lemma {:induction false} SessionRecords(attempts: nat -> Attempt, c: Counts, calls: seq<Call>)
    ensures AfterCalls(attempts, c, calls).recorded == c.recorded + GasOf(Receipts(attempts, c.sent, calls))
    decreases |calls|
  {
    if calls != [] {
      var next := AfterCall(attempts, c, calls[0]);
      SessionRecords(attempts, next, calls[1..]);
      if calls[0].ToSucceed? {
        var rest := Receipts(attempts, next.sent, calls[1..]);
        GasOfFirst(Final(attempts, c.sent), rest);
        Regroup(c.recorded, Final(attempts, c.sent), rest);
      }
    }
  }

  lemma Regroup(recorded: seq<nat>, receipt: Attempt, rest: seq<Attempt>)
    ensures VerdictOf(receipt).Accepted? ==>
              (recorded + [receipt.gasUsed]) + GasOf(rest) == recorded + ([receipt.gasUsed] + GasOf(rest))
  {
  }

  lemma GasOfFirst(receipt: Attempt, rest: seq<Attempt>)
    ensures GasOf([receipt] + rest) ==
            if VerdictOf(receipt).Accepted? then [receipt.gasUsed] + GasOf(rest) else GasOf(rest)
  {
    assert ([receipt] + rest)[1..] == rest;
  }

  lemma CountsOfFirst(receipt: Attempt, rest: seq<Attempt>)
    ensures CountOutOfGas([receipt] + rest) == (if OutOfGas(receipt) then 1 else 0) + CountOutOfGas(rest)
  {
    assert ([receipt] + rest)[1..] == rest;
  }

  // The recorded calls are those whose final receipt succeeded exactly when none of these
  // used eight million gas or more.
  lemma {:induction false} AcceptedAreSucceededIff(receipts: seq<Attempt>)
    ensures |GasOf(receipts)| <= CountSucceeded(receipts)
    ensures |GasOf(receipts)| == CountSucceeded(receipts) <==>
            forall i :: 0 <= i < |receipts| && Succeeded(receipts[i]) ==> receipts[i].gasUsed < 8000000
  {
    if receipts != [] {
      AcceptedAreSucceededIff(receipts[1..]);
      assert receipts == [receipts[0]] + receipts[1..];
    }
  }

  // How many of the sends from one point to another ran out of gas.
  function OutOfGasSends(attempts: nat -> Attempt, from: nat, to: nat): nat {
    if to <= from then 0
    else OutOfGasSends(attempts, from, to - 1) + if OutOfGas(attempts(to - 1)) then 1 else 0
  }

  lemma {:induction false} OutOfGasSendsSplit(attempts: nat -> Attempt, from: nat, mid: nat, to: nat)
    requires from <= mid <= to
    ensures OutOfGasSends(attempts, from, to) == OutOfGasSends(attempts, from, mid) + OutOfGasSends(attempts, mid, to)
  {
    if mid < to {
      OutOfGasSendsSplit(attempts, from, mid, to - 1);
    }
  }

  // A session counts an out-of-gas failure for every first send that ran out of gas and
  // whose retry got a receipt, so at most one per `expectSuccess`.
  lemma {:induction false} OutOfGasFailuresAre(attempts: nat -> Attempt, c: Counts, calls: seq<Call>)
    ensures var r := AfterCalls(attempts, c, calls);
            && r.outOfGas - c.outOfGas + LostRetries(attempts, c.sent, calls) ==
               CountOutOfGas(FirstReceipts(attempts, c.sent, calls))
            && CountOutOfGas(FirstReceipts(attempts, c.sent, calls)) <= CallsToSucceed(calls)
    decreases |calls|
  {
    if calls != [] {
      var next := AfterCall(attempts, c, calls[0]);
      OutOfGasFailuresAre(attempts, next, calls[1..]);
      if calls[0].ToSucceed? {
        CountsOfFirst(attempts(c.sent), FirstReceipts(attempts, next.sent, calls[1..]));
        OutOfGasInCall(attempts, c.sent);
      }
    }
  }

  // Of all sends that ran out of gas it misses exactly those that were the final one of
  // their call and those whose retry got no receipt.
  lemma {:induction false} OutOfGasSendsAre(attempts: nat -> Attempt, c: Counts, calls: seq<Call>)
    ensures var r := AfterCalls(attempts, c, calls);
            && c.sent <= r.sent
            && OutOfGasSends(attempts, c.sent, r.sent) ==
               (r.outOfGas - c.outOfGas) + CountOutOfGas(Receipts(attempts, c.sent, calls))
               + LostRetries(attempts, c.sent, calls)
    decreases |calls|
  {
    if calls != [] {
      var next := AfterCall(attempts, c, calls[0]);
      OutOfGasSendsAre(attempts, next, calls[1..]);
      if calls[0].ToSucceed? {
        CountsOfFirst(Final(attempts, c.sent), Receipts(attempts, next.sent, calls[1..]));
        OutOfGasSendsSplit(attempts, c.sent, next.sent, AfterCalls(attempts, c, calls).sent);
        OutOfGasInCall(attempts, c.sent);
      }
    }
  }

  // The i-th `expectSuccess` runs out of gas and gets no receipt for its retry.
  predicate LosesRetry(attempts: nat -> Attempt, at: nat, calls: seq<Call>, i: nat)
    requires i < |FirstReceipts(attempts, at, calls)| == |Receipts(attempts, at, calls)|
  {
    OutOfGas(FirstReceipts(attempts, at, calls)[i]) && Receipts(attempts, at, calls)[i].NoReceipt?
  }

  // Every send beyond one per `expectSuccess` is counted exactly when none of the calls
  // loses its retry that way.
  lemma {:induction false} NoneLostIff(attempts: nat -> Attempt, at: nat, calls: seq<Call>)
    ensures |FirstReceipts(attempts, at, calls)| == |Receipts(attempts, at, calls)| == CallsToSucceed(calls)
    ensures LostRetries(attempts, at, calls) == 0 <==>
            forall i :: 0 <= i < CallsToSucceed(calls) ==> !LosesRetry(attempts, at, calls, i)
    decreases |calls|
  {
    if calls != [] {
      var next, rest := NextAt(attempts, at, calls[0]), calls[1..];
      NoneLostIff(attempts, next, rest);
      if calls[0].ToSucceed? {
        OutOfGasInCall(attempts, at);
        assert LosesRetry(attempts, at, calls, 0) <==> OutOfGas(attempts(at)) && Final(attempts, at).NoReceipt?;
        assert forall i :: 0 < i <= CallsToSucceed(rest) ==>
                 LosesRetry(attempts, at, calls, i) == LosesRetry(attempts, next, rest, i - 1);
        assert forall i :: 0 <= i < CallsToSucceed(rest) ==>
                 LosesRetry(attempts, next, rest, i) == LosesRetry(attempts, at, calls, i + 1);
      } else {
        assert forall i :: 0 <= i < CallsToSucceed(rest) ==>
                 LosesRetry(attempts, at, calls, i) == LosesRetry(attempts, next, rest, i);
      }
    }
  }

  // One call that runs out of gas and then gets no receipt: two sends, and no failure.
  lemma RetryWithoutReceipt(attempts: nat -> Attempt)
    requires attempts(0) == Receipt(false, 21000, 21000) && attempts(1) == NoReceipt
    ensures AfterCalls(attempts, Counts(0, 0, 0, [], 0), [ToSucceed]) == Counts(2, 0, 0, [], 1)
  {
    OutOfGasInCall(attempts, 0);
    var next := AfterCall(attempts, Counts(0, 0, 0, [], 0), ToSucceed);
    assert [ToSucceed][1..] == [] && AfterCalls(attempts, next, []) == next;
  }

  lemma OutOfGasInCall(attempts: nat -> Attempt, at: nat)
    ensures var r := Retries(1, attempts, at);
            && r == (if OutOfGas(attempts(at)) then 1 else 0)
            && OutOfGasSends(attempts, at, at + r + 1) == r + if OutOfGas(Final(attempts, at)) then 1 else 0
  {
    assert Retries(0, attempts, at + 1) == 0;
    assert OutOfGasSends(attempts, at, at + 1) == if OutOfGas(attempts(at)) then 1 else 0;
  }
}
