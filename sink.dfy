/**
 * The sample sinks of txopenbci/sink.py: `TimingWatchdog`, which reports dropped samples from
 * the wrapping 8-bit frame counter and the time taken by each 250 samples, and `SensorLog`,
 * which lays each sample out as one CSV row. The clock and the CSV writer are collaborators:
 * the current time is a parameter, and the log lines and rows written are recorded.
 */
module Sink {
  import opened Wrappers
  import opened Protocol

  /** Slots in the watchdog's window of inter-arrival times. */
  const WINDOW: nat := 250
  /** Cells in a CSV row: counter, 8 EEG values, 3 accelerometer axes, clock. */
  const ROW_WIDTH: nat := 13

  // ---------------------------------------------------------------------------
  // Drop detection
  // ---------------------------------------------------------------------------

  /** A "Dropped %s samples (%s..%s)" log line. */
  datatype Drop = Drop(count: int, from: int, to: int)

  /** Counter `c` is the one after `previous` on the wrapping 8-bit counter. */
  predicate Follows(previous: int, c: int)
  {
    (c - previous) % 256 == 1
  }

  /**
   * What one sample with counter `c` reports, given the previous counter. The first sample
   * reports nothing; afterwards a drop is reported exactly when the counter did not advance by
   * one step modulo 256, and its count is one less than the number of steps it advanced
   * (a repeated counter therefore reports -1).
   */
  function DropReport(last: Option<int>, c: int): (r: seq<Drop>)
    ensures last.None? ==> r == []
    ensures last.Some? ==> (r == [] <==> Follows(last.value, c))
    ensures r != [] ==> |r| == 1 && r[0].from == last.value && r[0].to == c
    ensures r != [] ==> -1 <= r[0].count <= 254 && (last.value + r[0].count + 1 - c) % 256 == 0
  {
    match last
    case None => []
    case Some(previous) =>
      var increment := (c - previous) % 256;
      if increment != 1 then [Drop(increment - 1, previous, c)] else []
  }

  /** Everything a fresh watchdog reports about drops over a run of counters. */
  function Drops(cs: seq<int>): seq<Drop>
  {
    if |cs| <= 1 then []
    else Drops(cs[..|cs| - 1]) + DropReport(Some(cs[|cs| - 2]), cs[|cs| - 1])
  }

  /** A run reports no drop exactly when each counter is one step (mod 256) after the previous one. */
  lemma {:induction false} NoDropsIffConsecutive(cs: seq<int>)
    ensures Drops(cs) == [] <==> forall i :: 0 < i < |cs| ==> Follows(cs[i - 1], cs[i])
    decreases |cs|
  {
    if |cs| > 1 {
      var n := |cs|;
      var init := cs[..n - 1];
      NoDropsIffConsecutive(init);
      var last := DropReport(Some(cs[n - 2]), cs[n - 1]);
      assert Drops(cs) == Drops(init) + last;
      assert Drops(cs) == [] <==> Drops(init) == [] && last == [] by {
        assert |Drops(cs)| == |Drops(init)| + |last|;
      }
      assert last == [] <==> Follows(cs[n - 2], cs[n - 1]);
      assert forall k :: 0 <= k < n - 1 ==> init[k] == cs[k];
    }
  }

  /** Counters 0..15 report nothing. */
  lemma CountingHasNoDrops()
    ensures Drops(seq(16, i => i)) == []
  {
    var cs := seq(16, i => i);
    assert forall i :: 0 < i < |cs| ==> cs[i] - cs[i - 1] == 1;
    NoDropsIffConsecutive(cs);
  }

  /** The wrap from 255 to 0 is silent. */
  lemma WrapIsSilent()
    ensures Drops([255, 0]) == []
  {
    assert Drops([255, 0]) == Drops([255]) + DropReport(Some(255), 0);
  }

  /** Skipping counter 2 reports one dropped sample, from 1 to 3. */
  lemma SkipIsReported()
    ensures Drops([0, 1, 3]) == [Drop(1, 1, 3)]
  {
    assert [0, 1, 3][..2] == [0, 1];
    assert Drops([0, 1]) == [] by {
      assert Drops([0, 1]) == Drops([0]) + DropReport(Some(0), 1);
    }
    assert DropReport(Some(1), 3) == [Drop(1, 1, 3)];
  }

  /** A repeated counter reports -1 dropped samples. */
  lemma RepeatIsReported()
    ensures Drops([7, 7]) == [Drop(-1, 7, 7)]
  {
    assert Drops([7, 7]) == Drops([7]) + DropReport(Some(7), 7);
  }

  // ---------------------------------------------------------------------------
  // The window of inter-arrival times
  // ---------------------------------------------------------------------------

  /** Time since the previous sample; `None` stands for NaN (no previous sample yet). */
  function Delta(lastTime: Option<real>, now: real): Option<real>
  {
    match lastTime
    case None => None
    case Some(t) => Some(now - t)
  }

  /** `sum(self.times)`: NaN as soon as one slot is NaN. */
  function WindowTotal(w: seq<Option<real>>): Option<real>
  {
    if w == [] then Some(0.0)
    else match (WindowTotal(w[..|w| - 1]), w[|w| - 1])
      case (Some(total), Some(t)) => Some(total + t)
      case _ => None
  }

  /** The window has a total exactly when no slot is still NaN. */
  lemma {:induction false} WindowTotalDefined(w: seq<Option<real>>)
    ensures WindowTotal(w).Some? <==> forall i :: 0 <= i < |w| ==> w[i].Some?
    decreases |w|
  {
    if w != [] {
      var init := w[..|w| - 1];
      WindowTotalDefined(init);
      assert forall i :: 0 <= i < |init| ==> init[i] == w[i];
    }
  }

  class TimingWatchdog {
    /** `self.times`: one slot per `counter % 250`. */
    const times: array<Option<real>>
    var lastTime: Option<real>
    var lastCount: Option<int>
    /** The drop lines logged so far. */
    ghost var drops: seq<Drop>
    /** The "Time for 250 samples" lines logged so far. */
    ghost var totals: seq<Option<real>>

    ghost predicate Valid()
      reads this
    {
      times.Length == WINDOW
    }

    constructor()
      ensures Valid() && fresh(times)
      ensures forall i :: 0 <= i < WINDOW ==> times[i] == None
      ensures lastTime == None && lastCount == None && drops == [] && totals == []
    {
      times := new Option<real>[WINDOW](_ => None);
      lastTime := None;
      lastCount := None;
      drops := [];
      totals := [];
    }

    /**
     * One sample with counter `c` arriving at time `now`: report a drop if there is one,
     * remember `c`, store the time since the previous sample in slot `c % 250` and nowhere
     * else, and on slot 0 report the window's total unless this sample's delta is NaN.
     */
    method HandleSample(c: int, now: real)
      requires Valid()
      modifies this, times
      ensures Valid()
      ensures lastCount == Some(c) && lastTime == Some(now)
      ensures drops == old(drops) + DropReport(old(lastCount), c)
      ensures 0 <= c % WINDOW < WINDOW
      ensures times[c % WINDOW] == Delta(old(lastTime), now)
      ensures forall i :: 0 <= i < WINDOW && i != c % WINDOW ==> times[i] == old(times[i])
      ensures totals == old(totals) +
                if c % WINDOW == 0 && Delta(old(lastTime), now).Some? then [WindowTotal(times[..])] else []
    {
      if lastCount.Some? {
        var increment := (c - lastCount.value) % 256;
        if increment != 1 {
          var dropped := increment - 1;
          drops := drops + [Drop(dropped, lastCount.value, c)];
        }
      }
      lastCount := Some(c);
      var delta := if lastTime.Some? then Some(now - lastTime.value) else None;
      times[c % WINDOW] := delta;
      if c % WINDOW == 0 && delta.Some? {
        var total := Total();
        totals := totals + [total];
      }
      lastTime := Some(now);
    }

    /** `sum(self.times)`. */
    method Total() returns (total: Option<real>)
      requires Valid()
      ensures total == WindowTotal(times[..])
    {
      total := Some(0.0);
      for i := 0 to WINDOW
        invariant total == WindowTotal(times[..i])
      {
        assert times[..i + 1][..i] == times[..i];
        total := match (total, times[i])
          case (Some(sum), Some(t)) => Some(sum + t)
          case _ => None;
      }
      assert times[..WINDOW] == times[..];
    }
  }

  /** A fresh watchdog fed a run of counters reports exactly `Drops` of that run. */
  method FeedWatchdog(w: TimingWatchdog, cs: seq<int>, now: real)
    requires w.Valid() && w.lastCount == None && w.drops == []
    modifies w, w.times
    ensures w.drops == Drops(cs)
  {
    for i := 0 to |cs|
      invariant w.Valid()
      invariant w.drops == Drops(cs[..i])
      invariant i == 0 ==> w.lastCount == None
      invariant i > 0 ==> w.lastCount == Some(cs[i - 1])
    {
      w.HandleSample(cs[i], now);
      assert cs[..i + 1][..i] == cs[..i];
      if i > 0 {
        assert cs[..i + 1][i - 1] == cs[i - 1];
      }
    }
    assert cs[..|cs|] == cs;
  }

  // ---------------------------------------------------------------------------
  // The CSV row
  // ---------------------------------------------------------------------------

  /** A CSV cell. */
  datatype Cell = Text(text: string) | Int(i: int) | Real(r: real)

  const HEADER: seq<Cell> := [
    Text("count"),
    Text("s1"), Text("s2"), Text("s3"), Text("s4"), Text("s5"), Text("s6"), Text("s7"), Text("s8"),
    Text("x"), Text("y"), Text("z"),
    Text("clock")]

  function Ints(xs: seq<int>): (cells: seq<Cell>)
    ensures |cells| == |xs| && forall i :: 0 <= i < |xs| ==> cells[i] == Int(xs[i])
  {
    seq(|xs|, i requires 0 <= i < |xs| => Int(xs[i]))
  }

  function Min(a: int, b: int): int
  {
    if a < b then a else b
  }

  /** Python's `l[a:b] = x` for 0 <= a <= b: indices past the end are clipped. */
  function SliceAssign(l: seq<Cell>, a: nat, b: nat, x: seq<Cell>): (r: seq<Cell>)
    requires a <= b
    ensures |r| == |l| - (Min(b, |l|) - Min(a, |l|)) + |x|
    ensures r[..Min(a, |l|)] == l[..Min(a, |l|)]
  {
    l[..Min(a, |l|)] + x + l[Min(b, |l|)..]
  }

  /** The row buffer after the counter, EEG and accelerometer assignments. */
  function StageRow(row: seq<Cell>, sample: RawSample): (r: seq<Cell>)
    requires 1 <= |row|
    ensures 1 <= |r|
  {
    var r0 := row[0 := Int(sample.counter)];
    var r1 := SliceAssign(r0, 1, 9, Ints(sample.eeg));
    SliceAssign(r1, 9, 12, Ints(sample.accelerometer))
  }

  /** The row the source's layout promises: counter, the 8 EEG values, the 3 axes, the clock. */
  function SensorRow(sample: RawSample, clock: real): (row: seq<Cell>)
    requires |sample.eeg| == 8 && |sample.accelerometer| == 3
    ensures |row| == ROW_WIDTH
    ensures row[0] == Int(sample.counter) && row[12] == Real(clock)
    ensures forall i :: 0 <= i < 8 ==> row[1 + i] == Int(sample.eeg[i])
    ensures forall j :: 0 <= j < 3 ==> row[9 + j] == Int(sample.accelerometer[j])
  {
    [Int(sample.counter)] + Ints(sample.eeg) + Ints(sample.accelerometer) + [Real(clock)]
  }

  /**
   * For a 13-cell buffer and a sample with 8 EEG values and 3 axes, the in-place assignments
   * produce exactly the promised row, so the buffer keeps its 13 cells.
   */
  lemma {:induction false} StagedRowIsLayout(row: seq<Cell>, sample: RawSample, clock: real)
    requires |row| == ROW_WIDTH
    requires |sample.eeg| == 8 && |sample.accelerometer| == 3
    ensures |StageRow(row, sample)| == ROW_WIDTH
    ensures StageRow(row, sample)[12 := Real(clock)] == SensorRow(sample, clock)
  {
    var r0 := row[0 := Int(sample.counter)];
    var r1 := SliceAssign(r0, 1, 9, Ints(sample.eeg));
    assert r1 == [Int(sample.counter)] + Ints(sample.eeg) + row[9..];
    var r2 := SliceAssign(r1, 9, 12, Ints(sample.accelerometer));
    assert r2 == [Int(sample.counter)] + Ints(sample.eeg) + Ints(sample.accelerometer) + row[12..];
  }

  class SensorLog {
    /** `self._rowBuffer`, reused for every row. */
    var rowBuffer: seq<Cell>
    /** The CSV writer has been opened. */
    var logOpen: bool
    /** Rows handed to `writer.writerow`, oldest first. */
    var rows: seq<seq<Cell>>

    ghost predicate Valid()
      reads this
    {
      1 <= |rowBuffer|
    }

    constructor()
      ensures Valid() && rowBuffer == seq(ROW_WIDTH, _ => Text(""))
      ensures !logOpen && rows == []
    {
      rowBuffer := seq(ROW_WIDTH, _ => Text(""));
      logOpen := false;
      rows := [];
    }

    /**
     * Open the log (writing the header) on first use, then fill the row buffer in place and
     * write it. The clock assignment raises IndexError (`ok` false) when earlier samples of
     * unexpected sizes have shrunk the buffer below 13 cells; nothing is written then.
     */
    method HandleSample(sample: RawSample, clock: real) returns (ok: bool)
      requires Valid()
      modifies this
      ensures Valid() && logOpen
      ensures var staged := StageRow(old(rowBuffer), sample);
              ok == (ROW_WIDTH <= |staged|) &&
              rowBuffer == (if ok then staged[12 := Real(clock)] else staged)
      ensures rows == old(rows) + (if old(logOpen) then [] else [HEADER]) + (if ok then [rowBuffer] else [])
    {
      if !logOpen {
        logOpen := true;
        rows := rows + [HEADER];
      }
      rowBuffer := rowBuffer[0 := Int(sample.counter)];
      rowBuffer := SliceAssign(rowBuffer, 1, 9, Ints(sample.eeg));
      rowBuffer := SliceAssign(rowBuffer, 9, 12, Ints(sample.accelerometer));
      if |rowBuffer| <= 12 {
        return false;
      }
      rowBuffer := rowBuffer[12 := Real(clock)];
      rows := rows + [rowBuffer];
      ok := true;
    }
  }

  /** A fresh log given a well-formed sample writes the header and then the promised row. */
  method LogOneSample(sample: RawSample, clock: real) returns (written: seq<seq<Cell>>)
    requires |sample.eeg| == 8 && |sample.accelerometer| == 3
    ensures written == [HEADER, SensorRow(sample, clock)]
  {
    var log := new SensorLog();
    StagedRowIsLayout(log.rowBuffer, sample, clock);
    var ok := log.HandleSample(sample, clock);
    written := log.rows;
  }
}
