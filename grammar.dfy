/**
 * The Parsley grammar of txopenbci/protocol.py as three deterministic scanners, one per rule
 * the receiver can select (`idle`, `sample`, `debug`), and the trampolined run that applies the
 * selected rule again and again to the buffered input, calling the receiver once per match.
 * A rule that cannot match raises a parse error; there is no resynchronisation.
 */
module Grammar {
  import opened Wrappers
  import opened Protocol

  /** `EOT = '$$$'` */
  const EOT: seq<Byte> := [0x24, 0x24, 0x24]
  /** `SAMPLE_START = '\xA0'`, `SAMPLE_END = '\xC0'` */
  const SAMPLE_START: Byte := 0xA0
  const SAMPLE_END: Byte := 0xC0
  const PAYLOAD_SIZE: nat := 30
  const FRAME_SIZE: nat := 33

  /** The rule the receiver has selected. */
  datatype Rule = Idle | Sample | Debug

  /** The receiver calls the grammar's actions make. */
  datatype Event =
    | HandleResponse(text: seq<Byte>)
    | SampleData(counter: Byte, payload: seq<Byte>)
    | LogIncoming(b: Byte)

  /** One application of a rule to the buffered input. */
  datatype Step =
    | Matched(event: Event, rest: seq<Byte>)
    | NeedMore  // the rule can still match once more bytes arrive
    | Fail      // no continuation of the input can match: a parse error

  // ---------------------------------------------------------------------------
  // idle = <(~EOT anything)+>:x EOT -> receiver.handleResponse(x)
  // ---------------------------------------------------------------------------

  /** The terminator `$$$` starts at index `i` of `s`. */
  predicate EotAt(s: seq<Byte>, i: nat)
  {
    i + 3 <= |s| && s[i] == 0x24 && s[i + 1] == 0x24 && s[i + 2] == 0x24
  }

  /** The first index from `i` on where the terminator starts, if any. */
  function EotFrom(s: seq<Byte>, i: nat): (r: Option<nat>)
    decreases |s| - i
    ensures r.Some? ==> i <= r.value && EotAt(s, r.value)
    ensures r.Some? ==> forall k :: i <= k < r.value ==> !EotAt(s, k)
    ensures r.None? ==> forall k :: i <= k ==> !EotAt(s, k)
  {
    if i + 3 > |s| then None
    else if EotAt(s, i) then Some(i)
    else EotFrom(s, i + 1)
  }

  /**
   * The `idle` rule: one or more bytes, each not the start of `$$$`, then `$$$`. The text is
   * everything before the first terminator, so input that starts with `$$$` cannot match.
   */
  function ScanIdle(s: seq<Byte>): (st: Step)
    ensures st.Fail? <==> EotAt(s, 0)
    ensures st.NeedMore? <==> forall k :: !EotAt(s, k)
    ensures st.Matched? ==> st.event.HandleResponse? && 1 <= |st.event.text|
    ensures st.Matched? ==> s == st.event.text + EOT + st.rest
    ensures st.Matched? ==> forall k: nat :: k < |st.event.text| ==> !EotAt(s, k)
  {
    match EotFrom(s, 0)
    case None => NeedMore
    case Some(j) =>
      if j == 0 then Fail
      else
        assert s == s[..j] + EOT + s[j + 3..];
        Matched(HandleResponse(s[..j]), s[j + 3..])
  }

  /**
   * Conversely, any non-empty text in which `$$$` does not start, followed by `$$$`, is
   * recognised as exactly that response, whatever follows.
   */
  lemma IdleRecognisesResponse(x: seq<Byte>, rest: seq<Byte>)
    requires 1 <= |x|
    requires forall k: nat :: k < |x| ==> !EotAt(x + EOT + rest, k)
    ensures ScanIdle(x + EOT + rest) == Matched(HandleResponse(x), rest)
  {
    var s := x + EOT + rest;
    assert EotAt(s, |x|);
    var st := ScanIdle(s);
    assert st.Matched?;
    // Both texts end where the first terminator starts.
    assert |st.event.text| == |x| by {
      if |st.event.text| < |x| {
        assert EotAt(s, |st.event.text|);
      }
    }
    assert st.event.text == s[..|x|] == x;
    assert st.rest == s[|x| + 3..] == rest;
  }

  // ---------------------------------------------------------------------------
  // sample = SAMPLE_START uint8:counter <anything{30}>:x SAMPLE_END
  //          -> receiver.sampleData(counter, x)
  // ---------------------------------------------------------------------------

  /** The 33 bytes of one frame: start marker, counter, 30 payload bytes, end marker. */
  function EncodeFrame(counter: Byte, payload: seq<Byte>): (f: seq<Byte>)
    requires |payload| == PAYLOAD_SIZE
    ensures |f| == FRAME_SIZE
  {
    [SAMPLE_START, counter] + payload + [SAMPLE_END]
  }

  /** The `sample` rule. */
  function ScanSample(s: seq<Byte>): (st: Step)
    ensures st.Matched? <==> FRAME_SIZE <= |s| && s[0] == SAMPLE_START && s[32] == SAMPLE_END
    ensures st.Fail? <==>
      (0 < |s| && s[0] != SAMPLE_START) || (FRAME_SIZE <= |s| && s[0] == SAMPLE_START && s[32] != SAMPLE_END)
    ensures st.Matched? ==> st.event.SampleData? && |st.event.payload| == PAYLOAD_SIZE
    ensures st.Matched? ==> s == EncodeFrame(st.event.counter, st.event.payload) + st.rest
  {
    if |s| == 0 then NeedMore
    else if s[0] != SAMPLE_START then Fail
    else if |s| < FRAME_SIZE then NeedMore
    else if s[32] != SAMPLE_END then Fail
    else
      assert s == EncodeFrame(s[1], s[2..32]) + s[33..];
      Matched(SampleData(s[1], s[2..32]), s[33..])
  }

  /** A frame followed by anything is recognised as that frame's counter and payload. */
  lemma {:induction false} SampleRecognisesFrame(counter: Byte, payload: seq<Byte>, rest: seq<Byte>)
    requires |payload| == PAYLOAD_SIZE
    ensures ScanSample(EncodeFrame(counter, payload) + rest) == Matched(SampleData(counter, payload), rest)
  {
    var s := EncodeFrame(counter, payload) + rest;
    assert s[0] == SAMPLE_START && s[1] == counter && s[32] == SAMPLE_END;
    assert s[2..32] == payload;
    assert s[33..] == rest;
  }

  // ---------------------------------------------------------------------------
  // debug = anything:x -> receiver.logIncoming(x)
  // ---------------------------------------------------------------------------

  /** The `debug` rule: any single byte. */
  function ScanDebug(s: seq<Byte>): (st: Step)
    ensures !st.Fail?
    ensures st.NeedMore? <==> s == []
    ensures st.Matched? ==> st.event.LogIncoming? && s == [st.event.b] + st.rest
  {
    if s == [] then NeedMore else Matched(LogIncoming(s[0]), s[1..])
  }

  // ---------------------------------------------------------------------------
  // The trampolined run
  // ---------------------------------------------------------------------------

  /** `u` is what is left of `s` after some prefix has been consumed. */
  predicate IsSuffix(u: seq<Byte>, s: seq<Byte>)
  {
    |u| <= |s| && u == s[|s| - |u|..]
  }

  function Scan(rule: Rule, s: seq<Byte>): (st: Step)
    ensures st.Matched? ==> |st.rest| < |s| && IsSuffix(st.rest, s)
  {
    match rule
    case Idle => ScanIdle(s)
    case Sample => ScanSample(s)
    case Debug => ScanDebug(s)
  }

  /** The outcome of running a rule over buffered input: the receiver calls made, in order,
    * the unconsumed input, and whether a parse error was raised. */
  datatype Run = Run(events: seq<Event>, rest: seq<Byte>, failed: bool)

  /** Apply `rule` repeatedly until it needs more input or fails. */
  function RunRule(rule: Rule, s: seq<Byte>): (r: Run)
    decreases |s|
    ensures IsSuffix(r.rest, s)
    ensures r.failed <==> Scan(rule, r.rest).Fail?
    ensures !r.failed ==> Scan(rule, r.rest).NeedMore?
  {
    var st := Scan(rule, s);
    if st.Matched? then
      var r := RunRule(rule, st.rest);
      SuffixOfSuffix(s, st.rest, r.rest);
      Run([st.event] + r.events, r.rest, r.failed)
    else
      Run([], s, st.Fail?)
  }

  lemma SuffixOfSuffix(s: seq<Byte>, t: seq<Byte>, u: seq<Byte>)
    requires IsSuffix(t, s) && IsSuffix(u, t)
    ensures IsSuffix(u, s)
  {
  }

  /** Once a rule has matched, or failed, on some input, more input does not change that. */
  lemma ScanExtends(rule: Rule, s: seq<Byte>, t: seq<Byte>)
    ensures Scan(rule, s).Matched? ==>
              Scan(rule, s + t) == Matched(Scan(rule, s).event, Scan(rule, s).rest + t)
    ensures Scan(rule, s).Fail? ==> Scan(rule, s + t).Fail?
  {
    match rule
    case Idle => IdleExtends(s, t);
    case Sample => SampleExtends(s, t);
    case Debug => DebugExtends(s, t);
  }

  lemma IdleExtends(s: seq<Byte>, t: seq<Byte>)
    ensures ScanIdle(s).Matched? ==> ScanIdle(s + t) == Matched(ScanIdle(s).event, ScanIdle(s).rest + t)
    ensures ScanIdle(s).Fail? ==> ScanIdle(s + t).Fail?
  {
    var st := ScanIdle(s);
    if st.Matched? {
      var x := st.event.text;
      assert s + t == x + EOT + (st.rest + t);
      forall k: nat | k < |x|
        ensures !EotAt(s + t, k)
      {
        assert !EotAt(s, k);
        assert k + 3 <= |s|;
        assert (s + t)[k..k + 3] == s[k..k + 3];
      }
      IdleRecognisesResponse(x, st.rest + t);
    } else if st.Fail? {
      assert EotAt(s + t, 0);
    }
  }

  lemma SampleExtends(s: seq<Byte>, t: seq<Byte>)
    ensures ScanSample(s).Matched? ==> ScanSample(s + t) == Matched(ScanSample(s).event, ScanSample(s).rest + t)
    ensures ScanSample(s).Fail? ==> ScanSample(s + t).Fail?
  {
    var st := ScanSample(s);
    if st.Matched? {
      assert s + t == EncodeFrame(st.event.counter, st.event.payload) + (st.rest + t);
      SampleRecognisesFrame(st.event.counter, st.event.payload, st.rest + t);
    } else if st.Fail? {
      assert (s + t)[0] == s[0];
      if FRAME_SIZE <= |s| {
        assert (s + t)[32] == s[32];
      }
    }
  }

  lemma DebugExtends(s: seq<Byte>, t: seq<Byte>)
    ensures ScanDebug(s).Matched? ==> ScanDebug(s + t) == Matched(ScanDebug(s).event, ScanDebug(s).rest + t)
    ensures !ScanDebug(s + t).Fail?
  {
    if ScanDebug(s).Matched? {
      assert (s + t)[1..] == s[1..] + t;
    }
  }

  /**
   * Chunk independence: feeding `a` and then `b` produces the same receiver calls, in the same
   * order, and leaves the same unconsumed input as feeding `a + b` at once.
   */
  lemma {:induction false} ChunkIndependence(rule: Rule, a: seq<Byte>, b: seq<Byte>)
    requires !RunRule(rule, a).failed
    ensures RunRule(rule, a + b) ==
              var ra := RunRule(rule, a);
              var rb := RunRule(rule, ra.rest + b);
              Run(ra.events + rb.events, rb.rest, rb.failed)
    decreases |a|, 1
  {
    if Scan(rule, a).Matched? {
      ChunkAfterMatch(rule, a, b);
    } else {
      RunWaiting(rule, a);
      var r := RunRule(rule, a + b);
      assert [] + r.events == r.events;
    }
  }

  /** The inductive step of `ChunkIndependence`: the first match is made on `a` alone. */
  lemma {:induction false} ChunkAfterMatch(rule: Rule, a: seq<Byte>, b: seq<Byte>)
    requires Scan(rule, a).Matched? && !RunRule(rule, a).failed
    ensures RunRule(rule, a + b) ==
              var ra := RunRule(rule, a);
              var rb := RunRule(rule, ra.rest + b);
              Run(ra.events + rb.events, rb.rest, rb.failed)
    decreases |a|, 0
  {
    var st := Scan(rule, a);
    var e, rest := st.event, st.rest;
    var r := RunRule(rule, rest);
    RunMatched(rule, a);
    var rb := RunRule(rule, r.rest + b);
    ChunkIndependence(rule, rest, b);
    ScanExtends(rule, a, b);
    RunMatched(rule, a + b);
    ConsAssociates(e, r.events, rb.events);
  }

  /** A run that has not failed and cannot match has consumed nothing. */
  lemma RunWaiting(rule: Rule, s: seq<Byte>)
    requires !Scan(rule, s).Matched? && !RunRule(rule, s).failed
    ensures RunRule(rule, s) == Run([], s, false)
  {
  }

  /** One unfolding of the run after a match. */
  lemma RunMatched(rule: Rule, s: seq<Byte>)
    requires Scan(rule, s).Matched?
    ensures var st := Scan(rule, s);
            var r := RunRule(rule, st.rest);
            RunRule(rule, s) == Run([st.event] + r.events, r.rest, r.failed)
  {
  }

  lemma ConsAssociates(e: Event, xs: seq<Event>, ys: seq<Event>)
    ensures [e] + (xs + ys) == ([e] + xs) + ys
  {
  }

  /** A parse error is final: the calls made before it are the same whatever input follows. */
  lemma {:induction false} FailureIsFinal(rule: Rule, a: seq<Byte>, b: seq<Byte>)
    requires RunRule(rule, a).failed
    ensures RunRule(rule, a + b) == Run(RunRule(rule, a).events, RunRule(rule, a).rest + b, true)
    decreases |a|
  {
    ScanExtends(rule, a, b);
    match Scan(rule, a)
    case Matched(e, rest) =>
      FailureIsFinal(rule, rest, b);
      assert Scan(rule, a + b) == Matched(e, rest + b);
    case NeedMore =>
    case Fail =>
  }

  /** A stream of well-formed frames yields one `sampleData` per frame, in order, consuming everything. */
  datatype Frame = Frame(counter: Byte, payload: seq<Byte>)

  ghost predicate WellFormedFrames(fs: seq<Frame>)
  {
    forall i :: 0 <= i < |fs| ==> |fs[i].payload| == PAYLOAD_SIZE
  }

  function EncodeFrames(fs: seq<Frame>): seq<Byte>
    requires WellFormedFrames(fs)
  {
    if fs == [] then [] else EncodeFrame(fs[0].counter, fs[0].payload) + EncodeFrames(fs[1..])
  }

  /** One `sampleData` call per frame, in order. */
  function SampleEvents(fs: seq<Frame>): (evs: seq<Event>)
    ensures |evs| == |fs|
    ensures forall i :: 0 <= i < |fs| ==> evs[i] == SampleData(fs[i].counter, fs[i].payload)
  {
    if fs == [] then [] else [SampleData(fs[0].counter, fs[0].payload)] + SampleEvents(fs[1..])
  }

  lemma {:induction false} SampleStreamInOrder(fs: seq<Frame>)
    requires WellFormedFrames(fs)
    ensures RunRule(Sample, EncodeFrames(fs)) == Run(SampleEvents(fs), [], false)
  {
    if fs != [] {
      var tail := fs[1..];
      assert WellFormedFrames(tail) by {
        assert forall i :: 0 <= i < |tail| ==> tail[i] == fs[i + 1];
      }
      var s, rest := EncodeFrames(fs), EncodeFrames(tail);
      var e := SampleData(fs[0].counter, fs[0].payload);
      assert Scan(Sample, s) == Matched(e, rest) by {
        SampleRecognisesFrame(fs[0].counter, fs[0].payload, rest);
      }
      RunMatched(Sample, s);
      SampleStreamInOrder(tail);
    }
  }

  /** In debug mode every byte yields exactly one `logIncoming`, in order. */
  lemma {:induction false} DebugLogsEveryByte(s: seq<Byte>)
    ensures RunRule(Debug, s) == Run(seq(|s|, i requires 0 <= i < |s| => LogIncoming(s[i])), [], false)
  {
    if s != [] {
      DebugLogsEveryByte(s[1..]);
      var evs := seq(|s|, i requires 0 <= i < |s| => LogIncoming(s[i]));
      var tailEvs := seq(|s[1..]|, i requires 0 <= i < |s[1..]| => LogIncoming(s[1..][i]));
      assert evs == [LogIncoming(s[0])] + tailEvs;
    }
  }

  /** "OpenBCI ready" followed by `$$$` in idle mode yields that one response and nothing else. */
  lemma IdleGreeting()
    ensures var text: seq<Byte> := [79, 112, 101, 110, 66, 67, 73, 32, 114, 101, 97, 100, 121];
            RunRule(Idle, text + EOT) == Run([HandleResponse(text)], [], false)
  {
    var text: seq<Byte> := [79, 112, 101, 110, 66, 67, 73, 32, 114, 101, 97, 100, 121];
    assert forall k: nat :: k < |text| ==> !EotAt(text + EOT + [], k) by {
      forall k: nat | k < |text| ensures !EotAt(text + EOT + [], k) {
        assert (text + EOT + [])[k] == text[k];
      }
    }
    IdleRecognisesResponse(text, []);
    assert text + EOT + [] == text + EOT;
  }
}
