/**
 * What the batching state machine guarantees, line by line and over whole runs.
 */
module BatchingProperties {
  import opened Logger
  import opened Batching

  /** The commands a line adds to the pending list: itself, unless it is a sentinel. */
  function Kept(line: string): seq<string>
  {
    if IsSentinel(line) then [] else [line]
  }

  // ---------------------------------------------------------------- one line

  /**
   * The pending list changes only by the line's own append and a successful
   * flush: a successful attempt writes the old list plus the line and leaves
   * the list empty; otherwise the batch is kept whole and the line appended.
   */
  lemma StepCommands(blockSize: nat, st: State, line: string, now: string, fileOpens: bool)
    ensures var o := Step(blockSize, st, line, now, fileOpens);
      if Succeeded(o.attempt) then
        o.attempt.batch == st.commands + Kept(line) && o.next.commands == []
      else
        o.next.commands == st.commands + Kept(line)
  {
  }

  /** The same, as one equation: what a line writes, followed by what stays pending. */
  lemma StepConserves(blockSize: nat, st: State, line: string, now: string, fileOpens: bool)
    ensures var o := Step(blockSize, st, line, now, fileOpens);
      Batches(Recorded(o.attempt)) + o.next.commands == st.commands + Kept(line)
  {
    var o := Step(blockSize, st, line, now, fileOpens);
    StepCommands(blockSize, st, line, now, fileOpens);
    BatchesRecorded(o.attempt);
  }

  /** An "EOF" line stops reading and changes nothing; no other line stops reading. */
  lemma StepStops(blockSize: nat, st: State, line: string, now: string, fileOpens: bool)
    ensures var o := Step(blockSize, st, line, now, fileOpens);
      o.stop <==> line == Eof
    ensures line == Eof ==> Step(blockSize, st, line, now, fileOpens) == Outcome(st, true, NoAttempt)
  {
  }

  /**
   * The timestamp is taken from the clock exactly when an ordinary line
   * arrives at depth 0 with an empty list; every other line, including every
   * flush, leaves it as it was.
   */
  lemma StepBlockTime(blockSize: nat, st: State, line: string, now: string, fileOpens: bool)
    ensures var o := Step(blockSize, st, line, now, fileOpens);
      var starts := !IsSentinel(line) && st.deep == 0 && st.commands == [];
      (starts ==> o.next.blockTime == now) && (!starts ==> o.next.blockTime == st.blockTime)
  {
  }

  /**
   * An ordinary line at depth 0 attempts a flush exactly when the list,
   * with the line appended, has exactly `blockSize` elements; the attempt
   * carries that list and the batch's timestamp.
   */
  lemma StaticFlushExactlyAtSize(blockSize: nat, st: State, line: string, now: string, fileOpens: bool)
    requires !IsSentinel(line) && st.deep == 0
    ensures var o := Step(blockSize, st, line, now, fileOpens);
      (o.attempt.Attempted? <==> |st.commands| + 1 == blockSize) &&
      (o.attempt.Attempted? ==>
         o.attempt.batch == st.commands + [line] &&
         o.attempt.time == (if st.commands == [] then now else st.blockTime))
  {
  }

  /**
   * "{" raises the depth by one and attempts a flush only when the depth
   * becomes 1; "}" lowers it by one and attempts a flush only when it
   * becomes 0. Neither is stored, and neither touches the timestamp.
   */
  lemma DelimiterStep(blockSize: nat, st: State, line: string, now: string, fileOpens: bool)
    requires line == Open || line == Close
    ensures var o := Step(blockSize, st, line, now, fileOpens);
      o.next.deep == (if line == Open then st.deep + 1 else st.deep - 1) &&
      (o.attempt.Attempted? <==> o.next.deep == (if line == Open then 1 else 0)) &&
      (o.attempt.Attempted? ==> o.attempt.batch == st.commands && o.attempt.time == st.blockTime) &&
      o.next.blockTime == st.blockTime &&
      (!o.attempt.Attempted? ==> o.next == st.(deep := o.next.deep))
  {
  }

  /**
   * Away from depth 0 (inside a dynamic block, or below 0 after a stray "}")
   * an ordinary line is appended with no size check and no flush.
   */
  lemma OffZeroAppends(blockSize: nat, st: State, line: string, now: string, fileOpens: bool)
    requires !IsSentinel(line) && st.deep != 0
    ensures Step(blockSize, st, line, now, fileOpens) ==
      Outcome(st.(commands := st.commands + [line]), false, NoAttempt)
  {
  }

  /** Nothing guards the counter: a "}" at depth 0 drives it to -1, without a flush. */
  lemma StrayCloseGoesNegative(blockSize: nat, st: State, now: string, fileOpens: bool)
    requires st.deep <= 0
    ensures var o := Step(blockSize, st, Close, now, fileOpens);
      o.next.deep < 0 && o.attempt == NoAttempt && o.next.commands == st.commands
  {
  }

  /** The final attempt is made exactly when the list is non-empty and the depth is 0. */
  lemma FinishAttempts(st: State, fileOpens: bool)
    ensures var o := Finish(st, fileOpens);
      (o.attempt.Attempted? <==> st.commands != [] && st.deep == 0) &&
      (o.attempt.Attempted? ==> o.attempt.batch == st.commands && o.attempt.time == st.blockTime) &&
      (!Succeeded(o.attempt) ==> o.next == st) &&
      (Succeeded(o.attempt) ==> o.next == st.(commands := []))
  {
  }

  /** A successful flush never writes an empty batch or uses an empty timestamp. */
  lemma SuccessfulFlushIsNonEmpty(blockSize: nat, st: State, line: string, now: string, fileOpens: bool)
    ensures var a := Step(blockSize, st, line, now, fileOpens).attempt;
      Succeeded(a) ==>
        a.time != "" && a.batch != [] && Log(a.time, a.batch, fileOpens) == EffectOf(a)
    ensures var a := Finish(st, fileOpens).attempt;
      Succeeded(a) ==>
        a.time != "" && a.batch != [] && Log(a.time, a.batch, fileOpens) == EffectOf(a)
  {
  }

  /**
   * Every attempt is one call of the logger on the batch's timestamp and
   * list: it succeeds exactly when the logger writes, and what it wrote is
   * the logger's effect.
   */
  lemma AttemptCallsLogger(blockSize: nat, st: State, line: string, now: string, fileOpens: bool)
    ensures var a := Step(blockSize, st, line, now, fileOpens).attempt;
      a.Attempted? ==> (a.ok <==> Log(a.time, a.batch, fileOpens).Written?) && EffectOf(a) == Log(a.time, a.batch, fileOpens)
    ensures var a := Finish(st, fileOpens).attempt;
      a.Attempted? ==> (a.ok <==> Log(a.time, a.batch, fileOpens).Written?) && EffectOf(a) == Log(a.time, a.batch, fileOpens)
  {
  }

  /**
   * While the logger succeeds on every non-empty batch and no "}" arrives
   * at depth 0, the depth stays non-negative and, at depth 0, fewer than
   * `blockSize` commands are pending between lines. Refused attempts on an
   * empty batch, such as a "{" at depth 0 with nothing pending, are allowed.
   */
  lemma StaticBound(blockSize: nat, st: State, line: string, now: string, fileOpens: bool)
    requires blockSize >= 1
    requires st.deep >= 0 && (st.deep == 0 ==> |st.commands| < blockSize)
    requires !(line == Close && st.deep == 0)
    requires var a := Step(blockSize, st, line, now, fileOpens).attempt; a.Attempted? && a.batch != [] ==> a.ok
    ensures var st' := Step(blockSize, st, line, now, fileOpens).next;
      st'.deep >= 0 && (st'.deep == 0 ==> |st'.commands| < blockSize)
  {
  }

  /**
   * A batch that is non-empty with an empty timestamp (a dynamic block
   * closed before any static line) can never be written: the timestamp
   * stays empty, every attempt is refused and later lines pile onto it.
   */
  lemma StuckBatchStaysStuck(blockSize: nat, st: State, line: string, now: string, fileOpens: bool)
    requires st.blockTime == "" && st.commands != []
    ensures var o := Step(blockSize, st, line, now, fileOpens);
      o.next.blockTime == "" && !Succeeded(o.attempt) &&
      o.next.commands == st.commands + Kept(line)
    ensures !Succeeded(Finish(st, fileOpens).attempt)
  {
  }

  // ---------------------------------------------------------------- helpers

  lemma {:induction false} BatchesAppend(a: seq<Flush>, b: seq<Flush>)
    ensures Batches(a + b) == Batches(a) + Batches(b)
  {
    if a == [] {
      assert a + b == b;
    } else {
      assert (a + b)[1..] == a[1..] + b;
      BatchesAppend(a[1..], b);
    }
  }

  lemma BatchesRecorded(a: Attempt)
    ensures Batches(Recorded(a)) == if Succeeded(a) then a.batch else []
  {
    if Succeeded(a) {
      assert [Flush(a.time, a.batch)][1..] == [];
    }
  }

  lemma Associative<T>(a: seq<T>, b: seq<T>, c: seq<T>)
    ensures (a + b) + c == a + (b + c)
  {
  }

  lemma SeqRegroup<T>(r: seq<T>, w: seq<T>, l: seq<T>, p: seq<T>, o: seq<T>, c: seq<T>, k: seq<T>)
    requires w + l == p + o && r + p == c + k
    ensures (r + w) + l == c + (k + o)
  {
    Associative(r, w, l);
    Associative(r, p, o);
    Associative(c, k, o);
  }

  lemma {:induction false} OutputsAppend(a: seq<Flush>, b: seq<Flush>)
    ensures Outputs(a + b) == Outputs(a) + Outputs(b)
  {
    if a == [] {
      assert a + b == b;
    } else {
      assert (a + b)[1..] == a[1..] + b;
      OutputsAppend(a[1..], b);
    }
  }

  /** The output of a sequence of flushes: one line per flush, in order, each to the flush's own file. */
  lemma {:induction false} OutputsAt(fs: seq<Flush>, k: nat)
    requires k < |fs|
    ensures |Outputs(fs)| == |fs|
    ensures Outputs(fs)[k] == Written(LogFileName(fs[k].time), Render(fs[k].cmds))
    decreases k
  {
    if k == 0 {
      OutputsLength(fs);
    } else {
      OutputsAt(fs[1..], k - 1);
    }
  }

  lemma {:induction false} OutputsLength(fs: seq<Flush>)
    ensures |Outputs(fs)| == |fs|
  {
    if fs != [] {
      OutputsLength(fs[1..]);
    }
  }

  /** A successful attempt adds its effect to the output; any other adds nothing. */
  lemma OutputsRecorded(fs: seq<Flush>, a: Attempt)
    ensures Outputs(fs + Recorded(a)) == Outputs(fs) + (if EffectOf(a).Written? then [EffectOf(a)] else [])
  {
    OutputsAppend(fs, Recorded(a));
    if Succeeded(a) {
      assert [Flush(a.time, a.batch)][1..] == [];
    }
  }

  lemma OrdinaryCons(lines: seq<string>)
    requires lines != []
    ensures Ordinary(lines) == Kept(lines[0]) + Ordinary(lines[1..])
  {
  }

  // ---------------------------------------------------------------- whole runs

  lemma AfterAfter(a: seq<Flush>, b: seq<Flush>, t: Trace)
    ensures After(a, After(b, t)) == After(a + b, t)
  {
    Associative(a, b, t.flushes);
  }

  /** Reading from the start has reached index `i` in state `st`, having made the flushes `fs`. */
  predicate ReadSoFar(blockSize: nat, input: seq<string>, clock: nat -> string, opens: nat -> bool,
                      i: nat, st: State, fs: seq<Flush>)
  {
    i <= |input| &&
    Ingest(blockSize, input, clock, opens, 0, Initial) == After(fs, Ingest(blockSize, input, clock, opens, i, st))
  }

  /** Reading starts at index 0 in the initial state with no flushes made. */
  lemma ReadNothing(blockSize: nat, input: seq<string>, clock: nat -> string, opens: nat -> bool)
    ensures ReadSoFar(blockSize, input, clock, opens, 0, Initial, [])
  {
    var t := Ingest(blockSize, input, clock, opens, 0, Initial);
    assert [] + t.flushes == t.flushes;
  }

  /** A line that does not stop reading moves reading on by one, adding the flush it made. */
  lemma ReadOneLine(blockSize: nat, input: seq<string>, clock: nat -> string, opens: nat -> bool,
                    i: nat, st: State, fs: seq<Flush>)
    requires i < |input| && ReadSoFar(blockSize, input, clock, opens, i, st, fs)
    requires !Step(blockSize, st, input[i], clock(i), opens(i)).stop
    ensures var o := Step(blockSize, st, input[i], clock(i), opens(i));
      ReadSoFar(blockSize, input, clock, opens, i + 1, o.next, fs + Recorded(o.attempt))
  {
    var o := Step(blockSize, st, input[i], clock(i), opens(i));
    AfterAfter(fs, Recorded(o.attempt), Ingest(blockSize, input, clock, opens, i + 1, o.next));
  }

  /** Reading that has stopped at index `i` (the input is used up, or line `i` is "EOF") has reached `st` with the flushes `fs`. */
  lemma ReadStopped(blockSize: nat, input: seq<string>, clock: nat -> string, opens: nat -> bool,
                    i: nat, st: State, fs: seq<Flush>)
    requires ReadSoFar(blockSize, input, clock, opens, i, st, fs)
    requires i == |input| || input[i] == Eof
    ensures Ingest(blockSize, input, clock, opens, 0, Initial) == Trace(st, fs, i)
  {
    if i < |input| {
      StepStops(blockSize, st, input[i], clock(i), opens(i));
    }
    assert Ingest(blockSize, input, clock, opens, i, st) == Trace(st, [], i);
    assert fs + [] == fs;
  }

  /**
   * Once reading has stopped at index `i` in state `st` with the flushes `fs`
   * made (the input is used up, or line `i` is "EOF"), the run ends with the
   * final flush attempt on `st`.
   */
  lemma ReadThenFinish(blockSize: nat, input: seq<string>, clock: nat -> string, opens: nat -> bool,
                       i: nat, st: State, fs: seq<Flush>)
    requires ReadSoFar(blockSize, input, clock, opens, i, st, fs)
    requires i == |input| || input[i] == Eof
    ensures var o := Finish(st, opens(i));
      Process(blockSize, input, clock, opens) == Trace(o.next, fs + Recorded(o.attempt), i)
  {
    ReadStopped(blockSize, input, clock, opens, i, st, fs);
  }

  /** Reading stops at the first "EOF" line, or at the end of the input when there is none. */
  lemma {:induction false} IngestStopsAtEof(blockSize: nat, input: seq<string>, clock: nat -> string,
                                            opens: nat -> bool, i: nat, st: State)
    requires i <= |input|
    ensures var t := Ingest(blockSize, input, clock, opens, i, st);
      (forall j :: i <= j < t.end ==> input[j] != Eof) &&
      (t.end < |input| ==> input[t.end] == Eof)
    decreases |input| - i
  {
    if i < |input| {
      var o := Step(blockSize, st, input[i], clock(i), opens(i));
      StepStops(blockSize, st, input[i], clock(i), opens(i));
      if !o.stop {
        IngestStopsAtEof(blockSize, input, clock, opens, i + 1, o.next);
      }
    }
  }

  /**
   * Every ordinary line read is accounted for exactly once and in input
   * order: the batches written, followed by the list still pending, are the
   * pending list at the start followed by the non-sentinel lines read.
   */
  lemma {:induction false} IngestConservation(blockSize: nat, input: seq<string>, clock: nat -> string,
                                              opens: nat -> bool, i: nat, st: State)
    requires i <= |input|
    ensures var t := Ingest(blockSize, input, clock, opens, i, st);
      Batches(t.flushes) + t.final.commands == st.commands + Ordinary(input[i..t.end])
    decreases |input| - i
  {
    var o := if i < |input| then Step(blockSize, st, input[i], clock(i), opens(i)) else Outcome(st, true, NoAttempt);
    if !o.stop {
      IngestCons(blockSize, input, clock, opens, i, st);
      var rest := Ingest(blockSize, input, clock, opens, i + 1, o.next);
      IngestConservation(blockSize, input, clock, opens, i + 1, o.next);
      StepConserves(blockSize, st, input[i], clock(i), opens(i));
      BatchesAppend(Recorded(o.attempt), rest.flushes);
      SliceCons(input, i, rest.end);
      SeqRegroup(Batches(Recorded(o.attempt)), Batches(rest.flushes), rest.final.commands,
                 o.next.commands, Ordinary(input[i + 1..rest.end]), st.commands, Kept(input[i]));
    } else {
      assert input[i..i] == [] && st.commands + [] == st.commands;
    }
  }

  /** The commands of the lines from `i` to `j`: the first one's, then the rest's. */
  lemma SliceCons(input: seq<string>, i: nat, j: nat)
    requires i < j <= |input|
    ensures Ordinary(input[i..j]) == Kept(input[i]) + Ordinary(input[i + 1..j])
  {
    assert input[i..j][1..] == input[i + 1..j];
    OrdinaryCons(input[i..j]);
  }

  /** The final flush attempt keeps every pending command: either written or still pending. */
  lemma FinishConserves(st: State, fileOpens: bool)
    ensures var o := Finish(st, fileOpens);
      Batches(Recorded(o.attempt)) + o.next.commands == st.commands
  {
    var o := Finish(st, fileOpens);
    FinishAttempts(st, fileOpens);
    BatchesRecorded(o.attempt);
  }

  /** Over a whole run, the written batches and the unflushed rest are exactly the commands before "EOF", in order. */
  lemma ProcessConservation(blockSize: nat, input: seq<string>, clock: nat -> string, opens: nat -> bool)
    ensures var t := Process(blockSize, input, clock, opens);
      Batches(t.flushes) + t.final.commands == Ordinary(input[..t.end])
  {
    var t := Ingest(blockSize, input, clock, opens, 0, Initial);
    IngestConservation(blockSize, input, clock, opens, 0, Initial);
    assert input[0..t.end] == input[..t.end];
    var o := Finish(t.final, opens(t.end));
    FinishConserves(t.final, opens(t.end));
    BatchesAppend(t.flushes, Recorded(o.attempt));
    var written, r, left := Batches(t.flushes), Batches(Recorded(o.attempt)), o.next.commands;
    Associative(written, r, left);
  }

  /** Every flush in `fs` wrote a non-empty batch under a non-empty timestamp. */
  predicate AllNonEmpty(fs: seq<Flush>)
  {
    forall k :: 0 <= k < |fs| ==> fs[k].time != "" && fs[k].cmds != []
  }

  /** No run ever writes an empty batch or writes under an empty timestamp. */
  lemma {:induction false} IngestFlushesNonEmpty(blockSize: nat, input: seq<string>, clock: nat -> string,
                                                 opens: nat -> bool, i: nat, st: State)
    requires i <= |input|
    ensures AllNonEmpty(Ingest(blockSize, input, clock, opens, i, st).flushes)
    decreases |input| - i
  {
    if i < |input| {
      var o := Step(blockSize, st, input[i], clock(i), opens(i));
      if !o.stop {
        IngestFlushesNonEmpty(blockSize, input, clock, opens, i + 1, o.next);
        SuccessfulFlushIsNonEmpty(blockSize, st, input[i], clock(i), opens(i));
        var rest := Ingest(blockSize, input, clock, opens, i + 1, o.next).flushes;
        var fs := Recorded(o.attempt) + rest;
        assert Ingest(blockSize, input, clock, opens, i, st).flushes == fs;
        forall k | 0 <= k < |fs| ensures fs[k].time != "" && fs[k].cmds != [] {
          if k >= |Recorded(o.attempt)| {
            assert fs[k] == rest[k - |Recorded(o.attempt)|];
          } else {
            assert Succeeded(o.attempt) && fs[k] == Flush(o.attempt.time, o.attempt.batch);
          }
        }
      }
    }
  }

  /** The same holds of the whole run, the final flush included. */
  lemma ProcessFlushesNonEmpty(blockSize: nat, input: seq<string>, clock: nat -> string, opens: nat -> bool)
    ensures AllNonEmpty(Process(blockSize, input, clock, opens).flushes)
  {
    var t := Ingest(blockSize, input, clock, opens, 0, Initial);
    IngestFlushesNonEmpty(blockSize, input, clock, opens, 0, Initial);
    var o := Finish(t.final, opens(t.end));
    SuccessfulFlushIsNonEmpty(0, t.final, "", "", opens(t.end));
    var fs := t.flushes + Recorded(o.attempt);
    forall k | 0 <= k < |fs| ensures fs[k].time != "" && fs[k].cmds != [] {
      if k < |t.flushes| {
        assert fs[k] == t.flushes[k];
      }
    }
  }

  /**
   * Ingestion can be split at any index reached before "EOF": reading the
   * first part, then the rest from the state it reached, is reading it all.
   */
  lemma {:induction false} IngestSplit(blockSize: nat, input: seq<string>, clock: nat -> string,
                                       opens: nat -> bool, i: nat, k: nat, st: State)
    requires i <= k <= |input|
    requires forall j :: i <= j < k ==> input[j] != Eof
    ensures var t1 := Ingest(blockSize, input[..k], clock, opens, i, st);
      var t2 := Ingest(blockSize, input, clock, opens, k, t1.final);
      t1.end == k &&
      Ingest(blockSize, input, clock, opens, i, st) == Trace(t2.final, t1.flushes + t2.flushes, t2.end)
    decreases k - i
  {
    if i < k {
      var o := Step(blockSize, st, input[i], clock(i), opens(i));
      assert input[..k][i] == input[i];
      assert !o.stop;
      IngestSplit(blockSize, input, clock, opens, i + 1, k, o.next);
      var t1' := Ingest(blockSize, input[..k], clock, opens, i + 1, o.next);
      var t2 := Ingest(blockSize, input, clock, opens, k, t1'.final);
      Associative(Recorded(o.attempt), t1'.flushes, t2.flushes);
    }
  }

  /** Every flush in `fs` wrote exactly `n` commands. */
  predicate AllOfSize(fs: seq<Flush>, n: nat)
  {
    forall k :: 0 <= k < |fs| ==> |fs[k].cmds| == n
  }

  /** The state static mode keeps between lines while the logger succeeds. */
  predicate StaticInvariant(blockSize: nat, st: State)
  {
    st.deep == 0 && |st.commands| < blockSize && (st.commands != [] ==> st.blockTime != "")
  }

  /**
   * One ordinary line in static mode, with a clock reading and a file that
   * opens: either the batch is now full and is written whole, or the line is
   * appended; the invariant is kept.
   */
  lemma StaticStep(blockSize: nat, st: State, line: string, now: string, fileOpens: bool)
    requires !IsSentinel(line) && now != "" && fileOpens
    requires StaticInvariant(blockSize, st)
    ensures var o := Step(blockSize, st, line, now, fileOpens);
      !o.stop && StaticInvariant(blockSize, o.next) &&
      if |st.commands| + 1 == blockSize then
        Succeeded(o.attempt) && o.attempt.batch == st.commands + [line] && o.next.commands == []
      else
        o.attempt == NoAttempt && o.next.commands == st.commands + [line]
  {
  }

  /**
   * Static mode with the logger always succeeding and a clock that always
   * reads something: the lines are cut into batches of exactly `blockSize`
   * and what is left pending is the remainder.
   */
  lemma {:induction false} StaticRun(blockSize: nat, input: seq<string>, clock: nat -> string,
                                     opens: nat -> bool, i: nat, st: State)
    requires i <= |input|
    requires forall j :: i <= j < |input| ==> !IsSentinel(input[j])
    requires forall j :: clock(j) != ""
    requires forall j :: opens(j)
    requires StaticInvariant(blockSize, st)
    ensures var t := Ingest(blockSize, input, clock, opens, i, st);
      t.end == |input| && StaticInvariant(blockSize, t.final) &&
      |t.flushes| * blockSize + |t.final.commands| == |st.commands| + (|input| - i) &&
      AllOfSize(t.flushes, blockSize)
    decreases |input| - i
  {
    if i < |input| {
      var o := Step(blockSize, st, input[i], clock(i), opens(i));
      assert !IsSentinel(input[i]) && clock(i) != "" && opens(i);
      StaticStep(blockSize, st, input[i], clock(i), opens(i));
      StaticRun(blockSize, input, clock, opens, i + 1, o.next);
      IngestCons(blockSize, input, clock, opens, i, st);
      var rest := Ingest(blockSize, input, clock, opens, i + 1, o.next);
      AllOfSizeAppend(Recorded(o.attempt), rest.flushes, blockSize);
      OneMoreBatch(|rest.flushes|, blockSize);
    }
  }

  /** A line that does not stop reading: its flush comes first, then those of the lines after it. */
  lemma IngestCons(blockSize: nat, input: seq<string>, clock: nat -> string, opens: nat -> bool, i: nat, st: State)
    requires i < |input| && !Step(blockSize, st, input[i], clock(i), opens(i)).stop
    ensures var o := Step(blockSize, st, input[i], clock(i), opens(i));
      Ingest(blockSize, input, clock, opens, i, st) == After(Recorded(o.attempt), Ingest(blockSize, input, clock, opens, i + 1, o.next))
  {
  }

  lemma AllOfSizeAppend(a: seq<Flush>, b: seq<Flush>, n: nat)
    requires AllOfSize(a, n) && AllOfSize(b, n)
    ensures AllOfSize(a + b, n) && |a + b| == |a| + |b|
  {
    forall k | 0 <= k < |a + b| ensures |(a + b)[k].cmds| == n {
      if k >= |a| { assert (a + b)[k] == b[k - |a|]; }
    }
  }

  lemma OneMoreBatch(q: nat, b: nat)
    ensures (q + 1) * b == q * b + b
  {
  }

  lemma Quotient(n: nat, b: nat, q: nat, r: nat)
    requires b >= 1 && q * b + r == n && r < b
    ensures q == n / b && r == n % b
  {
    var q0, r0 := n / b, n % b;
    assert q0 * b + r0 == n;
    if q > q0 {
      assert (q - q0) * b == r0 - r;
      AtLeastOnce(q - q0, b);
    } else if q < q0 {
      assert (q0 - q) * b == r - r0;
      AtLeastOnce(q0 - q, b);
    }
  }

  lemma {:induction false} AtLeastOnce(k: nat, b: nat)
    requires k >= 1
    ensures k * b >= b
  {
    if k > 1 {
      AtLeastOnce(k - 1, b);
      assert k * b == (k - 1) * b + b;
    }
  }

  /**
   * From the start, `n` ordinary lines under a logger that always succeeds
   * give `n / blockSize` flushes while reading and one more at the end
   * exactly when `n % blockSize` lines are left over; every batch but the
   * last then holds `blockSize` commands.
   */
  lemma StaticCounts(blockSize: nat, input: seq<string>, clock: nat -> string, opens: nat -> bool)
    requires blockSize >= 1
    requires forall j :: 0 <= j < |input| ==> !IsSentinel(input[j])
    requires forall j :: clock(j) != ""
    requires forall j :: opens(j)
    ensures var t := Ingest(blockSize, input, clock, opens, 0, Initial);
      |t.flushes| == |input| / blockSize && |t.final.commands| == |input| % blockSize &&
      AllOfSize(t.flushes, blockSize)
    ensures var p := Process(blockSize, input, clock, opens);
      |p.flushes| == |input| / blockSize + (if |input| % blockSize == 0 then 0 else 1) &&
      p.final.commands == []
  {
    StaticRun(blockSize, input, clock, opens, 0, Initial);
    var t := Ingest(blockSize, input, clock, opens, 0, Initial);
    Quotient(|input|, blockSize, |t.flushes|, |t.final.commands|);
    assert opens(t.end);
  }

  /** The change of depth one line makes. */
  function Delta(line: string): int
  {
    match Kind(line)
    case OpenBlock => 1
    case CloseBlock => -1
    case _ => 0
  }

  /** The net change of depth a sequence of lines makes. */
  function Balance(lines: seq<string>): int
  {
    if lines == [] then 0 else Delta(lines[0]) + Balance(lines[1..])
  }

  /** One line that keeps the depth at 1 or more, read inside a dynamic block. */
  lemma DynamicStep(blockSize: nat, st: State, line: string, now: string, fileOpens: bool)
    requires st.deep >= 1 && line != Eof && st.deep + Delta(line) >= 1
    ensures Step(blockSize, st, line, now, fileOpens) ==
      Outcome(st.(deep := st.deep + Delta(line), commands := st.commands + Kept(line)), false, NoAttempt)
  {
  }

  /** Reading `lines` from depth `d` meets no "EOF" and leaves the depth at 1 or more after every line. */
  predicate NeverCloses(lines: seq<string>, d: int)
    decreases |lines|
  {
    lines == [] ||
    (lines[0] != Eof && d + Delta(lines[0]) >= 1 && NeverCloses(lines[1..], d + Delta(lines[0])))
  }

  /** A block that never closes holds no "EOF" line. */
  lemma {:induction false} NeverClosesNoEof(lines: seq<string>, d: int)
    requires NeverCloses(lines, d)
    ensures forall j :: 0 <= j < |lines| ==> lines[j] != Eof
    decreases |lines|
  {
    if lines != [] {
      NeverClosesNoEof(lines[1..], d + Delta(lines[0]));
      forall j | 1 <= j < |lines| ensures lines[j] != Eof {
        assert lines[j] == lines[1..][j - 1];
      }
    }
  }

  /** Reading one line inside a dynamic block just moves on to the next index, with the line accounted for. */
  lemma DynamicLine(blockSize: nat, input: seq<string>, clock: nat -> string, opens: nat -> bool, i: nat, st: State)
    requires i < |input| && st.deep >= 1 && input[i] != Eof && st.deep + Delta(input[i]) >= 1
    ensures Ingest(blockSize, input, clock, opens, i, st) ==
      Ingest(blockSize, input, clock, opens, i + 1,
             st.(deep := st.deep + Delta(input[i]), commands := st.commands + Kept(input[i])))
  {
    DynamicStep(blockSize, st, input[i], clock(i), opens(i));
  }

  /** The lines from `i` on: the first one, then the rest. */
  lemma SuffixCons(input: seq<string>, i: nat, d: int)
    requires i < |input|
    ensures Balance(input[i..]) == Delta(input[i]) + Balance(input[i + 1..])
    ensures Ordinary(input[i..]) == Kept(input[i]) + Ordinary(input[i + 1..])
    ensures NeverCloses(input[i..], d) <==>
      input[i] != Eof && d + Delta(input[i]) >= 1 && NeverCloses(input[i + 1..], d + Delta(input[i]))
  {
    assert input[i..][0] == input[i];
    assert input[i..][1..] == input[i + 1..];
    OrdinaryCons(input[i..]);
  }

  /**
   * Inside a dynamic block, as long as the depth stays at 1 or more after
   * every line, nothing is flushed or even attempted: delimiters only move
   * the counter and every ordinary line is appended.
   */
  lemma {:induction false} InsideDynamic(blockSize: nat, input: seq<string>, clock: nat -> string,
                                         opens: nat -> bool, i: nat, st: State)
    requires i <= |input| && st.deep >= 1
    requires NeverCloses(input[i..], st.deep)
    ensures Ingest(blockSize, input, clock, opens, i, st) ==
      Trace(st.(deep := st.deep + Balance(input[i..]), commands := st.commands + Ordinary(input[i..])), [], |input|)
    decreases |input| - i
  {
    if i == |input| {
      assert input[i..] == [];
      assert st.(deep := st.deep + 0, commands := st.commands + []) == st;
    } else {
      SuffixCons(input, i, st.deep);
      DynamicLine(blockSize, input, clock, opens, i, st);
      var next := st.(deep := st.deep + Delta(input[i]), commands := st.commands + Kept(input[i]));
      InsideDynamic(blockSize, input, clock, opens, i + 1, next);
      Associative(st.commands, Kept(input[i]), Ordinary(input[i + 1..]));
    }
  }

  /**
   * "{" read at depth 0 with nothing pending, then a body that never takes the
   * depth back to 0: the attempt at "{" is refused for the empty list, and the
   * body's commands are all appended.
   */
  lemma OpenedBlock(blockSize: nat, body: seq<string>, clock: nat -> string, opens: nat -> bool, st: State)
    requires st.deep == 0 && st.commands == []
    requires NeverCloses(body, 1)
    ensures Ingest(blockSize, [Open] + body, clock, opens, 0, st) ==
      Trace(st.(deep := 1 + Balance(body), commands := Ordinary(body)), [], |body| + 1)
  {
    var head := [Open] + body;
    assert head[0] == Open && head[1..] == body;
    var inBlock := st.(deep := 1);
    assert Step(blockSize, st, Open, clock(0), opens(0)) ==
      Outcome(inBlock, false, Attempted(st.blockTime, [], false));
    InsideDynamic(blockSize, head, clock, opens, 1, inBlock);
  }

  /**
   * A dynamic block "{" body "}" read at depth 0 with nothing pending, whose
   * body never closes the block early: exactly one batch is written, at the
   * closing "}", holding the body's commands in order, under the timestamp
   * left over from the last static batch; nested delimiters flush nothing.
   */
  lemma DynamicBlock(blockSize: nat, body: seq<string>, clock: nat -> string, opens: nat -> bool, st: State)
    requires st.deep == 0 && st.commands == [] && st.blockTime != ""
    requires NeverCloses(body, 1) && Balance(body) == 0 && Ordinary(body) != []
    requires opens(|body| + 1)
    ensures var input := [Open] + body + [Close];
      Ingest(blockSize, input, clock, opens, 0, st) ==
        Trace(st, [Flush(st.blockTime, Ordinary(body))], |input|)
  {
    var input := [Open] + body + [Close];
    var k := |body| + 1;
    BlockLines(body);
    OpenedBlock(blockSize, body, clock, opens, st);
    var inside := Ingest(blockSize, input[..k], clock, opens, 0, st);
    assert inside == Trace(st.(deep := 1, commands := Ordinary(body)), [], k);
    IngestSplit(blockSize, input, clock, opens, 0, k, st);
    ClosingLine(blockSize, input, clock, opens, st, Ordinary(body));
    assert [] + [Flush(st.blockTime, Ordinary(body))] == [Flush(st.blockTime, Ordinary(body))];
  }

  /** The lines of a block "{" body "}": the prefix without the "}", the "}" itself, and no "EOF" before it. */
  lemma BlockLines(body: seq<string>)
    requires NeverCloses(body, 1)
    ensures var input := [Open] + body + [Close];
      |input| == |body| + 2 && input[..|body| + 1] == [Open] + body && input[|body| + 1] == Close &&
      forall j :: 0 <= j < |body| + 1 ==> input[j] != Eof
  {
    var input := [Open] + body + [Close];
    NeverClosesNoEof(body, 1);
    assert input[..|body| + 1] == [Open] + body;
    forall j | 0 <= j < |body| + 1 ensures input[j] != Eof {
      if j > 0 { assert input[j] == body[j - 1]; }
    }
  }

  /** The closing "}" as the last line, read at depth 1 with a non-empty batch: it writes the batch. */
  lemma ClosingLine(blockSize: nat, input: seq<string>, clock: nat -> string, opens: nat -> bool,
                    st: State, batch: seq<string>)
    requires |input| >= 1 && input[|input| - 1] == Close
    requires st.deep == 0 && st.commands == [] && st.blockTime != ""
    requires batch != [] && opens(|input| - 1)
    ensures Ingest(blockSize, input, clock, opens, |input| - 1, st.(deep := 1, commands := batch)) ==
      Trace(st, [Flush(st.blockTime, batch)], |input|)
  {
    var k := |input| - 1;
    var mid := st.(deep := 1, commands := batch);
    assert Step(blockSize, mid, Close, clock(k), opens(k)) ==
      Outcome(st, false, Attempted(st.blockTime, batch, true));
    assert Ingest(blockSize, input, clock, opens, k + 1, st) == Trace(st, [], k + 1);
  }

  // ---------------------------------------------------------------- worked runs

  /** One line of a run: the line's outcome and the trace from the next index on give the trace from this one. */
  lemma IngestLink(blockSize: nat, input: seq<string>, clock: nat -> string, opens: nat -> bool,
                   i: nat, st: State, o: Outcome, rest: Trace)
    requires i < |input|
    requires Step(blockSize, st, input[i], clock(i), opens(i)) == o && !o.stop
    requires Ingest(blockSize, input, clock, opens, i + 1, o.next) == rest
    ensures Ingest(blockSize, input, clock, opens, i, st) ==
      Trace(rest.final, Recorded(o.attempt) + rest.flushes, rest.end)
  {
  }

  /**
   * At block size 2, three ordinary lines x y z: [x, y] is written when y
   * arrives, under the clock reading of x's line, and [z] at the end, under
   * the reading of z's line.
   */
  lemma StaticRemainder(x: string, y: string, z: string, clock: nat -> string, opens: nat -> bool)
    requires !IsSentinel(x) && !IsSentinel(y) && !IsSentinel(z)
    requires clock(0) != "" && clock(2) != "" && opens(1) && opens(3)
    ensures Ingest(2, [x, y, z], clock, opens, 0, Initial) ==
      Trace(State(0, [z], clock(2)), [Flush(clock(0), [x, y])], 3)
    ensures Process(2, [x, y, z], clock, opens).flushes == [Flush(clock(0), [x, y]), Flush(clock(2), [z])]
  {
    StaticRemainderRead([x, y, z], clock, opens);
    assert Finish(State(0, [z], clock(2)), opens(3)).attempt == Attempted(clock(2), [z], true);
  }

  /** The reading part of `StaticRemainder`: only [x, y] is written, and [z] stays pending. */
  lemma StaticRemainderRead(input: seq<string>, clock: nat -> string, opens: nat -> bool)
    requires |input| == 3 && !IsSentinel(input[0]) && !IsSentinel(input[1]) && !IsSentinel(input[2])
    requires clock(0) != "" && opens(1)
    ensures Ingest(2, input, clock, opens, 0, Initial) ==
      Trace(State(0, [input[2]], clock(2)), [Flush(clock(0), [input[0], input[1]])], 3)
  {
    var s1 := State(0, [input[0]], clock(0));
    var t1 := Trace(State(0, [input[2]], clock(2)), [Flush(clock(0), [input[0], input[1]])], 3);
    StaticRemainderTail(input, clock, opens);
    assert Step(2, Initial, input[0], clock(0), opens(0)) == Outcome(s1, false, NoAttempt);
    IngestLink(2, input, clock, opens, 0, Initial, Outcome(s1, false, NoAttempt), t1);
  }

  /** The lines y z of `StaticRemainder`, read with [x] pending. */
  lemma StaticRemainderTail(input: seq<string>, clock: nat -> string, opens: nat -> bool)
    requires |input| == 3 && !IsSentinel(input[1]) && !IsSentinel(input[2])
    requires clock(0) != "" && opens(1)
    ensures Ingest(2, input, clock, opens, 1, State(0, [input[0]], clock(0))) ==
      Trace(State(0, [input[2]], clock(2)), [Flush(clock(0), [input[0], input[1]])], 3)
  {
    var x, y, z := input[0], input[1], input[2];
    var s1, s2, s3 := State(0, [x], clock(0)), State(0, [], clock(0)), State(0, [z], clock(2));
    var end := Trace(s3, [], 3);
    assert Ingest(2, input, clock, opens, 3, s3) == end;
    IngestLink(2, input, clock, opens, 2, s2, Outcome(s3, false, NoAttempt), end);
    assert [x] + [y] == [x, y];
    IngestLink(2, input, clock, opens, 1, s1, Outcome(s2, false, Attempted(clock(0), [x, y], true)), end);
  }

  /** The block "{" z "}" of a mixed run and the line w after it, entered with [x, y] pending. */
  lemma MixedBlock(blockSize: nat, input: seq<string>, clock: nat -> string, opens: nat -> bool)
    requires blockSize != 1 && |input| == 6 && input[2] == Open && input[4] == Close
    requires !IsSentinel(input[3]) && !IsSentinel(input[5])
    requires clock(0) != "" && opens(2) && opens(4)
    ensures var pending := [input[0], input[1]];
      Ingest(blockSize, input, clock, opens, 2, State(0, pending, clock(0))) ==
        Trace(State(0, [input[5]], clock(5)), [Flush(clock(0), pending), Flush(clock(0), [input[3]])], 6)
  {
    var pending, z, w := [input[0], input[1]], input[3], input[5];
    var s2, s3, s4 := State(0, pending, clock(0)), State(1, [], clock(0)), State(1, [z], clock(0));
    var s5, s6 := State(0, [], clock(0)), State(0, [w], clock(5));
    var end := Trace(s6, [], 6);
    assert Ingest(blockSize, input, clock, opens, 6, s6) == end;
    IngestLink(blockSize, input, clock, opens, 5, s5, Outcome(s6, false, NoAttempt), end);
    IngestLink(blockSize, input, clock, opens, 4, s4, Outcome(s5, false, Attempted(clock(0), [z], true)), end);
    var t4 := Trace(s6, [Flush(clock(0), [z])], 6);
    IngestLink(blockSize, input, clock, opens, 3, s3, Outcome(s4, false, NoAttempt), t4);
    IngestLink(blockSize, input, clock, opens, 2, s2, Outcome(s3, false, Attempted(clock(0), pending, true)), t4);
  }

  /**
   * A mixed run x y "{" z "}" w with a block size that never fills: [x, y]
   * is written at "{" and [z] at "}", both under the reading of x's line
   * (the block reuses it), and [w] at the end under the reading of w's line.
   */
  lemma MixedRun(blockSize: nat, x: string, y: string, z: string, w: string, clock: nat -> string, opens: nat -> bool)
    requires blockSize != 1 && blockSize != 2
    requires !IsSentinel(x) && !IsSentinel(y) && !IsSentinel(z) && !IsSentinel(w)
    requires clock(0) != "" && clock(5) != "" && opens(2) && opens(4) && opens(6)
    ensures Ingest(blockSize, [x, y, Open, z, Close, w], clock, opens, 0, Initial) ==
      Trace(State(0, [w], clock(5)), [Flush(clock(0), [x, y]), Flush(clock(0), [z])], 6)
    ensures Process(blockSize, [x, y, Open, z, Close, w], clock, opens).flushes ==
      [Flush(clock(0), [x, y]), Flush(clock(0), [z]), Flush(clock(5), [w])]
  {
    var input := [x, y, Open, z, Close, w];
    MixedBlock(blockSize, input, clock, opens);
    var s1, s2, s6 := State(0, [x], clock(0)), State(0, [x, y], clock(0)), State(0, [w], clock(5));
    var t2 := Trace(s6, [Flush(clock(0), [x, y]), Flush(clock(0), [z])], 6);
    assert [x] + [y] == [x, y];
    IngestLink(blockSize, input, clock, opens, 1, s1, Outcome(s2, false, NoAttempt), t2);
    IngestLink(blockSize, input, clock, opens, 0, Initial, Outcome(s1, false, NoAttempt), t2);
    assert Finish(s6, opens(6)).attempt == Attempted(clock(5), [w], true);
  }

  /** Input that is empty or starts with "EOF" writes nothing. */
  lemma EmptyInput(blockSize: nat, rest: seq<string>, clock: nat -> string, opens: nat -> bool)
    ensures Process(blockSize, [], clock, opens).flushes == []
    ensures Process(blockSize, [Eof] + rest, clock, opens).flushes == []
  {
  }

  /**
   * A dynamic block read before any static line is never written: at its
   * "}" the timestamp is still empty, the logger refuses, and the later
   * static line x joins the stuck batch, whatever the clock and the files do.
   */
  lemma StuckBlock(blockSize: nat, z: string, x: string, clock: nat -> string, opens: nat -> bool)
    requires !IsSentinel(z) && !IsSentinel(x)
    ensures var p := Process(blockSize, [Open, z, Close, x], clock, opens);
      p.flushes == [] && p.final.commands == [z, x] && p.final.blockTime == ""
  {
    var input := [Open, z, Close, x];
    var s1, s2, s3, s4 := State(1, [], ""), State(1, [z], ""), State(0, [z], ""), State(0, [z, x], "");
    var end := Trace(s4, [], 4);
    assert Ingest(blockSize, input, clock, opens, 4, s4) == end;
    assert [z] + [x] == [z, x];
    // at block size 2 the size check fires on [z, x], and the logger refuses the empty timestamp
    var last := if blockSize == 2 then Attempted("", [z, x], false) else NoAttempt;
    IngestLink(blockSize, input, clock, opens, 3, s3, Outcome(s4, false, last), end);
    IngestLink(blockSize, input, clock, opens, 2, s2, Outcome(s3, false, Attempted("", [z], false)), end);
    IngestLink(blockSize, input, clock, opens, 1, s1, Outcome(s2, false, NoAttempt), end);
    IngestLink(blockSize, input, clock, opens, 0, Initial, Outcome(s1, false, Attempted("", [], false)), end);
  }

  /**
   * The other way into a stuck batch: a stray "}", an ordinary line z at
   * depth -1, then a "{" that returns to depth 0 without a flush. Before any
   * static line this leaves [z] pending at depth 0 with an empty timestamp.
   */
  lemma StrayCloseStuck(blockSize: nat, z: string, clock: nat -> string, opens: nat -> bool)
    requires !IsSentinel(z)
    ensures Ingest(blockSize, [Close, z, Open], clock, opens, 0, Initial) == Trace(State(0, [z], ""), [], 3)
  {
    var input := [Close, z, Open];
    var s1, s2, s3 := State(-1, [], ""), State(-1, [z], ""), State(0, [z], "");
    var end := Trace(s3, [], 3);
    assert Ingest(blockSize, input, clock, opens, 3, s3) == end;
    IngestLink(blockSize, input, clock, opens, 2, s2, Outcome(s3, false, NoAttempt), end);
    IngestLink(blockSize, input, clock, opens, 1, s1, Outcome(s2, false, NoAttempt), end);
    IngestLink(blockSize, input, clock, opens, 0, Initial, Outcome(s1, false, NoAttempt), end);
  }
}
