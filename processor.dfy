/**
 * The bulk command processor as the source runs it: one object whose fields
 * are updated in place line by line, and the read loop that drives it. Each
 * method is proved to do what the corresponding function of `Batching` says.
 */
module Processor {
  import opened Logger
  import opened Batching
  import BatchingProperties

  class BulkProcessor {
    /** Static batch size; 0 means a batch is never flushed for its size. */
    const blockSize: nat
    /** Nesting counter of "{" ... "}"; a stray "}" takes it below 0. */
    var deep: int
    /** The pending batch, in arrival order. */
    var commands: seq<string>
    /** The timestamp of the current static batch; never reset by a flush. */
    var blockTime: string
    /** Every successful flush so far, in order: what was written, under which timestamp. */
    ghost var flushes: seq<Flush>

    /** The fields as a value of the state machine. */
    function Snapshot(): State
      reads this
    {
      State(deep, commands, blockTime)
    }

    constructor (blockSize: nat)
      ensures this.blockSize == blockSize
      ensures Snapshot() == Initial && flushes == []
    {
      this.blockSize := blockSize;
      deep := 0;
      commands := [];
      blockTime := "";
      flushes := [];
    }

    /** Hands the batch to the logger and clears it only if the logger succeeded. */
    method TryFlush(fileOpens: bool) returns (attempt: Attempt, effect: LogEffect)
      modifies this
      ensures var o := Flushing(old(Snapshot()), fileOpens);
        Snapshot() == o.next && attempt == o.attempt
      ensures effect == EffectOf(attempt)
      ensures flushes == old(flushes) + Recorded(attempt)
    {
      var ok;
      ok, effect := WriteLog(blockTime, commands, fileOpens);
      attempt := Attempted(blockTime, commands, ok);
      if ok {
        flushes := flushes + [Flush(blockTime, commands)];
        commands := [];
      }
    }

    /**
     * Processes one input line. `now` is the clock reading used if the line
     * starts a static batch; `fileOpens` decides a flush attempted by it.
     */
    method Accept(line: string, now: string, fileOpens: bool) returns (stop: bool, attempt: Attempt, effect: LogEffect)
      modifies this
      ensures var o := Step(blockSize, old(Snapshot()), line, now, fileOpens);
        Snapshot() == o.next && stop == o.stop && attempt == o.attempt
      ensures effect == EffectOf(attempt)
      ensures flushes == old(flushes) + Recorded(attempt)
    {
      stop, attempt, effect := false, NoAttempt, Refused;
      if line == Open {
        deep := deep + 1;
        if deep == 1 {
          attempt, effect := TryFlush(fileOpens);
        }
      } else if line == Close {
        deep := deep - 1;
        if deep == 0 {
          attempt, effect := TryFlush(fileOpens);
        }
      } else if line == Eof {
        stop := true;
      } else if deep == 0 {
        if commands == [] {
          blockTime := now;
        }
        commands := commands + [line];
        if |commands| == blockSize {
          attempt, effect := TryFlush(fileOpens);
        }
      } else {
        commands := commands + [line];
      }
    }

    /** After the last line: flushes what is pending, but only at depth 0. */
    method Finalize(fileOpens: bool) returns (attempt: Attempt, effect: LogEffect)
      modifies this
      ensures var o := Finish(old(Snapshot()), fileOpens);
        Snapshot() == o.next && attempt == o.attempt
      ensures effect == EffectOf(attempt)
      ensures flushes == old(flushes) + Recorded(attempt)
    {
      attempt, effect := NoAttempt, Refused;
      if commands != [] && deep == 0 {
        attempt, effect := TryFlush(fileOpens);
      }
    }
  }

  /**
   * The read loop: feeds the lines of `input` to `processor` until an "EOF"
   * line or the end of the input. Line `j` sees the clock reading `clock(j)`
   * and the file oracle `opens(j)`. Returns the index reading stopped at.
   */
  method ReadLines(processor: BulkProcessor, input: seq<string>, clock: nat -> string, opens: nat -> bool)
    returns (i: nat, written: seq<Flush>, output: seq<LogEffect>)
    requires processor.Snapshot() == Initial && processor.flushes == []
    modifies processor
    ensures BatchingProperties.ReadSoFar(processor.blockSize, input, clock, opens, i, processor.Snapshot(), written)
    ensures i == |input| || input[i] == Eof
    ensures Ingest(processor.blockSize, input, clock, opens, 0, Initial) == Trace(processor.Snapshot(), written, i)
    ensures written == processor.flushes && output == Outputs(written)
  {
    var blockSize := processor.blockSize;
    written, output := [], [];
    i := 0;
    BatchingProperties.ReadNothing(blockSize, input, clock, opens);
    while i < |input|
      invariant written == processor.flushes
      invariant output == Outputs(written)
      invariant BatchingProperties.ReadSoFar(blockSize, input, clock, opens, i, processor.Snapshot(), written)
      decreases |input| - i
    {
      ghost var before := processor.Snapshot();
      BatchingProperties.StepStops(blockSize, before, input[i], clock(i), opens(i));
      var stop, attempt, effect := processor.Accept(input[i], clock(i), opens(i));
      if stop {
        BatchingProperties.ReadStopped(blockSize, input, clock, opens, i, processor.Snapshot(), written);
        return;
      }
      BatchingProperties.ReadOneLine(blockSize, input, clock, opens, i, before, written);
      BatchingProperties.OutputsRecorded(written, attempt);
      if effect.Written? {
        output := output + [effect];
      }
      written := written + Recorded(attempt);
      i := i + 1;
    }
    BatchingProperties.ReadStopped(blockSize, input, clock, opens, i, processor.Snapshot(), written);
  }

  /**
   * The whole run: reads `input` as `ReadLines` does, then makes the final
   * flush with the file oracle of the index reading stopped at. Returns the
   * successful flushes in the order they were made, and what each wrote to
   * standard output and to its log file.
   */
  method ProcessCommands(blockSize: nat, input: seq<string>, clock: nat -> string, opens: nat -> bool)
    returns (written: seq<Flush>, output: seq<LogEffect>)
    ensures written == Process(blockSize, input, clock, opens).flushes
    ensures output == Outputs(written)
    ensures var p := Process(blockSize, input, clock, opens);
      Batches(written) + p.final.commands == Ordinary(input[..p.end])
    ensures BatchingProperties.AllNonEmpty(written)
  {
    var processor := new BulkProcessor(blockSize);
    var i;
    i, written, output := ReadLines(processor, input, clock, opens);
    BatchingProperties.ReadThenFinish(blockSize, input, clock, opens, i, processor.Snapshot(), written);
    var attempt, effect := processor.Finalize(opens(i));
    BatchingProperties.OutputsRecorded(written, attempt);
    if effect.Written? {
      output := output + [effect];
    }
    written := written + Recorded(attempt);
    BatchingProperties.ProcessConservation(blockSize, input, clock, opens);
    BatchingProperties.ProcessFlushesNonEmpty(blockSize, input, clock, opens);
  }
}
