/**
 * The block-batching state machine of the bulk command processor, as values.
 *
 * The processor keeps a signed nesting counter `deep`, the pending command
 * list `commands` and the batch timestamp `blockTime`. Each input line is one
 * `Step`; after the input ends, `Finish` makes the last flush attempt. A flush
 * attempt calls the logger with the current timestamp and list, and the list
 * is cleared only when the logger reports success.
 */
module Batching {
  import opened Logger

  const Open: string := "{"
  const Close: string := "}"
  const Eof: string := "EOF"

  /** How the processor reads a line: one of the three sentinels, or a command. */
  datatype LineKind = OpenBlock | CloseBlock | EndOfInput | Command

  function Kind(line: string): LineKind
  {
    if line == Open then OpenBlock
    else if line == Close then CloseBlock
    else if line == Eof then EndOfInput
    else Command
  }

  predicate IsSentinel(line: string)
  {
    Kind(line) != Command
  }

  datatype State = State(deep: int, commands: seq<string>, blockTime: string)

  /** The state before the first line: depth 0, no commands, an empty timestamp. */
  const Initial: State := State(0, [], "")

  /** A call of the logger: the timestamp and list it was given, and whether it reported success. */
  datatype Attempt = NoAttempt | Attempted(time: string, batch: seq<string>, ok: bool)

  predicate Succeeded(a: Attempt)
  {
    a.Attempted? && a.ok
  }

  /** What an attempt wrote: the logger's effect for a successful one, nothing otherwise. */
  function EffectOf(a: Attempt): LogEffect
  {
    if Succeeded(a) then Writes(a.time, a.batch) else Refused
  }

  /** A successful flush: a batch written under its timestamp. */
  datatype Flush = Flush(time: string, cmds: seq<string>)

  /** The successful flushes an attempt contributes to the record. */
  function Recorded(a: Attempt): seq<Flush>
  {
    if Succeeded(a) then [Flush(a.time, a.batch)] else []
  }

  /** The result of feeding one line: the new state, whether reading stops, the logger call made. */
  datatype Outcome = Outcome(next: State, stop: bool, attempt: Attempt)

  /** Calls the logger on the current batch; clears the batch only if it succeeded. */
  function Flushing(st: State, fileOpens: bool): Outcome
  {
    var ok := Accepts(st.blockTime, st.commands, fileOpens);
    Outcome(st.(commands := if ok then [] else st.commands), false, Attempted(st.blockTime, st.commands, ok))
  }

  /**
   * One line of input. `now` is what the clock would read if it were asked,
   * `fileOpens` whether the log file would open if the logger were called.
   */
  function Step(blockSize: nat, st: State, line: string, now: string, fileOpens: bool): Outcome
  {
    match Kind(line)
    case OpenBlock =>
      var st' := st.(deep := st.deep + 1);
      if st'.deep == 1 then Flushing(st', fileOpens) else Outcome(st', false, NoAttempt)
    case CloseBlock =>
      var st' := st.(deep := st.deep - 1);
      if st'.deep == 0 then Flushing(st', fileOpens) else Outcome(st', false, NoAttempt)
    case EndOfInput =>
      Outcome(st, true, NoAttempt)
    case Command =>
      if st.deep == 0 then
        var time := if st.commands == [] then now else st.blockTime;
        var st' := st.(commands := st.commands + [line], blockTime := time);
        if |st'.commands| == blockSize then Flushing(st', fileOpens) else Outcome(st', false, NoAttempt)
      else
        Outcome(st.(commands := st.commands + [line]), false, NoAttempt)
  }

  /** After the input ends: a non-empty batch is flushed only at depth 0. */
  function Finish(st: State, fileOpens: bool): Outcome
  {
    if st.commands != [] && st.deep == 0 then Flushing(st, fileOpens) else Outcome(st, true, NoAttempt)
  }

  /** What reading the input from line `i` on does: the state reached, the flushes made, where reading stopped. */
  datatype Trace = Trace(final: State, flushes: seq<Flush>, end: nat)

  /**
   * Reads `input` from index `i` until an "EOF" line or the end of the input.
   * Line `j` sees the clock reading `clock(j)` and the file oracle `opens(j)`.
   */
  function Ingest(blockSize: nat, input: seq<string>, clock: nat -> string, opens: nat -> bool,
                  i: nat, st: State): (t: Trace)
    requires i <= |input|
    ensures i <= t.end <= |input|
    decreases |input| - i
  {
    if i == |input| then Trace(st, [], i)
    else
      var o := Step(blockSize, st, input[i], clock(i), opens(i));
      if o.stop then Trace(st, [], i)
      else
        var t := Ingest(blockSize, input, clock, opens, i + 1, o.next);
        Trace(t.final, Recorded(o.attempt) + t.flushes, t.end)
  }

  /** A trace with the flushes `fs` made before it. */
  function After(fs: seq<Flush>, t: Trace): Trace
  {
    Trace(t.final, fs + t.flushes, t.end)
  }

  /** The whole run: ingestion, then the final flush attempt (with the file oracle of the index reading stopped at). */
  function Process(blockSize: nat, input: seq<string>, clock: nat -> string, opens: nat -> bool): Trace
  {
    var t := Ingest(blockSize, input, clock, opens, 0, Initial);
    var o := Finish(t.final, opens(t.end));
    Trace(o.next, t.flushes + Recorded(o.attempt), t.end)
  }

  /** The lines of `lines` that are commands, in order: the sentinels removed. */
  function Ordinary(lines: seq<string>): seq<string>
  {
    if lines == [] then []
    else (if IsSentinel(lines[0]) then [] else [lines[0]]) + Ordinary(lines[1..])
  }

  /** What a sequence of flushes wrote, one logger effect per flush. */
  function Outputs(fs: seq<Flush>): seq<LogEffect>
  {
    if fs == [] then [] else [Writes(fs[0].time, fs[0].cmds)] + Outputs(fs[1..])
  }

  /** All commands written by a sequence of flushes, in order. */
  function Batches(fs: seq<Flush>): seq<string>
  {
    if fs == [] then [] else fs[0].cmds + Batches(fs[1..])
  }
}
