# Bulk command processor, modelled in Dafny

The program reads commands from standard input, one per line, and writes them
out in batches ("bulks"). Each batch is written as one line,
`bulk: c1, c2, ..., ` and a newline. The line goes to standard output and to
the file `bulk<timestamp>.log`, where the timestamp is the wall-clock second
at which the first command of the latest static batch arrived (a dynamic
block's batch reuses it).

The program uses two batching policies:

- **Static.** At depth 0 a batch is flushed as soon as it holds exactly
  `block_size` commands. Whatever is left is flushed when the input ends.
- **Dynamic.** A line `{` opens a block and a line `}` closes it. The
  outermost `{` first flushes the pending static batch. The matching `}`
  flushes everything read inside the block. Nested delimiters only move the
  counter.

A line `EOF` stops reading.

A flush hands the batch and the timestamp to the logger. The logger refuses
an empty timestamp and an empty batch. It also fails when the file cannot be
opened. The batch is cleared only when the logger succeeds.

The model follows the code as written wherever an idealised reading would
differ:

- The depth counter is a signed integer, and a stray `}` takes it below 0.
- The timestamp is never reset by a flush.
- A dynamic block reuses the timestamp of the last static batch.
- A batch can get stuck: once it is non-empty while the timestamp is still
  empty, it is never written, and later lines pile onto it. In the source,
  whose clock never reads empty, there are two ways into this state:
  - a dynamic block that holds at least one command, read before any static
    line (`StuckBlock`; an empty `{ }` collects nothing and does no harm);
  - a stray `}`, then ordinary lines at depth -1, then a `{` that brings the
    depth back to 0 with no flush (a flush needs the depth to become 1),
    all before any static line (`StrayCloseStuck`).

The project has four modules:

- `Logger` (`logger.dfy`)
  - The logger's guard: `Accepts`, `Log`.
  - The rendered line: `Items`, `Render`, and the loop that builds it, `RenderLine`.
  - The file name: `LogFileName`.
  - The logger as a method: `WriteLog`.
  - Whether the file opens is an oracle boolean.
- `Batching` (`batching.dfy`)
  - The processor's state machine as values.
  - One input line: `Step`.
  - The final flush: `Finish`.
  - Reading until `EOF` or the end of the input: `Ingest`.
  - The whole run: `Process`.
  - The record of successful flushes (`Flush`, `Recorded`), and what they wrote (`Outputs`, `Batches`).
- `BatchingProperties` (`batching_properties.dfy`)
  - Per-line lemmas about `Step` and `Finish`.
  - Whole-run lemmas about `Ingest` and `Process`.
  - Worked runs over arbitrary command lines.
- `Processor` (`processor.dfy`)
  - The class `BulkProcessor`.
    - Its fields: `deep`, `commands`, `blockTime`, the constant `blockSize`.
    - A ghost record `flushes`: the successful flushes, as (timestamp, commands) pairs.
    - Its methods: `TryFlush`, `Accept`, `Finalize`. Each is proved to change the fields exactly as `Step` or `Finish` says.
  - The read loop `ReadLines` and the whole run `ProcessCommands`. Both are proved against `Ingest` and `Process`.

The outside world enters as parameters:

- `clock(j)` is the clock reading that line `j` would see.
- `opens(j)` says whether a log file opened while handling line `j` would open.
- The final flush uses `opens` at the index where reading stopped.

## Model

| member | source | states |
|---|---|---|
| Logger.Items | src/main.cpp:41-45 | The definition: each command followed by ", ", in list order. Its properties are stated by `ItemsAppend` and `RenderedInOrder`. |
| Logger.Render | src/main.cpp:38-48 | The definition: the tag, the items, then the newline. Its shape is stated by `RenderShape`, and `RenderLine` is proved to build it. |
| Logger.LogFileName | src/main.cpp:36 | The definition of the file name, "bulk" + timestamp + ".log". `Log` states that a successful write goes to that file. |
| Logger.Accepts | src/main.cpp:34-36 | The definition of the guard: a non-empty timestamp, a non-empty list and a file that opens. `Log` states it as an if-and-only-if. |
| Logger.Log | src/main.cpp:32-56 | The logger writes exactly when the timestamp and the list are non-empty and the file opens. It then writes `Render(cmds)` to `"bulk" + ts + ".log"`. An empty timestamp or an empty list is refused with no output, whatever the file does. |
| Logger.RenderLine | src/main.cpp:38-48 | The stream writes (the tag, then each command followed by ", ", then the newline) build exactly the rendered line. |
| Logger.WriteLog | src/main.cpp:34-55 | It returns true exactly when it wrote something, and what it wrote is the logger's effect for that timestamp, list and file. |
| Logger.ItemsAppend | src/main.cpp:41-45 | Rendering the concatenation of two lists renders the first list, then the second. |
| Logger.RenderedInOrder | src/main.cpp:41-45 | Command k appears in the line right after the rendering of the commands before it, followed by ", ". Every command is therefore written, in list order. |
| Logger.RenderShape | src/main.cpp:38-48 | The line starts with "bulk: ", ends with a newline, and what lies between them is exactly the rendered items. |
| Batching.Flushing | src/main.cpp:71-74 | The definition of a flush attempt: the logger is called on the batch and its timestamp, and the list is cleared only when it succeeds. The same code appears at lines 83-86, 106-109 and 123-126. Its properties are stated by `StepCommands`, `AttemptCallsLogger` and `SuccessfulFlushIsNonEmpty`. |
| Batching.Step | src/main.cpp:65-117 | The definition of one input line. Its properties are stated by the per-line lemmas `StepCommands`, `StepConserves`, `StepStops`, `StepBlockTime`, `StaticFlushExactlyAtSize`, `DelimiterStep`, `OffZeroAppends`, `StrayCloseGoesNegative`, `StaticBound` and `StuckBatchStaysStuck`. `Accept` is proved to update the fields as it says. |
| Batching.Finish | src/main.cpp:120-127 | The definition of the final flush. Its properties are stated by `FinishAttempts`, `FinishConserves` and `StuckBatchStaysStuck`. `Finalize` is proved to update the fields as it says. |
| Batching.Process | src/main.cpp:63-127 | The definition of the whole run: reading, then the final flush. Its properties are stated by `ProcessConservation`, `ProcessFlushesNonEmpty`, `StaticCounts` and the worked runs. `ProcessCommands` is proved equal to it. |
| Batching.Ingest | src/main.cpp:63-118 | Reading from index i stops at an index between i and the end of the input. |
| BatchingProperties.StepCommands | src/main.cpp:65-116 | A line changes the pending list only by its own append and by a successful flush. A successful flush writes the old list plus the line and empties the list; otherwise the list is kept whole and the line appended. |
| BatchingProperties.StepConserves | src/main.cpp:65-116 | What one line writes, followed by what stays pending, is the old list plus the line (nothing, if the line is a sentinel). |
| BatchingProperties.StepStops | src/main.cpp:89-92 | A line stops reading exactly when it is "EOF", and then it changes nothing. |
| BatchingProperties.StepBlockTime | src/main.cpp:95-100 | The timestamp takes the clock reading exactly when an ordinary line arrives at depth 0 with an empty list. Every other line, and every flush, leaves it unchanged. |
| BatchingProperties.StaticFlushExactlyAtSize | src/main.cpp:95-110 | An ordinary line at depth 0 attempts a flush exactly when the list with the line appended has exactly blockSize elements. The attempt carries that list and the batch's timestamp. |
| BatchingProperties.DelimiterStep | src/main.cpp:65-88 | "{" adds 1 to the depth and attempts a flush exactly when the depth becomes 1. "}" subtracts 1 and attempts one exactly when it becomes 0. Neither is stored or touches the timestamp, and without an attempt only the depth changes. |
| BatchingProperties.OffZeroAppends | src/main.cpp:112-116 | At any depth other than 0 (inside a block, or below 0), an ordinary line is appended with no size check and no flush. |
| BatchingProperties.StrayCloseGoesNegative | src/main.cpp:77-82 | A "}" at depth 0 or below takes the depth below 0 and attempts no flush. |
| BatchingProperties.FinishAttempts | src/main.cpp:120-127 | At the end, a flush is attempted exactly when the list is non-empty and the depth is 0. The list is cleared only if the flush succeeds. |
| BatchingProperties.SuccessfulFlushIsNonEmpty | src/main.cpp:34-36 | A successful flush, during reading or at the end, has a non-empty timestamp and a non-empty batch, and wrote what the logger writes for them. |
| BatchingProperties.AttemptCallsLogger | src/main.cpp:71-126 | Every attempted flush is one logger call: it succeeds exactly when the logger writes, and its effect is the logger's. |
| BatchingProperties.StaticBound | src/main.cpp:65-110 | While every attempt on a non-empty batch succeeds and no "}" arrives at depth 0 (for blockSize at least 1), the depth stays non-negative and fewer than blockSize commands are pending at depth 0 between lines. |
| BatchingProperties.StuckBatchStaysStuck | src/main.cpp:83-99 | A non-empty batch with an empty timestamp is never written. The timestamp stays empty, every attempt fails, and later lines are appended to the batch. |
| BatchingProperties.OutputsAt | src/main.cpp:36-48 | The output of a run has one entry per successful flush. Entry k is flush k's rendered line, written to flush k's file. |
| BatchingProperties.IngestStopsAtEof | src/main.cpp:63-92 | Reading stops at the first "EOF" line, or at the end of the input when there is none. |
| BatchingProperties.IngestConservation | src/main.cpp:63-118 | The written batches, followed by the pending list, are exactly the pending list at the start plus the non-sentinel lines read, in input order. Each such line is kept exactly once. |
| BatchingProperties.ProcessConservation | src/main.cpp:63-127 | Over a whole run, the written batches followed by what is left unflushed are exactly the non-sentinel lines before "EOF", in order. |
| BatchingProperties.IngestFlushesNonEmpty | src/main.cpp:63-118 | No flush made while reading has an empty batch or an empty timestamp. |
| BatchingProperties.ProcessFlushesNonEmpty | src/main.cpp:63-127 | No flush of a whole run has an empty batch or an empty timestamp. |
| BatchingProperties.IngestSplit | src/main.cpp:63-118 | Reading can be split at any index before the first "EOF": the first part, then the rest from the state it reached, gives the same result. |
| BatchingProperties.FinishConserves | src/main.cpp:120-127 | The final flush keeps every pending command: what it writes, followed by what stays pending, is the old list. |
| BatchingProperties.ReadStopped | src/main.cpp:63-92 | Reading that has stopped (input used up, or an "EOF" line) has reached the state and made the flushes recorded so far. |
| BatchingProperties.ReadThenFinish | src/main.cpp:118-127 | Once reading has stopped (input used up, or an "EOF" line), the run is the flushes so far plus the final attempt on the state reached. |
| BatchingProperties.StaticRun | src/main.cpp:95-110 | With only ordinary lines, a logger that always succeeds, and a clock that always reads something, every batch written holds exactly blockSize commands. Batches times blockSize plus the pending count equals the number of lines read, and the pending count stays below blockSize. |
| BatchingProperties.StaticCounts | src/main.cpp:95-127 | For n ordinary lines under those conditions, n / blockSize batches are written while reading. One more is written at the end exactly when n % blockSize lines remain, and then nothing is left pending. |
| BatchingProperties.InsideDynamic | src/main.cpp:65-88 | While the depth stays 1 or more, nothing is attempted: delimiters only move the counter, and ordinary lines are appended in order. |
| BatchingProperties.OpenedBlock | src/main.cpp:65-76 | A "{" read at depth 0 with nothing pending, then a body that never returns to depth 0, writes nothing and collects the body's commands. |
| BatchingProperties.ClosingLine | src/main.cpp:77-87 | A "}" that brings the depth back to 0 writes the collected batch under the current timestamp. |
| BatchingProperties.DynamicBlock | src/main.cpp:65-116 | A block "{ body }" read at depth 0 with nothing pending writes exactly one batch, at the closing "}". The batch holds the body's commands in order, under the timestamp left from the last static batch, whatever the nesting inside. |
| BatchingProperties.StaticRemainder | src/main.cpp:95-127 | At block size 2, lines x y z: reading writes only [x, y], when y arrives and under x's clock reading, and leaves [z] pending under z's reading. The final flush then writes [z]. |
| BatchingProperties.MixedBlock | src/main.cpp:65-116 | In a mixed run, "{" flushes the pending [x, y], "}" flushes the block's [z] under x's timestamp, and the following w starts a new batch with its own clock reading. |
| BatchingProperties.MixedRun | src/main.cpp:63-127 | The run x y { z } w with a block size that never fills writes [x, y], then [z] (both under x's reading), then [w] under w's reading. Reading writes only the first two and leaves [w] pending at depth 0, so [w] is written by the final flush. |
| BatchingProperties.EmptyInput | src/main.cpp:63-127 | Empty input, or input starting with "EOF", writes nothing. |
| BatchingProperties.StuckBlock | src/main.cpp:65-110 | The run { z } x writes nothing, at every block size and whatever the clock and the files do. It leaves [z, x] pending with an empty timestamp. At block size 2 the size check fires on [z, x], and the logger refuses it. |
| BatchingProperties.StrayCloseStuck | src/main.cpp:65-116 | The run } z { from the start writes nothing and ends at depth 0 with [z] pending and an empty timestamp: the `{` brings the depth back to 0, not to 1, so it does not flush. |
| Processor.BulkProcessor.constructor | src/main.cpp:58-61 | The processor starts at depth 0 with no commands, an empty timestamp and no flushes. |
| Processor.BulkProcessor.TryFlush | src/main.cpp:71-74 | The logger is called on the batch, and the list is cleared exactly when it succeeds. The new fields are those of `Flushing`, and a success is added to the flush record. |
| Processor.BulkProcessor.Accept | src/main.cpp:65-117 | The in-place update of the fields for one line is exactly `Step`: the new fields, the stop flag, the attempt and its effect. The flush record grows by the successful flush, if any. |
| Processor.BulkProcessor.Finalize | src/main.cpp:120-127 | The final flush updates the fields exactly as `Finish` says, and records a successful flush. |
| Processor.ReadLines | src/main.cpp:63-118 | The read loop stops at the end of the input or at an "EOF" line. `Ingest` from the start gives exactly the state it reached, the flushes it made and the index it stopped at, and its output is those flushes' writes. |
| Processor.ProcessCommands | src/main.cpp:13-128 | The flushes made are exactly those of `Process`, and the output is their writes in order. The written batches plus the unflushed rest are the non-sentinel lines before "EOF", in order. No written batch is empty or has an empty timestamp. |

## Left out

- `main` (src/main.cpp:137-159): argument checking, `std::stoi`, the error messages and the `int` to `unsigned` conversion of the block size. The block size is a `nat` given to the constructor, and 0 means a batch is never flushed for its size. A negative argument, which becomes a huge unsigned value in the source, is not modelled.
- The width of the depth counter is not modelled. `deep` is a 32-bit `int` in the source (src/main.cpp:59). After 2^31 unmatched delimiters, `++deep` or `--deep` (lines 68 and 80) would overflow, which is undefined behaviour. The model's depth is an unbounded integer.
- `get_current_time_stamp` (src/main.cpp:20-23): the wall clock and the decimal rendering of epoch seconds. The clock is a parameter, `clock(j)` for line `j`. Only the reading of a line that starts a static batch is used. The model's clock may read "", while the decimal rendering of a count in the source never does. Such a reading is a third way into the stuck batch (a static batch started under it is refused), which is why `StaticRun`, `StaticCounts` and the worked runs require the clock readings they use to be non-empty.
- Standard input is not modelled: the input is a sequence of lines, and `std::getline` failing is the end of that sequence.
- Files are not modelled: whether `std::ofstream` opens is an oracle boolean, and closing is not modelled. The model lists every write in order. It does not model the file system: two batches with the same timestamp name the same file, and the second open truncates it. The file's final contents are therefore not modelled.
- Stream buffering is not modelled: `std::endl` is modelled as the newline character, and flushing the stream is left out.
- Standard output is not modelled as a separate stream: one effect stands for both writes of the same text, to standard output and to the file.
