/**
 * The `log` collaborator of the bulk command processor: it refuses an empty
 * timestamp or an empty command list, and otherwise renders the batch as one
 * line, "bulk: " followed by every command and ", ", then a newline. The same
 * line goes to standard output and to the file "bulk" + timestamp + ".log".
 * Whether that file can be opened is not decided here: it is an oracle
 * boolean `fileOpens`.
 */
module Logger {

  const Tag: string := "bulk: "
  const Separator: string := ", "
  const Newline: string := "\n"

  /** The body of a rendered line: each command followed by the separator, in list order. */
  function Items(cmds: seq<string>): string
  {
    if cmds == [] then "" else Items(cmds[..|cmds| - 1]) + cmds[|cmds| - 1] + Separator
  }

  /** The whole line written for a batch. */
  function Render(cmds: seq<string>): string
  {
    Tag + Items(cmds) + Newline
  }

  /** The name of the file a batch with timestamp `ts` is written to. */
  function LogFileName(ts: string): string
  {
    "bulk" + ts + ".log"
  }

  /** What one call of the logger did to the outside world. */
  datatype LogEffect =
    | Refused                              // returned false, wrote nothing
    | Written(file: string, text: string)  // returned true; `text` went to stdout and to `file`

  /** What a successful call writes: the rendered line, to the file named after the timestamp. */
  function Writes(ts: string, cmds: seq<string>): LogEffect
  {
    Written(LogFileName(ts), Render(cmds))
  }

  /** Whether the logger writes: a timestamp, at least one command, and a file that opens. */
  predicate Accepts(ts: string, cmds: seq<string>, fileOpens: bool)
  {
    ts != "" && cmds != [] && fileOpens
  }

  /** One call of the logger; `fileOpens` says whether the file could be opened. */
  function Log(ts: string, cmds: seq<string>, fileOpens: bool): (e: LogEffect)
    ensures e.Written? <==> ts != "" && cmds != [] && fileOpens
    ensures e.Written? ==> e.file == LogFileName(ts) && e.text == Render(cmds)
    ensures ts == "" || cmds == [] ==> e == Refused
  {
    if Accepts(ts, cmds, fileOpens) then Writes(ts, cmds) else Refused
  }

  /** The stream writes of the logger, one command at a time. */
  method RenderLine(cmds: seq<string>) returns (text: string)
    ensures text == Render(cmds)
  {
    text := Tag;
    for k := 0 to |cmds|
      invariant text == Tag + Items(cmds[..k])
    {
      assert cmds[..k + 1][..k] == cmds[..k];
      text := text + cmds[k] + Separator;
    }
    assert cmds[..|cmds|] == cmds;
    text := text + Newline;
  }

  /** The logger as the processor calls it: the guard, the file, then the writes. */
  method WriteLog(ts: string, cmds: seq<string>, fileOpens: bool) returns (ok: bool, effect: LogEffect)
    ensures effect == Log(ts, cmds, fileOpens)
    ensures ok <==> effect.Written?
  {
    if ts != "" && cmds != [] {
      if fileOpens {
        var text := RenderLine(cmds);
        return true, Written(LogFileName(ts), text);
      }
    }
    return false, Refused;
  }

  /** Rendering distributes over concatenation of command lists. */
  lemma {:induction false} ItemsAppend(a: seq<string>, b: seq<string>)
    ensures Items(a + b) == Items(a) + Items(b)
    decreases |b|
  {
    if b == [] {
      assert a + b == a;
    } else {
      var b' := b[..|b| - 1];
      assert (a + b)[..|a + b| - 1] == a + b';
      ItemsAppend(a, b');
    }
  }

  /**
   * Every command appears in the rendered line, in list order: command `k`
   * starts right after the rendering of the commands before it and is
   * followed by the separator.
   */
  lemma RenderedInOrder(cmds: seq<string>, k: nat)
    requires k < |cmds|
    ensures var off := |Tag| + |Items(cmds[..k])|;
      off + |cmds[k]| + |Separator| <= |Render(cmds)| &&
      Render(cmds)[off .. off + |cmds[k]| + |Separator|] == cmds[k] + Separator
  {
    var pre, mid, post := cmds[..k], [cmds[k]], cmds[k + 1..];
    assert cmds == pre + mid + post;
    ItemsAppend(pre + mid, post);
    ItemsAppend(pre, mid);
    assert mid[..0] == [];
    assert Items(mid) == cmds[k] + Separator;
    var before, item, after := Tag + Items(pre), cmds[k] + Separator, Items(post) + Newline;
    assert Items(cmds) == Items(pre) + item + Items(post);
    assert Render(cmds) == before + item + after;
    MiddleSlice(before, item, after);
  }

  /** The middle part of a three-part concatenation is found right after the first part. */
  lemma MiddleSlice(a: string, b: string, c: string)
    ensures |a| + |b| <= |a + b + c| && (a + b + c)[|a|..|a| + |b|] == b
  {
  }

  /** The line starts with the tag, ends with a newline, and holds exactly the rendered items in between. */
  lemma RenderShape(cmds: seq<string>)
    ensures |Render(cmds)| == |Tag| + |Items(cmds)| + 1
    ensures Render(cmds)[..|Tag|] == Tag
    ensures Render(cmds)[|Render(cmds)| - 1] == '\n'
    ensures Render(cmds)[|Tag|..|Render(cmds)| - 1] == Items(cmds)
  {
  }
}
