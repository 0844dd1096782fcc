/** Line framing over the worker pipes (src/proc.cc, src/buffered-io.cc).

    Lines are written with a retry loop that survives short writes and read
    through a buffer that keeps partial lines between polls.  The results here
    are what allows the rest of the model to treat a pipe as a first-in
    first-out queue of whole lines. */
module Framing {
  import opened Wrappers

  predicate NewlineFree(s: string) { '\n' !in s }

  predicate AllNewlineFree(lines: seq<string>) {
    forall l | l in lines :: NewlineFree(l)
  }

  /** The bytes that carry `lines`. */
  function Frame(lines: seq<string>): string {
    if lines == [] then "" else lines[0] + "\n" + Frame(lines[1..])
  }

  // ---- Facts about framed text -----------------------------------------

  lemma {:induction false} FrameAppend(lines: seq<string>, l: string)
    ensures Frame(lines + [l]) == Frame(lines) + (l + "\n")
  {
    if lines == [] {
      assert lines + [l] == [l];
      assert Frame([l]) == l + "\n" + Frame([]);
    } else {
      assert (lines + [l])[1..] == lines[1..] + [l];
      FrameAppend(lines[1..], l);
    }
  }

  /** The first newline splits a text in only one way. */
  lemma FirstNewlineUnique(a: string, x: string, b: string, y: string)
    requires NewlineFree(a) && NewlineFree(b)
    requires a + "\n" + x == b + "\n" + y
    ensures a == b && x == y
  {
    var s := a + "\n" + x;
    assert s[|a|] == '\n' && s[|b|] == '\n';
    assert forall i | 0 <= i < |a| :: s[i] == a[i];
    assert forall i | 0 <= i < |b| :: s[i] == b[i];
    assert a == s[..|a|] && b == s[..|b|];
    assert x == s[|a| + 1..] && y == s[|b| + 1..];
  }

  lemma SplitHead(head: string, more: string, rest: string)
    ensures head + "\n" + more + rest == head + "\n" + (more + rest)
  {}

  /** If the bytes read so far are some of the bytes of `sent`, then the lines
      cut from them are the first lines of `sent`, in order and unaltered;
      and once all bytes are in and no newline is left, they are all of them. */
  lemma {:induction false} CutLinesArePrefix(cut: seq<string>, tail: string, later: string, sent: seq<string>)
    requires AllNewlineFree(cut) && AllNewlineFree(sent)
    requires Frame(cut) + tail + later == Frame(sent)
    ensures cut <= sent
    ensures later == "" && NewlineFree(tail) ==> cut == sent && tail == ""
  {
    var rest := tail + later;
    assert Frame(cut) + tail + later == Frame(cut) + rest;
    if cut == [] {
      if later == "" && sent != [] {
        assert tail == Frame(sent);
        assert (sent[0] + "\n" + Frame(sent[1..]))[|sent[0]|] == '\n';
      }
    } else {
      SplitHead(cut[0], Frame(cut[1..]), rest);
      assert sent != [];
      FirstNewlineUnique(cut[0], Frame(cut[1..]) + rest, sent[0], Frame(sent[1..]));
      assert Frame(cut[1..]) + tail + later == Frame(cut[1..]) + rest;
      CutLinesArePrefix(cut[1..], tail, later, sent[1..]);
      assert cut == [cut[0]] + cut[1..] && sent == [sent[0]] + sent[1..];
    }
  }

  // ---- The two ends of a pipe -------------------------------------------

  /** A kernel pipe: `data` is what was written and not yet read, and `closed` tells
      that the writer is done. */
  class Pipe {
    var data: string
    var closed: bool
    ghost var sent: string

    constructor ()
      ensures data == "" && sent == "" && !closed
    {
      data, sent, closed := "", "", false;
    }

    /** A successful write(2) of `bytes`. */
    method Accept(bytes: string)
      modifies `data, `sent
      ensures data == old(data) + bytes && sent == old(sent) + bytes
    {
      data, sent := data + bytes, sent + bytes;
    }

    /** The writer is done. */
    method Close()
      modifies `closed
      ensures closed
    {
      closed := true;
    }
  }

  /** What one call of write(2) did: `Wrote(n)` for a result of n (zero
      included), `Interrupted` for EINTR, `Failed` for any other error. */
  datatype WriteResult = Wrote(n: nat) | Interrupted | Failed(errno: nat)

  /** The answer at `k` is the first error. */
  ghost predicate FirstFailure(results: seq<WriteResult>, k: nat) {
    k < |results| && results[k].Failed? && forall j | 0 <= j < k :: !results[j].Failed?
  }

  /** `results` are the answers of the successive write(2) calls; when they are used
      up the loop is still waiting for the next.  The result is 0 exactly when
      the whole line was written, and otherwise the negated error number. */
  method TryWriteLine(pipe: Pipe, line: string, results: seq<WriteResult>) returns (result: Option<int>, written: nat)
    requires forall k | 0 <= k < |results| && results[k].Failed? :: results[k].errno > 0
    modifies pipe
    ensures written <= |line| + 1
    ensures pipe.sent == old(pipe.sent) + (line + "\n")[..written]
    ensures pipe.data == old(pipe.data) + (line + "\n")[..written]
    ensures result == Some(0) <==> written == |line| + 1
    ensures result.Some? && result.value != 0 ==>
      exists k: nat :: FirstFailure(results, k) && result.value == 0 - results[k].errno
    ensures result.None? ==> forall k | 0 <= k < |results| :: !results[k].Failed?
  {
    var str := line + "\n";
    var view := str;
    var calls := 0;
    while view != "" && calls < |results|
      invariant |view| <= |str| && view == str[|str| - |view|..]
      invariant pipe.sent == old(pipe.sent) + str[..|str| - |view|]
      invariant pipe.data == old(pipe.data) + str[..|str| - |view|]
      invariant calls <= |results| && forall k | 0 <= k < calls :: !results[k].Failed?
      decreases |results| - calls
    {
      var res := results[calls];
      if res.Failed? {
        assert FirstFailure(results, calls);
        var code: int := 0 - res.errno;
        return Some(code), |str| - |view|;
      }
      calls := calls + 1;
      if res.Wrote? && res.n > 0 {
        var n := if res.n <= |view| then res.n else |view|;
        ghost var done := |str| - |view|;
        assert view[..n] == str[done..done + n];
        assert str[..done + n] == str[..done] + view[..n];
        pipe.Accept(view[..n]);
        view := view[n..];
      }
    }
    return if view == "" then Some(0) else None, |str| - |view|;
  }

  const CHUNK: nat := 65536

  /** One read(2): `arrived` reached the pipe before it, and it returned at most
      `n` bytes.  Returning none stands for EINTR, after which it is retried. */
  datatype ReadStep = ReadStep(arrived: string, n: nat)

  datatype FillResult = MayGoOn | AtEnd | ReadFailed

  function Arrived(steps: seq<ReadStep>): string {
    if steps == [] then "" else steps[0].arrived + Arrived(steps[1..])
  }

  lemma {:induction false} ArrivedAppend(steps: seq<ReadStep>, step: ReadStep)
    ensures Arrived(steps + [step]) == Arrived(steps) + step.arrived
  {
    if steps == [] {
      assert steps + [step] == [step];
    } else {
      assert (steps + [step])[1..] == steps[1..] + [step];
      ArrivedAppend(steps[1..], step);
    }
  }

  /** The collector's end: a buffer of bytes already read, of which the first
      `scanned` are known to hold no newline. */
  class Proc {
    const from: Pipe
    var buf: string
    var scanned: nat
    ghost var popped: seq<string>

    ghost predicate Valid()
      reads this, from
    {
      && scanned <= |buf|
      && NewlineFree(buf[..scanned])
      && AllNewlineFree(popped)
      && from.sent == Frame(popped) + buf + from.data
    }

    constructor (pipe: Pipe)
      requires pipe.sent == pipe.data == ""
      ensures Valid() && from == pipe && popped == [] && buf == ""
    {
      from, buf, scanned, popped := pipe, "", 0, [];
    }

    method ReadSome(step: ReadStep)
      requires Valid()
      modifies `buf, from`data, from`sent
      ensures Valid()
      ensures popped == old(popped) && scanned == old(scanned) && old(buf) <= buf
      ensures buf + from.data == old(buf + from.data) + step.arrived
      ensures from.sent == old(from.sent) + step.arrived
      ensures step.n > 0 && step.arrived == "" && old(from.data) != "" ==> |from.data| < |old(from.data)|
    {
      ghost var before := buf + from.data;
      assert from.sent == Frame(popped) + before;
      from.Accept(step.arrived);
      assert buf + from.data == before + step.arrived;
      var n := if step.n <= CHUNK then step.n else CHUNK;
      var got := if n <= |from.data| then n else |from.data|;
      assert buf + from.data[..got] + from.data[got..] == before + step.arrived;
      buf := buf + from.data[..got];
      from.data := from.data[got..];
      assert Frame(popped) + buf + from.data == Frame(popped) + (buf + from.data);
    }

    /** Reads until the pipe is empty: no byte is lost, doubled or reordered.  `steps`
        are the reads while the writer is still at it, and it may be done after
        them.  The end is reported only when the writer is done, and then
        everything it wrote is in the buffer.  An error of read(2) leaves the
        rest in the pipe. */
    method Fill(steps: seq<ReadStep>, closes: bool, error: bool) returns (result: FillResult)
      requires Valid() && (from.closed ==> Arrived(steps) == "")
      modifies this, from
      ensures Valid() && from.closed == (old(from.closed) || closes)
      ensures popped == old(popped) && scanned == old(scanned) && old(buf) <= buf
      ensures buf + from.data == old(buf + from.data) + Arrived(steps)
      ensures from.sent == old(from.sent) + Arrived(steps)
      ensures result == if error then ReadFailed else if from.closed then AtEnd else MayGoOn
      ensures !error ==> from.data == ""
    {
      ReadAll(steps);
      if closes {
        from.Close();
      }
      if error {
        return ReadFailed;
      }
      Drain();
      return if from.closed then AtEnd else MayGoOn;
    }

    method ReadAll(steps: seq<ReadStep>)
      requires Valid()
      modifies `buf, from`data, from`sent
      ensures Valid() && old(buf) <= buf
      ensures buf + from.data == old(buf + from.data) + Arrived(steps)
      ensures from.sent == old(from.sent) + Arrived(steps)
    {
      for k := 0 to |steps|
        invariant Valid() && old(buf) <= buf
        invariant buf + from.data == old(buf + from.data) + Arrived(steps[..k])
        invariant from.sent == old(from.sent) + Arrived(steps[..k])
      {
        ReadSome(steps[k]);
        ArrivedAppend(steps[..k], steps[k]);
        assert steps[..k + 1] == steps[..k] + [steps[k]];
      }
      assert steps[..|steps|] == steps;
    }

    method Drain()
      requires Valid()
      modifies `buf, from`data, from`sent
      ensures Valid() && old(buf) <= buf && from.data == ""
      ensures buf == old(buf + from.data) && from.sent == old(from.sent)
    {
      while from.data != ""
        invariant Valid() && old(buf) <= buf && scanned <= |buf|
        invariant buf + from.data == old(buf + from.data) && from.sent == old(from.sent)
        decreases |from.data|
      {
        ReadSome(ReadStep("", CHUNK));
      }
    }

    /** The first newline at or after `start`, or the end of the buffer. */
    method FindNewline(start: nat) returns (at: nat)
      requires start <= |buf|
      ensures start <= at <= |buf|
      ensures NewlineFree(buf[start..at])
      ensures at < |buf| ==> buf[at] == '\n'
    {
      at := start;
      while at < |buf| && buf[at] != '\n'
        invariant start <= at <= |buf|
        invariant NewlineFree(buf[start..at])
      {
        at := at + 1;
      }
    }

    /** A line is returned exactly when the buffer holds a newline, and it ends
        at the first newline of the whole buffer although the search starts
        at `scanned`. */
    method PopLine() returns (line: Option<string>)
      requires Valid()
      modifies this
      ensures Valid()
      ensures line.Some? <==> '\n' in old(buf)
      ensures line.Some? ==> NewlineFree(line.value) && old(buf) == line.value + "\n" + buf
      ensures popped == if line.Some? then old(popped) + [line.value] else old(popped)
      ensures line.None? ==> buf == old(buf) && scanned == |buf|
    {
      var nl := FindNewline(scanned);
      assert buf[..nl] == buf[..scanned] + buf[scanned..nl];
      if nl == |buf| {
        assert buf[..nl] == buf;
        scanned := |buf|;
        return None;
      }
      var cut := buf[..nl];
      ghost var before := buf;
      assert buf == cut + "\n" + buf[nl + 1..];
      FrameAppend(popped, cut);
      assert Frame(popped) + before + from.data
          == Frame(popped) + (cut + "\n") + before[nl + 1..] + from.data;
      buf := buf[nl + 1..];
      scanned := 0;
      popped := popped + [cut];
      line := Some(cut);
    }

    /** At any moment, whatever the sizes of the reads and writes so far: if
        the worker has written part of the text of `msgs`, the lines popped
        are the first of `msgs`; and when everything written was read and
        popped, they are all of `msgs`. */
    lemma LinesInOrder(msgs: seq<string>, unwritten: string)
      requires Valid() && AllNewlineFree(msgs)
      requires from.sent + unwritten == Frame(msgs)
      ensures popped <= msgs
      ensures unwritten == "" && from.data == "" && NewlineFree(buf) ==> popped == msgs && buf == ""
    {
      var later := from.data + unwritten;
      assert Frame(popped) + buf + from.data + unwritten == Frame(popped) + buf + later;
      CutLinesArePrefix(popped, buf, later, msgs);
    }
  }
}
