/**
 * The output sink of pkg/executor/output.go: a writer that either forwards
 * every chunk to its delegate, or captures the chunk and writes a single
 * progress marker to the delegate instead.
 */
module Executor {
  import opened Wrappers

  newtype byte = x: int | 0 <= x < 256

  /** The progress marker written for each captured chunk: the byte of ".". */
  const Marker: seq<byte> := [46]

  /** What the delegate answers to one `Write`: bytes accepted and error. */
  datatype WriteReply = WriteReply(n: int, err: Option<Error>)

  /** Go's `string(b)`: a byte-for-byte copy, one character per byte. */
  function Text(b: seq<byte>): (t: string)
    ensures |t| == |b|
    ensures forall i :: 0 <= i < |b| ==> t[i] as int == b[i] as int
  {
    seq(|b|, i requires 0 <= i < |b| => (b[i] as int) as char)
  }

  /** `strings.Join(lines, "")`: the lines concatenated in order. */
  function Join(lines: seq<string>): (s: string)
  {
    if lines == [] then "" else lines[0] + Join(lines[1..])
  }

  /** Appending one line to the list appends it to the joined text. */
  lemma {:induction false} JoinAppend(lines: seq<string>, line: string)
    ensures Join(lines + [line]) == Join(lines) + line
  {
    if lines == [] {
      assert [] + [line] == [line];
    } else {
      assert (lines + [line])[1..] == lines[1..] + [line];
      JoinAppend(lines[1..], line);
    }
  }

  /** Joining two lists is joining each and concatenating the results. */
  lemma {:induction false} JoinConcat(a: seq<string>, b: seq<string>)
    ensures Join(a + b) == Join(a) + Join(b)
  {
    if a == [] {
      assert [] + b == b;
    } else {
      assert (a + b)[1..] == a[1..] + b;
      JoinConcat(a[1..], b);
    }
  }

  /**
   * The delegate `io.WriteCloser`. What it answers is fixed in advance by
   * `reply` (its answer to the n-th write, given the bytes) and `closeReply`;
   * `written` logs every write it received.
   */
  class Destination {
    var written: seq<seq<byte>>
    var closed: bool
    const reply: (nat, seq<byte>) -> WriteReply
    const closeReply: Option<Error>

    constructor (reply: (nat, seq<byte>) -> WriteReply, closeReply: Option<Error>)
      ensures written == [] && !closed
      ensures this.reply == reply && this.closeReply == closeReply
    {
      written := [];
      closed := false;
      this.reply := reply;
      this.closeReply := closeReply;
    }

    method Write(p: seq<byte>) returns (n: int, err: Option<Error>)
      modifies this
      ensures written == old(written) + [p] && closed == old(closed)
      ensures WriteReply(n, err) == reply(|old(written)|, p)
    {
      var r := reply(|written|, p);
      written := written + [p];
      n, err := r.n, r.err;
    }

    method Close() returns (err: Option<Error>)
      modifies this
      ensures closed && written == old(written)
      ensures err == closeReply
    {
      closed := true;
      err := closeReply;
    }
  }

  /** `OutputWriter`: pass-through when `useDelegate`, capturing otherwise. */
  class OutputWriter {
    const delegate: Destination
    const useDelegate: bool
    var lines: seq<string>

    constructor (delegate: Destination, useDelegate: bool)
      ensures this.delegate == delegate && this.useDelegate == useDelegate
      ensures lines == [] && Format() == ""
    {
      this.delegate := delegate;
      this.useDelegate := useDelegate;
      lines := [];
    }

    /** The captured chunks, concatenated in the order they were written. */
    function Format(): (s: string)
      reads this
    {
      Join(lines)
    }

    /**
     * Pass-through: the chunk goes unchanged to the delegate, whose answer is
     * returned, and nothing is captured. Capture: the chunk becomes the new
     * last line, the delegate receives exactly one marker and never the
     * chunk, and the result is the chunk's length, or (0, err) when the
     * marker write failed, in which case the chunk stays captured.
     */
    method Write(line: seq<byte>) returns (n: int, err: Option<Error>)
      modifies this, delegate
      ensures delegate.closed == old(delegate.closed)
      ensures useDelegate ==>
        && lines == old(lines)
        && delegate.written == old(delegate.written) + [line]
        && WriteReply(n, err) == delegate.reply(|old(delegate.written)|, line)
      ensures !useDelegate ==>
        && lines == old(lines) + [Text(line)]
        && Format() == old(Format()) + Text(line)
        && delegate.written == old(delegate.written) + [Marker]
        && var marker := delegate.reply(|old(delegate.written)|, Marker);
           if marker.err.Some? then n == 0 && err == marker.err
           else n == |line| && err == None
    {
      if useDelegate {
        n, err := delegate.Write(line);
        return;
      }
      JoinAppend(lines, Text(line));
      lines := lines + [Text(line)];
      var _, e := delegate.Write(Marker);
      if e.Some? {
        return 0, e;
      }
      return |line|, None;
    }

    /** Closes the delegate and nothing else. */
    method Close() returns (err: Option<Error>)
      modifies delegate
      ensures delegate.closed && delegate.written == old(delegate.written)
      ensures err == delegate.closeReply
    {
      err := delegate.Close();
    }
  }
}
