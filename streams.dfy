/**
 * Readers as the sequence of results their Read calls return, writers as
 * growing byte sequences, and the 4-byte copy loop that PipeStream and
 * PipeToResponse run between them.
 */
module Streams {
  import opened Wrappers
  import opened Http

  /** The size of the buffer `p := make([]byte, 4)` that both copy loops read into. */
  const BufferSize := 4

  /** What one Read into that buffer can hand back: at most BufferSize bytes (the io.Reader contract). */
  type Chunk = s: seq<byte> | |s| <= BufferSize

  /** The last Read of a reader: io.EOF with its final bytes, or another error with the bytes read alongside it. */
  datatype End = Eof(last: Chunk) | Failed(partial: Chunk, err: Error)

  /** A reader: the results of the Reads that returned a nil error, in order, then the Read that returned an error. */
  datatype Stream = Stream(chunks: seq<Chunk>, end: End)

  /** An exchange's response: status code, headers and the raw body reader. */
  datatype Response = Response(status: int, header: Header, body: Stream)

  /** A response body after Close: every Read fails (net/http's read on a closed body). */
  const ClosedBody := Stream([], Failed([], ReadOnClosedBody))

  /** The result the loop's `Read(p)` returns at read number `i`. */
  datatype ReadResult = ReadResult(data: Chunk, err: Option<Error>, eof: bool)

  function ReadAt(s: Stream, i: nat): (r: ReadResult)
    requires i <= |s.chunks|
    ensures i < |s.chunks| <==> r.err.None? && !r.eof
  {
    if i < |s.chunks| then ReadResult(s.chunks[i], None, false)
    else match s.end
      case Eof(last) => ReadResult(last, None, true)
      case Failed(partial, e) => ReadResult(partial, Some(e), false)
  }

  /** The bytes of a list of slices, one after the other. */
  function Concat(cs: seq<seq<byte>>): seq<byte>
  {
    if cs == [] then [] else Concat(cs[..|cs| - 1]) + cs[|cs| - 1]
  }

  lemma {:induction false} ConcatAppend(cs: seq<seq<byte>>, c: seq<byte>)
    ensures Concat(cs + [c]) == Concat(cs) + c
  {
    assert (cs + [c])[..|cs|] == cs;
  }

  /** Everything the reader produces up to its end: the bytes before an error, or all bytes to EOF. */
  function Content(s: Stream): seq<byte>
  {
    Concat(s.chunks) + (if s.end.Eof? then s.end.last else [])
  }

  /** ioutil.ReadAll: the whole content at EOF, or the reader's error. */
  function ReadAll(s: Stream): Result<seq<byte>, Error>
  {
    if s.end.Eof? then Ok(Content(s)) else Err(s.end.err)
  }

  /** The slices the copy loop passes to Write, in order: every nil-error read, and at EOF its final slice. */
  function Writes(s: Stream): (ws: seq<seq<byte>>)
    ensures forall i :: 0 <= i < |ws| ==> |ws[i]| <= BufferSize
    ensures s.chunks <= ws && (|ws| == |s.chunks| + 1 <==> s.end.Eof?) && |ws| <= |s.chunks| + 1
  {
    s.chunks + (if s.end.Eof? then [s.end.last] else [])
  }

  /** What the copy loop returns: nil at EOF, the reader's error otherwise. */
  function CopyResult(s: Stream): Option<Error>
  {
    if s.end.Eof? then None else Some(s.end.err)
  }

  /** The writes of the copy loop put exactly the reader's content into the sink, in read order. */
  lemma {:induction false} WritesDeliverContent(s: Stream)
    ensures Concat(Writes(s)) == Content(s)
  {
    if s.end.Eof? {
      ConcatAppend(s.chunks, s.end.last);
    } else {
      assert Writes(s) == s.chunks;
    }
  }

  /** On a clean stream the sink receives what ReadAll returns; on an error, the copy returns ReadAll's error. */
  lemma CopyAgreesWithReadAll(s: Stream)
    ensures CopyResult(s).None? <==> ReadAll(s).Ok?
    ensures ReadAll(s).Ok? ==> Concat(Writes(s)) == ReadAll(s).value
    ensures ReadAll(s).Err? ==> CopyResult(s) == Some(ReadAll(s).error)
  {
    WritesDeliverContent(s);
  }

  /** After a failed read, the sink holds the bytes of the reads before it and none of the bytes returned with the error. */
  lemma FailedCopyDropsPartial(s: Stream)
    requires s.end.Failed?
    ensures Concat(Writes(s)) == Concat(s.chunks)
    ensures Concat(Writes(s)) + s.end.partial == Concat(s.chunks + [s.end.partial])
  {
    WritesDeliverContent(s);
    ConcatAppend(s.chunks, s.end.partial);
  }

  /** However a clean reader splits its bytes into reads, the sink receives the same bytes. */
  lemma ChunkingIsInvisible(s: Stream, t: Stream)
    requires s.end.Eof? && t.end.Eof? && Content(s) == Content(t)
    ensures Concat(Writes(s)) == Concat(Writes(t))
  {
    WritesDeliverContent(s);
    WritesDeliverContent(t);
  }

  /** An io.Writer: the bytes it has accepted, and (for the proof only) every slice passed to Write. */
  class Buffer {
    var data: seq<byte>
    /** A failing writer: every Write returns an error and keeps nothing. */
    var broken: bool
    ghost var calls: seq<seq<byte>>

    constructor ()
      ensures data == [] && calls == [] && !broken
    {
      data := [];
      broken := false;
      calls := [];
    }

    method Write(p: seq<byte>) returns (n: nat, err: Option<Error>)
      modifies this
      ensures broken == old(broken)
      ensures calls == old(calls) + [p]
      ensures data == if broken then old(data) else old(data) + p
      ensures err.None? <==> !broken
      ensures n == if broken then 0 else |p|
    {
      calls := calls + [p];
      if broken {
        n, err := 0, Some(Transport(0));
      } else {
        data := data + p;
        n, err := |p|, None;
      }
    }
  }

  /**
   * The loop of PipeStream and PipeToResponse: Read into the 4-byte buffer and
   * Write what was read, ignoring the Write results, until a Read returns an
   * error; at io.EOF write the final slice and return nil, otherwise return the
   * error without writing the slice that came with it.
   */
  method CopyChunks(src: Stream, sink: Buffer) returns (err: Option<Error>)
    modifies sink
    ensures sink.broken == old(sink.broken)
    ensures sink.calls == old(sink.calls) + Writes(src)
    ensures sink.data == if sink.broken then old(sink.data) else old(sink.data) + Content(src)
    ensures err == CopyResult(src)
  {
    var i := 0;
    while true
      invariant 0 <= i <= |src.chunks|
      invariant sink.broken == old(sink.broken)
      invariant sink.calls == old(sink.calls) + src.chunks[..i]
      invariant !sink.broken ==> sink.data == old(sink.data) + Concat(src.chunks[..i])
      invariant sink.broken ==> sink.data == old(sink.data)
      decreases |src.chunks| - i
    {
      var r := ReadAt(src, i);
      if r.err.Some? {
        assert src.chunks[..i] == src.chunks;
        return r.err;
      }
      var _, _ := sink.Write(r.data);
      if r.eof {
        assert src.chunks[..i] == src.chunks;
        break;
      }
      NextChunk(src.chunks, i);
      i := i + 1;
    }
    err := None;
  }

  /** One more read taken into the prefix already copied. */
  lemma NextChunk(cs: seq<seq<byte>>, i: nat)
    requires i < |cs|
    ensures cs[..i + 1] == cs[..i] + [cs[i]]
    ensures Concat(cs[..i + 1]) == Concat(cs[..i]) + cs[i]
  {
    assert cs[..i + 1] == cs[..i] + [cs[i]];
    ConcatAppend(cs[..i], cs[i]);
  }
}
