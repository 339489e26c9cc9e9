/**
 From the log file to the list of lines that the control station reads: the tail loop, decoding, the
 event stream and its parser, one after the other (control_station_lite/agent/log_stream.py and
 control_station_lite/server/core/agent_client.py).
 */
module LogToClient {
  import opened Lines
  import opened LogStream
  import opened ServerSentEvents
  import opened Text

  /** `decode` is what happens to one chunk: UTF-8 decoding and stripping its line end. */
  function Decoded(decode: seq<byte> -> string, chunks: seq<seq<byte>>): (lines: seq<string>)
    ensures |lines| == |chunks|
    ensures forall i :: 0 <= i < |chunks| ==> lines[i] == decode(chunks[i])
  {
    if chunks == [] then [] else Decoded(decode, chunks[..|chunks| - 1]) + [decode(chunks[|chunks| - 1])]
  }

  /** What the client should read: the wanted history and every later line, each stripped, then "". */
  function Expected(decode: seq<byte> -> string, initial: seq<byte>, file: seq<byte>, tailLines: int): seq<string>
    requires |initial| <= |file|
  {
    StripAll(Decoded(decode, Wanted(LinesFrom(initial, 0), tailLines) + LinesFrom(file, |initial|))) + [""]
  }

  /**
   The client reads one string per chunk, in order, exactly when no decoded chunk has a line break
   before its last visible character.  When the log is written in whole lines, these are the wanted
   history and every line written until the job is done.
   */
  method StreamJobLog(initial: seq<byte>, bursts: seq<seq<byte>>, tailLines: int, seekChunk: nat,
                      decode: seq<byte> -> string)
    returns (start: nat, chunks: seq<seq<byte>>, received: seq<string>)
    requires seekChunk >= 1
    ensures
      var file := FileAt(initial, bursts, |bursts|);
      && start <= |initial| <= |file| && StartFor(initial, tailLines, start) && Concat(chunks) == file[start..]
      && (received == StripAll(Decoded(decode, chunks)) + [""] <==> AllFaithful(Decoded(decode, chunks)))
      && (WholeLines(initial) && AllWhole(bursts) ==>
            (received == Expected(decode, initial, file, tailLines) <==> AllFaithful(Decoded(decode, chunks))))
  {
    start, chunks := TailLog(initial, bursts, tailLines, seekChunk);
    var lines := Decoded(decode, chunks);
    ParserUndoesPrinter(lines);
    received := ReadStream(SseEvents(lines));
  }
}
