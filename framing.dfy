/** The receive-side framing rule of the TCP server, as pure functions.

    Each accepted connection starts with an empty accumulation. Every
    completed receive of `bytesRead > 0` bytes appends the ASCII decoding of
    those bytes to the accumulation and publishes the whole accumulation as
    the server's last message; another receive is issued only while the
    accumulation does not contain the sentinel "<EOF>". A receive of zero
    bytes changes nothing and issues nothing. */
module Framing {
  import opened Net

  /** Size of the per-connection receive buffer. */
  const BufferSize: nat := 1024

  /** The end-of-message sentinel scanned for in the accumulation. */
  const EofTag: string := "<EOF>"

  /** ASCII decoding of one byte: bytes above 127 become '?'. */
  function AsciiChar(b: byte): (c: char)
    ensures c as int < 128
    ensures b < 128 ==> c as int == b as int
    ensures b >= 128 ==> c == '?'
  {
    if b < 128 then (b as int) as char else '?'
  }

  /** ASCII decoding of a byte sequence: one character per byte. */
  function AsciiDecode(bytes: seq<byte>): (s: string)
    ensures |s| == |bytes|
    ensures forall i :: 0 <= i < |bytes| ==> s[i] == AsciiChar(bytes[i])
  {
    seq(|bytes|, i requires 0 <= i < |bytes| => AsciiChar(bytes[i]))
  }

  /** `pat` occurs in `s` starting at position `j`. */
  predicate OccursAt(s: string, pat: string, j: int)
  {
    0 <= j && j + |pat| <= |s| && s[j..j + |pat|] == pat
  }

  /** The accumulation holds the sentinel somewhere. */
  ghost predicate HasEof(s: string)
  {
    exists j :: OccursAt(s, EofTag, j)
  }

  /** First occurrence of `pat` in `s` at or after `k`, or -1. */
  function IndexFrom(s: string, pat: string, k: nat): (r: int)
    ensures r == -1 || (k <= r && OccursAt(s, pat, r))
    ensures forall j :: k <= j && (r == -1 || j < r) ==> !OccursAt(s, pat, j)
    decreases |s| - k
  {
    if k + |pat| > |s| then -1
    else if s[k..k + |pat|] == pat then k
    else IndexFrom(s, pat, k + 1)
  }

  /** Ordinal String.IndexOf: the first position of `pat` in `s`, or -1
      when it does not occur. */
  function IndexOf(s: string, pat: string): (r: int)
    ensures r >= 0 ==> OccursAt(s, pat, r) && forall j :: 0 <= j < r ==> !OccursAt(s, pat, j)
    ensures r < 0 <==> forall j :: !OccursAt(s, pat, j)
    ensures r >= -1
  {
    IndexFrom(s, pat, 0)
  }

  /** Once the sentinel is in the accumulation, appending more keeps it there. */
  lemma EofPersists(s: string, t: string)
    requires HasEof(s)
    ensures HasEof(s + t)
  {
    var j :| OccursAt(s, EofTag, j);
    assert (s + t)[j..j + |EofTag|] == s[j..j + |EofTag|];
    assert OccursAt(s + t, EofTag, j);
  }

  /** What one completed receive does to the per-connection state. */
  datatype ReadOutcome = ReadOutcome(acc: string, published: bool, readAgain: bool)

  /** One ReadCallback: `chunk` is the `bytesRead` bytes the socket delivered. */
  function ReadStep(acc: string, chunk: seq<byte>): (r: ReadOutcome)
    ensures |chunk| == 0 ==> r.acc == acc && !r.published && !r.readAgain
    ensures |r.acc| == |acc| + |chunk|
    ensures |chunk| > 0 ==> r.published && acc <= r.acc && r.acc[|acc|..] == AsciiDecode(chunk)
    ensures r.readAgain <==> |chunk| > 0 && !HasEof(r.acc)
  {
    if |chunk| > 0 then
      var content := acc + AsciiDecode(chunk);
      ReadOutcome(content, true, IndexOf(content, EofTag) == -1)
    else
      ReadOutcome(acc, false, false)
  }

  /** Result of a chain of receives on one connection. `reads` counts the
      ReadCallbacks that ran; `pending` says whether a further receive is
      still outstanding after them; `lastMessage` is the server's last
      message afterwards. */
  datatype SessionOutcome = SessionOutcome(acc: string, readCount: nat, pending: bool, lastMessage: Option<string>)

  /** The receive chain of one connection, fed the successive chunks the
      socket delivers; chunks after the chain stops are never read. */
  function Session(acc: string, chunks: seq<seq<byte>>, last: Option<string>): (r: SessionOutcome)
    ensures r.readCount <= |chunks|
    ensures r.readCount < |chunks| ==> !r.pending
    decreases |chunks|
  {
    if chunks == [] then SessionOutcome(acc, 0, true, last)
    else
      var step := ReadStep(acc, chunks[0]);
      var last' := if step.published then Some(step.acc) else last;
      if step.readAgain then
        var rest := Session(step.acc, chunks[1..], last');
        rest.(readCount := rest.readCount + 1)
      else
        SessionOutcome(step.acc, 1, false, last')
  }

  /** Concatenated ASCII decoding of a sequence of chunks. */
  function DecodeAll(chunks: seq<seq<byte>>): (s: string)
    decreases |chunks|
  {
    if chunks == [] then "" else AsciiDecode(chunks[0]) + DecodeAll(chunks[1..])
  }

  /** Every chunk fits the receive buffer. */
  predicate ChunksFit(chunks: seq<seq<byte>>)
  {
    forall k :: 0 <= k < |chunks| ==> |chunks[k]| <= BufferSize
  }

  /** The accumulation is the old accumulation followed by exactly the
      chunks that were read, in order. */
  lemma {:induction false} SessionAccumulates(acc: string, chunks: seq<seq<byte>>, last: Option<string>)
    ensures Session(acc, chunks, last).acc == acc + DecodeAll(chunks[..Session(acc, chunks, last).readCount])
    decreases |chunks|
  {
    if chunks == [] {
      assert chunks[..0] == [];
    } else {
      var step := ReadStep(acc, chunks[0]);
      var last' := if step.published then Some(step.acc) else last;
      assert step.acc == acc + AsciiDecode(chunks[0]);
      var k := if step.readAgain then Session(step.acc, chunks[1..], last').readCount else 0;
      DecodeAllPrefix(chunks, k);
      if step.readAgain {
        SessionAccumulates(step.acc, chunks[1..], last');
      } else {
        assert chunks[1..][..0] == [];
      }
    }
  }

  lemma DecodeAllPrefix(chunks: seq<seq<byte>>, k: nat)
    requires k < |chunks|
    ensures DecodeAll(chunks[..k + 1]) == AsciiDecode(chunks[0]) + DecodeAll(chunks[1..][..k])
  {
    var pre := chunks[..k + 1];
    assert pre[0] == chunks[0] && pre[1..] == chunks[1..][..k];
  }

  /** After every read but the last of the chain a further receive was
      issued, because that read brought data and the accumulation did not
      yet hold the sentinel. */
  lemma {:induction false} SessionReadsAgain(acc: string, chunks: seq<seq<byte>>, last: Option<string>)
    ensures var r := Session(acc, chunks, last);
      forall j :: 0 <= j < r.readCount - 1 ==> |chunks[j]| > 0 && !HasEof(acc + DecodeAll(chunks[..j + 1]))
    decreases |chunks|
  {
    if chunks != [] {
      var step := ReadStep(acc, chunks[0]);
      var last' := if step.published then Some(step.acc) else last;
      if step.readAgain {
        var rest := Session(step.acc, chunks[1..], last');
        SessionReadsAgain(step.acc, chunks[1..], last');
        forall j | 0 <= j < rest.readCount
          ensures |chunks[j]| > 0 && !HasEof(acc + DecodeAll(chunks[..j + 1]))
        {
          PrefixAfterFirst(acc, chunks, j);
          if j > 0 {
            assert 0 <= j - 1 < rest.readCount - 1;
          }
        }
      }
    }
  }

  /** The accumulation after the first `j + 1` chunks, seen from the
      accumulation after the first one. */
  lemma PrefixAfterFirst(acc: string, chunks: seq<seq<byte>>, j: nat)
    requires j < |chunks|
    ensures acc + DecodeAll(chunks[..j + 1]) == (acc + AsciiDecode(chunks[0])) + DecodeAll(chunks[1..][..j])
    ensures j > 0 ==> chunks[1..][j - 1] == chunks[j] && (j - 1) + 1 == j
    ensures j == 0 ==> acc + DecodeAll(chunks[..j + 1]) == acc + AsciiDecode(chunks[0])
  {
    DecodeAllPrefix(chunks, j);
    if j == 0 {
      assert chunks[1..][..0] == [];
    }
  }

  /** The chain stops exactly at an empty read or once the accumulation
      holds the sentinel; while neither happened a receive is pending. */
  lemma {:induction false} SessionStopsIff(acc: string, chunks: seq<seq<byte>>, last: Option<string>)
    ensures var r := Session(acc, chunks, last);
      !r.pending <==> r.readCount > 0 && (|chunks[r.readCount - 1]| == 0 || HasEof(r.acc))
    decreases |chunks|
  {
    if chunks != [] {
      var step := ReadStep(acc, chunks[0]);
      var last' := if step.published then Some(step.acc) else last;
      if step.readAgain {
        var rest := Session(step.acc, chunks[1..], last');
        SessionStopsIff(step.acc, chunks[1..], last');
        if rest.readCount > 0 {
          assert chunks[1..][rest.readCount - 1] == chunks[rest.readCount];
        }
      }
    }
  }

  /** The last message is overwritten with the final accumulation as soon as
      any byte arrives; a chain that brought no data leaves it untouched. */
  lemma {:induction false} SessionLastMessage(acc: string, chunks: seq<seq<byte>>, last: Option<string>)
    ensures var r := Session(acc, chunks, last);
      r.lastMessage == if |r.acc| == |acc| then last else Some(r.acc)
    decreases |chunks|
  {
    if chunks != [] {
      var step := ReadStep(acc, chunks[0]);
      var last' := if step.published then Some(step.acc) else last;
      if step.readAgain {
        var rest := Session(step.acc, chunks[1..], last');
        SessionLastMessage(step.acc, chunks[1..], last');
        SessionGrows(step.acc, chunks[1..], last');
        assert |rest.acc| == |step.acc| ==> rest.acc == step.acc;
        assert |rest.acc| >= |step.acc| > |acc|;
      }
    }
  }

  /** The accumulation only ever grows: the old one stays its prefix. */
  lemma {:induction false} SessionGrows(acc: string, chunks: seq<seq<byte>>, last: Option<string>)
    ensures acc <= Session(acc, chunks, last).acc
    decreases |chunks|
  {
    if chunks != [] {
      var step := ReadStep(acc, chunks[0]);
      var last' := if step.published then Some(step.acc) else last;
      if step.readAgain {
        SessionGrows(step.acc, chunks[1..], last');
      }
    }
  }

  /** Each read adds at most one buffer's worth of characters. */
  lemma {:induction false} SessionBounded(acc: string, chunks: seq<seq<byte>>, last: Option<string>)
    requires ChunksFit(chunks)
    ensures |Session(acc, chunks, last).acc| <= |acc| + Session(acc, chunks, last).readCount * BufferSize
    decreases |chunks|
  {
    if chunks != [] {
      var step := ReadStep(acc, chunks[0]);
      var last' := if step.published then Some(step.acc) else last;
      if step.readAgain {
        assert ChunksFit(chunks[1..]) by {
          forall k | 0 <= k < |chunks[1..]| ensures |chunks[1..][k]| <= BufferSize {
            assert chunks[1..][k] == chunks[k + 1];
          }
        }
        SessionBounded(step.acc, chunks[1..], last');
      }
    }
  }

  /** The accumulation, the read count and the pending flag do not depend
      on the previous last message: no framing state carries over between
      connections. One unfolding suffices, because a read that schedules
      another one has always published, so the rest of the chain starts
      from the same last message whatever came before. */
  lemma SessionIgnoresLast(acc: string, chunks: seq<seq<byte>>, l1: Option<string>, l2: Option<string>)
    ensures Session(acc, chunks, l1).acc == Session(acc, chunks, l2).acc
    ensures Session(acc, chunks, l1).readCount == Session(acc, chunks, l2).readCount
    ensures Session(acc, chunks, l1).pending == Session(acc, chunks, l2).pending
  {
    if chunks != [] && ReadStep(acc, chunks[0]).readAgain {
      assert ReadStep(acc, chunks[0]).published;
    }
  }

  /** A sentinel split across two receives is still found, because the scan
      runs over the whole accumulation and not over the newest chunk. */
  lemma SentinelAcrossChunks()
    ensures var r := Session("", [[60, 69, 79], [70, 62, 0x41]], None);
      r.readCount == 2 && !r.pending && r.acc == "<EOF>A" && r.lastMessage == Some("<EOF>A")
  {
    var first: seq<byte> := [60, 69, 79];
    var second: seq<byte> := [70, 62, 0x41];
    var s1 := ReadStep("", first);
    assert s1.acc == "<EO";
    assert s1.readAgain by {
      forall j ensures !OccursAt("<EO", EofTag, j) { }
    }
    var s2 := ReadStep("<EO", second);
    assert s2.acc == "<EOF>A";
    assert OccursAt("<EOF>A", EofTag, 0);
    assert !s2.readAgain;
    assert [[60, 69, 79], [70, 62, 0x41]][1..] == [second];
  }

  /** Last message after a sequence of accepted connections; each
      connection starts from a fresh, empty accumulation. */
  function AfterConnections(last: Option<string>, connections: seq<seq<seq<byte>>>): (r: Option<string>)
    decreases |connections|
  {
    if connections == [] then last
    else AfterConnections(Session("", connections[0], last).lastMessage, connections[1..])
  }

  /** When the most recent connection brought any data, the last message is
      exactly that connection's accumulation, whatever came before. */
  lemma {:induction false} LastConnectionWins(last: Option<string>, connections: seq<seq<seq<byte>>>)
    requires connections != []
    requires Session("", connections[|connections| - 1], None).acc != ""
    ensures AfterConnections(last, connections)
         == Some(Session("", connections[|connections| - 1], None).acc)
    decreases |connections|
  {
    var c := connections[|connections| - 1];
    if |connections| == 1 {
      SessionIgnoresLast("", c, last, None);
      SessionLastMessage("", c, last);
      assert AfterConnections(Session("", c, last).lastMessage, []) == Session("", c, last).lastMessage;
    } else {
      assert connections[1..][|connections[1..]| - 1] == c;
      LastConnectionWins(Session("", connections[0], last).lastMessage, connections[1..]);
    }
  }
}
