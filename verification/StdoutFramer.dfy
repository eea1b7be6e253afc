/** The line framer of src/common/client/client_manager.cpp, fed with chunks that break anywhere. */
module StdoutFramer {
  const MAX_LINE: nat := 64 * 1024

  // ---------------------------------------------------------------------------------------------
  // The framer, byte by byte

  datatype Framer = Framer(pending: string, overflow: bool)

  function Next(f: Framer, c: char): Framer {
    if c == '\n' then Framer("", false)
    else if c == '\r' then f
    else if |f.pending| >= MAX_LINE then f.(overflow := true)
    else f.(pending := f.pending + [c])
  }

  /** The line that a byte completes. */
  function Completed(f: Framer, c: char): seq<string> {
    if c == '\n' && !f.overflow then [f.pending] else []
  }

  function After(f: Framer, bytes: string): Framer
    decreases |bytes|
  {
    if bytes == [] then f else Next(After(f, bytes[..|bytes| - 1]), bytes[|bytes| - 1])
  }

  function Lines(f: Framer, bytes: string): seq<string>
    decreases |bytes|
  {
    if bytes == [] then []
    else Lines(f, bytes[..|bytes| - 1]) + Completed(After(f, bytes[..|bytes| - 1]), bytes[|bytes| - 1])
  }

  class StdoutFramer {
    var pending: string
    var overflow: bool
    /** Every byte fed so far. */
    ghost var fed: string

    ghost function View(): Framer
      reads this
    {
      Framer(pending, overflow)
    }

    ghost predicate Valid()
      reads this
    {
      Tracks(View(), fed)
    }

    constructor ()
      ensures Valid() && fed == ""
    {
      pending, overflow, fed := "", false, "";
    }

    /** Gives the lines that the chunk completes; together with those given before they are the frames of the whole stream. */
    method Feed(bytes: string) returns (lines: seq<string>)
      requires Valid()
      modifies this
      ensures Valid() && fed == old(fed) + bytes && |pending| <= MAX_LINE
      ensures Frames(fed) == Frames(old(fed)) + lines
      ensures View() == After(old(View()), bytes) && lines == Lines(old(View()), bytes)
    {
      lines := [];
      for i := 0 to |bytes|
        invariant fed == old(fed)
        invariant View() == After(old(View()), bytes[..i]) && lines == Lines(old(View()), bytes[..i])
      {
        assert bytes[..i + 1][..i] == bytes[..i];
        var c := bytes[i];
        if c == '\n' {
          if !overflow {
            lines := lines + [pending];
          }
          pending := "";
          overflow := false;
        } else if c != '\r' {
          if |pending| >= MAX_LINE {
            if !overflow {
              overflow := true;
            }
          } else {
            pending := pending + [c];
          }
        }
      }
      assert bytes[..|bytes|] == bytes;
      FeedTracks(old(View()), old(fed), bytes);
      fed := fed + bytes;
    }
  }

  // ---------------------------------------------------------------------------------------------
  // The reference: split on line feeds, remove carriage returns, drop what is too long

  /** The parts that a line feed ends. */
  function Parts(s: string): seq<string>
    decreases |s|
  {
    if s == [] then []
    else
      var t := s[..|s| - 1];
      if s[|s| - 1] == '\n' then Parts(t) + [Rest(t)] else Parts(t)
  }

  /** What follows the last line feed. */
  function Rest(s: string): string
    decreases |s|
  {
    if s == [] then []
    else if s[|s| - 1] == '\n' then []
    else Rest(s[..|s| - 1]) + [s[|s| - 1]]
  }

  function WithoutCr(s: string): string
    decreases |s|
  {
    if s == [] then [] else WithoutCr(s[..|s| - 1]) + (if s[|s| - 1] == '\r' then [] else [s[|s| - 1]])
  }

  function Kept(parts: seq<string>): seq<string>
    decreases |parts|
  {
    if parts == [] then []
    else
      var n := |parts| - 1;
      Kept(parts[..n]) + (if |WithoutCr(parts[n])| <= 65536 then [WithoutCr(parts[n])] else [])
  }

  /** The lines of a stream. */
  function Frames(s: string): seq<string> {
    Kept(Parts(s))
  }

  function Joined(parts: seq<string>): string
    decreases |parts|
  {
    if parts == [] then [] else Joined(parts[..|parts| - 1]) + parts[|parts| - 1] + "\n"
  }

  predicate NoLf(s: string) {
    forall i :: 0 <= i < |s| ==> s[i] != '\n'
  }

  /** The parts and the rest are the stream cut at its line feeds. */
  lemma {:induction false} PartsAreTheSplit(s: string)
    ensures s == Joined(Parts(s)) + Rest(s) && NoLf(Rest(s)) && forall i :: 0 <= i < |Parts(s)| ==> NoLf(Parts(s)[i])
    decreases |s|
  {
    if s != [] {
      var t, c := s[..|s| - 1], s[|s| - 1];
      PartsAreTheSplit(t);
      assert s == t + [c];
      if c == '\n' {
        assert (Parts(t) + [Rest(t)])[..|Parts(t)|] == Parts(t);
        assert s == Joined(Parts(s)) + Rest(s);
      } else {
        assert s == Joined(Parts(s)) + Rest(s);
      }
    }
  }

  // ---------------------------------------------------------------------------------------------
  // The framer follows the reference

  /** What is pending is the beginning of the unfinished line, all of it unless that is too long. */
  predicate Tracks(f: Framer, s: string) {
    var line := WithoutCr(Rest(s));
    f.overflow == (|line| > 65536) && f.pending == if |line| > 65536 then line[..65536] else line
  }

  lemma NextTracks(f: Framer, s: string, c: char)
    requires Tracks(f, s)
    ensures Tracks(Next(f, c), s + [c]) && Frames(s + [c]) == Frames(s) + Completed(f, c)
  {
    assert (s + [c])[..|s|] == s;
    if c == '\n' {
      assert (Parts(s) + [Rest(s)])[..|Parts(s)|] == Parts(s);
    } else {
      var rest, line := Rest(s), WithoutCr(Rest(s));
      assert (rest + [c])[..|rest|] == rest;
      assert c != '\r' && |line| >= MAX_LINE ==> (line + [c])[..MAX_LINE] == line[..MAX_LINE];
    }
  }

  lemma {:induction false} FeedTracks(f: Framer, s: string, bytes: string)
    requires Tracks(f, s)
    ensures Tracks(After(f, bytes), s + bytes) && Frames(s + bytes) == Frames(s) + Lines(f, bytes)
    decreases |bytes|
  {
    hide Tracks, Next, Completed, Frames;
    if bytes == [] {
      assert s + bytes == s;
    } else {
      var front, c := bytes[..|bytes| - 1], bytes[|bytes| - 1];
      FeedTracks(f, s, front);
      NextTracks(After(f, front), s + front, c);
      assert s + bytes == (s + front) + [c];
    }
  }

  function Flat(chunks: seq<string>): string
    decreases |chunks|
  {
    if chunks == [] then [] else Flat(chunks[..|chunks| - 1]) + chunks[|chunks| - 1]
  }

  /** Feeding chunk after chunk. */
  function AfterAll(f: Framer, chunks: seq<string>): Framer
    decreases |chunks|
  {
    if chunks == [] then f else After(AfterAll(f, chunks[..|chunks| - 1]), chunks[|chunks| - 1])
  }

  function LinesOfAll(f: Framer, chunks: seq<string>): seq<string>
    decreases |chunks|
  {
    if chunks == [] then []
    else LinesOfAll(f, chunks[..|chunks| - 1]) + Lines(AfterAll(f, chunks[..|chunks| - 1]), chunks[|chunks| - 1])
  }

  /** However a stream is cut into chunks, its frames come out, and what is held back stays bounded. */
  lemma {:induction false} ChunksDoNotMatter(chunks: seq<string>)
    ensures LinesOfAll(Framer("", false), chunks) == Frames(Flat(chunks))
    ensures Tracks(AfterAll(Framer("", false), chunks), Flat(chunks)) && |AfterAll(Framer("", false), chunks).pending| <= MAX_LINE
    decreases |chunks|
  {
    if chunks != [] {
      var front := chunks[..|chunks| - 1];
      ChunksDoNotMatter(front);
      FeedTracks(AfterAll(Framer("", false), front), Flat(front), chunks[|chunks| - 1]);
    }
  }
}
