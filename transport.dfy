/**
 * The HTTP POST of `AuthenticationService.executePost`: the network is an
 * oracle, and what is modelled is how the lines it delivers become the
 * response text.
 */
module Transport {
  import opened Wrappers
  import opened Java

  /** A line as `BufferedReader.readLine` returns it: without its terminator. */
  type Line = s: string | '\r' !in s && '\n' !in s

  /**
   * The remote side of one POST: for a target URL and a request body, either
   * the lines of the response body, or `None` when any step of the exchange
   * (connecting, writing, a non-2xx status, reading) throws.
   */
  type Wire = (string, string) -> Option<seq<Line>>

  /** The response text for these lines: every line followed by a carriage return. */
  function Joined(lines: seq<string>): string
  {
    if lines == [] then "" else lines[0] + "\r" + Joined(lines[1..])
  }

  lemma {:induction false} JoinedSnoc(lines: seq<string>, line: string)
    ensures Joined(lines + [line]) == Joined(lines) + line + "\r"
  {
    if lines != [] {
      assert (lines + [line])[1..] == lines[1..] + [line];
      JoinedSnoc(lines[1..], line);
    }
  }

  /** The position of the first carriage return in `s`, or `|s|` when there is none. */
  function IndexOfCR(s: string): (k: nat)
    ensures k <= |s|
    ensures forall i :: 0 <= i < k ==> s[i] != '\r'
    ensures k < |s| ==> s[k] == '\r'
  {
    if s == [] || s[0] == '\r' then 0 else 1 + IndexOfCR(s[1..])
  }

  /** Cuts text at each carriage return; a final unterminated piece is kept as a line. */
  function SplitOnCR(s: string): seq<string>
    decreases |s|
  {
    if s == [] then []
    else
      var k := IndexOfCR(s);
      if k == |s| then [s] else [s[..k]] + SplitOnCR(s[k + 1..])
  }

  /** The first carriage return after a line without one ends that line. */
  lemma SplitFirstLine(line: Line, rest: string)
    ensures SplitOnCR(line + "\r" + rest) == [line] + SplitOnCR(rest)
  {
    var s := line + "\r" + rest;
    var k := IndexOfCR(s);
    assert s[|line|] == '\r';
    assert forall i :: 0 <= i < |line| ==> s[i] == line[i] && line[i] in line;
    assert k == |line|;
    assert s[..k] == line;
    assert s[k + 1..] == rest;
  }

  /** Cutting the response text at its carriage returns gives back the lines read. */
  lemma {:induction false} SplitJoined(lines: seq<Line>)
    ensures SplitOnCR(Joined(lines)) == lines
  {
    if lines != [] {
      SplitFirstLine(lines[0], Joined(lines[1..]));
      SplitJoined(lines[1..]);
    }
  }

  /** The response text is empty exactly when the body had no lines at all. */
  lemma JoinedEmpty(lines: seq<string>)
    ensures Joined(lines) == "" <==> lines == []
  {
    if lines != [] {
      assert |Joined(lines)| >= 1;
    }
  }

  /**
   * What `executePost` returns for a reply: `null` when the exchange threw,
   * otherwise the lines joined by `Joined` in a freshly built string.
   */
  function PostResult(reply: Option<seq<Line>>): StrRef
  {
    match reply
    case None => Null
    case Some(lines) => Str(Joined(lines), false)
  }

  /**
   * `executePost`: POSTs `body` to `targetUrl` and reads the reply line by
   * line into a buffer, appending a carriage return after each line. Any
   * exception gives `null`. The buffer's `toString()` is a new object, never
   * the interned literal.
   */
  method ExecutePost(wire: Wire, targetUrl: string, body: string) returns (r: StrRef)
    ensures r == PostResult(wire(targetUrl, body))
  {
    var reply := wire(targetUrl, body);
    if reply.None? {
      return Null;
    }
    var lines := reply.value;
    var response := "";
    var i := 0;
    while i < |lines|
      invariant 0 <= i <= |lines|
      invariant response == Joined(lines[..i])
    {
      JoinedSnoc(lines[..i], lines[i]);
      assert lines[..i + 1] == lines[..i] + [lines[i]];
      response := response + lines[i] + "\r";
      i := i + 1;
    }
    assert lines[..i] == lines;
    r := Str(response, false);
  }
}
