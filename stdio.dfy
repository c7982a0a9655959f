/** The process's standard streams as the server uses them: a buffered reader
    handing out one line per read, and an output stream that receives one
    serialised JSON value per line. */
module Stdio {
  import opened JsonValue

  /** What one `read_line` takes from the unread input: everything up to and
      including the first newline, or all that is left when there is none. */
  function SplitLine(input: string): (r: (string, string))
    ensures r.0 + r.1 == input
    ensures r.0 == [] <==> input == []
    ensures forall k :: 0 <= k < |r.0| - 1 ==> r.0[k] != '\n'
    ensures r.1 != [] ==> r.0[|r.0| - 1] == '\n'
  {
    if input == [] then ([], [])
    else if input[0] == '\n' then ([input[0]], input[1..])
    else
      var (line, rest) := SplitLine(input[1..]);
      ([input[0]] + line, rest)
  }

  /** A single line as `read_line` returns it: not empty, and a newline only at
      its end. */
  predicate IsLine(l: string) {
    l != [] && forall k :: 0 <= k < |l| - 1 ==> l[k] != '\n'
  }

  /** A line that ends in a newline, or the last line of the input, is read whole. */
  lemma {:induction false} SplitLineOfLine(l: string, rest: string)
    requires IsLine(l)
    requires l[|l| - 1] == '\n' || rest == []
    ensures SplitLine(l + rest) == (l, rest)
  {
    var input := l + rest;
    assert input[1..] == l[1..] + rest;
    if |l| == 1 {
      if l[0] != '\n' {
        assert input == l && l[1..] == [];
      }
    } else {
      assert input[0] == l[0] != '\n';
      SplitLineOfLine(l[1..], rest);
      assert [l[0]] + l[1..] == l;
    }
  }

  /** Standard input behind a `BufReader`: `remaining` is the input not yet read. */
  class LineReader {
    var remaining: string

    constructor (input: string)
      ensures remaining == input
    {
      remaining := input;
    }

    /** `read_line`: appends the next line to `buf` and returns how many
        characters it read, 0 at the end of the input. */
    method ReadLine(buf: string) returns (n: nat, line: string)
      modifies this
      ensures n == |SplitLine(old(remaining)).0|
      ensures line == buf + SplitLine(old(remaining)).0
      ensures remaining == SplitLine(old(remaining)).1
      ensures n == 0 <==> old(remaining) == []
    {
      var (chunk, rest) := SplitLine(remaining);
      n, line, remaining := |chunk|, buf + chunk, rest;
    }
  }

  /** Standard output: every write is one JSON value followed by a newline. */
  class LineWriter {
    var lines: seq<Json>

    constructor ()
      ensures lines == []
    {
      lines := [];
    }

    method WriteLine(j: Json)
      modifies this
      ensures lines == old(lines) + [j]
    {
      lines := lines + [j];
    }
  }
}
