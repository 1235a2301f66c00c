/** Reading an audit log back: bufio.Scanner's lines, decoded one by one, malformed ones counted. */
module Reader {
  import opened Audit
  import opened Wrappers

  // bufio.MaxScanTokenSize: a line together with its newline must fit in this many bytes.
  const MAX_TOKEN := 65536

  predicate Short(line: string) {
    |line| < MAX_TOKEN
  }

  /** The bytes up to the first newline, or all of them. */
  function Head(input: string): (line: string)
    ensures |line| <= |input|
    ensures line == input[..|line|] && '\n' !in line
    ensures |line| < |input| ==> input[|line|] == '\n'
  {
    if input == "" || input[0] == '\n' then "" else
      var rest := Head(input[1..]);
      assert input[..|rest| + 1] == [input[0]] + input[1..][..|rest|];
      [input[0]] + rest
  }

  function Tail(input: string): string {
    var line := Head(input);
    if |line| < |input| then input[|line| + 1..] else ""
  }

  function DropCarriageReturn(line: string): string {
    if line != "" && line[|line| - 1] == '\r' then line[..|line| - 1] else line
  }

  /** One carriage return goes, and only at the end. */
  lemma OneReturnDropped(line: string)
    ensures DropCarriageReturn(line + "\r") == line
    ensures line == "" || line[|line| - 1] != '\r' ==> DropCarriageReturn(line) == line
  {
  }

  /** The tokens of a line scanner. It stops for good at a line that does not fit its buffer. */
  function Tokens(input: string): seq<string>
    decreases |input|
  {
    if input == "" || !Short(Head(input)) then []
    else [DropCarriageReturn(Head(input))] + Tokens(Tail(input))
  }

  /** The entries of the lines that decode, in order. */
  function Entries(lines: seq<string>, json: Json): seq<DecisionEntry> {
    if lines == [] then []
    else
      var last := lines[|lines| - 1];
      Entries(lines[..|lines| - 1], json)
      + if last != "" && json.unmarshal(last).Some? then [json.unmarshal(last).value] else []
  }

  /** The numbers, from 1, of the lines that are neither empty nor decodable. */
  function Warnings(lines: seq<string>, json: Json): seq<nat> {
    if lines == [] then []
    else
      var last := lines[|lines| - 1];
      Warnings(lines[..|lines| - 1], json) + if last != "" && json.unmarshal(last).None? then [|lines|] else []
  }

  function Empties(lines: seq<string>): nat {
    if lines == [] then 0
    else Empties(lines[..|lines| - 1]) + if lines[|lines| - 1] == "" then 1 else 0
  }

  lemma NextLine(lines: seq<string>, k: nat, rest: string, json: Json)
    requires k <= |lines| && Tokens(rest) == lines[k..] && rest != "" && Short(Head(rest))
    ensures k < |lines| && lines[k] == DropCarriageReturn(Head(rest))
    ensures Tokens(Tail(rest)) == lines[k + 1..] && |Tail(rest)| < |rest|
    ensures Entries(lines[..k + 1], json) ==
            Entries(lines[..k], json)
            + if lines[k] != "" && json.unmarshal(lines[k]).Some? then [json.unmarshal(lines[k]).value] else []
    ensures Warnings(lines[..k + 1], json) ==
            Warnings(lines[..k], json) + if lines[k] != "" && json.unmarshal(lines[k]).None? then [k + 1] else []
  {
    assert Tokens(rest)[1..] == Tokens(Tail(rest));
    assert lines[..k + 1][..k] == lines[..k];
  }

  method ReadEntries(input: string, json: Json) returns (entries: seq<DecisionEntry>, warnings: seq<nat>)
    ensures entries == Entries(Tokens(input), json)
    ensures warnings == Warnings(Tokens(input), json)
  {
    ghost var lines := Tokens(input);
    entries, warnings := [], [];
    var rest, lineNum := input, 0;
    while rest != "" && Short(Head(rest))
      invariant lineNum <= |lines| && Tokens(rest) == lines[lineNum..]
      invariant entries == Entries(lines[..lineNum], json) && warnings == Warnings(lines[..lineNum], json)
      decreases |rest|
    {
      NextLine(lines, lineNum, rest, json);
      var line := DropCarriageReturn(Head(rest));
      rest := Tail(rest);
      lineNum := lineNum + 1;
      if |line| == 0 {
        continue;
      }
      var decoded := json.unmarshal(line);
      if decoded.None? {
        warnings := warnings + [lineNum];
        continue;
      }
      entries := entries + [decoded.value];
    }
    assert lines[lineNum..] == [] && lines[..lineNum] == lines;
  }

  /** Every line scanned is an entry, a warning or empty, and the warnings are in line order. */
  lemma {:induction false} EveryLineAccounted(lines: seq<string>, json: Json)
    ensures |Entries(lines, json)| + |Warnings(lines, json)| + Empties(lines) == |lines|
    ensures forall i, j :: 0 <= i < j < |Warnings(lines, json)| ==> Warnings(lines, json)[i] < Warnings(lines, json)[j]
    ensures forall i :: 0 <= i < |Warnings(lines, json)| ==>
              var n := Warnings(lines, json)[i]; 1 <= n <= |lines| && lines[n - 1] != "" && json.unmarshal(lines[n - 1]).None?
  {
    if lines != [] {
      var init := lines[..|lines| - 1];
      EveryLineAccounted(init, json);
      var before, after := Warnings(init, json), Warnings(lines, json);
      assert forall i :: 0 <= i < |before| ==> after[i] == before[i];
    }
  }

  /** The lines before the first that does not fit the scanner's buffer. */
  function Readable(lines: seq<string>): seq<string> {
    if lines == [] || !Short(lines[0]) then [] else [lines[0]] + Readable(lines[1..])
  }

  lemma {:induction false} HeadOfLine(line: string, rest: string)
    requires '\n' !in line
    ensures Head(line + "\n" + rest) == line && Tail(line + "\n" + rest) == rest
  {
    var input := line + "\n" + rest;
    if line != "" {
      HeadOfLine(line[1..], rest);
      assert input[1..] == line[1..] + "\n" + rest;
    }
  }

  /** The lines as the scanner hands them out, without a carriage return at the end. */
  function Stripped(lines: seq<string>): seq<string> {
    seq(|lines|, i requires 0 <= i < |lines| => DropCarriageReturn(lines[i]))
  }

  lemma StrippedConcatenates(a: seq<string>, b: seq<string>)
    ensures Stripped(a + b) == Stripped(a) + Stripped(b)
  {
  }

  /** Scanning what was written line by line gives back the lines up to the first over-long one. */
  lemma {:induction false} ScanWritten(lines: seq<string>)
    requires forall i :: 0 <= i < |lines| ==> '\n' !in lines[i]
    ensures Tokens(Join(lines)) == Stripped(Readable(lines))
  {
    if lines != [] {
      assert '\n' !in lines[0];
      ScanWritten(lines[1..]);
      HeadOfLine(lines[0], Join(lines[1..]));
      StrippedConcatenates([lines[0]], Readable(lines[1..]));
      assert Stripped([lines[0]]) == [DropCarriageReturn(lines[0])];
    }
  }

  /** So all of them come back exactly when none is over-long. */
  lemma {:induction false} ReadableExactly(lines: seq<string>)
    ensures Readable(lines) == lines <==> forall i :: 0 <= i < |lines| ==> |lines[i]| <= 65535
  {
    if lines != [] {
      ReadableExactly(lines[1..]);
      if Short(lines[0]) {
        assert Readable(lines)[1..] == Readable(lines[1..]);
        assert lines == [lines[0]] + lines[1..];
      }
    }
  }
}
