/**
  Rust's `str::lines`: the text is cut at every `\n`; a `\r` just before a
  `\n` belongs to the line ending; the last line needs no terminator, and a
  text ending in `\n` has no empty last line.
*/
module TextLines {

  /** Index of the first `\n` in `s`, or `|s|` when there is none. */
  function NewlineIndex(s: string): (i: nat)
    ensures i <= |s|
    ensures i < |s| ==> s[i] == '\n'
    ensures forall j :: 0 <= j < i ==> s[j] != '\n'
  {
    if s == [] || s[0] == '\n' then 0 else 1 + NewlineIndex(s[1..])
  }

  /** A line with the `\r` of a `\r\n` ending removed. */
  function StripCarriageReturn(line: string): string
  {
    if |line| > 0 && line[|line| - 1] == '\r' then line[..|line| - 1] else line
  }

  function Lines(s: string): (r: seq<string>)
    ensures r == [] <==> s == []
    ensures |r| <= |s|
    decreases |s|
  {
    if s == [] then []
    else
      var i := NewlineIndex(s);
      if i == |s| then [s]
      else [StripCarriageReturn(s[..i])] + Lines(s[i + 1..])
  }

  /** Every line is a piece of the text that holds no `\n`. */
  lemma {:induction false} LinesHaveNoNewline(s: string)
    ensures forall k :: 0 <= k < |Lines(s)| ==> '\n' !in Lines(s)[k]
    decreases |s|
  {
    if s != [] {
      var i := NewlineIndex(s);
      if i < |s| {
        LinesHaveNoNewline(s[i + 1..]);
        var head := StripCarriageReturn(s[..i]);
        assert forall c :: c in head ==> c in s[..i];
      }
    }
  }

  /** Cutting a terminated line off the front gives that line, then the lines of the rest. */
  lemma LinesOfTerminated(line: string, rest: string)
    requires '\n' !in line
    ensures Lines(line + "\n" + rest) == [StripCarriageReturn(line)] + Lines(rest)
  {
    var s := line + "\n" + rest;
    assert s[|line|] == '\n';
    assert forall j :: 0 <= j < |line| ==> s[j] == line[j];
    assert NewlineIndex(s) == |line|;
    assert s[..|line|] == line;
    assert s[|line| + 1..] == rest;
  }
}
