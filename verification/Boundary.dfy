/** The multipart kernels of src/http/body/bytes.ts: searching and rewriting a boundary in a
    byte buffer, and the line-ending rules of text parts. */
module Boundary {
  import opened Basics

  predicate MatchAt(source: seq<byte>, needle: seq<byte>, i: int) {
    0 <= i && i + |needle| <= |source| && source[i..i + |needle|] == needle
  }

  ghost predicate NoMatch(source: seq<byte>, needle: seq<byte>, from: int, to: int) {
    forall i :: from <= i < to ==> !MatchAt(source, needle, i)
  }

  /** `findSequence`: the least match at or after `offset`, or -1. */
  method FindSequence(source: array<byte>, needle: array<byte>, offset: nat) returns (index: int)
    ensures index == -1 || (offset <= index && MatchAt(source[..], needle[..], index) &&
                            NoMatch(source[..], needle[..], offset, index))
    ensures index == -1 ==> forall i :: offset <= i ==> !MatchAt(source[..], needle[..], i)
  {
    index := offset;
    while index <= source.Length - needle.Length
      invariant offset <= index
      invariant NoMatch(source[..], needle[..], offset, index)
    {
      var part := 0;
      while part < needle.Length && source[index + part] == needle[part]
        invariant part <= needle.Length
        invariant source[index..index + part] == needle[..part]
      {
        part := part + 1;
      }
      if part == needle.Length {
        assert needle[..part] == needle[..] && source[index..index + part] == source[..][index..index + part];
        return;
      }
      assert source[..][index..index + needle.Length][part] != needle[..][part];
      index := index + 1;
    }
    index := -1;
  }

  // ----- what rewriting means -----

  /** Replace every leftmost, non-overlapping occurrence. */
  function ReplaceAll(source: seq<byte>, needle: seq<byte>, replacement: seq<byte>): seq<byte>
    requires needle != []
    decreases |source|
  {
    if |source| < |needle| then source
    else if source[..|needle|] == needle then replacement + ReplaceAll(source[|needle|..], needle, replacement)
    else [source[0]] + ReplaceAll(source[1..], needle, replacement)
  }

  function Count(source: seq<byte>, needle: seq<byte>): nat
    requires needle != []
    decreases |source|
  {
    if |source| < |needle| then 0
    else if source[..|needle|] == needle then 1 + Count(source[|needle|..], needle)
    else Count(source[1..], needle)
  }

  lemma StepOver(source: seq<byte>, needle: seq<byte>, replacement: seq<byte>, from: nat)
    requires needle != [] && from < |source| && !MatchAt(source, needle, from)
    ensures ReplaceAll(source[from..], needle, replacement) ==
            [source[from]] + ReplaceAll(source[from + 1..], needle, replacement)
    ensures Count(source[from..], needle) == Count(source[from + 1..], needle)
  {
    var rest := source[from..];
    if |rest| >= |needle| {
      assert rest[..|needle|] == source[from..from + |needle|];
    }
    assert rest == [source[from]] + source[from + 1..];
    assert rest[1..] == source[from + 1..];
  }

  lemma StepMatch(source: seq<byte>, needle: seq<byte>, replacement: seq<byte>, from: nat)
    requires needle != [] && MatchAt(source, needle, from)
    ensures ReplaceAll(source[from..], needle, replacement) ==
            replacement + ReplaceAll(source[from + |needle|..], needle, replacement)
    ensures Count(source[from..], needle) == 1 + Count(source[from + |needle|..], needle)
  {
    var rest := source[from..];
    assert rest[..|needle|] == source[from..from + |needle|];
    assert rest[|needle|..] == source[from + |needle|..];
  }

  /** Bytes before the first match are copied; the first match is replaced. */
  lemma {:induction false} SkipToMatch(source: seq<byte>, needle: seq<byte>, replacement: seq<byte>, from: nat, m: nat)
    requires needle != [] && from <= m && MatchAt(source, needle, m) && NoMatch(source, needle, from, m)
    ensures ReplaceAll(source[from..], needle, replacement) ==
            source[from..m] + replacement + ReplaceAll(source[m + |needle|..], needle, replacement)
    ensures Count(source[from..], needle) == 1 + Count(source[m + |needle|..], needle)
    decreases m - from
  {
    if from == m {
      StepMatch(source, needle, replacement, m);
      assert source[from..m] == [];
    } else {
      StepOver(source, needle, replacement, from);
      SkipToMatch(source, needle, replacement, from + 1, m);
      assert source[from..m] == [source[from]] + source[from + 1..m];
    }
  }

  lemma {:induction false} NoMoreMatches(source: seq<byte>, needle: seq<byte>, replacement: seq<byte>, from: nat)
    requires needle != [] && from <= |source| && NoMatch(source, needle, from, |source| + 1)
    ensures ReplaceAll(source[from..], needle, replacement) == source[from..]
    ensures Count(source[from..], needle) == 0
    decreases |source| - from
  {
    if from >= |source| {
    } else {
      StepOver(source, needle, replacement, from);
      NoMoreMatches(source, needle, replacement, from + 1);
    }
  }

  /** The preallocated size is exact. */
  lemma {:induction false} ReplacedLength(source: seq<byte>, needle: seq<byte>, replacement: seq<byte>)
    requires needle != []
    ensures |ReplaceAll(source, needle, replacement)| ==
            |source| + Count(source, needle) * (|replacement| - |needle|)
    decreases |source|
  {
    if |source| < |needle| {
    } else if source[..|needle|] == needle {
      ReplacedLength(source[|needle|..], needle, replacement);
      OneMore(Count(source[|needle|..], needle), |replacement| - |needle|);
    } else {
      ReplacedLength(source[1..], needle, replacement);
    }
  }

  lemma OneMore(n: int, d: int)
    ensures (1 + n) * d == d + n * d
  {}

  /** Replacing a needle by itself changes nothing: why equal boundaries return the input. */
  lemma {:induction false} ReplaceByItself(source: seq<byte>, needle: seq<byte>)
    requires needle != []
    ensures ReplaceAll(source, needle, needle) == source
    decreases |source|
  {
    if |source| < |needle| {
    } else if source[..|needle|] == needle {
      ReplaceByItself(source[|needle|..], needle);
    } else {
      ReplaceByItself(source[1..], needle);
    }
  }

  // ----- the rewriter -----

  /** `touched` counts writes: one for each of the first n indices, none for the others. */
  ghost predicate WrittenOnce(touched: seq<nat>, n: int) {
    forall i :: 0 <= i < |touched| ==> touched[i] == if i < n then 1 else 0
  }

  ghost function Untouched(n: nat): (touched: seq<nat>)
    ensures |touched| == n && WrittenOnce(touched, 0)
  {
    seq(n, i => 0)
  }

  /** `output.set(bytes, at)`. */
  method SetBytes(output: array<byte>, bytes: seq<byte>, at: nat, ghost touched: seq<nat>)
    returns (ghost touched': seq<nat>)
    requires at + |bytes| <= output.Length == |touched| && WrittenOnce(touched, at)
    modifies output
    ensures output[..at + |bytes|] == old(output[..at]) + bytes
    ensures output[at + |bytes|..] == old(output[at + |bytes|..])
    ensures |touched'| == |touched| && WrittenOnce(touched', at + |bytes|)
  {
    var n := 0;
    touched' := touched;
    while n < |bytes|
      invariant n <= |bytes| && |touched'| == |touched| && WrittenOnce(touched', at + n)
      invariant output[..at + n] == old(output[..at]) + bytes[..n]
      invariant output[at + n..] == old(output[at + n..])
    {
      output[at + n] := bytes[n];
      touched' := touched'[at + n := touched'[at + n] + 1];
      n := n + 1;
    }
    assert bytes[..n] == bytes;
  }

  /** One piece of the source, then the replacement. */
  method CopyPiece(output: array<byte>, piece: seq<byte>, replacement: seq<byte>, at: nat, ghost touched: seq<nat>)
    returns (end: nat, ghost touched': seq<nat>)
    requires at + |piece| + |replacement| <= output.Length == |touched| && WrittenOnce(touched, at)
    modifies output
    ensures end == at + |piece| + |replacement|
    ensures output[..end] == old(output[..at]) + piece + replacement
    ensures |touched'| == |touched| && WrittenOnce(touched', end)
  {
    touched' := SetBytes(output, piece, at, touched);
    touched' := SetBytes(output, replacement, at + |piece|, touched');
    end := at + |piece| + |replacement|;
  }

  /** From match k on, the matches are the leftmost non-overlapping ones between `from` and `upto`. */
  ghost predicate Scan(source: seq<byte>, needle: seq<byte>, from: nat, matches: seq<nat>, k: nat, upto: nat)
    requires k <= |matches|
    decreases |matches| - k
  {
    if k == |matches| then from == upto
    else
      && from <= matches[k] && MatchAt(source, needle, matches[k]) && NoMatch(source, needle, from, matches[k])
      && Scan(source, needle, matches[k] + |needle|, matches, k + 1, upto)
  }

  lemma {:induction false} ScanAppend(source: seq<byte>, needle: seq<byte>, from: nat, matches: seq<nat>, k: nat, upto: nat, m: nat)
    requires k <= |matches| && Scan(source, needle, from, matches, k, upto)
    requires upto <= m && MatchAt(source, needle, m) && NoMatch(source, needle, upto, m)
    ensures Scan(source, needle, from, matches + [m], k, m + |needle|)
    decreases |matches| - k
  {
    if k < |matches| {
      ScanAppend(source, needle, matches[k] + |needle|, matches, k + 1, upto, m);
    } else {
      assert Scan(source, needle, m + |needle|, matches + [m], k + 1, m + |needle|);
    }
  }

  lemma SkipCount(source: seq<byte>, needle: seq<byte>, from: nat, m: nat)
    requires needle != [] && from <= m && MatchAt(source, needle, m) && NoMatch(source, needle, from, m)
    ensures m + |needle| <= |source| && Count(source[from..], needle) == 1 + Count(source[m + |needle|..], needle)
  {
    SkipToMatch(source, needle, [], from, m);
  }

  lemma NoCount(source: seq<byte>, needle: seq<byte>, from: nat)
    requires needle != [] && from <= |source| && NoMatch(source, needle, from, |source| + 1)
    ensures Count(source[from..], needle) == 0
  {
    NoMoreMatches(source, needle, [], from);
  }

  lemma {:induction false} ScanCounts(source: seq<byte>, needle: seq<byte>, from: nat, matches: seq<nat>, k: nat, upto: nat)
    requires needle != [] && from <= |source| && k <= |matches| && Scan(source, needle, from, matches, k, upto)
    requires NoMatch(source, needle, upto, |source| + 1)
    ensures Count(source[from..], needle) == |matches| - k
    decreases |matches| - k
  {
    hide MatchAt, NoMatch, Count;
    if k == |matches| {
      NoCount(source, needle, from);
    } else {
      SkipCount(source, needle, from, matches[k]);
      ScanCounts(source, needle, matches[k] + |needle|, matches, k + 1, upto);
    }
  }

  /** The matches are all the leftmost non-overlapping ones of the source. */
  ghost predicate AllMatches(source: seq<byte>, needle: seq<byte>, matches: seq<nat>) {
    exists upto: nat :: Scan(source, needle, 0, matches, 0, upto) && NoMatch(source, needle, upto, |source| + 1)
  }

  /** The first loop of `replaceBoundaryBytes`. */
  method FindMatches(source: array<byte>, needle: array<byte>) returns (matches: seq<nat>)
    requires needle.Length > 0
    ensures AllMatches(source[..], needle[..], matches)
  {
    matches := [];
    var offset := 0;
    while offset <= source.Length - needle.Length
      invariant Scan(source[..], needle[..], 0, matches, 0, offset)
      decreases source.Length - offset
    {
      var found := FindSequence(source, needle, offset);
      if found < 0 {
        assert NoMatch(source[..], needle[..], offset, source.Length + 1);
        return matches;
      }
      ScanAppend(source[..], needle[..], 0, matches, 0, offset, found);
      matches := matches + [found];
      offset := found + needle.Length;
    }
    assert NoMatch(source[..], needle[..], offset, source.Length + 1);
  }

  /** What is written so far and the rewritten rest of the source make up the whole result. */
  ghost predicate Underway(source: seq<byte>, needle: seq<byte>, replacement: seq<byte>, offset: nat, written: seq<byte>)
    requires needle != [] && offset <= |source|
  {
    written + ReplaceAll(source[offset..], needle, replacement) == ReplaceAll(source, needle, replacement)
  }

  /** One turn of the copying loop fits into the result and keeps it underway. */
  lemma NextPiece(source: seq<byte>, needle: seq<byte>, replacement: seq<byte>, offset: nat, m: nat, written: seq<byte>)
    requires needle != [] && offset <= m && MatchAt(source, needle, m) && NoMatch(source, needle, offset, m)
    requires offset <= |source| && Underway(source, needle, replacement, offset, written)
    ensures m + |needle| <= |source|
    ensures Underway(source, needle, replacement, m + |needle|, written + source[offset..m] + replacement)
    ensures |written| + (m - offset) + |replacement| <= |ReplaceAll(source, needle, replacement)|
  {
    SkipToMatch(source, needle, replacement, offset, m);
    Reassociate(written, source[offset..m], replacement, ReplaceAll(source[m + |needle|..], needle, replacement));
  }

  lemma LastPiece(source: seq<byte>, needle: seq<byte>, replacement: seq<byte>, offset: nat, written: seq<byte>)
    requires needle != [] && offset <= |source| && NoMatch(source, needle, offset, |source| + 1)
    requires Underway(source, needle, replacement, offset, written)
    ensures written + source[offset..] == ReplaceAll(source, needle, replacement)
  {
    NoMoreMatches(source, needle, replacement, offset);
  }

  lemma ScanHead(source: seq<byte>, needle: seq<byte>, from: nat, matches: seq<nat>, k: nat, upto: nat)
    requires k < |matches| && Scan(source, needle, from, matches, k, upto)
    ensures from <= matches[k] && MatchAt(source, needle, matches[k]) && NoMatch(source, needle, from, matches[k])
    ensures Scan(source, needle, matches[k] + |needle|, matches, k + 1, upto)
  {}

  lemma ScanEnds(source: seq<byte>, needle: seq<byte>, from: nat, matches: seq<nat>, upto: nat)
    requires Scan(source, needle, from, matches, |matches|, upto)
    ensures from == upto
  {}

  lemma ScanFinds(source: seq<byte>, needle: seq<byte>, matches: seq<nat>, upto: nat)
    requires |matches| > 0 && Scan(source, needle, 0, matches, 0, upto)
    ensures !NoMatch(source, needle, 0, |source| + 1)
  {
    assert MatchAt(source, needle, matches[0]);
  }

  /** One turn of the copying loop: the source up to match k, then the replacement. */
  method CopyTurn(source: array<byte>, replacement: array<byte>, ghost needle: seq<byte>, offset: nat,
                  matches: seq<nat>, k: nat, ghost upto: nat, output: array<byte>, at: nat, ghost touched: seq<nat>)
    returns (end: nat, ghost touched': seq<nat>)
    requires needle != [] && k < |matches| && Scan(source[..], needle, offset, matches, k, upto)
    requires output != source && output != replacement && offset <= source.Length && at <= output.Length == |touched|
    requires output.Length == |ReplaceAll(source[..], needle, replacement[..])| && WrittenOnce(touched, at)
    requires Underway(source[..], needle, replacement[..], offset, output[..at])
    modifies output
    ensures source[..] == old(source[..]) && replacement[..] == old(replacement[..])
    ensures Scan(source[..], needle, matches[k] + |needle|, matches, k + 1, upto)
    ensures matches[k] + |needle| <= source.Length && end <= output.Length == |touched'| && WrittenOnce(touched', end)
    ensures Underway(source[..], needle, replacement[..], matches[k] + |needle|, output[..end])
  {
    hide Scan, NoMatch, MatchAt, Underway, ReplaceAll;
    ScanHead(source[..], needle, offset, matches, k, upto);
    NextPiece(source[..], needle, replacement[..], offset, matches[k], output[..at]);
    assert source[offset..matches[k]] == source[..][offset..matches[k]];
    end, touched' := CopyPiece(output, source[offset..matches[k]], replacement[..], at, touched);
  }

  /** The rest of the source after the last match. */
  method CopyTail(source: array<byte>, ghost needle: seq<byte>, ghost replacement: seq<byte>, offset: nat,
                  output: array<byte>, at: nat, ghost touched: seq<nat>)
    returns (ghost touched': seq<nat>)
    requires needle != [] && offset <= source.Length && NoMatch(source[..], needle, offset, source.Length + 1)
    requires output != source && at <= output.Length == |touched| && WrittenOnce(touched, at)
    requires output.Length == |ReplaceAll(source[..], needle, replacement)|
    requires Underway(source[..], needle, replacement, offset, output[..at])
    modifies output
    ensures output[..] == ReplaceAll(source[..], needle, replacement)
    ensures source[..] == old(source[..])
    ensures |touched'| == output.Length && WrittenOnce(touched', output.Length)
  {
    LastPiece(source[..], needle, replacement, offset, output[..at]);
    assert source[offset..] == source[..][offset..];
    touched' := SetBytes(output, source[offset..], at, touched);
    assert output[..output.Length] == output[..];
  }

  /** The copying loop: the output is the rewritten source, and every index is written once. */
  method CopyPieces(source: array<byte>, replacement: array<byte>, ghost needle: seq<byte>, width: nat,
                    matches: seq<nat>, ghost upto: nat, output: array<byte>)
    returns (ghost touched: seq<nat>)
    requires needle != [] && width == |needle|
    requires Scan(source[..], needle, 0, matches, 0, upto) && NoMatch(source[..], needle, upto, source.Length + 1)
    requires output != source && output != replacement
    requires output.Length == |ReplaceAll(source[..], needle, replacement[..])|
    modifies output
    ensures output[..] == ReplaceAll(source[..], needle, replacement[..])
    ensures |touched| == output.Length && WrittenOnce(touched, output.Length)
  {
    hide Scan, NoMatch, Underway, ReplaceAll;
    ghost var src, rpl := source[..], replacement[..];
    var sourceOffset: nat, outputOffset: nat, k: nat := 0, 0, 0;
    touched := Untouched(output.Length);
    StartUnderway(src, needle, rpl, output[..0]);
    while k < |matches|
      invariant source[..] == src && replacement[..] == rpl
      invariant k <= |matches| && sourceOffset <= source.Length && outputOffset <= output.Length == |touched|
      invariant Scan(src, needle, sourceOffset, matches, k, upto)
      invariant Underway(src, needle, rpl, sourceOffset, output[..outputOffset])
      invariant WrittenOnce(touched, outputOffset)
    {
      outputOffset, touched :=
        CopyTurn(source, replacement, needle, sourceOffset, matches, k, upto, output, outputOffset, touched);
      sourceOffset := matches[k] + width;
      k := k + 1;
    }
    ScanEnds(src, needle, sourceOffset, matches, upto);
    touched := CopyTail(source, needle, rpl, sourceOffset, output, outputOffset, touched);
  }

  lemma StartUnderway(source: seq<byte>, needle: seq<byte>, replacement: seq<byte>, written: seq<byte>)
    requires needle != [] && written == []
    ensures Underway(source, needle, replacement, 0, written)
  {
    assert source[0..] == source;
  }

  lemma Reassociate(a: seq<byte>, b: seq<byte>, c: seq<byte>, d: seq<byte>)
    ensures a + (b + c + d) == a + b + c + d
    ensures |a + (b + c + d)| == |a| + |b| + |c| + |d|
  {}

  /** `replaceBoundaryBytes`; `None` where the source throws because nothing matched. */
  method ReplaceBoundaryBytes(source: array<byte>, needle: array<byte>, replacement: array<byte>)
    returns (output: Option<array<byte>>, ghost touched: seq<nat>)
    requires needle.Length > 0
    ensures output.None? <==>
              needle[..] != replacement[..] && NoMatch(source[..], needle[..], 0, source.Length + 1)
    ensures output.Some? ==> output.value[..] == ReplaceAll(source[..], needle[..], replacement[..])
    ensures output.Some? && needle[..] != replacement[..] ==>
              fresh(output.value) && |touched| == output.value.Length && WrittenOnce(touched, |touched|)
  {
    hide Scan, NoMatch, MatchAt, ReplaceAll, Count;
    touched := [];
    if needle[..] == replacement[..] {
      ReplaceByItself(source[..], needle[..]);
      return Some(source), touched;
    }
    var matches := FindMatches(source, needle);
    ghost var upto: nat :| Scan(source[..], needle[..], 0, matches, 0, upto) &&
                           NoMatch(source[..], needle[..], upto, source.Length + 1);
    if |matches| == 0 {
      ScanEnds(source[..], needle[..], 0, matches, upto);
      return None, touched;
    }
    ScanFinds(source[..], needle[..], matches, upto);
    ScanCounts(source[..], needle[..], 0, matches, 0, upto);
    assert source[..][0..] == source[..];
    ReplacedLength(source[..], needle[..], replacement[..]);
    var result := new byte[source.Length + |matches| * (replacement.Length - needle.Length)];
    touched := CopyPieces(source, replacement, needle[..], needle.Length, matches, upto, result);
    output := Some(result);
  }

  // ----- text parts -----

  /** `normalizeLineEndings`: every line ending becomes a carriage return and a line feed. */
  function NormalizeLineEndings(v: string): string {
    if v == [] then []
    else if v[0] == '\r' && |v| > 1 && v[1] == '\n' then "\r\n" + NormalizeLineEndings(v[2..])
    else if v[0] == '\r' || v[0] == '\n' then "\r\n" + NormalizeLineEndings(v[1..])
    else [v[0]] + NormalizeLineEndings(v[1..])
  }

  /** Carriage returns and line feeds occur only as pairs. */
  predicate Paired(v: string) {
    if v == [] then true
    else if v[0] == '\r' then |v| > 1 && v[1] == '\n' && Paired(v[2..])
    else v[0] != '\n' && Paired(v[1..])
  }

  lemma {:induction false} NormalizedIsPaired(v: string)
    ensures Paired(NormalizeLineEndings(v))
    decreases |v|
  {
    if v == [] {
    } else {
      var rest := if v[0] == '\r' && |v| > 1 && v[1] == '\n' then v[2..] else v[1..];
      NormalizedIsPaired(rest);
      assert ("\r\n" + NormalizeLineEndings(rest))[2..] == NormalizeLineEndings(rest);
      assert ([v[0]] + NormalizeLineEndings(rest))[1..] == NormalizeLineEndings(rest);
    }
  }

  lemma {:induction false} PairedIsFixed(v: string)
    requires Paired(v)
    ensures NormalizeLineEndings(v) == v
    decreases |v|
  {
    if v == [] {
    } else {
      if v[0] == '\r' {
        PairedIsFixed(v[2..]);
        assert v == "\r\n" + v[2..];
      } else {
        PairedIsFixed(v[1..]);
        assert v == [v[0]] + v[1..];
      }
    }
  }

  /** A text is left alone exactly when it is already normal; so normalizing twice is once. */
  lemma {:induction false} NormalizeFixesExactlyPaired(v: string)
    ensures NormalizeLineEndings(v) == v <==> Paired(v)
    ensures NormalizeLineEndings(NormalizeLineEndings(v)) == NormalizeLineEndings(v)
  {
    NormalizedIsPaired(v);
    PairedIsFixed(NormalizeLineEndings(v));
    if Paired(v) { PairedIsFixed(v); }
  }

  /** The lines of a text; a line ends at a carriage return, a line feed, or the two together. */
  function Lines(v: string): (lines: seq<string>)
    ensures lines != []
  {
    if v == [] then [""]
    else if v[0] == '\r' && |v| > 1 && v[1] == '\n' then [""] + Lines(v[2..])
    else if v[0] == '\r' || v[0] == '\n' then [""] + Lines(v[1..])
    else
      var rest := Lines(v[1..]);
      [[v[0]] + rest[0]] + rest[1..]
  }

  function JoinLines(lines: seq<string>): string
    requires lines != []
  {
    if |lines| == 1 then lines[0] else lines[0] + "\r\n" + JoinLines(lines[1..])
  }

  /** Normalizing keeps the lines and only joins them with the pair. */
  lemma {:induction false} NormalizeKeepsLines(v: string)
    ensures NormalizeLineEndings(v) == JoinLines(Lines(v))
    decreases |v|
  {
    if v == [] {
    } else if v[0] == '\r' && |v| > 1 && v[1] == '\n' {
      NormalizeKeepsLines(v[2..]);
      assert ([""] + Lines(v[2..]))[1..] == Lines(v[2..]);
    } else if v[0] == '\r' || v[0] == '\n' {
      NormalizeKeepsLines(v[1..]);
      assert ([""] + Lines(v[1..]))[1..] == Lines(v[1..]);
    } else {
      var rest := Lines(v[1..]);
      NormalizeKeepsLines(v[1..]);
      assert ([[v[0]] + rest[0]] + rest[1..])[1..] == rest[1..];
      if |rest| == 1 { assert JoinLines(Lines(v)) == [v[0]] + rest[0]; }
      else { assert [v[0]] + (rest[0] + "\r\n" + JoinLines(rest[1..])) == ([v[0]] + rest[0]) + "\r\n" + JoinLines(rest[1..]); }
    }
  }

  function ReplaceChar(v: string, c: char, text: string): string {
    if v == [] then [] else (if v[0] == c then text else [v[0]]) + ReplaceChar(v[1..], c, text)
  }

  function EscapeMultipartParameter(v: string): string {
    ReplaceChar(ReplaceChar(ReplaceChar(NormalizeLineEndings(v), '\r', "%0D"), '\n', "%0A"), '"', "%22")
  }

  lemma {:induction false} ReplaceCharRemoves(v: string, c: char, text: string, other: char)
    requires c !in text && other !in text
    ensures c !in ReplaceChar(v, c, text)
    ensures other !in v ==> other !in ReplaceChar(v, c, text)
  {
    if v == [] {
    } else {
      ReplaceCharRemoves(v[1..], c, text, other);
    }
  }

  /** An escaped parameter cannot end its quoted string or its header line. */
  lemma EscapedParameterIsInert(v: string)
    ensures '\r' !in EscapeMultipartParameter(v) && '\n' !in EscapeMultipartParameter(v) && '"' !in EscapeMultipartParameter(v)
  {
    var a := NormalizeLineEndings(v);
    var b := ReplaceChar(a, '\r', "%0D");
    var c := ReplaceChar(b, '\n', "%0A");
    ReplaceCharRemoves(a, '\r', "%0D", '\r');
    ReplaceCharRemoves(b, '\n', "%0A", '\r');
    ReplaceCharRemoves(c, '"', "%22", '\r');
    ReplaceCharRemoves(c, '"', "%22", '\n');
  }

  /** How one character of a parameter is written. */
  function Escaped(c: char): string {
    if c == '\r' then "%0D" else if c == '\n' then "%0A" else if c == '"' then "%22" else [c]
  }

  function EscapedAll(v: string): string {
    if v == [] then [] else Escaped(v[0]) + EscapedAll(v[1..])
  }

  lemma {:induction false} ReplaceCharJoins(a: string, b: string, c: char, text: string)
    ensures ReplaceChar(a + b, c, text) == ReplaceChar(a, c, text) + ReplaceChar(b, c, text)
  {
    if a == [] {
      assert a + b == b;
    } else {
      ReplaceCharJoins(a[1..], b, c, text);
      assert (a + b)[0] == a[0] && (a + b)[1..] == a[1..] + b;
      var head, x, y := if a[0] == c then text else [a[0]], ReplaceChar(a[1..], c, text), ReplaceChar(b, c, text);
      Chained(head, x, head + x, y, head + x + y);
    }
  }

  function ReplaceThree(v: string): string {
    ReplaceChar(ReplaceChar(ReplaceChar(v, '\r', "%0D"), '\n', "%0A"), '"', "%22")
  }

  lemma ReplaceThreeJoins(a: string, b: string)
    ensures ReplaceThree(a + b) == ReplaceThree(a) + ReplaceThree(b)
  {
    ReplaceCharJoins(a, b, '\r', "%0D");
    ReplaceCharJoins(ReplaceChar(a, '\r', "%0D"), ReplaceChar(b, '\r', "%0D"), '\n', "%0A");
    ReplaceCharJoins(ReplaceChar(ReplaceChar(a, '\r', "%0D"), '\n', "%0A"),
                     ReplaceChar(ReplaceChar(b, '\r', "%0D"), '\n', "%0A"), '"', "%22");
  }

  lemma {:induction false} ReplaceCharSkips(v: string, c: char, text: string)
    requires c !in v
    ensures ReplaceChar(v, c, text) == v
  {
    if v == [] {
    } else {
      ReplaceCharSkips(v[1..], c, text);
    }
  }

  lemma ReplaceCharOne(c: char, d: char, text: string)
    ensures ReplaceChar([d], c, text) == if c == d then text else [d]
  {
    assert [d][1..] == [];
  }

  lemma ReplaceThreeOne(d: char)
    ensures ReplaceThree([d]) == Escaped(d)
  {
    ReplaceCharOne('\r', d, "%0D");
    ReplaceCharOne('\n', d, "%0A");
    ReplaceCharOne('"', d, "%22");
    ReplaceCharSkips("%0D", '\n', "%0A");
    ReplaceCharSkips("%0D", '"', "%22");
    ReplaceCharSkips("%0A", '"', "%22");
  }

  lemma {:induction false} ReplaceThreeIsLetterwise(v: string)
    ensures ReplaceThree(v) == EscapedAll(v)
  {
    if v == [] {
    } else {
      ReplaceThreeIsLetterwise(v[1..]);
      ReplaceThreeOne(v[0]);
      ReplaceThreeJoins([v[0]], v[1..]);
      assert [v[0]] + v[1..] == v;
    }
  }

  /** A parameter is written character by character: the three that could end it are escaped, every other
      one stays, after the line endings have been made pairs. */
  lemma EscapeIsLetterwise(v: string)
    ensures EscapeMultipartParameter(v) == EscapedAll(JoinLines(Lines(v)))
  {
    NormalizeKeepsLines(v);
    ReplaceThreeIsLetterwise(NormalizeLineEndings(v));
  }
}
