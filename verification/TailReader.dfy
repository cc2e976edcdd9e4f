/** Bounded readers of the end of a log file. */
module TailReading {
  import opened Prelude

  newtype byte = b: int | 0 <= b < 256

  type Bytes = seq<byte>

  const LF: byte := 10
  const CR: byte := 13

  /** Why a reader stopped early. */
  datatype Stop = Complete | WindowTooLarge | LineTooLong(lineNumber: nat)

  // ----- the whole-file specification -----

  /** Where the first line break starts, or the length when there is none. */
  function BreakAt(text: Bytes): (k: nat)
    ensures k <= |text|
    ensures forall i :: 0 <= i < k ==> text[i] != LF && text[i] != CR
    ensures k < |text| ==> text[k] == LF || text[k] == CR
  {
    if text == [] || text[0] == LF || text[0] == CR then 0 else 1 + BreakAt(text[1..])
  }

  /** What follows the line break that starts at `k`; CR LF is one break. */
  function AfterBreak(text: Bytes, k: nat): (rest: Bytes)
    requires k < |text|
    ensures |rest| < |text|
  {
    if text[k] == CR && k + 1 < |text| && text[k + 1] == LF then text[k + 2..] else text[k + 1..]
  }

  /** The lines of a text, broken at LF, CR or CR LF; a final break ends the last line instead of starting another. */
  function SplitLines(text: Bytes): seq<Bytes>
    decreases |text|
  {
    if text == [] then []
    else
      var k := BreakAt(text);
      if k == |text| then [text] else [text[..k]] + SplitLines(AfterBreak(text, k))
  }

  function CountLF(text: Bytes): nat {
    if text == [] then 0 else (if text[0] == LF then 1 else 0) + CountLF(text[1..])
  }

  // ----- the chunked backward reader -----

  function Join(chunks: seq<Bytes>): Bytes {
    if chunks == [] then [] else chunks[0] + Join(chunks[1..])
  }

  /** The place of the first line above the limit, or the number of lines when there is none. */
  function FirstTooLong(lines: seq<Bytes>, lineLimit: int): (k: nat)
    ensures k <= |lines|
    ensures forall i :: 0 <= i < k ==> lineLimit <= 0 || |lines[i]| <= lineLimit
    ensures k < |lines| ==> 0 < lineLimit < |lines[k]|
  {
    if lines == [] then 0
    else
      var n := |lines| - 1;
      var k := FirstTooLong(lines[..n], lineLimit);
      if k < n then k else if 0 < lineLimit < |lines[n]| then n else n + 1
  }

  /** Lines with their numbers, counted from one. */
  function Numbered(lines: seq<Bytes>): seq<(nat, Bytes)> {
    if lines == [] then []
    else Numbered(lines[..|lines| - 1]) + [(|lines|, lines[|lines| - 1])]
  }

  /** What is handed out of the given lines: all of them, or those before the first line above the limit. */
  function Handout(lines: seq<Bytes>, lineLimit: int): (seq<(nat, Bytes)>, Stop) {
    var k := FirstTooLong(lines, lineLimit);
    (Numbered(lines[..k]), if k < |lines| then LineTooLong(k + 1) else Complete)
  }

  /**
   * Reads chunks backwards until more than `maxLines` line feeds have been seen, then hands out the last lines.
   * Nothing is handed out when the window grows past the read limit first.
   */
  method TailLinesBounded(file: Bytes, maxLines: int, maxBytes: int, lineLimit: int, chunkSize: int)
    returns (lines: seq<(nat, Bytes)>, stop: Stop)
    ensures maxLines <= 0 ==> lines == [] && stop == Complete
    ensures maxLines > 0 && stop != WindowTooLarge ==>
      (lines, stop) == Handout(Last(SplitLines(file), maxLines), lineLimit)
    ensures stop == WindowTooLarge ==> lines == [] && maxLines > 0 && NeedsMoreThan(file, maxLines, maxBytes, chunkSize)
  {
    if maxLines <= 0 {
      return [], Complete;
    }
    var chunkLimit := Max(1, chunkSize);
    var tailReadLimit := if maxBytes > 0 then Max(maxBytes, chunkLimit) else chunkLimit;
    if |file| <= 0 {
      return [], Complete;
    }

    var chunks: seq<Bytes> := [];
    var bytesRead := 0;
    var position := |file|;
    var newlineCount := 0;
    while position > 0
      invariant 0 <= position <= |file|
      invariant Join(chunks) == file[position..]
      invariant bytesRead == |file| - position && bytesRead <= tailReadLimit
      invariant newlineCount <= maxLines
      invariant newlineCount == CountLF(file[position..])
      decreases position
    {
      var readSize := Min(chunkLimit, position);
      if bytesRead + readSize > tailReadLimit {
        assert Last(file, bytesRead) == file[position..];
        return [], WindowTooLarge;
      }
      var chunk := file[position - readSize..position];
      SliceJoin(file, position - readSize, position);
      CountLFSplits(chunk, file[position..]);
      position := position - readSize;
      chunks := [chunk] + chunks;
      bytesRead := bytesRead + |chunk|;
      newlineCount := newlineCount + CountLF(chunk);
      if newlineCount > maxLines {
        break;
      }
    }

    var window := Join(chunks);
    assert file == file[..position] + window;
    if newlineCount > maxLines {
      TailOfWindow(file[..position], window, maxLines);
    } else {
      assert window == file;
    }
    lines, stop := HandOutLines(Last(SplitLines(window), maxLines), lineLimit);
  }

  /** What the reader may read at most: the configured bytes, but always one chunk. */
  function ReadLimit(maxBytes: int, chunkSize: int): (r: nat)
    ensures r >= 1
  {
    Max(maxBytes, Max(1, chunkSize))
  }

  /** The file outgrows the read limit, and a read within a chunk of that limit shows too few line feeds. */
  ghost predicate NeedsMoreThan(file: Bytes, maxLines: int, maxBytes: int, chunkSize: int) {
    var limit := ReadLimit(maxBytes, chunkSize);
    && |file| > limit
    && exists seen: nat :: limit - Max(1, chunkSize) < seen <= limit && CountLF(Last(file, seen)) <= maxLines
  }

  method HandOutLines(tail: seq<Bytes>, lineLimit: int) returns (lines: seq<(nat, Bytes)>, stop: Stop)
    ensures (lines, stop) == Handout(tail, lineLimit)
    ensures stop != WindowTooLarge
  {
    lines := [];
    for i := 0 to |tail|
      invariant lines == Numbered(tail[..i]) && FirstTooLong(tail, lineLimit) >= i
    {
      if lineLimit > 0 && |tail[i]| > lineLimit {
        return lines, LineTooLong(i + 1);
      }
      assert tail[..i + 1][..i] == tail[..i];
      lines := lines + [(i + 1, tail[i])];
    }
    return lines, Complete;
  }

  lemma {:induction false} CountLFSplits(a: Bytes, b: Bytes)
    ensures CountLF(a + b) == CountLF(a) + CountLF(b)
  {
    if a == [] {
      assert a + b == b;
    } else {
      CountLFSplits(a[1..], b);
      assert (a + b)[1..] == a[1..] + b;
    }
  }

  /** The first line of a text that ends in a line feed does not depend on what follows the text. */
  lemma {:induction false} FirstLineIsSettled(a: Bytes, b: Bytes)
    requires a != [] && a[|a| - 1] == LF
    ensures BreakAt(a) < |a| && BreakAt(a + b) == BreakAt(a)
    ensures
      var rest := AfterBreak(a, BreakAt(a));
      && AfterBreak(a + b, BreakAt(a)) == rest + b
      && (rest == [] || rest[|rest| - 1] == LF)
  {
    var k := BreakAt(a);
    assert forall i :: 0 <= i < |a| ==> (a + b)[i] == a[i];
    assert a[k] == CR ==> k + 1 < |a|;
    DropOfConcat(a, b, k + 1);
    if k + 2 <= |a| {
      DropOfConcat(a, b, k + 2);
    }
  }

  lemma BreakIsThere(text: Bytes, k: nat)
    requires k < |text| && (text[k] == LF || text[k] == CR)
    requires forall i :: 0 <= i < k ==> text[i] != LF && text[i] != CR
    ensures BreakAt(text) == k
  {
  }

  lemma SplitAtBreak(a: Bytes, mark: Bytes, b: Bytes)
    requires forall i :: 0 <= i < |a| ==> a[i] != LF && a[i] != CR
    requires mark == [LF] || mark == [CR, LF] || (mark == [CR] && (b == [] || b[0] != LF))
    ensures SplitLines(a + mark + b) == [a] + SplitLines(b)
  {
    var text := a + mark + b;
    BreakIsThere(text, |a|);
    SplitStep(text);
    assert text[..|a|] == a && AfterBreak(text, |a|) == b;
  }

  /** What lines are: LF, CR LF and a CR that no LF follows end one, and what is left at the end is one. */
  lemma LinesEnd(a: Bytes, b: Bytes)
    requires forall i :: 0 <= i < |a| ==> a[i] != LF && a[i] != CR
    ensures SplitLines(a + [LF] + b) == [a] + SplitLines(b)
    ensures SplitLines(a + [CR, LF] + b) == [a] + SplitLines(b)
    ensures b == [] || b[0] != LF ==> SplitLines(a + [CR] + b) == [a] + SplitLines(b)
    ensures SplitLines(a) == if a == [] then [] else [a]
  {
    SplitAtBreak(a, [LF], b);
    SplitAtBreak(a, [CR, LF], b);
    if b == [] || b[0] != LF {
      SplitAtBreak(a, [CR], b);
    }
    assert a[..|a|] == a;
  }

  lemma SplitStep(text: Bytes)
    requires BreakAt(text) < |text|
    ensures SplitLines(text) == [text[..BreakAt(text)]] + SplitLines(AfterBreak(text, BreakAt(text)))
  {
  }

  /** A line feed is always a clean cut: nothing before it can join with anything after it. */
  lemma {:induction false} SplitAtLineFeed(a: Bytes, b: Bytes)
    requires a != [] && a[|a| - 1] == LF
    ensures SplitLines(a + b) == SplitLines(a) + SplitLines(b)
    decreases |a|
  {
    var k := BreakAt(a);
    FirstLineIsSettled(a, b);
    SplitStep(a);
    SplitStep(a + b);
    DropOfConcat(a, b, k);
    var rest := AfterBreak(a, k);
    if rest == [] {
      assert rest + b == b;
    } else {
      SplitAtLineFeed(rest, b);
    }
    ConsConcat(a[..k], SplitLines(rest), SplitLines(b));
  }

  lemma ConsConcat<T>(x: T, s: seq<T>, t: seq<T>)
    ensures [x] + s + t == [x] + (s + t)
  {
  }

  /** Every line feed ends a line. */
  lemma {:induction false} EnoughLines(text: Bytes)
    ensures |SplitLines(text)| >= CountLF(text)
    decreases |text|
  {
    if text != [] {
      var k := BreakAt(text);
      NoLFBefore(text, k);
      if k < |text| {
        var rest := AfterBreak(text, k);
        var mark := text[k..|text| - |rest|];
        assert text == (text[..k] + mark) + rest;
        CountLFSplits(text[..k] + mark, rest);
        CountLFSplits(text[..k], mark);
        OneBreak(mark);
        EnoughLines(rest);
      } else {
        assert text[..k] == text;
      }
    }
  }

  lemma OneBreak(mark: Bytes)
    requires |mark| == 1 || (|mark| == 2 && mark[0] == CR)
    ensures CountLF(mark) <= 1
  {
    assert |mark| == 2 ==> mark[1..][1..] == [];
  }

  lemma {:induction false} NoLFBefore(text: Bytes, k: nat)
    requires k <= |text| && forall i :: 0 <= i < k ==> text[i] != LF
    ensures CountLF(text[..k]) == 0
  {
    if k > 0 {
      NoLFBefore(text[1..], k - 1);
      assert text[..k][1..] == text[1..][..k - 1];
    }
  }

  function LFPlaces(text: Bytes): set<int> {
    set i | 0 <= i < |text| && text[i] == LF
  }

  /** Counting line feeds is counting the places that hold one. */
  lemma {:induction false} CountLFCounts(text: Bytes)
    ensures CountLF(text) == |LFPlaces(text)|
  {
    if text == [] {
      assert LFPlaces(text) == {};
    } else {
      var n := |text| - 1;
      assert text == text[..n] + [text[n]];
      CountLFSplits(text[..n], [text[n]]);
      CountLFCounts(text[..n]);
      assert LFPlaces(text) == LFPlaces(text[..n]) + (if text[n] == LF then {n} else {});
      assert n !in LFPlaces(text[..n]) && [text[n]][1..] == [];
    }
  }

  /** The place just after the first line feed. */
  lemma {:induction false} FirstLF(text: Bytes) returns (cut: nat)
    requires CountLF(text) > 0
    ensures 0 < cut <= |text| && text[cut - 1] == LF
    ensures CountLF(text[cut..]) == CountLF(text) - 1
  {
    if text[0] == LF {
      cut := 1;
    } else {
      var c := FirstLF(text[1..]);
      cut := c + 1;
      assert text[1..][c..] == text[cut..];
    }
  }

  /**
   * A window with more than `n` line feeds shows the last `n` lines of the whole text, wherever it starts: in the
   * middle of a line, or between a CR and its LF.
   */
  lemma {:induction false} TailOfWindow(before: Bytes, window: Bytes, n: nat)
    requires CountLF(window) > n
    ensures Last(SplitLines(before + window), n) == Last(SplitLines(window), n)
  {
    var cut := FirstLF(window);
    var head, rest := window[..cut], window[cut..];
    assert window == head + rest;
    assert before + window == (before + head) + rest;
    SplitAtLineFeed(head, rest);
    SplitAtLineFeed(before + head, rest);
    EnoughLines(rest);
    LastOfConcat(SplitLines(head), SplitLines(rest), n);
    LastOfConcat(SplitLines(before + head), SplitLines(rest), n);
  }

  // ----- the tolerant single-window reader -----

  /** Pieces between line feeds, including the empty one after a final line feed. */
  function SplitOnLF(text: Bytes): (pieces: seq<Bytes>)
    ensures pieces != []
  {
    if text == [] then [[]]
    else
      var rest := SplitOnLF(text[1..]);
      if text[0] == LF then [[]] + rest else [[text[0]] + rest[0]] + rest[1..]
  }

  /** The lines of a text broken at LF only. */
  function LFLines(text: Bytes): seq<Bytes> {
    DropEmptyEnd(SplitOnLF(text))
  }

  function DropEmptyEnd(pieces: seq<Bytes>): seq<Bytes>
    requires pieces != []
  {
    if pieces[|pieces| - 1] == [] then pieces[..|pieces| - 1] else pieces
  }

  lemma {:induction false} PiecesEnd(a: Bytes, b: Bytes)
    requires LF !in a
    ensures SplitOnLF(a + [LF] + b) == [a] + SplitOnLF(b) && SplitOnLF(a) == [a]
  {
    if a == [] {
      assert [] + [LF] + b == [LF] + b && ([LF] + b)[1..] == b;
    } else {
      PiecesEnd(a[1..], b);
      assert (a + [LF] + b)[1..] == a[1..] + [LF] + b;
      assert a == [a[0]] + a[1..];
    }
  }

  /** What lines are to the reader of a window: only LF ends one, and what is left at the end is one. */
  lemma LFLinesEnd(a: Bytes, b: Bytes)
    requires LF !in a
    ensures LFLines(a + [LF] + b) == [a] + LFLines(b)
    ensures LFLines(a) == if a == [] then [] else [a]
  {
    PiecesEnd(a, b);
    var pieces := SplitOnLF(b);
    assert ([a] + pieces)[..|pieces|] == [a] + pieces[..|pieces| - 1];
  }

  /** The lines within the limit, each with its place in the tail. */
  function Tolerated(tail: seq<Bytes>, lineLimit: int): seq<(nat, Bytes)> {
    if tail == [] then []
    else
      var n := |tail| - 1;
      Tolerated(tail[..n], lineLimit) + if 0 < lineLimit < |tail[n]| then [] else [(n + 1, tail[n])]
  }

  /** The lines above the limit, as reported to the caller: place and length. */
  function Skipped(tail: seq<Bytes>, lineLimit: int): seq<(nat, nat)> {
    if tail == [] then []
    else
      var n := |tail| - 1;
      Skipped(tail[..n], lineLimit) + if 0 < lineLimit < |tail[n]| then [(n + 1, |tail[n]|)] else []
  }

  /** How many complete lines a window of `size` bytes at the end of the file is sure to show. */
  function CompleteLines(file: Bytes, size: nat): nat
    requires size <= |file|
  {
    var shown := |LFLines(file[|file| - size..])|;
    if size < |file| && shown > 0 then shown - 1 else shown
  }

  method TailLinesWindow(file: Bytes, maxLines: int, windowBytes: int, lineLimit: int)
    returns (lines: seq<(nat, Bytes)>, skipped: seq<(nat, nat)>)
    ensures maxLines <= 0 || file == [] ==> lines == [] && skipped == []
    ensures maxLines > 0 && file != [] ==>
      var size := Min(Max(1, windowBytes), |file|);
      var count := Min(maxLines, CompleteLines(file, size));
      && count <= |LFLines(file)|
      && lines == Tolerated(Last(LFLines(file), count), lineLimit)
      && skipped == Skipped(Last(LFLines(file), count), lineLimit)
  {
    if maxLines <= 0 || |file| <= 0 {
      return [], [];
    }
    var readSize := Min(Max(1, windowBytes), |file|);
    var start := |file| - readSize;
    var window := file[start..];
    var pieces := SplitOnLF(window);
    if pieces[|pieces| - 1] == [] {
      pieces := pieces[..|pieces| - 1];
    }
    if start > 0 && pieces != [] {
      pieces := pieces[1..];
    }
    ShownLines(file, readSize, pieces, maxLines);
    lines, skipped := Tolerate(Last(pieces, maxLines), lineLimit);
  }

  /** What the window shows for sure, cut to the number of lines asked for. */
  lemma ShownLines(file: Bytes, size: nat, pieces: seq<Bytes>, maxLines: nat)
    requires 0 < size <= |file|
    requires
      var shown := LFLines(file[|file| - size..]);
      pieces == if size < |file| && shown != [] then shown[1..] else shown
    ensures
      var count := Min(maxLines, CompleteLines(file, size));
      count <= |LFLines(file)| && Last(pieces, maxLines) == Last(LFLines(file), count)
  {
    var start := |file| - size;
    assert file == file[..start] + file[start..];
    WindowLines(file[..start], file[start..]);
    LastOfLast(LFLines(file), |pieces|, maxLines);
  }

  method Tolerate(tail: seq<Bytes>, lineLimit: int) returns (lines: seq<(nat, Bytes)>, skipped: seq<(nat, nat)>)
    ensures lines == Tolerated(tail, lineLimit)
    ensures skipped == Skipped(tail, lineLimit)
  {
    lines, skipped := [], [];
    for i := 0 to |tail|
      invariant lines == Tolerated(tail[..i], lineLimit)
      invariant skipped == Skipped(tail[..i], lineLimit)
    {
      assert tail[..i + 1][..i] == tail[..i];
      if lineLimit > 0 && |tail[i]| > lineLimit {
        skipped := skipped + [(i + 1, |tail[i]|)];
      } else {
        lines := lines + [(i + 1, tail[i])];
      }
    }
    assert tail[..|tail|] == tail;
  }

  lemma LastOfLast<T>(s: seq<T>, n: nat, m: nat)
    requires n <= |s|
    ensures Last(Last(s, n), m) == Last(s, Min(m, n))
  {
  }

  /** Cutting a text anywhere cuts at most one piece in two. */
  lemma {:induction false} SplitOnLFSplits(a: Bytes, b: Bytes)
    ensures SplitOnLF(a + b) == Glue(SplitOnLF(a), SplitOnLF(b))
  {
    var x, y := SplitOnLF(a), SplitOnLF(b);
    if a == [] {
      assert a + b == b;
      assert [] + y[0] == y[0];
    } else {
      var rest := SplitOnLF(a[1..]);
      SplitOnLFSplits(a[1..], b);
      assert (a + b)[1..] == a[1..] + b;
      GlueFront(a[0], rest, y);
    }
  }

  /** Two lists of pieces, the last of one continued by the first of the other. */
  function Glue(x: seq<Bytes>, y: seq<Bytes>): (r: seq<Bytes>)
    requires x != [] && y != []
    ensures r != []
  {
    x[..|x| - 1] + [x[|x| - 1] + y[0]] + y[1..]
  }

  lemma GlueFront(c: byte, rest: seq<Bytes>, y: seq<Bytes>)
    requires rest != [] && y != []
    ensures Glue([[]] + rest, y) == [[]] + Glue(rest, y)
    ensures
      var glued := Glue(rest, y);
      Glue([[c] + rest[0]] + rest[1..], y) == [[c] + glued[0]] + glued[1..]
  {
    var glued, front := Glue(rest, y), [[c] + rest[0]] + rest[1..];
    var left := Glue(front, y);
    if |rest| == 1 {
      assert left[0] == [c] + (rest[0] + y[0]);
    }
    assert left[1..] == glued[1..];
  }

  /** All lines of a window but its first are lines of the whole file, and they end it. */
  lemma {:induction false} WindowLines(before: Bytes, window: Bytes)
    requires window != []
    ensures
      var (whole, shown) := (LFLines(before + window), LFLines(window));
      var sure := if before != [] && shown != [] then shown[1..] else shown;
      |sure| <= |whole| && Last(whole, |sure|) == sure
  {
    SplitOnLFSplits(before, window);
    if before == [] {
      assert before + window == window;
    } else {
      GluedTail(SplitOnLF(before), SplitOnLF(window));
    }
  }

  lemma GluedTail(x: seq<Bytes>, y: seq<Bytes>)
    requires x != [] && y != []
    ensures
      var (whole, shown) := (DropEmptyEnd(Glue(x, y)), DropEmptyEnd(y));
      var sure := if shown != [] then shown[1..] else shown;
      |sure| <= |whole| && Last(whole, |sure|) == sure
  {
    var whole := Glue(x, y);
    assert whole[|whole| - (|y| - 1)..] == y[1..];
    if |y| > 1 {
      assert whole[|whole| - 1] == y[|y| - 1];
    }
  }
}
