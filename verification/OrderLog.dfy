/** Reading the append-only order log through a cache keyed by modification time and size. */
module OrderLogs {
  import opened Prelude

  type Path = string

  datatype LogRecord = LogRecord(action: string, day: Option<int>)

  /** A stripped line of the log, as the reader meets it. */
  datatype Line = Empty | Entry(record: LogRecord) | Malformed | TooLong | Undecodable

  datatype Fingerprint = Fingerprint(mtime: real, size: int)

  /** What the file system shows of a log file: the lines as the reader meets them. */
  datatype File = NoStat | Stat(mark: Fingerprint, lines: seq<Line>)

  datatype Reason = StatFailed | LogTooLarge | LogMalformed | ReadFailed

  datatype Outcome = Records(records: seq<LogRecord>) | Refused(reason: Reason)

  /** A parsed file as the cache keeps it. */
  datatype Cached = Cached(mark: Fingerprint, records: seq<LogRecord>, parseErrors: nat)

  /** The lines that end in one buffer of the file; a buffer is decoded as a whole before any of them is seen. */
  datatype Buffer = Buffer(lines: seq<Line>, decodes: bool)

  /** What the reader meets of a file: one undecodable byte hides all lines of its buffer, and all later ones. */
  function Met(buffers: seq<Buffer>): seq<Line> {
    if buffers == [] then []
    else if !buffers[0].decodes then [Undecodable]
    else buffers[0].lines + Met(buffers[1..])
  }

  // ----- the plain parse -----

  /** Why a line cannot be passed over, if it cannot; a lenient reader passes over malformed lines. */
  function BadLine(line: Line, strict: bool): Option<Reason> {
    match line
    case Malformed => if strict then Some(LogMalformed) else None
    case TooLong => Some(LogTooLarge)
    case Undecodable => Some(ReadFailed)
    case _ => None
  }

  /** The first line that stops the reader decides. */
  function FirstBad(lines: seq<Line>, strict: bool): Option<Reason> {
    if lines == [] then None
    else
      var earlier := FirstBad(lines[..|lines| - 1], strict);
      if earlier.Some? then earlier else BadLine(lines[|lines| - 1], strict)
  }

  function RecordsOf(lines: seq<Line>): seq<LogRecord> {
    if lines == [] then []
    else
      var rest, line := RecordsOf(lines[..|lines| - 1]), lines[|lines| - 1];
      if line.Entry? then rest + [line.record] else rest
  }

  function CountMalformed(lines: seq<Line>): nat {
    if lines == [] then 0
    else CountMalformed(lines[..|lines| - 1]) + if lines[|lines| - 1].Malformed? then 1 else 0
  }

  /** A lenient reader takes what it cannot read for nothing. */
  function Report(reason: Reason, strict: bool): Outcome {
    if strict then Refused(reason) else Records([])
  }

  /** What a read without any cache yields. */
  function Parsed(file: File, maxBytes: int, strict: bool): Outcome {
    match file
    case NoStat => Report(StatFailed, strict)
    case Stat(mark, lines) =>
      if maxBytes > 0 && mark.size > maxBytes then Report(LogTooLarge, strict)
      else
        match FirstBad(lines, strict)
        case Some(reason) => Report(reason, strict)
        case None => Records(RecordsOf(lines))
  }

  /** A strict reader refuses for the first thing in its way; a lenient one never refuses, it then finds nothing. */
  lemma ParsedMeans(file: File, maxBytes: int, strict: bool)
    ensures !strict ==> Parsed(file, maxBytes, strict).Records?
    ensures
      var tooLarge := file.Stat? && 0 < maxBytes < file.mark.size;
      var bad := if file.Stat? then FirstBad(file.lines, strict) else None;
      var reason :=
        if file.NoStat? then Some(StatFailed) else if tooLarge then Some(LogTooLarge) else bad;
      Parsed(file, maxBytes, strict)
        == if reason == None then Records(RecordsOf(file.lines))
           else if strict then Refused(reason.value)
           else Records([])
  {
  }

  /** One malformed line is all that separates the two readers. */
  lemma {:induction false} StrictVersusLenient(lines: seq<Line>)
    ensures FirstBad(lines, true) == None <==> FirstBad(lines, false) == None && CountMalformed(lines) == 0
    ensures FirstBad(lines, false) == None && CountMalformed(lines) > 0 ==> FirstBad(lines, true) == Some(LogMalformed)
  {
    if lines != [] {
      StrictVersusLenient(lines[..|lines| - 1]);
    }
  }

  // ----- the cache -----

  class LogCache {
    var entries: map<Path, Cached>
    const maxBytes: int
    /** What a file with this modification time and size holds. */
    ghost const contents: (Path, Fingerprint) -> seq<Line>

    constructor (maxBytes: int, ghost contents: (Path, Fingerprint) -> seq<Line>)
      ensures this.maxBytes == maxBytes && this.contents == contents && entries == map[] && Valid()
    {
      this.maxBytes, this.contents, entries := maxBytes, contents, map[];
    }

    /** The fingerprint identifies the contents of a file. */
    ghost predicate Identifies(path: Path, file: File) {
      file.Stat? ==> file.lines == contents(path, file.mark)
    }

    /** Every cached entry is a complete lenient parse of what its fingerprint stands for. */
    ghost predicate Valid()
      reads this
    {
      forall path :: path in entries ==> CachedRight(entries[path], contents(path, entries[path].mark))
    }

    method ReadLogLinesCached(path: Path, file: File, strict: bool) returns (r: Outcome)
      requires Valid() && Identifies(path, file)
      modifies this
      ensures Valid()
      ensures r == Parsed(file, maxBytes, strict)
    {
      if file.NoStat? {
        return Report(StatFailed, strict);
      }
      if maxBytes > 0 && file.mark.size > maxBytes {
        return Report(LogTooLarge, strict);
      }
      if path in entries && entries[path].mark == file.mark {
        StrictVersusLenient(file.lines);
        if strict && entries[path].parseErrors > 0 {
          return Refused(LogMalformed);
        }
        return Records(entries[path].records);
      }
      var bad, records, parseErrors := ParseLines(file.lines, strict);
      match bad
      case Some(reason) => return Report(reason, strict);
      case None =>
        StrictVersusLenient(file.lines);
        entries := entries[path := Cached(file.mark, records, parseErrors)];
        return Records(records);
    }

    /** The records of all files with one of the actions and of the day; a strict reader stops at a refused file. */
    method IterTodayRecords(files: seq<(Path, File)>, actions: set<string>, today: int, strict: bool)
      returns (r: Outcome)
      requires Valid() && forall i :: 0 <= i < |files| ==> Identifies(files[i].0, files[i].1)
      modifies this
      ensures Valid()
      ensures r == TodayRecords(files, maxBytes, actions, today, strict)
    {
      var records: seq<LogRecord> := [];
      for i := 0 to |files|
        invariant Valid()
        invariant TodayRecords(files[..i], maxBytes, actions, today, strict) == Records(records)
      {
        assert files[..i + 1][..i] == files[..i];
        var lines := ReadLogLinesCached(files[i].0, files[i].1, strict);
        match lines
        case Refused(reason) =>
          TodayRefused(files, maxBytes, actions, today, strict, i + 1);
          return lines;
        case Records(found) =>
          var wanted := SelectToday(found, actions, today);
          records := records + wanted;
      }
      assert files[..|files|] == files;
      return Records(records);
    }

    method CountTodayOrderSubmissions(files: seq<(Path, File)>, today: int, strict: bool)
      returns (count: Option<nat>, refused: Option<Reason>)
      requires Valid() && forall i :: 0 <= i < |files| ==> Identifies(files[i].0, files[i].1)
      modifies this
      ensures Valid()
      ensures
        match TodayRecords(files, maxBytes, {"order_submitted"}, today, strict)
        case Records(records) => count == Some(|records|) && refused == None
        case Refused(reason) => count == None && refused == Some(reason)
    {
      var r := IterTodayRecords(files, {"order_submitted"}, today, strict);
      match r
      case Records(records) => return Some(|records|), None;
      case Refused(reason) => return None, Some(reason);
    }
  }

  predicate CachedRight(c: Cached, lines: seq<Line>) {
    FirstBad(lines, false) == None && c.records == RecordsOf(lines) && c.parseErrors == CountMalformed(lines)
  }

  method ParseLines(lines: seq<Line>, strict: bool)
    returns (bad: Option<Reason>, records: seq<LogRecord>, parseErrors: nat)
    ensures bad == FirstBad(lines, strict)
    ensures bad == None ==> records == RecordsOf(lines) && parseErrors == CountMalformed(lines)
  {
    records, parseErrors := [], 0;
    for i := 0 to |lines|
      invariant FirstBad(lines[..i], strict) == None
      invariant records == RecordsOf(lines[..i]) && parseErrors == CountMalformed(lines[..i])
    {
      assert lines[..i + 1][..i] == lines[..i];
      match lines[i]
      case Empty =>
      case Entry(record) => records := records + [record];
      case Malformed =>
        parseErrors := parseErrors + 1;
        if strict {
          FirstBadStays(lines, strict, i + 1);
          return Some(LogMalformed), records, parseErrors;
        }
      case TooLong =>
        FirstBadStays(lines, strict, i + 1);
        return Some(LogTooLarge), records, parseErrors;
      case Undecodable =>
        FirstBadStays(lines, strict, i + 1);
        return Some(ReadFailed), records, parseErrors;
    }
    assert lines[..|lines|] == lines;
    bad := None;
  }

  lemma {:induction false} FirstBadStays(lines: seq<Line>, strict: bool, k: nat)
    requires k <= |lines| && FirstBad(lines[..k], strict).Some?
    ensures FirstBad(lines, strict) == FirstBad(lines[..k], strict)
  {
    if k == |lines| {
      assert lines[..k] == lines;
    } else {
      var n := |lines| - 1;
      assert lines[..n][..k] == lines[..k];
      FirstBadStays(lines[..n], strict, k);
    }
  }

  // ----- the records of a day -----

  predicate Wanted(r: LogRecord, actions: set<string>, today: int) {
    r.action in actions && r.day == Some(today)
  }

  function Today(records: seq<LogRecord>, actions: set<string>, today: int): seq<LogRecord> {
    if records == [] then []
    else
      var rest, r := Today(records[..|records| - 1], actions, today), records[|records| - 1];
      if Wanted(r, actions, today) then rest + [r] else rest
  }

  method SelectToday(records: seq<LogRecord>, actions: set<string>, today: int) returns (wanted: seq<LogRecord>)
    ensures wanted == Today(records, actions, today)
  {
    wanted := [];
    for i := 0 to |records|
      invariant wanted == Today(records[..i], actions, today)
    {
      assert records[..i + 1][..i] == records[..i];
      if Wanted(records[i], actions, today) {
        wanted := wanted + [records[i]];
      }
    }
    assert records[..|records|] == records;
  }

  /** The day's records of one more file. */
  function JoinToday(earlier: Outcome, next: Outcome, actions: set<string>, today: int): Outcome {
    if earlier.Refused? then earlier
    else if next.Refused? then next
    else Records(earlier.records + Today(next.records, actions, today))
  }

  /** The day's records of all files, read without any cache. */
  function TodayRecords(
    files: seq<(Path, File)>, maxBytes: int, actions: set<string>, today: int, strict: bool): Outcome
  {
    if files == [] then Records([])
    else
      JoinToday(TodayRecords(files[..|files| - 1], maxBytes, actions, today, strict),
                Parsed(files[|files| - 1].1, maxBytes, strict), actions, today)
  }

  lemma {:induction false} TodayRefused(
    files: seq<(Path, File)>, maxBytes: int, actions: set<string>, today: int, strict: bool, k: nat)
    requires k <= |files| && TodayRecords(files[..k], maxBytes, actions, today, strict).Refused?
    ensures TodayRecords(files, maxBytes, actions, today, strict)
      == TodayRecords(files[..k], maxBytes, actions, today, strict)
  {
    if k == |files| {
      assert files[..k] == files;
    } else {
      var n := |files| - 1;
      assert files[..n][..k] == files[..k];
      TodayRefused(files[..n], maxBytes, actions, today, strict, k);
    }
  }

  // ----- what holds of them -----

  lemma {:induction false} FirstBadOfJoined(a: seq<Line>, b: seq<Line>, strict: bool)
    ensures FirstBad(a + b, strict) == if FirstBad(a, strict).Some? then FirstBad(a, strict) else FirstBad(b, strict)
  {
    if b == [] {
      assert a + b == a;
    } else {
      FirstBadOfJoined(a, b[..|b| - 1], strict);
      assert (a + b)[..|a + b| - 1] == a + b[..|b| - 1];
    }
  }

  /** The buffer at `k` cannot be decoded, and nothing stops the reader before it. */
  predicate FailsAt(buffers: seq<Buffer>, k: int, strict: bool) {
    0 <= k < |buffers| && !buffers[k].decodes
    && forall j :: 0 <= j < k ==> buffers[j].decodes && FirstBad(buffers[j].lines, strict) == None
  }

  ghost predicate FailsSomewhere(buffers: seq<Buffer>, strict: bool) {
    exists k :: FailsAt(buffers, k, strict)
  }

  /**
   * A read fails on its bytes exactly when the reader reaches a buffer that cannot be decoded, even if a malformed line
   * comes before the bytes in question within that buffer.
   */
  lemma {:induction false} DecodingComesFirst(buffers: seq<Buffer>, strict: bool)
    requires forall k :: 0 <= k < |buffers| ==> FirstBad(buffers[k].lines, strict) != Some(ReadFailed)
    ensures FirstBad(Met(buffers), strict) == Some(ReadFailed) <==> FailsSomewhere(buffers, strict)
  {
    if buffers != [] {
      var first, rest := buffers[0], buffers[1..];
      if !first.decodes {
        assert [Undecodable][..0] == [];
        assert FailsAt(buffers, 0, strict);
      } else {
        DecodingComesFirst(rest, strict);
        FirstBadOfJoined(first.lines, Met(rest), strict);
        FailsInTheRest(buffers, strict);
      }
    }
  }

  lemma FailsInTheRest(buffers: seq<Buffer>, strict: bool)
    requires buffers != [] && buffers[0].decodes
    ensures FailsSomewhere(buffers, strict)
      <==> FirstBad(buffers[0].lines, strict) == None && FailsSomewhere(buffers[1..], strict)
  {
    var rest := buffers[1..];
    if FailsSomewhere(buffers, strict) {
      var k :| FailsAt(buffers, k, strict);
      assert FailsAt(rest, k - 1, strict);
    }
    if FirstBad(buffers[0].lines, strict) == None && FailsSomewhere(rest, strict) {
      var k :| FailsAt(rest, k, strict);
      assert FailsAt(buffers, k + 1, strict);
    }
  }

  /** A refused strict read means a line that stops it, and names the first one the reader meets. */
  lemma {:induction false} RefusedNamesTheFirst(lines: seq<Line>, strict: bool)
    ensures FirstBad(lines, strict) == None <==> forall i :: 0 <= i < |lines| ==> BadLine(lines[i], strict) == None
    ensures FirstBad(lines, strict) != None ==>
      exists i :: 0 <= i < |lines| && FirstBad(lines, strict) == BadLine(lines[i], strict)
        && forall j :: 0 <= j < i ==> BadLine(lines[j], strict) == None
  {
    if lines != [] {
      var n := |lines| - 1;
      var init := lines[..n];
      RefusedNamesTheFirst(init, strict);
      assert forall i :: 0 <= i < n ==> lines[i] == init[i];
      if FirstBad(init, strict) != None {
        var i :| 0 <= i < n && FirstBad(init, strict) == BadLine(init[i], strict)
          && forall j :: 0 <= j < i ==> BadLine(init[j], strict) == None;
        assert BadLine(lines[i], strict) != None;
      }
    }
  }

  /** Appending a record adds it to what is read, and never repairs or breaks a log. */
  lemma AppendReads(file: File, grown: File, record: LogRecord, maxBytes: int, strict: bool)
    requires file.Stat? && grown.Stat? && grown.lines == file.lines + [Entry(record)]
    requires maxBytes > 0 ==> file.mark.size <= maxBytes && grown.mark.size <= maxBytes
    ensures
      match FirstBad(file.lines, strict)
      case None =>
        && Parsed(file, maxBytes, strict) == Records(RecordsOf(file.lines))
        && Parsed(grown, maxBytes, strict) == Records(RecordsOf(file.lines) + [record])
      case Some(_) => Parsed(grown, maxBytes, strict) == Parsed(file, maxBytes, strict)
  {
    assert grown.lines[..|file.lines|] == file.lines;
  }

  lemma TodayOfAppended(records: seq<LogRecord>, record: LogRecord, actions: set<string>, today: int)
    ensures Today(records + [record], actions, today) == Today(records, actions, today)
      + if record.action in actions && record.day == Some(today) then [record] else []
  {
    assert (records + [record])[..|records|] == records;
  }

  lemma JoinWithAppended(
    earlier: Outcome, records: seq<LogRecord>, record: LogRecord, actions: set<string>, today: int)
    ensures
      var before := JoinToday(earlier, Records(records), actions, today);
      var after := JoinToday(earlier, Records(records + [record]), actions, today);
      var added := if record.action in actions && record.day == Some(today) then [record] else [];
      if before.Refused? then after == before else after == Records(before.records + added)
  {
    TodayOfAppended(records, record, actions, today);
  }

  lemma TodayWithLast(
    files: seq<(Path, File)>, last: (Path, File), maxBytes: int, actions: set<string>, today: int, strict: bool)
    ensures TodayRecords(files + [last], maxBytes, actions, today, strict)
      == JoinToday(TodayRecords(files, maxBytes, actions, today, strict), Parsed(last.1, maxBytes, strict), actions,
                   today)
  {
    assert (files + [last])[..|files|] == files;
  }

  /** A record of today with a wanted action is read last, and any other record makes no difference. */
  lemma AppendCounts(
    files: seq<(Path, File)>, path: Path, file: File, grown: File, record: LogRecord, maxBytes: int,
    actions: set<string>, today: int, strict: bool)
    requires file.Stat? && grown.Stat? && grown.lines == file.lines + [Entry(record)]
    requires maxBytes > 0 ==> file.mark.size <= maxBytes && grown.mark.size <= maxBytes
    requires FirstBad(file.lines, strict) == None
    ensures
      var before := TodayRecords(files + [(path, file)], maxBytes, actions, today, strict);
      var after := TodayRecords(files + [(path, grown)], maxBytes, actions, today, strict);
      var added := if record.action in actions && record.day == Some(today) then [record] else [];
      if before.Refused? then after == before else after == Records(before.records + added)
  {
    AppendReads(file, grown, record, maxBytes, strict);
    TodayWithLast(files, (path, file), maxBytes, actions, today, strict);
    TodayWithLast(files, (path, grown), maxBytes, actions, today, strict);
    JoinWithAppended(TodayRecords(files, maxBytes, actions, today, strict), RecordsOf(file.lines), record, actions,
                     today);
  }
}
