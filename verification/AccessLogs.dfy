/** Cursor pagination over rotated access logs
    (api/internal/api/handler_load_balancer_access_logs.go). The directory is frozen while it is
    paged; JSON decoding is a parameter, and base64url (section 5 of RFC 4648) with JSON carries a
    cursor unchanged. */
module AccessLogs {
  import opened Text
  import opened Ordering

  /** The fields the filters look at; `rest` stands for the others. */
  datatype Entry = Entry(clientIp: string, host: string, httpMethod: string, status: int, rest: string)

  datatype Filters = Filters(httpMethod: string, status: int, host: string, ip: string)

  datatype Cursor = Cursor(file: string, offsetFromEnd: nat)

  /** A log file as listed: lines is None when it cannot be read. */
  datatype File = File(name: string, lines: Option<seq<string>>)

  datatype Page = Page(items: seq<Entry>, next: Option<Cursor>, hasMore: bool)

  datatype Result = Ok(page: Page) | ReadError

  type Decoder = string -> Option<Entry>

  /** entryMatchesAccessLogFilters */
  predicate Matches(e: Entry, f: Filters) {
    && (f.httpMethod == "" || ToUpper(TrimSpace(e.httpMethod)) == f.httpMethod)
    && (f.status == 0 || e.status == f.status)
    && (f.host == "" || Contains(ToLower(TrimSpace(e.host)), f.host))
    && (f.ip == "" || Contains(TrimSpace(e.clientIp), f.ip))
  }

  /** What a line contributes: blank, undecodable and filtered-out lines contribute nothing. */
  function Accept(decode: Decoder, f: Filters, line: string): Option<Entry> {
    var text := TrimSpace(line);
    if text == "" then None
    else
      match decode(text)
      case None => None
      case Some(e) => if Matches(e, f) then Some(e) else None
  }

  function LinesOf(file: File): seq<string> { if file.lines.Some? then file.lines.value else [] }

  predicate DistinctFiles(files: seq<File>) {
    forall i, j :: 0 <= i < j < |files| ==> files[i].name != files[j].name
  }

  predicate Readable(files: seq<File>, from: nat) {
    forall i :: from <= i < |files| ==> files[i].lines.Some?
  }

  // ---------------------------------------------------------------- reference: the whole sequence

  function Reverse(s: seq<string>): seq<string> {
    if s == [] then [] else [s[|s| - 1]] + Reverse(s[..|s| - 1])
  }

  /** All lines, newest file first and newest line first. */
  function NewestFirst(files: seq<File>): seq<string> {
    if files == [] then [] else Reverse(LinesOf(files[0])) + NewestFirst(files[1..])
  }

  function Filtered(decode: Decoder, f: Filters, lines: seq<string>): seq<Entry> {
    if lines == [] then []
    else
      var e := Accept(decode, f, lines[0]);
      (if e.Some? then [e.value] else []) + Filtered(decode, f, lines[1..])
  }

  // ---------------------------------------------------------------- positions

  /** The entries of one file from `offset` lines before its end on. */
  function FileRest(decode: Decoder, f: Filters, lines: seq<string>, offset: nat): seq<Entry>
    decreases |lines| - offset
  {
    if offset >= |lines| then []
    else
      var e := Accept(decode, f, lines[|lines| - 1 - offset]);
      (if e.Some? then [e.value] else []) + FileRest(decode, f, lines, offset + 1)
  }

  /** The entries from a position on: file index and offset from the end of that file. */
  function Rest(decode: Decoder, f: Filters, files: seq<File>, i: nat, offset: nat): seq<Entry>
    decreases |files| - i
  {
    if i >= |files| then []
    else FileRest(decode, f, LinesOf(files[i]), offset) + Rest(decode, f, files, i + 1, 0)
  }

  /** Lines not yet consumed at a position. */
  function Remaining(files: seq<File>, i: nat, offset: nat): nat
    decreases |files| - i
  {
    if i >= |files| then 0
    else (var n := |LinesOf(files[i])|; if offset < n then n - offset else 0) + Remaining(files, i + 1, 0)
  }

  /** The position just after the need-th entry, None when there are fewer. */
  function PositionAfter(decode: Decoder, f: Filters, files: seq<File>, i: nat, offset: nat, need: nat)
    : Option<(nat, nat)>
    requires need > 0
    decreases |files| - i, if i < |files| then |LinesOf(files[i])| - offset else 0
  {
    if i >= |files| then None
    else
      var lines := LinesOf(files[i]);
      if offset >= |lines| then PositionAfter(decode, f, files, i + 1, 0, need)
      else if Accept(decode, f, lines[|lines| - 1 - offset]).None?
      then PositionAfter(decode, f, files, i, offset + 1, need)
      else if need == 1 then Some((i, offset + 1))
      else PositionAfter(decode, f, files, i, offset + 1, need - 1)
  }

  function Take(s: seq<Entry>, n: nat): seq<Entry> { if n <= |s| then s[..n] else s }

  /** Where a cursor points: None when its file is gone. */
  function IndexOfFile(files: seq<File>, name: string): (r: Option<nat>)
    ensures r.Some? ==> r.value < |files| && files[r.value].name == name
    ensures r.None? ==> forall i :: 0 <= i < |files| ==> files[i].name != name
  {
    if files == [] then None
    else if files[0].name == name then Some(0)
    else
      match IndexOfFile(files[1..], name)
      case Some(i) => Some(i + 1)
      case None => None
  }

  function Start(files: seq<File>, cursor: Option<Cursor>): Option<(nat, nat)> {
    if cursor.None? then Some((0, 0))
    else
      match IndexOfFile(files, cursor.value.file)
      case Some(i) => Some((i, cursor.value.offsetFromEnd))
      case None => None
  }

  /** The page at a cursor, as the reader of a frozen, readable directory sees it. */
  function PageAt(decode: Decoder, f: Filters, files: seq<File>, cursor: Option<Cursor>, limit: nat): Page
    requires limit > 0
  {
    match Start(files, cursor)
    case None => Page([], None, false)
    case Some((i, offset)) =>
      var rest := Rest(decode, f, files, i, offset);
      match PositionAfter(decode, f, files, i, offset, limit)
      case None => Page(rest, None, false)
      case Some((k, n)) =>
        if k < |files| then Page(Take(rest, limit), Some(Cursor(files[k].name, n)), Rest(decode, f, files, k, n) != [])
        else Page([], None, false)
  }

  // ---------------------------------------------------------------- lemmas about positions

  lemma {:induction false} RestStep(decode: Decoder, f: Filters, files: seq<File>, i: nat, offset: nat)
    requires i < |files| && offset < |LinesOf(files[i])|
    ensures var lines := LinesOf(files[i]); var e := Accept(decode, f, lines[|lines| - 1 - offset]);
            Rest(decode, f, files, i, offset) ==
              (if e.Some? then [e.value] else []) + Rest(decode, f, files, i, offset + 1)
  {
    hide Accept;
    var lines := LinesOf(files[i]);
    var e := Accept(decode, f, lines[|lines| - 1 - offset]);
    var one := if e.Some? then [e.value] else [];
    assert (one + FileRest(decode, f, lines, offset + 1)) + Rest(decode, f, files, i + 1, 0) ==
           one + (FileRest(decode, f, lines, offset + 1) + Rest(decode, f, files, i + 1, 0));
  }

  lemma {:induction false} RestNextFile(decode: Decoder, f: Filters, files: seq<File>, i: nat, offset: nat)
    requires i < |files| && offset >= |LinesOf(files[i])|
    ensures Rest(decode, f, files, i, offset) == Rest(decode, f, files, i + 1, 0)
  {
    assert [] + Rest(decode, f, files, i + 1, 0) == Rest(decode, f, files, i + 1, 0);
  }

  lemma RestAtEnd(decode: Decoder, f: Filters, files: seq<File>, i: nat, offset: nat)
    requires i >= |files|
    ensures Rest(decode, f, files, i, offset) == []
  {
  }

  /** The position after `need` entries exists exactly when there are that many; it lies strictly
      further on, and what remains from it is exactly what follows those entries. */
  lemma {:induction false} PositionAfterSplits(decode: Decoder, f: Filters, files: seq<File>, i: nat, offset: nat,
                                               need: nat)
    requires need > 0
    ensures var rest := Rest(decode, f, files, i, offset);
            match PositionAfter(decode, f, files, i, offset, need)
            case None => |rest| < need
            case Some((k, n)) =>
              && need <= |rest| && i <= k < |files| && n <= |LinesOf(files[k])|
              && Rest(decode, f, files, k, n) == rest[need..] && Remaining(files, k, n) < Remaining(files, i, offset)
    decreases |files| - i, if i < |files| then |LinesOf(files[i])| - offset else 0
  {
    hide Accept, LinesOf, Rest;
    if i >= |files| {
      RestAtEnd(decode, f, files, i, offset);
    } else {
      var lines := LinesOf(files[i]);
      if offset >= |lines| {
        RestNextFile(decode, f, files, i, offset);
        PositionAfterSplits(decode, f, files, i + 1, 0, need);
      } else {
        RestStep(decode, f, files, i, offset);
        var e := Accept(decode, f, lines[|lines| - 1 - offset]);
        var tail := Rest(decode, f, files, i, offset + 1);
        if e.None? {
          assert [] + tail == tail;
          PositionAfterSplits(decode, f, files, i, offset + 1, need);
        } else if need > 1 {
          PositionAfterSplits(decode, f, files, i, offset + 1, need - 1);
        }
      }
    }
  }

  lemma {:induction false} IndexOfOwnName(files: seq<File>, k: nat)
    requires DistinctFiles(files) && k < |files|
    ensures IndexOfFile(files, files[k].name) == Some(k)
  {
    if k > 0 { IndexOfOwnName(files[1..], k - 1); }
  }

  // ---------------------------------------------------------------- following the cursor

  /** The items of all pages from a cursor on, the p-th page having limit limits(p). */
  function Follow(decode: Decoder, f: Filters, files: seq<File>, cursor: Option<Cursor>, limits: nat -> nat, p: nat)
    : seq<Entry>
    requires DistinctFiles(files) && forall q: nat :: limits(q) > 0
    decreases match Start(files, cursor) case None => 0 case Some((i, offset)) => Remaining(files, i, offset)
  {
    var page := PageAt(decode, f, files, cursor, limits(p));
    if page.next.None? then page.items
    else
      assert Start(files, page.next).Some? &&
             var (k, n) := Start(files, page.next).value; var (i, offset) := Start(files, cursor).value;
             Remaining(files, k, n) < Remaining(files, i, offset)
        by { CursorAdvances(decode, f, files, cursor, limits(p)); }
      page.items + Follow(decode, f, files, page.next, limits, p + 1)
  }

  /** The next cursor points to exactly what is left after the page, strictly further on. */
  lemma CursorAdvances(decode: Decoder, f: Filters, files: seq<File>, cursor: Option<Cursor>, limit: nat)
    requires DistinctFiles(files) && limit > 0
    requires PageAt(decode, f, files, cursor, limit).next.Some?
    ensures var page := PageAt(decode, f, files, cursor, limit);
            && Start(files, cursor).Some? && Start(files, page.next).Some?
            && var (i, offset) := Start(files, cursor).value; var (k, n) := Start(files, page.next).value;
               && Remaining(files, k, n) < Remaining(files, i, offset)
               && Rest(decode, f, files, i, offset) == page.items + Rest(decode, f, files, k, n)
               && |page.items| == limit
  {
    hide Accept, LinesOf, Rest, PositionAfter, Remaining;
    var (i, offset) := Start(files, cursor).value;
    var (k, n) := PositionAfter(decode, f, files, i, offset, limit).value;
    PositionAfterSplits(decode, f, files, i, offset, limit);
    IndexOfOwnName(files, k);
    var rest := Rest(decode, f, files, i, offset);
    assert rest == rest[..limit] + rest[limit..];
  }

  /** Pages followed from any position concatenate to exactly the entries from there on. */
  lemma {:induction false} FollowFrom(decode: Decoder, f: Filters, files: seq<File>, cursor: Option<Cursor>,
                                      limits: nat -> nat, p: nat)
    requires DistinctFiles(files) && (forall q: nat :: limits(q) > 0) && Start(files, cursor).Some?
    ensures var (i, offset) := Start(files, cursor).value;
            Follow(decode, f, files, cursor, limits, p) == Rest(decode, f, files, i, offset)
    decreases var (i, offset) := Start(files, cursor).value; Remaining(files, i, offset)
  {
    hide Accept, LinesOf, Rest, Remaining, PositionAfter;
    var (i, offset) := Start(files, cursor).value;
    var page := PageAt(decode, f, files, cursor, limits(p));
    PositionAfterSplits(decode, f, files, i, offset, limits(p));
    if page.next.Some? {
      CursorAdvances(decode, f, files, cursor, limits(p));
      FollowFrom(decode, f, files, page.next, limits, p + 1);
    }
  }

  lemma {:induction false} FileRestIsFiltered(decode: Decoder, f: Filters, lines: seq<string>, offset: nat)
    requires offset <= |lines|
    ensures FileRest(decode, f, lines, offset) == Filtered(decode, f, Reverse(lines[..|lines| - offset]))
    decreases |lines| - offset
  {
    hide Accept;
    if offset < |lines| {
      var s := lines[..|lines| - offset];
      FileRestIsFiltered(decode, f, lines, offset + 1);
      assert s[..|s| - 1] == lines[..|lines| - offset - 1];
      assert Reverse(s)[0] == lines[|lines| - 1 - offset] && Reverse(s)[1..] == Reverse(s[..|s| - 1]);
    }
  }

  lemma {:induction false} FilteredConcat(decode: Decoder, f: Filters, x: seq<string>, y: seq<string>)
    ensures Filtered(decode, f, x + y) == Filtered(decode, f, x) + Filtered(decode, f, y)
  {
    hide Accept;
    if x == [] {
      assert x + y == y;
    } else {
      assert (x + y)[0] == x[0] && (x + y)[1..] == x[1..] + y;
      FilteredConcat(decode, f, x[1..], y);
    }
  }

  lemma {:induction false} RestIsFiltered(decode: Decoder, f: Filters, files: seq<File>, i: nat)
    requires i <= |files|
    ensures Rest(decode, f, files, i, 0) == Filtered(decode, f, NewestFirst(files[i..]))
    decreases |files| - i
  {
    hide Accept, LinesOf;
    if i < |files| {
      var lines := LinesOf(files[i]);
      RestIsFiltered(decode, f, files, i + 1);
      FileRestIsFiltered(decode, f, lines, 0);
      assert lines[..|lines| - 0] == lines;
      assert files[i..][0] == files[i] && files[i..][1..] == files[i + 1..];
      FilteredConcat(decode, f, Reverse(lines), NewestFirst(files[i + 1..]));
    }
  }

  /** Main result: following `next` from no cursor, with any positive limits, yields exactly the
      newest-first filtered sequence, with no gap and no repeat. */
  lemma PaginationIsExact(decode: Decoder, f: Filters, files: seq<File>, limits: nat -> nat)
    requires DistinctFiles(files) && forall q: nat :: limits(q) > 0
    ensures Follow(decode, f, files, None, limits, 0) == Filtered(decode, f, NewestFirst(files))
  {
    hide Accept, LinesOf;
    FollowFrom(decode, f, files, None, limits, 0);
    RestIsFiltered(decode, f, files, 0);
    assert files[0..] == files;
  }

  /** hasMore holds exactly when there is a next page and it is not empty. */
  lemma HasMoreIsExact(decode: Decoder, f: Filters, files: seq<File>, cursor: Option<Cursor>, limit: nat, limit': nat)
    requires DistinctFiles(files) && limit > 0 && limit' > 0
    ensures var page := PageAt(decode, f, files, cursor, limit);
            page.hasMore <==> page.next.Some? && PageAt(decode, f, files, page.next, limit').items != []
  {
    hide Accept, LinesOf, Remaining, Rest, PositionAfter;
    var page := PageAt(decode, f, files, cursor, limit);
    if page.next.Some? {
      var (i, offset) := Start(files, cursor).value;
      var (k, n) := PositionAfter(decode, f, files, i, offset, limit).value;
      PositionAfterSplits(decode, f, files, i, offset, limit);
      IndexOfOwnName(files, k);
      PositionAfterSplits(decode, f, files, k, n, limit');
    }
  }

  // ---------------------------------------------------------------- the loops of the source

  /** hasMoreFilteredAccessLogs; None is a read error. */
  method HasMore(decode: Decoder, f: Filters, files: seq<File>, cursor: Cursor) returns (r: Option<bool>)
    requires DistinctFiles(files)
    ensures var start := Start(files, Some(cursor));
            match r
            case Some(more) => more <==> start.Some? && Rest(decode, f, files, start.value.0, start.value.1) != []
            case None => start.Some? && !Readable(files, start.value.0)
  {
    hide Accept, Rest, FileRest;
    var start := IndexOfFile(files, cursor.file);
    if start.None? { return Some(false); }
    ghost var all := Rest(decode, f, files, start.value, cursor.offsetFromEnd);
    for i := start.value to |files|
      invariant all == Rest(decode, f, files, i, if i == start.value then cursor.offsetFromEnd else 0)
    {
      if files[i].lines.None? { return None; }
      var lines := files[i].lines.value;
      var consumed := if i == start.value then cursor.offsetFromEnd else 0;
      while consumed < |lines|
        invariant all == Rest(decode, f, files, i, consumed)
        decreases |lines| - consumed
      {
        RestStep(decode, f, files, i, consumed);
        var e := Accept(decode, f, lines[|lines| - 1 - consumed]);
        if e.Some? { return Some(true); }
        assert [] + Rest(decode, f, files, i, consumed + 1) == Rest(decode, f, files, i, consumed + 1);
        consumed := consumed + 1;
      }
      RestNextFile(decode, f, files, i, consumed);
    }
    RestAtEnd(decode, f, files, |files|, if |files| == start.value then cursor.offsetFromEnd else 0);
    return Some(false);
  }

  lemma PositionStep(decode: Decoder, f: Filters, files: seq<File>, i: nat, offset: nat, need: nat)
    requires need > 0 && i < |files| && offset < |LinesOf(files[i])|
    ensures var lines := LinesOf(files[i]); var e := Accept(decode, f, lines[|lines| - 1 - offset]);
            PositionAfter(decode, f, files, i, offset, need) ==
              if e.None? then PositionAfter(decode, f, files, i, offset + 1, need)
              else if need == 1 then Some((i, offset + 1)) else PositionAfter(decode, f, files, i, offset + 1, need - 1)
  {
    hide Accept;
  }

  lemma PositionNextFile(decode: Decoder, f: Filters, files: seq<File>, i: nat, offset: nat, need: nat)
    requires need > 0 && i < |files| && offset >= |LinesOf(files[i])|
    ensures PositionAfter(decode, f, files, i, offset, need) == PositionAfter(decode, f, files, i + 1, 0, need)
  {
  }

  /** The lines of one file, from an offset on, until the page is full. */
  method ScanFile(decode: Decoder, f: Filters, files: seq<File>, i: nat, offset: nat, limit: nat, taken: seq<Entry>)
    returns (items: seq<Entry>, full: Option<nat>)
    requires i < |files| && |taken| < limit
    ensures match full
            case None => && |items| < limit
                         && taken + Rest(decode, f, files, i, offset) == items + Rest(decode, f, files, i + 1, 0)
                         && PositionAfter(decode, f, files, i, offset, limit - |taken|) ==
                              PositionAfter(decode, f, files, i + 1, 0, limit - |items|)
            case Some(n) => && |items| == limit
                            && taken + Rest(decode, f, files, i, offset) == items + Rest(decode, f, files, i, n)
                            && PositionAfter(decode, f, files, i, offset, limit - |taken|) == Some((i, n))
  {
    hide Accept, Rest, PositionAfter;
    var lines, consumed := LinesOf(files[i]), offset;
    items := taken;
    while consumed < |lines|
      invariant |items| < limit
      invariant taken + Rest(decode, f, files, i, offset) == items + Rest(decode, f, files, i, consumed)
      invariant PositionAfter(decode, f, files, i, offset, limit - |taken|) ==
                  PositionAfter(decode, f, files, i, consumed, limit - |items|)
      decreases |lines| - consumed
    {
      RestStep(decode, f, files, i, consumed);
      PositionStep(decode, f, files, i, consumed, limit - |items|);
      ghost var tail := Rest(decode, f, files, i, consumed + 1);
      var e := Accept(decode, f, lines[|lines| - 1 - consumed]);
      if e.Some? {
        assert items + ([e.value] + tail) == (items + [e.value]) + tail;
        items := items + [e.value];
        if |items| == limit { return items, Some(consumed + 1); }
      } else {
        assert [] + tail == tail;
      }
      consumed := consumed + 1;
    }
    RestNextFile(decode, f, files, i, consumed);
    PositionNextFile(decode, f, files, i, consumed, limit - |items|);
    full := None;
  }

  /** readAccessLogsPage. A read error is reported only when a file from the start on is unreadable. */
  method ReadPage(decode: Decoder, f: Filters, files: seq<File>, cursor: Option<Cursor>, limit: int) returns (r: Result)
    requires DistinctFiles(files)
    ensures limit <= 0 ==> r == Ok(Page([], None, false))
    ensures limit > 0 && r.Ok? ==> r.page == PageAt(decode, f, files, cursor, limit)
    ensures r.ReadError? ==> limit > 0 && Start(files, cursor).Some? && !Readable(files, Start(files, cursor).value.0)
  {
    hide Accept, LinesOf;
    if limit <= 0 || files == [] { return Ok(Page([], None, false)); }
    hide Rest, PositionAfter;
    var fileIndex, offset := 0, 0;
    if cursor.Some? {
      var idx := IndexOfFile(files, cursor.value.file);
      if idx.None? { return Ok(Page([], None, false)); }
      fileIndex, offset := idx.value, cursor.value.offsetFromEnd;
    }
    assert Start(files, cursor) == Some((fileIndex, offset));
    ghost var all := Rest(decode, f, files, fileIndex, offset);
    var items: seq<Entry> := [];
    assert [] + all == all;
    for i := fileIndex to |files|
      invariant |items| < limit
      invariant all == items + Rest(decode, f, files, i, if i == fileIndex then offset else 0)
      invariant PositionAfter(decode, f, files, fileIndex, offset, limit) ==
                PositionAfter(decode, f, files, i, if i == fileIndex then offset else 0, limit - |items|)
    {
      if files[i].lines.None? { return ReadError; }
      var full;
      items, full := ScanFile(decode, f, files, i, if i == fileIndex then offset else 0, limit, items);
      if full.Some? {
        var next := Cursor(files[i].name, full.value);
        IndexOfOwnName(files, i);
        assert all[..limit] == items;
        var more := HasMore(decode, f, files, next);
        if more.None? { return ReadError; }
        return Ok(Page(items, Some(next), more.value));
      }
    }
    PositionPastEnd(decode, f, files, |files|, limit - |items|);
    assert items + [] == items;
    return Ok(Page(items, None, false));
  }

  lemma PositionPastEnd(decode: Decoder, f: Filters, files: seq<File>, i: nat, need: nat)
    requires need > 0 && i >= |files|
    ensures Rest(decode, f, files, i, 0) == [] && PositionAfter(decode, f, files, i, 0, need).None?
  {
  }

  // ---------------------------------------------------------------- what the pages hold

  ghost predicate OccursIn(part: string, text: string) {
    exists i :: 0 <= i <= |text| - |part| && text[i..][..|part|] == part
  }

  /** A filter that is set asks for the method or status itself, or for a part of the host or address. */
  ghost predicate Admits(f: Filters, e: Entry) {
    && (f.httpMethod != "" ==> f.httpMethod == ToUpper(TrimSpace(e.httpMethod)))
    && (f.status != 0 ==> f.status == e.status)
    && (f.host != "" ==> OccursIn(f.host, ToLower(TrimSpace(e.host))))
    && (f.ip != "" ==> OccursIn(f.ip, TrimSpace(e.clientIp)))
  }

  /** The line decodes to the entry and the filters admit it. */
  ghost predicate Shows(decode: Decoder, f: Filters, line: string, e: Entry) {
    TrimSpace(line) != "" && decode(TrimSpace(line)) == Some(e) && Admits(f, e)
  }

  lemma {:induction false} ContainsExactly(text: string, part: string)
    ensures Contains(text, part) <==> OccursIn(part, text)
  {
    if |part| <= |text| {
      if part <= text {
        assert text[0..][..|part|] == part;
      } else if |part| < |text| {
        ContainsExactly(text[1..], part);
        forall i | 1 <= i <= |text| - |part| ensures text[1..][i - 1..][..|part|] == text[i..][..|part|] {}
        assert text[0..][..|part|] == text[..|part|];
      } else {
        forall i | 0 <= i <= |text| - |part| ensures text[i..][..|part|] != part { assert i == 0 && text[0..] == text; }
      }
    }
  }

  lemma AcceptExactly(decode: Decoder, f: Filters, line: string, e: Entry)
    ensures Accept(decode, f, line) == Some(e) <==> Shows(decode, f, line, e)
  {
    hide TrimSpace, Contains, OccursIn;
    ContainsExactly(ToLower(TrimSpace(e.host)), f.host);
    ContainsExactly(TrimSpace(e.clientIp), f.ip);
  }

  /** Some line that is not consumed at the position shows the entry. */
  ghost predicate Shown(decode: Decoder, f: Filters, files: seq<File>, i: nat, offset: nat, e: Entry) {
    exists k, j :: i <= k < |files| && 0 <= j < |LinesOf(files[k])| && (k == i ==> j < |LinesOf(files[k])| - offset) &&
                   Shows(decode, f, LinesOf(files[k])[j], e)
  }

  lemma {:induction false} FileRestMembers(decode: Decoder, f: Filters, lines: seq<string>, offset: nat, e: Entry)
    ensures e in FileRest(decode, f, lines, offset) <==>
            exists j :: 0 <= j < |lines| - offset && Shows(decode, f, lines[j], e)
    decreases |lines| - offset
  {
    hide Accept, Shows;
    if offset < |lines| {
      AcceptExactly(decode, f, lines[|lines| - 1 - offset], e);
      FileRestMembers(decode, f, lines, offset + 1, e);
    }
  }

  lemma {:induction false} RestMembers(decode: Decoder, f: Filters, files: seq<File>, i: nat, offset: nat, e: Entry)
    ensures e in Rest(decode, f, files, i, offset) <==> Shown(decode, f, files, i, offset, e)
    decreases |files| - i
  {
    hide FileRest, Shows, LinesOf;
    if i < |files| {
      FileRestMembers(decode, f, LinesOf(files[i]), offset, e);
      RestMembers(decode, f, files, i + 1, 0, e);
    }
  }

  /** The pages together show an entry exactly when a line of some file decodes to it and the filters
      admit it; and so does every entry of a single page. */
  lemma PagesShowExactly(decode: Decoder, f: Filters, files: seq<File>, limits: nat -> nat, cursor: Option<Cursor>,
                         limit: nat, e: Entry)
    requires DistinctFiles(files) && (forall q: nat :: limits(q) > 0) && limit > 0
    ensures e in Follow(decode, f, files, None, limits, 0) <==>
            exists k, j :: 0 <= k < |files| && 0 <= j < |LinesOf(files[k])| && Shows(decode, f, LinesOf(files[k])[j], e)
    ensures e in PageAt(decode, f, files, cursor, limit).items ==>
            exists k, j :: 0 <= k < |files| && 0 <= j < |LinesOf(files[k])| && Shows(decode, f, LinesOf(files[k])[j], e)
  {
    hide Shows, LinesOf, Rest, PositionAfter, Accept;
    FollowFrom(decode, f, files, None, limits, 0);
    RestMembers(decode, f, files, 0, 0, e);
    if Start(files, cursor).Some? {
      RestMembers(decode, f, files, Start(files, cursor).value.0, Start(files, cursor).value.1, e);
    }
  }

  // ---------------------------------------------------------------- listing

  predicate IsAccessLog(name: string) { HasPrefix(name, "access-") && HasSuffix(name, ".log") }

  /** listAccessLogFiles: the access logs of a directory, sorted and reversed. */
  method ListFiles(dir: map<string, Option<seq<string>>>) returns (files: seq<File>)
    ensures DistinctFiles(files)
    ensures forall i, j :: 0 <= i < j < |files| ==> Less(files[j].name, files[i].name)
    ensures forall i :: 0 <= i < |files| ==>
              files[i].name in dir && files[i].lines == dir[files[i].name] && IsAccessLog(files[i].name)
    ensures forall n :: n in dir && IsAccessLog(n) ==> exists i :: 0 <= i < |files| && files[i].name == n
  {
    var wanted := set n | n in dir && IsAccessLog(n);
    var keys := SortedKeys(wanted);
    forall i | 0 <= i < |keys| ensures keys[i] in wanted { assert keys[i] in keys; }
    files := seq(|keys|, i requires 0 <= i < |keys| => File(keys[|keys| - 1 - i], dir[keys[|keys| - 1 - i]]));
    forall i, j | 0 <= i < j < |files| ensures Less(files[j].name, files[i].name) {
      assert Less(Self(keys[|keys| - 1 - j]), Self(keys[|keys| - 1 - i]));
    }
    forall n | n in dir && IsAccessLog(n) ensures exists i :: 0 <= i < |files| && files[i].name == n {
      assert n in keys;
      var k :| 0 <= k < |keys| && keys[k] == n;
      assert files[|keys| - 1 - k].name == n;
    }
  }
}
