/** The parser of `git status --porcelain=v2 --branch -z` and the buffer that bounds a diff. Strings are bytes. */
module GitStatus {
  import opened Protocol

  datatype Change = Change(
    path: string, oldPath: string, index: string, worktree: string, kind: string, conflicted: bool)

  datatype Counts = Counts(added: nat, deleted: nat, renamed: nat, untracked: nat, conflicted: nat, modified: nat, total: nat)

  datatype Status = Status(files: seq<Change>, counts: Counts, clean: bool, truncated: bool)

  const NUL: char := '\0'
  const CR: char := '\r'

  // ----- the string operations -----

  /** `strings.SplitN(s, sep, n)` for n > 0, and `strings.Split` for an n no smaller than the number of pieces. */
  function SplitN(s: string, sep: char, n: nat): (r: seq<string>)
    requires n > 0
    ensures 0 < |r| <= n
    decreases n
  {
    if n == 1 || sep !in s then [s]
    else
      var i := Find(s, sep);
      [s[..i]] + SplitN(s[i + 1..], sep, n - 1)
  }

  function Find(s: string, c: char): (i: nat)
    requires c in s
    ensures i < |s| && s[i] == c && c !in s[..i]
  {
    if s[0] == c then 0 else
      assert s == [s[0]] + s[1..];
      var i := 1 + Find(s[1..], c);
      assert s[..i] == [s[0]] + s[1..][..i - 1];
      i
  }

  function Split(s: string, sep: char): seq<string> {
    SplitN(s, sep, |s| + 1)
  }

  /** `strings.TrimRight(s, "\r")` */
  function TrimCR(s: string): string {
    if s != "" && s[|s| - 1] == CR then TrimCR(s[..|s| - 1]) else s
  }

  function TrimPrefix(s: string, prefix: string): string {
    if prefix <= s then s[|prefix|..] else s
  }

  // ----- the parser -----

  function GitStatusRecords(raw: string): seq<string> {
    if NUL in raw then Split(raw, NUL) else Split(raw, '\n')
  }

  function SplitXY(value: string): (xy: (string, string)) {
    if |value| < 2 then ("", "") else (value[..1], value[1..2])
  }

  function GitKind(index: string, worktree: string): string {
    if index == "A" || worktree == "A" then "added"
    else if index == "D" || worktree == "D" then "deleted"
    else if index == "R" || worktree == "R" then "renamed"
    else "modified"
  }

  function NonEmptyPath(c: Change): Option<Change> {
    if c.path != "" then Some(c) else None
  }

  function ParseOrdinaryChange(line: string): Option<Change> {
    var fields := SplitN(line, ' ', 9);
    if |fields| < 9 then None
    else
      var (index, worktree) := SplitXY(fields[1]);
      NonEmptyPath(Change(fields[8], "", index, worktree, GitKind(index, worktree), false))
  }

  function ParseRenameChange(line: string, next: string): Option<Change> {
    var fields := SplitN(line, ' ', 10);
    if |fields| < 10 then None
    else
      var (index, worktree) := SplitXY(fields[1]);
      var cut := next == "" && '\t' in fields[9];
      var tab := if cut then Find(fields[9], '\t') else 0;
      var path := if cut then fields[9][..tab] else fields[9];
      var oldPath := if cut then fields[9][tab + 1..] else next;
      NonEmptyPath(Change(path, oldPath, index, worktree, "renamed", false))
  }

  function ParseUnmergedChange(line: string): Option<Change> {
    var fields := SplitN(line, ' ', 11);
    if |fields| < 11 then None
    else
      var (index, worktree) := SplitXY(fields[1]);
      NonEmptyPath(Change(fields[10], "", index, worktree, "conflicted", true))
  }

  function ParseGitChange(line: string, next: string): Option<Change>
    requires line != ""
  {
    match line[0]
    case '1' => ParseOrdinaryChange(line)
    case '2' => ParseRenameChange(line, next)
    case 'u' => ParseUnmergedChange(line)
    case '?' => NonEmptyPath(Change(TrimPrefix(line, "? "), "", "", "?", "untracked", false))
    case _ => None
  }

  /** The changes the records denote; a rename takes the record after it along. */
  function Changes(records: seq<string>): seq<Change>
    decreases |records|
  {
    if records == [] then []
    else
      var line := TrimCR(records[0]);
      if line == "" || "# " <= line then Changes(records[1..])
      else if line[0] == '2' && |records| > 1 then AsSeq(ParseGitChange(line, records[1])) + Changes(records[2..])
      else AsSeq(ParseGitChange(line, "")) + Changes(records[1..])
  }

  function AsSeq(c: Option<Change>): seq<Change> {
    if c.Some? then [c.value] else []
  }

  function CountGitChange(counts: Counts, change: Change): Counts {
    match change.kind
    case "added" => counts.(added := counts.added + 1)
    case "deleted" => counts.(deleted := counts.deleted + 1)
    case "renamed" => counts.(renamed := counts.renamed + 1)
    case "untracked" => counts.(untracked := counts.untracked + 1)
    case "conflicted" => counts.(conflicted := counts.conflicted + 1)
    case _ => counts.(modified := counts.modified + 1)
  }

  /** How many of the changes are of one kind. */
  function OfKind(files: seq<Change>, kind: string): nat {
    if files == [] then 0
    else OfKind(files[..|files| - 1], kind) + if files[|files| - 1].kind == kind then 1 else 0
  }

  predicate CountsAre(c: Counts, files: seq<Change>) {
    && c.added == OfKind(files, "added") && c.deleted == OfKind(files, "deleted")
    && c.renamed == OfKind(files, "renamed") && c.untracked == OfKind(files, "untracked")
    && c.conflicted == OfKind(files, "conflicted")
    && c.added + c.deleted + c.renamed + c.untracked + c.conflicted + c.modified == |files|
  }

  lemma CountOneMore(c: Counts, files: seq<Change>, change: Change)
    requires CountsAre(c, files)
    ensures CountsAre(CountGitChange(c, change), files + [change])
  {
    assert (files + [change])[..|files|] == files;
  }

  /** The loop over the records: the changes they denote, in order; each counter counts its kind, everything else is
      modified, all six sum to the total, and the tree is clean exactly when there is no change. */
  method ParseGitStatus(raw: string) returns (status: Status)
    ensures status.files == Changes(GitStatusRecords(raw)) && !status.truncated
    ensures CountsAre(status.counts, status.files) && status.counts.total == |status.files|
    ensures status.clean <==> status.files == []
  {
    hide ParseGitChange, CountsAre, TrimCR, CountGitChange, GitStatusRecords, Changes;
    status := Status([], Counts(0, 0, 0, 0, 0, 0, 0), true, false);
    assert CountsAre(status.counts, status.files) by { NothingCounted(); }
    var records := GitStatusRecords(raw);
    var i := 0;
    while i < |records|
      invariant 0 <= i <= |records| && !status.truncated
      invariant status.files + Changes(records[i..]) == Changes(records)
      invariant CountsAre(status.counts, status.files)
    {
      ChangesFrom(records, i);
      var line := TrimCR(records[i]);
      if line != "" && !("# " <= line) {
        var next := "";
        if line[0] == '2' && i + 1 < |records| {
          next := records[i + 1];
          i := i + 1;
        }
        var change := ParseGitChange(line, next);
        if change.Some? {
          CountOneMore(status.counts, status.files, change.value);
          status := status.(files := status.files + [change.value], counts := CountGitChange(status.counts, change.value));
        }
      }
      i := i + 1;
    }
    NoChanges(records, i);
    TotalIsApart(status.counts, status.files, |status.files|);
    status := status.(counts := status.counts.(total := |status.files|));
    status := status.(clean := status.counts.total == 0);
  }

  /** One turn of the loop. */
  lemma ChangesFrom(records: seq<string>, i: nat)
    requires i < |records|
    ensures var line := TrimCR(records[i]);
      if line == "" || "# " <= line then Changes(records[i..]) == Changes(records[i + 1..])
      else if line[0] == '2' && i + 1 < |records| then
        Changes(records[i..]) == AsSeq(ParseGitChange(line, records[i + 1])) + Changes(records[i + 2..])
      else Changes(records[i..]) == AsSeq(ParseGitChange(line, "")) + Changes(records[i + 1..])
  {
    hide ParseGitChange, TrimCR;
    assert records[i..][1..] == records[i + 1..];
    assert i + 1 < |records| ==> records[i..][2..] == records[i + 2..];
  }

  lemma NoChanges(records: seq<string>, i: nat)
    requires i == |records|
    ensures Changes(records[i..]) == []
  {
  }

  lemma NothingCounted()
    ensures CountsAre(Counts(0, 0, 0, 0, 0, 0, 0), [])
  {
  }

  lemma TotalIsApart(c: Counts, files: seq<Change>, n: nat)
    requires CountsAre(c, files)
    ensures CountsAre(c.(total := n), files)
  {
  }

  function Clamp(value: int, fallback: nat, max: nat): nat {
    if value <= 0 then fallback else if value > max then max else value
  }

  /** Cuts the list and says so; the counters keep telling about all changes. */
  function Limit(s: Status, limit: int): (r: Status)
    ensures |r.files| <= 2000 && r.files <= s.files && r.counts == s.counts
    ensures r.truncated == (s.truncated || r.files != s.files)
    ensures r.files != s.files ==> |r.files| == Clamp(limit, 500, 2000) < |s.files|
  {
    var n := Clamp(limit, 500, 2000);
    if |s.files| <= n then s
    else
      assert |s.files[..n]| == n;
      s.(files := s.files[..n], truncated := true)
  }

  // ----- the printed format -----

  /** An entry of the format, with its fields between the kind letter and the paths: `xy` and the object data. */
  datatype Entry =
    | Header(text: string)
    | Ordinary(xy: string, meta: seq<string>, path: string)
    | Renamed(xy: string, meta: seq<string>, path: string, oldPath: string)
    | Unmerged(xy: string, meta: seq<string>, path: string)
    | Untracked(path: string)

  predicate Plain(field: string) {
    ' ' !in field && NUL !in field
  }

  predicate PlainFields(xy: string, meta: seq<string>, n: nat) {
    |xy| == 2 && Plain(xy) && |meta| == n && forall f :: f in meta ==> Plain(f)
  }

  /** Paths are non-empty and free of NUL; nothing else is asked of them. */
  predicate IsPath(path: string) {
    path != "" && NUL !in path
  }

  predicate WellFormed(e: Entry) {
    match e
    case Header(text) => NUL !in text
    case Ordinary(xy, meta, path) => PlainFields(xy, meta, 6) && IsPath(path)
    case Renamed(xy, meta, path, oldPath) => PlainFields(xy, meta, 7) && IsPath(path) && IsPath(oldPath)
    case Unmerged(xy, meta, path) => PlainFields(xy, meta, 8) && IsPath(path)
    case Untracked(path) => IsPath(path)
  }

  /** Each field followed by a space. */
  function Join(fields: seq<string>): string {
    if fields == [] then "" else fields[0] + " " + Join(fields[1..])
  }

  function Line(letter: string, xy: string, meta: seq<string>, path: string): string {
    Join([letter, xy] + meta) + path
  }

  function RecordsOf(e: Entry): seq<string> {
    match e
    case Header(text) => ["# " + text]
    case Ordinary(xy, meta, path) => [Line("1", xy, meta, path)]
    case Renamed(xy, meta, path, oldPath) => [Line("2", xy, meta, path), oldPath]
    case Unmerged(xy, meta, path) => [Line("u", xy, meta, path)]
    case Untracked(path) => ["? " + path]
  }

  function AllRecords(entries: seq<Entry>): seq<string> {
    if entries == [] then [] else RecordsOf(entries[0]) + AllRecords(entries[1..])
  }

  /** With -z every record ends in NUL. */
  function Terminated(records: seq<string>): string {
    if records == [] then "" else records[0] + [NUL] + Terminated(records[1..])
  }

  function Print(entries: seq<Entry>): string {
    Terminated(AllRecords(entries))
  }

  /** The change an entry stands for, when its path is read as `path`. */
  function Meaning(e: Entry, path: string): Option<Change> {
    if path == "" then None
    else
      match e
      case Header(_) => None
      case Ordinary(xy, _, _) =>
        if |xy| != 2 then None else Some(Change(path, "", xy[..1], xy[1..], GitKind(xy[..1], xy[1..]), false))
      case Renamed(xy, _, _, oldPath) =>
        if |xy| != 2 then None else Some(Change(path, oldPath, xy[..1], xy[1..], "renamed", false))
      case Unmerged(xy, _, _) =>
        if |xy| != 2 then None else Some(Change(path, "", xy[..1], xy[1..], "conflicted", true))
      case Untracked(_) => Some(Change(path, "", "", "?", "untracked", false))
  }

  function PathOf(e: Entry): string {
    if e.Header? then "" else e.path
  }

  /** The changes the entries stand for. */
  function Meanings(entries: seq<Entry>): seq<Change> {
    if entries == [] then [] else AsSeq(Meaning(entries[0], PathOf(entries[0]))) + Meanings(entries[1..])
  }

  /** The same with the carriage returns at the end of each path taken off. */
  function TrimmedMeanings(entries: seq<Entry>): seq<Change> {
    if entries == [] then [] else AsSeq(Meaning(entries[0], TrimCR(PathOf(entries[0])))) + TrimmedMeanings(entries[1..])
  }

  lemma {:induction false} FindIs(s: string, c: char, i: nat)
    requires i < |s| && s[i] == c && c !in s[..i]
    ensures Find(s, c) == i
  {
    var k := Find(s, c);
    assert i <= k by { assert forall x :: 0 <= x < i ==> s[x] == s[..i][x]; }
    assert k <= i by { assert forall x :: 0 <= x < k ==> s[x] == s[..k][x]; }
  }

  /** Splitting takes off everything up to the first separator. */
  lemma SplitStep(a: string, c: char, b: string, n: nat)
    requires c !in a && n > 1
    ensures SplitN(a + [c] + b, c, n) == [a] + SplitN(b, c, n - 1)
  {
    hide Find;
    var s := a + [c] + b;
    assert s[|a|] == c && s[..|a|] == a && s[|a| + 1..] == b;
    FindIs(s, c, |a|);
  }

  lemma {:induction false} SplitJoined(fields: seq<string>, path: string)
    requires forall f :: f in fields ==> Plain(f)
    ensures SplitN(Join(fields) + path, ' ', |fields| + 1) == fields + [path]
  {
    if fields == [] {
      assert Join(fields) + path == path;
    } else {
      assert Join(fields) + path == fields[0] + [' '] + (Join(fields[1..]) + path);
      assert fields[0] in fields;
      SplitStep(fields[0], ' ', Join(fields[1..]) + path, |fields| + 1);
      SplitJoined(fields[1..], path);
      assert fields == [fields[0]] + fields[1..];
    }
  }

  lemma {:induction false} TrimCRAfter(a: string, b: string)
    requires a != "" && a[|a| - 1] != CR
    ensures TrimCR(a + b) == a + TrimCR(b)
  {
    if b != "" && b[|b| - 1] == CR {
      assert (a + b)[..|a + b| - 1] == a + b[..|b| - 1];
      TrimCRAfter(a, b[..|b| - 1]);
    } else if b == "" {
      assert a + b == a;
    }
  }

  lemma {:induction false} JoinEndsInSpace(fields: seq<string>)
    requires fields != []
    ensures Join(fields) != "" && Join(fields)[|Join(fields)| - 1] == ' '
  {
    if |fields| > 1 {
      JoinEndsInSpace(fields[1..]);
    } else {
      assert Join(fields) == fields[0] + " ";
    }
  }

  /** A line parses back to its fields and the trimmed path. */
  lemma LineParses(letter: string, xy: string, meta: seq<string>, path: string, n: nat)
    requires Plain(letter) && |letter| == 1 && PlainFields(xy, meta, n)
    ensures var line := TrimCR(Line(letter, xy, meta, path));
      && line != "" && line[0] == letter[0]
      && SplitN(line, ' ', n + 3) == [letter, xy] + meta + [TrimCR(path)]
  {
    var fields := [letter, xy] + meta;
    JoinEndsInSpace(fields);
    TrimCRAfter(Join(fields), path);
    SplitJoined(fields, TrimCR(path));
  }

  lemma SplitPair(xy: string)
    requires |xy| == 2
    ensures SplitXY(xy) == (xy[..1], xy[1..])
  {
    assert xy[1..2] == xy[1..];
  }

  /** What the parser makes of the records of one entry. */
  lemma EntryParses(e: Entry)
    requires WellFormed(e)
    ensures var records, line := RecordsOf(e), TrimCR(RecordsOf(e)[0]);
      && line != ""
      && (e.Header? <==> "# " <= line)
      && (e.Renamed? <==> line[0] == '2')
      && (!e.Header? ==>
        ParseGitChange(line, if e.Renamed? then records[1] else "") == Meaning(e, TrimCR(PathOf(e))))
  {
    hide SplitN, Join, TrimCR, GitKind, SplitXY, Plain;
    match e
    case Header(text) => TrimCRAfter("# ", text);
    case Ordinary(xy, meta, path) =>
      LineParses("1", xy, meta, path, 6);
      SplitPair(xy);
    case Renamed(xy, meta, path, oldPath) =>
      LineParses("2", xy, meta, path, 7);
      SplitPair(xy);
    case Unmerged(xy, meta, path) =>
      LineParses("u", xy, meta, path, 8);
      SplitPair(xy);
    case Untracked(path) =>
      TrimCRAfter("? ", path);
      assert ("? " + TrimCR(path))[0] == '?';
  }

  lemma {:induction false} RecordsParse(entries: seq<Entry>)
    requires forall e :: e in entries ==> WellFormed(e)
    ensures Changes(AllRecords(entries) + [""]) == TrimmedMeanings(entries)
  {
    hide ParseGitChange, RecordsOf, Meaning;
    if entries == [] {
      LastIsEmpty();
    } else {
      var e, rest := entries[0], AllRecords(entries[1..]) + [""];
      assert e in entries;
      EntryParses(e);
      RecordsParse(entries[1..]);
      OneOrTwo(e);
      var records := RecordsOf(e) + rest;
      assert AllRecords(entries) + [""] == records;
      if e.Renamed? {
        assert records[2..] == rest && |records| > 1 && records[1] == RecordsOf(e)[1];
      } else {
        assert records[1..] == rest;
      }
      assert Meaning(e, TrimCR(PathOf(e))) == None || !e.Header? by { HeaderMeansNothing(e); }
    }
  }

  lemma LastIsEmpty()
    ensures Changes([""]) == [] && AllRecords([]) + [""] == [""]
  {
    assert [""][1..] == [];
    assert Changes([]) == [];
  }

  lemma OneOrTwo(e: Entry)
    ensures |RecordsOf(e)| == if e.Renamed? then 2 else 1
  {
  }

  lemma HeaderMeansNothing(e: Entry)
    ensures e.Header? ==> Meaning(e, TrimCR(PathOf(e))) == None
  {
  }

  lemma SplitNothing(n: nat)
    requires n > 0
    ensures SplitN("", NUL, n) == [""]
  {
  }

  lemma {:induction false} SplitTerminated(records: seq<string>, n: nat)
    requires forall r :: r in records ==> NUL !in r
    requires n > |records|
    ensures SplitN(Terminated(records), NUL, n) == records + [""]
  {
    hide SplitN;
    if records == [] {
      SplitNothing(n);
    } else {
      assert records[0] in records;
      assert Terminated(records) == records[0] + [NUL] + Terminated(records[1..]);
      SplitStep(records[0], NUL, Terminated(records[1..]), n);
      SplitTerminated(records[1..], n - 1);
      assert records == [records[0]] + records[1..];
    }
  }

  lemma {:induction false} TerminatedIsLong(records: seq<string>)
    ensures |Terminated(records)| >= |records|
    ensures records != [] ==> NUL in Terminated(records)
  {
    if records != [] {
      TerminatedIsLong(records[1..]);
      assert Terminated(records)[|records[0]|] == NUL;
    }
  }

  lemma {:induction false} JoinIsPlain(fields: seq<string>)
    requires forall f :: f in fields ==> Plain(f)
    ensures NUL !in Join(fields)
  {
    if fields != [] {
      assert fields[0] in fields;
      JoinIsPlain(fields[1..]);
    }
  }

  lemma RecordsAreClean(e: Entry)
    requires WellFormed(e)
    ensures forall r :: r in RecordsOf(e) ==> NUL !in r
  {
    match e
    case Ordinary(xy, meta, path) => JoinIsPlain(["1", xy] + meta);
    case Renamed(xy, meta, path, oldPath) => JoinIsPlain(["2", xy] + meta);
    case Unmerged(xy, meta, path) => JoinIsPlain(["u", xy] + meta);
    case _ =>
  }

  lemma {:induction false} AllRecordsAreClean(entries: seq<Entry>)
    requires forall e :: e in entries ==> WellFormed(e)
    ensures forall r :: r in AllRecords(entries) ==> NUL !in r
  {
    hide RecordsOf, WellFormed;
    if entries != [] {
      assert entries[0] in entries;
      RecordsAreClean(entries[0]);
      AllRecordsAreClean(entries[1..]);
    }
  }

  /** For every list of well-formed entries: what is parsed back is what they stand for, up to the carriage returns at
      the end of a path. */
  lemma PrintedEntriesParse(entries: seq<Entry>)
    requires forall e :: e in entries ==> WellFormed(e)
    ensures Changes(GitStatusRecords(Print(entries))) == TrimmedMeanings(entries)
  {
    hide WellFormed, RecordsOf, Changes;
    var records := AllRecords(entries);
    AllRecordsAreClean(entries);
    TerminatedIsLong(records);
    RecordsParse(entries);
    if records == [] {
      assert Print(entries) == "";
      assert GitStatusRecords("") == [""];
      assert records + [""] == [""];
    } else {
      SplitTerminated(records, |Print(entries)| + 1);
    }
  }

  predicate EndsInCR(path: string) {
    path != "" && path[|path| - 1] == CR
  }

  lemma {:induction false} TrimCRShortens(s: string)
    ensures if EndsInCR(s) then |TrimCR(s)| < |s| else TrimCR(s) == s
  {
    if EndsInCR(s) {
      TrimCRShortens(s[..|s| - 1]);
    }
  }

  /** How many characters of paths the changes show. */
  function PathLength(changes: seq<Change>): nat {
    if changes == [] then 0 else |changes[0].path| + PathLength(changes[1..])
  }

  lemma {:induction false} TrimmingShowsLess(entries: seq<Entry>)
    requires forall e :: e in entries ==> WellFormed(e)
    ensures PathLength(TrimmedMeanings(entries)) <= PathLength(Meanings(entries))
    ensures if forall e :: e in entries ==> !EndsInCR(PathOf(e)) then TrimmedMeanings(entries) == Meanings(entries)
      else PathLength(TrimmedMeanings(entries)) < PathLength(Meanings(entries))
  {
    if entries != [] {
      var e, rest := entries[0], entries[1..];
      assert e in entries;
      TrimmingShowsLess(rest);
      TrimCRShortens(PathOf(e));
      assert (forall x :: x in entries ==> !EndsInCR(PathOf(x))) <==>
        !EndsInCR(PathOf(e)) && forall x :: x in rest ==> !EndsInCR(PathOf(x)) by { MembersOf(entries); }
      var a, b := AsSeq(Meaning(e, TrimCR(PathOf(e)))), AsSeq(Meaning(e, PathOf(e)));
      PathLengthAdds(a, TrimmedMeanings(rest));
      PathLengthAdds(b, Meanings(rest));
      EntryShows(e);
    }
  }

  lemma MembersOf(entries: seq<Entry>)
    requires entries != []
    ensures forall x :: x in entries <==> x == entries[0] || x in entries[1..]
  {
    assert entries == [entries[0]] + entries[1..];
  }

  lemma EntryShows(e: Entry)
    requires WellFormed(e)
    ensures PathLength(AsSeq(Meaning(e, TrimCR(PathOf(e))))) == |TrimCR(PathOf(e))|
    ensures PathLength(AsSeq(Meaning(e, PathOf(e)))) == |PathOf(e)|
  {
  }

  lemma PathLengthAdds(a: seq<Change>, b: seq<Change>)
    requires |a| <= 1
    ensures PathLength(a + b) == PathLength(a) + PathLength(b)
  {
    if a != [] {
      assert (a + b)[1..] == b;
    } else {
      assert a + b == b;
    }
  }

  /** The round trip: the parser returns exactly the changes the entries stand for, including renames over two
      records, if and only if no path ends in a carriage return. */
  lemma ParseRecoversIff(entries: seq<Entry>)
    requires forall e :: e in entries ==> WellFormed(e)
    ensures Changes(GitStatusRecords(Print(entries))) == Meanings(entries) <==>
      forall e :: e in entries ==> !EndsInCR(PathOf(e))
  {
    PrintedEntriesParse(entries);
    TrimmingShowsLess(entries);
  }

  // ----- the bounded buffer -----

  /** Keeps the first `max` bytes of everything written to it. `written` is all of it. */
  class LimitedBuffer {
    var buf: seq<char>
    const max: int
    var size: nat
    var truncated: bool
    ghost var written: seq<char>

    ghost predicate Valid()
      reads this
    {
      var kept := if max < 0 then 0 else max;
      && size == |written|
      && buf == (if |written| <= kept then written else written[..kept])
      && truncated == (|written| > kept)
    }

    constructor (max: int)
      ensures Valid() && written == [] && this.max == max
    {
      this.max := max;
      buf, size, truncated, written := [], 0, false, [];
    }

    method Write(p: seq<char>) returns (n: nat)
      requires Valid()
      modifies this
      ensures Valid() && written == old(written) + p && n == |p|
    {
      size := size + |p|;
      written := written + p;
      var remaining := max - |buf|;
      if remaining <= 0 {
        truncated := truncated || |p| > 0;
      } else if |p| > remaining {
        buf := buf + p[..remaining];
        truncated := true;
      } else {
        buf := buf + p;
      }
      return |p|;
    }
  }
}
