/** The read/write/edit tools and their safety discipline: a file that
    exists must have been read before it is overwritten or edited, and every
    successful modification forgets that read. Paths are taken as already
    resolved (`Path(...).expanduser().resolve()` is the identity here) and the
    filesystem is a map from path to text. */
module FileOps {
  import opened Wrappers
  import opened Text

  type FileSystem = map<string, string>

  /** The module-level `_read_files` set. */
  type ReadSet = set<string>

  // ---- read set ----

  predicate HasBeenRead(rs: ReadSet, path: string) {
    path in rs
  }

  /** `mark_file_read`. */
  function MarkRead(rs: ReadSet, path: string): (r: ReadSet)
    ensures HasBeenRead(r, path)
    ensures forall q :: q != path ==> (HasBeenRead(r, q) <==> HasBeenRead(rs, q))
  {
    rs + {path}
  }

  /** `unmark_file_read`: removing an absent path changes nothing. */
  function UnmarkRead(rs: ReadSet, path: string): (r: ReadSet)
    ensures !HasBeenRead(r, path)
    ensures forall q :: q != path ==> (HasBeenRead(r, q) <==> HasBeenRead(rs, q))
    ensures !HasBeenRead(rs, path) ==> r == rs
  {
    if path in rs then rs - {path} else rs
  }

  /** `clear_read_files`. */
  function ClearReadFiles(rs: ReadSet): (r: ReadSet)
    ensures forall q :: !HasBeenRead(r, q)
  {
    {}
  }

  /** Marking and then unmarking a path that was not read restores the set. */
  lemma MarkUnmarkRestores(rs: ReadSet, path: string)
    requires !HasBeenRead(rs, path)
    ensures UnmarkRead(MarkRead(rs, path), path) == rs
  {
  }

  // ---- text-mode reading ----

  /** What a file opened with `open(path, "r")` reads: universal newlines
      turn every "\r\n" and every lone "\r" into "\n". */
  function ReadText(raw: string): (r: string)
    decreases |raw|
    ensures '\r' !in r
    ensures '\r' !in raw ==> r == raw
    ensures |r| <= |raw|
  {
    if |raw| == 0 then ""
    else if raw[0] == '\r' then "\n" + ReadText(if |raw| > 1 && raw[1] == '\n' then raw[2..] else raw[1..])
    else [raw[0]] + ReadText(raw[1..])
  }

  /** A Windows line end and an old Mac line end both read as one newline. */
  lemma ReadTextLineEnds()
    ensures ReadText("x\r\ny") == "x\ny"
    ensures ReadText("a\rb") == "a\nb"
  {
    assert ReadText("\r\ny") == "\n" + ReadText("y");
    assert ReadText("\rb") == "\n" + ReadText("b");
  }

  /** No "\r" ending `a` meets a "\n" starting `b`: the cut between them
      does not fall inside a Windows line end. */
  predicate NoCrLfAcross(a: string, b: string) {
    !(|a| > 0 && a[|a| - 1] == '\r' && |b| > 0 && b[0] == '\n')
  }

  /** Text is read piece by piece, so long as no cut falls inside a
      "\r\n". */
  lemma {:induction false} ReadTextAppend(a: string, b: string)
    requires NoCrLfAcross(a, b)
    ensures ReadText(a + b) == ReadText(a) + ReadText(b)
    decreases |a|
  {
    if |a| == 0 {
      assert a + b == b;
    } else {
      var k, h := HeadStep(a, b);
      ReadTextAppend(a[k..], b);
      ConcatAssoc(h, ReadText(a[k..]), ReadText(b));
    }
  }

  /** One step of reading `a` followed by `b`: the first `k` characters of
      `a` read as `h`, whether `b` follows or not. */
  lemma HeadStep(a: string, b: string) returns (k: nat, h: string)
    requires |a| > 0 && NoCrLfAcross(a, b)
    ensures 0 < k <= |a| && NoCrLfAcross(a[k..], b)
    ensures ReadText(a) == h + ReadText(a[k..]) && ReadText(a + b) == h + ReadText(a[k..] + b)
  {
    if a[0] == '\r' && |a| > 1 && a[1] == '\n' {
      k, h := 2, "\n";
      assert (a + b)[2..] == a[2..] + b;
      assert ReadText(a + b) == "\n" + ReadText(a[2..] + b);
    } else if a[0] == '\r' && |a| == 1 {
      k, h := 1, "\n";
      assert (a + b)[1..] == b == a[1..] + b;
      assert ReadText(a + b) == "\n" + ReadText(a[1..] + b);
    } else if a[0] == '\r' {
      k, h := 1, "\n";
      assert (a + b)[1..] == a[1..] + b;
      assert ReadText(a + b) == "\n" + ReadText(a[1..] + b);
    } else {
      k, h := 1, [a[0]];
      assert (a + b)[1..] == a[1..] + b;
      assert ReadText(a + b) == [a[0]] + ReadText(a[1..] + b);
    }
  }

  /** A Windows line end anywhere reads as one newline. */
  lemma ReadTextCrLf(a: string, b: string)
    ensures ReadText(a + "\r\n" + b) == ReadText(a) + "\n" + ReadText(b)
  {
    assert a + "\r\n" + b == a + ("\r\n" + b);
    ReadTextAppend(a, "\r\n" + b);
    ReadTextLeads("\r\n", b);
  }

  /** A carriage return not followed by a newline reads as one newline. */
  lemma ReadTextCr(a: string, b: string)
    requires |b| == 0 || b[0] != '\n'
    ensures ReadText(a + "\r" + b) == ReadText(a) + "\n" + ReadText(b)
  {
    assert a + "\r" + b == a + ("\r" + b);
    ReadTextAppend(a, "\r" + b);
    ReadTextLeads("\r", b);
  }

  /** A line end `e` in front of text that does not extend it reads as
      "\n" and then the text. */
  lemma ReadTextLeads(e: string, b: string)
    requires e == "\r\n" || (e == "\r" && (|b| == 0 || b[0] != '\n'))
    ensures ReadText(e + b) == "\n" + ReadText(b)
  {
    assert (e + b)[|e|..] == b;
  }

  /** Lines ended the Windows way read as the same lines ended with "\n". */
  lemma {:induction false} ReadTextJoinCrLf(xs: seq<string>)
    requires forall i :: 0 <= i < |xs| ==> '\r' !in xs[i]
    ensures ReadText(Join(xs, "\r\n")) == Join(xs, "\n")
  {
    if |xs| > 1 {
      ReadTextJoinCrLf(xs[1..]);
      ReadTextCrLf(xs[0], Join(xs[1..], "\r\n"));
    }
  }

  /** Lines ended the old Mac way, "\r" alone, read as the same lines ended
      with "\n", so long as no line but the first starts with "\n" (that
      "\n" would join the "\r" before it into one line end). */
  lemma {:induction false} ReadTextJoinCr(xs: seq<string>)
    requires forall i :: 0 <= i < |xs| ==> '\r' !in xs[i]
    requires forall i :: 0 < i < |xs| ==> |xs[i]| == 0 || xs[i][0] != '\n'
    ensures ReadText(Join(xs, "\r")) == Join(xs, "\n")
  {
    if |xs| > 1 {
      ReadTextJoinCr(xs[1..]);
      var rest := Join(xs[1..], "\r");
      assert |rest| == 0 || rest[0] != '\n' by {
        if |xs| > 2 {
          assert rest == xs[1] + "\r" + Join(xs[2..], "\r");
        }
      }
      ReadTextCr(xs[0], rest);
    }
  }

  // ---- read_file ----

  /** `f.readlines()`: pieces that each end just after a newline, except
      possibly the last; concatenated they give the text back. */
  function ReadLines(s: string): (r: seq<string>)
    decreases |s|
    ensures Concat(r) == s
    ensures forall k :: 0 <= k < |r| ==> |r[k]| > 0 && NewlineOnlyAtEnd(r[k])
    ensures forall k :: 0 <= k < |r| - 1 ==> r[k][|r[k]| - 1] == '\n'
  {
    if |s| == 0 then []
    else match Find(s, "\n")
      case None =>
        FindCharAbsent2(s);
        [s]
      case Some(i) =>
        var line := s[..i + 1];
        assert NewlineOnlyAtEnd(line) by {
          forall k | 0 <= k < i
            ensures line[k] != '\n'
          {
            assert !OccursAt(s, "\n", k);
            assert s[k..k + 1] == [s[k]];
          }
        }
        assert line[i] == '\n' by {
          assert OccursAt(s, "\n", i);
          assert s[i..i + 1] == "\n";
        }
        var rest := ReadLines(s[i + 1..]);
        assert s == line + s[i + 1..];
        [line] + rest
  }

  /** A newline, if any, is the last character. */
  predicate NewlineOnlyAtEnd(line: string) {
    forall k :: 0 <= k < |line| - 1 ==> line[k] != '\n'
  }

  lemma FindCharAbsent2(s: string)
    requires Find(s, "\n").None?
    ensures NewlineOnlyAtEnd(s)
  {
    forall k | 0 <= k < |s| - 1
      ensures s[k] != '\n'
    {
      assert !OccursAt(s, "\n", k);
      assert s[k..k + 1] == [s[k]];
    }
  }

  function Concat(xs: seq<string>): string {
    if |xs| == 0 then "" else xs[0] + Concat(xs[1..])
  }

  /** Start of the window: `offset - 1` for a positive offset, else 0. */
  function WindowStart(offset: Option<int>): nat {
    if offset.Some? && offset.value > 0 then offset.value - 1 else 0
  }

  /** End of the window: `start + limit` for a truthy limit, else the line
      count. A negative limit is passed on as a Python slice bound. */
  function WindowEnd(start: nat, limit: Option<int>, n: nat): int {
    if limit.Some? && limit.value != 0 then start + limit.value else n
  }

  /** `lines[start_idx:end_idx]`. */
  function Window<T>(lines: seq<T>, offset: Option<int>, limit: Option<int>): seq<T> {
    var start := WindowStart(offset);
    PySlice(lines, start, WindowEnd(start, limit, |lines|))
  }

  /** For a positive limit the window is the run of at most `limit` lines
      beginning at line `offset` (1-based); without a limit it runs to the
      end of the file. A negative limit ends the window that many lines
      before the end of the file, counted from the start, as a Python slice
      bound does: when `start + limit` is itself not negative the window is
      empty. */
  lemma WindowBounds<T>(lines: seq<T>, offset: Option<int>, limit: Option<int>)
    ensures limit.None? || limit.value >= 0 ==>
              var start := WindowStart(offset);
              var stop := if limit.Some? && limit.value > 0 && start + limit.value < |lines| then start + limit.value else |lines|;
              Window(lines, offset, limit) == if start <= stop then lines[start..stop] else []
    ensures limit.Some? && limit.value < 0 ==>
              var start := WindowStart(offset);
              var stop := |lines| + start + limit.value;
              Window(lines, offset, limit) ==
                if start + limit.value >= 0 || stop <= start then [] else lines[start..stop]
  {
  }

  /** `f"{i:4}│{line.rstrip()}"`. */
  function NumberedLine(i: nat, line: string): string {
    RJust(NatToString(i), 4) + "\U{2502}" + RStrip(line)
  }

  /** The window's lines, numbered consecutively from `first`. */
  function Numbered(lines: seq<string>, first: nat): (r: seq<string>)
    ensures |r| == |lines|
    ensures forall k :: 0 <= k < |r| ==> r[k] == NumberedLine(first + k, lines[k])
  {
    seq(|lines|, k requires 0 <= k < |lines| => NumberedLine(first + k, lines[k]))
  }

  /** `len(line) - len(line.lstrip())`. */
  function IndentOf(line: string): nat {
    |line| - |LStrip(line)|
  }

  /** A line that counts towards the indentation hint: indented, not blank,
      and not a `#` comment. */
  predicate CountsForIndent(line: string) {
    var stripped := LStrip(line);
    |stripped| > 0 && stripped[0] != '#' && IndentOf(line) > 0
  }

  /** The indentation widths in `ks` below `k`, in increasing order. */
  function Ascending(ks: set<nat>, k: nat): (r: seq<nat>)
    ensures forall x :: x in r <==> x in ks && x < k
    ensures forall i, j :: 0 <= i < j < |r| ==> r[i] < r[j]
  {
    if k == 0 then []
    else
      var prefix := Ascending(ks, k - 1);
      assert forall i :: 0 <= i < |prefix| ==> prefix[i] in prefix;
      prefix + (if k - 1 in ks then [k - 1] else [])
  }

  function MaxLen(lines: seq<string>): (m: nat)
    ensures forall k :: 0 <= k < |lines| ==> |lines[k]| <= m
  {
    if |lines| == 0 then 0
    else var rest := MaxLen(lines[1..]); if |lines[0]| > rest then |lines[0]| else rest
  }

  /** `sorted(indent_counts.keys())`. */
  function SortedIndents(lines: seq<string>): (r: seq<nat>)
    ensures forall x :: x in r <==> exists k :: 0 <= k < |lines| && CountsForIndent(lines[k]) && IndentOf(lines[k]) == x
    ensures forall i, j :: 0 <= i < j < |r| ==> r[i] < r[j]
  {
    var ks := set k | 0 <= k < |lines| && CountsForIndent(lines[k]) :: IndentOf(lines[k]);
    Ascending(ks, MaxLen(lines) + 1)
  }

  /** Python's `repr` of a list of integers. */
  function IntListRepr(xs: seq<nat>): string {
    "[" + Join(seq(|xs|, i requires 0 <= i < |xs| => NatToString(xs[i])), ", ") + "]"
  }

  function IndentHint(selected: seq<string>): string {
    var indents := SortedIndents(selected);
    if |indents| == 0 then ""
    else IndentHintHead + IntListRepr(Take(indents, 4)) + "]"
  }

  const IndentHintHead: string := "\n\n[Indentation: spaces before content shown exactly. Common indents: "

  function FileNotFound(path: string): string {
    "Error: File not found: " + path
  }

  /** `read_file`: returns the new read set and the reply. */
  function ReadFile(fs: FileSystem, rs: ReadSet, path: string, offset: Option<int>, limit: Option<int>): (r: (ReadSet, string))
    ensures path !in fs ==> r == (rs, FileNotFound(path))
    ensures path in fs ==> r.0 == MarkRead(rs, path)
    ensures path in fs ==>
              var selected := Window(ReadLines(ReadText(fs[path])), offset, limit);
              (|selected| == 0 <==> r.1 == "(empty file)") &&
              (|selected| > 0 ==> StartsWith(r.1, Join(Numbered(selected, WindowStart(offset) + 1), "\n")))
  {
    if path !in fs then (rs, FileNotFound(path))
    else
      var selected := Window(ReadLines(ReadText(fs[path])), offset, limit);
      var listing := Numbered(selected, WindowStart(offset) + 1);
      if |selected| == 0 then (MarkRead(rs, path), "(empty file)")
      else
        var out := Join(listing, "\n") + IndentHint(selected);
        assert out[..|Join(listing, "\n")|] == Join(listing, "\n");
        assert out != "(empty file)" by {
          assert listing[0][0] == RJust(NatToString(WindowStart(offset) + 1), 4)[0];
          JoinHead(listing, "\n");
          NumberedLineHead(WindowStart(offset) + 1, selected[0]);
        }
        (MarkRead(rs, path), out)
  }

  lemma JoinHead(xs: seq<string>, sep: string)
    requires |xs| > 0 && |xs[0]| > 0
    ensures |Join(xs, sep)| > 0 && Join(xs, sep)[0] == xs[0][0]
  {
  }

  /** A numbered line starts with a space or a digit, never with '('. */
  lemma NumberedLineHead(i: nat, line: string)
    ensures |NumberedLine(i, line)| > 0 && NumberedLine(i, line)[0] != '('
  {
    var d := NatToString(i);
    if |d| < 4 {
      assert RJust(d, 4)[0] == ' ';
    } else {
      assert RJust(d, 4)[0] == d[0];
    }
  }

  /** The numbered lines carry no newline of their own. */
  lemma NumberedLineNoNewline(i: nat, line: string)
    requires NewlineOnlyAtEnd(line)
    ensures '\n' !in NumberedLine(i, line)
  {
    var d := NatToString(i);
    var body := RStrip(line);
    assert '\n' !in body by {
      forall k | 0 <= k < |body|
        ensures body[k] != '\n'
      {
        if k == |line| - 1 {
          assert !IsSpace(body[|body| - 1]);
        }
      }
    }
    assert '\n' !in RJust(d, 4) by {
      var pad := RJust(d, 4);
      forall k | 0 <= k < |pad|
        ensures pad[k] != '\n'
      {
        if |d| < 4 && k < 4 - |d| {
          assert pad[k] == ' ';
        } else if |d| < 4 {
          assert pad[k] == d[k - (4 - |d|)];
        }
      }
    }
  }

  /** Splitting the listing on newlines gives back exactly the numbered
      window lines, one per selected file line, numbered from `offset`. */
  lemma ListingLines(content: string, offset: Option<int>, limit: Option<int>)
    requires |Window(ReadLines(content), offset, limit)| > 0
    ensures var selected := Window(ReadLines(content), offset, limit);
            Split(Join(Numbered(selected, WindowStart(offset) + 1), "\n"), '\n')
              == Numbered(selected, WindowStart(offset) + 1)
  {
    var lines := ReadLines(content);
    var selected := Window(lines, offset, limit);
    forall k | 0 <= k < |selected|
      ensures NewlineOnlyAtEnd(selected[k])
    {
      assert selected[k] in lines;
    }
    NumberedNoNewlines(selected, WindowStart(offset) + 1);
    SplitJoin(Numbered(selected, WindowStart(offset) + 1), '\n');
  }

  lemma NumberedNoNewlines(selected: seq<string>, first: nat)
    requires forall k :: 0 <= k < |selected| ==> NewlineOnlyAtEnd(selected[k])
    ensures forall k :: 0 <= k < |selected| ==> '\n' !in Numbered(selected, first)[k]
  {
    forall k | 0 <= k < |selected|
      ensures '\n' !in Numbered(selected, first)[k]
    {
      NumberedLineNoNewline(first + k, selected[k]);
    }
  }

  // ---- write_file ----

  function WriteRefused(path: string): string {
    "Error: Cannot write to " + path + WriteRefusedTail
  }

  const WriteRefusedTail: string := " - file exists but has not been read first. Read the file before modifying it."

  datatype Effect = Effect(fs: FileSystem, rs: ReadSet, reply: string)

  /** `write_file`: an existing file must have been read; a new file needs
      no read. Success stores the content and forgets the read. */
  function WriteFile(fs: FileSystem, rs: ReadSet, path: string, content: string): (r: Effect)
    ensures path in fs && !HasBeenRead(rs, path) ==> r == Effect(fs, rs, WriteRefused(path))
    ensures !(path in fs && !HasBeenRead(rs, path)) ==>
              && path in r.fs && r.fs[path] == content
              && (forall q :: q != path ==> (q in r.fs <==> q in fs) && (q in fs ==> r.fs[q] == fs[q]))
              && r.rs == UnmarkRead(rs, path)
              && r.reply == "Successfully wrote " + NatToString(|content|) + " bytes to " + path
  {
    if path in fs && !HasBeenRead(rs, path) then Effect(fs, rs, WriteRefused(path))
    else Effect(fs[path := content], UnmarkRead(rs, path),
                "Successfully wrote " + NatToString(|content|) + " bytes to " + path)
  }

  // ---- edit_file ----

  function EditUnread(path: string): string {
    "Error: Cannot edit " + path + EditUnreadTail
  }

  const EditUnreadTail: string := " - file has not been read first. Read the file before modifying it."

  function TooMany(count: nat): string {
    "Error: Found " + NatToString(count) + TooManyTail
  }

  const TooManyTail: string :=
    " occurrences of the string. Use replace_all=true to replace all, or provide more context to make the match unique."

  /** Index of the first line containing `needle`. */
  function FirstLineWith(lines: seq<string>, needle: string, from: nat): (r: Option<nat>)
    decreases |lines| - from
    ensures r.Some? ==> from <= r.value < |lines| && Contains(lines[r.value], needle)
    ensures r.Some? ==> forall k :: from <= k < r.value ==> !Contains(lines[k], needle)
    ensures r.None? ==> forall k :: from <= k < |lines| ==> !Contains(lines[k], needle)
  {
    if from >= |lines| then None
    else if Contains(lines[from], needle) then Some(from)
    else FirstLineWith(lines, needle, from + 1)
  }

  /** The debugging hint appended when `old_string` is not found: either an
      indentation mismatch (the stripped text occurs) or, for a long
      `old_string`, the line where its first line occurs. */
  function NotFoundHint(content: string, oldText: string): string {
    var lines := Split(content, '\n');
    var oldStripped := Strip(oldText);
    if oldStripped != "" && Contains(content, oldStripped) then
      match FirstLineWith(lines, Strip(Split(oldStripped, '\n')[0]), 0)
      case Some(i) =>
        IndentMismatchHead + NatToString(i + 1)
          + " has " + NatToString(IndentOf(lines[i])) + IndentMismatchTail
      case None => ""
    else if |oldText| > 20 then
      var firstLine := Strip(Split(oldText, '\n')[0]);
      if Contains(content, firstLine) then
        match FirstLineWith(lines, firstLine, 0)
        case Some(i) =>
          "\n\nHint: Found '" + Take(firstLine, 40) + "...' on line " + NatToString(i + 1)
            + " with " + NatToString(IndentOf(lines[i]))
            + FirstLineTail
        case None => ""
      else ""
    else ""
  }

  const IndentMismatchHead: string := "\n\nHint: Found similar content but indentation doesn't match. Line "
  const IndentMismatchTail: string := " spaces of indentation. Your old_string may have wrong indentation."
  const FirstLineTail: string := " spaces indentation. Re-read the file and copy the exact whitespace."
  const NotFoundHead: string := "Error: Could not find the specified string in "

  function NotFoundText(path: string, content: string, oldText: string): string {
    NotFoundHead + path + "." + NotFoundHint(content, oldText)
  }

  /** `edit_file`. The old string is looked for in the text as read, so with
      its line ends already turned into "\n", and that text is what the edit
      writes back. */
  function EditFile(fs: FileSystem, rs: ReadSet, path: string, oldText: string, newText: string, replaceAll: bool): (r: Effect)
    ensures path !in fs ==> r == Effect(fs, rs, FileNotFound(path))
    ensures path in fs && !HasBeenRead(rs, path) ==> r == Effect(fs, rs, EditUnread(path))
    ensures path in fs && HasBeenRead(rs, path) && !Contains(ReadText(fs[path]), oldText) ==>
              r == Effect(fs, rs, NotFoundText(path, ReadText(fs[path]), oldText))
    ensures path in fs && HasBeenRead(rs, path) && Count(ReadText(fs[path]), oldText) > 1 && !replaceAll ==>
              r == Effect(fs, rs, TooMany(Count(ReadText(fs[path]), oldText)))
    ensures path in fs && HasBeenRead(rs, path) && Contains(ReadText(fs[path]), oldText) && (replaceAll || Count(ReadText(fs[path]), oldText) == 1) ==>
              && r.fs == fs[path := Edited(ReadText(fs[path]), oldText, newText, replaceAll)]
              && r.rs == UnmarkRead(rs, path)
              && r.reply == EditedText(if replaceAll then Count(ReadText(fs[path]), oldText) else 1, path)
  {
    if path !in fs then Effect(fs, rs, FileNotFound(path))
    else if !HasBeenRead(rs, path) then Effect(fs, rs, EditUnread(path))
    else EditRead(fs, rs, path, oldText, newText, replaceAll)
  }

  /** `edit_file` once the file is known to exist and to have been read. */
  function EditRead(fs: FileSystem, rs: ReadSet, path: string, oldText: string, newText: string, replaceAll: bool): (r: Effect)
    requires path in fs && HasBeenRead(rs, path)
    ensures !Contains(ReadText(fs[path]), oldText) ==> r == Effect(fs, rs, NotFoundText(path, ReadText(fs[path]), oldText))
    ensures Count(ReadText(fs[path]), oldText) > 1 && !replaceAll ==> r == Effect(fs, rs, TooMany(Count(ReadText(fs[path]), oldText)))
    ensures Contains(ReadText(fs[path]), oldText) && (replaceAll || Count(ReadText(fs[path]), oldText) == 1) ==>
              && r.fs == fs[path := Edited(ReadText(fs[path]), oldText, newText, replaceAll)]
              && r.rs == UnmarkRead(rs, path)
              && r.reply == EditedText(if replaceAll then Count(ReadText(fs[path]), oldText) else 1, path)
  {
    var content := ReadText(fs[path]);
    CountPositiveIffContains(content, oldText);
    if !Contains(content, oldText) then Effect(fs, rs, NotFoundText(path, content, oldText))
    else
      var count := Count(content, oldText);
      if count > 1 && !replaceAll then Effect(fs, rs, TooMany(count))
      else
        Effect(fs[path := Edited(content, oldText, newText, replaceAll)], UnmarkRead(rs, path),
               EditedText(if replaceAll then count else 1, path))
  }

  /** The new content: every occurrence replaced with `replace_all`, the
      first one otherwise. */
  function Edited(content: string, oldText: string, newText: string, replaceAll: bool): string {
    if replaceAll then ReplaceAll(content, oldText, newText) else ReplaceFirst(content, oldText, newText)
  }

  function EditedText(n: nat, path: string): string {
    "Successfully replaced " + NatToString(n) + " occurrence(s) in " + path
  }

  /** A successful edit that did not ask for replace_all touched a unique
      occurrence, so it made the same change replace_all would have. */
  lemma SingleEditIsReplaceAll(fs: FileSystem, rs: ReadSet, path: string, oldText: string, newText: string)
    requires path in fs && HasBeenRead(rs, path) && Contains(ReadText(fs[path]), oldText)
    requires Count(ReadText(fs[path]), oldText) <= 1
    ensures EditFile(fs, rs, path, oldText, newText, false).fs == EditFile(fs, rs, path, oldText, newText, true).fs
  {
    CountPositiveIffContains(ReadText(fs[path]), oldText);
    ReplaceAllSingle(ReadText(fs[path]), oldText, newText);
  }

  /** replace_all changes the file length by the occurrence count times the
      length difference of the two strings. */
  lemma ReplaceAllEditLength(fs: FileSystem, rs: ReadSet, path: string, oldText: string, newText: string)
    requires path in fs && HasBeenRead(rs, path) && Contains(ReadText(fs[path]), oldText)
    ensures |EditFile(fs, rs, path, oldText, newText, true).fs[path]| == |ReadText(fs[path])| + Count(ReadText(fs[path]), oldText) * (|newText| - |oldText|)
  {
    ReplaceAllLength(ReadText(fs[path]), oldText, newText);
  }

  /** An old string with a Windows line end is not found in a Windows file:
      the file reads with "\n" line ends. */
  lemma CrlfOldTextNotFound(fs: FileSystem, rs: ReadSet, path: string, newText: string, all: bool)
    requires path in fs && fs[path] == "x\r\ny" && HasBeenRead(rs, path)
    ensures EditFile(fs, rs, path, "x\r\ny", newText, all).reply == NotFoundText(path, "x\ny", "x\r\ny")
  {
    ReadTextLineEnds();
    ContainsIffOccurs("x\ny", "x\r\ny");
  }

  /** Every successful modification must be preceded by a fresh read: right
      after a write, writing the same path again is refused, and so is an
      edit. */
  lemma ModificationNeedsFreshRead(fs: FileSystem, rs: ReadSet, path: string, c1: string, c2: string,
                                   oldText: string, newText: string, all: bool)
    requires !(path in fs && !HasBeenRead(rs, path))
    ensures var e := WriteFile(fs, rs, path, c1);
            WriteFile(e.fs, e.rs, path, c2).reply == WriteRefused(path) &&
            EditFile(e.fs, e.rs, path, oldText, newText, all).reply == EditUnread(path)
  {
  }

  /** Reading a file is enough to make the next write or edit pass the
      read check. */
  lemma ReadEnablesWrite(fs: FileSystem, rs: ReadSet, path: string, offset: Option<int>, limit: Option<int>, c: string)
    requires path in fs
    ensures var rs' := ReadFile(fs, rs, path, offset, limit).0;
            WriteFile(fs, rs', path, c).fs == fs[path := c]
  {
  }
}
