/** The state logic of the full-screen chat layout (`ui/chat_layout.py`):
    scrolling the output pane, choosing the window of rendered lines to
    show, the queue of messages typed while the agent is busy, the mode
    cycled by Shift-Tab, the column widths and line layout of a markdown
    table, the lines a user message adds, and the mask that stands in for
    a multi-line paste. Drawing, key-binding plumbing and styles are not
    modelled. */
module ChatLayout {
  import opened Wrappers
  import opened Text

  /** The output pane: its raw lines, how far it is scrolled up, and
      whether it follows new output. */
  datatype Pane = Pane(outputLines: seq<string>, scrollPosition: int, autoScroll: bool)

  /** The pane as the layout starts. */
  const InitialPane: Pane := Pane([], 0, true)

  function MaxScroll(p: Pane): nat {
    |p.outputLines| * 2
  }

  /** `_do_scroll`: a negative delta scrolls up (towards older output) and
      stops following new output, never beyond twice the raw line count;
      any other delta scrolls down, never below 0, and follows new output
      again once back at the bottom. */
  function Scroll(p: Pane, delta: int): (r: Pane)
    ensures r.outputLines == p.outputLines
    ensures delta < 0 ==> !r.autoScroll && r.scrollPosition <= MaxScroll(p)
    ensures delta < 0 && p.scrollPosition - delta <= MaxScroll(p) ==> r.scrollPosition == p.scrollPosition - delta
    ensures delta < 0 && p.scrollPosition - delta > MaxScroll(p) ==> r.scrollPosition == MaxScroll(p)
    ensures delta >= 0 ==> r.scrollPosition >= 0
    ensures delta >= 0 && p.scrollPosition - delta >= 0 ==> r.scrollPosition == p.scrollPosition - delta
    ensures delta >= 0 && p.scrollPosition - delta < 0 ==> r.scrollPosition == 0
    ensures delta >= 0 ==> (r.autoScroll <==> p.autoScroll || r.scrollPosition == 0)
  {
    if delta < 0 then
      var up := p.scrollPosition - delta;
      p.(autoScroll := false, scrollPosition := if up < MaxScroll(p) then up else MaxScroll(p))
    else
      var down := p.scrollPosition - delta;
      var pos := if down > 0 then down else 0;
      p.(scrollPosition := pos, autoScroll := if pos == 0 then true else p.autoScroll)
  }

  /** Scrolling never makes the position negative once it is not. */
  lemma ScrollKeepsNonNegative(p: Pane, delta: int)
    requires p.scrollPosition >= 0
    ensures Scroll(p, delta).scrollPosition >= 0
  {
  }

  /** Scrolling up and back down by the same amount, within the limit,
      returns to the same position; the pane follows new output again
      exactly when that position is the bottom. */
  lemma ScrollUpThenDown(p: Pane, d: int)
    requires d > 0 && p.scrollPosition >= 0 && p.scrollPosition + d <= MaxScroll(p)
    ensures var back := Scroll(Scroll(p, -d), d);
            back.scrollPosition == p.scrollPosition
            && (back.autoScroll <==> p.scrollPosition == 0)
  {
  }

  /** The part of the rendered output that is shown. */
  datatype Shown =
    | Everything
    | Window(start: int, end: int, moreAbove: Option<int>, moreBelow: Option<int>)

  /** Rows of the terminal taken by the rest of the interface. */
  const ChromeRows: int := 6

  /** The first and last-plus-one rendered line of the window, for
      `total` rendered lines of which `visible` fit. */
  function WindowBounds(total: nat, visible: int, autoScroll: bool, scrollPosition: int): (int, int)
    requires total > visible
  {
    if autoScroll then
      (if total - visible > 0 then total - visible else 0, total)
    else
      var wanted := total - scrollPosition - visible;
      var start0 := if wanted > 0 then wanted else 0;
      var capped := if start0 < total - visible then start0 else total - visible;
      var start := if capped > 0 then capped else 0;
      (start, if total < start + visible then total else start + visible)
  }

  /** `_get_output_text`'s window: everything when it fits below the
      chrome; otherwise the lines from `start` to `end`, an "above" marker
      when the window does not start at the top and, only when scrolled by
      hand, a "below" marker when it stops short of the bottom. */
  function Show(total: nat, height: int, autoScroll: bool, scrollPosition: int): (r: Shown)
    ensures r.Everything? <==> total <= height - ChromeRows
    ensures r.Window? && height - ChromeRows >= 1 ==>
              0 <= r.start <= r.end <= total && r.end - r.start == height - ChromeRows
    ensures r.Window? && autoScroll ==> r.end == total && r.moreBelow.None?
    ensures r.Window? ==> (r.moreAbove.Some? <==> r.start > 0) && (r.moreAbove.Some? ==> r.moreAbove.value == r.start)
    ensures r.Window? ==> (r.moreBelow.Some? <==> !autoScroll && r.end < total)
    ensures r.Window? && r.moreBelow.Some? ==> r.moreBelow.value == total - r.end
  {
    var visible := height - ChromeRows;
    if total <= visible then Everything
    else
      var (start, end) := WindowBounds(total, visible, autoScroll, scrollPosition);
      Window(start, end,
             if start > 0 then Some(start) else None,
             if !autoScroll && end < total then Some(total - end) else None)
  }

  /** Scrolled by hand to position 0, the window is the one that follows
      the output. */
  lemma BottomIsFollowing(total: nat, height: int)
    ensures Show(total, height, false, 0) == Show(total, height, true, 0)
  {
  }

  /** Scrolling further up never moves the window down. */
  lemma HigherShowsOlder(total: nat, height: int, a: int, b: int)
    requires a <= b
    requires Show(total, height, false, a).Window?
    ensures Show(total, height, false, b).Window?
    ensures Show(total, height, false, b).start <= Show(total, height, false, a).start
  {
  }

  /** Scrolled up by at least the hidden part, the window starts at the top. */
  lemma ScrolledToTop(total: nat, height: int, pos: int)
    requires total > height - ChromeRows >= 1 && pos >= total - (height - ChromeRows)
    ensures Show(total, height, false, pos).start == 0
    ensures Show(total, height, false, pos).moreAbove.None?
  {
  }

  /** `queue_message`: the message joins the end of the queue. */
  function QueueMessage(queue: seq<string>, message: string): (r: seq<string>)
    ensures |r| == |queue| + 1 && r[..|queue|] == queue && r[|queue|] == message
  {
    queue + [message]
  }

  /** `pop_queued_message`: the oldest message and the rest of the queue,
      or nothing from an empty queue. */
  function PopQueued(queue: seq<string>): (r: (Option<string>, seq<string>))
    ensures r.0.None? <==> queue == []
    ensures r.0.None? ==> r.1 == queue
    ensures r.0.Some? ==> [r.0.value] + r.1 == queue
  {
    if queue == [] then (None, queue) else (Some(queue[0]), queue[1..])
  }

  /** What the Up key does. */
  datatype Up = Recalled(text: string, queue: seq<string>) | HistoryBackward

  /** The Up key: with an empty input and queued messages, the newest one
      comes back into the input for editing; otherwise input history. */
  function HandleUp(buffer: string, queue: seq<string>): (r: Up)
    ensures r.Recalled? <==> buffer == "" && queue != []
    ensures r.Recalled? ==> r.queue + [r.text] == queue
  {
    if buffer == "" && queue != [] then Recalled(queue[|queue| - 1], queue[..|queue| - 1])
    else HistoryBackward
  }

  /** Sending pops messages in the order they were queued, while Up
      recalls the one queued last. */
  lemma QueueOrder(queue: seq<string>, a: string, b: string)
    ensures var q := QueueMessage(QueueMessage(queue, a), b);
            (queue == [] ==> PopQueued(q) == (Some(a), [b]))
            && HandleUp("", q) == Recalled(b, QueueMessage(queue, a))
  {
  }

  /** Queueing one message and popping from the queue gives back the
      queue's oldest entry, the new message when it was empty. */
  lemma QueueThenPop(queue: seq<string>, m: string)
    ensures var (first, rest) := PopQueued(QueueMessage(queue, m));
            first == Some(if queue == [] then m else queue[0])
            && QueueMessage(queue, m) == [first.value] + rest
  {
  }

  /** The approval modes in Shift-Tab order. */
  const Modes: seq<string> := ["auto", "approve", "manual"]

  /** Shift-Tab: the next mode, wrapping round after the last. */
  function ShiftTab(index: int): (r: int)
    ensures 0 <= r < |Modes|
    ensures 0 <= index < |Modes| - 1 ==> r == index + 1
    ensures index == |Modes| - 1 ==> r == 0
  {
    (index + 1) % |Modes|
  }

  /** Three presses come back to the same mode, through both others. */
  lemma ShiftTabCycle(index: int)
    requires 0 <= index < |Modes|
    ensures ShiftTab(ShiftTab(ShiftTab(index))) == index
    ensures {index, ShiftTab(index), ShiftTab(ShiftTab(index))} == {0, 1, 2}
  {
  }

  /** The cells of one `|a | b|` table row: the text between the outer
      bars, split on the inner bars, each stripped. */
  function RowCells(row: string): (r: seq<string>)
    ensures |r| > 0
  {
    StripEach(Split(PySlice(row, 1, -1), '|'))
  }

  function Max(a: int, b: int): int {
    if a < b then b else a
  }

  /** The number of columns: the most cells in any row. */
  function ColumnCount(rows: seq<seq<string>>): (r: nat)
    ensures forall k :: 0 <= k < |rows| ==> |rows[k]| <= r
    ensures |rows| > 0 ==> exists k :: 0 <= k < |rows| && |rows[k]| == r
  {
    if |rows| == 0 then 0
    else
      var before := ColumnCount(rows[..|rows| - 1]);
      assert forall k :: 0 <= k < |rows| - 1 ==> rows[..|rows| - 1][k] == rows[k];
      Max(before, |rows[|rows| - 1]|)
  }

  /** The room cell `i` of a row asks for: its text and a space each side,
      nothing when the row has no such cell. */
  function CellNeed(row: seq<string>, i: nat): nat {
    if i < |row| then |row[i]| + 2 else 0
  }

  /** The widest need in column `i` over the rows (0 for no rows). */
  function ColumnNeed(rows: seq<seq<string>>, i: nat): nat {
    if |rows| == 0 then 0 else Max(ColumnNeed(rows[..|rows| - 1], i), CellNeed(rows[|rows| - 1], i))
  }

  /** Every cell fits in its column's need, and the need is 0 or some
      cell's. */
  lemma {:induction false} ColumnNeedBounds(rows: seq<seq<string>>, i: nat)
    ensures forall k :: 0 <= k < |rows| ==> CellNeed(rows[k], i) <= ColumnNeed(rows, i)
    ensures ColumnNeed(rows, i) == 0 || exists k :: 0 <= k < |rows| && ColumnNeed(rows, i) == CellNeed(rows[k], i)
    decreases |rows|
  {
    if |rows| > 0 {
      var init := rows[..|rows| - 1];
      ColumnNeedBounds(init, i);
      assert forall k :: 0 <= k < |init| ==> init[k] == rows[k];
      if ColumnNeed(rows, i) != 0 && ColumnNeed(rows, i) != CellNeed(rows[|rows| - 1], i) {
        var k :| 0 <= k < |init| && ColumnNeed(init, i) == CellNeed(init[k], i);
        assert ColumnNeed(rows, i) == CellNeed(rows[k], i);
      }
    }
  }

  const MinColumnWidth: nat := 5

  /** `_render_table`'s column widths, computed as the source does: one
      pass over the rows keeping each column's widest cell plus two, then
      at least 5. Every cell fits its column with a space each side, and
      a column wider than 5 is exactly as wide as its widest cell needs. */
  method ColumnWidths(rows: seq<seq<string>>) returns (widths: seq<nat>)
    ensures |widths| == ColumnCount(rows)
    ensures forall i :: 0 <= i < |widths| ==> widths[i] >= MinColumnWidth
    ensures forall i, k :: 0 <= i < |widths| && 0 <= k < |rows| && i < |rows[k]| ==> |rows[k][i]| + 2 <= widths[i]
    ensures forall i :: 0 <= i < |widths| && widths[i] > MinColumnWidth ==>
              exists k :: 0 <= k < |rows| && i < |rows[k]| && widths[i] == |rows[k][i]| + 2
  {
    var columns := ColumnCount(rows);
    var best: seq<nat> := seq(columns, _ => 0);
    var n := 0;
    while n < |rows|
      invariant n <= |rows| && |best| == columns
      invariant forall i :: 0 <= i < columns ==> best[i] == ColumnNeed(rows[..n], i)
    {
      var row := rows[n];
      assert rows[..n + 1][..n] == rows[..n];
      var i := 0;
      while i < |row|
        invariant i <= |row| <= columns && |best| == columns
        invariant forall j :: 0 <= j < columns ==>
                    best[j] == (if j < i then ColumnNeed(rows[..n + 1], j) else ColumnNeed(rows[..n], j))
      {
        best := best[i := Max(best[i], |row[i]| + 2)];
        i := i + 1;
      }
      n := n + 1;
    }
    assert rows[..|rows|] == rows;
    widths := seq(columns, i requires 0 <= i < columns => Max(best[i], MinColumnWidth));
    forall i | 0 <= i < columns
      ensures forall k :: 0 <= k < |rows| && i < |rows[k]| ==> |rows[k][i]| + 2 <= widths[i]
      ensures widths[i] > MinColumnWidth ==> exists k :: 0 <= k < |rows| && i < |rows[k]| && widths[i] == |rows[k][i]| + 2
    {
      ColumnNeedBounds(rows, i);
      assert forall k :: 0 <= k < |rows| ==> CellNeed(rows[k], i) <= ColumnNeed(rows, i);
      if widths[i] > MinColumnWidth {
        var k :| 0 <= k < |rows| && ColumnNeed(rows, i) == CellNeed(rows[k], i);
        assert i < |rows[k]|;
      }
    }
  }

  /** A header cell is centred and a body cell left-aligned in the column,
      with a space each side. */
  function CellText(cell: string, width: nat, header: bool): (r: string)
    requires |cell| + 2 <= width
    ensures |r| == width
    ensures r[0] == ' ' && r[width - 1] == ' '
    ensures !header ==> r[1..|cell| + 1] == cell
  {
    var padded := if header then Center(cell, width - 2) else LJust(cell, width - 2);
    " " + padded + " "
  }

  /** The lines of a rendered table. */
  datatype TableLine = TopBorder | CellRow(index: nat) | HeaderRule | BottomBorder

  /** The table's lines: nothing for no rows; otherwise the top border,
      every row in order, the rule under the header only when there is a
      row below it, and the bottom border. */
  function TableLines(rows: nat): (r: seq<TableLine>)
    ensures rows == 0 <==> r == []
    ensures rows > 0 ==> r[0] == TopBorder && r[|r| - 1] == BottomBorder && r[1] == CellRow(0)
    ensures |r| == if rows == 0 then 0 else if rows == 1 then 3 else rows + 3
    ensures HeaderRule in r <==> rows > 1
    ensures rows > 1 ==> r[2] == HeaderRule
    ensures forall k :: 0 <= k < rows ==> CellRow(k) in r
    ensures forall line :: line in r && line.CellRow? ==> line.index < rows
  {
    if rows == 0 then []
    else
      var body := seq(rows - 1, k requires 0 <= k < rows - 1 => CellRow(k + 1));
      var r := [TopBorder, CellRow(0)] + (if rows > 1 then [HeaderRule] else []) + body + [BottomBorder];
      assert forall k :: 1 <= k < rows ==> r[k + if rows > 1 then 2 else 1] == CellRow(k);
      r
  }

  const FirstLinePrefix: string := "> "
  const NextLinePrefix: string := ">  "

  /** The raw lines of a user message: `> ` before the first line of the
      text and `>  ` before each following one. */
  function UserLines(text: string): (r: seq<string>)
    ensures |r| == |Split(text, '\n')|
  {
    var lines := Split(text, '\n');
    [FirstLinePrefix + lines[0]]
      + seq(|lines| - 1, k requires 0 <= k < |lines| - 1 => NextLinePrefix + lines[k + 1])
  }

  /** `add_user_message`: a blank line, the message's lines and a blank
      line are added, and the pane jumps back to following the output. */
  function AddUserMessage(p: Pane, text: string): (r: Pane)
    ensures r.autoScroll && r.scrollPosition == 0
    ensures |r.outputLines| == |p.outputLines| + |Split(text, '\n')| + 2
    ensures r.outputLines[..|p.outputLines|] == p.outputLines
    ensures r.outputLines[|p.outputLines|] == "" && r.outputLines[|r.outputLines| - 1] == ""
    ensures r.outputLines[|p.outputLines| + 1..|r.outputLines| - 1] == UserLines(text)
  {
    var added := [""] + UserLines(text) + [""];
    var r := p.(outputLines := p.outputLines + added, autoScroll := true, scrollPosition := 0);
    assert r.outputLines[|p.outputLines| + 1..|r.outputLines| - 1] == UserLines(text);
    r
  }

  /** The text of a user message's raw lines, prefixes taken off. */
  function UnprefixedLines(block: seq<string>): seq<string>
    requires |block| > 0 && |block[0]| >= 2
    requires forall k :: 1 <= k < |block| ==> |block[k]| >= 3
  {
    [block[0][2..]] + seq(|block| - 1, k requires 0 <= k < |block| - 1 => block[k + 1][3..])
  }

  /** The message can be read back from the lines it added: taking the
      prefixes off and joining with newlines gives the text. */
  lemma UserMessageRoundTrip(p: Pane, text: string)
    ensures var out := AddUserMessage(p, text).outputLines;
            var block := out[|p.outputLines| + 1..|out| - 1];
            |block| > 0 && |block[0]| >= 2 && (forall k :: 1 <= k < |block| ==> |block[k]| >= 3)
            && Join(UnprefixedLines(block), "\n") == text
  {
    var block := UserLines(text);
    var lines := Split(text, '\n');
    assert UnprefixedLines(block) == lines;
    JoinSplit(text, '\n');
  }

  /** How many characters of a paste's first line the mask shows. */
  const MaskWidth: nat := 30

  /** The mask for a multi-line paste: up to 30 characters of its first
      line, `...` when that line is longer, and the number of lines after
      the first. */
  function PasteMask(text: string): (r: string)
    requires '\n' in text
    ensures StartsWith(r, "[") && EndsWith(r, " lines]")
  {
    var lines := Split(text, '\n');
    var first := Take(lines[0], MaskWidth) + (if |lines[0]| > MaskWidth then "..." else "");
    "[" + first + " +" + NatToString(|lines| - 1) + " lines]"
  }

  /** The input as the text-change handler leaves it: the stored paste
      and the buffer's text. */
  datatype Input = Input(pasted: Option<string>, buffer: string)

  /** The paste branch of `_on_text_changed`: while a paste is stored
      nothing is touched; a text holding a newline is stored and the
      buffer shows its mask instead; other text stays as typed. */
  function OnTextChanged(input: Input): (r: Input)
    ensures input.pasted.Some? || '\n' !in input.buffer ==> r == input
    ensures input.pasted.None? && '\n' in input.buffer ==>
              r.pasted == Some(input.buffer) && r.buffer == PasteMask(input.buffer)
  {
    if input.pasted.Some? || '\n' !in input.buffer then input
    else Input(Some(input.buffer), PasteMask(input.buffer))
  }

  /** The mask of a multi-line paste is a single line that counts at
      least one more line. */
  lemma MaskIsOneLine(text: string)
    requires '\n' in text
    ensures '\n' !in PasteMask(text)
    ensures |Split(text, '\n')| - 1 >= 1
  {
    var lines := Split(text, '\n');
    SplitPiecesFree(text, '\n');
    SplitPresent(text, '\n');
    assert '\n' !in lines[0];
    assert '\n' !in NatToString(|lines| - 1);
  }

  /** Enter: what `_accept_input` does with the input. */
  datatype Accepted = Accepted(queue: seq<string>, submitted: Option<string>, input: Input)

  /** `_accept_input`: the stored paste, or else the buffer, is queued
      while the agent is busy and submitted otherwise; either way the
      paste is dropped and the buffer reset. */
  function AcceptInput(busy: bool, input: Input, queue: seq<string>): (r: Accepted)
    ensures r.input == Input(None, "")
    ensures busy ==> r.submitted.None? && |r.queue| == |queue| + 1 && r.queue[..|queue|] == queue
    ensures !busy ==> r.queue == queue && r.submitted.Some?
    ensures var text := if input.pasted.Some? then input.pasted.value else input.buffer;
            (busy ==> r.queue[|queue|] == text) && (!busy ==> r.submitted.value == text)
  {
    var text := if input.pasted.Some? then input.pasted.value else input.buffer;
    if busy then Accepted(QueueMessage(queue, text), None, Input(None, ""))
    else Accepted(queue, Some(text), Input(None, ""))
  }

  /** A pasted text, though the buffer shows only its mask, is what Enter
      submits or queues. */
  lemma PasteThenAccept(text: string, busy: bool, queue: seq<string>)
    requires '\n' in text
    ensures var shown := OnTextChanged(Input(None, text));
            shown.buffer != text
            && var done := AcceptInput(busy, shown, queue);
            (busy ==> done.queue == queue + [text]) && (!busy ==> done.submitted == Some(text))
  {
    MaskIsOneLine(text);
  }
}
