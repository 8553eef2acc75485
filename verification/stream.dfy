/** `chat_stream`: Server-Sent Events framing (HTML Living Standard, section
    9.2, as far as the "data: " prefix goes), the per-index fold of streamed
    tool-call deltas, and the retry loop. Decoding a JSON payload is a
    parameter, and each connection attempt is an oracle: the lines it
    delivers and how it ended. */
module Stream {
  import opened Wrappers
  import opened Text
  import opened Json
  import opened Wire

  /** One entry of `delta["tool_calls"]`; "" stands for a missing or falsy
      id, name or argument fragment. */
  datatype ToolDelta = ToolDelta(index: int, id: string, name: string, arguments: string)

  /** A decoded `data:` payload: its content fragment ("" when absent) and
      its tool-call deltas. */
  datatype Chunk = Chunk(content: string, toolDeltas: seq<ToolDelta>)

  datatype LineKind = Ignored | Done | Payload(data: string)

  /** How one line of the event stream is treated. */
  function Classify(line: string): (k: LineKind)
    ensures !StartsWith(line, "data: ") ==> k == Ignored
    ensures StartsWith(line, "data: ") && line[6..] == "[DONE]" ==> k == Done
    ensures StartsWith(line, "data: ") && line[6..] != "[DONE]" ==> k == Payload(line[6..])
  {
    if !StartsWith(line, "data: ") then Ignored
    else if line[6..] == "[DONE]" then Done
    else Payload(line[6..])
  }

  /** The decoded chunks of a stream, up to the first "[DONE]"; ignored lines
      and undecodable payloads contribute nothing. */
  function Chunks(lines: seq<string>, decode: string -> Option<Chunk>): seq<Chunk> {
    if |lines| == 0 then []
    else match Classify(lines[0])
      case Ignored => Chunks(lines[1..], decode)
      case Done => []
      case Payload(p) =>
        match decode(p)
        case None => Chunks(lines[1..], decode)
        case Some(c) => [c] + Chunks(lines[1..], decode)
  }

  predicate NoDone(lines: seq<string>) {
    forall i :: 0 <= i < |lines| ==> Classify(lines[i]) != Done
  }

  /** Before any "[DONE]", the stream is processed line by line: the chunks
      of a concatenation are the concatenated chunks. */
  lemma {:induction false} ChunksAppend(a: seq<string>, b: seq<string>, decode: string -> Option<Chunk>)
    requires NoDone(a)
    ensures Chunks(a + b, decode) == Chunks(a, decode) + Chunks(b, decode)
    decreases |a|
  {
    if |a| > 0 {
      assert (a + b)[1..] == a[1..] + b;
      assert (a + b)[0] == a[0];
      assert Classify(a[0]) != Done;
      ChunksAppend(a[1..], b, decode);
      match Classify(a[0])
      case Ignored =>
      case Payload(p) =>
        match decode(p)
        case None =>
        case Some(c) =>
          assert Chunks(a + b, decode) == [c] + Chunks(a[1..] + b, decode);
    } else {
      assert a + b == b;
    }
  }

  /** A line without the "data: " prefix, or one whose payload does not
      decode, can be removed without effect. */
  lemma IgnorableLine(a: seq<string>, line: string, b: seq<string>, decode: string -> Option<Chunk>)
    requires NoDone(a)
    requires !StartsWith(line, "data: ") || (line[6..] != "[DONE]" && decode(line[6..]).None?)
    ensures Chunks(a + [line] + b, decode) == Chunks(a + b, decode)
  {
    assert NoDone(a + [line]) by {
      assert Classify(line) != Done;
    }
    ChunksAppend(a + [line], b, decode);
    ChunksAppend(a, [line], decode);
    ChunksAppend(a, b, decode);
    assert Chunks([line], decode) == [];
  }

  /** Everything after "[DONE]" is unread. */
  lemma DoneStops(a: seq<string>, b: seq<string>, decode: string -> Option<Chunk>)
    requires NoDone(a)
    ensures Chunks(a + ["data: [DONE]"] + b, decode) == Chunks(a, decode)
  {
    var done := "data: [DONE]";
    assert StartsWith(done, "data: ") && done[6..] == "[DONE]";
    ChunksAppend(a, [done] + b, decode);
    assert a + [done] + b == a + ([done] + b);
    assert Chunks(a, decode) + [] == Chunks(a, decode);
  }

  /** The `on_content` calls: each non-empty content fragment, in order. */
  function Fragments(cs: seq<Chunk>): (r: seq<string>)
    ensures forall i :: 0 <= i < |r| ==> r[i] != ""
  {
    if |cs| == 0 then []
    else (if cs[0].content != "" then [cs[0].content] else []) + Fragments(cs[1..])
  }

  function Concat(xs: seq<string>): string {
    if |xs| == 0 then "" else xs[0] + Concat(xs[1..])
  }

  /** The deltas of all chunks, in arrival order. */
  function AllDeltas(cs: seq<Chunk>): seq<ToolDelta> {
    if |cs| == 0 then [] else cs[0].toolDeltas + AllDeltas(cs[1..])
  }

  // ---- per-index accumulation ----

  /** An entry of `tool_calls_data`. */
  datatype Partial = Partial(id: string, name: string, arguments: string)

  /** `tool_calls_data`, kept sorted by index so that assembly order is
      simply list order. */
  type Acc = seq<(int, Partial)>

  predicate Sorted(a: Acc) {
    forall i, j :: 0 <= i < j < |a| ==> a[i].0 < a[j].0
  }

  function Lookup(a: Acc, k: int): Option<Partial> {
    if |a| == 0 then None else if a[0].0 == k then Some(a[0].1) else Lookup(a[1..], k)
  }

  function Indices(a: Acc): set<int> {
    set i | 0 <= i < |a| :: a[i].0
  }

  lemma LookupSome(a: Acc, k: int)
    ensures Lookup(a, k).Some? <==> k in Indices(a)
  {
    if |a| > 0 {
      LookupSome(a[1..], k);
      assert Indices(a) == {a[0].0} + Indices(a[1..]) by {
        forall x | x in Indices(a)
          ensures x in {a[0].0} + Indices(a[1..])
        {
          var i :| 0 <= i < |a| && a[i].0 == x;
          if i > 0 {
            assert a[1..][i - 1].0 == x;
          }
        }
        forall x | x in Indices(a[1..])
          ensures x in Indices(a)
        {
          var i :| 0 <= i < |a[1..]| && a[1..][i].0 == x;
          assert a[i + 1].0 == x;
        }
      }
    }
  }

  /** `tool_calls_data[k] = p`, inserting at the sorted position. */
  function Upsert(a: Acc, k: int, p: Partial): (r: Acc)
    requires Sorted(a)
    ensures Sorted(r)
    ensures Lookup(r, k) == Some(p)
    ensures forall k' :: k' != k ==> Lookup(r, k') == Lookup(a, k')
    ensures |r| == if Lookup(a, k).Some? then |a| else |a| + 1
    ensures |r| > 0 && (r[0].0 == k || (|a| > 0 && r[0].0 == a[0].0))
  {
    if |a| == 0 then [(k, p)]
    else if a[0].0 == k then [(k, p)] + a[1..]
    else if k < a[0].0 then
      assert forall k' :: k' < a[0].0 ==> Lookup(a, k').None? by {
        forall k' | k' < a[0].0
          ensures Lookup(a, k').None?
        {
          SortedBelowHead(a, k');
        }
      }
      [(k, p)] + a
    else
      var rest := Upsert(a[1..], k, p);
      [a[0]] + rest
  }

  lemma SortedBelowHead(a: Acc, k: int)
    requires Sorted(a) && |a| > 0 && k < a[0].0
    ensures Lookup(a, k).None?
  {
    if |a| > 1 {
      SortedBelowHead(a[1..], k);
    }
  }

  /** One delta merged into the accumulator: a new index starts empty, a
      non-empty id or name overwrites, an argument fragment is appended. */
  function MergeDelta(a: Acc, d: ToolDelta): (r: Acc)
    requires Sorted(a)
    ensures Sorted(r)
  {
    var base := Lookup(a, d.index).GetOr(Partial("", "", ""));
    Upsert(a, d.index, Partial(if d.id != "" then d.id else base.id,
                               if d.name != "" then d.name else base.name,
                               base.arguments + d.arguments))
  }

  /** The fold over every delta, in arrival order. */
  function MergeAll(ds: seq<ToolDelta>): (r: Acc)
    ensures Sorted(r)
  {
    if |ds| == 0 then [] else MergeDelta(MergeAll(ds[..|ds| - 1]), ds[|ds| - 1])
  }

  // ---- reference definition of the fold ----

  /** The deltas for index `k`, in arrival order. */
  function ForIndex(ds: seq<ToolDelta>, k: int): seq<ToolDelta> {
    if |ds| == 0 then []
    else ForIndex(ds[..|ds| - 1], k) + (if ds[|ds| - 1].index == k then [ds[|ds| - 1]] else [])
  }

  /** The last non-empty id among `ds` ("" when none). */
  function LastId(ds: seq<ToolDelta>): string {
    if |ds| == 0 then "" else if ds[|ds| - 1].id != "" then ds[|ds| - 1].id else LastId(ds[..|ds| - 1])
  }

  function LastName(ds: seq<ToolDelta>): string {
    if |ds| == 0 then "" else if ds[|ds| - 1].name != "" then ds[|ds| - 1].name else LastName(ds[..|ds| - 1])
  }

  function AllArguments(ds: seq<ToolDelta>): string {
    if |ds| == 0 then "" else AllArguments(ds[..|ds| - 1]) + ds[|ds| - 1].arguments
  }

  /** The fold agrees with the per-index description: an index has an entry
      exactly when some delta names it; its id and name are the last
      non-empty ones sent, and its arguments are all fragments in arrival
      order. */
  lemma {:induction false} MergeAllSpec(ds: seq<ToolDelta>, k: int)
    ensures Lookup(MergeAll(ds), k).Some? <==> |ForIndex(ds, k)| > 0
    ensures Lookup(MergeAll(ds), k).Some? ==>
              var f := ForIndex(ds, k);
              Lookup(MergeAll(ds), k).value == Partial(LastId(f), LastName(f), AllArguments(f))
    decreases |ds|
  {
    if |ds| > 0 {
      var init := ds[..|ds| - 1];
      var d := ds[|ds| - 1];
      MergeAllSpec(init, k);
      var f0 := ForIndex(init, k);
      assert ds[..|ds| - 1] == init;
      if d.index == k {
        var f := ForIndex(ds, k);
        assert f == f0 + [d];
        assert f[..|f| - 1] == f0 && f[|f| - 1] == d;
        assert LastId(f) == if d.id != "" then d.id else LastId(f0);
        assert LastName(f) == if d.name != "" then d.name else LastName(f0);
        assert AllArguments(f) == AllArguments(f0) + d.arguments;
      } else {
        assert ForIndex(ds, k) == f0;
      }
    }
  }

  /** The assembled tool calls: one per index, in ascending index order;
      empty arguments become `{}`, and so do undecodable ones. */
  function Assemble(a: Acc, parseArgs: string -> Option<Json>): (r: seq<ToolCall>)
    ensures |r| == |a|
    ensures forall i :: 0 <= i < |a| ==> r[i].id == a[i].1.id && r[i].name == a[i].1.name
    ensures forall i :: 0 <= i < |a| ==>
              r[i].arguments == if a[i].1.arguments == "" then EmptyObj() else parseArgs(a[i].1.arguments).GetOr(EmptyObj())
  {
    seq(|a|, i requires 0 <= i < |a| =>
      ToolCall(a[i].1.id, a[i].1.name,
               if a[i].1.arguments == "" then EmptyObj() else parseArgs(a[i].1.arguments).GetOr(EmptyObj())))
  }

  /** The reply built from one complete attempt. */
  function Reply(cs: seq<Chunk>, parseArgs: string -> Option<Json>): (m: Message)
    ensures m.role == Assistant && m.toolCallId.None? && m.name.None?
    ensures m.content.None? <==> Concat(Fragments(cs)) == ""
    ensures m.toolCalls.None? <==> |AllDeltas(cs)| == 0
  {
    var content := Concat(Fragments(cs));
    var acc := MergeAll(AllDeltas(cs));
    MergeAllNonEmpty(AllDeltas(cs));
    Message(Assistant, if content == "" then None else Some(content),
            if |acc| == 0 then None else Some(Assemble(acc, parseArgs)), None, None)
  }

  lemma MergeAllNonEmpty(ds: seq<ToolDelta>)
    ensures |MergeAll(ds)| == 0 <==> |ds| == 0
  {
  }

  // ---- retries ----

  /** How a connection attempt ended. `Completed`: the stream ended or sent
      "[DONE]". `Dropped`: RemoteProtocolError, ReadError or ConnectError,
      the three exceptions the loop retries. `Escaped`: any other exception,
      which leaves `chat_stream` at once. Examples are the HTTP status error
      of `raise_for_status` on a 4xx or 5xx answer, an IndexError on an empty
      "choices" list, and a KeyError on a tool-call delta without "index". */
  datatype AttemptEnd = Completed | Dropped(error: string) | Escaped(error: string)

  /** One connection attempt: the lines received before it ended, and how it
      ended. */
  datatype Attempt = Attempt(lines: seq<string>, end: AttemptEnd)

  datatype StreamOutcome =
    | Replied(message: Message)
    | Raised(error: string)
    | NoAttempt

  /** The result of `chat_stream` and every `on_content` call made on the
      way, across all attempts. */
  datatype StreamRun = StreamRun(outcome: StreamOutcome, onContent: seq<string>, attemptsMade: nat)

  function InterruptedSuffix(): string {
    "\n\n[Response interrupted - connection error]"
  }

  function RunFrom(attempt: nat -> Attempt, n: nat, maxRetries: int, decode: string -> Option<Chunk>,
                   parseArgs: string -> Option<Json>): (r: StreamRun)
    decreases if maxRetries + 1 > n then maxRetries + 1 - n else 0
    ensures n > maxRetries ==> r == StreamRun(NoAttempt, [], 0)
    ensures n <= maxRetries ==> 1 <= r.attemptsMade <= maxRetries + 1 - n && !r.outcome.NoAttempt?
    ensures r.attemptsMade > 1 ==> attempt(n).end.Dropped?
  {
    if n > maxRetries then StreamRun(NoAttempt, [], 0)
    else
      var at := attempt(n);
      var cs := Chunks(at.lines, decode);
      var shown := Fragments(cs);
      match at.end
      case Completed => StreamRun(Replied(Reply(cs, parseArgs)), shown, 1)
      case Escaped(e) => StreamRun(Raised(e), shown, 1)
      case Dropped(e) =>
        if n < maxRetries then
          var rest := RunFrom(attempt, n + 1, maxRetries, decode, parseArgs);
          StreamRun(rest.outcome, shown + rest.onContent, rest.attemptsMade + 1)
        else
          var content := Concat(shown);
          if content != "" then
            StreamRun(Replied(Message(Assistant, Some(content + InterruptedSuffix()), None, None, None)), shown, 1)
          else
            StreamRun(Raised(FailedAfter(maxRetries) + e), shown, 1)
  }

  /** The start of the RuntimeError raised when the last attempt drops with
      nothing shown. */
  function FailedAfter(maxRetries: int): string {
    "API connection failed after " + IntToString(maxRetries + 1) + " attempts: "
  }

  /** `chat_stream(..., max_retries)`. */
  function ChatStream(attempt: nat -> Attempt, maxRetries: int, decode: string -> Option<Chunk>,
                      parseArgs: string -> Option<Json>): (r: StreamRun)
    ensures r.attemptsMade <= if maxRetries < 0 then 0 else maxRetries + 1
    ensures maxRetries < 0 <==> r.outcome.NoAttempt?
  {
    RunFrom(attempt, 0, maxRetries, decode, parseArgs)
  }

  /** Only attempts 0..max_retries are ever made: two connections that agree
      on those give the same run. */
  lemma {:induction false} AttemptsBounded(a1: nat -> Attempt, a2: nat -> Attempt, n: nat, maxRetries: int,
                                           decode: string -> Option<Chunk>, parseArgs: string -> Option<Json>)
    requires forall i: nat :: n <= i <= maxRetries ==> a1(i) == a2(i)
    ensures RunFrom(a1, n, maxRetries, decode, parseArgs) == RunFrom(a2, n, maxRetries, decode, parseArgs)
    decreases if maxRetries + 1 > n then maxRetries + 1 - n else 0
  {
    if n <= maxRetries {
      assert a1(n) == a2(n);
      if n < maxRetries {
        AttemptsBounded(a1, a2, n + 1, maxRetries, decode, parseArgs);
      }
    }
  }

  /** Only a dropped connection is retried. When attempts `n` to `k - 1`
      drop and attempt `k` escapes, the run ends there with that attempt's
      own exception, and no later attempt is made. With `k` = 0 this is a
      first answer of HTTP 429 while `max_retries` is 3: one attempt, and the
      status error raised. */
  lemma {:induction false} EscapeEndsRun(attempt: nat -> Attempt, n: nat, k: nat, maxRetries: int,
                                         decode: string -> Option<Chunk>, parseArgs: string -> Option<Json>)
    requires n <= k <= maxRetries
    requires forall i: nat :: n <= i < k ==> attempt(i).end.Dropped?
    requires attempt(k).end.Escaped?
    ensures var r := RunFrom(attempt, n, maxRetries, decode, parseArgs);
            r.outcome == Raised(attempt(k).end.error) && r.attemptsMade == k - n + 1
    decreases k - n
  {
    if n < k {
      assert attempt(n).end.Dropped?;
      EscapeEndsRun(attempt, n + 1, k, maxRetries, decode, parseArgs);
    }
  }

  /** A first attempt that completes is the answer; later attempts are never
      made. */
  lemma FirstSuccess(attempt: nat -> Attempt, maxRetries: int, decode: string -> Option<Chunk>,
                     parseArgs: string -> Option<Json>)
    requires maxRetries >= 0 && attempt(0).end.Completed?
    ensures ChatStream(attempt, maxRetries, decode, parseArgs) ==
              var cs := Chunks(attempt(0).lines, decode);
              StreamRun(Replied(Reply(cs, parseArgs)), Fragments(cs), 1)
  {
  }

  /** When the final attempt drops, partial content is returned marked as
      interrupted and without tool calls; with no content it is an error. */
  lemma FinalDrop(attempt: nat -> Attempt, maxRetries: int, decode: string -> Option<Chunk>,
                  parseArgs: string -> Option<Json>)
    requires maxRetries >= 0 && attempt(maxRetries).end.Dropped?
    ensures var r := RunFrom(attempt, maxRetries, maxRetries, decode, parseArgs);
            var content := Concat(Fragments(Chunks(attempt(maxRetries).lines, decode)));
            (content != "" ==> r.outcome == Replied(Message(Assistant, Some(content + InterruptedSuffix()), None, None, None)))
            && (content == "" ==> r.outcome == Raised(FailedAfter(maxRetries) + attempt(maxRetries).end.error))
  {
  }

  /** The streamed content is exactly the concatenation of what was shown
      through `on_content`, as in "Hel" + "lo". */
  lemma ContentIsShownFragments(cs: seq<Chunk>, parseArgs: string -> Option<Json>)
    requires Concat(Fragments(cs)) != ""
    ensures Reply(cs, parseArgs).content == Some(Concat(Fragments(cs)))
  {
  }
}
