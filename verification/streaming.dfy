/**
  Per-chunk progress reporting of `Agent._do_call`: while a response streams in,
  each chunk is either reported as assistant text, reported as tool progress,
  or silently kept. The `"\nassistant: "` prefix is reported once per call,
  just before the first text report.
*/
module Streaming {
  import opened Messages

  const AssistantPrefix: string := "\nassistant: "

  /** The first branch: a progress callback, no `tool_calls`, and content that is not `None`. */
  predicate IsTextChunk(c: Chunk, cbs: Callbacks) {
    cbs.progress && c.toolCalls.None? && c.content.Some?
  }

  /** The `elif` branch: a tool callback and a non-empty `tool_calls` list. */
  predicate IsToolChunk(c: Chunk, cbs: Callbacks) {
    !IsTextChunk(c, cbs) && cbs.toolProgress && c.toolCalls.Some? && |c.toolCalls.value| > 0
  }

  /** Tool progress for a chunk: the function name when the fragment has one, a dot otherwise. */
  function ToolLabel(f: ToolFragment): string {
    if Truthy(f.name) then "\nfunc(" + f.name.value + "): " else "."
  }

  /** The reports for one chunk; `first` says whether no text has been reported yet in this call. */
  function ChunkEvents(c: Chunk, cbs: Callbacks, first: bool): (evs: seq<Event>)
    ensures c.toolCalls.Some? ==> forall i :: 0 <= i < |evs| ==> evs[i].ToolProgress?
    ensures !cbs.progress && !cbs.toolProgress ==> evs == []
    ensures |evs| <= 2
  {
    if IsTextChunk(c, cbs) then
      (if first then [Progress(AssistantPrefix)] else []) + [Progress(c.content.value)]
    else if IsToolChunk(c, cbs) then
      [ToolProgress(ToolLabel(c.toolCalls.value[0]))]
    else
      []
  }

  /**
    A text chunk reports its own content, after the prefix when it is the first
    text of the call; a tool chunk reports its one label.
  */
  lemma ChunkReports(c: Chunk, cbs: Callbacks, first: bool)
    ensures IsTextChunk(c, cbs) ==>
      Texts(ChunkEvents(c, cbs, first)) == (if first then [AssistantPrefix] else []) + [c.content.value]
    ensures IsToolChunk(c, cbs) ==> ToolTexts(ChunkEvents(c, cbs, first)) == [ToolLabel(c.toolCalls.value[0])]
  {
    var evs := ChunkEvents(c, cbs, first);
    if IsTextChunk(c, cbs) && first {
      assert evs[1..] == [Progress(c.content.value)];
      assert evs[1..][1..] == [];
      assert Texts(evs[1..]) == [c.content.value] + Texts(evs[1..][1..]);
      assert Texts(evs) == [AssistantPrefix] + Texts(evs[1..]);
    } else if IsTextChunk(c, cbs) {
      assert evs[1..] == [];
      assert Texts(evs) == [c.content.value] + Texts(evs[1..]);
    } else if IsToolChunk(c, cbs) {
      var tag := ToolLabel(c.toolCalls.value[0]);
      assert evs == [ToolProgress(tag)];
      assert evs[1..] == [];
      assert ToolTexts(evs) == [tag] + ToolTexts(evs[1..]);
    }
  }

  /** Whether some chunk of the stream is reported as text. */
  predicate HasText(cs: seq<Chunk>, cbs: Callbacks)
    decreases |cs|
  {
    |cs| > 0 && (IsTextChunk(cs[0], cbs) || HasText(cs[1..], cbs))
  }

  lemma {:induction false} HasTextAt(cs: seq<Chunk>, cbs: Callbacks)
    ensures HasText(cs, cbs) <==> exists i :: 0 <= i < |cs| && IsTextChunk(cs[i], cbs)
    decreases |cs|
  {
    if |cs| > 0 {
      HasTextAt(cs[1..], cbs);
      if exists i :: 0 <= i < |cs| && IsTextChunk(cs[i], cbs) {
        var i :| 0 <= i < |cs| && IsTextChunk(cs[i], cbs);
        if i > 0 { assert cs[1..][i - 1] == cs[i]; }
      }
      if HasText(cs[1..], cbs) {
        var i :| 0 <= i < |cs[1..]| && IsTextChunk(cs[1..][i], cbs);
        assert cs[i + 1] == cs[1..][i];
      }
    }
  }

  /** The reports for a whole stream, in arrival order. */
  function StreamEvents(cs: seq<Chunk>, cbs: Callbacks, first: bool): seq<Event>
    decreases |cs|
  {
    if |cs| == 0 then []
    else ChunkEvents(cs[0], cbs, first) + StreamEvents(cs[1..], cbs, first && !IsTextChunk(cs[0], cbs))
  }

  /** The texts given to `progress_callback`. */
  function Texts(evs: seq<Event>): seq<string> {
    if |evs| == 0 then []
    else (if evs[0].Progress? then [evs[0].text] else []) + Texts(evs[1..])
  }

  /** The texts given to `progress_tool_callback`. */
  function ToolTexts(evs: seq<Event>): seq<string> {
    if |evs| == 0 then []
    else (if evs[0].ToolProgress? then [evs[0].text] else []) + ToolTexts(evs[1..])
  }

  /** The messages given to `finished_callback`. */
  function FinishedMessages(evs: seq<Event>): seq<Message> {
    if |evs| == 0 then []
    else (if evs[0].Finished? then [evs[0].message] else []) + FinishedMessages(evs[1..])
  }

  /** The contents of the text chunks, in arrival order: the reference for text reports. */
  function TextContents(cs: seq<Chunk>, cbs: Callbacks): seq<string> {
    if |cs| == 0 then []
    else (if IsTextChunk(cs[0], cbs) then [cs[0].content.value] else []) + TextContents(cs[1..], cbs)
  }

  /** The labels of the tool chunks, in arrival order: the reference for tool reports. */
  function ToolLabels(cs: seq<Chunk>, cbs: Callbacks): seq<string> {
    if |cs| == 0 then []
    else (if IsToolChunk(cs[0], cbs) then [ToolLabel(cs[0].toolCalls.value[0])] else []) + ToolLabels(cs[1..], cbs)
  }

  lemma {:induction false} TextsOfConcat(a: seq<Event>, b: seq<Event>)
    ensures Texts(a + b) == Texts(a) + Texts(b)
    decreases |a|
  {
    if |a| > 0 {
      TextsOfConcat(a[1..], b);
      assert (a + b)[0] == a[0] && (a + b)[1..] == a[1..] + b;
    } else {
      assert a + b == b;
    }
  }

  lemma {:induction false} ToolTextsOfConcat(a: seq<Event>, b: seq<Event>)
    ensures ToolTexts(a + b) == ToolTexts(a) + ToolTexts(b)
    decreases |a|
  {
    if |a| > 0 {
      ToolTextsOfConcat(a[1..], b);
      assert (a + b)[0] == a[0] && (a + b)[1..] == a[1..] + b;
    } else {
      assert a + b == b;
    }
  }

  lemma {:induction false} FinishedOfConcat(a: seq<Event>, b: seq<Event>)
    ensures FinishedMessages(a + b) == FinishedMessages(a) + FinishedMessages(b)
    decreases |a|
  {
    if |a| > 0 {
      FinishedOfConcat(a[1..], b);
      assert (a + b)[0] == a[0] && (a + b)[1..] == a[1..] + b;
    } else {
      assert a + b == b;
    }
  }

  /**
    Every text chunk is reported verbatim and in order; the prefix precedes them
    when this is the first text of the call and the stream has any text at all.
  */
  lemma {:induction false} TextReportsInOrder(cs: seq<Chunk>, cbs: Callbacks, first: bool)
    ensures Texts(StreamEvents(cs, cbs, first))
         == (if first && HasText(cs, cbs) then [AssistantPrefix] else []) + TextContents(cs, cbs)
    decreases |cs|
  {
    if |cs| > 0 {
      var first' := first && !IsTextChunk(cs[0], cbs);
      TextReportsInOrder(cs[1..], cbs, first');
      TextsOfConcat(ChunkEvents(cs[0], cbs, first), StreamEvents(cs[1..], cbs, first'));
    }
  }

  /** Tool chunks report one label each, in order, whatever the text state. */
  lemma {:induction false} ToolReportsInOrder(cs: seq<Chunk>, cbs: Callbacks, first: bool)
    ensures ToolTexts(StreamEvents(cs, cbs, first)) == ToolLabels(cs, cbs)
    decreases |cs|
  {
    if |cs| > 0 {
      var first' := first && !IsTextChunk(cs[0], cbs);
      ToolReportsInOrder(cs[1..], cbs, first');
      ToolTextsOfConcat(ChunkEvents(cs[0], cbs, first), StreamEvents(cs[1..], cbs, first'));
    }
  }

  /** A stream without text chunks reports no prefix and no text: the `first` flag never matters. */
  lemma {:induction false} NoTextNoPrefix(cs: seq<Chunk>, cbs: Callbacks)
    requires !HasText(cs, cbs)
    ensures StreamEvents(cs, cbs, true) == StreamEvents(cs, cbs, false)
    ensures Texts(StreamEvents(cs, cbs, true)) == []
    decreases |cs|
  {
    if |cs| > 0 {
      NoTextNoPrefix(cs[1..], cbs);
      TextsOfConcat(ChunkEvents(cs[0], cbs, true), StreamEvents(cs[1..], cbs, true));
    }
  }

  /** Reporting a stream in two pieces: the second piece starts with the text state the first one left. */
  lemma {:induction false} StreamEventsAppend(a: seq<Chunk>, b: seq<Chunk>, cbs: Callbacks, first: bool)
    ensures StreamEvents(a + b, cbs, first)
         == StreamEvents(a, cbs, first) + StreamEvents(b, cbs, first && !HasText(a, cbs))
    ensures HasText(a + b, cbs) == (HasText(a, cbs) || HasText(b, cbs))
    decreases |a|
  {
    if |a| == 0 {
      assert a + b == b;
    } else {
      var first' := first && !IsTextChunk(a[0], cbs);
      assert (a + b)[0] == a[0] && (a + b)[1..] == a[1..] + b;
      StreamEventsAppend(a[1..], b, cbs, first');
    }
  }

  /**
    The prefix is reported exactly once, immediately before the report of the
    first text chunk `k`; the chunks before it report tool progress only.
  */
  lemma PrefixBeforeFirstText(cs: seq<Chunk>, cbs: Callbacks, k: nat)
    requires k < |cs| && IsTextChunk(cs[k], cbs)
    requires forall j :: 0 <= j < k ==> !IsTextChunk(cs[j], cbs)
    ensures StreamEvents(cs, cbs, true)
         == StreamEvents(cs[..k], cbs, false)
          + [Progress(AssistantPrefix), Progress(cs[k].content.value)]
          + StreamEvents(cs[k + 1..], cbs, false)
    ensures Texts(StreamEvents(cs[..k], cbs, false)) == []
  {
    assert !HasText(cs[..k], cbs) by {
      HasTextAt(cs[..k], cbs);
    }
    assert cs == cs[..k] + cs[k..];
    assert cs[k..][1..] == cs[k + 1..];
    SilenceThenText(cs[..k], cs[k..], cbs);
  }

  /** Silent chunks followed by a text chunk: the prefix comes right before that chunk's text. */
  lemma SilenceThenText(before: seq<Chunk>, rest: seq<Chunk>, cbs: Callbacks)
    requires !HasText(before, cbs)
    requires |rest| > 0 && IsTextChunk(rest[0], cbs)
    ensures StreamEvents(before + rest, cbs, true)
         == StreamEvents(before, cbs, false)
          + [Progress(AssistantPrefix), Progress(rest[0].content.value)]
          + StreamEvents(rest[1..], cbs, false)
    ensures Texts(StreamEvents(before, cbs, false)) == []
  {
    NoTextNoPrefix(before, cbs);
    StreamEventsAppend(before, rest, cbs, true);
    FirstTextOpens(rest, cbs);
    var opening := [Progress(AssistantPrefix), Progress(rest[0].content.value)];
    var after := StreamEvents(rest[1..], cbs, false);
    assert StreamEvents(before + rest, cbs, true) == StreamEvents(before, cbs, false) + (opening + after);
  }

  /** A stream that opens with a text chunk reports the prefix, then that chunk's text. */
  lemma FirstTextOpens(cs: seq<Chunk>, cbs: Callbacks)
    requires |cs| > 0 && IsTextChunk(cs[0], cbs)
    ensures StreamEvents(cs, cbs, true)
         == [Progress(AssistantPrefix), Progress(cs[0].content.value)] + StreamEvents(cs[1..], cbs, false)
  {
  }

  /**
    The loop over the stream as the source writes it: a local `first` flag,
    one report decision per chunk, and every chunk kept for reassembly.
  */
  method ReportChunks(chunks: seq<Chunk>, cbs: Callbacks) returns (events: seq<Event>, kept: seq<Chunk>)
    ensures events == StreamEvents(chunks, cbs, true)
    ensures kept == chunks
  {
    events := [];
    kept := [];
    var first := true;
    for i := 0 to |chunks|
      invariant events == StreamEvents(chunks[..i], cbs, true)
      invariant first == !HasText(chunks[..i], cbs)
      invariant kept == chunks[..i]
    {
      var c := chunks[i];
      ghost var before, wasFirst := events, first;
      if cbs.progress && c.toolCalls.None? && c.content.Some? {
        if first {
          events := events + [Progress(AssistantPrefix)];
          first := false;
        }
        events := events + [Progress(c.content.value)];
      } else if cbs.toolProgress && c.toolCalls.Some? && |c.toolCalls.value| > 0 {
        events := events + [ToolProgress(ToolLabel(c.toolCalls.value[0]))];
      }
      assert events == before + ChunkEvents(c, cbs, wasFirst);
      StreamEventsAppend(chunks[..i], [c], cbs, true);
      assert [c][1..] == [];
      assert chunks[..i + 1] == chunks[..i] + [c];
      kept := kept + [c];
    }
    assert chunks[..|chunks|] == chunks;
  }

  /** Streaming never reports a finished message: those belong to the end of a tool round. */
  lemma {:induction false} StreamHasNoFinished(cs: seq<Chunk>, cbs: Callbacks, first: bool)
    ensures FinishedMessages(StreamEvents(cs, cbs, first)) == []
    decreases |cs|
  {
    if |cs| > 0 {
      var evs := ChunkEvents(cs[0], cbs, first);
      var first' := first && !IsTextChunk(cs[0], cbs);
      StreamHasNoFinished(cs[1..], cbs, first');
      FinishedOfConcat(evs, StreamEvents(cs[1..], cbs, first'));
      if |evs| > 0 { assert evs[1..] == [] || evs[1..] == [evs[1]]; }
    }
  }
}
