/**
  The turn orchestrator `Agent._do_call` and its entry point `Agent.answer`.
  The provider is a script: each completion call consumes the next `Response`,
  which carries the streamed chunks, the message that reassembling them gives,
  and the call's cost. The session (message log, file system, working
  directory) is threaded through explicitly instead of living in `self`.
*/
module Agent {
  import opened Base
  import opened Paths
  import opened Messages
  import opened Streaming
  import opened Tools

  /** One completion call as the provider answers it. */
  datatype Response = Response(chunks: seq<Chunk>, text: Option<string>, toolCalls: seq<ToolCall>, cost: nat)

  /** `final.choices[0].message`: the finalised assistant message of a response. */
  function Final(r: Response): Message {
    Assistant(r.text, r.toolCalls)
  }

  datatype Session = Session(log: seq<Message>, fs: FileSystem, cwd: Path)

  /** The source's `Result`: the assistant messages of the chain and their total cost. */
  datatype TurnResult = TurnResult(messages: seq<Message>, cost: nat)

  /** A turn ends with a result or an exception; the session and the reports stand either way. */
  datatype Outcome = Outcome(session: Session, events: seq<Event>, result: Result<TurnResult, Error>)

  /** After a tool round: how many calls completed, and the exception that stopped it, if any. */
  datatype ToolsOutcome = ToolsOutcome(session: Session, completed: nat, failure: Option<Error>)

  /** The message appended for a completed tool call. */
  function ToolMessage(c: ToolCall): Message {
    Tool(c.id, c.name, Written)
  }

  function ToolMessages(calls: seq<ToolCall>): (ms: seq<Message>)
    ensures |ms| == |calls|
    ensures forall i :: 0 <= i < |calls| ==> ms[i] == ToolMessage(calls[i])
  {
    if |calls| == 0 then [] else [ToolMessage(calls[0])] + ToolMessages(calls[1..])
  }

  lemma ToolMessagesCons(calls: seq<ToolCall>, k: nat)
    requires k < |calls|
    ensures ToolMessages(calls[..k + 1]) == [ToolMessage(calls[0])] + ToolMessages(calls[1..][..k])
  {
    assert calls[..k + 1][1..] == calls[1..][..k];
  }

  /**
    Runs the tool calls strictly in order, appending one tool message per
    completed call; the first exception stops the round.
  */
  function RunTools(s: Session, calls: seq<ToolCall>): (o: ToolsOutcome)
    ensures o.completed <= |calls|
    ensures o.failure.None? <==> o.completed == |calls|
    ensures o.session.cwd == s.cwd
    decreases |calls|
  {
    if |calls| == 0 then ToolsOutcome(s, 0, None)
    else
      var e := Dispatch(s.cwd, s.fs, calls[0]);
      match e.result
      case Failure(err) => ToolsOutcome(s.(fs := e.fs), 0, Some(err))
      case Success(out) =>
        var rest := RunTools(s.(fs := e.fs, log := s.log + [Tool(calls[0].id, calls[0].name, out)]), calls[1..]);
        ToolsOutcome(rest.session, 1 + rest.completed, rest.failure)
  }

  /** A tool round appends one tool message per completed call, in call order. */
  lemma {:induction false} RunToolsLog(s: Session, calls: seq<ToolCall>)
    ensures var o := RunTools(s, calls);
      o.session.log == s.log + ToolMessages(calls[..o.completed])
    decreases |calls|
  {
    if |calls| > 0 {
      var e := Dispatch(s.cwd, s.fs, calls[0]);
      if e.result.Success? {
        var s' := s.(fs := e.fs, log := s.log + [ToolMessage(calls[0])]);
        var rest := RunTools(s', calls[1..]);
        RunToolsLog(s', calls[1..]);
        ToolMessagesCons(calls, rest.completed);
      }
    }
  }

  /**
    The file system after the first `i` calls of a round have run, each on the
    effect of the one before: the reference the round's effects are stated against.
  */
  function RoundFs(cwd: Path, fs: FileSystem, calls: seq<ToolCall>, i: nat): FileSystem
    requires i <= |calls|
    decreases i
  {
    if i == 0 then fs else RoundFs(cwd, Dispatch(cwd, fs, calls[0]).fs, calls[1..], i - 1)
  }

  /**
    A round stops at its first raising call: every call before it returned,
    the round's error is that call's exception and the file system is what that
    call left; a round without a raising call leaves the effect of all calls.
  */
  lemma {:induction false} RunToolsEffects(s: Session, calls: seq<ToolCall>)
    ensures var o := RunTools(s, calls);
      && (forall i :: 0 <= i < o.completed ==>
            Dispatch(s.cwd, RoundFs(s.cwd, s.fs, calls, i), calls[i]).result.Success?)
      && (o.completed < |calls| ==>
            var e := Dispatch(s.cwd, RoundFs(s.cwd, s.fs, calls, o.completed), calls[o.completed]);
            e.result.Failure? && o.failure == Some(e.result.error) && o.session.fs == e.fs)
      && (o.completed == |calls| ==> o.session.fs == RoundFs(s.cwd, s.fs, calls, |calls|))
    decreases |calls|
  {
    if |calls| > 0 {
      var e := Dispatch(s.cwd, s.fs, calls[0]);
      if e.result.Success? {
        var s' := s.(fs := e.fs, log := s.log + [Tool(calls[0].id, calls[0].name, e.result.value)]);
        var rest := RunTools(s', calls[1..]);
        RunToolsEffects(s', calls[1..]);
        forall i | 0 < i <= |calls| ensures RoundFs(s.cwd, s.fs, calls, i) == RoundFs(s.cwd, e.fs, calls[1..], i - 1) {
        }
        forall i | 0 < i < 1 + rest.completed
          ensures Dispatch(s.cwd, RoundFs(s.cwd, s.fs, calls, i), calls[i]).result.Success?
        {
          assert calls[i] == calls[1..][i - 1];
        }
        if rest.completed < |calls[1..]| {
          var k := 1 + rest.completed;
          assert calls[k] == calls[1..][rest.completed];
          assert RoundFs(s.cwd, s.fs, calls, k) == RoundFs(s.cwd, e.fs, calls[1..], rest.completed);
          var failing := Dispatch(s.cwd, RoundFs(s.cwd, e.fs, calls[1..], rest.completed), calls[1..][rest.completed]);
          assert Dispatch(s.cwd, RoundFs(s.cwd, s.fs, calls, k), calls[k]) == failing;
        }
      }
    }
  }

  /** Once the calls before it have returned, a raising call ends the round with its own error and effect. */
  lemma FirstFailureStops(s: Session, calls: seq<ToolCall>, k: nat)
    requires k < |calls|
    requires forall i :: 0 <= i < k ==> Dispatch(s.cwd, RoundFs(s.cwd, s.fs, calls, i), calls[i]).result.Success?
    requires Dispatch(s.cwd, RoundFs(s.cwd, s.fs, calls, k), calls[k]).result.Failure?
    ensures var o := RunTools(s, calls);
      var e := Dispatch(s.cwd, RoundFs(s.cwd, s.fs, calls, k), calls[k]);
      && o.completed == k
      && o.failure == Some(e.result.error)
      && o.session.fs == e.fs
  {
    RunToolsEffects(s, calls);
  }

  /** The reports of one call: its chunks, then, for a tool round, the newline and the finished message. */
  function RoundEvents(r: Response, cbs: Callbacks): seq<Event> {
    StreamEvents(r.chunks, cbs, true)
    + (if |r.toolCalls| > 0 && cbs.toolProgress
       then [ToolProgress("\n")] + (if cbs.finished then [Finished(Final(r))] else [])
       else [])
  }

  /** The cost of a sequence of calls. */
  function TotalCost(rs: seq<Response>): nat {
    if |rs| == 0 then 0 else rs[0].cost + TotalCost(rs[1..])
  }

  /** `a` is an initial part of `b`: the log only ever grows at its end. */
  predicate IsPrefix(a: seq<Message>, b: seq<Message>) {
    |a| <= |b| && b[..|a|] == a
  }

  lemma PrefixTransitive(a: seq<Message>, b: seq<Message>, c: seq<Message>)
    requires IsPrefix(a, b) && IsPrefix(b, c)
    ensures IsPrefix(a, c)
  {
    assert c[..|a|] == c[..|b|][..|a|];
  }

  lemma PrefixOfAppend(a: seq<Message>, b: seq<Message>)
    ensures IsPrefix(a, a + b)
  {
    assert (a + b)[..|a|] == a;
  }

  lemma TotalCostCons(rs: seq<Response>, k: nat)
    requires k < |rs|
    ensures TotalCost(rs[..k + 1]) == rs[0].cost + TotalCost(rs[1..][..k])
  {
    assert rs[..k + 1][1..] == rs[1..][..k];
  }

  /**
    `_do_call`: one completion call, then either the final answer or a tool
    round followed by a recursive call on the extended log.
  */
  function DoCall(s: Session, script: seq<Response>, cbs: Callbacks): (o: Outcome)
    ensures o.session.cwd == s.cwd
    ensures IsPrefix(s.log, o.session.log)
    ensures o.result.Success? ==>
      var ms := o.result.value.messages;
      && 1 <= |ms| <= |script|
      && (forall i :: 0 <= i < |ms| ==> ms[i] == Final(script[i]))
      && o.result.value.cost == TotalCost(script[..|ms|])
    decreases |script|
  {
    if |script| == 0 then Outcome(s, [], Failure(ProviderError))
    else
      var r := script[0];
      var streamed := StreamEvents(r.chunks, cbs, true);
      if |r.toolCalls| == 0 then
        Outcome(s, streamed, Success(TurnResult([Final(r)], r.cost)))
      else if !cbs.toolProgress then
        Outcome(s, streamed, Failure(MissingToolCallback))
      else
        var round := RunTools(s.(log := s.log + [Final(r)]), r.toolCalls);
        RunToolsLog(s.(log := s.log + [Final(r)]), r.toolCalls);
        PrefixOfAppend(s.log, [Final(r)]);
        PrefixOfAppend(s.log + [Final(r)], ToolMessages(r.toolCalls[..round.completed]));
        PrefixTransitive(s.log, s.log + [Final(r)], round.session.log);
        if round.failure.Some? then
          Outcome(round.session, RoundEvents(r, cbs), Failure(round.failure.value))
        else
          var rest := DoCall(round.session, script[1..], cbs);
          PrefixTransitive(s.log, round.session.log, rest.session.log);
          if rest.result.Success? then
            TotalCostCons(script, |rest.result.value.messages|);
            Continue(r, cbs, rest)
          else Continue(r, cbs, rest)
  }

  /** Completes a tool round with the outcome of the recursive call that follows it. */
  function Continue(r: Response, cbs: Callbacks, rest: Outcome): (o: Outcome)
    ensures o.session == rest.session
    ensures o.events == RoundEvents(r, cbs) + rest.events
    ensures o.result.Success? <==> rest.result.Success?
    ensures o.result.Success? ==>
      && o.result.value.messages == [Final(r)] + rest.result.value.messages
      && o.result.value.cost == r.cost + rest.result.value.cost
  {
    var events := RoundEvents(r, cbs) + rest.events;
    match rest.result
    case Failure(err) => Outcome(rest.session, events, Failure(err))
    case Success(t) => Outcome(rest.session, events, Success(TurnResult([Final(r)] + t.messages, r.cost + t.cost)))
  }

  /** The log entries a tool round adds: the assistant message, then one tool message per call. */
  function RoundMessages(r: Response): seq<Message> {
    [Final(r)] + ToolMessages(r.toolCalls)
  }

  /** Each tool message of a round answers, by id and name, the matching call of the assistant message before it. */
  lemma RoundAnswersCalls(r: Response)
    ensures var ms := RoundMessages(r);
      && |ms| == 1 + |r.toolCalls|
      && ms[0] == Assistant(r.text, r.toolCalls)
      && forall i :: 0 <= i < |r.toolCalls| ==>
           ms[i + 1].Tool? && ms[i + 1].toolCallId == ms[0].toolCalls[i].id && ms[i + 1].name == ms[0].toolCalls[i].name
  {
    var ms := RoundMessages(r);
    forall i | 0 <= i < |r.toolCalls|
      ensures ms[i + 1].Tool? && ms[i + 1].toolCallId == ms[0].toolCalls[i].id && ms[i + 1].name == ms[0].toolCalls[i].name
    {
      assert ms[i + 1] == ToolMessages(r.toolCalls)[i];
    }
  }

  function Rounds(rs: seq<Response>): seq<Message> {
    if |rs| == 0 then [] else RoundMessages(rs[0]) + Rounds(rs[1..])
  }

  function ChainEvents(rs: seq<Response>, cbs: Callbacks): seq<Event> {
    if |rs| == 0 then [] else RoundEvents(rs[0], cbs) + ChainEvents(rs[1..], cbs)
  }

  function Finals(rs: seq<Response>): seq<Message> {
    if |rs| == 0 then [] else [Final(rs[0])] + Finals(rs[1..])
  }

  lemma ChainCons(rs: seq<Response>, k: nat, cbs: Callbacks)
    requires 0 < k <= |rs|
    ensures Rounds(rs[..k]) == RoundMessages(rs[0]) + Rounds(rs[1..][..k - 1])
    ensures ChainEvents(rs[..k], cbs) == RoundEvents(rs[0], cbs) + ChainEvents(rs[1..][..k - 1], cbs)
    ensures Finals(rs[..k]) == [Final(rs[0])] + Finals(rs[1..][..k - 1])
  {
    assert rs[..k][0] == rs[0] && rs[..k][1..] == rs[1..][..k - 1];
  }

  /** A successful call that asked for tools had a tool callback and a round without failure. */
  lemma ToolRoundRan(s: Session, script: seq<Response>, cbs: Callbacks)
    requires DoCall(s, script, cbs).result.Success?
    requires |script[0].toolCalls| > 0
    ensures cbs.toolProgress
    ensures RunTools(s.(log := s.log + [Final(script[0])]), script[0].toolCalls).failure.None?
  {
  }

  lemma ToolRoundUnfold(s: Session, script: seq<Response>, cbs: Callbacks)
    requires |script| > 0 && |script[0].toolCalls| > 0 && cbs.toolProgress
    requires RunTools(s.(log := s.log + [Final(script[0])]), script[0].toolCalls).failure.None?
    ensures var round := RunTools(s.(log := s.log + [Final(script[0])]), script[0].toolCalls);
      DoCall(s, script, cbs) == Continue(script[0], cbs, DoCall(round.session, script[1..], cbs))
  {
  }

  lemma WholeRoundLogged(log: seq<Message>, before: seq<Message>, r: Response, completed: nat)
    requires completed == |r.toolCalls|
    requires log == (before + [Final(r)]) + ToolMessages(r.toolCalls[..completed])
    ensures log == before + RoundMessages(r)
  {
    assert r.toolCalls[..completed] == r.toolCalls;
  }

  /** A tool round without failure logs the assistant message and one tool message per call. */
  lemma RoundLog(s: Session, r: Response)
    requires RunTools(s.(log := s.log + [Final(r)]), r.toolCalls).failure.None?
    ensures RunTools(s.(log := s.log + [Final(r)]), r.toolCalls).session.log == s.log + RoundMessages(r)
  {
    var round := RunTools(s.(log := s.log + [Final(r)]), r.toolCalls);
    RunToolsLog(s.(log := s.log + [Final(r)]), r.toolCalls);
    WholeRoundLogged(round.session.log, s.log, r, round.completed);
  }

  /** A successful call that asked for tools ran its whole round and then a successful continuation. */
  lemma SuccessfulRound(s: Session, script: seq<Response>, cbs: Callbacks)
    requires DoCall(s, script, cbs).result.Success?
    requires |script[0].toolCalls| > 0
    ensures var r := script[0];
      var round := RunTools(s.(log := s.log + [Final(r)]), r.toolCalls);
      var rest := DoCall(round.session, script[1..], cbs);
      var o := DoCall(s, script, cbs);
      && cbs.toolProgress
      && round.failure.None?
      && round.session.log == s.log + RoundMessages(r)
      && rest.result.Success?
      && o.session == rest.session
      && o.events == RoundEvents(r, cbs) + rest.events
      && o.result.value.messages == [Final(r)] + rest.result.value.messages
  {
    var r := script[0];
    var round := RunTools(s.(log := s.log + [Final(r)]), r.toolCalls);
    ToolRoundRan(s, script, cbs);
    ToolRoundUnfold(s, script, cbs);
    RoundLog(s, r);
  }

  /** A successful call that asked for no tools is the whole turn. */
  lemma SuccessfulFinal(s: Session, script: seq<Response>, cbs: Callbacks)
    requires DoCall(s, script, cbs).result.Success?
    requires |script[0].toolCalls| == 0
    ensures var o := DoCall(s, script, cbs);
      && o.session == s
      && o.events == RoundEvents(script[0], cbs)
      && o.result.value.messages == [Final(script[0])]
  {
  }

  /**
    A successful turn is a chain of `k` calls: every call but the last asked for
    tools, and the last did not.
  */
  lemma {:induction false} ChainAskedForTools(s: Session, script: seq<Response>, cbs: Callbacks)
    requires DoCall(s, script, cbs).result.Success?
    ensures var k := |DoCall(s, script, cbs).result.value.messages|;
      && 1 <= k <= |script|
      && (forall i :: 0 <= i < k - 1 ==> |script[i].toolCalls| > 0)
      && |script[k - 1].toolCalls| == 0
      && (k > 1 ==> cbs.toolProgress)
    decreases |script|
  {
    if |script[0].toolCalls| == 0 {
      SuccessfulFinal(s, script, cbs);
    } else {
      SuccessfulRound(s, script, cbs);
      var round := RunTools(s.(log := s.log + [Final(script[0])]), script[0].toolCalls);
      ChainAskedForTools(round.session, script[1..], cbs);
      var k := |DoCall(s, script, cbs).result.value.messages|;
      forall i | 0 <= i < k - 1 ensures |script[i].toolCalls| > 0 {
        if i > 0 { assert script[i] == script[1..][i - 1]; }
      }
    }
  }

  lemma LogExtends(before: seq<Message>, mid: seq<Message>, added: seq<Message>, later: seq<Message>, after: seq<Message>)
    requires mid == before + added && after == mid + later
    ensures after == before + (added + later)
  {
  }

  /**
    The log of a successful turn gains, per tool round and in call order, the
    assistant message followed by its tool messages; the final message is
    returned but never logged.
  */
  lemma {:induction false} ChainLog(s: Session, script: seq<Response>, cbs: Callbacks)
    requires DoCall(s, script, cbs).result.Success?
    ensures var o := DoCall(s, script, cbs);
      o.session.log == s.log + Rounds(script[..|o.result.value.messages| - 1])
    decreases |script|
  {
    var k := |DoCall(s, script, cbs).result.value.messages|;
    if |script[0].toolCalls| == 0 {
      SuccessfulFinal(s, script, cbs);
      assert script[..k - 1] == [];
    } else {
      SuccessfulRound(s, script, cbs);
      var round := RunTools(s.(log := s.log + [Final(script[0])]), script[0].toolCalls);
      ChainLog(round.session, script[1..], cbs);
      ChainLogStep(s.log, round.session.log, script, DoCall(s, script, cbs), DoCall(round.session, script[1..], cbs));
    }
  }

  lemma ChainLogStep(before: seq<Message>, mid: seq<Message>, script: seq<Response>, o: Outcome, rest: Outcome)
    requires |script| > 0 && mid == before + RoundMessages(script[0])
    requires rest.result.Success? && 1 <= |rest.result.value.messages| <= |script| - 1
    requires rest.session.log == mid + Rounds(script[1..][..|rest.result.value.messages| - 1])
    requires o.session == rest.session && o.result.Success?
    requires o.result.value.messages == [Final(script[0])] + rest.result.value.messages
    ensures o.session.log == before + Rounds(script[..|o.result.value.messages| - 1])
  {
    var k := |o.result.value.messages|;
    ChainCons(script, k - 1, Callbacks(false, false, false));
    LogExtends(before, mid, RoundMessages(script[0]), Rounds(script[1..][..k - 2]), rest.session.log);
  }

  /** The reports of a successful turn are those of each call, in call order. */
  lemma {:induction false} ChainReports(s: Session, script: seq<Response>, cbs: Callbacks)
    requires DoCall(s, script, cbs).result.Success?
    ensures var o := DoCall(s, script, cbs);
      o.events == ChainEvents(script[..|o.result.value.messages|], cbs)
    decreases |script|
  {
    var k := |DoCall(s, script, cbs).result.value.messages|;
    if |script[0].toolCalls| == 0 {
      SuccessfulFinal(s, script, cbs);
      assert script[..k] == [script[0]];
      assert ChainEvents([script[0]], cbs) == RoundEvents(script[0], cbs) + ChainEvents([], cbs);
    } else {
      SuccessfulRound(s, script, cbs);
      var round := RunTools(s.(log := s.log + [Final(script[0])]), script[0].toolCalls);
      ChainReports(round.session, script[1..], cbs);
      ChainCons(script, k, cbs);
    }
  }

  /** The only finished message a call reports is its own, after a tool round. */
  lemma RoundFinished(r: Response, cbs: Callbacks)
    ensures FinishedMessages(RoundEvents(r, cbs))
         == if |r.toolCalls| > 0 && cbs.toolProgress && cbs.finished then [Final(r)] else []
  {
    StreamHasNoFinished(r.chunks, cbs, true);
    var tail := if |r.toolCalls| > 0 && cbs.toolProgress
      then [ToolProgress("\n")] + (if cbs.finished then [Finished(Final(r))] else [])
      else [];
    FinishedOfConcat(StreamEvents(r.chunks, cbs, true), tail);
    if |r.toolCalls| > 0 && cbs.toolProgress {
      var done: seq<Event> := if cbs.finished then [Finished(Final(r))] else [];
      FinishedOfConcat([ToolProgress("\n")], done);
      assert FinishedMessages([ToolProgress("\n")]) == [];
    }
  }

  /**
    `finished_callback` receives the assistant message of every tool round, in
    order, and never the final answer.
  */
  lemma {:induction false} ChainFinished(s: Session, script: seq<Response>, cbs: Callbacks)
    requires DoCall(s, script, cbs).result.Success?
    ensures var o := DoCall(s, script, cbs);
      FinishedMessages(o.events)
        == if cbs.finished then Finals(script[..|o.result.value.messages| - 1]) else []
    decreases |script|
  {
    var o := DoCall(s, script, cbs);
    var k := |o.result.value.messages|;
    if |script[0].toolCalls| == 0 {
      SuccessfulFinal(s, script, cbs);
      RoundFinished(script[0], cbs);
      assert script[..k - 1] == [];
    } else {
      SuccessfulRound(s, script, cbs);
      var round := RunTools(s.(log := s.log + [Final(script[0])]), script[0].toolCalls);
      var rest := DoCall(round.session, script[1..], cbs);
      ChainFinished(round.session, script[1..], cbs);
      RoundFinished(script[0], cbs);
      FinishedOfConcat(RoundEvents(script[0], cbs), rest.events);
      ChainCons(script, k - 1, cbs);
    }
  }

  /**
    When a tool call raises, the turn ends with that exception: the assistant
    message and the tool messages of the calls before it stay in the log, the
    round's reports stand, and no further completion call is made.
  */
  lemma ToolFailureAborts(s: Session, script: seq<Response>, cbs: Callbacks)
    requires |script| > 0 && |script[0].toolCalls| > 0 && cbs.toolProgress
    requires RunTools(s.(log := s.log + [Final(script[0])]), script[0].toolCalls).failure.Some?
    ensures var r := script[0];
      var round := RunTools(s.(log := s.log + [Final(r)]), r.toolCalls);
      var o := DoCall(s, script, cbs);
      && round.completed < |r.toolCalls|
      && o.session.log == s.log + [Final(r)] + ToolMessages(r.toolCalls[..round.completed])
      && o.session.fs == round.session.fs
      && o.events == RoundEvents(r, cbs)
      && o.result == Failure(round.failure.value)
  {
    RunToolsLog(s.(log := s.log + [Final(script[0])]), script[0].toolCalls);
  }

  /**
    A call to a tool the schema does not advertise, at any position of the round,
    raises `invalid tool` once the calls before it have returned; it writes nothing
    and no later call runs.
  */
  lemma UnknownToolStops(s: Session, calls: seq<ToolCall>, k: nat)
    requires k < |calls| && !calls[k].arguments.Unparsable? && !Advertised(calls[k].name)
    requires forall i :: 0 <= i < k ==> Dispatch(s.cwd, RoundFs(s.cwd, s.fs, calls, i), calls[i]).result.Success?
    ensures var o := RunTools(s, calls);
      && o.completed == k
      && o.failure == Some(UnknownTool(calls[k].name))
      && o.session.fs == RoundFs(s.cwd, s.fs, calls, k)
  {
    DispatchContract(s.cwd, RoundFs(s.cwd, s.fs, calls, k), calls[k]);
    FirstFailureStops(s, calls, k);
  }

  /** Arguments that do not parse, at any position of the round, raise there in the same way. */
  lemma UnparsableStops(s: Session, calls: seq<ToolCall>, k: nat)
    requires k < |calls| && calls[k].arguments.Unparsable?
    requires forall i :: 0 <= i < k ==> Dispatch(s.cwd, RoundFs(s.cwd, s.fs, calls, i), calls[i]).result.Success?
    ensures var o := RunTools(s, calls);
      && o.completed == k
      && o.failure == Some(ArgumentParseError)
      && o.session.fs == RoundFs(s.cwd, s.fs, calls, k)
  {
    DispatchContract(s.cwd, RoundFs(s.cwd, s.fs, calls, k), calls[k]);
    FirstFailureStops(s, calls, k);
  }

  /** Tool calls without a tool callback end the turn before any tool runs or anything is logged. */
  lemma MissingCallbackAborts(s: Session, script: seq<Response>, cbs: Callbacks)
    requires |script| > 0 && |script[0].toolCalls| > 0 && !cbs.toolProgress
    ensures var o := DoCall(s, script, cbs);
      && o.session == s
      && o.events == StreamEvents(script[0].chunks, cbs, true)
      && o.result == Failure(MissingToolCallback)
  {
  }

  /** `b` extends `a` with assistant and tool messages only. */
  predicate AddsNoUser(a: seq<Message>, b: seq<Message>) {
    IsPrefix(a, b) && forall i :: |a| <= i < |b| ==> !b[i].User?
  }

  lemma AddsNoUserTransitive(a: seq<Message>, b: seq<Message>, c: seq<Message>)
    requires AddsNoUser(a, b) && AddsNoUser(b, c)
    ensures AddsNoUser(a, c)
  {
    PrefixTransitive(a, b, c);
    forall i | |a| <= i < |c| ensures !c[i].User? {
      if i < |b| { assert c[i] == c[..|b|][i]; }
    }
  }

  lemma RoundAddsNoUser(log: seq<Message>, before: seq<Message>, r: Response, completed: nat)
    requires completed <= |r.toolCalls|
    requires log == (before + [Final(r)]) + ToolMessages(r.toolCalls[..completed])
    ensures AddsNoUser(before, log)
  {
    var added := [Final(r)] + ToolMessages(r.toolCalls[..completed]);
    PrefixOfAppend(before, added);
    assert log == before + added;
    forall i | |before| <= i < |log| ensures !log[i].User? {
      assert log[i] == added[i - |before|];
    }
  }

  /** Whatever happens, a turn only ever appends assistant and tool messages to the log. */
  lemma {:induction false} NoUserAdded(s: Session, script: seq<Response>, cbs: Callbacks)
    ensures AddsNoUser(s.log, DoCall(s, script, cbs).session.log)
    decreases |script|
  {
    if |script| > 0 && |script[0].toolCalls| > 0 && cbs.toolProgress {
      var r := script[0];
      var round := RunTools(s.(log := s.log + [Final(r)]), r.toolCalls);
      RunToolsLog(s.(log := s.log + [Final(r)]), r.toolCalls);
      RoundAddsNoUser(round.session.log, s.log, r, round.completed);
      if round.failure.None? {
        ToolRoundUnfold(s, script, cbs);
        NoUserAdded(round.session, script[1..], cbs);
        AddsNoUserTransitive(s.log, round.session.log, DoCall(round.session, script[1..], cbs).session.log);
      } else {
        ToolFailureAborts(s, script, cbs);
      }
    } else {
      assert DoCall(s, script, cbs).session == s;
      assert s.log[..|s.log|] == s.log;
    }
  }

  /** A round of one call the handler accepts applies its effect and logs one tool message. */
  lemma OneCallRound(s: Session, call: ToolCall, fs: FileSystem)
    requires Dispatch(s.cwd, s.fs, call) == Effect(fs, Success(Written))
    ensures RunTools(s, [call]) == ToolsOutcome(Session(s.log + [ToolMessage(call)], fs, s.cwd), 1, None)
  {
    var s' := Session(s.log + [ToolMessage(call)], fs, s.cwd);
    assert RunTools(s', [call][1..]) == ToolsOutcome(s', 0, None);
  }

  /** A call that asks for no tools is answered at once and logs nothing. */
  lemma AnswerOnly(s: Session, r: Response, cbs: Callbacks)
    requires |r.toolCalls| == 0
    ensures DoCall(s, [r], cbs) == Outcome(s, StreamEvents(r.chunks, cbs, true), Success(TurnResult([Final(r)], r.cost)))
  {
  }

  /** A tool round without failure followed by a call that asks for no tools. */
  lemma ToolRoundThenAnswer(s: Session, script: seq<Response>, cbs: Callbacks)
    requires |script| == 2 && |script[0].toolCalls| > 0 && |script[1].toolCalls| == 0 && cbs.toolProgress
    requires RunTools(s.(log := s.log + [Final(script[0])]), script[0].toolCalls).failure.None?
    ensures var round := RunTools(s.(log := s.log + [Final(script[0])]), script[0].toolCalls);
      DoCall(s, script, cbs)
        == Continue(script[0], cbs, Outcome(round.session, StreamEvents(script[1].chunks, cbs, true),
                                            Success(TurnResult([Final(script[1])], script[1].cost))))
  {
    var round := RunTools(s.(log := s.log + [Final(script[0])]), script[0].toolCalls);
    ToolRoundUnfold(s, script, cbs);
    assert script[1..] == [script[1]];
    AnswerOnly(round.session, script[1], cbs);
  }

  lemma ContinueAfterAnswer(log: seq<Message>, r1: Response, r2: Response, cbs: Callbacks, rest: Outcome, o: Outcome)
    requires |r1.toolCalls| == 1
    requires rest.session.log == log + [Final(r1)] + [ToolMessage(r1.toolCalls[0])]
    requires rest.result == Success(TurnResult([Final(r2)], r2.cost))
    requires o == Continue(r1, cbs, rest)
    ensures o.result == Success(TurnResult([Assistant(r1.text, r1.toolCalls), Assistant(r2.text, r2.toolCalls)], r1.cost + r2.cost))
    ensures o.session.log == log + [Assistant(r1.text, r1.toolCalls), ToolMessage(r1.toolCalls[0])]
  {
    assert [Final(r1)] + [Final(r2)] == [Final(r1), Final(r2)];
    assert log + [Final(r1)] + [ToolMessage(r1.toolCalls[0])] == log + [Final(r1), ToolMessage(r1.toolCalls[0])];
  }

  /**
    The usual two-call turn: the model makes one tool call the handler accepts
    (with `WritePlainName`, writing a file), then answers. The effect is
    applied, the log gains the tool round, and the result holds both
    assistant messages with the summed cost.
  */
  lemma ToolThenAnswer(s: Session, call: ToolCall, fs: FileSystem, script: seq<Response>, cbs: Callbacks)
    requires |script| == 2 && script[0].toolCalls == [call] && script[1].toolCalls == []
    requires Dispatch(s.cwd, s.fs, call) == Effect(fs, Success(Written))
    requires cbs.toolProgress
    ensures var o := DoCall(s, script, cbs);
      && o.result == Success(TurnResult([Assistant(script[0].text, [call]), Assistant(script[1].text, [])],
                                        script[0].cost + script[1].cost))
      && o.session == Session(s.log + [Assistant(script[0].text, [call]), Tool(call.id, call.name, Written)], fs, s.cwd)
      && o.events == RoundEvents(script[0], cbs) + StreamEvents(script[1].chunks, cbs, true)
  {
    var s1 := s.(log := s.log + [Final(script[0])]);
    OneCallRound(s1, call, fs);
    ToolRoundThenAnswer(s, script, cbs);
    var rest := Outcome(Session(s1.log + [ToolMessage(call)], fs, s.cwd), StreamEvents(script[1].chunks, cbs, true),
                        Success(TurnResult([Final(script[1])], script[1].cost)));
    ContinueAfterAnswer(s.log, script[0], script[1], cbs, rest, DoCall(s, script, cbs));
  }

  const ImagePrefix := "data:image/png;base64,"

  /** The user message `answer` appends: the image block only for a truthy attachment. */
  function UserMessage(prompt: string, attachment: Option<string>): (m: Message)
    ensures m.User?
    ensures m.content.TextAndImage? <==> Truthy(attachment)
  {
    if Truthy(attachment) then User(TextAndImage(prompt, ImagePrefix + attachment.value))
    else User(Plain(prompt))
  }

  /** The prompt a user message carries. */
  function PromptOf(c: UserContent): string {
    c.text
  }

  /** The attachment a user message carries: its image URL without the data-URL prefix. */
  function AttachmentOf(c: UserContent): Option<string> {
    if c.TextAndImage? && |ImagePrefix| <= |c.imageUrl| && c.imageUrl[..|ImagePrefix|] == ImagePrefix
    then Some(c.imageUrl[|ImagePrefix|..])
    else None
  }

  /** The prompt and a truthy attachment can be read back from the message; a falsy one is dropped. */
  lemma UserMessageRoundTrip(prompt: string, attachment: Option<string>)
    ensures PromptOf(UserMessage(prompt, attachment).content) == prompt
    ensures AttachmentOf(UserMessage(prompt, attachment).content) == if Truthy(attachment) then attachment else None
  {
    if Truthy(attachment) {
      var url := ImagePrefix + attachment.value;
      assert url[..|ImagePrefix|] == ImagePrefix && url[|ImagePrefix|..] == attachment.value;
    }
  }

  lemma PrefixOfExtended(before: seq<Message>, m: Message, after: seq<Message>)
    requires IsPrefix(before + [m], after)
    ensures |after| > |before| && after[..|before|] == before && after[|before|] == m
  {
    assert after[..|before|] == after[..|before| + 1][..|before|];
  }

  /**
    `answer`: append the user message built from the rendered prompt, then run
    the turn. The rendered prompt is an input here.
  */
  function Answer(s: Session, prompt: string, attachment: Option<string>, script: seq<Response>, cbs: Callbacks): (o: Outcome)
    ensures |o.session.log| > |s.log|
    ensures o.session.log[..|s.log|] == s.log
    ensures o.session.log[|s.log|] == UserMessage(prompt, attachment)
  {
    var o := DoCall(s.(log := s.log + [UserMessage(prompt, attachment)]), script, cbs);
    PrefixOfExtended(s.log, UserMessage(prompt, attachment), o.session.log);
    o
  }

  /** `answer` appends exactly one user message: every later entry is an assistant or tool message. */
  lemma AnswerAddsOneUserMessage(s: Session, prompt: string, attachment: Option<string>, script: seq<Response>, cbs: Callbacks)
    ensures var log := Answer(s, prompt, attachment, script, cbs).session.log;
      && log[|s.log|].User?
      && forall i :: |s.log| < i < |log| ==> !log[i].User?
  {
    var log := s.log + [UserMessage(prompt, attachment)];
    NoUserAdded(s.(log := log), script, cbs);
  }
}
