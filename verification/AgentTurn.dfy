/** One agent turn and the rows it leaves (app/graph/agent_node.py, app/tools/executor.py, app/graph/nodes.py). */
module AgentTurn {
  // The ReAct loop, the batch contract, and the parked write with its confirmation.
  import opened Basics
  import opened Messages

  const REFUSAL_ANSWER := "抱歉,这个问题超出了我目前掌握的资料范围,已为您记录,稍后可转人工客服进一步核实。"
  const KB_UNAVAILABLE_ANSWER := "知识库暂时不可用,请稍后重试。"
  const AGENT_BUDGET_ANSWER := "本轮处理已达到上限,请缩小问题范围后重试。"
  const FALLBACK_ANSWER := "抱歉,暂时没有查到相关信息。您可以换个说法,或请求人工帮助并选择相应按钮。"

  datatype Call = Call(id: string, name: string)

  datatype Message =
    | Human(text: string)
    | AI(text: string, calls: seq<Call>)
    | Answer(callId: string, ok: bool)

  datatype Permission = Read | Write | Deny

  type Face = map<string, Permission>

  // How the retrieval behind query_faq ended.
  datatype Gate = Passed | LowConfidence | Unavailable

  datatype Outcome = Outcome(ok: bool, gate: Gate)

  // Everything outside the node's control in one step: the model's stream and the outcomes of the reads it asks for.
  datatype Reply =
    | UpstreamError
    | Reply(text: string, calls: seq<Call>, malformed: bool, cutByLength: bool, usage: Option<nat>,
            outcomes: seq<Outcome>)

  datatype Config = Config(maxSteps: nat, maxTokens: nat, maxOutputTokens: nat, guardTokens: int,
                           maxMessageChars: nat, maxCalls: nat)

  datatype Exit = Finished(messages: seq<Message>) | Parked(messages: seq<Message>, pending: Call) | Aborted

  // ---------------------------------------------------------------- shapes

  predicate LegalCalls(calls: seq<Call>, maxCalls: nat) {
    && |calls| <= maxCalls
    && (forall i, j :: 0 <= i < j < |calls| ==> calls[i].id != calls[j].id)
    && (forall i :: 0 <= i < |calls| ==> LegalCallId(calls[i].id))
  }

  // The i-th answer answers the i-th call.
  predicate InCallOrder(calls: seq<Call>, answers: seq<Message>) {
    && |answers| <= |calls|
    && forall i :: 0 <= i < |answers| ==> answers[i].Answer? && answers[i].callId == calls[i].id
  }

  // One assistant message with calls, then all its answers in call order.
  ghost predicate IsRound(r: seq<Message>, maxCalls: nat) {
    && r != [] && r[0].AI? && r[0].calls != [] && LegalCalls(r[0].calls, maxCalls)
    && |r| == 1 + |r[0].calls| && InCallOrder(r[0].calls, r[1..])
  }

  function RoundLength(ms: seq<Message>): nat
    requires ms != []
  {
    if ms[0].AI? then 1 + |ms[0].calls| else 1
  }

  // A sequence of complete rounds.
  ghost predicate Rounds(ms: seq<Message>, maxCalls: nat) {
    ms == []
    || (RoundLength(ms) <= |ms| && IsRound(ms[..RoundLength(ms)], maxCalls) && Rounds(ms[RoundLength(ms)..], maxCalls))
  }

  // Every call made so far is answered.
  ghost predicate Answered(ms: seq<Message>, maxCalls: nat) {
    ms != [] && ms[0].Human? && Rounds(ms[1..], maxCalls)
  }

  // Every call but the pending one, which is the last of its batch.
  ghost predicate AwaitsOne(ms: seq<Message>, pending: Call, maxCalls: nat) {
    exists k: nat :: OpenRoundAt(ms, k, pending, maxCalls)
  }

  ghost predicate OpenRoundAt(ms: seq<Message>, k: nat, pending: Call, maxCalls: nat) {
    && 0 < k < |ms| && Answered(ms[..k], maxCalls)
    && ms[k].AI? && ms[k].calls != [] && LegalCalls(ms[k].calls, maxCalls)
    && |ms| == k + |ms[k].calls|
    && InCallOrder(ms[k].calls, ms[k + 1..])
    && ms[k].calls[|ms[k].calls| - 1] == pending
  }

  ghost predicate Complete(ms: seq<Message>, maxCalls: nat) {
    && |ms| >= 2 && Answered(ms[..|ms| - 1], maxCalls)
    && ms[|ms| - 1].AI? && ms[|ms| - 1].calls == [] && !Blank(ms[|ms| - 1].text)
  }

  lemma CutConcat<T>(a: seq<T>, b: seq<T>, n: nat)
    requires n <= |a|
    ensures (a + b)[..n] == a[..n] && (a + b)[n..] == a[n..] + b
  {
  }

  lemma {:induction false} RoundsAppend(a: seq<Message>, b: seq<Message>, maxCalls: nat)
    requires Rounds(a, maxCalls) && Rounds(b, maxCalls)
    ensures Rounds(a + b, maxCalls)
  {
    if a == [] {
      assert a + b == b;
    } else {
      var n := RoundLength(a);
      RoundsAppend(a[n..], b, maxCalls);
      CutConcat(a, b, n);
    }
  }

  lemma OneRound(ai: Message, answers: seq<Message>, maxCalls: nat)
    requires ai.AI? && ai.calls != [] && LegalCalls(ai.calls, maxCalls)
    requires |answers| == |ai.calls| && InCallOrder(ai.calls, answers)
    ensures Rounds([ai] + answers, maxCalls)
  {
    var r := [ai] + answers;
    assert r[1..] == answers;
    assert r[..RoundLength(r)] == r && r[RoundLength(r)..] == [];
  }

  lemma AnsweredRound(ms: seq<Message>, ai: Message, answers: seq<Message>, maxCalls: nat)
    requires Answered(ms, maxCalls)
    requires ai.AI? && ai.calls != [] && LegalCalls(ai.calls, maxCalls)
    requires |answers| == |ai.calls| && InCallOrder(ai.calls, answers)
    ensures Answered(ms + [ai] + answers, maxCalls)
  {
    OneRound(ai, answers, maxCalls);
    RoundsAppend(ms[1..], [ai] + answers, maxCalls);
    assert (ms + [ai] + answers)[1..] == ms[1..] + ([ai] + answers);
  }

  lemma CompleteWith(ms: seq<Message>, text: string, maxCalls: nat)
    requires Answered(ms, maxCalls) && !Blank(text)
    ensures Complete(ms + [AI(text, [])], maxCalls)
  {
    assert (ms + [AI(text, [])])[..|ms|] == ms;
  }

  lemma CannedAnswersAreNotBlank()
    ensures !Blank(REFUSAL_ANSWER) && !Blank(KB_UNAVAILABLE_ANSWER)
    ensures !Blank(AGENT_BUDGET_ANSWER) && !Blank(FALLBACK_ANSWER)
  {
    assert !IsSpace(REFUSAL_ANSWER[0]) && !IsSpace(KB_UNAVAILABLE_ANSWER[0]);
    assert !IsSpace(AGENT_BUDGET_ANSWER[0]) && !IsSpace(FALLBACK_ANSWER[0]);
  }

  // ---------------------------------------------------------------- the batch contract

  predicate IsWrite(call: Call, face: Face) {
    call.name in face && face[call.name] == Write
  }

  method BatchViolation(calls: seq<Call>, face: Face) returns (violated: bool)
    ensures violated <==> exists i :: 0 <= i < |calls| - 1 && IsWrite(calls[i], face)
  {
    var writes: seq<nat> := [];
    for i := 0 to |calls|
      invariant forall k :: 0 <= k < |writes| ==> writes[k] < i && IsWrite(calls[writes[k]], face)
      invariant forall k :: 0 <= k < i && IsWrite(calls[k], face) ==> k in writes
      invariant forall k, l :: 0 <= k < l < |writes| ==> writes[k] < writes[l]
    {
      if IsWrite(calls[i], face) {
        writes := writes + [i];
      }
    }
    if writes == [] {
      return false;
    }
    if |writes| > 1 {
      assert writes[0] < writes[1];
      return true;
    }
    return writes[0] != |calls| - 1;
  }

  // Every call of an illegal batch gets an error answer; none is executed.
  method MarkInvalidBatch(calls: seq<Call>) returns (answers: seq<Message>)
    ensures |answers| == |calls| && InCallOrder(calls, answers)
    ensures forall i :: 0 <= i < |answers| ==> answers[i] == Answer(calls[i].id, false)
  {
    answers := [];
    for i := 0 to |calls|
      invariant |answers| == i && forall k :: 0 <= k < i ==> answers[k] == Answer(calls[k].id, false)
    {
      answers := answers + [Answer(calls[i].id, false)];
    }
  }

  function OutcomeOf(outcomes: seq<Outcome>, i: nat): Outcome {
    if i < |outcomes| then outcomes[i] else Outcome(true, Passed)
  }

  predicate FailsGate(call: Call, hasFaq: bool, o: Outcome) {
    call.name == "query_faq" && hasFaq && (!o.ok || o.gate != Passed)
  }

  // The first gate that failed among the first n calls.
  function GateAfter(calls: seq<Call>, hasFaq: bool, outcomes: seq<Outcome>, n: nat): (g: Option<Gate>)
    requires n <= |calls|
    ensures g.Some? ==> g.value != Passed
  {
    if n == 0 then None
    else
      var before, o := GateAfter(calls, hasFaq, outcomes, n - 1), OutcomeOf(outcomes, n - 1);
      if before.Some? then before
      else if FailsGate(calls[n - 1], hasFaq, o)
      then Some(if o.gate == LowConfidence && o.ok then LowConfidence else Unavailable) else None
  }

  // The tools that run among the first n calls: none after a failed gate, and suggestions are no tools.
  function Ran(calls: seq<Call>, hasFaq: bool, outcomes: seq<Outcome>, n: nat): seq<Call>
    requires n <= |calls|
  {
    if n == 0 then []
    else
      Ran(calls, hasFaq, outcomes, n - 1)
      + if GateAfter(calls, hasFaq, outcomes, n - 1).None? && calls[n - 1].name != "suggest_options"
          then [calls[n - 1]] else []
  }

  function AnswerTo(calls: seq<Call>, hasFaq: bool, outcomes: seq<Outcome>, i: nat): Message
    requires i < |calls|
  {
    Answer(calls[i].id, GateAfter(calls, hasFaq, outcomes, i).None? && OutcomeOf(outcomes, i).ok)
  }

  // A legal batch has its one write, if any, at the end; it waits for the user unless a gate has failed before it.
  predicate Parks(calls: seq<Call>, face: Face, hasFaq: bool, outcomes: seq<Outcome>)
    requires calls != []
  {
    var last := |calls| - 1;
    IsWrite(calls[last], face) && calls[last].name != "suggest_options"
        && GateAfter(calls, hasFaq, outcomes, last).None?
  }

  // Answers the calls in order. A write is parked, never executed; once the knowledge gate has failed, the
  // remaining calls (a write included) are answered without being executed.
  method AnswerCalls(calls: seq<Call>, face: Face, hasFaq: bool, outcomes: seq<Outcome>)
    returns (answers: seq<Message>, parked: bool, failed: Option<Gate>, executed: seq<Call>)
    requires calls != [] && forall i :: 0 <= i < |calls| - 1 ==> !IsWrite(calls[i], face)
    ensures parked <==> Parks(calls, face, hasFaq, outcomes)
    ensures |answers| == |calls| - (if parked then 1 else 0) && InCallOrder(calls, answers)
    ensures forall i :: 0 <= i < |answers| ==> answers[i] == AnswerTo(calls, hasFaq, outcomes, i)
    ensures failed == GateAfter(calls, hasFaq, outcomes, |answers|)
            && executed == Ran(calls, hasFaq, outcomes, |answers|)
    ensures parked ==> failed.None?
  {
    answers, parked, failed, executed := [], false, None, [];
    for i := 0 to |calls|
      invariant |answers| == i && InCallOrder(calls, answers) && !parked
      invariant forall k :: 0 <= k < i ==> answers[k] == AnswerTo(calls, hasFaq, outcomes, k)
      invariant failed == GateAfter(calls, hasFaq, outcomes, i) && executed == Ran(calls, hasFaq, outcomes, i)
      invariant i == |calls| ==> !Parks(calls, face, hasFaq, outcomes)
    {
      var call := calls[i];
      if failed.Some? {
        answers := answers + [Answer(call.id, false)];
        continue;
      }
      if call.name == "suggest_options" {
        answers := answers + [Answer(call.id, OutcomeOf(outcomes, i).ok)];
        continue;
      }
      if IsWrite(call, face) {
        parked := true;
        return;
      }
      var outcome := OutcomeOf(outcomes, i);
      executed := executed + [call];
      answers := answers + [Answer(call.id, outcome.ok)];
      if FailsGate(call, hasFaq, outcome) {
        failed := Some(if outcome.gate == LowConfidence && outcome.ok then LowConfidence else Unavailable);
      }
    }
  }

  // ---------------------------------------------------------------- main_agent

  // Reported usage never exceeds the reservation made for the call.
  ghost predicate UsageWithinReserve(replies: seq<Reply>, contexts: seq<seq<Message>>, estimate: seq<Message> -> nat,
                                     cfg: Config) {
    forall i :: 0 <= i < |contexts| && i < |replies| && replies[i].Reply? && replies[i].usage.Some? ==>
      replies[i].usage.value <= estimate(contexts[i]) + cfg.maxOutputTokens
  }

  // More than one write, or a write that is not the last call.
  ghost predicate BreaksContract(calls: seq<Call>, face: Face) {
    exists i :: 0 <= i < |calls| - 1 && IsWrite(calls[i], face)
  }

  function CannedFor(g: Gate): string {
    if g == LowConfidence then REFUSAL_ANSWER else KB_UNAVAILABLE_ANSWER
  }

  // A parked write never runs.
  lemma {:induction false} RanReads(calls: seq<Call>, face: Face, hasFaq: bool, outcomes: seq<Outcome>, n: nat)
    requires n <= |calls| && calls != [] && !BreaksContract(calls, face)
            && (n == |calls| ==> !Parks(calls, face, hasFaq, outcomes))
    ensures forall c :: c in Ran(calls, hasFaq, outcomes, n) ==> c in calls && !IsWrite(c, face)
  {
    if n > 0 {
      RanReads(calls, face, hasFaq, outcomes, n - 1);
    }
  }

  function Waiting(reply: Reply, face: Face, hasFaq: bool): nat
    requires reply.Reply? && reply.calls != []
  {
    if Parks(reply.calls, face, hasFaq, reply.outcomes) then 1 else 0
  }

  // How a legal batch leaves the loop, if it does.
  function ExitOf(reply: Reply, face: Face, hasFaq: bool, next: seq<Message>): Option<Exit>
    requires reply.Reply? && reply.calls != []
  {
    var n := |reply.calls| - Waiting(reply, face, hasFaq);
    var gate := GateAfter(reply.calls, hasFaq, reply.outcomes, n);
    if n < |reply.calls| then Some(Parked(next, reply.calls[n]))
    else if gate.Some? then Some(Finished(next + [AI(CannedFor(gate.value), [])]))
    else None
  }

  // What a legal batch does to the turn.
  ghost predicate BatchDone(turn: seq<Message>, reply: Reply, face: Face, hasFaq: bool,
                            next: seq<Message>, exit: Option<Exit>, ran: seq<Call>)
    requires reply.Reply? && reply.calls != []
  {
    var n := |reply.calls| - Waiting(reply, face, hasFaq);
    && ran == Ran(reply.calls, hasFaq, reply.outcomes, n) && exit == ExitOf(reply, face, hasFaq, next)
    && |next| == |turn| + 1 + n && turn + [AI(reply.text, reply.calls)] <= next
    && (forall i :: 0 <= i < n ==> next[|turn| + 1 + i] == AnswerTo(reply.calls, hasFaq, reply.outcomes, i))
  }

  ghost predicate GoesOn(turn: seq<Message>, next: seq<Message>, exit: Option<Exit>, face: Face, maxCalls: nat)
    requires turn != []
  {
    if exit.Some? then ExitOk(exit.value, turn, face, maxCalls) && !exit.value.Aborted?
    else Answered(next, maxCalls) && turn <= next
  }

  lemma BatchGoesOn(turn: seq<Message>, reply: Reply, face: Face, hasFaq: bool, answers: seq<Message>, maxCalls: nat)
    requires Answered(turn, maxCalls) && reply.Reply? && reply.calls != [] && LegalCalls(reply.calls, maxCalls)
    requires |answers| == |reply.calls| - Waiting(reply, face, hasFaq) && InCallOrder(reply.calls, answers)
    ensures var next := turn + [AI(reply.text, reply.calls)] + answers;
            GoesOn(turn, next, ExitOf(reply, face, hasFaq, next), face, maxCalls)
  {
    if |answers| < |reply.calls| {
      BatchParks(turn, reply, face, hasFaq, answers, maxCalls);
    } else {
      BatchCompletes(turn, reply, face, hasFaq, answers, maxCalls);
    }
  }

  lemma BatchParks(turn: seq<Message>, reply: Reply, face: Face, hasFaq: bool, answers: seq<Message>, maxCalls: nat)
    requires Answered(turn, maxCalls) && reply.Reply? && reply.calls != [] && LegalCalls(reply.calls, maxCalls)
    requires |answers| == |reply.calls| - 1 && Waiting(reply, face, hasFaq) == 1 && InCallOrder(reply.calls, answers)
    ensures var next := turn + [AI(reply.text, reply.calls)] + answers;
            GoesOn(turn, next, ExitOf(reply, face, hasFaq, next), face, maxCalls)
  {
    OpenRound(turn, AI(reply.text, reply.calls), answers, maxCalls);
    assert (turn + [AI(reply.text, reply.calls)] + answers)[0] == turn[0];
  }

  lemma BatchCompletes(turn: seq<Message>, reply: Reply, face: Face, hasFaq: bool, answers: seq<Message>, maxCalls: nat)
    requires Answered(turn, maxCalls) && reply.Reply? && reply.calls != [] && LegalCalls(reply.calls, maxCalls)
    requires |answers| == |reply.calls| && Waiting(reply, face, hasFaq) == 0 && InCallOrder(reply.calls, answers)
    ensures var next := turn + [AI(reply.text, reply.calls)] + answers;
            GoesOn(turn, next, ExitOf(reply, face, hasFaq, next), face, maxCalls)
  {
    var next := turn + [AI(reply.text, reply.calls)] + answers;
    AnsweredRound(turn, AI(reply.text, reply.calls), answers, maxCalls);
    var gate := GateAfter(reply.calls, hasFaq, reply.outcomes, |answers|);
    assert turn <= next;
    if gate.Some? {
      GateEnds(turn, next, gate.value, maxCalls);
    }
  }

  lemma GateEnds(turn: seq<Message>, next: seq<Message>, gate: Gate, maxCalls: nat)
    requires turn != [] && turn <= next && Answered(next, maxCalls)
    ensures var done := next + [AI(CannedFor(gate), [])];
            Complete(done, maxCalls) && done[0] == turn[0]
  {
    CannedAnswersAreNotBlank();
    CompleteWith(next, CannedFor(gate), maxCalls);
  }

  lemma BatchIsDone(turn: seq<Message>, reply: Reply, face: Face, hasFaq: bool, answers: seq<Message>)
    requires reply.Reply? && reply.calls != [] && |answers| == |reply.calls| - Waiting(reply, face, hasFaq)
    requires forall i :: 0 <= i < |answers| ==> answers[i] == AnswerTo(reply.calls, hasFaq, reply.outcomes, i)
    ensures var next := turn + [AI(reply.text, reply.calls)] + answers;
            BatchDone(turn, reply, face, hasFaq, next, ExitOf(reply, face, hasFaq, next),
                      Ran(reply.calls, hasFaq, reply.outcomes, |answers|))
  {
  }

  lemma {:induction false} NoGateFails(calls: seq<Call>, hasFaq: bool, outcomes: seq<Outcome>, n: nat)
    requires n <= |calls|
    requires forall i :: 0 <= i < n && calls[i].name == "query_faq" && hasFaq ==>
               OutcomeOf(outcomes, i).ok && OutcomeOf(outcomes, i).gate == Passed
    ensures GateAfter(calls, hasFaq, outcomes, n).None?
    ensures forall c :: c in Ran(calls, hasFaq, outcomes, n) <==> HasRunTool(calls, n, c)
  {
    if n > 0 {
      NoGateFails(calls, hasFaq, outcomes, n - 1);
      forall c ensures HasRunTool(calls, n, c) <==>
                       HasRunTool(calls, n - 1, c) || (calls[n - 1] == c && c.name != "suggest_options")
      {
        OneMoreTool(calls, n, c);
      }
    }
  }

  // One of the first n calls, and a tool.
  ghost predicate HasRunTool(calls: seq<Call>, n: nat, c: Call) {
    exists i :: 0 <= i < n && i < |calls| && calls[i] == c && c.name != "suggest_options"
  }

  lemma OneMoreTool(calls: seq<Call>, n: nat, c: Call)
    requires 0 < n <= |calls|
    ensures HasRunTool(calls, n, c) <==>
            HasRunTool(calls, n - 1, c) || (calls[n - 1] == c && c.name != "suggest_options")
  {
  }

  // Behind the first failed gate it stays failed and nothing runs.
  lemma {:induction false} GateStaysFailed(calls: seq<Call>, hasFaq: bool, outcomes: seq<Outcome>, g: nat, n: nat)
    requires g < n <= |calls| && GateAfter(calls, hasFaq, outcomes, g + 1).Some?
    ensures GateAfter(calls, hasFaq, outcomes, n) == GateAfter(calls, hasFaq, outcomes, g + 1)
    ensures Ran(calls, hasFaq, outcomes, n) == Ran(calls, hasFaq, outcomes, g + 1)
    decreases n
  {
    if n > g + 1 {
      GateStaysFailed(calls, hasFaq, outcomes, g, n - 1);
      assert Ran(calls, hasFaq, outcomes, n - 1) + [] == Ran(calls, hasFaq, outcomes, n - 1);
    }
  }

  // A knowledge query that fails, or finds nothing good enough, ends the turn with its fixed answer: what the batch
  // asked for behind it is answered with errors and not run.
  lemma FailedGateEndsTheTurn(turn: seq<Message>, reply: Reply, face: Face, hasFaq: bool, next: seq<Message>,
                              exit: Option<Exit>, ran: seq<Call>, g: nat)
    requires reply.Reply? && g < |reply.calls| && BatchDone(turn, reply, face, hasFaq, next, exit, ran)
    requires reply.calls[g].name == "query_faq" && hasFaq && !IsWrite(reply.calls[g], face)
    requires !OutcomeOf(reply.outcomes, g).ok || OutcomeOf(reply.outcomes, g).gate != Passed
    requires forall i :: 0 <= i < g && reply.calls[i].name == "query_faq" ==>
               OutcomeOf(reply.outcomes, i).ok && OutcomeOf(reply.outcomes, i).gate == Passed
    ensures var o := OutcomeOf(reply.outcomes, g);
            var text := if o.ok && o.gate == LowConfidence then REFUSAL_ANSWER else KB_UNAVAILABLE_ANSWER;
            exit == Some(Finished(next + [AI(text, [])]))
    ensures |next| == |turn| + 1 + |reply.calls| && turn + [AI(reply.text, reply.calls)] <= next
    ensures forall i :: 0 <= i < |reply.calls| ==>
              next[|turn| + 1 + i] == Answer(reply.calls[i].id, i <= g && OutcomeOf(reply.outcomes, i).ok)
    ensures forall c :: c in ran <==> HasRunTool(reply.calls, g + 1, c)
  {
    var calls, outcomes := reply.calls, reply.outcomes;
    NoGateFails(calls, hasFaq, outcomes, g);
    GateStaysFailed(calls, hasFaq, outcomes, g, |calls|);
    if g < |calls| - 1 {
      GateStaysFailed(calls, hasFaq, outcomes, g, |calls| - 1);
    }
    assert Waiting(reply, face, hasFaq) == 0;
    forall c ensures c in ran <==> HasRunTool(calls, g + 1, c) {
      OneMoreTool(calls, g + 1, c);
    }
    forall i | 0 <= i < |calls|
      ensures next[|turn| + 1 + i] == Answer(calls[i].id, i <= g && OutcomeOf(outcomes, i).ok)
    {
      if i <= g {
        NoGateFails(calls, hasFaq, outcomes, i);
      } else {
        GateStaysFailed(calls, hasFaq, outcomes, g, i);
      }
      assert next[|turn| + 1 + i] == AnswerTo(calls, hasFaq, outcomes, i);
    }
  }

  // With every knowledge query passed, each call is answered with its own outcome and run unless it is a suggestion;
  // a write at the end is parked instead, and otherwise the loop goes on.
  lemma PassedGatesGoOn(turn: seq<Message>, reply: Reply, face: Face, hasFaq: bool, next: seq<Message>,
                        exit: Option<Exit>, ran: seq<Call>)
    requires reply.Reply? && reply.calls != [] && BatchDone(turn, reply, face, hasFaq, next, exit, ran)
    requires forall i :: 0 <= i < |reply.calls| && reply.calls[i].name == "query_faq" && hasFaq ==>
               OutcomeOf(reply.outcomes, i).ok && OutcomeOf(reply.outcomes, i).gate == Passed
    ensures var last := reply.calls[|reply.calls| - 1];
            var parks := IsWrite(last, face) && last.name != "suggest_options";
            var n := |reply.calls| - if parks then 1 else 0;
            && exit == (if parks then Some(Parked(next, last)) else None)
            && |next| == |turn| + 1 + n && turn + [AI(reply.text, reply.calls)] <= next
            && (forall i :: 0 <= i < n ==>
                  next[|turn| + 1 + i] == Answer(reply.calls[i].id, OutcomeOf(reply.outcomes, i).ok))
            && (forall c :: c in ran <==> HasRunTool(reply.calls, n, c))
  {
    var calls := reply.calls;
    forall i | 0 <= i <= |calls| ensures GateAfter(calls, hasFaq, reply.outcomes, i).None? {
      NoGateFails(calls, hasFaq, reply.outcomes, i);
    }
    var n := |calls| - Waiting(reply, face, hasFaq);
    NoGateFails(calls, hasFaq, reply.outcomes, n);
    forall i | 0 <= i < n ensures next[|turn| + 1 + i] == Answer(calls[i].id, OutcomeOf(reply.outcomes, i).ok) {
      assert next[|turn| + 1 + i] == AnswerTo(calls, hasFaq, reply.outcomes, i);
    }
  }

  method AnswerBatch(turn: seq<Message>, reply: Reply, face: Face, hasFaq: bool)
    returns (next: seq<Message>, exit: Option<Exit>, ran: seq<Call>, ghost answers: seq<Message>)
    requires reply.Reply? && reply.calls != [] && !BreaksContract(reply.calls, face)
    ensures BatchDone(turn, reply, face, hasFaq, next, exit, ran)
            && next == turn + [AI(reply.text, reply.calls)] + answers
    ensures |answers| == |reply.calls| - Waiting(reply, face, hasFaq) && InCallOrder(reply.calls, answers)
  {
    var replies, parked, failed, executed := AnswerCalls(reply.calls, face, hasFaq, reply.outcomes);
    answers := replies;
    next := turn + [AI(reply.text, reply.calls)] + replies;
    BatchIsDone(turn, reply, face, hasFaq, replies);
    ran := executed;
    exit := None;
    if parked {
      exit := Some(Parked(next, reply.calls[|reply.calls| - 1]));
    } else if failed.Some? {
      exit := Some(Finished(next + [AI(CannedFor(failed.value), [])]));
    }
  }

  method RunLegalBatch(turn: seq<Message>, reply: Reply, face: Face, hasFaq: bool, maxCalls: nat)
    returns (next: seq<Message>, exit: Option<Exit>, ran: seq<Call>)
    requires Answered(turn, maxCalls) && reply.Reply? && reply.calls != [] && LegalCalls(reply.calls, maxCalls)
    requires !BreaksContract(reply.calls, face)
    ensures GoesOn(turn, next, exit, face, maxCalls) && BatchDone(turn, reply, face, hasFaq, next, exit, ran)
  {
    ghost var answers;
    next, exit, ran, answers := AnswerBatch(turn, reply, face, hasFaq);
    BatchGoesOn(turn, reply, face, hasFaq, answers, maxCalls);
  }

  // An illegal batch joins the turn with an error answer for every call, in order.
  ghost predicate Refused(turn: seq<Message>, reply: Reply, next: seq<Message>)
    requires reply.Reply?
  {
    && |next| == |turn| + 1 + |reply.calls| && turn + [AI(reply.text, reply.calls)] <= next
    && forall i :: 0 <= i < |reply.calls| ==> next[|turn| + 1 + i] == Answer(reply.calls[i].id, false)
  }

  method RefuseBatch(turn: seq<Message>, reply: Reply, maxCalls: nat) returns (next: seq<Message>)
    requires Answered(turn, maxCalls) && reply.Reply? && reply.calls != [] && LegalCalls(reply.calls, maxCalls)
    ensures Answered(next, maxCalls) && Refused(turn, reply, next)
  {
    var errors := MarkInvalidBatch(reply.calls);
    AnsweredRound(turn, AI(reply.text, reply.calls), errors, maxCalls);
    return turn + [AI(reply.text, reply.calls)] + errors;
  }

  // One batch of calls: an illegal one is answered with errors and nothing runs; a legal one leaves the turn with every
  // call answered, ended by a failed gate, or waiting for its parked write.
  method RunBatch(turn: seq<Message>, reply: Reply, face: Face, hasFaq: bool, maxCalls: nat)
    returns (next: seq<Message>, exit: Option<Exit>, ran: seq<Call>)
    requires Answered(turn, maxCalls) && reply.Reply? && reply.calls != [] && LegalCalls(reply.calls, maxCalls)
    ensures GoesOn(turn, next, exit, face, maxCalls) && forall c :: c in ran ==> !IsWrite(c, face)
    ensures BreaksContract(reply.calls, face) ==>
              exit.None? && ran == [] && Refused(turn, reply, next)
    ensures !BreaksContract(reply.calls, face) ==> BatchDone(turn, reply, face, hasFaq, next, exit, ran)
  {
    var violated := BatchViolation(reply.calls, face);
    if violated {
      next := RefuseBatch(turn, reply, maxCalls);
      return next, None, [];
    }
    next, exit, ran := RunLegalBatch(turn, reply, face, hasFaq, maxCalls);
    RanReads(reply.calls, face, hasFaq, reply.outcomes,
             |reply.calls| - Waiting(reply, face, hasFaq));
  }

  lemma OpenRound(turn: seq<Message>, ai: Message, answers: seq<Message>, maxCalls: nat)
    requires Answered(turn, maxCalls) && ai.AI? && ai.calls != [] && LegalCalls(ai.calls, maxCalls)
    requires |answers| == |ai.calls| - 1 && InCallOrder(ai.calls, answers)
    ensures AwaitsOne(turn + [ai] + answers, ai.calls[|ai.calls| - 1], maxCalls)
  {
    var open := turn + [ai] + answers;
    assert open[..|turn|] == turn && open[|turn|] == ai && open[|turn| + 1..] == answers;
    assert OpenRoundAt(open, |turn|, ai.calls[|ai.calls| - 1], maxCalls);
  }

  ghost predicate ExitOk(exit: Exit, ms: seq<Message>, face: Face, maxCalls: nat)
    requires ms != []
  {
    match exit
    case Finished(done) => Complete(done, maxCalls) && done[0] == ms[0]
    case Parked(open, pending) =>
      AwaitsOne(open, pending, maxCalls) && IsWrite(pending, face) && open != [] && open[0] == ms[0]
    case Aborted => true
  }

  // ---------------------------------------------------------------- one entry into the loop

  // What a reply without a verdict of its own costs: the reservation made for it.
  function CostOf(reply: Reply, turn: seq<Message>, estimate: seq<Message> -> nat, cfg: Config): nat {
    if reply.Reply? && reply.usage.Some? then reply.usage.value else estimate(turn) + cfg.maxOutputTokens
  }

  // What the replies to these contexts cost together.
  function SpentOn(replies: seq<Reply>, contexts: seq<seq<Message>>, estimate: seq<Message> -> nat, cfg: Config): nat
    requires |contexts| <= |replies|
  {
    if contexts == [] then 0
    else
      var n := |contexts| - 1;
      SpentOn(replies, contexts[..n], estimate, cfg) + CostOf(replies[n], contexts[n], estimate, cfg)
  }

  function VisibleIn(replies: seq<Reply>, n: nat): nat
    requires n <= |replies|
  {
    if n == 0 then 0
    else VisibleIn(replies, n - 1) + if replies[n - 1].Reply? then |replies[n - 1].text| else 0
  }

  // The reply with calls leads from one turn to the next: all of them answered, or refused together.
  ghost predicate Follows(turn: seq<Message>, reply: Reply, next: seq<Message>, face: Face, hasFaq: bool, cfg: Config) {
    && reply.Reply? && !reply.malformed && !reply.cutByLength && reply.calls != []
    && LegalCalls(reply.calls, cfg.maxCalls)
    && if BreaksContract(reply.calls, face) then Refused(turn, reply, next)
       else BatchDone(turn, reply, face, hasFaq, next, None, Ran(reply.calls, hasFaq, reply.outcomes, |reply.calls|))
  }

  // The model is asked once more: a step is left, the context is within the guard, and the reservation fits.
  predicate GoesAhead(turn: seq<Message>, n: nat, spent: nat, estimate: seq<Message> -> nat, cfg: Config) {
    n < cfg.maxSteps && estimate(turn) <= cfg.guardTokens
        && spent + estimate(turn) + cfg.maxOutputTokens <= cfg.maxTokens
  }

  // The model was asked about each of these contexts in turn, beginning with ms; each time there was room for it, and
  // the reply led from that context to the next one, and from the last one to this turn.
  ghost predicate LeadsTo(ms: seq<Message>, replies: seq<Reply>, contexts: seq<seq<Message>>, turn: seq<Message>,
                          face: Face, hasFaq: bool, estimate: seq<Message> -> nat, cfg: Config)
    requires |contexts| <= |replies|
    decreases |contexts|
  {
    if contexts == [] then turn == ms
    else
      var n := |contexts| - 1;
      && LeadsTo(ms, replies, contexts[..n], contexts[n], face, hasFaq, estimate, cfg)
      && GoesAhead(contexts[n], n, SpentOn(replies, contexts[..n], estimate, cfg), estimate, cfg)
      && Follows(contexts[n], replies[n], turn, face, hasFaq, cfg)
  }

  // How the loop ends without asking again: the guard aborts while steps are left; otherwise the budget answer.
  ghost predicate EndsUnasked(exit: Exit, turn: seq<Message>, n: nat, spent: nat, estimate: seq<Message> -> nat,
                              cfg: Config) {
    && !GoesAhead(turn, n, spent, estimate, cfg)
    && exit == if n < cfg.maxSteps && estimate(turn) > cfg.guardTokens then Aborted
               else Finished(turn + [AI(AGENT_BUDGET_ANSWER, [])])
  }

  // The text the model ended with, or the fixed answer for a blank one if there is room for it.
  ghost predicate EndsWithText(exit: Exit, turn: seq<Message>, text: string, visible: nat, cfg: Config) {
    exit == if !Blank(text) then Finished(turn + [AI(Strip(text), [])])
            else if visible + |FALLBACK_ANSWER| > cfg.maxMessageChars then Aborted
            else Finished(turn + [AI(FALLBACK_ANSWER, [])])
  }

  // The batch parks its write, or its knowledge gate has failed.
  ghost predicate EndsWithBatch(exit: Exit, turn: seq<Message>, reply: Reply, face: Face, hasFaq: bool)
    requires reply.Reply? && reply.calls != []
  {
    && !BreaksContract(reply.calls, face)
    && exists next :: BatchDone(turn, reply, face, hasFaq, next, Some(exit), RanBy(reply, face, hasFaq))
  }

  // What one reply runs: nothing of an illegal batch, and never the parked write.
  ghost function RanBy(reply: Reply, face: Face, hasFaq: bool): seq<Call> {
    if !reply.Reply? || reply.calls == [] || BreaksContract(reply.calls, face) then []
    else Ran(reply.calls, hasFaq, reply.outcomes, |reply.calls| - Waiting(reply, face, hasFaq))
  }

  ghost function RanIn(replies: seq<Reply>, face: Face, hasFaq: bool, n: nat): seq<Call>
    requires n <= |replies|
  {
    if n == 0 then [] else RanIn(replies, face, hasFaq, n - 1) + RanBy(replies[n - 1], face, hasFaq)
  }

  lemma {:induction false} RanInReads(replies: seq<Reply>, face: Face, hasFaq: bool, n: nat)
    requires n <= |replies|
    ensures forall c :: c in RanIn(replies, face, hasFaq, n) ==> !IsWrite(c, face)
  {
    if n > 0 {
      RanInReads(replies, face, hasFaq, n - 1);
      RanByReads(replies[n - 1], face, hasFaq);
    }
  }

  lemma RanByReads(reply: Reply, face: Face, hasFaq: bool)
    ensures forall c :: c in RanBy(reply, face, hasFaq) ==> !IsWrite(c, face)
  {
    if reply.Reply? && reply.calls != [] && !BreaksContract(reply.calls, face) {
      RanReads(reply.calls, face, hasFaq, reply.outcomes, |reply.calls| - Waiting(reply, face, hasFaq));
    }
  }

  predicate IsRejected(reply: Reply, visible: nat, cfg: Config) {
    reply.UpstreamError? || visible > cfg.maxMessageChars || reply.cutByLength || reply.malformed
    || !LegalCalls(reply.calls, cfg.maxCalls)
  }

  // How the loop ends with reply n: an error of the model, its final text, or a batch that stops.
  ghost predicate EndsWithReply(exit: Exit, turn: seq<Message>, replies: seq<Reply>, n: nat, face: Face, hasFaq: bool,
                                cfg: Config) {
    if n >= |replies| || IsRejected(replies[n], VisibleIn(replies, n + 1), cfg) then exit == Aborted
    else if replies[n].calls == [] then EndsWithText(exit, turn, replies[n].text, VisibleIn(replies, n + 1), cfg)
    else EndsWithBatch(exit, turn, replies[n], face, hasFaq)
  }

  // The whole entry, which ends with this last turn: asked about once more, and then the reply decides; or not, and
  // then the guard or the budget does.
  ghost predicate IsEntry(ms: seq<Message>, face: Face, hasFaq: bool, replies: seq<Reply>,
                          estimate: seq<Message> -> nat,
                          cfg: Config, contexts: seq<seq<Message>>, last: seq<Message>, asked: bool, exit: Exit) {
    if asked then
      && contexts != [] && contexts[|contexts| - 1] == last && |contexts| - 1 <= |replies|
      && var before := contexts[..|contexts| - 1];
         && LeadsTo(ms, replies, before, last, face, hasFaq, estimate, cfg)
         && GoesAhead(last, |before|, SpentOn(replies, before, estimate, cfg), estimate, cfg)
         && EndsWithReply(exit, last, replies, |before|, face, hasFaq, cfg)
    else
      && |contexts| <= |replies|
      && LeadsTo(ms, replies, contexts, last, face, hasFaq, estimate, cfg)
      && EndsUnasked(exit, last, |contexts|, SpentOn(replies, contexts, estimate, cfg), estimate, cfg)
  }

  // The top of the loop.
  method AtTop(turn: seq<Message>, steps: nat, spent: nat, estimate: seq<Message> -> nat, cfg: Config)
    returns (exit: Option<Exit>)
    requires Answered(turn, cfg.maxCalls)
    ensures exit.None? ==> GoesAhead(turn, steps, spent, estimate, cfg)
    ensures exit.Some? ==> EndsUnasked(exit.value, turn, steps, spent, estimate, cfg)
    ensures exit.Some? && exit.value.Finished? ==> Complete(exit.value.messages, cfg.maxCalls)
    ensures exit.Some? ==> exit.value.Aborted? || (exit.value.Finished? && turn <= exit.value.messages)
  {
    if steps >= cfg.maxSteps {
      return Some(BudgetAnswer(turn, cfg.maxCalls));
    }
    if estimate(turn) > cfg.guardTokens {
      return Some(Aborted);
    }
    if spent + estimate(turn) + cfg.maxOutputTokens > cfg.maxTokens {
      return Some(BudgetAnswer(turn, cfg.maxCalls));
    }
    return None;
  }

  function BudgetAnswer(turn: seq<Message>, ghost maxCalls: nat): (exit: Exit)
    requires Answered(turn, maxCalls)
    ensures exit == Finished(turn + [AI(AGENT_BUDGET_ANSWER, [])]) && Complete(exit.messages, maxCalls)
  {
    CannedAnswersAreNotBlank();
    CompleteWith(turn, AGENT_BUDGET_ANSWER, maxCalls);
    Finished(turn + [AI(AGENT_BUDGET_ANSWER, [])])
  }

  // A reply that came through: the end of the entry, or the next turn.
  method OnReply(turn: seq<Message>, reply: Reply, visible: nat, face: Face, hasFaq: bool, cfg: Config)
    returns (exit: Option<Exit>, next: seq<Message>, ran: seq<Call>)
    requires Answered(turn, cfg.maxCalls) && reply.Reply? && !IsRejected(reply, visible, cfg)
    ensures ran == RanBy(reply, face, hasFaq)
    ensures exit.None? ==> Follows(turn, reply, next, face, hasFaq, cfg)
    ensures exit.Some? ==> ExitOk(exit.value, turn, face, cfg.maxCalls)
    ensures exit.Some? ==> if reply.calls == [] then EndsWithText(exit.value, turn, reply.text, visible, cfg)
                           else EndsWithBatch(exit.value, turn, reply, face, hasFaq)
  {
    if reply.calls == [] {
      var end := FinalAnswer(turn, reply.text, visible, cfg);
      return Some(end), turn, [];
    }
    next, exit, ran := RunBatch(turn, reply, face, hasFaq, cfg.maxCalls);
  }

  // A reply that breaks off is not paid for.
  predicate IsPaid(replies: seq<Reply>, n: nat, cfg: Config) {
    && n < |replies| && replies[n].Reply? && !replies[n].cutByLength
    && VisibleIn(replies, n + 1) <= cfg.maxMessageChars
  }

  // Asking the model once, and acting on what comes back.
  method Consult(turn: seq<Message>, replies: seq<Reply>, n: nat, paid: nat, shown: nat, face: Face, hasFaq: bool,
                 estimate: seq<Message> -> nat, cfg: Config)
    returns (exit: Option<Exit>, next: seq<Message>, ran: seq<Call>, spent: nat, visible: nat)
    requires Answered(turn, cfg.maxCalls) && n <= |replies| && shown == VisibleIn(replies, n)
    ensures exit.Some? ==> ExitOk(exit.value, turn, face, cfg.maxCalls)
                           && EndsWithReply(exit.value, turn, replies, n, face, hasFaq, cfg)
    ensures exit.None? ==>
              && IsPaid(replies, n, cfg) && Follows(turn, replies[n], next, face, hasFaq, cfg)
              && visible == VisibleIn(replies, n + 1)
    ensures spent == paid + if IsPaid(replies, n, cfg) then CostOf(replies[n], turn, estimate, cfg) else 0
    ensures exit == Some(Aborted) ==> ran == []
    ensures exit != Some(Aborted) ==> n < |replies| && ran == RanBy(replies[n], face, hasFaq)
  {
    next, ran, spent, visible := turn, [], paid, shown;
    if n >= |replies| || replies[n].UpstreamError? {
      exit := Some(Aborted);
      return;
    }
    var reply := replies[n];
    visible := visible + |reply.text|;
    if visible > cfg.maxMessageChars || reply.cutByLength {
      exit := Some(Aborted);
      return;
    }
    spent := spent + if reply.usage.Some? then reply.usage.value else estimate(turn) + cfg.maxOutputTokens;
    if reply.malformed || !LegalCalls(reply.calls, cfg.maxCalls) {
      exit := Some(Aborted);
      return;
    }
    exit, next, ran := OnReply(turn, reply, visible, face, hasFaq, cfg);
  }

  lemma LeadsOn(ms: seq<Message>, replies: seq<Reply>, contexts: seq<seq<Message>>, turn: seq<Message>,
                next: seq<Message>, face: Face, hasFaq: bool, estimate: seq<Message> -> nat, cfg: Config)
    requires |contexts| < |replies| && LeadsTo(ms, replies, contexts, turn, face, hasFaq, estimate, cfg)
    requires GoesAhead(turn, |contexts|, SpentOn(replies, contexts, estimate, cfg), estimate, cfg)
    requires Follows(turn, replies[|contexts|], next, face, hasFaq, cfg)
    ensures LeadsTo(ms, replies, contexts + [turn], next, face, hasFaq, estimate, cfg)
  {
    assert (contexts + [turn])[..|contexts|] == contexts;
  }

  lemma OneMorePaid(replies: seq<Reply>, contexts: seq<seq<Message>>, turn: seq<Message>,
                    estimate: seq<Message> -> nat, cfg: Config)
    requires |contexts| < |replies|
    ensures SpentOn(replies, contexts + [turn], estimate, cfg)
            == SpentOn(replies, contexts, estimate, cfg) + CostOf(replies[|contexts|], turn, estimate, cfg)
  {
    assert (contexts + [turn])[..|contexts|] == contexts;
  }

  // Each call fits the limit together with what was spent before, unless the model overdraws its reservation.
  lemma SpentWithin(ms: seq<Message>, replies: seq<Reply>, contexts: seq<seq<Message>>, turn: seq<Message>, face: Face,
                    hasFaq: bool, estimate: seq<Message> -> nat, cfg: Config)
    requires |contexts| <= |replies| && LeadsTo(ms, replies, contexts, turn, face, hasFaq, estimate, cfg)
    requires UsageWithinReserve(replies, contexts, estimate, cfg)
    ensures SpentOn(replies, contexts, estimate, cfg) <= cfg.maxTokens
  {
  }

  // What the loop keeps: how it came to this turn, what was spent and shown, and what the model saw.
  ghost predicate AtTurn(ms: seq<Message>, replies: seq<Reply>, contexts: seq<seq<Message>>, turn: seq<Message>,
                         spent: nat, visible: nat, face: Face, hasFaq: bool, estimate: seq<Message> -> nat,
                             cfg: Config) {
    && |contexts| <= |replies| && |contexts| <= cfg.maxSteps
    && LeadsTo(ms, replies, contexts, turn, face, hasFaq, estimate, cfg)
    && spent == SpentOn(replies, contexts, estimate, cfg) && visible == VisibleIn(replies, |contexts|)
    && Answered(turn, cfg.maxCalls)
  }

  // Answers in order complete the round, whether they come from tools or refuse the batch.
  lemma FollowsOn(turn: seq<Message>, reply: Reply, next: seq<Message>, face: Face, hasFaq: bool, cfg: Config)
    requires Answered(turn, cfg.maxCalls) && Follows(turn, reply, next, face, hasFaq, cfg)
    ensures Answered(next, cfg.maxCalls) && turn <= next
  {
    var ai, answers := AI(reply.text, reply.calls), next[|turn| + 1..];
    assert next[..|turn| + 1] == turn + [ai];
    assert next == turn + [ai] + answers;
    if BreaksContract(reply.calls, face) {
      RefusedInOrder(turn, reply, next);
    } else {
      DoneInOrder(turn, reply, next, face, hasFaq);
    }
    AnsweredRound(turn, ai, answers, cfg.maxCalls);
  }

  lemma RefusedInOrder(turn: seq<Message>, reply: Reply, next: seq<Message>)
    requires reply.Reply? && Refused(turn, reply, next)
    ensures InCallOrder(reply.calls, next[|turn| + 1..])
  {
    var answers := next[|turn| + 1..];
    forall i | 0 <= i < |answers| ensures answers[i].Answer? && answers[i].callId == reply.calls[i].id {
      assert answers[i] == next[|turn| + 1 + i] == Answer(reply.calls[i].id, false);
    }
  }

  lemma DoneInOrder(turn: seq<Message>, reply: Reply, next: seq<Message>, face: Face, hasFaq: bool)
    requires reply.Reply? && reply.calls != []
    requires BatchDone(turn, reply, face, hasFaq, next, None, Ran(reply.calls, hasFaq, reply.outcomes, |reply.calls|))
    ensures |next| == |turn| + 1 + |reply.calls| && InCallOrder(reply.calls, next[|turn| + 1..])
  {
    assert Waiting(reply, face, hasFaq) == 0;
    var answers := next[|turn| + 1..];
    forall i | 0 <= i < |answers| ensures answers[i].Answer? && answers[i].callId == reply.calls[i].id {
      assert answers[i] == next[|turn| + 1 + i] == AnswerTo(reply.calls, hasFaq, reply.outcomes, i);
    }
  }

  lemma {:induction false} Saw(ms: seq<Message>, replies: seq<Reply>, contexts: seq<seq<Message>>, turn: seq<Message>,
                               face: Face, hasFaq: bool, estimate: seq<Message> -> nat, cfg: Config)
    requires Answered(ms, cfg.maxCalls)
    requires |contexts| <= |replies| && LeadsTo(ms, replies, contexts, turn, face, hasFaq, estimate, cfg)
    ensures Answered(turn, cfg.maxCalls) && ms <= turn && SawAnswered(ms, contexts, cfg.maxCalls)
    decreases |contexts|
  {
    if contexts != [] {
      var n := |contexts| - 1;
      Saw(ms, replies, contexts[..n], contexts[n], face, hasFaq, estimate, cfg);
      FollowsOn(contexts[n], replies[n], turn, face, hasFaq, cfg);
      assert forall i :: 0 <= i < n ==> contexts[..n][i] == contexts[i];
    }
  }

  lemma EntrySaw(ms: seq<Message>, face: Face, hasFaq: bool, replies: seq<Reply>, estimate: seq<Message> -> nat,
                 cfg: Config, contexts: seq<seq<Message>>, last: seq<Message>, asked: bool, exit: Exit)
    requires Answered(ms, cfg.maxCalls)
    requires IsEntry(ms, face, hasFaq, replies, estimate, cfg, contexts, last, asked, exit)
    ensures ms <= last && SawAnswered(ms, contexts, cfg.maxCalls)
  {
    if asked {
      var n := |contexts| - 1;
      Saw(ms, replies, contexts[..n], last, face, hasFaq, estimate, cfg);
      assert forall i :: 0 <= i < n ==> contexts[..n][i] == contexts[i];
    } else {
      Saw(ms, replies, contexts, last, face, hasFaq, estimate, cfg);
    }
  }

  ghost predicate SawAnswered(ms: seq<Message>, contexts: seq<seq<Message>>, maxCalls: nat) {
    forall i :: 0 <= i < |contexts| ==> Answered(contexts[i], maxCalls) && ms <= contexts[i]
  }

  ghost predicate PaidFor(replies: seq<Reply>, contexts: seq<seq<Message>>, asked: bool, spent: nat,
                          estimate: seq<Message> -> nat, cfg: Config) {
    && |contexts| - (if asked then 1 else 0) <= |replies| && (asked ==> contexts != [])
    && if asked && !IsPaid(replies, |contexts| - 1, cfg)
       then spent == SpentOn(replies, contexts[..|contexts| - 1], estimate, cfg)
       else |contexts| <= |replies| && spent == SpentOn(replies, contexts, estimate, cfg)
  }

  lemma PaidOnEnd(replies: seq<Reply>, before: seq<seq<Message>>, turn: seq<Message>, paid: nat, spent: nat,
                  estimate: seq<Message> -> nat, cfg: Config)
    requires |before| <= |replies| && paid == SpentOn(replies, before, estimate, cfg)
    requires spent == paid + if IsPaid(replies, |before|, cfg)
            then CostOf(replies[|before|], turn, estimate, cfg) else 0
    ensures PaidFor(replies, before + [turn], true, spent, estimate, cfg)
  {
    assert (before + [turn])[..|before|] == before;
    if IsPaid(replies, |before|, cfg) {
      OneMorePaid(replies, before, turn, estimate, cfg);
    }
  }

  lemma NextTurn(ms: seq<Message>, replies: seq<Reply>, before: seq<seq<Message>>, turn: seq<Message>,
                 next: seq<Message>,
                 spent: nat, visible: nat, face: Face, hasFaq: bool, estimate: seq<Message> -> nat, cfg: Config)
    requires AtTurn(ms, replies, before, turn, spent, visible, face, hasFaq, estimate, cfg) && |before| < |replies|
    requires GoesAhead(turn, |before|, spent, estimate, cfg) && IsPaid(replies, |before|, cfg)
    requires Follows(turn, replies[|before|], next, face, hasFaq, cfg)
    ensures AtTurn(ms, replies, before + [turn], next, spent + CostOf(replies[|before|], turn, estimate, cfg),
                   VisibleIn(replies, |before| + 1), face, hasFaq, estimate, cfg)
  {
    LeadsOn(ms, replies, before, turn, next, face, hasFaq, estimate, cfg);
    FollowsOn(turn, replies[|before|], next, face, hasFaq, cfg);
    OneMorePaid(replies, before, turn, estimate, cfg);
  }

  lemma EndsAtTop(ms: seq<Message>, replies: seq<Reply>, contexts: seq<seq<Message>>, turn: seq<Message>, spent: nat,
                  visible: nat, face: Face, hasFaq: bool, estimate: seq<Message> -> nat, cfg: Config, exit: Exit)
    requires AtTurn(ms, replies, contexts, turn, spent, visible, face, hasFaq, estimate, cfg)
    requires EndsUnasked(exit, turn, |contexts|, spent, estimate, cfg)
    ensures IsEntry(ms, face, hasFaq, replies, estimate, cfg, contexts, turn, false, exit)
    ensures PaidFor(replies, contexts, false, spent, estimate, cfg)
  {
  }

  lemma EndsInReply(ms: seq<Message>, replies: seq<Reply>, before: seq<seq<Message>>, last: seq<Message>, paid: nat,
                    spent: nat, visible: nat, face: Face, hasFaq: bool, estimate: seq<Message> -> nat, cfg: Config,
                    exit: Exit)
    requires AtTurn(ms, replies, before, last, paid, visible, face, hasFaq, estimate, cfg)
    requires GoesAhead(last, |before|, paid, estimate, cfg)
    requires EndsWithReply(exit, last, replies, |before|, face, hasFaq, cfg)
    requires spent == paid + if IsPaid(replies, |before|, cfg)
            then CostOf(replies[|before|], last, estimate, cfg) else 0
    ensures IsEntry(ms, face, hasFaq, replies, estimate, cfg, before + [last], last, true, exit)
    ensures PaidFor(replies, before + [last], true, spent, estimate, cfg)
  {
    assert (before + [last])[..|before|] == before;
    PaidOnEnd(replies, before, last, paid, spent, estimate, cfg);
  }

  // What has run when the entry ends: everything the replies asked for, but nothing of a reply it aborts on.
  ghost predicate HasRun(executed: seq<Call>, replies: seq<Reply>, contexts: seq<seq<Message>>, asked: bool, exit: Exit,
                         face: Face, hasFaq: bool) {
    var n := |contexts| - if asked && exit.Aborted? then 1 else 0;
    0 <= n <= |replies| && executed == RanIn(replies, face, hasFaq, n)
  }

  // One round of the loop.
  method Round(ghost ms: seq<Message>, replies: seq<Reply>, contexts: seq<seq<Message>>, turn: seq<Message>,
               done: seq<Call>, paid: nat, shown: nat, face: Face, hasFaq: bool,
                   estimate: seq<Message> -> nat, cfg: Config)
    returns (exit: Option<Exit>, seen: seq<seq<Message>>, next: seq<Message>, executed: seq<Call>, spent: nat,
             visible: nat, ghost asked: bool)
    requires AtTurn(ms, replies, contexts, turn, paid, shown, face, hasFaq, estimate, cfg)
    requires done == RanIn(replies, face, hasFaq, |contexts|)
    ensures |seen| <= cfg.maxSteps && |contexts| <= |seen|
    ensures exit.None? ==> AtTurn(ms, replies, seen, next, spent, visible, face, hasFaq, estimate, cfg)
    ensures exit.None? ==> |contexts| < |seen| && executed == RanIn(replies, face, hasFaq, |seen|)
    ensures exit.Some? ==> IsEntry(ms, face, hasFaq, replies, estimate, cfg, seen, turn, asked, exit.value)
    ensures exit.Some? ==> ExitOk(exit.value, turn, face, cfg.maxCalls)
    ensures exit.Some? ==> PaidFor(replies, seen, asked, spent, estimate, cfg)
    ensures exit.Some? ==> HasRun(executed, replies, seen, asked, exit.value, face, hasFaq)
  {
    seen, next, executed, spent, visible, asked := contexts, turn, done, paid, shown, false;
    exit := AtTop(turn, |contexts|, spent, estimate, cfg);
    if exit.Some? {
      EndsAtTop(ms, replies, contexts, turn, paid, shown, face, hasFaq, estimate, cfg, exit.value);
      return;
    }
    seen, asked := contexts + [turn], true;
    exit, next, executed, spent,
        visible := Ask(ms, replies, contexts, turn, done, paid, shown, face, hasFaq, estimate, cfg);
  }

  lemma RanWithReply(done: seq<Call>, ran: seq<Call>, replies: seq<Reply>, contexts: seq<seq<Message>>,
                     turn: seq<Message>, exit: Option<Exit>, face: Face, hasFaq: bool)
    requires |contexts| <= |replies| && done == RanIn(replies, face, hasFaq, |contexts|)
    requires if exit == Some(Aborted) then ran == []
             else |contexts| < |replies| && ran == RanBy(replies[|contexts|], face, hasFaq)
    ensures exit.None? ==> done + ran == RanIn(replies, face, hasFaq, |contexts| + 1)
    ensures exit.Some? ==> HasRun(done + ran, replies, contexts + [turn], true, exit.value, face, hasFaq)
  {
    var n, seen := |contexts|, contexts + [turn];
    assert |seen| == n + 1;
    if exit == Some(Aborted) {
      assert done + ran == done;
    } else {
      RanMore(replies, face, hasFaq, n, done, ran);
    }
  }

  lemma RanMore(replies: seq<Reply>, face: Face, hasFaq: bool, n: nat, done: seq<Call>, ran: seq<Call>)
    requires n < |replies| && done == RanIn(replies, face, hasFaq, n) && ran == RanBy(replies[n], face, hasFaq)
    ensures done + ran == RanIn(replies, face, hasFaq, n + 1)
  {
  }

  // The part of a round in which the model is asked.
  method Ask(ghost ms: seq<Message>, replies: seq<Reply>, contexts: seq<seq<Message>>, turn: seq<Message>,
             done: seq<Call>, paid: nat, shown: nat, face: Face, hasFaq: bool, estimate: seq<Message> -> nat,
                 cfg: Config)
    returns (exit: Option<Exit>, next: seq<Message>, executed: seq<Call>, spent: nat, visible: nat)
    requires AtTurn(ms, replies, contexts, turn, paid, shown, face, hasFaq, estimate, cfg)
    requires done == RanIn(replies, face, hasFaq, |contexts|) && GoesAhead(turn, |contexts|, paid, estimate, cfg)
    ensures exit.None? ==> AtTurn(ms, replies, contexts + [turn], next, spent, visible, face, hasFaq, estimate, cfg)
    ensures exit.None? ==> executed == RanIn(replies, face, hasFaq, |contexts| + 1)
    ensures exit.Some? ==> IsEntry(ms, face, hasFaq, replies, estimate, cfg, contexts + [turn], turn, true, exit.value)
    ensures exit.Some? ==> ExitOk(exit.value, turn, face, cfg.maxCalls)
    ensures exit.Some? ==> PaidFor(replies, contexts + [turn], true, spent, estimate, cfg)
    ensures exit.Some? ==> HasRun(executed, replies, contexts + [turn], true, exit.value, face, hasFaq)
  {
    var ran;
    exit, next, ran, spent, visible := Consult(turn, replies, |contexts|, paid, shown, face, hasFaq, estimate, cfg);
    executed := done + ran;
    RanWithReply(done, ran, replies, contexts, turn, exit, face, hasFaq);
    if exit.Some? {
      EndsInReply(ms, replies, contexts, turn, paid, spent, shown, face, hasFaq, estimate, cfg, exit.value);
    } else {
      NextTurn(ms, replies, contexts, turn, next, paid, shown, face, hasFaq, estimate, cfg);
    }
  }

  // One entry into the agent loop. The model sees fully answered contexts, the first as given and each later one made
  // from the one before by its own reply; no write runs; steps and spending hold per entry; and the exit is what the
  // last reply, or the budget, demands.
  method MainAgent(ms: seq<Message>, face: Face, hasFaq: bool, replies: seq<Reply>, estimate: seq<Message> -> nat,
                   cfg: Config)
    returns (exit: Exit, contexts: seq<seq<Message>>, executed: seq<Call>, spent: nat, ghost last: seq<Message>,
             ghost asked: bool)
    requires Answered(ms, cfg.maxCalls)
    ensures IsEntry(ms, face, hasFaq, replies, estimate, cfg, contexts, last, asked, exit)
    ensures ExitOk(exit, last, face, cfg.maxCalls) && ms <= last
    ensures |contexts| <= cfg.maxSteps && SawAnswered(ms, contexts, cfg.maxCalls)
    ensures HasRun(executed, replies, contexts, asked, exit, face, hasFaq)
    ensures forall c :: c in executed ==> !IsWrite(c, face)
    ensures PaidFor(replies, contexts, asked, spent, estimate, cfg)
    ensures UsageWithinReserve(replies, contexts, estimate, cfg) ==> spent <= cfg.maxTokens
  {
    exit, contexts, executed, spent, last, asked := MainLoop(ms, face, hasFaq, replies, estimate, cfg);
    EntrySaw(ms, face, hasFaq, replies, estimate, cfg, contexts, last, asked, exit);
    RanInReads(replies, face, hasFaq, |contexts| - if asked && exit.Aborted? then 1 else 0);
    if UsageWithinReserve(replies, contexts, estimate, cfg) {
      PaidWithin(ms, face, hasFaq, replies, estimate, cfg, contexts, last, asked, exit, spent);
    }
  }

  lemma PaidWithin(ms: seq<Message>, face: Face, hasFaq: bool, replies: seq<Reply>, estimate: seq<Message> -> nat,
                   cfg: Config, contexts: seq<seq<Message>>, last: seq<Message>, asked: bool, exit: Exit, spent: nat)
    requires IsEntry(ms, face, hasFaq, replies, estimate, cfg, contexts, last, asked, exit)
    requires PaidFor(replies, contexts, asked, spent, estimate, cfg)
    requires UsageWithinReserve(replies, contexts, estimate, cfg)
    ensures spent <= cfg.maxTokens
  {
    var before := if asked then contexts[..|contexts| - 1] else contexts;
    assert UsageWithinReserve(replies, before, estimate, cfg);
    SpentWithin(ms, replies, before, last, face, hasFaq, estimate, cfg);
    if asked && IsPaid(replies, |before|, cfg) {
      assert contexts == before + [last];
      OneMorePaid(replies, before, last, estimate, cfg);
    }
  }

  method MainLoop(ms: seq<Message>, face: Face, hasFaq: bool, replies: seq<Reply>, estimate: seq<Message> -> nat,
                  cfg: Config)
    returns (exit: Exit, contexts: seq<seq<Message>>, executed: seq<Call>, spent: nat, ghost last: seq<Message>,
             ghost asked: bool)
    requires Answered(ms, cfg.maxCalls)
    ensures IsEntry(ms, face, hasFaq, replies, estimate, cfg, contexts, last, asked, exit)
    ensures ExitOk(exit, last, face, cfg.maxCalls) && |contexts| <= cfg.maxSteps
    ensures HasRun(executed, replies, contexts, asked, exit, face, hasFaq)
    ensures PaidFor(replies, contexts, asked, spent, estimate, cfg)
  {
    var turn, ended := ms, None;
    var visible: nat := 0;
    contexts, executed, spent := [], [], 0;
    while true
      invariant AtTurn(ms, replies, contexts, turn, spent, visible, face, hasFaq, estimate, cfg)
      invariant executed == RanIn(replies, face, hasFaq, |contexts|)
      decreases cfg.maxSteps - |contexts|
    {
      var next;
      ended, contexts, next, executed, spent, visible, asked :=
        Round(ms, replies, contexts, turn, executed, spent, visible, face, hasFaq, estimate, cfg);
      if ended.Some? {
        exit, last := ended.value, turn;
        return;
      }
      turn := next;
    }
  }

  // A reply without calls ends the turn: its stripped text, or a fixed answer when it is blank.
  method FinalAnswer(turn: seq<Message>, text: string, visible: nat, cfg: Config) returns (exit: Exit)
    requires Answered(turn, cfg.maxCalls)
    ensures exit == (if !Blank(text) then Finished(turn + [AI(Strip(text), [])])
                     else if visible + |FALLBACK_ANSWER| > cfg.maxMessageChars then Aborted
                     else Finished(turn + [AI(FALLBACK_ANSWER, [])]))
    ensures exit.Finished? ==> Complete(exit.messages, cfg.maxCalls)
  {
    StripBlank(text);
    CannedAnswersAreNotBlank();
    var final := Strip(text);
    if final == "" {
      if visible + |FALLBACK_ANSWER| > cfg.maxMessageChars {
        return Aborted;
      }
      final := FALLBACK_ANSWER;
    }
    CompleteWith(turn, final, cfg.maxCalls);
    return Finished(turn + [AI(final, [])]);
  }

  // ---------------------------------------------------------------- confirmation

  // Confirm or cancel: either way the pending call gets exactly one answer.
  lemma ConfirmationCompletesTheRound(ms: seq<Message>, pending: Call, ok: bool, maxCalls: nat)
    requires AwaitsOne(ms, pending, maxCalls)
    ensures Answered(ms + [Answer(pending.id, ok)], maxCalls) && (ms + [Answer(pending.id, ok)])[0] == ms[0]
  {
    var k: nat :| OpenRoundAt(ms, k, pending, maxCalls);
    LastAnswer(ms[k].calls, ms[k + 1..], ok);
    AnsweredRound(ms[..k], ms[k], ms[k + 1..] + [Answer(pending.id, ok)], maxCalls);
    Reassemble(ms, k, Answer(pending.id, ok));
  }

  lemma LastAnswer(calls: seq<Call>, answers: seq<Message>, ok: bool)
    requires calls != [] && InCallOrder(calls, answers) && |answers| == |calls| - 1
    ensures InCallOrder(calls, answers + [Answer(calls[|calls| - 1].id, ok)])
  {
  }

  lemma Reassemble(ms: seq<Message>, k: nat, last: Message)
    requires k < |ms|
    ensures ms[..k] + [ms[k]] + (ms[k + 1..] + [last]) == ms + [last]
  {
  }

  datatype Entry = Entry(replies: seq<Reply>, confirmed: bool, writeOk: bool)

  datatype TurnResult = Logged(messages: seq<Message>, rows: seq<StoredMessage>) | Suspended | Failed

  // How one entry may end, whatever the model was shown on the way.
  ghost predicate MayEnd(ms: seq<Message>, face: Face, hasFaq: bool, replies: seq<Reply>, estimate: seq<Message> -> nat,
                         cfg: Config, exit: Exit) {
    exists contexts, last, asked :: IsEntry(ms, face, hasFaq, replies, estimate, cfg, contexts, last, asked, exit)
  }

  // Entry by entry: the first begins with the question, and each later one with the turn the one before parked and the
  // answer to its pending write, which succeeded only if the user confirmed it and the write did.
  ghost predicate AreEntries(question: string, face: Face, hasFaq: bool, entries: seq<Entry>,
                             estimate: seq<Message> -> nat, cfg: Config, starts: seq<seq<Message>>, exits: seq<Exit>) {
    && |exits| <= |starts| <= |exits| + 1 && |exits| <= |entries| && starts != [] && starts[0] == [Human(question)]
    && (forall i :: 0 <= i < |exits| ==> MayEnd(starts[i], face, hasFaq, entries[i].replies, estimate, cfg, exits[i]))
    && forall i :: 0 < i < |starts| ==> Resumes(exits[i - 1], entries[i - 1], starts[i])
  }

  ghost predicate Resumes(exit: Exit, entry: Entry, start: seq<Message>) {
    exit.Parked? && start == exit.messages + [Answer(exit.pending.id, entry.confirmed && entry.writeOk)]
  }

  // The whole turn: the agent is re-entered after each confirmation until it finishes; what is logged is complete, is
  // what the last entry ended with, and its rows pass the ledger's check.
  method RunTurn(question: string, face: Face, hasFaq: bool, entries: seq<Entry>, estimate: seq<Message> -> nat,
                 cfg: Config)
    returns (r: TurnResult, ghost starts: seq<seq<Message>>, ghost exits: seq<Exit>)
    requires !Blank(question) && cfg.maxCalls <= 64
    ensures AreEntries(question, face, hasFaq, entries, estimate, cfg, starts, exits)
    ensures r.Logged? ==> exits != [] && exits[|exits| - 1] == Finished(r.messages)
    ensures r.Failed? ==> exits != [] && exits[|exits| - 1] == Aborted
    ensures r.Suspended? ==> |exits| == |entries| && |starts| == |entries| + 1
    ensures r.Logged? ==> Complete(r.messages, cfg.maxCalls) && r.messages[0] == Human(question)
    ensures r.Logged? ==> r.rows == Stored(r.messages) && ValidTurn(r.rows, 64)
  {
    var ms := [Human(question)];
    assert ms[1..] == [];
    starts, exits := [ms], [];
    for i := 0 to |entries|
      invariant Answered(ms, cfg.maxCalls) && ms[0] == Human(question)
      invariant |exits| == i && |starts| == i + 1 && starts[i] == ms
      invariant AreEntries(question, face, hasFaq, entries, estimate, cfg, starts, exits)
    {
      var exit := Enter(ms, face, hasFaq, entries[i].replies, estimate, cfg);
      MoreExits(question, face, hasFaq, entries, estimate, cfg, starts, exits, exit);
      exits := exits + [exit];
      match exit {
        case Aborted => return Failed, starts, exits;
        case Finished(done) =>
          var rows := LogRows(done, cfg.maxCalls);
          return Logged(done, rows), starts, exits;
        case Parked(open, pending) =>
          ms := Resume(open, pending, entries[i], cfg.maxCalls);
          MoreStarts(question, face, hasFaq, entries, estimate, cfg, starts, exits, ms);
          starts := starts + [ms];
      }
    }
    return Suspended, starts, exits;
  }

  method Enter(ms: seq<Message>, face: Face, hasFaq: bool, replies: seq<Reply>, estimate: seq<Message> -> nat,
               cfg: Config)
    returns (exit: Exit)
    requires Answered(ms, cfg.maxCalls)
    ensures MayEnd(ms, face, hasFaq, replies, estimate, cfg, exit) && ExitOk(exit, ms, face, cfg.maxCalls)
  {
    var contexts, executed, spent;
    ghost var last, asked;
    exit, contexts, executed, spent, last, asked := MainAgent(ms, face, hasFaq, replies, estimate, cfg);
    assert last[0] == ms[0];
  }

  method LogRows(done: seq<Message>, maxCalls: nat) returns (rows: seq<StoredMessage>)
    requires Complete(done, maxCalls) && maxCalls <= 64 && done[0].Human? && !Blank(done[0].text)
    ensures rows == Stored(done) && ValidTurn(rows, 64)
  {
    StoredIsValidIff(done, maxCalls, 64);
    FewCallsFit(done, maxCalls, 64);
    var indexes;
    rows, indexes := ToStored(done);
  }

  // The pending call gets its one answer.
  method Resume(open: seq<Message>, pending: Call, entry: Entry, maxCalls: nat) returns (ms: seq<Message>)
    requires AwaitsOne(open, pending, maxCalls)
    ensures ms == open + [Answer(pending.id, entry.confirmed && entry.writeOk)]
    ensures Answered(ms, maxCalls) && ms[0] == open[0]
  {
    var ok := entry.confirmed && entry.writeOk;
    ConfirmationCompletesTheRound(open, pending, ok, maxCalls);
    ms := open + [Answer(pending.id, ok)];
  }

  lemma MoreExits(question: string, face: Face, hasFaq: bool, entries: seq<Entry>, estimate: seq<Message> -> nat,
                  cfg: Config, starts: seq<seq<Message>>, exits: seq<Exit>, exit: Exit)
    requires AreEntries(question, face, hasFaq, entries, estimate, cfg, starts, exits)
    requires |starts| == |exits| + 1 && |exits| < |entries|
    requires MayEnd(starts[|exits|], face, hasFaq, entries[|exits|].replies, estimate, cfg, exit)
    ensures AreEntries(question, face, hasFaq, entries, estimate, cfg, starts, exits + [exit])
  {
  }

  lemma MoreStarts(question: string, face: Face, hasFaq: bool, entries: seq<Entry>, estimate: seq<Message> -> nat,
                   cfg: Config, starts: seq<seq<Message>>, exits: seq<Exit>, start: seq<Message>)
    requires AreEntries(question, face, hasFaq, entries, estimate, cfg, starts, exits)
    requires |starts| == |exits| && Resumes(exits[|exits| - 1], entries[|exits| - 1], start)
    ensures AreEntries(question, face, hasFaq, entries, estimate, cfg, starts + [start], exits)
  {
  }

  // ---------------------------------------------------------------- the rows of a turn

  function Ids(calls: seq<Call>): (r: seq<string>)
    ensures |r| == |calls| && forall i :: 0 <= i < |calls| ==> r[i] == calls[i].id
  {
    seq(|calls|, i requires 0 <= i < |calls| => calls[i].id)
  }

  // Tool answers are not persisted; an empty text or call list is stored as NULL.
  function StoredRow(m: Message): StoredMessage
    requires !m.Answer?
  {
    match m
    case Human(text) => StoredMessage(User, Some(text), None)
    case AI(text, calls) =>
      StoredMessage(Assistant, if text == "" then None else Some(text), if calls == [] then None else Some(Ids(calls)))
  }

  function Stored(ms: seq<Message>): seq<StoredMessage> {
    if ms == [] then []
    else Stored(ms[..|ms| - 1]) + if ms[|ms| - 1].Answer? then [] else [StoredRow(ms[|ms| - 1])]
  }

  // A row says who spoke, what was said and which calls were made, with nothing for an empty text or no calls.
  lemma RowKeepsItsMessage(m: Message)
    requires !m.Answer?
    ensures var row := StoredRow(m);
            && row.role == (if m.Human? then User else Assistant)
            && (if row.content.Some? then row.content.value else "") == m.text
            && (m.AI? && row.content.Some? ==> row.content.value != "")
            && (m.Human? ==> row.content.Some? && row.toolCalls.None?)
            && (row.toolCalls.Some? <==> m.AI? && m.calls != [])
            && (row.toolCalls.Some? ==>
                  && |row.toolCalls.value| == |m.calls|
                  && forall i :: 0 <= i < |m.calls| ==> row.toolCalls.value[i] == m.calls[i].id)
  {
  }

  // Row k of a turn was made from message i.
  ghost predicate IsRowOf(ms: seq<Message>, k: nat, row: StoredMessage, i: nat) {
    i < |ms| && !ms[i].Answer? && row == StoredRow(ms[i]) && |Stored(ms[..i])| == k
  }

  method ToStored(ms: seq<Message>) returns (rows: seq<StoredMessage>, indexes: seq<nat>)
    ensures rows == Stored(ms) && |indexes| == |rows|
    ensures forall k :: 0 <= k < |indexes| ==> IsRowOf(ms, k, rows[k], indexes[k])
    ensures forall k, l :: 0 <= k < l < |indexes| ==> indexes[k] < indexes[l]
    ensures forall i :: 0 <= i < |ms| && !ms[i].Answer? ==> i in indexes
  {
    rows, indexes := [], [];
    for i := 0 to |ms|
      invariant rows == Stored(ms[..i]) && |indexes| == |rows|
      invariant forall k :: 0 <= k < |indexes| ==> indexes[k] < i && IsRowOf(ms, k, rows[k], indexes[k])
      invariant forall k, l :: 0 <= k < l < |indexes| ==> indexes[k] < indexes[l]
      invariant forall j :: 0 <= j < i && !ms[j].Answer? ==> j in indexes
    {
      assert ms[..i + 1][..i] == ms[..i];
      if !ms[i].Answer? {
        assert IsRowOf(ms, |rows|, StoredRow(ms[i]), i);
        rows := rows + [StoredRow(ms[i])];
        indexes := indexes + [i];
      }
    }
    assert ms[..|ms|] == ms;
  }

  ghost predicate CallsAtMost(ms: seq<Message>, limit: nat) {
    forall i :: 0 <= i < |ms| && ms[i].AI? ==> |ms[i].calls| <= limit
  }

  lemma {:induction false} StoredConcat(a: seq<Message>, b: seq<Message>)
    ensures Stored(a + b) == Stored(a) + Stored(b)
  {
    if b == [] {
      assert a + b == a;
    } else {
      StoredConcat(a, b[..|b| - 1]);
      assert (a + b)[..|a + b| - 1] == a + b[..|b| - 1];
    }
  }

  lemma {:induction false} StoredAnswers(ms: seq<Message>)
    requires forall i :: 0 <= i < |ms| ==> ms[i].Answer?
    ensures Stored(ms) == []
  {
    if ms != [] {
      StoredAnswers(ms[..|ms| - 1]);
    }
  }

  ghost predicate AllToolSteps(rows: seq<StoredMessage>, limit: nat) {
    forall i :: 0 <= i < |rows| ==> IsToolStep(rows[i], limit)
  }

  lemma CallsAtMostSplit(a: seq<Message>, b: seq<Message>, limit: nat)
    ensures CallsAtMost(a + b, limit) <==> CallsAtMost(a, limit) && CallsAtMost(b, limit)
  {
    var ms := a + b;
    assert forall i :: 0 <= i < |a| ==> ms[i] == a[i];
    assert forall i :: 0 <= i < |b| ==> ms[|a| + i] == b[i];
  }

  lemma ToolStepsSplit(a: seq<StoredMessage>, b: seq<StoredMessage>, limit: nat)
    ensures AllToolSteps(a + b, limit) <==> AllToolSteps(a, limit) && AllToolSteps(b, limit)
  {
    var rows := a + b;
    assert forall i :: 0 <= i < |a| ==> rows[i] == a[i];
    assert forall i :: 0 <= i < |b| ==> rows[|a| + i] == b[i];
  }

  // A round is stored as one tool-step row, legal exactly when the round did not make too many calls.
  lemma StoredRound(r: seq<Message>, maxCalls: nat, limit: nat)
    requires IsRound(r, maxCalls)
    ensures AllToolSteps(Stored(r), limit) <==> CallsAtMost(r, limit)
  {
    RoundIsOneRow(r, maxCalls);
    RoundRow(r[0], maxCalls, limit);
    assert AllToolSteps(Stored(r), limit) <==> IsToolStep(Stored(r)[0], limit);
    assert forall i :: 1 <= i < |r| ==> r[i] == r[1..][i - 1];
  }

  lemma RoundIsOneRow(r: seq<Message>, maxCalls: nat)
    requires IsRound(r, maxCalls)
    ensures Stored(r) == [StoredRow(r[0])]
  {
    assert r == [r[0]] + r[1..];
    StoredAnswers(r[1..]);
    StoredConcat([r[0]], r[1..]);
    assert Stored([r[0]]) == [StoredRow(r[0])];
  }

  lemma RoundRow(m: Message, maxCalls: nat, limit: nat)
    requires m.AI? && m.calls != [] && LegalCalls(m.calls, maxCalls)
    ensures IsToolStep(StoredRow(m), limit) <==> |m.calls| <= limit
  {
    assert forall i :: 0 <= i < |m.calls| ==> StoredRow(m).toolCalls.value[i] == m.calls[i].id;
  }

  lemma {:induction false} StoredRounds(ms: seq<Message>, maxCalls: nat, limit: nat)
    requires Rounds(ms, maxCalls)
    ensures AllToolSteps(Stored(ms), limit) <==> CallsAtMost(ms, limit)
    ensures CallsAtMost(ms, maxCalls)
  {
    if ms != [] {
      var r, rest := ms[..RoundLength(ms)], ms[RoundLength(ms)..];
      assert ms == r + rest;
      StoredRounds(rest, maxCalls, limit);
      StoredRound(r, maxCalls, limit);
      StoredConcat(r, rest);
      CallsAtMostSplit(r, rest, limit);
      CallsAtMostSplit(r, rest, maxCalls);
      ToolStepsSplit(Stored(r), Stored(rest), limit);
      assert forall i :: 1 <= i < |r| ==> r[i] == r[1..][i - 1];
    }
  }

  lemma CompleteParts(ms: seq<Message>, maxCalls: nat)
    requires Complete(ms, maxCalls)
    ensures var rounds := ms[1..|ms| - 1];
            && Rounds(rounds, maxCalls) && ms == [ms[0]] + (rounds + [ms[|ms| - 1]])
            && Stored(ms) == [StoredRow(ms[0])] + (Stored(rounds) + [StoredRow(ms[|ms| - 1])])
  {
    var n := |ms| - 1;
    var rounds := ms[1..n];
    assert ms[..n][1..] == rounds;
    StoredConcat([ms[0]], rounds + [ms[n]]);
    StoredConcat(rounds, [ms[n]]);
    assert Stored([ms[0]]) == [StoredRow(ms[0])] && Stored([ms[n]]) == [StoredRow(ms[n])];
    assert ms == [ms[0]] + (rounds + [ms[n]]);
  }

  lemma CompleteCallsAtMost(ms: seq<Message>, maxCalls: nat, limit: nat)
    requires Complete(ms, maxCalls)
    ensures CallsAtMost(ms, limit) <==> CallsAtMost(ms[1..|ms| - 1], limit)
  {
    var n := |ms| - 1;
    CompleteParts(ms, maxCalls);
    CallsAtMostSplit([ms[0]], ms[1..n] + [ms[n]], limit);
    CallsAtMostSplit(ms[1..n], [ms[n]], limit);
  }

  lemma TurnOfRows(first: StoredMessage, middle: seq<StoredMessage>, last: StoredMessage, limit: nat)
    requires first.role == User && HasText(first) && last.role == Assistant && HasText(last)
    ensures ValidTurn([first] + (middle + [last]), limit) <==> AllToolSteps(middle, limit)
  {
    var rows := [first] + (middle + [last]);
    assert forall i :: 0 <= i < |middle| ==> rows[i + 1] == middle[i];
    if ValidTurn(rows, limit) {
      forall i | 0 <= i < |middle| ensures IsToolStep(middle[i], limit) {
        assert IsToolStep(rows[i + 1], limit);
      }
    } else if AllToolSteps(middle, limit) {
      forall i | 1 <= i < |rows| - 1 ensures IsToolStep(rows[i], limit) {
        assert rows[i] == middle[i - 1];
      }
    }
  }

  // The ledger accepts the rows of a complete turn exactly when no round made more calls than the ledger allows.
  lemma StoredIsValidIff(ms: seq<Message>, maxCalls: nat, limit: nat)
    requires Complete(ms, maxCalls) && !Blank(ms[0].text)
    ensures ValidTurn(Stored(ms), limit) <==> CallsAtMost(ms, limit)
  {
    var n := |ms| - 1;
    CompleteParts(ms, maxCalls);
    CompleteCallsAtMost(ms, maxCalls, limit);
    StoredRounds(ms[1..n], maxCalls, limit);
    TurnOfRows(StoredRow(ms[0]), Stored(ms[1..n]), StoredRow(ms[n]), limit);
  }

  lemma FewCallsFit(ms: seq<Message>, maxCalls: nat, limit: nat)
    requires Complete(ms, maxCalls) && maxCalls <= limit
    ensures CallsAtMost(ms, limit)
  {
    CompleteParts(ms, maxCalls);
    CompleteCallsAtMost(ms, maxCalls, limit);
    StoredRounds(ms[1..|ms| - 1], maxCalls, limit);
  }
}
