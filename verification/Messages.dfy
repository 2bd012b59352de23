/** Rows of the message ledger and the structural check every committed turn passes
    (app/sessions.py, app/models.py). */
module Messages {
  import opened Basics

  const MAX_CALL_ID_CHARS := 64

  datatype Role = User | Assistant | Tool

  // An assistant row carries the ids of the tool calls it made; None is SQL NULL.
  datatype StoredMessage = StoredMessage(role: Role, content: Option<string>, toolCalls: Option<seq<string>>)

  predicate HasText(m: StoredMessage) {
    m.content.Some? && !Blank(m.content.value)
  }

  predicate LegalCallId(id: string) {
    0 < |id| <= MAX_CALL_ID_CHARS
  }

  // A middle row of a turn: an assistant row that called between one and maxCalls tools.
  predicate IsToolStep(m: StoredMessage, maxCalls: nat) {
    && m.role == Assistant
    && m.toolCalls.Some?
    && 0 < |m.toolCalls.value| <= maxCalls
    && forall i :: 0 <= i < |m.toolCalls.value| ==> LegalCallId(m.toolCalls.value[i])
  }

  predicate ValidTurn(messages: seq<StoredMessage>, maxCalls: nat) {
    && |messages| >= 2
    && messages[0].role == User && HasText(messages[0])
    && messages[|messages| - 1].role == Assistant && HasText(messages[|messages| - 1])
    && forall i :: 1 <= i < |messages| - 1 ==> IsToolStep(messages[i], maxCalls)
  }

  method ValidateTurn(messages: seq<StoredMessage>, maxCalls: nat) returns (ok: bool)
    ensures ok <==> ValidTurn(messages, maxCalls)
  {
    if |messages| < 2 {
      return false;
    }
    if messages[0].role != User || !HasText(messages[0]) {
      return false;
    }
    var last := messages[|messages| - 1];
    if last.role != Assistant || !HasText(last) {
      return false;
    }
    for i := 1 to |messages| - 1
      invariant forall k :: 1 <= k < i ==> IsToolStep(messages[k], maxCalls)
    {
      var m := messages[i];
      if m.role != Assistant || m.toolCalls.None? || m.toolCalls.value == [] || |m.toolCalls.value| > maxCalls {
        return false;
      }
      for j := 0 to |m.toolCalls.value|
        invariant forall k :: 0 <= k < j ==> LegalCallId(m.toolCalls.value[k])
      {
        if !LegalCallId(m.toolCalls.value[j]) {
          return false;
        }
      }
    }
    return true;
  }
}
