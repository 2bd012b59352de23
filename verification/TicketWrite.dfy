/** The confirmed ticket write (app/tools/executor.py, app/tools/builtin/ticket.py): any number of concurrent or
    repeated executions, with timeouts whose background task may still land. */
module TicketWrite {
  import opened Basics

  // The idempotency key: an injective digest of the conversation and the tool call.
  datatype Key = Key(conversation: int, callId: string)

  // origin is a history variable: the key a tool-written ticket was written for; None for tickets made elsewhere.
  datatype Ticket = Ticket(conversation: int, origin: Option<Key>)

  // writer is a history variable: the execution whose task inserted the row.
  datatype IdemRow = IdemRow(digest: string, ticketNo: string, writer: nat)

  datatype Outcome = Success(ticketNo: string) | Conflict | TimedOut | ToolError

  datatype Stage = Begun | Waiting | Replied(outcome: Outcome)

  // The background thread of one execution; it outlives a reply that timed out.
  datatype Task = NotSpawned | Running | Committed(ticketNo: string) | Rejected | Broken

  datatype Exec = Exec(key: Key, digest: string, stage: Stage, task: Task)

  datatype World = World(tickets: map<string, Ticket>, idem: map<Key, IdemRow>, execs: seq<Exec>)

  datatype Event =
    | Begin(key: Key, digest: string)
    | Lookup(e: nat)
    | Write(e: nat, ticketNo: string, acknowledged: bool)
    | Fail(e: nat)
    | Timeout(e: nat)
    | Deliver(e: nat)
    | OtherTicket(ticketNo: string, conversation: int)

  // What the lookup reports for a key and a digest.
  function Find(idem: map<Key, IdemRow>, key: Key, digest: string): Option<Outcome> {
    if key !in idem then None
    else if idem[key].digest == digest then Some(Success(idem[key].ticketNo))
    else Some(Conflict)
  }

  function AfterLookup(w: World, e: nat): Exec
    requires e < |w.execs|
  {
    var x := w.execs[e];
    var found := Find(w.idem, x.key, x.digest);
    if found.Some? then x.(stage := Replied(found.value)) else x.(stage := Waiting, task := Running)
  }

  function AfterDeliver(w: World, e: nat): Exec
    requires e < |w.execs|
  {
    var x := w.execs[e];
    match x.task
    case Committed(no) => x.(stage := Replied(Success(no)))
    case Rejected =>
      var found := Find(w.idem, x.key, x.digest);
      x.(stage := Replied(if found.Some? then found.value else Conflict))
    case Broken => x.(stage := Replied(ToolError))
    case _ => x
  }

  // Ticket and idempotency row are inserted in one transaction; either key already being there rejects both.
  predicate Insertable(w: World, key: Key, ticketNo: string) {
    ticketNo !in w.tickets && key !in w.idem
  }

  function Next(w: World, ev: Event): World {
    match ev
    case Begin(key, digest) => w.(execs := w.execs + [Exec(key, digest, Begun, NotSpawned)])
    case Lookup(e) =>
      if e >= |w.execs| || w.execs[e].stage != Begun then w
      else w.(execs := w.execs[e := AfterLookup(w, e)])
    case Write(e, no, acknowledged) =>
      if e >= |w.execs| || w.execs[e].task != Running then w
      else WriteStep(w, e, no, acknowledged)
    case Fail(e) =>
      if e >= |w.execs| || w.execs[e].task != Running then w
      else w.(execs := w.execs[e := w.execs[e].(task := Broken)])
    case Timeout(e) =>
      if e >= |w.execs| || w.execs[e].stage != Waiting then w
      else w.(execs := w.execs[e := w.execs[e].(stage := Replied(TimedOut))])
    case Deliver(e) =>
      if e >= |w.execs| || w.execs[e].stage != Waiting then w
      else w.(execs := w.execs[e := AfterDeliver(w, e)])
    case OtherTicket(no, conversation) =>
      if no in w.tickets then w else w.(tickets := w.tickets[no := Ticket(conversation, None)])
  }

  // An unacknowledged write has landed although its thread reports an error.
  function WriteStep(w: World, e: nat, no: string, acknowledged: bool): World
    requires e < |w.execs|
  {
    var x := w.execs[e];
    if !Insertable(w, x.key, no) then w.(execs := w.execs[e := x.(task := Rejected)])
    else World(w.tickets[no := Ticket(x.key.conversation, Some(x.key))],
               w.idem[x.key := IdemRow(x.digest, no, e)],
               w.execs[e := x.(task := if acknowledged then Committed(no) else Broken)])
  }

  function Run(w: World, events: seq<Event>): World {
    if events == [] then w else Next(Run(w, events[..|events| - 1]), events[|events| - 1])
  }

  // ---------------------------------------------------------------- invariant

  // Idempotency rows and tool-written tickets match one to one.
  ghost predicate OneToOne(w: World) {
    && (forall k :: k in w.idem ==>
          w.idem[k].ticketNo in w.tickets && w.tickets[w.idem[k].ticketNo] == Ticket(k.conversation, Some(k)))
    && (forall no :: no in w.tickets && w.tickets[no].origin.Some? ==>
          w.tickets[no].origin.value in w.idem && w.idem[w.tickets[no].origin.value].ticketNo == no)
  }

  ghost predicate Recorded(w: World, x: Exec, no: string) {
    x.key in w.idem && w.idem[x.key].digest == x.digest && w.idem[x.key].ticketNo == no
  }

  ghost predicate Wrote(w: World, e: nat)
    requires e < |w.execs|
  {
    w.execs[e].key in w.idem && w.idem[w.execs[e].key].writer == e
  }

  ghost predicate ExecOk(w: World, e: nat)
    requires e < |w.execs|
  {
    var x := w.execs[e];
    && (x.stage == Begun ==> x.task == NotSpawned)
    && (x.stage == Waiting ==> x.task != NotSpawned)
    && (x.task.Committed? ==> Recorded(w, x, x.task.ticketNo))
    && (Wrote(w, e) ==> (x.task.Committed? || x.task.Broken?) && w.idem[x.key].digest == x.digest)
    && (x.stage.Replied? && x.stage.outcome.Success? ==> Recorded(w, x, x.stage.outcome.ticketNo))
    && (x.stage == Replied(Conflict) ==> x.task == NotSpawned || x.task == Rejected)
  }

  ghost predicate Inv(w: World) {
    && OneToOne(w)
    && (forall e :: 0 <= e < |w.execs| ==> ExecOk(w, e))
    && (forall k :: k in w.idem ==> w.idem[k].writer < |w.execs| && w.execs[w.idem[k].writer].key == k)
  }

  const START := World(map[], map[], [])

  lemma WriteKeepsInv(w: World, e: nat, no: string, acknowledged: bool)
    requires Inv(w) && e < |w.execs| && w.execs[e].task == Running
    ensures Inv(WriteStep(w, e, no, acknowledged))
  {
    var w', x := WriteStep(w, e, no, acknowledged), w.execs[e];
    forall f | 0 <= f < |w'.execs| ensures ExecOk(w', f) {
      assert ExecOk(w, f);
    }
  }

  // A step that only moves one execution along.
  lemma ExecStepKeepsInv(w: World, e: nat, x': Exec)
    requires Inv(w) && e < |w.execs| && x'.key == w.execs[e].key
    requires ExecOk(w.(execs := w.execs[e := x']), e)
    ensures Inv(w.(execs := w.execs[e := x']))
  {
    var w' := w.(execs := w.execs[e := x']);
    forall f | 0 <= f < |w'.execs| ensures ExecOk(w', f) {
      assert ExecOk(w, f);
    }
  }

  lemma BeginKeepsInv(w: World, key: Key, digest: string)
    requires Inv(w)
    ensures Inv(Next(w, Begin(key, digest)))
  {
    var w' := Next(w, Begin(key, digest));
    forall f | 0 <= f < |w'.execs| ensures ExecOk(w', f) {
      if f < |w.execs| {
        assert ExecOk(w, f);
      } else {
        assert !Wrote(w', f);
      }
    }
  }

  lemma OtherTicketKeepsInv(w: World, no: string, conversation: int)
    requires Inv(w)
    ensures Inv(Next(w, OtherTicket(no, conversation)))
  {
    var w' := Next(w, OtherTicket(no, conversation));
    forall f | 0 <= f < |w'.execs| ensures ExecOk(w', f) {
      assert ExecOk(w, f);
    }
  }

  lemma StepKeepsInv(w: World, ev: Event)
    requires Inv(w)
    ensures Inv(Next(w, ev))
  {
    match ev
    case Begin(key, digest) => BeginKeepsInv(w, key, digest);
    case Lookup(e) =>
      if e < |w.execs| && w.execs[e].stage == Begun {
        assert ExecOk(w, e);
        ExecStepKeepsInv(w, e, AfterLookup(w, e));
      }
    case Write(e, no, acknowledged) =>
      if e < |w.execs| && w.execs[e].task == Running {
        WriteKeepsInv(w, e, no, acknowledged);
      }
    case Fail(e) =>
      if e < |w.execs| && w.execs[e].task == Running {
        assert ExecOk(w, e);
        ExecStepKeepsInv(w, e, w.execs[e].(task := Broken));
      }
    case Timeout(e) =>
      if e < |w.execs| && w.execs[e].stage == Waiting {
        assert ExecOk(w, e);
        ExecStepKeepsInv(w, e, w.execs[e].(stage := Replied(TimedOut)));
      }
    case Deliver(e) =>
      if e < |w.execs| && w.execs[e].stage == Waiting {
        assert ExecOk(w, e);
        ExecStepKeepsInv(w, e, AfterDeliver(w, e));
      }
    case OtherTicket(no, conversation) => OtherTicketKeepsInv(w, no, conversation);
  }

  lemma {:induction false} RunKeepsInv(w: World, events: seq<Event>)
    requires Inv(w)
    ensures Inv(Run(w, events))
  {
    if events != [] {
      RunKeepsInv(w, events[..|events| - 1]);
      StepKeepsInv(Run(w, events[..|events| - 1]), events[|events| - 1]);
    }
  }

  // Rows once written stay as they are.
  ghost predicate Grows(w: World, w': World) {
    && (forall k :: k in w.idem ==> k in w'.idem && w'.idem[k] == w.idem[k])
    && (forall no :: no in w.tickets ==> no in w'.tickets && w'.tickets[no] == w.tickets[no])
    && |w.execs| <= |w'.execs|
    && (forall e :: 0 <= e < |w.execs| && w.execs[e].stage.Replied? ==> w'.execs[e].stage == w.execs[e].stage)
  }

  lemma StepGrows(w: World, ev: Event)
    requires Inv(w)
    ensures Grows(w, Next(w, ev))
  {
  }

  lemma {:induction false} RunGrows(w: World, events: seq<Event>)
    requires Inv(w)
    ensures Grows(w, Run(w, events))
  {
    if events != [] {
      var mid := Run(w, events[..|events| - 1]);
      RunGrows(w, events[..|events| - 1]);
      RunKeepsInv(w, events[..|events| - 1]);
      StepGrows(mid, events[|events| - 1]);
      GrowsTransitively(w, mid, Next(mid, events[|events| - 1]));
    }
  }

  lemma GrowsTransitively(a: World, b: World, c: World)
    requires Grows(a, b) && Grows(b, c)
    ensures Grows(a, c)
  {
  }

  ghost predicate Succeeded(x: Exec) {
    x.stage.Replied? && x.stage.outcome.Success?
  }

  // Two tool tickets for the same key are the same ticket.
  ghost predicate OneTicketPerKey(w: World) {
    forall a, b :: a in w.tickets && b in w.tickets && w.tickets[a].origin.Some?
                   && w.tickets[a].origin == w.tickets[b].origin ==>
      a == b
  }

  // Success means the recorded number of an existing ticket; an execution whose digest is not the recorded one
  // neither succeeds nor writes; a reported conflict wrote nothing.
  ghost predicate ReplyIsTrue(w: World, e: nat)
    requires e < |w.execs|
  {
    var x := w.execs[e];
    && (Succeeded(x) ==> Recorded(w, x, x.stage.outcome.ticketNo) && x.stage.outcome.ticketNo in w.tickets)
    && (x.key in w.idem && w.idem[x.key].digest != x.digest ==> !Wrote(w, e) && !Succeeded(x))
    && (x.stage == Replied(Conflict) ==> !Wrote(w, e))
  }

  // Main result, for every run.
  lemma ExactlyOnce(events: seq<Event>)
    ensures var w := Run(START, events);
            && OneToOne(w) && OneTicketPerKey(w)
            && forall e :: 0 <= e < |w.execs| ==> ReplyIsTrue(w, e)
  {
    RunKeepsInv(START, events);
    var w := Run(START, events);
    forall e | 0 <= e < |w.execs| ensures ReplyIsTrue(w, e) {
      assert ExecOk(w, e);
    }
  }

  // Any two successful executions of one call report the same ticket, however the runs interleave.
  lemma SuccessesAgree(events: seq<Event>, e: nat, f: nat)
    requires var w := Run(START, events);
             && e < |w.execs| && f < |w.execs| && w.execs[e].key == w.execs[f].key
             && w.execs[e].stage.Replied? && w.execs[e].stage.outcome.Success?
             && w.execs[f].stage.Replied? && w.execs[f].stage.outcome.Success?
    ensures Run(START, events).execs[e].stage.outcome == Run(START, events).execs[f].stage.outcome
  {
    RunKeepsInv(START, events);
    var w := Run(START, events);
    assert ExecOk(w, e) && ExecOk(w, f);
  }

  // A key once recorded is answered by every later execution without writing: the same digest gets the same number,
  // another digest a conflict.
  lemma RecordedKeyIsAnswered(w: World, e: nat)
    requires Inv(w) && e < |w.execs| && w.execs[e].stage == Begun && w.execs[e].key in w.idem
    ensures var w' := Next(w, Lookup(e));
            && w'.tickets == w.tickets && w'.idem == w.idem
            && w'.execs[e].stage == Replied(if w.idem[w.execs[e].key].digest == w.execs[e].digest
                                            then Success(w.idem[w.execs[e].key].ticketNo) else Conflict)
  {
  }

  // ---------------------------------------------------------------- what one execution leads to

  predicate Concerns(ev: Event, e: nat) {
    match ev
    case Lookup(f) => f == e
    case Write(f, _, _) => f == e
    case Fail(f) => f == e
    case Timeout(f) => f == e
    case Deliver(f) => f == e
    case _ => false
  }

  ghost predicate LeaveAlone(events: seq<Event>, e: nat) {
    forall i :: 0 <= i < |events| ==> !Concerns(events[i], e)
  }

  lemma OthersLeaveIt(w: World, ev: Event, e: nat)
    requires e < |w.execs| && !Concerns(ev, e)
    ensures e < |Next(w, ev).execs| && Next(w, ev).execs[e] == w.execs[e]
  {
  }

  lemma {:induction false} RunLeavesIt(w: World, events: seq<Event>, e: nat)
    requires e < |w.execs| && LeaveAlone(events, e)
    ensures e < |Run(w, events).execs| && Run(w, events).execs[e] == w.execs[e]
  {
    if events != [] {
      var init, last := events[..|events| - 1], events[|events| - 1];
      RunLeavesIt(w, init, e);
      assert !Concerns(last, e);
      OthersLeaveIt(Run(w, init), last, e);
    }
  }

  // Ticket, record and number of one key.
  ghost predicate HasTicket(w: World, key: Key, digest: string, no: string, writer: nat) {
    && no in w.tickets && w.tickets[no] == Ticket(key.conversation, Some(key))
    && key in w.idem && w.idem[key] == IdemRow(digest, no, writer)
  }

  // A write that finds neither its key nor its number lands, acknowledged or not, and whoever has been told what.
  lemma WriteLands(w: World, e: nat, no: string, acknowledged: bool)
    requires e < |w.execs| && w.execs[e].task == Running && Insertable(w, w.execs[e].key, no)
    ensures var w' := Next(w, Write(e, no, acknowledged));
            && HasTicket(w', w.execs[e].key, w.execs[e].digest, no, e)
            && w'.tickets.Keys == w.tickets.Keys + {no} && w'.idem.Keys == w.idem.Keys + {w.execs[e].key}
            && w'.execs[e].stage == w.execs[e].stage
            && w'.execs[e].task == if acknowledged then Committed(no) else Broken
  {
  }

  // Such a write, once acknowledged and delivered before the wait is over, is answered with its own number, whatever
  // others do in between.
  lemma AcknowledgedWriteSucceeds(w: World, e: nat, no: string, between: seq<Event>)
    requires Inv(w) && e < |w.execs| && w.execs[e].stage == Waiting && w.execs[e].task == Running
    requires Insertable(w, w.execs[e].key, no) && LeaveAlone(between, e)
    ensures var w' := Next(Run(Next(w, Write(e, no, true)), between), Deliver(e));
            && e < |w'.execs| && w'.execs[e].stage == Replied(Success(no))
            && HasTicket(w', w.execs[e].key, w.execs[e].digest, no, e)
  {
    var written := Next(w, Write(e, no, true));
    WriteLands(w, e, no, true);
    StepKeepsInv(w, Write(e, no, true));
    RunGrows(written, between);
    RunLeavesIt(written, between, e);
  }

  // So the first execution of a call, looked up, written and delivered in time, succeeds with exactly the number it
  // inserted, in every interleaving with other executions.
  lemma FirstExecutionSucceeds(w: World, key: Key, digest: string, no: string, a: seq<Event>, b: seq<Event>,
                               c: seq<Event>)
    requires Inv(w) && LeaveAlone(a, |w.execs|) && LeaveAlone(b, |w.execs|) && LeaveAlone(c, |w.execs|)
    requires var begun := Run(Next(w, Begin(key, digest)), a);
             key !in begun.idem && Insertable(Run(Next(begun, Lookup(|w.execs|)), b), key, no)
    ensures var e, begun := |w.execs|, Run(Next(w, Begin(key, digest)), a);
            var launched := Run(Next(begun, Lookup(e)), b);
            var w' := Next(Run(Next(launched, Write(e, no, true)), c), Deliver(e));
            e < |w'.execs| && w'.execs[e].stage == Replied(Success(no)) && HasTicket(w', key, digest, no, e)
  {
    var e := |w.execs|;
    var first := Next(w, Begin(key, digest));
    StepKeepsInv(w, Begin(key, digest));
    RunLeavesIt(first, a, e);
    RunKeepsInv(first, a);
    var begun := Run(first, a);
    StepKeepsInv(begun, Lookup(e));
    RunLeavesIt(Next(begun, Lookup(e)), b, e);
    RunKeepsInv(Next(begun, Lookup(e)), b);
    AcknowledgedWriteSucceeds(Run(Next(begun, Lookup(e)), b), e, no, c);
  }

  // A write that fails before anything is inserted is reported as an error, and a number taken elsewhere is no harm
  // but to the write that picks it.
  lemma FailedWriteIsReported(w: World, e: nat, no: string, conversation: int)
    requires e < |w.execs| && w.execs[e].stage == Waiting && w.execs[e].task == Running
    ensures var failed := Next(Next(w, Fail(e)), Deliver(e));
            && failed == w.(execs := w.execs[e := w.execs[e].(stage := Replied(ToolError), task := Broken)])
    ensures no !in w.tickets && w.execs[e].key !in w.idem ==>
              var w' := Next(Next(Next(w, OtherTicket(no, conversation)), Write(e, no, true)), Deliver(e));
              && w'.tickets == w.tickets[no := Ticket(conversation, None)] && w'.idem == w.idem
              && w'.execs[e].stage == Replied(Conflict)
  {
  }

  // A write that lands after its execution was told that nobody knows is what every later execution of the call with
  // the same arguments reports.
  lemma LateWriteIsReported(w: World, e: nat, no: string, acknowledged: bool, between: seq<Event>)
    requires Inv(w) && e < |w.execs| && w.execs[e].task == Running && Insertable(w, w.execs[e].key, no)
    ensures var x, later := w.execs[e], Run(Next(w, Write(e, no, acknowledged)), between);
            var f, w' := |later.execs|, Next(Next(later, Begin(x.key, x.digest)), Lookup(|later.execs|));
            && w'.execs[f].stage == Replied(Success(no)) && w'.tickets == later.tickets && w'.idem == later.idem
  {
    WriteLands(w, e, no, acknowledged);
    StepKeepsInv(w, Write(e, no, acknowledged));
    RunGrows(Next(w, Write(e, no, acknowledged)), between);
  }

  // ---------------------------------------------------------------- the executor and its tables

  class TicketDesk {
    var tickets: map<string, Ticket>
    var idem: map<Key, IdemRow>
    var execs: seq<Exec>

    constructor ()
      ensures View() == START
    {
      tickets, idem, execs := map[], map[], [];
    }

    function View(): World
      reads this
    {
      World(tickets, idem, execs)
    }

    method IdemLookup(key: Key, digest: string) returns (found: Option<Outcome>)
      ensures found == Find(idem, key, digest)
      ensures found.None? <==> key !in idem
      ensures key in idem && idem[key].digest == digest ==> found == Some(Success(idem[key].ticketNo))
      ensures key in idem && idem[key].digest != digest ==> found == Some(Conflict)
    {
      if key !in idem {
        return None;
      }
      if idem[key].digest == digest {
        return Some(Success(idem[key].ticketNo));
      }
      return Some(Conflict);
    }

    // One transaction: both rows or neither.
    method CreateTicket(e: nat, ticketNo: string, acknowledged: bool)
      requires e < |execs| && execs[e].task == Running
      modifies this
      ensures View() == Next(old(View()), Write(e, ticketNo, acknowledged))
      ensures var x := old(execs[e]);
              if ticketNo in old(tickets) || x.key in old(idem)
              then tickets == old(tickets) && idem == old(idem) && execs == old(execs)[e := x.(task := Rejected)]
              else && tickets == old(tickets)[ticketNo := Ticket(x.key.conversation, Some(x.key))]
                   && idem == old(idem)[x.key := IdemRow(x.digest, ticketNo, e)]
                   && execs == old(execs)[e := x.(task := if acknowledged then Committed(ticketNo) else Broken)]
    {
      var x := execs[e];
      if ticketNo in tickets || x.key in idem {
        execs := execs[e := x.(task := Rejected)];
        return;
      }
      tickets := tickets[ticketNo := Ticket(x.key.conversation, Some(x.key))];
      idem := idem[x.key := IdemRow(x.digest, ticketNo, e)];
      execs := execs[e := x.(task := if acknowledged then Committed(ticketNo) else Broken)];
    }

    // Up to the first wait: look the key up, spawn the write only when it is new.
    method Launch(key: Key, digest: string) returns (e: nat)
      modifies this
      ensures e == |old(execs)|
      ensures View() == Next(Next(old(View()), Begin(key, digest)), Lookup(e))
      ensures tickets == old(tickets) && idem == old(idem) && |execs| == e + 1 && execs[..e] == old(execs)
      ensures execs[e].key == key && execs[e].digest == digest
      ensures key !in idem ==> execs[e].stage == Waiting && execs[e].task == Running
      ensures key in idem ==>
                && execs[e].task == NotSpawned
                && execs[e].stage
                   == Replied(if idem[key].digest == digest then Success(idem[key].ticketNo) else Conflict)
    {
      e := |execs|;
      var found := IdemLookup(key, digest);
      if found.Some? {
        execs := execs + [Exec(key, digest, Replied(found.value), NotSpawned)];
      } else {
        execs := execs + [Exec(key, digest, Waiting, Running)];
      }
      assert execs == (old(execs) + [Exec(key, digest, Begun, NotSpawned)])[e := execs[e]];
    }

    // The wait is over before the thread is: the answer is that nobody knows, and the thread goes on.
    method Expire(e: nat)
      requires e < |execs| && execs[e].stage == Waiting
      modifies this`execs
      ensures View() == Next(old(View()), Timeout(e))
      ensures execs == old(execs)[e := old(execs[e]).(stage := Replied(TimedOut))]
    {
      execs := execs[e := execs[e].(stage := Replied(TimedOut))];
    }

    // After the wait: on a rejected insert the key is looked up again, so a lost race still reports the one ticket.
    method Finish(e: nat) returns (outcome: Outcome)
      requires e < |execs| && execs[e].stage == Waiting
      requires execs[e].task.Committed? || execs[e].task == Rejected || execs[e].task == Broken
      modifies this
      ensures View() == Next(old(View()), Deliver(e))
      ensures tickets == old(tickets) && idem == old(idem)
      ensures execs == old(execs)[e := old(execs[e]).(stage := Replied(outcome))]
      ensures var x := old(execs[e]);
              match x.task
              case Committed(no) => outcome == Success(no)
              case Rejected =>
                outcome == if x.key in idem && idem[x.key].digest == x.digest then Success(idem[x.key].ticketNo)
                           else Conflict
              case _ => outcome == ToolError
    {
      match execs[e].task {
        case Committed(no) => outcome := Success(no);
        case Rejected =>
          var found := IdemLookup(execs[e].key, execs[e].digest);
          outcome := if found.Some? && found.value.Success? then found.value else Conflict;
        case Broken => outcome := ToolError;
      }
      execs := execs[e := execs[e].(stage := Replied(outcome))];
    }
  }
}
