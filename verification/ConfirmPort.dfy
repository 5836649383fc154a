// The confirm channel shared by concurrent publishers: whoever asks next claims the oldest publication.
module ConfirmPort {
  import opened Prelude

  type MessageId = nat

  datatype Status = Waiting | Confirmed | Refused

  datatype Operation = Operation(ticket: nat, messageId: MessageId, claimed: bool, status: Status, returned: bool)

  // `resolved` are the operations whose confirmation went well. `routed` counts,
  // per message, the publications the broker confirmed without returning them;
  // `reported` counts the successes told to publishers.
  datatype Port = Port(
    open: bool, backpressured: bool, operations: seq<Operation>, nextTicket: nat, resolved: set<nat>,
    routed: multiset<MessageId>, reported: multiset<MessageId>)

  const Fresh := Port(true, false, [], 0, {}, multiset{}, multiset{})

  datatype Answer = Uncertain | WasReturned | WasRouted

  function IndexWhere(p: Operation -> bool, operations: seq<Operation>): (i: nat)
    ensures i <= |operations|
    ensures i < |operations| ==> p(operations[i])
    ensures forall j :: 0 <= j < i ==> !p(operations[j])
  {
    if operations == [] then 0
    else if p(operations[0]) then 0
    else 1 + IndexWhere(p, operations[1..])
  }

  function HasTicket(ticket: nat): Operation -> bool {
    (o: Operation) => o.ticket == ticket
  }

  const Unclaimed: Operation -> bool := (o: Operation) => !o.claimed

  // Claimed and answered by the broker, whatever the answer.
  function Takeable(messageId: MessageId): Operation -> bool {
    (o: Operation) => o.claimed && !o.status.Waiting? && o.messageId == messageId
  }

  predicate Rejected(o: Operation) { o.claimed && o.status.Refused? }

  function RejectedAt(ticket: nat): Operation -> bool {
    (o: Operation) => o.ticket == ticket && Rejected(o)
  }

  function Unreturned(ticket: nat): Operation -> bool {
    (o: Operation) => o.ticket == ticket && !o.returned
  }

  const Abandoned: Operation -> bool := (o: Operation) => o.claimed && o.status.Waiting?

  function DropWhere(p: Operation -> bool, operations: seq<Operation>): seq<Operation> {
    if operations == [] then []
    else if p(operations[0]) then DropWhere(p, operations[1..])
    else [operations[0]] + DropWhere(p, operations[1..])
  }

  // ------------------------------------------------------------- specification

  datatype Step =
    | Publish(messageId: MessageId, writable: bool, throws: bool)
    | Drained
    | Returned(ticket: nat)
    | Settled(ticket: nat, refused: bool)
    | Claim
    | Resume(ticket: nat)
    | TakeReturned(messageId: MessageId)
    | Fail

  function DoPublish(s: Port, messageId: MessageId, writable: bool, throws: bool): Port {
    if !s.open || s.backpressured || throws then s
    else
      s.(operations := s.operations + [Operation(s.nextTicket, messageId, false, Waiting, false)],
         nextTicket := s.nextTicket + 1, backpressured := !writable)
  }

  // Publishers still waiting give up; what nobody has claimed stays queued.
  function DoFail(s: Port): Port {
    if !s.open then s else s.(open := false, operations := DropWhere(Abandoned, s.operations))
  }

  function DoReturned(s: Port, ticket: nat): Port {
    var i := IndexWhere(Unreturned(ticket), s.operations);
    if i == |s.operations| then DoFail(s)
    else s.(operations := s.operations[i := s.operations[i].(returned := true)])
  }

  // The broker's answer. The operation stays queued: a success until it is taken,
  // a refusal until its waiter resumes.
  function DoSettled(s: Port, ticket: nat, refused: bool): Port {
    var i := IndexWhere(HasTicket(ticket), s.operations);
    if i == |s.operations| || !s.operations[i].status.Waiting? then s
    else
      var o := s.operations[i];
      var s1 := s.(operations := s.operations[i := o.(status := if refused then Refused else Confirmed)]);
      if refused then s1
      else s1.(resolved := s.resolved + {ticket}, routed := if o.returned then s.routed else s.routed + multiset{o.messageId})
  }

  function DoClaim(s: Port): Port {
    var i := IndexWhere(Unclaimed, s.operations);
    if !s.open || i == |s.operations| then s
    else s.(operations := s.operations[i := s.operations[i].(claimed := true)])
  }

  // The publication the next publisher to wait will wait for.
  function NextClaim(s: Port): Option<nat> {
    var i := IndexWhere(Unclaimed, s.operations);
    if !s.open || i == |s.operations| then None else Some(s.operations[i].ticket)
  }

  // The waiter of a refused operation takes it off the queue and gives up.
  function DoResume(s: Port, ticket: nat): Port {
    var i := IndexWhere(RejectedAt(ticket), s.operations);
    if i == |s.operations| then s else s.(operations := Without(s.operations, i))
  }

  function DoTake(s: Port, messageId: MessageId): (Port, Answer) {
    var i := IndexWhere(Takeable(messageId), s.operations);
    if i == |s.operations| then (s, Uncertain)
    else
      var s1 := s.(operations := Without(s.operations, i));
      if s.operations[i].returned then (s1, WasReturned)
      else (s1.(reported := s.reported + multiset{messageId}), WasRouted)
  }

  function Apply(s: Port, step: Step): Port {
    match step
    case Publish(messageId, writable, throws) => DoPublish(s, messageId, writable, throws)
    case Drained => if s.open && s.backpressured then s.(backpressured := false) else s
    case Returned(ticket) => DoReturned(s, ticket)
    case Settled(ticket, refused) => DoSettled(s, ticket, refused)
    case Claim => DoClaim(s)
    case Resume(ticket) => DoResume(s, ticket)
    case TakeReturned(messageId) => DoTake(s, messageId).0
    case Fail => DoFail(s)
  }

  function Run(s: Port, steps: seq<Step>): Port
    decreases |steps|
  {
    if steps == [] then s else Apply(Run(s, steps[..|steps| - 1]), steps[|steps| - 1])
  }

  // --------------------------------------------------------------------- the port

  class Channel {
    var open: bool
    var backpressured: bool
    var operations: seq<Operation>
    var nextTicket: nat
    ghost var resolved: set<nat>
    ghost var routed: multiset<MessageId>
    ghost var reported: multiset<MessageId>

    constructor ()
      ensures View() == Fresh
    {
      open, backpressured, operations, nextTicket := true, false, [], 0;
      resolved, routed, reported := {}, multiset{}, multiset{};
    }

    ghost function View(): Port
      reads this
    {
      Port(open, backpressured, operations, nextTicket, resolved, routed, reported)
    }

    method PublishMandatory(messageId: MessageId, writable: bool, throws: bool) returns (accepted: bool)
      modifies this
      ensures View() == DoPublish(old(View()), messageId, writable, throws)
      ensures accepted <==> old(open) && !old(backpressured) && !throws
    {
      if !open || backpressured {
        return false;
      }
      var operation := Operation(nextTicket, messageId, false, Waiting, false);
      operations := operations + [operation];
      if throws {
        operations := operations[..|operations| - 1];
        assert operations == old(operations);
        return false;
      }
      nextTicket := nextTicket + 1;
      backpressured := !writable;
      return true;
    }

    method OnReturn(ticket: nat)
      modifies this
      ensures View() == DoReturned(old(View()), ticket)
    {
      var i := IndexWhere(Unreturned(ticket), operations);
      if i == |operations| {
        if open {
          open, operations := false, DropWhere(Abandoned, operations);
        }
        return;
      }
      operations := operations[i := operations[i].(returned := true)];
    }

    method OnConfirm(ticket: nat, refused: bool)
      modifies this
      ensures View() == DoSettled(old(View()), ticket, refused)
    {
      var i := IndexWhere(HasTicket(ticket), operations);
      if i == |operations| || !operations[i].status.Waiting? {
        return;
      }
      var operation := operations[i];
      operations := operations[i := operation.(status := if refused then Refused else Confirmed)];
      if !refused {
        resolved := resolved + {ticket};
        if !operation.returned {
          routed := routed + multiset{operation.messageId};
        }
      }
    }

    // Up to the point where the publisher starts to wait.
    method WaitForConfirms() returns (claimed: Option<nat>)
      modifies this
      ensures View() == DoClaim(old(View()))
      ensures claimed == NextClaim(old(View()))
    {
      if !open {
        return None;
      }
      var i := IndexWhere(Unclaimed, operations);
      if i == |operations| {
        return None;
      }
      operations := operations[i := operations[i].(claimed := true)];
      return Some(operations[i].ticket);
    }

    // What a publisher does whose confirmation was rejected.
    method OnRejected(ticket: nat)
      modifies this
      ensures View() == DoResume(old(View()), ticket)
    {
      var i := IndexWhere(RejectedAt(ticket), operations);
      if i < |operations| {
        operations := Without(operations, i);
      }
    }

    method TakeReturned(messageId: MessageId) returns (answer: Answer)
      modifies this
      ensures (View(), answer) == DoTake(old(View()), messageId)
    {
      var i := IndexWhere(Takeable(messageId), operations);
      if i == |operations| {
        return Uncertain;
      }
      var operation := operations[i];
      operations := Without(operations, i);
      if operation.returned {
        return WasReturned;
      }
      reported := reported + multiset{messageId};
      return WasRouted;
    }
  }

  // -------------------------------------------------------------- conservation

  predicate Vouches(o: Operation, id: MessageId) {
    o.status.Confirmed? && !o.returned && o.messageId == id
  }

  // Confirmed publications of a message that no publisher has been told about.
  function Held(operations: seq<Operation>, id: MessageId): nat {
    if operations == [] then 0 else (if Vouches(operations[0], id) then 1 else 0) + Held(operations[1..], id)
  }

  lemma {:induction false} HeldAppend(a: seq<Operation>, b: seq<Operation>, id: MessageId)
    ensures Held(a + b, id) == Held(a, id) + Held(b, id)
  {
    if a == [] {
      assert a + b == b;
    } else {
      HeldAppend(a[1..], b, id);
      assert (a + b)[1..] == a[1..] + b;
    }
  }

  lemma {:induction false} HeldWithout(operations: seq<Operation>, i: nat, id: MessageId)
    requires i < |operations|
    ensures Held(Without(operations, i), id) == Held(operations, id) - (if Vouches(operations[i], id) then 1 else 0)
  {
    var a, b := operations[..i], operations[i + 1..];
    assert operations == a + ([operations[i]] + b);
    HeldAppend(a, [operations[i]] + b, id);
    HeldAppend(a, b, id);
    assert ([operations[i]] + b)[1..] == b;
  }

  lemma {:induction false} HeldUpdate(operations: seq<Operation>, i: nat, o: Operation, id: MessageId)
    requires i < |operations|
    ensures Held(operations[i := o], id) == Held(operations, id) - (if Vouches(operations[i], id) then 1 else 0) + (if Vouches(o, id) then 1 else 0)
  {
    HeldWithout(operations, i, id);
    HeldWithout(operations[i := o], i, id);
    assert Without(operations, i) == Without(operations[i := o], i);
  }

  lemma {:induction false} HeldDrop(operations: seq<Operation>, id: MessageId)
    ensures Held(DropWhere(Abandoned, operations), id) == Held(operations, id)
  {
    if operations != [] {
      HeldDrop(operations[1..], id);
    }
  }

  // Every success told, and every one still to be told, is a publication the
  // broker confirmed and did not return, but for `misled` of them.
  predicate Balanced(s: Port, id: MessageId, misled: nat) {
    s.reported[id] + Held(s.operations, id) <= s.routed[id] + misled
  }

  // A publisher is told of a success when the publication was refused.
  predicate Misleads(s: Port, step: Step, id: MessageId) {
    && step == TakeReturned(id)
    && var i := IndexWhere(Takeable(id), s.operations);
    && i < |s.operations| && s.operations[i].status.Refused? && !s.operations[i].returned
  }

  // How often a run does so.
  function Misled(steps: seq<Step>, id: MessageId): nat
    decreases |steps|
  {
    if steps == [] then 0
    else
      var n := |steps| - 1;
      Misled(steps[..n], id) + (if Misleads(Run(Fresh, steps[..n]), steps[n], id) then 1 else 0)
  }

  // No publisher asks while another has yet to react to a refusal.
  predicate Prompt(s: Port, step: Step) {
    step.TakeReturned? ==> forall o | o in s.operations :: !Rejected(o)
  }

  predicate PromptRun(steps: seq<Step>)
    decreases |steps|
  {
    steps == [] || (PromptRun(steps[..|steps| - 1]) && Prompt(Run(Fresh, steps[..|steps| - 1]), steps[|steps| - 1]))
  }

  lemma {:induction false} StepKeepsBalance(s: Port, step: Step, id: MessageId, misled: nat)
    requires Balanced(s, id, misled)
    ensures Balanced(Apply(s, step), id, misled + if Misleads(s, step, id) then 1 else 0)
  {
    hide Without;
    match step
    case Publish(messageId, writable, throws) =>
      HeldAppend(s.operations, [Operation(s.nextTicket, messageId, false, Waiting, false)], id);
    case Drained =>
    case Returned(ticket) =>
      var i := IndexWhere(Unreturned(ticket), s.operations);
      if i < |s.operations| {
        HeldUpdate(s.operations, i, s.operations[i].(returned := true), id);
      }
      HeldDrop(s.operations, id);
    case Settled(ticket, refused) =>
      var i := IndexWhere(HasTicket(ticket), s.operations);
      if i < |s.operations| {
        HeldUpdate(s.operations, i, s.operations[i].(status := if refused then Refused else Confirmed), id);
      }
    case Claim =>
      var i := IndexWhere(Unclaimed, s.operations);
      if i < |s.operations| {
        HeldUpdate(s.operations, i, s.operations[i].(claimed := true), id);
      }
    case Resume(ticket) =>
      var i := IndexWhere(RejectedAt(ticket), s.operations);
      if i < |s.operations| {
        HeldWithout(s.operations, i, id);
      }
    case TakeReturned(messageId) =>
      var i := IndexWhere(Takeable(messageId), s.operations);
      if i < |s.operations| {
        HeldWithout(s.operations, i, id);
      }
    case Fail => HeldDrop(s.operations, id);
  }

  lemma {:induction false} PromptnessMisleadsNobody(s: Port, step: Step, id: MessageId)
    requires Prompt(s, step)
    ensures !Misleads(s, step, id)
  {
    if Misleads(s, step, id) {
      var o := s.operations[IndexWhere(Takeable(id), s.operations)];
      assert o in s.operations && Rejected(o);
    }
  }

  // In every interleaving of publishers, claims, returns, confirms and channel
  // failures a message is reported as published at most as often as the broker
  // confirmed a copy of it that it did not return, but for the times a refusal
  // is taken for an answer; and it never is when refusals are acted on before
  // anyone asks.
  lemma {:induction false} EveryReportIsBacked(steps: seq<Step>, id: MessageId)
    ensures Balanced(Run(Fresh, steps), id, Misled(steps, id))
    ensures Run(Fresh, steps).reported[id] <= Run(Fresh, steps).routed[id] + Misled(steps, id)
    ensures PromptRun(steps) ==> Misled(steps, id) == 0
    decreases |steps|
  {
    hide Apply, Misleads, Prompt;
    if steps != [] {
      var n := |steps| - 1;
      EveryReportIsBacked(steps[..n], id);
      StepKeepsBalance(Run(Fresh, steps[..n]), steps[n], id, Misled(steps[..n], id));
      if PromptRun(steps) {
        PromptnessMisleadsNobody(Run(Fresh, steps[..n]), steps[n], id);
      }
    }
  }

  // With one publication of a message in the queue, the answer is about it: it
  // was confirmed, and not returned.
  lemma {:induction false} OnlyPublicationDecides(s: Port, messageId: MessageId, k: nat)
    requires k < |s.operations| && s.operations[k].messageId == messageId
    requires forall j | 0 <= j < |s.operations| && j != k :: s.operations[j].messageId != messageId
    ensures DoTake(s, messageId).1 ==
            if !s.operations[k].claimed || s.operations[k].status.Waiting? then Uncertain
            else if s.operations[k].returned then WasReturned else WasRouted
  {
    var i := IndexWhere(Takeable(messageId), s.operations);
    assert i < |s.operations| ==> i == k;
  }

  lemma {:induction false} FirstRefusedSecondConfirmed(s: Port)
    requires s.operations == [Operation(0, 7, true, Waiting, false), Operation(1, 7, true, Waiting, false)] && s.routed == multiset{}
    ensures var after := DoSettled(DoSettled(s, 0, true), 1, false);
      after.operations == [Operation(0, 7, true, Refused, false), Operation(1, 7, true, Confirmed, false)] && after.routed == multiset{7}
  {
    var s5 := DoSettled(s, 0, true);
    assert s5.operations == [Operation(0, 7, true, Refused, false), Operation(1, 7, true, Waiting, false)];
    assert IndexWhere(HasTicket(1), s5.operations[1..]) == 0;
  }

  lemma {:induction false} FirstPassesForSuccess(s: Port)
    requires s.operations == [Operation(0, 7, true, Refused, false), Operation(1, 7, true, Confirmed, false)]
    ensures !Prompt(s, TakeReturned(7)) && DoTake(s, 7).1 == WasRouted && DoTake(DoTake(s, 7).0, 7).1 == WasRouted
  {
    assert Rejected(s.operations[0]);
    assert Without(s.operations, 0) == [Operation(1, 7, true, Confirmed, false)];
  }

  // Without that order it fails: a refusal not yet acted on passes for a success.
  // Two publications of a message, the first refused, the second confirmed.
  lemma {:induction false} LateRefusalMisreports()
    ensures var steps := [Publish(7, true, false), Claim, Publish(7, true, false), Claim, Settled(0, true), Settled(1, false)];
      var s := Run(Fresh, steps);
      !Prompt(s, TakeReturned(7)) && var once := DoTake(s, 7);
      once.1 == WasRouted && DoTake(once.0, 7).1 == WasRouted && s.routed[7] == 1
  {
    var steps := [Publish(7, true, false), Claim, Publish(7, true, false), Claim, Settled(0, true), Settled(1, false)];
    RunOfTwo(steps[..4]);
    assert steps[..5][..4] == steps[..4] && steps[..6] == steps && steps[..6][..5] == steps[..5];
    var s4 := Run(Fresh, steps[..4]);
    var s5, s6 := Run(Fresh, steps[..5]), Run(Fresh, steps);
    assert s5 == DoSettled(s4, 0, true) && s6 == DoSettled(s5, 1, false);
    hide Run, Apply, DoSettled;
    FirstRefusedSecondConfirmed(s4);
    FirstPassesForSuccess(s6);
  }

  lemma {:induction false} RunOfTwo(steps: seq<Step>)
    requires steps == [Publish(7, true, false), Claim, Publish(7, true, false), Claim]
    ensures Run(Fresh, steps) ==
            Port(true, false, [Operation(0, 7, true, Waiting, false), Operation(1, 7, true, Waiting, false)], 2, {}, multiset{}, multiset{})
  {
    var a, b := Operation(0, 7, false, Waiting, false), Operation(1, 7, false, Waiting, false);
    assert steps[..4] == steps && steps[..4][..3] == steps[..3] && steps[..3][..2] == steps[..2] && steps[..2][..1] == steps[..1] && steps[..1][..0] == [];
    var s1 := Run(Fresh, steps[..1]);
    assert s1 == DoPublish(Run(Fresh, []), 7, true, false) && s1.operations == [a];
    var s2 := Run(Fresh, steps[..2]);
    assert s2 == DoClaim(s1) && s2.operations == [a.(claimed := true)];
    var s3 := Run(Fresh, steps[..3]);
    assert s3 == DoPublish(s2, 7, true, false) && s3.operations == [a.(claimed := true), b];
    assert IndexWhere(Unclaimed, s3.operations[1..]) == 0;
    var s4 := Run(Fresh, steps);
    assert s4 == DoClaim(s3) && s4.operations == [a.(claimed := true), b.(claimed := true)];
  }

  // ------------------------------------------------------------ tickets in order

  ghost predicate Ascending(operations: seq<Operation>) {
    forall i, j :: 0 <= i < j < |operations| ==> operations[i].ticket < operations[j].ticket
  }

  ghost predicate InOrder(s: Port) {
    Ascending(s.operations) && forall o :: o in s.operations ==> o.ticket < s.nextTicket
  }

  lemma {:induction false} WithoutMembers(operations: seq<Operation>, i: nat)
    requires i < |operations| && Ascending(operations)
    ensures Ascending(Without(operations, i))
    ensures forall o :: o in Without(operations, i) <==> o in operations && o.ticket != operations[i].ticket
  {
    var rest := Without(operations, i);
    assert forall j :: 0 <= j < |rest| ==> rest[j] == operations[if j < i then j else j + 1];
    forall o | o in operations && o.ticket != operations[i].ticket ensures o in rest {
      var j :| 0 <= j < |operations| && operations[j] == o;
      assert rest[if j < i then j else j - 1] == o;
    }
  }

  lemma {:induction false} UpdateMembers(operations: seq<Operation>, i: nat, o: Operation)
    requires i < |operations| && Ascending(operations) && o.ticket == operations[i].ticket
    ensures Ascending(operations[i := o])
    ensures forall x :: x in operations[i := o] <==> x == o || (x in operations && x.ticket != o.ticket)
  {
    var next := operations[i := o];
    assert next[i] == o;
    forall x | x in operations && x.ticket != o.ticket ensures x in next {
      var j :| 0 <= j < |operations| && operations[j] == x;
      assert next[j] == x;
    }
  }

  lemma {:induction false} AscendingHead(first: Operation, rest: seq<Operation>)
    requires Ascending(rest) && forall o :: o in rest ==> first.ticket < o.ticket
    ensures Ascending([first] + rest)
    ensures forall o :: o in [first] + rest <==> o == first || o in rest
  {
    var all := [first] + rest;
    forall i, j | 0 <= i < j < |all| ensures all[i].ticket < all[j].ticket {
      assert all[j] == rest[j - 1] && rest[j - 1] in rest;
    }
  }

  lemma {:induction false} DropMembers(operations: seq<Operation>)
    requires Ascending(operations)
    ensures Ascending(DropWhere(Abandoned, operations))
    ensures forall o :: o in DropWhere(Abandoned, operations) ==> o in operations
  {
    if operations != [] {
      var first, rest := operations[0], operations[1..];
      forall o | o in rest ensures o in operations && first.ticket < o.ticket {
        var i :| 0 <= i < |rest| && rest[i] == o;
        assert operations[i + 1] == o;
      }
      assert Ascending(rest) by {
        assert forall i :: 0 <= i < |rest| ==> rest[i] == operations[i + 1];
      }
      DropMembers(rest);
      hide Ascending;
      AscendingHead(first, DropWhere(Abandoned, rest));
    }
  }

  // What each call leaves in the queue.
  lemma {:induction false} AfterPublish(s: Port, messageId: MessageId, writable: bool, throws: bool)
    requires InOrder(s)
    ensures var t := DoPublish(s, messageId, writable, throws);
      && InOrder(t) && t.nextTicket >= s.nextTicket
      && forall o :: o in t.operations ==> o in s.operations || o == Operation(s.nextTicket, messageId, false, Waiting, false)
  {
    assert forall o :: o in s.operations <==> exists i :: 0 <= i < |s.operations| && s.operations[i] == o;
  }

  lemma {:induction false} AfterFail(s: Port)
    requires InOrder(s)
    ensures InOrder(DoFail(s)) && DoFail(s).nextTicket == s.nextTicket
    ensures forall o :: o in DoFail(s).operations ==> o in s.operations
  {
    DropMembers(s.operations);
  }

  lemma {:induction false} AfterReturned(s: Port, ticket: nat)
    requires InOrder(s)
    ensures var t := DoReturned(s, ticket);
      && InOrder(t) && t.nextTicket == s.nextTicket
      && (forall o :: o in t.operations && o.ticket != ticket ==> o in s.operations)
      && (forall o :: o in t.operations && o.ticket == ticket ==> o.returned && (o in s.operations || o.(returned := false) in s.operations))
  {
    var i := IndexWhere(Unreturned(ticket), s.operations);
    if i < |s.operations| {
      assert s.operations[i] in s.operations;
      UpdateMembers(s.operations, i, s.operations[i].(returned := true));
    } else {
      AfterFail(s);
      assert forall o :: o in s.operations && o.ticket == ticket ==> !Unreturned(ticket)(o);
    }
  }

  lemma {:induction false} AfterSettled(s: Port, ticket: nat, refused: bool)
    requires InOrder(s)
    ensures var t := DoSettled(s, ticket, refused);
      && InOrder(t) && t.nextTicket == s.nextTicket
      && (forall o :: o in t.operations ==>
            (o in s.operations
            || (o.ticket == ticket && o.status == (if refused then Refused else Confirmed) && o.(status := Waiting) in s.operations)))
  {
    var i := IndexWhere(HasTicket(ticket), s.operations);
    if i < |s.operations| {
      assert s.operations[i] in s.operations;
      UpdateMembers(s.operations, i, s.operations[i].(status := if refused then Refused else Confirmed));
    }
  }

  lemma {:induction false} AfterClaim(s: Port)
    requires InOrder(s)
    ensures var t := DoClaim(s);
      && InOrder(t) && t.nextTicket == s.nextTicket
      && (forall o :: o in t.operations ==>
            (o in s.operations
            || (NextClaim(s) == Some(o.ticket) && o.claimed && o.(claimed := false) in s.operations)))
  {
    var i := IndexWhere(Unclaimed, s.operations);
    if i < |s.operations| {
      assert s.operations[i] in s.operations;
      UpdateMembers(s.operations, i, s.operations[i].(claimed := true));
    }
  }

  lemma {:induction false} AfterResume(s: Port, ticket: nat)
    requires InOrder(s)
    ensures var t := DoResume(s, ticket);
      && InOrder(t) && t.nextTicket == s.nextTicket
      && (forall o :: o in t.operations ==> o in s.operations && !(o.ticket == ticket && Rejected(o)))
  {
    var i := IndexWhere(RejectedAt(ticket), s.operations);
    if i < |s.operations| {
      WithoutMembers(s.operations, i);
    } else {
      assert forall o :: o in s.operations ==> !RejectedAt(ticket)(o);
    }
  }

  // The operation an answer is about.
  function TakeIndex(s: Port, messageId: MessageId): nat { IndexWhere(Takeable(messageId), s.operations) }

  lemma {:induction false} AfterTake(s: Port, messageId: MessageId)
    requires InOrder(s) && TakeIndex(s, messageId) < |s.operations|
    ensures var t := DoTake(s, messageId).0; var taken := s.operations[TakeIndex(s, messageId)];
      && InOrder(t) && t.nextTicket == s.nextTicket
      && (forall o :: o in t.operations ==> o in s.operations && o.ticket != taken.ticket)
  {
    WithoutMembers(s.operations, TakeIndex(s, messageId));
  }
}
