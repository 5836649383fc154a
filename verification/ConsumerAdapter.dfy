// How many deliveries a worker handles at once, and that none starts after a stop.
module ConsumerAdapter {

  datatype Adapter = Adapter(concurrency: nat, active: nat, inFlight: set<nat>, executing: set<nat>, arrived: nat, stopping: bool)

  datatype Step =
    | Arrive                              // the broker hands over a message
    | Proceed(id: nat)                    // a waiting delivery looks at the count
    | Finish(id: nat, failed: bool)
    | Stop

  function Start(concurrency: nat): Adapter {
    Adapter(concurrency, 0, {}, {}, 0, false)
  }

  function DoProceed(s: Adapter, id: nat): Adapter {
    if id !in s.inFlight || id in s.executing then s
    else if s.stopping then s.(inFlight := s.inFlight - {id})
    else if s.active >= s.concurrency then s
    else s.(active := s.active + 1, executing := s.executing + {id})
  }

  function DoFinish(s: Adapter, id: nat, failed: bool): Adapter
    requires id in s.executing ==> s.active > 0
  {
    if id !in s.executing then s
    else s.(active := s.active - 1, executing := s.executing - {id}, inFlight := s.inFlight - {id}, stopping := s.stopping || failed)
  }

  predicate Bounded(s: Adapter) {
    && |s.executing| == s.active <= s.concurrency
    && s.executing <= s.inFlight
    && forall id | id in s.inFlight :: id < s.arrived
  }

  function Apply(s: Adapter, step: Step): Adapter
    requires Bounded(s)
  {
    match step
    case Arrive => if s.stopping then s else s.(inFlight := s.inFlight + {s.arrived}, arrived := s.arrived + 1)
    case Proceed(id) => DoProceed(s, id)
    case Finish(id, failed) => CountMembers(s, id); DoFinish(s, id, failed)
    case Stop => s.(stopping := true)
  }

  lemma {:induction false} CountMembers(s: Adapter, id: nat)
    requires Bounded(s)
    ensures id in s.executing ==> s.active > 0
    ensures id in s.executing ==> |s.executing - {id}| == s.active - 1
  {
  }

  // The count is the number of deliveries being handled and stays in bounds.
  lemma {:induction false} StepStaysBounded(s: Adapter, step: Step)
    requires Bounded(s)
    ensures Bounded(Apply(s, step)) && Apply(s, step).concurrency == s.concurrency
  {
    if step.Finish? {
      CountMembers(s, step.id);
    }
  }

  function Run(concurrency: nat, steps: seq<Step>): (s: Adapter)
    ensures Bounded(s) && s.concurrency == concurrency
    decreases |steps|
  {
    if steps == [] then Start(concurrency)
    else
      var before := Run(concurrency, steps[..|steps| - 1]);
      StepStaysBounded(before, steps[|steps| - 1]);
      Apply(before, steps[|steps| - 1])
  }

  // After a stop nothing new is handled: what runs was running at the stop.
  lemma {:induction false} NothingStartsAfterStop(concurrency: nat, steps: seq<Step>, more: seq<Step>)
    requires Run(concurrency, steps).stopping
    ensures var now, later := Run(concurrency, steps), Run(concurrency, steps + more);
      later.stopping && later.executing <= now.executing && later.inFlight <= now.inFlight
    decreases |more|
  {
    if more == [] {
      assert steps + more == steps;
    } else {
      var n := |more| - 1;
      NothingStartsAfterStop(concurrency, steps, more[..n]);
      assert (steps + more)[..|steps + more| - 1] == steps + more[..n];
      assert (steps + more)[|steps + more| - 1] == more[n];
    }
  }

  class Consumer {
    const concurrency: nat
    var active: nat
    var inFlight: set<nat>
    var executing: set<nat>
    var arrived: nat
    var stopping: bool

    constructor (concurrency: nat)
      ensures View() == Start(concurrency)
    {
      this.concurrency := concurrency;
      active, inFlight, executing, arrived, stopping := 0, {}, {}, 0, false;
    }

    function View(): Adapter
      reads this
    {
      Adapter(concurrency, active, inFlight, executing, arrived, stopping)
    }

    method OnMessage()
      requires Bounded(View())
      modifies this
      ensures View() == Apply(old(View()), Arrive)
    {
      if stopping {
        return;
      }
      inFlight := inFlight + {arrived};
      arrived := arrived + 1;
    }

    // One turn of the waiting loop of a delivery.
    method Schedule(id: nat) returns (admitted: bool)
      requires Bounded(View()) && id in inFlight && id !in executing
      modifies this
      ensures View() == Apply(old(View()), Proceed(id))
      ensures admitted <==> id in executing
    {
      if stopping {
        inFlight := inFlight - {id};
        return false;
      }
      if active >= concurrency {
        return false;
      }
      active := active + 1;
      executing := executing + {id};
      return true;
    }

    method Finished(id: nat, failed: bool)
      requires Bounded(View()) && id in executing
      modifies this
      ensures View() == Apply(old(View()), Finish(id, failed))
    {
      CountMembers(View(), id);
      active := active - 1;
      executing := executing - {id};
      inFlight := inFlight - {id};
      if failed {
        stopping := true;
      }
    }
  }
}
