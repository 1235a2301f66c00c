/**
 Retries are bounded and the queue drains, under any pattern of successes and failures: every
 informer notice for a node pays for at most six rounds, and every step of the controller spends
 some of that budget.
 */
module Retry {
  import opened Cluster
  import opened Controller
  import opened WorkQueue
  import Labels
  import Objects

  function One(b: bool): nat { if b then 1 else 0 }

  /** The places in which the queue holds the key. */
  function Presences(q: Queue, key: string): nat {
    One(key in q.dirty) + One(key in q.processing) + One(key in q.waiting)
  }

  /** Rounds the key can still cause: six per presence, less the failures already counted. */
  function Budget(q: Queue, key: string): int {
    6 * Presences(q, key) - NumRequeues(q, key)
  }

  /** Failures are forgotten by the time a key leaves the queue, and never exceed the retry limit. */
  ghost predicate Bounded(q: Queue, key: string) {
    && NumRequeues(q, key) <= MAX_RETRIES
    && (Presences(q, key) == 0 ==> NumRequeues(q, key) == 0)
  }

  function StageWeight(s: State, key: string): nat {
    if key !in s.work then 0
    else match s.work[key] case Claimed => 3 case NodeRead(_) => 2 case PodsListed(_, _) => 1
  }

  /** Steps the controller can still take for the key. */
  function Fuel(s: State, key: string): int {
    10 * Budget(s.queue, key) + 5 * One(key in s.queue.waiting) + 4 * One(key in s.queue.dirty) + StageWeight(s, key)
  }

  /** The event is a notice that puts the key on the queue. */
  predicate Enqueues(s: State, e: Event, key: string) {
    e == WorkStep(Deliver) && s.notices != [] && Target(s.notices[0]) == key
  }

  /** The event starts a round for the key. */
  predicate Starts(s: State, e: Event, key: string) {
    e == WorkStep(Get) && s.queue.order != [] && s.queue.order[0] == key
  }

  /** The event is a step of the controller for the key. */
  predicate Serves(s: State, e: Event, key: string) {
    match e
    case WorkStep(Get) => Starts(s, e, key)
    case WorkStep(ReadNode(node)) => node == key
    case WorkStep(ListPods(node, _)) => node == key
    case WorkStep(SendPatch(node, _)) => node == key
    case WorkStep(ListerError(node)) => node == key
    case WorkStep(DelayOver(node)) => node == key
    case _ => false
  }

  lemma SettleBudget(q: Queue, node: string, failed: bool, key: string)
    requires node in q.processing && Bounded(q, key)
    ensures var r := Settle(q, node, failed);
            && Bounded(r, key)
            && (node == key ==>
                  && Budget(r, key) < Budget(q, key) && key !in r.processing
                  && (key in r.dirty <==> key in q.dirty))
            && (node != key ==> Presences(r, key) == Presences(q, key) && NumRequeues(r, key) == NumRequeues(q, key)
                                && (key in r.dirty <==> key in q.dirty) && (key in r.waiting <==> key in q.waiting))
  {
  }

  /** One step: the failure count stays bounded, a notice adds at most one presence, and everything
      else the controller does for the key costs fuel; a round also costs budget. */
  ghost predicate Spends(s: State, t: State, e: Event, key: string) {
    && Bounded(t.queue, key)
    && Fuel(t, key) + One(Serves(s, e, key)) <= Fuel(s, key) + 64 * One(Enqueues(s, e, key))
    && Budget(t.queue, key) - One(key in t.queue.processing) + One(Starts(s, e, key))
       <= Budget(s.queue, key) - One(key in s.queue.processing) + 6 * One(Enqueues(s, e, key))
  }

  lemma RoundEndSpends(s: State, node: string, failed: bool, nodes: map<string, Labels.LabelMap>, e: WorkEvent, key: string)
    requires Sound(s) && Bounded(s.queue, key) && node in s.work
    requires e.ListerError? || e.SendPatch?
    requires e.node == node
    ensures Spends(s, EndRound(s, node, failed, nodes), WorkStep(e), key)
  {
    SettleBudget(s.queue, node, failed, key);
  }

  lemma AddBudget(q: Queue, added: string, key: string)
    requires Bounded(q, key)
    ensures var r := Add(q, added);
            && NumRequeues(r, key) == NumRequeues(q, key)
            && (key in r.dirty <==> key in q.dirty || key == added)
            && r.processing == q.processing && r.waiting == q.waiting
  {
  }

  lemma DeliverSpends(s: State, key: string)
    requires WorkEnabled(s, Deliver) && Bounded(s.queue, key)
    ensures Spends(s, ApplyWork(s, Deliver), WorkStep(Deliver), key)
  {
    AddBudget(s.queue, Target(s.notices[0]), key);
  }

  lemma GetSpends(s: State, key: string)
    requires Sound(s) && WorkEnabled(s, Get) && Bounded(s.queue, key)
    ensures Spends(s, ApplyWork(s, Get), WorkStep(Get), key)
  {
  }

  lemma ElapseBudget(q: Queue, node: string, key: string)
    requires node in q.waiting
    ensures var r := Elapse(q, node);
            && NumRequeues(r, key) == NumRequeues(q, key) && r.processing == q.processing
            && (key in r.dirty <==> key in q.dirty || key == node)
            && (key in r.waiting <==> key in q.waiting && key != node)
  {
  }

  lemma DelayOverSpends(s: State, node: string, key: string)
    requires WorkEnabled(s, DelayOver(node)) && Bounded(s.queue, key)
    ensures Spends(s, s.(queue := Elapse(s.queue, node)), WorkStep(DelayOver(node)), key)
  {
    ElapseBudget(s.queue, node, key);
  }

  lemma WorkStepSpends(s: State, e: WorkEvent, key: string)
    requires Sound(s) && WorkEnabled(s, e) && Bounded(s.queue, key)
    ensures Spends(s, ApplyWork(s, e), WorkStep(e), key)
  {
    match e {
      case SendPatch(node, reply) =>
        var round := RoundOf(node, s.work[node], reply);
        RoundEndSpends(s, node, RoundFails(round, s.nodes, node), RoundNodes(round, s.nodes, node), e, key);
      case ListerError(node) => RoundEndSpends(s, node, true, s.nodes, e, key);
      case ReadNode(_) =>
      case ListPods(_, _) =>
      case Deliver => DeliverSpends(s, key);
      case Get => GetSpends(s, key);
      case DelayOver(node) => DelayOverSpends(s, node, key);
    }
  }

  lemma OtherStepsSpendNothing(setup: Setup, s: State, e: Event)
    requires Enabled(setup, Ticked(s), e) && !e.WorkStep?
    ensures Apply(setup, s, e).queue == s.queue && Apply(setup, s, e).work == s.work
  {
  }

  /** The history plays no part in what a step spends. */
  lemma SpendsUnticked(s: State, t: State, e: Event, key: string)
    requires Spends(Ticked(s), t, e, key)
    ensures Spends(s, t, e, key)
  {
  }

  lemma IdleSpends(s: State, t: State, e: Event, key: string)
    requires t.queue == s.queue && t.work == s.work && !e.WorkStep? && Bounded(s.queue, key)
    ensures Spends(s, t, e, key)
  {
  }

  lemma StepSpends(setup: Setup, s: State, e: Event, key: string)
    requires Sound(s) && Enabled(setup, Ticked(s), e) && Bounded(s.queue, key)
    ensures Spends(s, Apply(setup, s, e), e, key)
  {
    if e.WorkStep? {
      var t := Ticked(s);
      assert Sound(t);
      WorkStepSpends(t, e.w, key);
      SpendsUnticked(s, ApplyWork(t, e.w), e, key);
    } else {
      OtherStepsSpendNothing(setup, s, e);
      IdleSpends(s, Apply(setup, s, e), e, key);
    }
  }

  // ---- Runs ----------------------------------------------------------------------------

  datatype Tally = Tally(enqueued: nat, started: nat, served: nat)

  /** What a run did for the key: notices that enqueued it, rounds started, and controller steps. */
  ghost function Count(setup: Setup, s: State, events: seq<Event>, key: string): Tally
    requires Legal(setup, s, events)
    decreases |events|
  {
    if events == [] then Tally(0, 0, 0)
    else
      var e := events[0];
      var rest := Count(setup, Apply(setup, s, e), events[1..], key);
      Tally(rest.enqueued + One(Enqueues(s, e, key)), rest.started + One(Starts(s, e, key)), rest.served + One(Serves(s, e, key)))
  }

  lemma {:induction false} RunSpends(setup: Setup, s: State, events: seq<Event>, key: string)
    requires Sound(s) && Legal(setup, s, events) && Bounded(s.queue, key)
    ensures var t := After(setup, s, events);
            var n := Count(setup, s, events, key);
            && Sound(t) && Bounded(t.queue, key)
            && Fuel(t, key) + n.served <= Fuel(s, key) + 64 * n.enqueued
            && Budget(t.queue, key) - One(key in t.queue.processing) + n.started
               <= Budget(s.queue, key) - One(key in s.queue.processing) + 6 * n.enqueued
    decreases |events|
  {
    if events != [] {
      StepSound(setup, s, events[0]);
      StepSpends(setup, s, events[0], key);
      RunSpends(setup, Apply(setup, s, events[0]), events[1..], key);
    }
  }

  /** With k notices for a node that was not on the queue, whatever succeeds or fails, the node is
      reconciled at most 6k times and the controller takes at most 64k steps for it. */
  lemma RetriesAreBounded(setup: Setup, s: State, events: seq<Event>, node: string)
    requires Sound(s) && Legal(setup, s, events)
    requires Presences(s.queue, node) == 0 && NumRequeues(s.queue, node) == 0
    ensures Count(setup, s, events, node).started <= 6 * Count(setup, s, events, node).enqueued
    ensures Count(setup, s, events, node).served <= 64 * Count(setup, s, events, node).enqueued
  {
    RunSpends(setup, s, events, node);
    BudgetPositive(After(setup, s, events).queue, node);
  }

  lemma BudgetPositive(q: Queue, key: string)
    requires Bounded(q, key)
    ensures Budget(q, key) >= One(key in q.processing)
    ensures Presences(q, key) > 0 ==> Budget(q, key) > 0
  {
  }

  /** A failed round of the key at the head of the line, and the end of its retry's delay, if there is a retry. */
  function FailedRound(q: Queue): Queue {
    if q.order == [] then q
    else
      var key := q.order[0];
      var r := Settle(Take(q), key, true);
      if key in r.waiting then Elapse(r, key) else r
  }

  function FailedRounds(q: Queue, rounds: nat): Queue {
    if rounds == 0 then q else FailedRound(FailedRounds(q, rounds - 1))
  }

  /** The bound is tight: a node that always fails is processed six times and then leaves the queue. */
  lemma SixRoundsExactly(key: string)
    ensures forall rounds :: 0 <= rounds <= 5 ==> FailedRounds(Add(EMPTY, key), rounds).order == [key]
    ensures FailedRounds(Add(EMPTY, key), 6) == EMPTY
  {
    forall rounds | 0 <= rounds <= 5
      ensures FailedRounds(Add(EMPTY, key), rounds).order == [key]
    {
      FailuresCount(key, rounds);
    }
    FailuresCount(key, 5);
    FailedRoundCounts(5, key);
    assert FailedRounds(Add(EMPTY, key), 6) == FailedRound(FailedRounds(Add(EMPTY, key), 5));
  }

  lemma {:induction false} FailuresCount(key: string, rounds: nat)
    requires rounds <= 5
    ensures FailedRounds(Add(EMPTY, key), rounds) == OnlyKey(key, rounds)
  {
    if rounds > 0 {
      FailuresCount(key, rounds - 1);
      FailedRoundCounts(rounds - 1, key);
    }
  }

  function OnlyKey(key: string, failures: nat): Queue {
    Queue([key], {key}, {}, {}, if failures == 0 then map[] else map[key := failures])
  }

  lemma FailedRoundCounts(failures: nat, key: string)
    requires failures <= MAX_RETRIES
    ensures FailedRound(OnlyKey(key, failures)) == if failures < MAX_RETRIES then OnlyKey(key, failures + 1) else EMPTY
  {
  }

  /** Handling notices, ending rounds and waking retries append to the line and do not reorder it. */
  lemma LineKeepsOrder(s: State, e: WorkEvent)
    requires WorkEnabled(s, e)
    ensures e.Get? ==> ApplyWork(s, e).queue.order == s.queue.order[1..]
    ensures !e.Get? ==> s.queue.order <= ApplyWork(s, e).queue.order
  {
  }

  function Gets(events: seq<Event>): nat {
    if events == [] then 0 else One(events[0] == WorkStep(Get)) + Gets(events[1..])
  }

  /** No key starves: one that is at place i of the line is taken within the next i + 1 turns of the
      workers, whatever else is added meanwhile. */
  lemma {:induction false} ServedInTurn(setup: Setup, s: State, events: seq<Event>, i: nat)
    requires Legal(setup, s, events) && i < |s.queue.order| && Gets(events) > i
    ensures Count(setup, s, events, s.queue.order[i]).started > 0
    decreases |events|
  {
    var key, e, t := s.queue.order[i], events[0], Apply(setup, s, events[0]);
    if e.WorkStep? {
      LineKeepsOrder(Ticked(s), e.w);
    } else {
      OtherStepsSpendNothing(setup, s, e);
    }
    if !Starts(s, e, key) {
      var j := if e == WorkStep(Get) then i - 1 else i;
      assert t.queue.order[j] == key;
      ServedInTurn(setup, t, events[1..], j);
    }
  }

  // ---- Draining ------------------------------------------------------------------------

  /** Steps the controller can still take for any of the keys. */
  function TotalFuel(s: State, keys: seq<string>): int {
    if keys == [] then 0 else TotalFuel(s, keys[..|keys| - 1]) + Fuel(s, keys[|keys| - 1])
  }

  /** Steps of the workers, whatever their key; the handling of notices is not one. */
  function WorkerSteps(events: seq<Event>): nat {
    if events == [] then 0 else One(events[0].WorkStep? && !events[0].w.Deliver?) + WorkerSteps(events[1..])
  }

  predicate NoNotice(events: seq<Event>) {
    forall i :: 0 <= i < |events| ==> events[i] != WorkStep(Deliver)
  }

  /** The keys include all that the queue holds. */
  ghost predicate Covers(s: State, keys: seq<string>) {
    forall key :: Presences(s.queue, key) > 0 ==> key in keys
  }

  ghost predicate AllBounded(q: Queue) {
    forall key :: Bounded(q, key)
  }

  lemma {:induction false} TotalFuelSpent(s: State, t: State, e: Event, keys: seq<string>)
    requires e != WorkStep(Deliver) && forall key :: key in keys ==> Spends(s, t, e, key)
    ensures TotalFuel(t, keys) <= TotalFuel(s, keys)
    ensures (exists key :: key in keys && Serves(s, e, key)) ==> TotalFuel(t, keys) < TotalFuel(s, keys)
  {
    if keys != [] {
      var last := keys[|keys| - 1];
      assert keys == keys[..|keys| - 1] + [last] && last in keys;
      TotalFuelSpent(s, t, e, keys[..|keys| - 1]);
    }
  }

  /** Every step of a worker serves a key on the queue. */
  lemma ServesSomeKey(s: State, e: WorkEvent) returns (key: string)
    requires Sound(s) && WorkEnabled(s, e) && !e.Deliver?
    ensures Serves(s, WorkStep(e), key) && Presences(s.queue, key) > 0
  {
    if e.Get? {
      key := s.queue.order[0];
      assert key in s.queue.order;
    } else {
      key := e.node;
    }
  }

  lemma {:induction false} FuelBounded(s: State, keys: seq<string>)
    requires AllBounded(s.queue)
    ensures 0 <= TotalFuel(s, keys) <= 192 * |keys|
  {
    if keys != [] {
      FuelBounded(s, keys[..|keys| - 1]);
      BudgetPositive(s.queue, keys[|keys| - 1]);
    }
  }

  lemma StepCovers(setup: Setup, s: State, e: Event, keys: seq<string>)
    requires Sound(s) && Enabled(setup, Ticked(s), e) && e != WorkStep(Deliver) && Covers(s, keys) && AllBounded(s.queue)
    ensures Covers(Apply(setup, s, e), keys) && AllBounded(Apply(setup, s, e).queue)
  {
    forall key
      ensures Bounded(Apply(setup, s, e).queue, key)
      ensures Presences(Apply(setup, s, e).queue, key) > 0 ==> key in keys
    {
      StepSpends(setup, s, e, key);
    }
  }

  lemma {:induction false} WorkerStepsSpend(setup: Setup, s: State, events: seq<Event>, keys: seq<string>)
    requires Sound(s) && Legal(setup, s, events) && NoNotice(events) && Covers(s, keys) && AllBounded(s.queue)
    ensures var t := After(setup, s, events);
            && Sound(t) && AllBounded(t.queue) && TotalFuel(t, keys) + WorkerSteps(events) <= TotalFuel(s, keys)
    decreases |events|
  {
    if events != [] {
      var e, t := events[0], Apply(setup, s, events[0]);
      forall key | key in keys
        ensures Spends(s, t, e, key)
      {
        StepSpends(setup, s, e, key);
      }
      if e.WorkStep? {
        var key := ServesSomeKey(Ticked(s), e.w);
        assert key in keys && Serves(s, e, key);
      }
      TotalFuelSpent(s, t, e, keys);
      StepSound(setup, s, e);
      StepCovers(setup, s, e, keys);
      WorkerStepsSpend(setup, t, events[1..], keys);
    }
  }

  /** A step that a worker can take; a lister need not fail for it, unless the node is gone. */
  ghost predicate Progress(s: State, e: WorkEvent) {
    WorkEnabled(s, e) && !e.Deliver? && (e.ListerError? ==> e.node !in s.nodes)
  }

  predicate Drained(s: State) {
    s.queue.order == [] && s.queue.dirty == {} && s.queue.processing == {} && s.queue.waiting == {} && s.work == map[]
  }

  lemma Enumerated(pods: set<Objects.Pod>) returns (listing: seq<Objects.Pod>)
    ensures forall pod :: pod in listing <==> pod in pods
  {
    listing := [];
    if pods != {} {
      var one :| one in pods;
      var rest := Enumerated(pods - {one});
      listing := rest + [one];
    }
  }

  /** As long as anything is on the queue some worker can make progress. */
  lemma NeverStuck(s: State, key: string)
    requires Sound(s) && Presences(s.queue, key) > 0
    ensures exists e: WorkEvent :: Progress(s, e)
  {
    if key in s.queue.processing {
      match s.work[key] {
        case Claimed => assert Progress(s, if key in s.nodes then ReadNode(key) else ListerError(key));
        case NodeRead(_) =>
          var listing := Enumerated(s.pods.Values);
          assert Progress(s, ListPods(key, listing));
        case PodsListed(_, _) => assert Progress(s, SendPatch(key, Applied));
      }
    } else if key in s.queue.dirty {
      assert key in s.queue.order;
      assert Progress(s, Get);
    } else {
      assert Progress(s, DelayOver(key));
    }
  }

  lemma StuckMeansDrained(s: State)
    requires Sound(s) && forall e: WorkEvent :: !Progress(s, e)
    ensures Drained(s)
  {
    forall key
      ensures key !in s.queue.dirty && key !in s.queue.processing && key !in s.queue.waiting
    {
      if Presences(s.queue, key) > 0 {
        NeverStuck(s, key);
      }
    }
    assert !Progress(s, Get);
  }

  /** The queue drains: while no notice comes in, whatever succeeds, fails or happens elsewhere, the
      workers take at most 192 steps per key, and where they cannot go on nothing is left. */
  lemma QueueDrains(setup: Setup, s: State, events: seq<Event>, keys: seq<string>)
    requires Sound(s) && Legal(setup, s, events) && NoNotice(events) && Covers(s, keys) && AllBounded(s.queue)
    ensures WorkerSteps(events) <= 192 * |keys|
    ensures (forall e: WorkEvent :: !Progress(After(setup, s, events), e)) ==> Drained(After(setup, s, events))
  {
    WorkerStepsSpend(setup, s, events, keys);
    FuelBounded(s, keys);
    FuelBounded(After(setup, s, events), keys);
    if forall e: WorkEvent :: !Progress(After(setup, s, events), e) {
      StuckMeansDrained(After(setup, s, events));
    }
  }

  /** And from every state the workers can get there. */
  lemma {:induction false} CanDrain(setup: Setup, s: State, keys: seq<string>) returns (events: seq<Event>)
    requires Sound(s) && Covers(s, keys) && AllBounded(s.queue)
    ensures Legal(setup, s, events) && NoNotice(events) && Drained(After(setup, s, events))
    decreases TotalFuel(s, keys)
  {
    if forall e: WorkEvent :: !Progress(s, e) {
      StuckMeansDrained(s);
      return [];
    }
    var w: WorkEvent :| Progress(s, w);
    var e := WorkStep(w);
    WorkerStepsSpend(setup, s, [e], keys);
    StepCovers(setup, s, e, keys);
    StepSound(setup, s, e);
    FuelBounded(s, keys);
    FuelBounded(Apply(setup, s, e), keys);
    var rest := CanDrain(setup, Apply(setup, s, e), keys);
    OneMore(setup, s, e, rest);
    events := [e] + rest;
  }
}
