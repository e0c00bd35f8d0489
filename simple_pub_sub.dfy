/** The publish/subscribe hub and its per-subscriber async iterators, as objects whose
    methods change their fields in place. Each iterator method is tied to the function of
    StreamSpec that gives its effect on the iterator's state; the properties of those
    functions are proved there. */
module PubSub {
  import opened StreamSpec

  /** One delivery task scheduled by `emit`: run `push_value` of `target` on `event`. */
  datatype Delivery<V> = Delivery(target: SimplePubSubIterator<V>, event: V)

  function Targets<V>(tasks: seq<Delivery<V>>): set<SimplePubSubIterator<V>>
  {
    set i | 0 <= i < |tasks| :: tasks[i].target
  }

  lemma TargetsSnoc<V>(tasks: seq<Delivery<V>>, d: Delivery<V>)
    ensures Targets(tasks + [d]) == Targets(tasks) + {d.target}
  {
    var longer := tasks + [d];
    forall x | x in Targets(longer) ensures x in Targets(tasks) + {d.target} {
      var i :| 0 <= i < |longer| && longer[i].target == x;
      if i < |tasks| {
        assert tasks[i].target == x;
      }
    }
    forall x | x in Targets(tasks) + {d.target} ensures x in Targets(longer) {
      if x == d.target {
        assert longer[|tasks|].target == x;
      } else {
        var i :| 0 <= i < |tasks| && tasks[i].target == x;
        assert longer[i].target == x;
      }
    }
  }

  ghost predicate DistinctTargets<V>(tasks: seq<Delivery<V>>)
  {
    forall i, j | 0 <= i < j < |tasks| :: tasks[i].target != tasks[j].target
  }

  /** The loop invariant of `emit`: the tasks so far and the subscribers still to visit
      split the subscriber set, each visited subscriber has one task, and every task
      carries the event. */
  ghost predicate EmitProgress<V>(tasks: seq<Delivery<V>>, todo: set<SimplePubSubIterator<V>>,
                                  subscribers: set<SimplePubSubIterator<V>>, event: V)
  {
    && Targets(tasks) + todo == subscribers && Targets(tasks) !! todo
    && DistinctTargets(tasks)
    && forall i | 0 <= i < |tasks| :: tasks[i].event == event
  }

  /** Scheduling one more unvisited subscriber keeps the invariant of `emit`. */
  lemma EmitStep<V>(tasks: seq<Delivery<V>>, todo: set<SimplePubSubIterator<V>>,
                    subscribers: set<SimplePubSubIterator<V>>, event: V, s: SimplePubSubIterator<V>)
    requires EmitProgress(tasks, todo, subscribers, event) && s in todo
    ensures EmitProgress(tasks + [Delivery(s, event)], todo - {s}, subscribers, event)
  {
    TargetsSnoc(tasks, Delivery(s, event));
    var longer := tasks + [Delivery(s, event)];
    forall i, j | 0 <= i < j < |longer| ensures longer[i].target != longer[j].target {
      if j == |tasks| {
        assert longer[i].target in Targets(tasks);
      }
    }
  }

  lemma {:induction false} DistinctTargetsCount<V>(tasks: seq<Delivery<V>>)
    requires DistinctTargets(tasks)
    ensures |Targets(tasks)| == |tasks|
  {
    if tasks != [] {
      var front := tasks[..|tasks| - 1];
      var last := tasks[|tasks| - 1];
      assert tasks == front + [last];
      DistinctTargetsCount(front);
      TargetsSnoc(front, last);
      assert last.target !in Targets(front);
    }
  }

  /** The hub: the set of registered subscribers (the bound `push_value` of each open
      iterator, identified here with the iterator). */
  class SimplePubSub<V> {
    var subscribers: set<SimplePubSubIterator<V>>
    /** Every iterator ever created on this hub. */
    ghost var streams: set<SimplePubSubIterator<V>>

    /** The registered subscribers are exactly the iterators of this hub that are still
        listening: a closed iterator is always deregistered. */
    ghost predicate Valid()
      reads this, streams`listening
    {
      && subscribers <= streams
      && forall s | s in streams :: s.hub == this && (s in subscribers <==> s.listening)
    }

    /** Removing a stream that has just stopped listening keeps the registration
        invariant. */
    twostate lemma DeregisteredStillValid(s: SimplePubSubIterator<V>)
      requires old(Valid()) && s in old(streams) && !s.listening
      requires streams == old(streams) && subscribers == old(subscribers) - {s}
      requires forall t | t in streams && t != s :: t.listening == old(t.listening)
      ensures Valid()
    {
    }

    constructor ()
      ensures subscribers == {} && streams == {}
      ensures Valid()
    {
      subscribers := {};
      streams := {};
    }

    /** `emit`: one delivery task per registered subscriber, each subscriber once, in the
        set's iteration order; the result says whether anyone was subscribed. Nothing is
        delivered yet: the tasks run later (RunTasks). */
    method Emit(event: V) returns (r: bool, tasks: seq<Delivery<V>>)
      ensures r <==> subscribers != {}
      ensures Targets(tasks) == subscribers && DistinctTargets(tasks)
      ensures |tasks| == |subscribers|
      ensures forall i | 0 <= i < |tasks| :: tasks[i].event == event
    {
      var todo := subscribers;
      tasks := [];
      while todo != {}
        invariant EmitProgress(tasks, todo, subscribers, event)
        decreases todo
      {
        var s :| s in todo;
        EmitStep(tasks, todo, subscribers, event, s);
        tasks := tasks + [Delivery(s, event)];
        todo := todo - {s};
      }
      r := subscribers != {};
      DistinctTargetsCount(tasks);
    }

    /** `get_subscriber`: a new iterator on this hub, registered and listening. */
    method GetSubscriber(transform: Option<V -> Try<V>>) returns (s: SimplePubSubIterator<V>)
      requires Valid()
      modifies this
      ensures Valid()
      ensures fresh(s) && s.hub == this && s.transform == transform && s.State() == Initial()
      ensures subscribers == old(subscribers) + {s} && s !in old(subscribers)
      ensures streams == old(streams) + {s}
    {
      s := new SimplePubSubIterator(this, transform);
    }
  }

  /** One subscriber's stream: `pull` is the queue of waiting futures, `push` the queue of
      buffered values, `futures` the state of every future handed out. */
  class SimplePubSubIterator<V> {
    const hub: SimplePubSub<V>
    const transform: Option<V -> Try<V>>
    var listening: bool
    var pull: seq<nat>
    var push: seq<V>
    var futures: map<nat, FutureState<V>>
    var nextId: nat

    ghost function State(): StreamState<V>
      reads this
    {
      StreamState(listening, pull, push, futures, nextId)
    }

    ghost predicate Valid()
      reads this
    {
      Invariant(State())
    }

    /** Start listening with both queues empty, and register with the hub. */
    constructor (pubsub: SimplePubSub<V>, transform: Option<V -> Try<V>>)
      requires pubsub.Valid()
      modifies pubsub
      ensures hub == pubsub && this.transform == transform
      ensures State() == Initial() && Valid()
      ensures pubsub.subscribers == old(pubsub.subscribers) + {this}
      ensures pubsub.streams == old(pubsub.streams) + {this}
      ensures pubsub.Valid()
    {
      hub := pubsub;
      this.transform := transform;
      pull := [];
      push := [];
      futures := map[];
      nextId := 0;
      listening := true;
      new;
      pubsub.subscribers := pubsub.subscribers + {this};
      pubsub.streams := pubsub.streams + {this};
    }

    /** `__anext__` (without its yield to the event loop): end of iteration when not
        listening, else the oldest buffered value, else a fresh pending future. */
    method Next() returns (item: Item<V>)
      modifies this
      ensures old(Valid()) ==> Valid()
      ensures old(hub.Valid()) ==> hub.Valid()
      ensures (State(), item) == Pull(old(State()))
    {
      if !listening {
        return EndOfStream;
      }
      if |push| > 0 {
        item := Value(push[0]);
        push := push[1..];
      } else {
        var id := nextId;
        nextId := nextId + 1;
        futures := futures[id := Pending];
        pull := pull + [id];
        item := Waiter(id);
      }
    }

    /** `push_value`: the transform runs first; if it raises, nothing changes. Then the
        value resolves the oldest waiting future, or is buffered when none waits. Runs
        whether or not the iterator is still listening. */
    method PushValue(event: V) returns (raised: bool)
      modifies this
      ensures old(Valid()) ==> Valid()
      ensures raised <==> Transformed(transform, event).Raised?
      ensures State() == PushStep(old(State()), transform, event)
    {
      var value: V;
      match Transformed(transform, event)
      case Raised =>
        return true;
      case Returned(v) =>
        value := v;
      raised := false;
      if |pull| == 0 {
        push := push + [value];
      } else {
        var id := pull[0];
        pull := pull[1..];
        futures := futures[id := Resolved(value)];
      }
    }

    /** `empty_queue`: stop listening and deregister (`set.remove` raises KeyError when
        this iterator is not registered, after `listening` has been cleared), then cancel
        the waiting futures front to back and drop the buffered values. */
    method EmptyQueue() returns (keyError: bool)
      requires Valid() && hub.Valid() && this in hub.streams
      modifies this, hub
      ensures Valid() && hub.Valid() && hub.streams == old(hub.streams)
      ensures keyError <==> this !in old(hub.subscribers)
      ensures hub.subscribers == old(hub.subscribers) - {this}
      ensures keyError ==> State() == old(State()).(listening := false)
      ensures !keyError ==> State() == Shutdown(old(State()))
    {
      listening := false;
      if this !in hub.subscribers {
        return true;
      }
      hub.subscribers := hub.subscribers - {this};
      hub.DeregisteredStillValid(this);
      CancelWaiters();
      DropBuffered();
      keyError := false;
      ShutdownCancelsEveryWaiter(old(State()));
    }

    /** The first loop of `empty_queue`: take the waiting futures off the queue, oldest
        first, cancelling each. */
    method CancelWaiters()
      modifies this`pull, this`futures
      ensures pull == [] && futures == CancelAll(old(futures), old(pull))
    {
      ghost var waiting := pull;
      ghost var n := 0;
      while |pull| > 0
        invariant 0 <= n <= |waiting| && pull == waiting[n..]
        invariant futures == CancelAll(old(futures), waiting[..n])
        decreases |pull|
      {
        CancelAllSnoc(old(futures), waiting[..n], pull[0]);
        assert waiting[..n + 1] == waiting[..n] + [pull[0]];
        futures := CancelOne(futures, pull[0]);
        pull := pull[1..];
        n := n + 1;
      }
      assert waiting[..n] == waiting;
    }

    /** The second loop of `empty_queue`: take the buffered values off the queue and
        drop them. */
    method DropBuffered()
      modifies this`push
      ensures push == []
    {
      while |push| > 0
        decreases |push|
      {
        push := push[1..];
      }
    }

    /** `aclose`: a no-op once the iterator has stopped listening; otherwise `empty_queue`,
        which cannot raise here because a listening iterator is registered. */
    method Close()
      requires Valid() && hub.Valid() && this in hub.streams
      modifies this, hub
      ensures Valid() && hub.Valid() && hub.streams == old(hub.streams)
      ensures hub.subscribers == old(hub.subscribers) - {this}
      ensures State() == StreamSpec.Close(old(State()))
    {
      if listening {
        var keyError := EmptyQueue();
        assert !keyError;
      }
    }
  }

  /** The event loop running the delivery tasks `emit` scheduled, first to last, with
      nothing else in between: each task is one `push_value` on its own iterator. A task
      whose transform raises changes nothing and does not stop the others. */
  method RunTasks<V>(tasks: seq<Delivery<V>>)
    requires DistinctTargets(tasks)
    modifies Targets(tasks)
    ensures forall i | 0 <= i < |tasks| ::
      tasks[i].target.State() == PushStep(old(tasks[i].target.State()), tasks[i].target.transform, tasks[i].event)
    decreases |tasks|
  {
    if tasks != [] {
      var target := tasks[0].target;
      assert target in Targets(tasks);
      var _ := target.PushValue(tasks[0].event);
      var rest := tasks[1..];
      assert Targets(rest) <= Targets(tasks) by {
        forall x | x in Targets(rest) ensures x in Targets(tasks) {
          var j :| 0 <= j < |rest| && rest[j].target == x;
          assert tasks[j + 1].target == x;
        }
      }
      assert target !in Targets(rest) by {
        forall j | 0 <= j < |rest| ensures rest[j].target != target {
          assert tasks[0].target != tasks[j + 1].target;
        }
      }
      RunTasks(rest);
    }
  }

  /** Two subscribers without transforms on a fresh hub: one emitted event, once its
      tasks have run, is the next item of each of them. */
  method FanOut<V>(event: V) returns (delivered: bool, first: Item<V>, second: Item<V>)
    ensures delivered
    ensures first == Value(event) && second == Value(event)
  {
    var pubsub := new SimplePubSub<V>();
    var a := pubsub.GetSubscriber(None);
    var b := pubsub.GetSubscriber(None);
    var tasks;
    delivered, tasks := pubsub.Emit(event);
    assert a in Targets(tasks) && b in Targets(tasks);
    RunTasks(tasks);
    assert a.State() == StreamState(true, [], [event], map[], 0) by {
      var i :| 0 <= i < |tasks| && tasks[i].target == a;
    }
    assert b.State() == StreamState(true, [], [event], map[], 0) by {
      var i :| 0 <= i < |tasks| && tasks[i].target == b;
    }
    first := a.Next();
    second := b.Next();
  }
}
