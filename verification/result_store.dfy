/**
 The broker's key-value side as the loop's writes leave it, assuming each
 write is stored. A write replaces whatever the key held before, so
 results overwrite rather than accumulate.
 */
module ResultStore {
  import opened Results
  import opened Executor
  import opened ResultRecord
  import opened WorkerLoop

  type Store = map<string, string>

  /** The store after a sequence of effects; delays leave it unchanged. */
  function Apply(store: Store, effects: seq<Effect>): Store
    decreases |effects|
  {
    if |effects| == 0 then store
    else
      var before := Apply(store, effects[..|effects| - 1]);
      match effects[|effects| - 1]
      case Write(key, value, _) => before[key := value]
      case Sleep(_) => before
  }

  lemma {:induction false} ApplyAppend(store: Store, a: seq<Effect>, b: seq<Effect>)
    ensures Apply(store, a + b) == Apply(Apply(store, a), b)
    decreases |b|
  {
    if |b| == 0 {
      assert a + b == a;
    } else {
      assert (a + b)[..|a + b| - 1] == a + b[..|b| - 1];
      ApplyAppend(store, a, b[..|b| - 1]);
    }
  }

  /** Processing a task sets its result key to the formatted outcome and
      touches no other key. */
  lemma StepOverwrites(parse: Parser, store: Store, ev: Event)
    requires TaskOf(parse, ev).Some?
    ensures Apply(store, Step(parse, ev)) ==
      store[ResultKey(TaskOf(parse, ev).value.id) := ResultValue(ExecuteTask(TaskOf(parse, ev).value, ev.run))]
  {
    var effects := Step(parse, ev);
    // Apply of the one-element Step unfolds through its empty prefix;
    // naming effects[..0] lets it reach the base case `store`.
    assert effects[..0] == [];
  }

  /** Anything other than a decoded task leaves the store as it was. */
  lemma StepWithoutTaskKeepsStore(parse: Parser, store: Store, ev: Event)
    requires TaskOf(parse, ev).None?
    ensures Apply(store, Step(parse, ev)) == store
  {
    var effects := Step(parse, ev);
    // As in StepOverwrites: a one-element Step (a delay) unfolds Apply
    // through its empty prefix.
    assert effects == [] || effects[..0] == [];
  }

  /** Handling the same delivery twice leaves the same store as once. */
  lemma RedeliveryIdempotent(parse: Parser, store: Store, ev: Event)
    ensures Apply(store, Step(parse, ev) + Step(parse, ev)) == Apply(store, Step(parse, ev))
  {
    ApplyAppend(store, Step(parse, ev), Step(parse, ev));
    var once := Apply(store, Step(parse, ev));
    if TaskOf(parse, ev).Some? {
      StepOverwrites(parse, store, ev);
      StepOverwrites(parse, once, ev);
    } else {
      StepWithoutTaskKeepsStore(parse, store, ev);
      StepWithoutTaskKeepsStore(parse, once, ev);
    }
  }

  /** Some event of `evs` carries a decodable task with this id. */
  predicate Delivered(parse: Parser, evs: seq<Event>, id: string) {
    exists i :: 0 <= i < |evs| && TaskOf(parse, evs[i]).Some? && TaskOf(parse, evs[i]).value.id == id
  }

  lemma DeliveredSnoc(parse: Parser, evs: seq<Event>, ev: Event, id: string)
    ensures Delivered(parse, evs + [ev], id) <==>
      Delivered(parse, evs, id) || (TaskOf(parse, ev).Some? && TaskOf(parse, ev).value.id == id)
  {
    var all := evs + [ev];
    if Delivered(parse, evs, id) {
      var i :| 0 <= i < |evs| && TaskOf(parse, evs[i]).Some? && TaskOf(parse, evs[i]).value.id == id;
      assert all[i] == evs[i];
    }
    if TaskOf(parse, ev).Some? && TaskOf(parse, ev).value.id == id {
      assert all[|evs|] == ev;
    }
    if Delivered(parse, all, id) {
      var i :| 0 <= i < |all| && TaskOf(parse, all[i]).Some? && TaskOf(parse, all[i]).value.id == id;
      if i < |evs| {
        assert evs[i] == all[i];
      }
    }
  }

  /** The store after one more event, in terms of the store before it. */
  lemma ApplyRunSnoc(parse: Parser, evs: seq<Event>, ev: Event)
    ensures TaskOf(parse, ev).Some? ==>
      (Apply(map[], Run(parse, evs + [ev])) ==
       Apply(map[], Run(parse, evs))[ResultKey(TaskOf(parse, ev).value.id) := ResultValue(ExecuteTask(TaskOf(parse, ev).value, ev.run))])
    ensures TaskOf(parse, ev).None? ==> Apply(map[], Run(parse, evs + [ev])) == Apply(map[], Run(parse, evs))
  {
    RunSnoc(parse, evs, ev);
    ApplyAppend(map[], Run(parse, evs), Step(parse, ev));
    var before := Apply(map[], Run(parse, evs));
    if TaskOf(parse, ev).Some? {
      StepOverwrites(parse, before, ev);
    } else {
      StepWithoutTaskKeepsStore(parse, before, ev);
    }
  }

  /** Starting from an empty store, a task id has a result record exactly
      when some delivered payload decoded to a task with that id. */
  lemma {:induction false} RecordIffDecoded(parse: Parser, evs: seq<Event>, id: string)
    ensures ResultKey(id) in Apply(map[], Run(parse, evs)) <==> Delivered(parse, evs, id)
    decreases |evs|
  {
    if |evs| > 0 {
      var init := evs[..|evs| - 1];
      var ev := evs[|evs| - 1];
      assert evs == init + [ev];
      RecordIffDecoded(parse, init, id);
      ApplyRunSnoc(parse, init, ev);
      DeliveredSnoc(parse, init, ev, id);
      if TaskOf(parse, ev).Some? {
        ResultKeyInjective(id, TaskOf(parse, ev).value.id);
      }
    }
  }

  /** Starting from an empty store, every key the loop writes is a result
      key: it reads back to a task id. */
  lemma {:induction false} StoreHoldsOnlyResultKeys(parse: Parser, evs: seq<Event>)
    ensures forall key :: key in Apply(map[], Run(parse, evs)) ==> TaskIdOf(key).Some?
    decreases |evs|
  {
    if |evs| > 0 {
      var init := evs[..|evs| - 1];
      var ev := evs[|evs| - 1];
      assert evs == init + [ev];
      StoreHoldsOnlyResultKeys(parse, init);
      ApplyRunSnoc(parse, init, ev);
    }
  }
}
