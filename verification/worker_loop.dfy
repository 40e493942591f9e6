/**
 The listener loop of `command_listener` as a state machine. One iteration
 consumes the outcome of a blocking pop and emits abstract effects: a
 result write or a retry delay. The pop waits, with no timeout, on the
 queues `mcp::tasks::shell` and `mcp::tasks::docker`; the name of the
 queue that answered is carried in the event and never consulted. The
 broker, the clock and the JSON lexer are not modelled; a pop outcome is
 an `Event`, the lexer is a `Parser` parameter, and the docker run an
 iteration would observe travels with the event that triggers it.
 */
module WorkerLoop {
  import opened Results
  import opened Json
  import opened TaskEnvelope
  import opened Executor
  import opened ResultRecord

  /** Fixed, non-exponential delay after a failed pop. */
  const RetryDelaySeconds: nat := 5

  /** Turns payload text into a JSON document, or fails. */
  type Parser = string -> Option<JsonValue>

  datatype Event =
    | PopFailed(reason: string)
    | Popped(queue: string, payload: string, run: DockerRun)

  datatype Effect =
    | Write(key: string, value: string, ttl: nat)
    | Sleep(seconds: nat)

  /** `serde_json::from_str::<Task>`: lexing, then field decoding. */
  function Decode(parse: Parser, payload: string): Option<Task> {
    match parse(payload)
    case Some(doc) => DecodeTask(doc)
    case None => None
  }

  /** The task an event carries, if it carries one that decodes. */
  function TaskOf(parse: Parser, ev: Event): Option<Task> {
    if ev.Popped? then Decode(parse, ev.payload) else None
  }

  /** One pass of the loop body; no branch leaves the loop. A failed pop
      costs one fixed delay, an undecodable payload nothing, and a decoded
      task exactly one write: its key reads back to the task id, its value
      reads back to the executor's outcome, and it expires after
      `ResultTtl` seconds. */
  function Step(parse: Parser, ev: Event): (effects: seq<Effect>)
    ensures ev.PopFailed? ==> effects == [Sleep(RetryDelaySeconds)]
    ensures ev.Popped? && TaskOf(parse, ev).None? ==> effects == []
    ensures TaskOf(parse, ev).Some? ==>
      && |effects| == 1 && effects[0].Write?
      && TaskIdOf(effects[0].key) == Some(TaskOf(parse, ev).value.id)
      && ParseResultValue(effects[0].value) == Some(ExecuteTask(TaskOf(parse, ev).value, ev.run))
      && effects[0].ttl == ResultTtl
  {
    match ev
    case Popped(_, payload, run) =>
      (match Decode(parse, payload)
       case Some(task) =>
         ResultValueRoundTrip(ExecuteTask(task, run));
         [Write(ResultKey(task.id), ResultValue(ExecuteTask(task, run)), ResultTtl)]
       case None => [])
    case PopFailed(_) => [Sleep(RetryDelaySeconds)]
  }

  /** The queue an item arrived on plays no part in how it is handled. */
  lemma QueueNameIgnored(parse: Parser, q1: string, q2: string, payload: string, run: DockerRun)
    ensures Step(parse, Popped(q1, payload, run)) == Step(parse, Popped(q2, payload, run))
  {
  }

  /** The effects of the loop over a whole run of events, in order. */
  function Run(parse: Parser, evs: seq<Event>): seq<Effect>
    decreases |evs|
  {
    if |evs| == 0 then []
    else Run(parse, evs[..|evs| - 1]) + Step(parse, evs[|evs| - 1])
  }

  lemma RunSnoc(parse: Parser, evs: seq<Event>, ev: Event)
    ensures Run(parse, evs + [ev]) == Run(parse, evs) + Step(parse, ev)
  {
    assert (evs + [ev])[..|evs|] == evs;
  }

  lemma {:induction false} RunAppend(parse: Parser, a: seq<Event>, b: seq<Event>)
    ensures Run(parse, a + b) == Run(parse, a) + Run(parse, b)
    decreases |b|
  {
    if |b| == 0 {
      assert a + b == a;
    } else {
      var init := b[..|b| - 1];
      assert a + b == (a + init) + [b[|b| - 1]];
      assert b == init + [b[|b| - 1]];
      RunSnoc(parse, a + init, b[|b| - 1]);
      RunSnoc(parse, init, b[|b| - 1]);
      RunAppend(parse, a, init);
    }
  }

  function CountWrites(effects: seq<Effect>): nat
    decreases |effects|
  {
    if |effects| == 0 then 0
    else CountWrites(effects[..|effects| - 1]) + (if effects[|effects| - 1].Write? then 1 else 0)
  }

  function CountSleeps(effects: seq<Effect>): nat
    decreases |effects|
  {
    if |effects| == 0 then 0
    else CountSleeps(effects[..|effects| - 1]) + (if effects[|effects| - 1].Sleep? then 1 else 0)
  }

  function CountTasks(parse: Parser, evs: seq<Event>): nat
    decreases |evs|
  {
    if |evs| == 0 then 0
    else CountTasks(parse, evs[..|evs| - 1]) + (if TaskOf(parse, evs[|evs| - 1]).Some? then 1 else 0)
  }

  function CountPopFailures(evs: seq<Event>): nat
    decreases |evs|
  {
    if |evs| == 0 then 0
    else CountPopFailures(evs[..|evs| - 1]) + (if evs[|evs| - 1].PopFailed? then 1 else 0)
  }

  lemma {:induction false} CountsAppend(a: seq<Effect>, b: seq<Effect>)
    ensures CountWrites(a + b) == CountWrites(a) + CountWrites(b)
    ensures CountSleeps(a + b) == CountSleeps(a) + CountSleeps(b)
    decreases |b|
  {
    if |b| == 0 {
      assert a + b == a;
    } else {
      assert (a + b)[..|a + b| - 1] == a + b[..|b| - 1];
      CountsAppend(a, b[..|b| - 1]);
    }
  }

  /** Every decoded task leaves exactly one write, every failed pop exactly
      one delay, and nothing else produces an effect. */
  lemma {:induction false} RunCounts(parse: Parser, evs: seq<Event>)
    ensures CountWrites(Run(parse, evs)) == CountTasks(parse, evs)
    ensures CountSleeps(Run(parse, evs)) == CountPopFailures(evs)
    ensures |Run(parse, evs)| == CountTasks(parse, evs) + CountPopFailures(evs)
    decreases |evs|
  {
    if |evs| > 0 {
      var init := evs[..|evs| - 1];
      RunCounts(parse, init);
      CountsAppend(Run(parse, init), Step(parse, evs[|evs| - 1]));
      var s := Step(parse, evs[|evs| - 1]);
      // CountWrites and CountSleeps of a one-element Step unfold through
      // its empty prefix; naming s[..0] lets them reach their base case.
      assert s == [] || s[..0] == [];
    }
  }

  /** Every write carries the fixed expiry and every delay is five seconds. */
  lemma {:induction false} RunEffectsFixed(parse: Parser, evs: seq<Event>)
    ensures forall i :: 0 <= i < |Run(parse, evs)| && Run(parse, evs)[i].Write? ==>
      Run(parse, evs)[i].ttl == ResultTtl
    ensures forall i :: 0 <= i < |Run(parse, evs)| && Run(parse, evs)[i].Sleep? ==>
      Run(parse, evs)[i].seconds == RetryDelaySeconds
    decreases |evs|
  {
    if |evs| > 0 {
      RunEffectsFixed(parse, evs[..|evs| - 1]);
    }
  }

  /** The events with every undecodable payload removed. */
  function DropUndecodable(parse: Parser, evs: seq<Event>): seq<Event>
    decreases |evs|
  {
    if |evs| == 0 then []
    else
      var ev := evs[|evs| - 1];
      DropUndecodable(parse, evs[..|evs| - 1])
        + (if ev.Popped? && TaskOf(parse, ev).None? then [] else [ev])
  }

  /** A payload that fails to decode leaves no trace: the loop behaves as if
      it had never been delivered. */
  lemma {:induction false} UndecodableLeavesNoTrace(parse: Parser, evs: seq<Event>)
    ensures Run(parse, DropUndecodable(parse, evs)) == Run(parse, evs)
    decreases |evs|
  {
    if |evs| > 0 {
      var init := evs[..|evs| - 1];
      var ev := evs[|evs| - 1];
      UndecodableLeavesNoTrace(parse, init);
      if ev.Popped? && TaskOf(parse, ev).None? {
        assert DropUndecodable(parse, evs) == DropUndecodable(parse, init);
        assert Run(parse, evs) == Run(parse, init) + [];
      } else {
        RunSnoc(parse, DropUndecodable(parse, init), ev);
      }
    }
  }

  /** The same, for one bad delivery between any two stretches of events. */
  lemma BadPayloadInvisible(parse: Parser, before: seq<Event>, bad: Event, after: seq<Event>)
    requires bad.Popped? && TaskOf(parse, bad).None?
    ensures Run(parse, before + [bad] + after) == Run(parse, before + after)
  {
    var skipped := Run(parse, before);
    assert Step(parse, bad) == [];
    RunSnoc(parse, before, bad);
    assert Run(parse, before + [bad]) == skipped;
    RunAppend(parse, before + [bad], after);
    RunAppend(parse, before, after);
  }

  /** `command_listener`: handles events one by one for as long as they
      come; no event ends the loop. */
  method Listen(parse: Parser, evs: seq<Event>) returns (effects: seq<Effect>, handled: nat)
    ensures handled == |evs|
    ensures effects == Run(parse, evs)
  {
    effects := [];
    handled := 0;
    while handled < |evs|
      invariant handled <= |evs|
      invariant effects == Run(parse, evs[..handled])
    {
      var ev := evs[handled];
      match ev {
        case Popped(_, payload, run) =>
          match Decode(parse, payload) {
            case Some(task) =>
              var outcome := ExecuteTask(task, run);
              effects := effects + [Write(ResultKey(task.id), ResultValue(outcome), ResultTtl)];
            case None =>
          }
        case PopFailed(_) =>
          effects := effects + [Sleep(RetryDelaySeconds)];
      }
      assert evs[..handled + 1] == evs[..handled] + [ev];
      RunSnoc(parse, evs[..handled], ev);
      handled := handled + 1;
    }
    assert evs[..handled] == evs;
  }
}
