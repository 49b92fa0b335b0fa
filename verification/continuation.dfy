/**
  The segment-continuation controller of the chat route: the `onFinish`
  handler that runs each time a provider call ends, and the first call
  that starts the chain.

  A provider call that stops because of its token ceiling (finish reason
  "length") is continued by a new call over the extended history, and the
  new call's stream is switched into the one consumer-facing stream. Any
  other finish reason closes that stream. Once the stream has been switched
  `maxSegments` times, a further "length" finish is an error.

  The provider itself is an oracle: a run is driven by the sequence of
  completion events it delivers, one per call, in order.
 */
module Continuation {
  import opened Switchable

  datatype Role = User | Assistant

  datatype Message = Message(role: Role, content: string)

  /** The `onFinish` closure. The route builds one per request and passes
      that same closure to every provider call it issues. */
  datatype Handler = SegmentHandler

  datatype Options = Options(toolChoice: string, onFinish: Handler)

  /** The options of the first call: tools disabled, continuation handler installed. */
  const RouteOptions: Options := Options("none", SegmentHandler)

  /** One provider call as issued: the history it was given and its options. */
  datatype Call = Call(history: seq<Message>, options: Options)

  /** The two constants the route imports: the segment ceiling and the
      text of the user message that asks the provider to go on. */
  datatype Config = Config(maxSegments: int, continuePrompt: string)

  /** What the provider reports when a call ends. */
  datatype Completion = Completion(text: string, finishReason: string)

  const LengthReason := "length"

  /** Everything the handler reads or changes: the message history, the
      switchable stream, the log of provider calls, and the options object
      the continuation calls are built from. */
  datatype Controller = Controller(
    messages: seq<Message>,
    stream: Stream,
    calls: seq<Call>,
    options: Options)

  /** How one invocation of the handler ended. `switchesLeft` is the value
      the handler logs before continuing. */
  datatype Outcome = Finished | LimitReached | Continued(switchesLeft: int)

  datatype Transition = Transition(next: Controller, outcome: Outcome)

  /** The state every controller of a live request keeps: one switch per
      call, the i-th attached source is the stream of the i-th call, every
      call used the request's options, and the latest call saw the whole
      history. */
  predicate Consistent(c: Controller) {
    && c.stream.Counted()
    && |c.calls| == |c.stream.attached|
    && (forall i :: 0 <= i < |c.calls| ==> c.stream.attached[i] == Source(i))
    && (forall i :: 0 <= i < |c.calls| ==> c.calls[i].options == c.options)
    && (|c.calls| > 0 ==> c.calls[|c.calls| - 1].history == c.messages)
  }

  /** The most provider calls one request can issue: the first call always
      happens, and a continuation needs the switch count below the ceiling. */
  function SegmentBound(cfg: Config): (b: nat)
    ensures b >= 1 && b >= cfg.maxSegments
  {
    if cfg.maxSegments < 1 then 1 else cfg.maxSegments
  }

  /** The two messages one continuation appends. */
  function ContinuationPair(text: string, prompt: string): seq<Message> {
    [Message(Assistant, text), Message(User, prompt)]
  }

  /** The first provider call with the request's history, its stream
      attached to a fresh switchable stream. */
  function Start(history: seq<Message>): (c: Controller)
    ensures Consistent(c)
    ensures c.messages == history && c.options == RouteOptions
    ensures c.calls == [Call(history, RouteOptions)]
    ensures c.stream.attached == [Source(0)] && c.stream.switches == 1
    ensures !c.stream.Closed()
  {
    var first := Call(history, RouteOptions);
    Controller(history, SwitchSource(Fresh, Source(0)), [first], RouteOptions)
  }

  /** The `onFinish` handler, applied to the completion event `e` of the
      latest call. */
  function OnFinish(cfg: Config, c: Controller, e: Completion): (t: Transition)
    // any reason other than "length" closes the stream once, and nothing else
    ensures t.outcome.Finished? <==> e.finishReason != LengthReason
    ensures t.outcome.Finished? ==>
              && t.next.messages == c.messages
              && t.next.calls == c.calls
              && t.next.stream.attached == c.stream.attached
              && t.next.stream.switches == c.stream.switches
              && t.next.stream.closes == c.stream.closes + 1
    // "length" at the ceiling is an error that touches nothing
    ensures t.outcome.LimitReached? <==>
              e.finishReason == LengthReason && c.stream.switches >= cfg.maxSegments
    ensures t.outcome.LimitReached? ==> t.next == c
    // otherwise the history grows by exactly the two continuation messages,
    // one call with the same options is issued and its stream is attached
    ensures t.outcome.Continued? ==>
              && t.outcome.switchesLeft >= 1
              && t.next.messages == c.messages + ContinuationPair(e.text, cfg.continuePrompt)
              && t.next.calls == c.calls + [Call(t.next.messages, c.options)]
              && t.next.stream.attached == c.stream.attached + [Source(|c.calls|)]
              && t.next.stream.switches == c.stream.switches + 1
              && t.next.stream.closes == c.stream.closes
    ensures t.next.options == c.options
    ensures Consistent(c) ==> Consistent(t.next)
  {
    if e.finishReason != LengthReason then
      Transition(c.(stream := Close(c.stream)), Finished)
    else if c.stream.switches >= cfg.maxSegments then
      Transition(c, LimitReached)
    else
      var switchesLeft := cfg.maxSegments - c.stream.switches;
      var history := c.messages + ContinuationPair(e.text, cfg.continuePrompt);
      var call := Call(history, c.options);
      var next := Controller(history, SwitchSource(c.stream, Source(|c.calls|)), c.calls + [call], c.options);
      Transition(next, Continued(switchesLeft))
  }

  /** Where a run stands: still waiting for the provider, closed cleanly,
      or stopped by the segment ceiling. */
  datatype Status = Waiting | Done | Aborted

  datatype RunState = RunState(ctl: Controller, status: Status)

  /** Feeds the completion events to the handler in order, stopping at the
      first one that does not continue. */
  function Run(cfg: Config, c: Controller, events: seq<Completion>): (r: RunState)
    // the history only grows, by two messages per call issued
    ensures c.messages <= r.ctl.messages
    ensures |c.calls| <= |r.ctl.calls|
    ensures |r.ctl.messages| == |c.messages| + 2 * (|r.ctl.calls| - |c.calls|)
    // close is called once on a clean end, never otherwise
    ensures r.ctl.stream.closes == c.stream.closes + (if r.status == Done then 1 else 0)
    // the options never change, and consistency is kept
    ensures r.ctl.options == c.options
    ensures Consistent(c) ==> Consistent(r.ctl)
    // the switch count never passes the ceiling (or 1, when the ceiling is below 1)
    ensures c.stream.switches <= SegmentBound(cfg) ==> r.ctl.stream.switches <= SegmentBound(cfg)
    decreases |events|
  {
    if |events| == 0 then
      RunState(c, Waiting)
    else
      var t := OnFinish(cfg, c, events[0]);
      match t.outcome
      case Finished => RunState(t.next, Done)
      case LimitReached => RunState(t.next, Aborted)
      case Continued(_) => Run(cfg, t.next, events[1..])
  }

  /** The history a run of continuations appends: per event, the partial
      answer as an assistant message and the continue prompt as a user message. */
  function Continuations(events: seq<Completion>, prompt: string): (ms: seq<Message>)
    ensures |ms| == 2 * |events|
  {
    if |events| == 0 then []
    else ContinuationPair(events[0].text, prompt) + Continuations(events[1..], prompt)
  }

  /** The appended history alternates: the j-th partial answer at 2j, a
      continue prompt right after it. */
  lemma {:induction false} ContinuationsAt(events: seq<Completion>, prompt: string, j: nat)
    requires j < |events|
    ensures Continuations(events, prompt)[2 * j] == Message(Assistant, events[j].text)
    ensures Continuations(events, prompt)[2 * j + 1] == Message(User, prompt)
    decreases j
  {
    if j > 0 {
      ContinuationsAt(events[1..], prompt, j - 1);
      assert events[1..][j - 1] == events[j];
    }
  }

  lemma ContinuationsCons(events: seq<Completion>, prompt: string)
    requires |events| > 0
    ensures Continuations(events, prompt) == ContinuationPair(events[0].text, prompt) + Continuations(events[1..], prompt)
  {
  }

  /** The sources attached by `k` continuations after `n` earlier calls. */
  function NextSources(n: nat, k: nat): (ss: seq<Source>)
    ensures |ss| == k && forall j :: 0 <= j < k ==> ss[j] == Source(n + j)
  {
    seq(k, j requires 0 <= j < k => Source(n + j))
  }

  /** The loop of the handler written out: the state machine driven by the
      event sequence, one event per iteration. */
  method Drive(cfg: Config, c: Controller, events: seq<Completion>) returns (r: RunState, used: nat)
    ensures r == Run(cfg, c, events)
    ensures used <= |events|
    ensures r.status == Waiting ==> used == |events|
    // every event consumed continued the run, except a terminal last one
    ensures |r.ctl.calls| == |c.calls| + used - (if r.status == Waiting then 0 else 1)
  {
    var cur := c;
    var i := 0;
    while i < |events|
      invariant 0 <= i <= |events|
      invariant Run(cfg, c, events) == Run(cfg, cur, events[i..])
      invariant |cur.calls| == |c.calls| + i
    {
      var t := OnFinish(cfg, cur, events[i]);
      match t.outcome {
        case Finished =>
          return RunState(t.next, Done), i + 1;
        case LimitReached =>
          return RunState(t.next, Aborted), i + 1;
        case Continued(_) =>
          assert events[i..][1..] == events[i + 1..];
          cur := t.next;
          i := i + 1;
      }
    }
    return RunState(cur, Waiting), i;
  }

  /** After `k` "length" events the provider finishes: with room for the
      `k` continuations, the run ends cleanly, having appended exactly the
      continuation messages and attached exactly `k` more sources. */
  lemma {:induction false} RoundsThenFinish(cfg: Config, c: Controller, events: seq<Completion>, k: nat)
    requires k < |events|
    requires forall j :: 0 <= j < k ==> events[j].finishReason == LengthReason
    requires events[k].finishReason != LengthReason
    requires k == 0 || c.stream.switches + k <= cfg.maxSegments
    ensures var r := Run(cfg, c, events);
            && r.status == Done
            && r.ctl.messages == c.messages + Continuations(events[..k], cfg.continuePrompt)
            && r.ctl.stream.attached == c.stream.attached + NextSources(|c.calls|, k)
            && r.ctl.stream.switches == c.stream.switches + k
            && |r.ctl.calls| == |c.calls| + k
            && r.ctl.stream.closes == c.stream.closes + 1
    decreases k
  {
    var t := OnFinish(cfg, c, events[0]);
    if k == 0 {
      assert t.outcome.Finished?;
      assert events[..0] == [];
      assert NextSources(|c.calls|, 0) == [];
    } else {
      assert t.outcome.Continued?;
      var rest := events[1..];
      forall j | 0 <= j < k - 1
        ensures rest[j].finishReason == LengthReason
      {
        assert rest[j] == events[j + 1];
      }
      RoundsThenFinish(cfg, t.next, rest, k - 1);
      var r := Run(cfg, t.next, rest);
      assert Run(cfg, c, events) == r;
      var prompt := cfg.continuePrompt;
      calc {
        r.ctl.messages;
        t.next.messages + Continuations(rest[..k - 1], prompt);
        c.messages + ContinuationPair(events[0].text, prompt) + Continuations(rest[..k - 1], prompt);
        { assert events[..k][1..] == rest[..k - 1];
          assert events[..k][0] == events[0];
          ContinuationsCons(events[..k], prompt); }
        c.messages + Continuations(events[..k], prompt);
      }
      var n := |c.calls|;
      assert t.next.stream.attached == c.stream.attached + [Source(n)];
      NextSourcesCons(n, k);
      assert r.ctl.stream.attached == c.stream.attached + NextSources(n, k);
    }
  }

  /** A provider that always reports "length" drives the stream exactly up
      to the ceiling and then stops with an error, without closing it. */
  lemma {:induction false} CeilingAborts(cfg: Config, c: Controller, events: seq<Completion>)
    requires forall j :: 0 <= j < |events| ==> events[j].finishReason == LengthReason
    requires 1 <= c.stream.switches <= SegmentBound(cfg)
    requires |events| > SegmentBound(cfg) - c.stream.switches
    ensures Run(cfg, c, events).status == Aborted
    ensures Run(cfg, c, events).ctl.stream.switches == SegmentBound(cfg)
    ensures |Run(cfg, c, events).ctl.calls| == |c.calls| + (SegmentBound(cfg) - c.stream.switches)
    ensures Run(cfg, c, events).ctl.stream.closes == c.stream.closes
    decreases |events|
  {
    var t := OnFinish(cfg, c, events[0]);
    if c.stream.switches >= cfg.maxSegments {
      assert t.outcome.LimitReached?;
    } else {
      assert t.outcome.Continued?;
      var rest := events[1..];
      forall j | 0 <= j < |rest|
        ensures rest[j].finishReason == LengthReason
      {
        assert rest[j] == events[j + 1];
      }
      CeilingAborts(cfg, t.next, rest);
    }
  }

  /** Over a whole request, the provider is called at most
      `max(1, maxSegments)` times, whatever it reports. */
  lemma CallBound(cfg: Config, history: seq<Message>, events: seq<Completion>)
    ensures |Run(cfg, Start(history), events).ctl.calls| <= SegmentBound(cfg)
  {
    var r := Run(cfg, Start(history), events);
    assert Consistent(r.ctl);
  }

  lemma NextSourcesCons(n: nat, k: nat)
    requires k > 0
    ensures NextSources(n, k) == [Source(n)] + NextSources(n + 1, k - 1)
  {
  }

  /** The three-segment example: two cut-off answers and a final one, with
      a ceiling of three. */
  lemma ThreeSegments(history: seq<Message>, prompt: string)
    ensures var cfg := Config(3, prompt);
            var events := [Completion("Hello", "length"), Completion(" world", "length"), Completion("!", "stop")];
            var r := Run(cfg, Start(history), events);
            && r.status == Done
            && r.ctl.stream.switches == 3
            && r.ctl.stream.attached == [Source(0), Source(1), Source(2)]
            && r.ctl.messages == history + [Message(Assistant, "Hello"), Message(User, prompt),
                                            Message(Assistant, " world"), Message(User, prompt)]
  {
    var cfg := Config(3, prompt);
    var events := [Completion("Hello", "length"), Completion(" world", "length"), Completion("!", "stop")];
    RoundsThenFinish(cfg, Start(history), events, 2);
    assert events[..2] == [events[0], events[1]];
    assert events[..2][1..] == [events[1]];
  }
}
