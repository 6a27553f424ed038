/** The consumer object: `checkpoint` configures the store, `consume` attaches
    a stream and builds the pipeline parser -> hook -> checkpoint counter,
    `onEvent` registers the hook. The pipeline's three stages are composed
    here, one chunk at a time (`Consumer.Receive`) and over a whole stream
    (`Pipe`). */
module SseConsumer {
  import opened Wrappers
  import opened EventParser
  import opened Checkpointing
  import opened HookAck

  /** The errors the consumer throws, one per guard. */
  datatype Error =
    | MissingOptions            // checkpoint without options
    | MissingRedisUrl           // checkpoint with a falsy redisUrl
    | RequiresFunction          // consume with a non-function
    | CouldNotEstablishStream   // the stream constructor threw
    | NotReadableStream         // the constructor returned something else
    | StreamNotConsumed         // onEvent before consume
    | MissingOnListener         // onEvent on a stream without `on`

  /** The message each error carries. */
  function Message(e: Error): string
  {
    match e
    case MissingOptions => "You must supply options"
    case MissingRedisUrl => "You must supply a Redis url"
    case RequiresFunction => "Module requires function"
    case CouldNotEstablishStream => "Could not establish SSE stream"
    case NotReadableStream => "Constructor did not return a readable stream"
    case StreamNotConsumed => "A stream must be consumed first"
    case MissingOnListener => "The stream must have an `on` listener"
  }

  /** No two guards throw the same message, so a caller can tell from the
      message alone which guard refused it. */
  lemma MessagesDistinct(e1: Error, e2: Error)
    ensures Message(e1) == Message(e2) <==> e1 == e2
  {
    // the seven messages already differ in length
    if Message(e1) == Message(e2) {
      assert |Message(e1)| == |Message(e2)|;
    }
  }

  /** The options of `checkpoint`: the store URL ("" stands for any falsy
      value) and the message limit (None for a missing or falsy one; a truthy
      value that is not a number is not modelled). */
  datatype CheckpointOptions = CheckpointOptions(redisUrl: string, messages: Option<int>)

  /** A store client, created once for the URL it was first given. */
  datatype StoreClient = StoreClient(url: string)

  /** What the stream constructor returns: a readable stream (identified by
      its source) or any other value. */
  datatype JsValue = ReadableStream(source: nat) | OtherValue

  /** What calling the stream constructor does. */
  datatype ConstructorCall = Throws | Returns(value: JsValue)

  /** The argument of `consume`: not a function, or a function whose call
      behaves as given. */
  datatype StreamArg = NotAFunction | StreamConstructor(call: ConstructorCall)

  /** The wrapped stream the consumer holds, and whether it has an `on`
      method. */
  datatype Stream = Stream(source: nat, hasOn: bool)

  /** The registered hook: none (or a falsy handler), or a function that gives,
      for each record, what it returns on each attempt. */
  datatype EventHook = NoHook | Hook(respond: Event -> nat -> HookResult)

  /** What the hook stage does with record `e`: without a hook it passes;
      with one, at most 1 + retries attempts are made. */
  function Offer(hook: EventHook, e: Event, retries: nat): (d: Delivery)
    ensures hook.NoHook? <==> d.PassedThrough?
    ensures hook.Hook? ==> 1 <= d.attempts <= retries + 1
  {
    match hook
    case NoHook => PassedThrough
    case Hook(respond) => Deliver(respond(e), retries)
  }

  /** The consumer's configuration as the pipeline sees it. */
  datatype Config = Config(hasClient: bool, limit: Option<int>, hook: EventHook, retries: nat)

  /** A chunk from the stream and what the clock reads when it is handled. */
  datatype Incoming = Incoming(raw: string, now: int)

  /** What one chunk does: the new parser state and message count, the record
      that reaches the checkpoint stage (if any) and the store writes. */
  datatype Handled = Handled(parser: ParserState, count: int, pushed: Option<Event>, issued: seq<StoreWrite>)

  /** One chunk through the whole pipeline. */
  function Handle(cfg: Config, st: ParserState, count: int, inc: Incoming): Handled
  {
    var parsed := Step(st, inc.raw);
    if parsed.1.Some? && !Offer(cfg.hook, parsed.1.value, cfg.retries).Abandoned? then
      var t := Tally(count, cfg.hasClient, cfg.limit, Arrival(parsed.1.value.id, inc.now));
      Handled(parsed.0, t.0, parsed.1, t.1)
    else
      Handled(parsed.0, count, None, [])
  }

  /** Everything a stream has done so far: the parser state, the message
      count, the records that reached the checkpoint stage (with the arrivals
      the counter saw) and the store writes, in order. */
  datatype Flow = Flow(parser: ParserState, count: int, delivered: seq<Event>,
                       arrivals: seq<Arrival>, writes: seq<StoreWrite>)

  function Start(st: ParserState, count: int): Flow
  {
    Flow(st, count, [], [], [])
  }

  function Through(cfg: Config, f: Flow, inc: Incoming): Flow
  {
    var h := Handle(cfg, f.parser, f.count, inc);
    if h.pushed.None? then f.(parser := h.parser)
    else
      Flow(h.parser, h.count, f.delivered + [h.pushed.value],
           f.arrivals + [Arrival(h.pushed.value.id, inc.now)], f.writes + h.issued)
  }

  /** A sequence of chunks through the pipeline, in order. */
  function Pipe(cfg: Config, f: Flow, incs: seq<Incoming>): Flow
  {
    if incs == [] then f
    else Through(cfg, Pipe(cfg, f, incs[..|incs| - 1]), incs[|incs| - 1])
  }

  function Raws(incs: seq<Incoming>): (r: seq<string>)
    ensures |r| == |incs|
    ensures forall i :: 0 <= i < |incs| ==> r[i] == incs[i].raw
  {
    seq(|incs|, i requires 0 <= i < |incs| => incs[i].raw)
  }

  lemma RawsSnoc(incs: seq<Incoming>)
    requires incs != []
    ensures Raws(incs) == Raws(incs[..|incs| - 1]) + [incs[|incs| - 1].raw]
  {
  }

  /** The checkpoint stage sees exactly the records that got through the hook,
      in order, each with the time it arrived: the count and the writes after
      a stream are what the counter gives for that sequence of arrivals. */
  lemma {:induction false} PipeTally(cfg: Config, st: ParserState, c: int, incs: seq<Incoming>)
    ensures var r := Pipe(cfg, Start(st, c), incs);
      |r.arrivals| == |r.delivered| &&
      (forall k :: 0 <= k < |r.delivered| ==> r.arrivals[k].id == r.delivered[k].id) &&
      (r.count, r.writes) == TallyAll(c, cfg.hasClient, cfg.limit, r.arrivals)
  {
    if incs != [] {
      var inc := incs[|incs| - 1];
      PipeTally(cfg, st, c, incs[..|incs| - 1]);
      var p := Pipe(cfg, Start(st, c), incs[..|incs| - 1]);
      var h := Handle(cfg, p.parser, p.count, inc);
      var r := Pipe(cfg, Start(st, c), incs);
      assert r == Through(cfg, p, inc);
      if h.pushed.Some? {
        var a := Arrival(h.pushed.value.id, inc.now);
        assert r.arrivals == p.arrivals + [a];
        assert r.arrivals[..|r.arrivals| - 1] == p.arrivals;
        assert r.delivered == p.delivered + [h.pushed.value];
      }
    }
  }

  /** One chunk, when the hook never gives up on a record: the stage after
      the parser receives whatever the parser emits. */
  lemma ThroughNeverAbandoned(cfg: Config, f: Flow, inc: Incoming)
    requires forall e :: !Offer(cfg.hook, e, cfg.retries).Abandoned?
    ensures Through(cfg, f, inc).parser == Step(f.parser, inc.raw).0
    ensures Through(cfg, f, inc).delivered == f.delivered + Emitted(Step(f.parser, inc.raw).1)
  {
    var parsed := Step(f.parser, inc.raw);
    if parsed.1.None? {
      assert f.delivered + [] == f.delivered;
    } else {
      assert !Offer(cfg.hook, parsed.1.value, cfg.retries).Abandoned?;
    }
  }

  /** When the hook never gives up on a record (no hook at all, in particular),
      every record the parser emits reaches the checkpoint stage, and the
      parser ends where it would on its own. */
  lemma {:induction false} PipeNeverAbandoned(cfg: Config, st: ParserState, c: int, incs: seq<Incoming>)
    requires forall e :: !Offer(cfg.hook, e, cfg.retries).Abandoned?
    ensures var r := Pipe(cfg, Start(st, c), incs);
      r.parser == Run(st, Raws(incs)).0 && r.delivered == Run(st, Raws(incs)).1
  {
    if incs == [] {
      assert Raws(incs) == [];
    } else {
      var front := incs[..|incs| - 1];
      var inc := incs[|incs| - 1];
      PipeNeverAbandoned(cfg, st, c, front);
      var p := Pipe(cfg, Start(st, c), front);
      ThroughNeverAbandoned(cfg, p, inc);
      RawsSnoc(incs);
      RunChunkSnoc(st, Raws(front), inc.raw);
    }
  }

  /** Without a hook the records reach the checkpoint stage exactly as the
      parser emits them. */
  lemma NoHookPassesAll(limit: Option<int>, hasClient: bool, retries: nat, st: ParserState, c: int, incs: seq<Incoming>)
    ensures var r := Pipe(Config(hasClient, limit, NoHook, retries), Start(st, c), incs);
      r.parser == Run(st, Raws(incs)).0 && r.delivered == Run(st, Raws(incs)).1
  {
    PipeNeverAbandoned(Config(hasClient, limit, NoHook, retries), st, c, incs);
  }

  /** The k-th store write (from 0) records the id and the arrival time of
      the record at position WriteIndex(n, c, k) = n * (k + 1) - c - 1 (from 0)
      among those that got through the hook. */
  ghost predicate WritesFollow(n: int, c: int, delivered: seq<Event>, arrivals: seq<Arrival>, writes: seq<StoreWrite>)
  {
    |arrivals| == |delivered| &&
    forall k :: 0 <= k < |writes| ==>
      var j := WriteIndex(n, c, k);
      0 <= j < |delivered| &&
      writes[k] == StoreWrite(CheckpointKey, Checkpoint(arrivals[j].now, delivered[j].id))
  }

  /** What the counter makes of a sequence of arrivals, stated for the
      records they stand for. */
  lemma PeriodicRecords(n: int, c: int, delivered: seq<Event>, arrivals: seq<Arrival>, writes: seq<StoreWrite>)
    requires 1 <= n && 0 <= c < n
    requires |arrivals| == |delivered|
    requires forall k :: 0 <= k < |delivered| ==> arrivals[k].id == delivered[k].id
    requires writes == TallyAll(c, true, Some(n), arrivals).1
    ensures WritesFollow(n, c, delivered, arrivals, writes)
  {
    PeriodicWrites(c, n, arrivals);
  }

  /** With a client and a limit n >= 1, from a count c below n, the writes of
      a stream follow the records that got through the hook as WritesFollow
      says: every n-th of them, starting with the (n - c)-th. */
  lemma WritesRecordDelivered(cfg: Config, n: int, st: ParserState, c: int, incs: seq<Incoming>)
    requires cfg.hasClient && cfg.limit == Some(n) && 1 <= n && 0 <= c < n
    ensures var r := Pipe(cfg, Start(st, c), incs);
      WritesFollow(n, c, r.delivered, r.arrivals, r.writes)
  {
    PipeTally(cfg, st, c, incs);
    var r := Pipe(cfg, Start(st, c), incs);
    PeriodicRecords(n, c, r.delivered, r.arrivals, r.writes);
  }

  /** With a client and a start count that already reaches the limit n (a
      count left from records before `checkpoint`, or from a larger earlier
      limit): the first record that gets through the hook is written at once,
      and the rest of the stream is counted as from a fresh count of 0. */
  lemma OverLimitStreamWrites(cfg: Config, n: int, st: ParserState, c: int, incs: seq<Incoming>)
    requires cfg.hasClient && cfg.limit == Some(n) && c + 1 >= n
    ensures var r := Pipe(cfg, Start(st, c), incs);
      |r.arrivals| == |r.delivered| &&
      (r.arrivals != [] ==>
        r.writes == [WriteFor(r.arrivals[0])] + TallyAll(0, true, Some(n), r.arrivals[1..]).1 &&
        r.arrivals[0].id == r.delivered[0].id &&
        r.count == TallyAll(0, true, Some(n), r.arrivals[1..]).0)
  {
    PipeTally(cfg, st, c, incs);
    var r := Pipe(cfg, Start(st, c), incs);
    if r.arrivals != [] {
      OverLimitFirstWrites(c, n, r.arrivals);
    }
  }

  /** The consumer object. `checkpoint`, `consume` and `onEvent` each return
      the consumer itself on success, hence `Success(this)`. */
  class Consumer {
    var messageCount: int
    var messageLimit: Option<int>
    var redisClient: Option<StoreClient>
    var stream: Option<Stream>
    var eventHook: EventHook
    /** The parser state of the pipeline built by the latest `consume`. */
    var pipeline: LineParser?

    function Settings(retries: nat): Config
      reads this
    {
      Config(redisClient.Some?, messageLimit, eventHook, retries)
    }

    constructor ()
      ensures messageCount == 0 && messageLimit == None && redisClient == None
      ensures stream == None && eventHook == NoHook && pipeline == null
    {
      messageCount := 0;
      messageLimit := None;
      redisClient := None;
      stream := None;
      eventHook := NoHook;
      pipeline := null;
    }

    /** Configures checkpointing. A falsy or zero message limit becomes 3; a
        client already present is kept, whatever the new URL. */
    method Checkpoint(options: Option<CheckpointOptions>) returns (r: Result<Consumer, Error>)
      modifies this
      ensures options.None? ==> r == Failure(MissingOptions) && unchanged(this)
      ensures options.Some? && options.value.redisUrl == "" ==>
        r == Failure(MissingRedisUrl) && unchanged(this)
      ensures options.Some? && options.value.redisUrl != "" ==>
        r == Success(this) &&
        messageLimit == Some(if options.value.messages.None? || options.value.messages.value == 0
                             then 3 else options.value.messages.value) &&
        redisClient == (if old(redisClient).Some? then old(redisClient)
                        else Some(StoreClient(options.value.redisUrl))) &&
        messageCount == old(messageCount) && stream == old(stream) &&
        eventHook == old(eventHook) && pipeline == old(pipeline)
    {
      if options.None? {
        return Failure(MissingOptions);
      }
      var opts := options.value;
      if opts.redisUrl == "" {
        return Failure(MissingRedisUrl);
      }
      messageLimit := Some(if opts.messages.None? || opts.messages.value == 0 then 3 else opts.messages.value);
      if redisClient.None? {
        redisClient := Some(StoreClient(opts.redisUrl));
      }
      return Success(this);
    }

    /** Attaches the stream the constructor returns and builds a fresh pipeline
        whose parser starts empty. The message count, the store and the hook
        carry over. `invoked` tells whether the constructor was called: once
        for any function, even when what it returns is then refused. */
    method Consume(arg: StreamArg) returns (r: Result<Consumer, Error>, invoked: bool)
      modifies this
      ensures invoked <==> arg.StreamConstructor?
      ensures arg.NotAFunction? ==> r == Failure(RequiresFunction) && unchanged(this)
      ensures arg == StreamConstructor(Throws) ==> r == Failure(CouldNotEstablishStream) && unchanged(this)
      ensures arg == StreamConstructor(Returns(OtherValue)) ==> r == Failure(NotReadableStream) && unchanged(this)
      ensures arg.StreamConstructor? && arg.call.Returns? && arg.call.value.ReadableStream? ==>
        r == Success(this) &&
        stream == Some(Stream(arg.call.value.source, true)) &&
        pipeline != null && fresh(pipeline) && pipeline.State() == Initial &&
        messageCount == old(messageCount) && messageLimit == old(messageLimit) &&
        redisClient == old(redisClient) && eventHook == old(eventHook)
    {
      if arg.NotAFunction? {
        return Failure(RequiresFunction), false;
      }
      invoked := true;
      if arg.call.Throws? {
        return Failure(CouldNotEstablishStream), invoked;
      }
      if !arg.call.value.ReadableStream? {
        return Failure(NotReadableStream), invoked;
      }
      stream := Some(Stream(arg.call.value.source, true));
      pipeline := new LineParser();
      r := Success(this);
    }

    /** Registers the hook, once a stream with an `on` method is attached. */
    method OnEvent(handler: EventHook) returns (r: Result<Consumer, Error>)
      modifies this
      ensures old(stream).None? ==> r == Failure(StreamNotConsumed) && unchanged(this)
      ensures old(stream).Some? && !old(stream).value.hasOn ==>
        r == Failure(MissingOnListener) && unchanged(this)
      ensures old(stream).Some? && old(stream).value.hasOn ==>
        r == Success(this) && eventHook == handler &&
        messageCount == old(messageCount) && messageLimit == old(messageLimit) &&
        redisClient == old(redisClient) && stream == old(stream) && pipeline == old(pipeline)
    {
      if stream.None? {
        return Failure(StreamNotConsumed);
      }
      if !stream.value.hasOn {
        return Failure(MissingOnListener);
      }
      eventHook := handler;
      return Success(this);
    }

    /** The hook stage for one record: without a hook the record passes;
        otherwise it is offered again and again, as the retry operation
        schedules, until it is acknowledged or the budget runs out. */
    method TryCallback(chunk: Event, retries: nat) returns (d: Delivery)
      ensures d == Offer(eventHook, chunk, retries)
    {
      if eventHook.NoHook? {
        return PassedThrough;
      }
      var respond := eventHook.respond(chunk);
      var attempt: nat := 0;
      var left: nat := retries;
      while true
        invariant Attempt(respond, attempt, left) == Deliver(respond, retries)
        decreases left
      {
        var result := respond(attempt);
        AttemptStep(respond, attempt, left);
        if Acknowledges(result) {
          return Pushed(attempt + 1);
        }
        if result == Thenable(Rejected(false)) {
          // `retry` with a falsy reason schedules nothing, whatever is left
          return Abandoned(attempt + 1);
        }
        if left == 0 {
          if result == Thenable(Fulfilled(false)) {
            return Pushed(attempt + 1);
          }
          return Abandoned(attempt + 1);
        }
        attempt, left := attempt + 1, left - 1;
      }
    }

    /** The checkpoint stage for one record that got through the hook. */
    method CreateRedis(chunk: Event, now: int) returns (issued: seq<StoreWrite>)
      modifies this
      ensures (messageCount, issued) ==
        Tally(old(messageCount), old(redisClient).Some?, old(messageLimit), Arrival(chunk.id, now))
      ensures messageLimit == old(messageLimit) && redisClient == old(redisClient) &&
        stream == old(stream) && eventHook == old(eventHook) && pipeline == old(pipeline)
    {
      messageCount := messageCount + 1;
      issued := [];
      if redisClient.Some? && messageLimit.Some? && messageCount >= messageLimit.value {
        messageCount := 0;
        issued := [WriteFor(Arrival(chunk.id, now))];
      }
    }

    /** One chunk from the stream through parser, hook and checkpoint stage. */
    method Receive(raw: string, now: int, retries: nat) returns (pushed: Option<Event>, issued: seq<StoreWrite>)
      requires pipeline != null
      modifies this, pipeline
      ensures pipeline == old(pipeline) && stream == old(stream) && eventHook == old(eventHook) &&
        redisClient == old(redisClient) && messageLimit == old(messageLimit)
      ensures Handled(pipeline.State(), messageCount, pushed, issued) ==
        Handle(old(Settings(retries)), old(pipeline.State()), old(messageCount), Incoming(raw, now))
      ensures issued != [] ==> pushed.Some? && messageCount == 0
    {
      var out := pipeline.Feed(raw);
      if out.None? {
        return None, [];
      }
      var d := TryCallback(out.value, retries);
      if d.Abandoned? {
        return None, [];
      }
      issued := CreateRedis(out.value, now);
      pushed := out;
    }
  }
}
