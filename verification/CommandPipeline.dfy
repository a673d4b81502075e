/** The uplink side of src/main.cpp: handlers, injected commands, and the drain of the command queue. */
module CommandPipeline {
  import opened Numeric
  import opened Wrappers
  import opened Json
  import opened CommandDeserializer
  import CommandQueueModel
  import opened CommandQueue
  import opened CommandHandler

  /** The six lambdas that main registers print and return SUCCESS. */
  function Succeed(cmd: Command): CommandResult {
    SUCCESS
  }

  /** Every opcode that fromJson can produce has a handler that succeeds. */
  ghost predicate CoversAllowlist(log: seq<Registration>) {
    forall opcode: Opcode :: opcode != UNKNOWN ==> Latest(log, opcode) == Some(Succeed)
  }

  /** Exactly these opcodes have a handler, and it succeeds. */
  ghost predicate Handles(log: seq<Registration>, opcodes: set<Opcode>) {
    forall opcode: Opcode :: Latest(log, opcode) == if opcode in opcodes then Some(Succeed) else None
  }

  lemma HandlesOneMore(log: seq<Registration>, opcodes: set<Opcode>, opcode: Opcode)
    requires Handles(log, opcodes)
    ensures Handles(log + [Registration(opcode, Succeed)], opcodes + {opcode})
  {
  }

  /** main's six registrations cover exactly what resolveOpcode can return besides UNKNOWN. */
  method RegisterCommandHandlers(handler: CommandHandler)
    requires handler.Valid() && handler.log == []
    modifies handler`handlers, handler`log
    ensures handler.Valid() && CoversAllowlist(handler.log)
    ensures Latest(handler.log, UNKNOWN) == None
  {
    hide Handles, Latest;
    NothingHandled();
    RegisterOne(handler, {}, NOOP);
    RegisterOne(handler, {NOOP}, SET_MODE);
    RegisterOne(handler, {NOOP} + {SET_MODE}, RESET_SUBSYSTEM);
    RegisterOne(handler, {NOOP} + {SET_MODE} + {RESET_SUBSYSTEM}, PAYLOAD_ON);
    RegisterOne(handler, {NOOP} + {SET_MODE} + {RESET_SUBSYSTEM} + {PAYLOAD_ON}, PAYLOAD_OFF);
    RegisterOne(handler, {NOOP} + {SET_MODE} + {RESET_SUBSYSTEM} + {PAYLOAD_ON} + {PAYLOAD_OFF}, DOWNLINK_TELEMETRY);
    AllSixHandled(handler.log);
  }

  method RegisterOne(handler: CommandHandler, ghost opcodes: set<Opcode>, opcode: Opcode)
    requires handler.Valid() && Handles(handler.log, opcodes)
    modifies handler`handlers, handler`log
    ensures handler.Valid() && Handles(handler.log, opcodes + {opcode})
  {
    HandlesOneMore(handler.log, opcodes, opcode);
    handler.RegisterHandler(opcode, Succeed);
  }

  lemma NothingHandled()
    ensures Handles([], {})
  {
  }

  lemma AllSixHandled(log: seq<Registration>)
    requires Handles(log, {NOOP} + {SET_MODE} + {RESET_SUBSYSTEM} + {PAYLOAD_ON} + {PAYLOAD_OFF} + {DOWNLINK_TELEMETRY})
    ensures CoversAllowlist(log) && Latest(log, UNKNOWN) == None
  {
  }

  // ------------------------------------------------------------------ from text to handler

  /** The commands that can be read from the texts, in order. */
  function Decodable(texts: seq<Text>, now: uint64): seq<Command> {
    if texts == [] then []
    else
      Decodable(texts[..|texts| - 1], now) +
      match Decode(texts[|texts| - 1], now)
      case Ok(cmd) => [cmd]
      case Err(_) => []
  }

  /** Text by text: each one that stands for a command contributes that command, and no other contributes. */
  lemma DecodableTextByText(before: seq<Text>, text: Text, after: seq<Text>, now: uint64)
    ensures Decodable(before + [text] + after, now)
         == Decodable(before, now) + Decodable([text], now) + Decodable(after, now)
    ensures forall cmd :: StandsFor(text, now, cmd) ==> Decodable([text], now) == [cmd]
    ensures (forall cmd :: !StandsFor(text, now, cmd)) ==> Decodable([text], now) == []
  {
    hide Decode, StandsFor, Decodable;
    DecodableConcat(before, [text], now);
    DecodableConcat(before + [text], after, now);
    DecodableOne(text, now);
    forall cmd ensures Decode(text, now) == Ok(cmd) <==> StandsFor(text, now, cmd) {
      DecodesToWhatItStandsFor(text, now, cmd);
    }
  }

  lemma DecodableOne(text: Text, now: uint64)
    ensures Decodable([text], now) == match Decode(text, now) case Ok(cmd) => [cmd] case Err(_) => []
  {
    assert [text][..0] == [];
  }

  lemma {:induction false} DecodableConcat(a: seq<Text>, b: seq<Text>, now: uint64)
    ensures Decodable(a + b, now) == Decodable(a, now) + Decodable(b, now)
    decreases |b|
  {
    hide Decode;
    if b == [] {
      assert a + b == a;
    } else {
      var init := b[..|b| - 1];
      DecodableConcat(a, init, now);
      assert (a + b)[..|a + b| - 1] == a + init;
    }
  }

  function Truncated(cmds: seq<Command>, depth: nat): seq<Command> {
    if |cmds| <= depth then cmds else cmds[..depth]
  }

  predicate Allowed(cmds: seq<Command>) {
    forall i :: 0 <= i < |cmds| ==> cmds[i].opcode != UNKNOWN
  }

  lemma {:induction false} DecodableIsAllowed(texts: seq<Text>, now: uint64)
    ensures Allowed(Decodable(texts, now))
  {
    if texts != [] {
      DecodableIsAllowed(texts[..|texts| - 1], now);
    }
  }

  /** injectCmd for each text: what can be decoded is pushed, what cannot or does not fit is dropped. */
  method Inject(queue: CommandQueue, texts: seq<Text>, now: uint64)
    requires queue.Valid() && queue.queue == [] && queue.blocked == {}
    modifies queue`queue, queue`blocked, queue`woken
    ensures queue.Valid() && queue.blocked == {}
    ensures queue.queue == Truncated(Decodable(texts, now), queue.maxDepth)
    ensures Allowed(queue.queue)
  {
    for n := 0 to |texts|
      invariant queue.Valid() && queue.blocked == {}
      invariant queue.queue == Truncated(Decodable(texts[..n], now), queue.maxDepth)
    {
      var decoded := FromJson(texts[n], now);
      assert texts[..n + 1][..n] == texts[..n];
      if decoded.Ok? {
        var _ := queue.Push(decoded.value, 0);
      }
    }
    assert texts[..|texts|] == texts;
    DecodableIsAllowed(texts, now);
  }

  lemma AllowedSucceeds(log: seq<Registration>, cmd: Command)
    requires CoversAllowlist(log) && cmd.opcode != UNKNOWN
    ensures Latest(log, cmd.opcode).Some? && Dispatched(log, cmd) == SUCCESS
  {
  }

  /** One turn of the drain: pop a command, if there is one, and dispatch it. */
  method ServeOne(queue: CommandQueue, handler: CommandHandler) returns (served: Option<CommandResult>)
    requires queue.Valid() && handler.Valid()
    requires CoversAllowlist(handler.log) && Allowed(queue.queue)
    modifies queue`queue, handler`calls
    ensures queue.Valid() && handler.Valid() && Allowed(queue.queue)
    ensures served.None? ==> old(queue.queue) == [] == queue.queue && handler.calls == old(handler.calls)
    ensures served.Some? ==>
              && served.value == SUCCESS
              && old(queue.queue) != []
              && queue.queue == old(queue.queue)[1..]
              && handler.calls == old(handler.calls) + [old(queue.queue)[0]]
  {
    hide Represents, CoversAllowlist, Latest, Dispatched, CommandQueueModel.NoLostWakeup;
    var cmd := queue.TryPop();
    if cmd == None { return None; }
    AllowedSucceeds(handler.log, cmd.value);
    var result := handler.Dispatch(cmd.value);
    served := Some(result);
  }

  /** Step 6 of the main loop: drain the queue; it ends because every turn removes a command. */
  method DrainCommands(queue: CommandQueue, handler: CommandHandler) returns (results: seq<CommandResult>)
    requires queue.Valid() && handler.Valid()
    requires CoversAllowlist(handler.log) && Allowed(queue.queue)
    modifies queue`queue, handler`calls
    ensures queue.Valid() && handler.Valid() && queue.queue == []
    ensures handler.calls == old(handler.calls) + old(queue.queue)
    ensures |results| == old(|queue.queue|) && forall i :: 0 <= i < |results| ==> results[i] == SUCCESS
  {
    hide Represents, CoversAllowlist, CommandQueueModel.NoLostWakeup;
    results := [];
    while true
      invariant queue.Valid() && handler.Valid() && Allowed(queue.queue)
      invariant |results| <= old(|queue.queue|) && queue.queue == old(queue.queue)[|results|..]
      invariant handler.calls == old(handler.calls) + old(queue.queue)[..|results|]
      invariant forall i :: 0 <= i < |results| ==> results[i] == SUCCESS
      decreases |queue.queue|
    {
      var served := ServeOne(queue, handler);
      if served == None { break; }
      results := results + [served.value];
    }
  }
}
