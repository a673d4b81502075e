/** src/command/CommandHandler.cpp */
module CommandHandler {
  import opened Numeric
  import opened Wrappers
  import opened Json
  import opened CommandDeserializer

  datatype CommandResult = SUCCESS | REJECTED | TIMEOUT | ERROR

  type Callback = Command -> CommandResult

  /** One call of registerHandler. */
  datatype Registration = Registration(opcode: Opcode, callback: Callback)

  /** The handler in force: the one registered last for this opcode, searching the log backwards. */
  function Latest(log: seq<Registration>, opcode: Opcode): Option<Callback> {
    if log == [] then None
    else if log[|log| - 1].opcode == opcode then Some(log[|log| - 1].callback)
    else Latest(log[..|log| - 1], opcode)
  }

  /** What dispatching means, in terms of the registrations alone. */
  function Dispatched(log: seq<Registration>, cmd: Command): CommandResult {
    match Latest(log, cmd.opcode)
    case None => REJECTED
    case Some(callback) => callback(cmd)
  }

  /** Registration i is the last one for the opcode. */
  predicate IsLatest(log: seq<Registration>, opcode: Opcode, i: nat) {
    && i < |log| && log[i].opcode == opcode
    && forall j :: i < j < |log| ==> log[j].opcode != opcode
  }

  predicate NeverRegistered(log: seq<Registration>, opcode: Opcode) {
    forall i :: 0 <= i < |log| ==> log[i].opcode != opcode
  }

  lemma {:induction false} LatestAt(log: seq<Registration>, opcode: Opcode, i: nat)
    requires IsLatest(log, opcode, i)
    ensures Latest(log, opcode) == Some(log[i].callback)
  {
    if i < |log| - 1 {
      var init := log[..|log| - 1];
      assert forall j :: 0 <= j < |init| ==> init[j] == log[j];
      LatestAt(init, opcode, i);
    }
  }

  lemma {:induction false} LatestOfNone(log: seq<Registration>, opcode: Opcode)
    ensures NeverRegistered(log, opcode) <==> Latest(log, opcode) == None
  {
    if log != [] && log[|log| - 1].opcode != opcode {
      var init := log[..|log| - 1];
      LatestOfNone(init, opcode);
      assert forall i :: 0 <= i < |init| ==> init[i] == log[i];
    }
  }

  /** The search finds the last registration, and nothing iff there is none. */
  lemma LatestIsLast(log: seq<Registration>, opcode: Opcode)
    ensures NeverRegistered(log, opcode) <==> Latest(log, opcode) == None
    ensures forall i: nat | IsLatest(log, opcode, i) :: Latest(log, opcode) == Some(log[i].callback)
  {
    hide Latest;
    LatestOfNone(log, opcode);
    forall i: nat | IsLatest(log, opcode, i)
      ensures Latest(log, opcode) == Some(log[i].callback)
    {
      LatestAt(log, opcode, i);
    }
  }

  /**
   * A command goes to the handler registered last for its opcode, whatever that handler answers,
   * and is rejected if there was never one.
   */
  lemma DispatchedByLatest(log: seq<Registration>, cmd: Command)
    ensures NeverRegistered(log, cmd.opcode) ==> Dispatched(log, cmd) == REJECTED
    ensures forall i: nat | IsLatest(log, cmd.opcode, i) :: Dispatched(log, cmd) == log[i].callback(cmd)
  {
    LatestIsLast(log, cmd.opcode);
  }

  /** The table, keyed by opcode byte, represents the log. */
  ghost predicate Represents(handlers: map<uint8, Callback>, log: seq<Registration>) {
    forall opcode: Opcode ::
      && (Byte(opcode) in handlers <==> Latest(log, opcode).Some?)
      && (Byte(opcode) in handlers ==> Latest(log, opcode) == Some(handlers[Byte(opcode)]))
  }

  lemma RegisteringKeepsRepresentation(handlers: map<uint8, Callback>, log: seq<Registration>, r: Registration)
    requires Represents(handlers, log)
    ensures Represents(handlers[Byte(r.opcode) := r.callback], log + [r])
  {
  }

  /**
   * dispatchRaw either returns or lets a failure of the JSON library through: a json::type_error,
   * or the undefined behaviour of converting a floating-point number that is out of range.
   */
  datatype RawOutcome = Returned(result: CommandResult) | Escaped(cause: JsonError)

  function RawDispatched(log: seq<Registration>, text: Text, now: uint64): RawOutcome {
    match Decode(text, now)
    case Ok(cmd) => Returned(Dispatched(log, cmd))
    case Err(Disallowed(_)) => Returned(REJECTED)
    case Err(Malformed) => Returned(REJECTED)
    case Err(Library(cause)) => Escaped(cause)
  }

  /**
   * CommandHandler.h promises REJECTED on every deserialization failure. json::type_error is
   * neither a std::invalid_argument nor a std::runtime_error, so it escapes instead, and it does so
   * exactly on the texts listed here.
   */
  lemma TypeErrorEscapes(log: seq<Registration>, text: Text, now: uint64)
    ensures RawDispatched(log, text, now) == Escaped(TypeError) <==> IsMistyped(text)
  {
  }

  /** ... whereas text that is not JSON, a missing field and an opcode off the allowlist are REJECTED. */
  lemma BadTextsAreRejected(log: seq<Registration>, text: Text, now: uint64)
    ensures !IsComplete(text) ==> RawDispatched(log, text, now) == Returned(REJECTED)
    ensures forall raw: uint8 :: Decode(text, now) == Err(Disallowed(raw)) ==> RawDispatched(log, text, now) == Returned(REJECTED)
  {
  }

  /** A text that stands for a command is dispatched as that command. */
  lemma GoodTextsAreDispatched(log: seq<Registration>, text: Text, now: uint64, cmd: Command)
    requires StandsFor(text, now, cmd)
    ensures RawDispatched(log, text, now) == Returned(Dispatched(log, cmd))
  {
    hide StandsFor, Decode;
    DecodesToWhatItStandsFor(text, now, cmd);
  }

  /** For instance an opcode given as a string. */
  lemma OpcodeAsStringEscapes(log: seq<Registration>, now: uint64)
    ensures var text := Source(Object(map["sequence_number" := Integer(1), "opcode" := String("NOOP")]));
            RawDispatched(log, text, now) == Escaped(TypeError)
  {
  }

  class CommandHandler {
    var handlers: map<uint8, Callback>
    ghost var log: seq<Registration>   // the calls of registerHandler
    ghost var calls: seq<Command>      // the commands handed to a callback

    ghost predicate Valid()
      reads this
    {
      Represents(handlers, log)
    }

    constructor ()
      ensures Valid() && log == [] && calls == []
    {
      handlers, log, calls := map[], [], [];
    }

    /** registerHandler: replaces any handler already there for the opcode. */
    method RegisterHandler(opcode: Opcode, callback: Callback)
      requires Valid()
      modifies this`handlers, this`log
      ensures Valid() && log == old(log) + [Registration(opcode, callback)]
    {
      RegisteringKeepsRepresentation(handlers, log, Registration(opcode, callback));
      handlers := handlers[Byte(opcode) := callback];
      log := log + [Registration(opcode, callback)];
    }

    method Dispatch(cmd: Command) returns (result: CommandResult)
      requires Valid()
      modifies this`calls
      ensures Valid() && result == Dispatched(log, cmd)
      ensures calls == old(calls) + if Latest(log, cmd.opcode).Some? then [cmd] else []
      ensures NeverRegistered(log, cmd.opcode) ==> result == REJECTED && calls == old(calls)
      ensures forall i: nat | IsLatest(log, cmd.opcode, i) :: result == log[i].callback(cmd) && calls == old(calls) + [cmd]
    {
      LatestIsLast(log, cmd.opcode);
      assert Byte(cmd.opcode) in handlers <==> Latest(log, cmd.opcode).Some?;
      if Byte(cmd.opcode) !in handlers {
        return REJECTED;
      }
      calls := calls + [cmd];
      result := handlers[Byte(cmd.opcode)](cmd);
    }

    method DispatchRaw(text: Text, now: uint64) returns (outcome: RawOutcome)
      requires Valid()
      modifies this`calls
      ensures Valid() && outcome == RawDispatched(log, text, now)
      ensures calls == old(calls) +
                if Decode(text, now).Ok? && Latest(log, Decode(text, now).value.opcode).Some?
                then [Decode(text, now).value] else []
      ensures !IsComplete(text) ==> outcome == Returned(REJECTED) && calls == old(calls)
    {
      BadTextsAreRejected(log, text, now);
      var decoded := FromJson(text, now);
      match decoded
      case Ok(cmd) =>
        var result := Dispatch(cmd);
        outcome := Returned(result);
      case Err(Disallowed(_)) => outcome := Returned(REJECTED);
      case Err(Malformed) => outcome := Returned(REJECTED);
      case Err(Library(cause)) => outcome := Escaped(cause);
    }
  }
}
