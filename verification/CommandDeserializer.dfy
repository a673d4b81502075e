/** src/serialization/CommandDeserializer.cpp */
module CommandDeserializer {
  import opened Numeric
  import opened Wrappers
  import opened Json

  /** Uplink command opcodes. */
  datatype Opcode =
    | NOOP
    | SET_MODE
    | RESET_SUBSYSTEM
    | PAYLOAD_ON
    | PAYLOAD_OFF
    | DOWNLINK_TELEMETRY
    | UNKNOWN

  /** The value of the enumerator. */
  function Byte(opcode: Opcode): uint8 {
    match opcode
    case NOOP => 0x01
    case SET_MODE => 0x10
    case RESET_SUBSYSTEM => 0x11
    case PAYLOAD_ON => 0x20
    case PAYLOAD_OFF => 0x21
    case DOWNLINK_TELEMETRY => 0x30
    case UNKNOWN => 0xFF
  }

  function ResolveOpcode(raw: uint8): Opcode {
    if raw == 0x01 then NOOP
    else if raw == 0x10 then SET_MODE
    else if raw == 0x11 then RESET_SUBSYSTEM
    else if raw == 0x20 then PAYLOAD_ON
    else if raw == 0x21 then PAYLOAD_OFF
    else if raw == 0x30 then DOWNLINK_TELEMETRY
    else UNKNOWN
  }

  const OPCODE_NAMES: map<uint8, string> :=
    map[0x01 := "NOOP", 0x10 := "SET_MODE", 0x11 := "RESET_SUBSYSTEM",
        0x20 := "PAYLOAD_ON", 0x21 := "PAYLOAD_OFF", 0x30 := "DOWNLINK_TELEMETRY"]

  function OpcodeName(opcode: Opcode): string {
    if Byte(opcode) in OPCODE_NAMES then OPCODE_NAMES[Byte(opcode)] else "UNKNOWN"
  }

  /** The enumeration, the switch and the name table agree, and no two opcodes share a byte or a name. */
  lemma OpcodeTablesAgree(opcode: Opcode, other: Opcode, raw: uint8)
    ensures ResolveOpcode(Byte(opcode)) == opcode
    ensures Byte(ResolveOpcode(raw)) == raw <==> raw in OPCODE_NAMES || raw == Byte(UNKNOWN)
    ensures ResolveOpcode(raw) != UNKNOWN <==> raw in OPCODE_NAMES
    ensures OpcodeName(opcode) == OpcodeName(other) <==> opcode == other
  {
  }

  /** Every opcode is logged under the name of its enumerator. */
  lemma OpcodeNames()
    ensures OpcodeName(NOOP) == "NOOP" && OpcodeName(SET_MODE) == "SET_MODE"
    ensures OpcodeName(RESET_SUBSYSTEM) == "RESET_SUBSYSTEM" && OpcodeName(PAYLOAD_ON) == "PAYLOAD_ON"
    ensures OpcodeName(PAYLOAD_OFF) == "PAYLOAD_OFF" && OpcodeName(DOWNLINK_TELEMETRY) == "DOWNLINK_TELEMETRY"
    ensures OpcodeName(UNKNOWN) == "UNKNOWN"
  {
  }

  datatype Command = Command(
    sequenceNumber: uint32,
    opcode: Opcode,
    subsystem: string,
    parameters: Json,
    timestampMs: uint64)

  /** How fromJson can fail. */
  datatype DecodeError =
    | Malformed                  // std::runtime_error: no JSON, or a required field is missing
    | Disallowed(raw: uint8)     // std::invalid_argument: unknown opcode
    | Library(cause: JsonError)  // whatever a get<T> of the JSON library does

  function Lift<T>(r: Result<T, JsonError>): Result<T, DecodeError> {
    match r
    case Ok(value) => Ok(value)
    case Err(error) => Err(Library(error))
  }

  /** `value(key, fallback)` on an object. */
  function StringOr(j: Json, key: string, fallback: string): Result<string, JsonError> {
    if Contains(j, key) then GetString(j.fields[key]) else Ok(fallback)
  }

  function Uint64Or(j: Json, key: string, fallback: uint64): Result<uint64, JsonError> {
    if Contains(j, key) then GetUint64(j.fields[key]) else Ok(fallback)
  }

  function TreeOr(j: Json, key: string, fallback: Json): Json {
    if Contains(j, key) then j.fields[key] else fallback
  }

  /** What fromJson makes of a text when the clock shows now. */
  function Decode(text: Text, now: uint64): Result<Command, DecodeError> {
    if text.Garbage? then Err(Malformed)
    else
      var j := text.tree;
      if !Contains(j, "opcode") || !Contains(j, "sequence_number") then Err(Malformed)
      else
        var sequenceNumber :- Lift(GetUint32(j.fields["sequence_number"]));
        var raw :- Lift(GetUint8(j.fields["opcode"]));
        if ResolveOpcode(raw) == UNKNOWN then Err(Disallowed(raw))
        else
          var subsystem :- Lift(StringOr(j, "subsystem", ""));
          var timestampMs :- Lift(Uint64Or(j, "timestamp_ms", now));
          Ok(Command(sequenceNumber, ResolveOpcode(raw), subsystem, TreeOr(j, "parameters", Object(map[])), timestampMs))
  }

  /** fromJson: a local command is filled field by field, with early exits. */
  method FromJson(text: Text, now: uint64) returns (r: Result<Command, DecodeError>)
    ensures r == Decode(text, now)
    ensures r == Err(Malformed) <==> !IsComplete(text)
    ensures r.Ok? ==> StandsFor(text, now, r.value)
    ensures r.Ok? ==> r.value.opcode != UNKNOWN
  {
    if Decode(text, now).Ok? {
      DecodesToWhatItStandsFor(text, now, Decode(text, now).value);
    }
    if text.Garbage? {
      return Err(Malformed);
    }
    var j := text.tree;
    if !Contains(j, "opcode") || !Contains(j, "sequence_number") {
      return Err(Malformed);
    }
    var cmd := Command(0, UNKNOWN, "", Null, 0);
    var sequenceNumber :- Lift(GetUint32(j.fields["sequence_number"]));
    cmd := cmd.(sequenceNumber := sequenceNumber);
    var raw :- Lift(GetUint8(j.fields["opcode"]));
    cmd := cmd.(opcode := ResolveOpcode(raw));
    if cmd.opcode == UNKNOWN {
      return Err(Disallowed(raw));
    }
    var subsystem :- Lift(StringOr(j, "subsystem", ""));
    cmd := cmd.(subsystem := subsystem);
    cmd := cmd.(parameters := TreeOr(j, "parameters", Object(map[])));
    var timestampMs :- Lift(Uint64Or(j, "timestamp_ms", now));
    cmd := cmd.(timestampMs := timestampMs);
    r := Ok(cmd);
  }

  // ------------------------------------------------------------------ what can come out of it

  /** A value that get<uint64_t> accepts. */
  predicate IsNumber(j: Json) {
    j.Integer? || j.Float?
  }

  /** A value that get<uint8_t> and get<uint32_t> accept. */
  predicate IsScalar(j: Json) {
    IsNumber(j) || j.Boolean?
  }

  /** A scalar whose conversion to an unsigned type of this many values is defined. */
  predicate Fits(j: Json, modulus: int)
    requires modulus > 0
  {
    IsScalar(j) && (j.Float? ==> j.d.Finite? && 0 <= Truncate(j.d.value) < modulus)
  }

  predicate HasRequiredFields(j: Json) {
    Contains(j, "opcode") && Contains(j, "sequence_number")
  }

  /** The required fields are there and convert, and the opcode is on the allowlist. */
  predicate IsAllowed(j: Json) {
    && HasRequiredFields(j)
    && Fits(j.fields["sequence_number"], TWO_TO_32)
    && Fits(j.fields["opcode"], TWO_TO_8)
    && GetUint8(j.fields["opcode"]).value in OPCODE_NAMES
  }

  predicate SubsystemIsFine(j: Json)
    requires j.Object?
  {
    "subsystem" in j.fields ==> j.fields["subsystem"].String?
  }

  /** Text that is JSON and has the two required fields. */
  predicate IsComplete(text: Text) {
    text.Source? && HasRequiredFields(text.tree)
  }

  /** Exactly the texts reported as std::runtime_error. */
  lemma MalformedTexts(text: Text, now: uint64)
    ensures Decode(text, now) == Err(Malformed) <==> !IsComplete(text)
  {
  }

  /** The text stands for the command: what each field is read from, and what it is if it is missing. */
  ghost predicate StandsFor(text: Text, now: uint64, cmd: Command) {
    && IsComplete(text)
    && var fields := text.tree.fields;
    && ConvertsTo(fields["sequence_number"], TWO_TO_32, cmd.sequenceNumber)
    && ConvertsTo(fields["opcode"], TWO_TO_8, Byte(cmd.opcode))
    && cmd.opcode != UNKNOWN
    && (if "subsystem" in fields then fields["subsystem"] == String(cmd.subsystem) else cmd.subsystem == "")
    && (if "parameters" in fields then fields["parameters"] == cmd.parameters else cmd.parameters == Object(map[]))
    && (if "timestamp_ms" in fields then
          !fields["timestamp_ms"].Boolean? && ConvertsTo(fields["timestamp_ms"], TWO_TO_64, cmd.timestampMs)
        else cmd.timestampMs == now)
  }

  /** A text is decoded to a command if and only if it stands for it. */
  lemma DecodesToWhatItStandsFor(text: Text, now: uint64, cmd: Command)
    ensures Decode(text, now) == Ok(cmd) <==> StandsFor(text, now, cmd)
  {
    hide ConvertsTo, GetUint8, GetUint32, GetUint64;
    if IsComplete(text) {
      var fields := text.tree.fields;
      UnsignedAccessors(fields["sequence_number"], cmd.sequenceNumber);
      UnsignedAccessors(fields["opcode"], Byte(cmd.opcode));
      if "timestamp_ms" in fields {
        UnsignedAccessors(fields["timestamp_ms"], cmd.timestampMs);
      }
    }
  }

  /** Exactly the texts that fromJson accepts. */
  lemma AcceptedTexts(text: Text, now: uint64)
    ensures Decode(text, now).Ok? <==>
              && IsComplete(text)
              && IsAllowed(text.tree)
              && SubsystemIsFine(text.tree)
              && ("timestamp_ms" in text.tree.fields ==>
                    && IsNumber(text.tree.fields["timestamp_ms"])
                    && Fits(text.tree.fields["timestamp_ms"], TWO_TO_64))
  {
  }

  /** The required fields of the text, or with a good opcode the optional ones, are of the wrong type. */
  predicate IsMistyped(text: Text) {
    && IsComplete(text)
    && var j := text.tree;
    || !IsScalar(j.fields["sequence_number"])
    || (Fits(j.fields["sequence_number"], TWO_TO_32) && !IsScalar(j.fields["opcode"]))
    || (&& IsAllowed(j)
        && (|| !SubsystemIsFine(j)
            || ("timestamp_ms" in j.fields && !IsNumber(j.fields["timestamp_ms"]))))
  }

  /** Exactly the texts that make the JSON library throw its own type_error. */
  lemma TypeErrorTexts(text: Text, now: uint64)
    ensures Decode(text, now) == Err(Library(TypeError)) <==> IsMistyped(text)
  {
  }

  /** Exactly the texts refused as std::invalid_argument, with the byte the message quotes. */
  lemma DisallowedTexts(text: Text, now: uint64, raw: uint8)
    ensures Decode(text, now) == Err(Disallowed(raw)) <==>
              && IsComplete(text)
              && Fits(text.tree.fields["sequence_number"], TWO_TO_32)
              && ConvertsTo(text.tree.fields["opcode"], TWO_TO_8, raw)
              && raw !in OPCODE_NAMES
  {
    hide ConvertsTo;
    if IsComplete(text) {
      UnsignedAccessors(text.tree.fields["opcode"], raw);
    }
  }

  /** Besides these outcomes there is only the undefined conversion of a number that does not fit. */
  lemma OtherLibraryFailures(text: Text, now: uint64, cause: JsonError)
    requires Decode(text, now) == Err(Library(cause))
    ensures cause == TypeError || cause == UndefinedCast
    ensures cause == UndefinedCast ==>
              && IsComplete(text)
              && exists key <- {"sequence_number", "opcode", "timestamp_ms"} ::
                   && key in text.tree.fields && text.tree.fields[key].Float?
                   && !Fits(text.tree.fields[key], if key == "opcode" then TWO_TO_8 else if key == "timestamp_ms" then TWO_TO_64 else TWO_TO_32)
  {
  }

  /**
   * The allowlist is applied to the low byte of the number in the text: the opcode executed is
   * the number sent if and only if that number fits in a byte.
   */
  lemma OpcodeIsNarrowed(j: Json, now: uint64, n: JsonInt)
    requires j.Object? && "opcode" in j.fields && j.fields["opcode"] == Integer(n)
    requires Decode(Source(j), now).Ok?
    ensures Byte(Decode(Source(j), now).value.opcode) == n % TWO_TO_8
    ensures Byte(Decode(Source(j), now).value.opcode) == n <==> 0 <= n < TWO_TO_8
  {
  }

  /** The shortest text of a command, as main injects it. */
  function ShortTree(sequenceNumber: uint32, opcode: JsonInt): Json {
    Object(map["sequence_number" := Integer(sequenceNumber), "opcode" := Integer(opcode)])
  }

  function ShortCommand(sequenceNumber: uint32, opcode: Opcode, now: uint64): Command {
    Command(sequenceNumber, opcode, "", Object(map[]), now)
  }

  lemma ShortText(sequenceNumber: uint32, opcode: JsonInt, now: uint64)
    ensures var raw := opcode % TWO_TO_8;
            Decode(Source(ShortTree(sequenceNumber, opcode)), now)
            == if ResolveOpcode(raw) == UNKNOWN then Err(Disallowed(raw))
               else Ok(ShortCommand(sequenceNumber, ResolveOpcode(raw), now))
  {
  }

  /** What the numbers mean on the uplink, with the optional fields left out. */
  lemma UplinkOpcodes(n: uint32, now: uint64)
    ensures Decode(Source(ShortTree(n, 0x01)), now) == Ok(ShortCommand(n, NOOP, now))
    ensures Decode(Source(ShortTree(n, 0x10)), now) == Ok(ShortCommand(n, SET_MODE, now))
    ensures Decode(Source(ShortTree(n, 0x11)), now) == Ok(ShortCommand(n, RESET_SUBSYSTEM, now))
    ensures Decode(Source(ShortTree(n, 0x20)), now) == Ok(ShortCommand(n, PAYLOAD_ON, now))
    ensures Decode(Source(ShortTree(n, 0x21)), now) == Ok(ShortCommand(n, PAYLOAD_OFF, now))
    ensures Decode(Source(ShortTree(n, 0x30)), now) == Ok(ShortCommand(n, DOWNLINK_TELEMETRY, now))
  {
    hide Decode, ShortTree, ShortCommand;
    ShortText(n, 0x01, now);
    ShortText(n, 0x10, now);
    ShortText(n, 0x11, now);
    ShortText(n, 0x20, now);
    ShortText(n, 0x21, now);
    ShortText(n, 0x30, now);
  }

  /** ... and there are numbers beyond a byte: 257 is taken for NOOP. */
  lemma OpcodeBeyondAByte(now: uint64)
    ensures Decode(Source(ShortTree(1, 257)), now) == Ok(ShortCommand(1, NOOP, now))
  {
  }

  /** The text a ground station writes for a command. */
  function CommandTree(cmd: Command): Json {
    Object(map["sequence_number" := Integer(cmd.sequenceNumber),
               "opcode" := Integer(Byte(cmd.opcode)),
               "subsystem" := String(cmd.subsystem),
               "parameters" := cmd.parameters,
               "timestamp_ms" := Integer(cmd.timestampMs)])
  }

  /** Every allowed command written out in full is read back as it was, whatever the clock shows. */
  lemma CommandRoundTrip(cmd: Command, now: uint64)
    ensures Decode(Source(CommandTree(cmd)), now)
         == if cmd.opcode == UNKNOWN then Err(Disallowed(0xFF)) else Ok(cmd)
  {
  }
}
