/** src/serialization/TelemetrySerializer.cpp */
module TelemetrySerializer {
  import opened Numeric
  import opened Wrappers
  import opened TelemetryFrame
  import opened Json

  function PowerTree(f: Frame): Json {
    Object(map["battery_voltage_v" := Float(f.batteryVoltageV),
               "battery_current_ma" := Float(f.batteryCurrentMa),
               "solar_input_w" := Float(f.solarInputW),
               "charge_pct" := Integer(f.chargePct)])
  }

  function ThermalTree(f: Frame): Json {
    Object(map["obc_temp_c" := Float(f.obcTempC),
               "battery_temp_c" := Float(f.batteryTempC),
               "payload_temp_c" := Float(f.payloadTempC)])
  }

  function ObcTree(f: Frame): Json {
    Object(map["cpu_usage_pct" := Integer(f.cpuUsagePct),
               "memory_usage_pct" := Integer(f.memoryUsagePct),
               "uptime_s" := Integer(f.uptimeS)])
  }

  function HealthTree(f: Frame): Json {
    Object(map["fault_active" := Boolean(f.faultActive),
               "safe_mode" := Boolean(f.safeMode),
               "last_fault_code" := Integer(f.lastFaultCode)])
  }

  function SubsystemsTree(f: Frame): Json {
    Object(map["power" := PowerTree(f),
               "thermal" := ThermalTree(f),
               "obc" := ObcTree(f)])
  }

  function FrameTree(f: Frame): Json {
    Object(map["frame_id" := Integer(f.frameId),
               "timestamp_ms" := Integer(f.timestampMs),
               "satellite_id" := String(f.satelliteId),
               "subsystems" := SubsystemsTree(f),
               "health_flags" := HealthTree(f)])
  }

  /** The datagram payload for a frame. */
  function Encode(f: Frame): Text {
    Source(Dumped(FrameTree(f)))
  }

  function DecodePower(power: Json): Result<(Double, Double, Double, uint8), JsonError> {
    var v :- At(power, "battery_voltage_v");
    var voltage :- GetDouble(v);
    var c :- At(power, "battery_current_ma");
    var current :- GetDouble(c);
    var s :- At(power, "solar_input_w");
    var solar :- GetDouble(s);
    var p :- At(power, "charge_pct");
    var charge :- GetUint8(p);
    Ok((voltage, current, solar, charge))
  }

  function DecodeThermal(thermal: Json): Result<(Double, Double, Double), JsonError> {
    var o :- At(thermal, "obc_temp_c");
    var obc :- GetDouble(o);
    var b :- At(thermal, "battery_temp_c");
    var battery :- GetDouble(b);
    var p :- At(thermal, "payload_temp_c");
    var payload :- GetDouble(p);
    Ok((obc, battery, payload))
  }

  function DecodeObc(obc: Json): Result<(uint8, uint8, uint64), JsonError> {
    var c :- At(obc, "cpu_usage_pct");
    var cpu :- GetUint8(c);
    var m :- At(obc, "memory_usage_pct");
    var memory :- GetUint8(m);
    var u :- At(obc, "uptime_s");
    var uptime :- GetUint64(u);
    Ok((cpu, memory, uptime))
  }

  function DecodeHealth(hf: Json): Result<(bool, bool, uint32), JsonError> {
    var a :- At(hf, "fault_active");
    var active :- GetBool(a);
    var s :- At(hf, "safe_mode");
    var safe :- GetBool(s);
    var c :- At(hf, "last_fault_code");
    var code :- GetUint32(c);
    Ok((active, safe, code))
  }

  function DecodeTree(j: Json): Result<Frame, JsonError> {
    var i :- At(j, "frame_id");
    var frameId :- GetUint64(i);
    var t :- At(j, "timestamp_ms");
    var timestampMs :- GetUint64(t);
    var s :- At(j, "satellite_id");
    var satelliteId :- GetString(s);
    var subsystems :- At(j, "subsystems");
    var powerTree :- At(subsystems, "power");
    var power :- DecodePower(powerTree);
    var thermalTree :- At(subsystems, "thermal");
    var thermal :- DecodeThermal(thermalTree);
    var obcTree :- At(subsystems, "obc");
    var obc :- DecodeObc(obcTree);
    var hf :- At(j, "health_flags");
    var health :- DecodeHealth(hf);
    Ok(Frame(frameId, timestampMs, satelliteId,
             power.0, power.1, power.2, power.3,
             thermal.0, thermal.1, thermal.2,
             obc.0, obc.1, obc.2,
             health.0, health.1, health.2))
  }

  function Decode(text: Text): Result<Frame, JsonError> {
    match text
    case Garbage => Err(ParseError)
    case Source(tree) => DecodeTree(tree)
  }

  // ------------------------------------------------------------------ round trip

  lemma DumpedFields(fields: map<string, Json>)
    ensures forall key :: key in fields ==> At(Dumped(Object(fields)), key) == Ok(Dumped(fields[key]))
  {
  }

  lemma PowerRoundTrip(f: Frame)
    ensures DecodePower(Dumped(PowerTree(f)))
         == if f.batteryVoltageV.Finite? && f.batteryCurrentMa.Finite? && f.solarInputW.Finite?
            then Ok((f.batteryVoltageV, f.batteryCurrentMa, f.solarInputW, f.chargePct))
            else Err(TypeError)
  {
    var fields := PowerTree(f).fields;
    assert fields["battery_voltage_v"] == Float(f.batteryVoltageV) && fields["charge_pct"] == Integer(f.chargePct);
    assert fields["battery_current_ma"] == Float(f.batteryCurrentMa) && fields["solar_input_w"] == Float(f.solarInputW);
    DumpedFields(fields);
  }

  lemma ThermalRoundTrip(f: Frame)
    ensures DecodeThermal(Dumped(ThermalTree(f)))
         == if f.obcTempC.Finite? && f.batteryTempC.Finite? && f.payloadTempC.Finite?
            then Ok((f.obcTempC, f.batteryTempC, f.payloadTempC))
            else Err(TypeError)
  {
    var fields := ThermalTree(f).fields;
    assert fields["obc_temp_c"] == Float(f.obcTempC) && fields["battery_temp_c"] == Float(f.batteryTempC);
    assert fields["payload_temp_c"] == Float(f.payloadTempC);
    DumpedFields(fields);
  }

  lemma ObcRoundTrip(f: Frame)
    ensures DecodeObc(Dumped(ObcTree(f))) == Ok((f.cpuUsagePct, f.memoryUsagePct, f.uptimeS))
  {
  }

  lemma HealthRoundTrip(f: Frame)
    ensures DecodeHealth(Dumped(HealthTree(f))) == Ok((f.faultActive, f.safeMode, f.lastFaultCode))
  {
  }

  lemma EnvelopeShape(f: Frame)
    ensures var tree := Dumped(FrameTree(f));
            && At(tree, "frame_id") == Ok(Integer(f.frameId))
            && At(tree, "timestamp_ms") == Ok(Integer(f.timestampMs))
            && At(tree, "satellite_id") == Ok(String(f.satelliteId))
            && At(tree, "health_flags") == Ok(Dumped(HealthTree(f)))
            && At(tree, "subsystems") == Ok(Dumped(SubsystemsTree(f)))
  {
    var fields := FrameTree(f).fields;
    assert fields["frame_id"] == Integer(f.frameId) && fields["timestamp_ms"] == Integer(f.timestampMs);
    assert fields["satellite_id"] == String(f.satelliteId) && fields["health_flags"] == HealthTree(f);
    assert fields["subsystems"] == SubsystemsTree(f);
    DumpedFields(fields);
  }

  lemma SubsystemsShape(f: Frame)
    ensures var tree := Dumped(SubsystemsTree(f));
            && At(tree, "power") == Ok(Dumped(PowerTree(f)))
            && At(tree, "thermal") == Ok(Dumped(ThermalTree(f)))
            && At(tree, "obc") == Ok(Dumped(ObcTree(f)))
  {
  }

  /** The envelope is read correctly whatever tree it and its four sections sit in. */
  lemma EnvelopeRoundTrip(f: Frame, tree: Json, subsystems: Json, power: Json, thermal: Json, obc: Json, hf: Json)
    requires At(tree, "frame_id") == Ok(Integer(f.frameId))
    requires At(tree, "timestamp_ms") == Ok(Integer(f.timestampMs))
    requires At(tree, "satellite_id") == Ok(String(f.satelliteId))
    requires At(tree, "health_flags") == Ok(hf) && At(tree, "subsystems") == Ok(subsystems)
    requires At(subsystems, "power") == Ok(power) && At(subsystems, "thermal") == Ok(thermal)
    requires At(subsystems, "obc") == Ok(obc)
    requires DecodePower(power)
          == if f.batteryVoltageV.Finite? && f.batteryCurrentMa.Finite? && f.solarInputW.Finite?
             then Ok((f.batteryVoltageV, f.batteryCurrentMa, f.solarInputW, f.chargePct))
             else Err(TypeError)
    requires DecodeThermal(thermal)
          == if f.obcTempC.Finite? && f.batteryTempC.Finite? && f.payloadTempC.Finite?
             then Ok((f.obcTempC, f.batteryTempC, f.payloadTempC))
             else Err(TypeError)
    requires DecodeObc(obc) == Ok((f.cpuUsagePct, f.memoryUsagePct, f.uptimeS))
    requires DecodeHealth(hf) == Ok((f.faultActive, f.safeMode, f.lastFaultCode))
    ensures DecodeTree(tree) == if AllFinite(f) then Ok(f) else Err(TypeError)
  {
  }

  /** Decoding an encoded frame gives the frame back if its doubles are finite, else a type error. */
  lemma RoundTrip(f: Frame)
    ensures Decode(Encode(f)) == if AllFinite(f) then Ok(f) else Err(TypeError)
  {
    EnvelopeShape(f);
    SubsystemsShape(f);
    PowerRoundTrip(f);
    ThermalRoundTrip(f);
    ObcRoundTrip(f);
    HealthRoundTrip(f);
    EnvelopeRoundTrip(f, Dumped(FrameTree(f)), Dumped(SubsystemsTree(f)), Dumped(PowerTree(f)),
                      Dumped(ThermalTree(f)), Dumped(ObcTree(f)), Dumped(HealthTree(f)));
  }

  /** Distinct finite frames have distinct texts: no two are confused on the ground. */
  lemma EncodingIsInjective(f: Frame, g: Frame)
    requires AllFinite(f) && AllFinite(g) && Encode(f) == Encode(g)
    ensures f == g
  {
    RoundTrip(f);
    RoundTrip(g);
  }

  // ------------------------------------------------------------------ the wire format

  /** `section.at(key)`, if the section is there. */
  function In(section: Result<Json, JsonError>, key: string): Result<Json, JsonError> {
    match section
    case Ok(tree) => At(tree, key)
    case Err(error) => Err(error)
  }

  function Section(tree: Json, name: string): Result<Json, JsonError> {
    In(At(tree, "subsystems"), name)
  }

  /** How a double is written. */
  function Number(d: Double): Json {
    if d.Finite? then Float(d) else Null
  }

  /** An object with exactly these keys. */
  predicate HasKeys(section: Result<Json, JsonError>, keys: set<string>) {
    section.Ok? && section.value.Object? && section.value.fields.Keys == keys
  }

  predicate IsPowerSection(power: Result<Json, JsonError>, f: Frame) {
    && HasKeys(power, {"battery_voltage_v", "battery_current_ma", "solar_input_w", "charge_pct"})
    && In(power, "battery_voltage_v") == Ok(Number(f.batteryVoltageV))
    && In(power, "battery_current_ma") == Ok(Number(f.batteryCurrentMa))
    && In(power, "solar_input_w") == Ok(Number(f.solarInputW))
    && In(power, "charge_pct") == Ok(Integer(f.chargePct))
  }

  predicate IsThermalSection(thermal: Result<Json, JsonError>, f: Frame) {
    && HasKeys(thermal, {"obc_temp_c", "battery_temp_c", "payload_temp_c"})
    && In(thermal, "obc_temp_c") == Ok(Number(f.obcTempC))
    && In(thermal, "battery_temp_c") == Ok(Number(f.batteryTempC))
    && In(thermal, "payload_temp_c") == Ok(Number(f.payloadTempC))
  }

  predicate IsObcSection(obc: Result<Json, JsonError>, f: Frame) {
    && HasKeys(obc, {"cpu_usage_pct", "memory_usage_pct", "uptime_s"})
    && In(obc, "cpu_usage_pct") == Ok(Integer(f.cpuUsagePct))
    && In(obc, "memory_usage_pct") == Ok(Integer(f.memoryUsagePct))
    && In(obc, "uptime_s") == Ok(Integer(f.uptimeS))
  }

  predicate IsHealthSection(hf: Result<Json, JsonError>, f: Frame) {
    && HasKeys(hf, {"fault_active", "safe_mode", "last_fault_code"})
    && In(hf, "fault_active") == Ok(Boolean(f.faultActive))
    && In(hf, "safe_mode") == Ok(Boolean(f.safeMode))
    && In(hf, "last_fault_code") == Ok(Integer(f.lastFaultCode))
  }

  /** What is on the wire for a frame: all sixteen leaves by their path, and no other keys anywhere. */
  predicate IsTelegram(tree: Json, f: Frame) {
    && HasKeys(Ok(tree), {"frame_id", "timestamp_ms", "satellite_id", "subsystems", "health_flags"})
    && HasKeys(At(tree, "subsystems"), {"power", "thermal", "obc"})
    && At(tree, "frame_id") == Ok(Integer(f.frameId))
    && At(tree, "timestamp_ms") == Ok(Integer(f.timestampMs))
    && At(tree, "satellite_id") == Ok(String(f.satelliteId))
    && IsPowerSection(Section(tree, "power"), f)
    && IsThermalSection(Section(tree, "thermal"), f)
    && IsObcSection(Section(tree, "obc"), f)
    && IsHealthSection(At(tree, "health_flags"), f)
  }

  lemma PowerOnTheWire(f: Frame)
    ensures IsPowerSection(Ok(Dumped(PowerTree(f))), f)
  {
    var fields := PowerTree(f).fields;
    assert fields["battery_voltage_v"] == Float(f.batteryVoltageV) && fields["charge_pct"] == Integer(f.chargePct);
    assert fields["battery_current_ma"] == Float(f.batteryCurrentMa) && fields["solar_input_w"] == Float(f.solarInputW);
    DumpedFields(fields);
  }

  lemma ThermalOnTheWire(f: Frame)
    ensures IsThermalSection(Ok(Dumped(ThermalTree(f))), f)
  {
    var fields := ThermalTree(f).fields;
    assert fields["obc_temp_c"] == Float(f.obcTempC) && fields["battery_temp_c"] == Float(f.batteryTempC);
    assert fields["payload_temp_c"] == Float(f.payloadTempC);
    DumpedFields(fields);
  }

  lemma ObcOnTheWire(f: Frame)
    ensures IsObcSection(Ok(Dumped(ObcTree(f))), f)
  {
  }

  lemma HealthOnTheWire(f: Frame)
    ensures IsHealthSection(Ok(Dumped(HealthTree(f))), f)
  {
  }

  lemma DumpedKeys(fields: map<string, Json>)
    ensures Dumped(Object(fields)).Object? && Dumped(Object(fields)).fields.Keys == fields.Keys
  {
  }

  lemma EnvelopeKeys(f: Frame)
    ensures HasKeys(Ok(Dumped(FrameTree(f))), {"frame_id", "timestamp_ms", "satellite_id", "subsystems", "health_flags"})
    ensures HasKeys(Ok(Dumped(SubsystemsTree(f))), {"power", "thermal", "obc"})
  {
    hide Dumped;
    DumpedKeys(FrameTree(f).fields);
    DumpedKeys(SubsystemsTree(f).fields);
  }

  lemma SameFields(a: Json, b: Json)
    requires a.Object? && b.Object? && a.fields.Keys == b.fields.Keys
    requires forall key <- a.fields.Keys :: At(a, key) == At(b, key)
    ensures a == b
  {
    assert forall key <- a.fields.Keys :: At(a, key) == Ok(a.fields[key]) && At(b, key) == Ok(b.fields[key]);
    assert a.fields == b.fields;
  }

  lemma SectionsAreUnique(a: Json, b: Json, f: Frame)
    ensures IsPowerSection(Ok(a), f) && IsPowerSection(Ok(b), f) ==> a == b
    ensures IsThermalSection(Ok(a), f) && IsThermalSection(Ok(b), f) ==> a == b
    ensures IsObcSection(Ok(a), f) && IsObcSection(Ok(b), f) ==> a == b
    ensures IsHealthSection(Ok(a), f) && IsHealthSection(Ok(b), f) ==> a == b
  {
    if a.Object? && b.Object? && a.fields.Keys == b.fields.Keys && a != b {
      if forall key <- a.fields.Keys :: At(a, key) == At(b, key) {
        SameFields(a, b);
      }
    }
  }

  lemma TelegramsAreUnique(a: Json, b: Json, f: Frame)
    requires IsTelegram(a, f) && IsTelegram(b, f)
    ensures a == b
  {
    var s, t := At(a, "subsystems").value, At(b, "subsystems").value;
    SectionsAreUnique(At(s, "power").value, At(t, "power").value, f);
    SectionsAreUnique(At(s, "thermal").value, At(t, "thermal").value, f);
    SectionsAreUnique(At(s, "obc").value, At(t, "obc").value, f);
    SectionsAreUnique(At(a, "health_flags").value, At(b, "health_flags").value, f);
    SameFields(s, t);
    SameFields(a, b);
  }

  /** The datagram of a frame is the one and only value with these leaves at these paths. */
  lemma WireFormat(f: Frame, tree: Json)
    ensures Encode(f) == Source(tree) <==> IsTelegram(tree, f)
  {
    hide IsTelegram, FrameTree;
    EncodeIsTelegram(f);
    if IsTelegram(tree, f) {
      TelegramsAreUnique(tree, Encode(f).tree, f);
    }
  }

  lemma EncodeIsTelegram(f: Frame)
    ensures IsTelegram(Encode(f).tree, f)
  {
    hide FrameTree, SubsystemsTree, PowerTree, ThermalTree, ObcTree, HealthTree, HasKeys,
         IsPowerSection, IsThermalSection, IsObcSection, IsHealthSection;
    EnvelopeShape(f);
    SubsystemsShape(f);
    EnvelopeKeys(f);
    PowerOnTheWire(f);
    ThermalOnTheWire(f);
    ObcOnTheWire(f);
    HealthOnTheWire(f);
  }

  // ------------------------------------------------------------------ reading arbitrary text

  ghost predicate ReadsUint64(leaf: Result<Json, JsonError>, n: uint64) {
    leaf.Ok? && !leaf.value.Boolean? && ConvertsTo(leaf.value, TWO_TO_64, n)
  }

  ghost predicate ReadsNarrow(leaf: Result<Json, JsonError>, modulus: int, n: int) {
    leaf.Ok? && ConvertsTo(leaf.value, modulus, n)
  }

  predicate ReadsDouble(leaf: Result<Json, JsonError>, d: Double) {
    leaf == Ok(Float(d)) || (leaf.Ok? && leaf.value.Integer? && d == Finite(leaf.value.n as real))
  }

  ghost predicate ReadsPower(power: Result<Json, JsonError>, voltage: Double, current: Double, solar: Double, charge: uint8) {
    && ReadsDouble(In(power, "battery_voltage_v"), voltage)
    && ReadsDouble(In(power, "battery_current_ma"), current)
    && ReadsDouble(In(power, "solar_input_w"), solar)
    && ReadsNarrow(In(power, "charge_pct"), TWO_TO_8, charge)
  }

  ghost predicate ReadsThermal(thermal: Result<Json, JsonError>, obc: Double, battery: Double, payload: Double) {
    && ReadsDouble(In(thermal, "obc_temp_c"), obc)
    && ReadsDouble(In(thermal, "battery_temp_c"), battery)
    && ReadsDouble(In(thermal, "payload_temp_c"), payload)
  }

  ghost predicate ReadsObc(obc: Result<Json, JsonError>, cpu: uint8, memory: uint8, uptime: uint64) {
    && ReadsNarrow(In(obc, "cpu_usage_pct"), TWO_TO_8, cpu)
    && ReadsNarrow(In(obc, "memory_usage_pct"), TWO_TO_8, memory)
    && ReadsUint64(In(obc, "uptime_s"), uptime)
  }

  ghost predicate ReadsHealth(hf: Result<Json, JsonError>, active: bool, safe: bool, code: uint32) {
    && In(hf, "fault_active") == Ok(Boolean(active))
    && In(hf, "safe_mode") == Ok(Boolean(safe))
    && ReadsNarrow(In(hf, "last_fault_code"), TWO_TO_32, code)
  }

  /** Every leaf is there, at its path, and converts to the field; other keys do not matter. */
  ghost predicate ReadsAs(tree: Json, f: Frame) {
    && ReadsUint64(At(tree, "frame_id"), f.frameId)
    && ReadsUint64(At(tree, "timestamp_ms"), f.timestampMs)
    && At(tree, "satellite_id") == Ok(String(f.satelliteId))
    && ReadsPower(Section(tree, "power"), f.batteryVoltageV, f.batteryCurrentMa, f.solarInputW, f.chargePct)
    && ReadsThermal(Section(tree, "thermal"), f.obcTempC, f.batteryTempC, f.payloadTempC)
    && ReadsObc(Section(tree, "obc"), f.cpuUsagePct, f.memoryUsagePct, f.uptimeS)
    && ReadsHealth(At(tree, "health_flags"), f.faultActive, f.safeMode, f.lastFaultCode)
  }

  lemma LeafReads(leaf: Result<Json, JsonError>, n: uint64)
    ensures ReadsUint64(leaf, n) <==> leaf.Ok? && GetUint64(leaf.value) == Ok(n)
    ensures ReadsNarrow(leaf, TWO_TO_8, n) <==> leaf.Ok? && GetUint8(leaf.value) == Ok(n)
    ensures ReadsNarrow(leaf, TWO_TO_32, n) <==> leaf.Ok? && GetUint32(leaf.value) == Ok(n)
  {
    if leaf.Ok? {
      UnsignedAccessors(leaf.value, n);
    }
  }

  lemma PowerReads(power: Result<Json, JsonError>, voltage: Double, current: Double, solar: Double, charge: uint8)
    ensures ReadsPower(power, voltage, current, solar, charge) <==>
              power.Ok? && DecodePower(power.value) == Ok((voltage, current, solar, charge))
  {
    hide ReadsNarrow, GetUint8;
    LeafReads(In(power, "charge_pct"), charge);
  }

  lemma ThermalReads(thermal: Result<Json, JsonError>, obc: Double, battery: Double, payload: Double)
    ensures ReadsThermal(thermal, obc, battery, payload) <==>
              thermal.Ok? && DecodeThermal(thermal.value) == Ok((obc, battery, payload))
  {
  }

  lemma ObcReads(obc: Result<Json, JsonError>, cpu: uint8, memory: uint8, uptime: uint64)
    ensures ReadsObc(obc, cpu, memory, uptime) <==>
              obc.Ok? && DecodeObc(obc.value) == Ok((cpu, memory, uptime))
  {
    hide ReadsNarrow, ReadsUint64, GetUint8, GetUint64;
    LeafReads(In(obc, "cpu_usage_pct"), cpu);
    LeafReads(In(obc, "memory_usage_pct"), memory);
    LeafReads(In(obc, "uptime_s"), uptime);
  }

  lemma HealthReads(hf: Result<Json, JsonError>, active: bool, safe: bool, code: uint32)
    ensures ReadsHealth(hf, active, safe, code) <==>
              hf.Ok? && DecodeHealth(hf.value) == Ok((active, safe, code))
  {
    hide ReadsNarrow, GetUint32;
    LeafReads(In(hf, "last_fault_code"), code);
  }

  /** Any text at all is read as a frame if and only if each of its sixteen leaves is. */
  lemma ReadsExactly(text: Text, f: Frame)
    ensures Decode(text) == Ok(f) <==> text.Source? && ReadsAs(text.tree, f)
  {
    hide GetUint64, DecodePower, DecodeThermal, DecodeObc, DecodeHealth,
         ReadsPower, ReadsThermal, ReadsObc, ReadsHealth, ReadsUint64;
    if text.Source? {
      var tree := text.tree;
      LeafReads(At(tree, "frame_id"), f.frameId);
      LeafReads(At(tree, "timestamp_ms"), f.timestampMs);
      PowerReads(Section(tree, "power"), f.batteryVoltageV, f.batteryCurrentMa, f.solarInputW, f.chargePct);
      ThermalReads(Section(tree, "thermal"), f.obcTempC, f.batteryTempC, f.payloadTempC);
      ObcReads(Section(tree, "obc"), f.cpuUsagePct, f.memoryUsagePct, f.uptimeS);
      HealthReads(At(tree, "health_flags"), f.faultActive, f.safeMode, f.lastFaultCode);
    }
  }

  /** What a leaf is read as. */
  datatype Kind = Number64 | Number32 | Number8 | RealNumber | Name | Flag

  /** Why reading this leaf fails, if it does. */
  function Failure(leaf: Result<Json, JsonError>, kind: Kind): Option<JsonError> {
    match leaf
    case Err(error) => Some(error)
    case Ok(j) =>
      match kind
      case RealNumber => if j.Float? || j.Integer? then None else Some(TypeError)
      case Name => if j.String? then None else Some(TypeError)
      case Flag => if j.Boolean? then None else Some(TypeError)
      case _ =>
        if j.Float? then
          var modulus := if kind == Number64 then TWO_TO_64 else if kind == Number32 then TWO_TO_32 else TWO_TO_8;
          if j.d.Finite? && 0 <= Truncate(j.d.value) < modulus then None else Some(UndefinedCast)
        else if j.Integer? || (j.Boolean? && kind != Number64) then None
        else Some(TypeError)
  }

  /** The earlier failure wins. */
  function First(a: Option<JsonError>, b: Option<JsonError>): Option<JsonError> {
    if a.Some? then a else b
  }

  function PowerFailure(power: Result<Json, JsonError>): Option<JsonError> {
    First(Failure(In(power, "battery_voltage_v"), RealNumber),
    First(Failure(In(power, "battery_current_ma"), RealNumber),
    First(Failure(In(power, "solar_input_w"), RealNumber),
          Failure(In(power, "charge_pct"), Number8))))
  }

  function ThermalFailure(thermal: Result<Json, JsonError>): Option<JsonError> {
    First(Failure(In(thermal, "obc_temp_c"), RealNumber),
    First(Failure(In(thermal, "battery_temp_c"), RealNumber),
          Failure(In(thermal, "payload_temp_c"), RealNumber)))
  }

  function ObcFailure(obc: Result<Json, JsonError>): Option<JsonError> {
    First(Failure(In(obc, "cpu_usage_pct"), Number8),
    First(Failure(In(obc, "memory_usage_pct"), Number8),
          Failure(In(obc, "uptime_s"), Number64)))
  }

  function HealthFailure(hf: Result<Json, JsonError>): Option<JsonError> {
    First(Failure(In(hf, "fault_active"), Flag),
    First(Failure(In(hf, "safe_mode"), Flag),
          Failure(In(hf, "last_fault_code"), Number32)))
  }

  /** The failure of the first leaf, in this order, that is missing or of the wrong type. */
  function FirstFailure(tree: Json): Option<JsonError> {
    First(Failure(At(tree, "frame_id"), Number64),
    First(Failure(At(tree, "timestamp_ms"), Number64),
    First(Failure(At(tree, "satellite_id"), Name),
    First(PowerFailure(Section(tree, "power")),
    First(ThermalFailure(Section(tree, "thermal")),
    First(ObcFailure(Section(tree, "obc")),
          HealthFailure(At(tree, "health_flags"))))))))
  }

  function ErrorOf<T>(r: Result<T, JsonError>): Option<JsonError> {
    match r
    case Ok(_) => None
    case Err(error) => Some(error)
  }

  lemma PowerFails(power: Result<Json, JsonError>)
    ensures PowerFailure(power) == First(ErrorOf(power), if power.Ok? then ErrorOf(DecodePower(power.value)) else None)
  {
  }

  lemma ThermalFails(thermal: Result<Json, JsonError>)
    ensures ThermalFailure(thermal) == First(ErrorOf(thermal), if thermal.Ok? then ErrorOf(DecodeThermal(thermal.value)) else None)
  {
  }

  lemma ObcFails(obc: Result<Json, JsonError>)
    ensures ObcFailure(obc) == First(ErrorOf(obc), if obc.Ok? then ErrorOf(DecodeObc(obc.value)) else None)
  {
  }

  lemma HealthFails(hf: Result<Json, JsonError>)
    ensures HealthFailure(hf) == First(ErrorOf(hf), if hf.Ok? then ErrorOf(DecodeHealth(hf.value)) else None)
  {
  }

  /** A text that is not JSON is a parse error, any other fails as its first unreadable leaf does, or not at all. */
  lemma FailsAtFirstLeaf(text: Text)
    ensures ErrorOf(Decode(text)) == if text.Garbage? then Some(ParseError) else FirstFailure(text.tree)
  {
    hide DecodePower, DecodeThermal, DecodeObc, DecodeHealth,
         PowerFailure, ThermalFailure, ObcFailure, HealthFailure;
    if text.Source? {
      PowerFails(Section(text.tree, "power"));
      ThermalFails(Section(text.tree, "thermal"));
      ObcFails(Section(text.tree, "obc"));
      HealthFails(At(text.tree, "health_flags"));
    }
  }

  // ------------------------------------------------------------------ the code

  /** toJson: the tree is grown in place, section by section. */
  method ToJson(f: Frame) returns (text: Text)
    ensures text == Encode(f)
    ensures text.Source? && IsTelegram(text.tree, f)
  {
    EncodeIsTelegram(f);
    var j := Null;
    j := Put(j, "frame_id", Integer(f.frameId));
    j := Put(j, "timestamp_ms", Integer(f.timestampMs));
    j := Put(j, "satellite_id", String(f.satelliteId));
    ghost var header := j.fields;
    j := Put(j, "subsystems", Put(Slot(j, "subsystems"), "power", PowerTree(f)));
    assert j.fields == header["subsystems" := Object(map["power" := PowerTree(f)])];
    j := Put(j, "subsystems", Put(Slot(j, "subsystems"), "thermal", ThermalTree(f)));
    assert j.fields == header["subsystems" := Object(map["power" := PowerTree(f), "thermal" := ThermalTree(f)])];
    j := Put(j, "subsystems", Put(Slot(j, "subsystems"), "obc", ObcTree(f)));
    assert j.fields == header["subsystems" := SubsystemsTree(f)];
    j := Put(j, "health_flags", HealthTree(f));
    assert j == FrameTree(f);
    text := Source(Dumped(j));
  }

  const BLANK: Frame :=
    Frame(0, 0, "", Finite(0.0), Finite(0.0), Finite(0.0), 0, Finite(0.0), Finite(0.0), Finite(0.0),
          0, 0, 0, false, false, 0)

  /** fromJson: fields are assigned one by one, and the first accessor that fails ends the call. */
  method FromJson(text: Text) returns (r: Result<Frame, JsonError>)
    ensures r == Decode(text)
    ensures r.Ok? ==> text.Source? && ReadsAs(text.tree, r.value)
    ensures ErrorOf(r) == if text.Garbage? then Some(ParseError) else FirstFailure(text.tree)
  {
    hide ReadsAs, FirstFailure;
    FailsAtFirstLeaf(text);
    if Decode(text).Ok? {
      ReadsExactly(text, Decode(text).value);
    }
    if text.Garbage? {
      return Err(ParseError);
    }
    var j := text.tree;
    var f := BLANK;
    var v :- At(j, "frame_id");
    var wide :- GetUint64(v);
    f := f.(frameId := wide);
    v :- At(j, "timestamp_ms");
    wide :- GetUint64(v);
    f := f.(timestampMs := wide);
    v :- At(j, "satellite_id");
    var name :- GetString(v);
    f := f.(satelliteId := name);

    var subsystems :- At(j, "subsystems");
    var section :- At(subsystems, "power");
    var power :- DecodePower(section);
    f := f.(batteryVoltageV := power.0, batteryCurrentMa := power.1, solarInputW := power.2, chargePct := power.3);

    section :- At(subsystems, "thermal");
    var thermal :- DecodeThermal(section);
    f := f.(obcTempC := thermal.0, batteryTempC := thermal.1, payloadTempC := thermal.2);

    section :- At(subsystems, "obc");
    var obc :- DecodeObc(section);
    f := f.(cpuUsagePct := obc.0, memoryUsagePct := obc.1, uptimeS := obc.2);

    section :- At(j, "health_flags");
    var health :- DecodeHealth(section);
    f := f.(faultActive := health.0, safeMode := health.1, lastFaultCode := health.2);
    r := Ok(f);
  }

  /** batchToJson: every frame is dumped, parsed again, appended, and the array is dumped. */
  method BatchToJson(frames: seq<Frame>) returns (text: Text)
    ensures text.Source? && text.tree.Array? && |text.tree.items| == |frames|
    ensures forall i :: 0 <= i < |frames| ==>
              Decode(Source(text.tree.items[i])) == if AllFinite(frames[i]) then Ok(frames[i]) else Err(TypeError)
    ensures forall i :: 0 <= i < |frames| ==> IsTelegram(text.tree.items[i], frames[i])
  {
    hide IsTelegram;
    var arr: seq<Json> := [];
    for n := 0 to |frames|
      invariant |arr| == n
      invariant forall i :: 0 <= i < n ==> arr[i] == Encode(frames[i]).tree
    {
      var one := ToJson(frames[n]);
      arr := arr + [one.tree];
    }
    text := Source(Dumped(Array(arr)));
    forall i | 0 <= i < |frames|
      ensures text.tree.items[i] == Encode(frames[i]).tree
      ensures Decode(Encode(frames[i])) == if AllFinite(frames[i]) then Ok(frames[i]) else Err(TypeError)
      ensures IsTelegram(Encode(frames[i]).tree, frames[i])
    {
      EncodeIsTelegram(frames[i]);
      DumpedIsStable(FrameTree(frames[i]));
      RoundTrip(frames[i]);
    }
  }
}
