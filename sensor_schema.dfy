/**
 * The field constraints of the bioreactor sensor-reading schema, and how they relate to the
 * pipeline's drop rules and to the rows the pipeline generates. Validating a reading reports every
 * field whose bound fails, in declaration order; a reading is accepted when none does.
 */
module SensorSchema {
  import opened Wrappers
  import opened Draws
  import Pipeline

  /** A sensor reading as the schema declares it; the cell counts and nutrients are optional. */
  datatype SensorData = SensorData(
    timestamp: int,
    bioreactorId: string,
    temperature: real,
    ph: real,
    dissolvedOxygen: real,
    agitationRpm: int,
    pressure: real,
    cellDensity: Option<real>,
    viableCellCount: Option<real>,
    glucose: Option<real>,
    lactate: Option<real>)

  /** The constrained fields. Glucose and lactate carry no bound and so never appear here. */
  datatype Field = Temperature | Ph | DissolvedOxygen | AgitationRpm | Pressure | CellDensity | ViableCellCount

  predicate TemperatureValid(t: real) { 30.0 <= t <= 42.0 }
  predicate PhValid(ph: real) { 5.0 <= ph <= 9.0 }
  predicate DissolvedOxygenValid(d: real) { 0.0 <= d <= 100.0 }
  predicate AgitationValid(rpm: int) { 0 <= rpm <= 500 }
  predicate PressureValid(p: real) { 0.0 <= p <= 2.0 }

  /** An optional non-negative field: absent, or present and at least zero. */
  predicate NonNegativeIfPresent(o: Option<real>) { o.Some? ==> o.value >= 0.0 }

  /** Whether field `f` of `d` violates its bound. */
  predicate Violates(d: SensorData, f: Field) {
    match f
    case Temperature => !TemperatureValid(d.temperature)
    case Ph => !PhValid(d.ph)
    case DissolvedOxygen => !DissolvedOxygenValid(d.dissolvedOxygen)
    case AgitationRpm => !AgitationValid(d.agitationRpm)
    case Pressure => !PressureValid(d.pressure)
    case CellDensity => !NonNegativeIfPresent(d.cellDensity)
    case ViableCellCount => !NonNegativeIfPresent(d.viableCellCount)
  }

  const Fields: seq<Field> := [Temperature, Ph, DissolvedOxygen, AgitationRpm, Pressure, CellDensity, ViableCellCount]

  /** Every bound of the schema holds. */
  predicate Valid(d: SensorData) {
    && TemperatureValid(d.temperature)
    && PhValid(d.ph)
    && DissolvedOxygenValid(d.dissolvedOxygen)
    && AgitationValid(d.agitationRpm)
    && PressureValid(d.pressure)
    && NonNegativeIfPresent(d.cellDensity)
    && NonNegativeIfPresent(d.viableCellCount)
  }

  /** The fields of `fs` that `d` violates, in the order of `fs`. */
  function ErrorsAmong(d: SensorData, fs: seq<Field>): (r: seq<Field>)
    ensures forall f :: f in r <==> f in fs && Violates(d, f)
    ensures |r| <= |fs|
  {
    if fs == [] then []
    else if Violates(d, fs[0]) then [fs[0]] + ErrorsAmong(d, fs[1..])
    else ErrorsAmong(d, fs[1..])
  }

  /** Every field is listed in `Fields`. */
  lemma AllFieldsListed(f: Field)
    ensures f in Fields
  {
    match f
    case Temperature => assert Fields[0] == f;
    case Ph => assert Fields[1] == f;
    case DissolvedOxygen => assert Fields[2] == f;
    case AgitationRpm => assert Fields[3] == f;
    case Pressure => assert Fields[4] == f;
    case CellDensity => assert Fields[5] == f;
    case ViableCellCount => assert Fields[6] == f;
  }

  /** The validation errors of a reading: the violated fields, in declaration order. */
  function Errors(d: SensorData): (r: seq<Field>)
    ensures forall f :: f in r <==> Violates(d, f)
    ensures |r| == 0 <==> Valid(d)
    ensures |r| <= 7
  {
    forall f: Field ensures f in Fields {
      AllFieldsListed(f);
    }
    ValidIffNoViolation(d);
    var r := ErrorsAmong(d, Fields);
    assert r != [] ==> r[0] in r;
    r
  }

  /** Two readings that violate the same fields get the same errors. */
  lemma {:induction false} ErrorsAmongSameViolations(d: SensorData, e: SensorData, fs: seq<Field>)
    requires forall f :: Violates(d, f) == Violates(e, f)
    ensures ErrorsAmong(d, fs) == ErrorsAmong(e, fs)
  {
    if fs != [] {
      ErrorsAmongSameViolations(d, e, fs[1..]);
    }
  }

  lemma ValidIffNoViolation(d: SensorData)
    ensures Valid(d) <==> forall f :: !Violates(d, f)
  {
    if forall f :: !Violates(d, f) {
      assert !Violates(d, Temperature) && !Violates(d, Ph) && !Violates(d, DissolvedOxygen);
      assert !Violates(d, AgitationRpm) && !Violates(d, Pressure);
      assert !Violates(d, CellDensity) && !Violates(d, ViableCellCount);
    }
  }

  /** Constructing a reading: the reading itself, or the list of fields that failed. */
  function Construct(d: SensorData): (r: Result<SensorData, seq<Field>>)
    ensures r.Ok? <==> Valid(d)
    ensures r.Ok? ==> r.value == d
    ensures r.Err? ==> |r.error| > 0 && forall f :: f in r.error <==> Violates(d, f)
  {
    var errors := Errors(d);
    if |errors| == 0 then Ok(d) else Err(errors)
  }

  /** Glucose and lactate are unconstrained: changing them never changes whether a reading is valid. */
  lemma NutrientsUnconstrained(d: SensorData, glucose: Option<real>, lactate: Option<real>)
    ensures Valid(d.(glucose := glucose, lactate := lactate)) <==> Valid(d)
    ensures Errors(d.(glucose := glucose, lactate := lactate)) == Errors(d)
  {
    ErrorsAmongSameViolations(d.(glucose := glucose, lactate := lactate), d, Fields);
  }

  // ------------------------------------------------------------- the pipeline's rows

  /** A pipeline sensor row whose three process values are present, read as a schema reading. */
  function FromRow(row: Pipeline.SensorRow): SensorData
    requires row.temperature.Some? && row.ph.Some? && row.dissolvedOxygen.Some?
  {
    SensorData(
      row.sensorTimestamp, row.bioreactorId, row.temperature.value, row.ph.value, row.dissolvedOxygen.value,
      row.agitationRpm, row.pressure, Some(row.cellDensity), Some(row.viableCellCount as real), None, None)
  }

  /**
   * The pipeline's three drop rules are exactly the schema's temperature, pH and dissolved-oxygen
   * bounds: a row survives them if and only if none of those three fields fails validation.
   */
  lemma DropRulesMatchSchema(row: Pipeline.SensorRow)
    requires row.temperature.Some? && row.ph.Some? && row.dissolvedOxygen.Some?
    ensures Pipeline.ValidReading(row) <==>
      (forall f :: f in Errors(FromRow(row)) ==> f !in {Temperature, Ph, DissolvedOxygen})
  {
    var d := FromRow(row);
    assert Violates(d, Temperature) == !TemperatureValid(d.temperature);
    assert Violates(d, Ph) == !PhValid(d.ph);
    assert Violates(d, DissolvedOxygen) == !DissolvedOxygenValid(d.dissolvedOxygen);
  }

  /** A null process value fails the drop rules, as a missing required field fails the schema. */
  lemma NullRowIsDropped(row: Pipeline.SensorRow)
    requires row.temperature.None? || row.ph.None? || row.dissolvedOxygen.None?
    ensures !Pipeline.ValidReading(row)
  {
  }

  /** Every row of the synthetic bronze stream is a valid reading for the schema. */
  lemma BronzeRowsValid(ts: int, d: Pipeline.SensorRowDraws)
    ensures Valid(FromRow(Pipeline.BronzeSensorRow(ts, d)))
    ensures Construct(FromRow(Pipeline.BronzeSensorRow(ts, d))) == Ok(FromRow(Pipeline.BronzeSensorRow(ts, d)))
  {
    Pipeline.BronzeRowsMeetSpecs(ts, d, 0);
    var row := Pipeline.BronzeSensorRow(ts, d);
    AgitationDraw(d.agitation);
    assert 120 <= row.agitationRpm <= 130;
    assert 1.18 <= row.pressure <= 1.22;
    ViableCountDraw(d.viableCellCount);
  }

  lemma AgitationDraw(u: Unit)
    ensures 0 <= (u * 10.0).Floor <= 10
  {
  }

  lemma ViableCountDraw(u: Unit)
    ensures (8500000.0 + u * 2000000.0).Floor >= 0
  {
  }

  /** The digital twin's health score bound holds for every health the pipeline derives. */
  predicate HealthScoreValid(h: real) { 0.0 <= h <= 100.0 }

  lemma TwinHealthValid(allSpecsMet: bool, u: Unit)
    ensures HealthScoreValid(Pipeline.TwinHealth(allSpecsMet, u))
  {
  }
}
