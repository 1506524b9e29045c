# Pharmaceutical manufacturing digital twin, modelled in Dafny

This project models the computational core of a pharmaceutical manufacturing digital-twin
platform and proves properties of it. The platform simulates bioreactors, equipment, batches,
contamination alerts and a GMP audit trail. It serves them through a REST API, refines them
through a bronze/silver/gold data pipeline, and offers an operator-training simulator.

The model covers these parts:

- **Synthetic data generator** (`SensorSeries`, `GrowthPhase`, `EntityRecords`). The
  bioreactor time series follows a four-phase growth curve with anomaly injection. The batch,
  equipment, contamination-alert and audit-trail records are drawn within clamped ranges.
- **Dashboard generators** (`EmbeddedGenerator`). These are the compact generators built into
  the two dashboard apps. Their growth curve has three phases, their yield is not clamped, and
  the standalone app has no agitation column. Given the same per-sample draws, the two apps
  produce the same series apart from that column.
- **REST endpoints**:
  - bioreactor status, digital twin and sensor history (`BioreactorApi`);
  - equipment health, lists and maintenance alerts (`EquipmentApi`);
  - contamination risk, alerts and summary (`ContaminationApi`);
  - batch lists, details, yield prediction and trends (`BatchApi`);
  - audit logs, entity trails, user activity, ALCOA+ integrity checks and compliance reports
    (`AuditApi`).

  Query-parameter bounds and "not found" replies are modelled as `Result` errors.
- **Operator-training simulator** (`Simulator`). A class holds the session table as a
  `map<string, Session>`. Its methods create, read, act on and delete sessions, and keep the
  invariant that every stored session is consistent: its score is the sum of its actions'
  points, and its status is completed exactly when every correct action has been taken.
- **Data pipeline** (`Pipeline`). It models the silver row predicates and formulas, the gold
  hourly and batch aggregates, the contamination risk score and level, predictive maintenance,
  and the data-quality monitor.
- **Yield formula and confidence interval** (`YieldModel`). This is the formula that labels
  the yield predictor's training data.
- **Sensor-reading schema** (`SensorSchema`), together with its agreement with the pipeline's
  drop rules.

Shared modules hold Python's built-ins as the code uses them:

- `Wrappers`: Option and Result;
- `Seqs`: comprehension filters, counts, sums, means, min/max and `sorted`;
- `Text`: `str(n)`, `zfill`, `lower` and substring `in`;
- `Draws`: `random.uniform`, `randint`, `choice` and clamping;
- `Buckets`: the 85/70 health buckets and the 0.3/0.7 risk buckets.

Every random draw is a parameter. A generator takes a function from the record index to that
record's draws: uniform draws in [0, 1), beta draws in [0, 1], and normal draws as
unconstrained reals. A property proved for all draw functions therefore holds whatever the
random number generator returns. Clock readings are parameters too: `now`, in whole minutes,
and date stamps as strings.

Where the code and its documentation disagree, the model follows the code:

- The contamination `risk_level` leaves out the dissolved-oxygen term that the risk score
  includes (`Pipeline.RiskLevelIgnoresOxygen`).
- The death-phase growth factor is not clamped and goes negative after 224 h
  (`GrowthPhase.DeathFactorUnclamped`).
- The growth factor drops from 0.1 to 0 when the exponential phase begins, at 24 h in the
  generator and at 4 h in the dashboards, so the curve is not monotone there
  (`GrowthPhase.GrowthDipsAtLagEnd`, `GrowthPhase.CompactGrowthDipsAtLagEnd`).
- The dashboards' batch yield is not clamped (`EmbeddedGenerator.CompactYieldUnclamped`).
- The agitation offset `np.random.randint(-3, 3)` excludes 3, so it lies in [-3, 2].
- Simulator progress counts repeated actions and can exceed 100%
  (`Simulator.ProgressCountsRepeats`).
- The data-quality score subtracts a row that has both an invalid temperature and an invalid
  pH twice (`Pipeline.DataQualityDoubleCounts`).
- The list filters of `list_bioreactors`, the date filters of `get_audit_logs` and the product
  filter of `get_yield_trends` are accepted but never applied.

## Model

| member | source | states |
|---|---|---|
| Draws.Uniform | backend/utils/synthetic_data.py:151-152 | `random.uniform(a, b)` on a draw in [0, 1) lies in [a, b], and below b when a < b |
| Draws.RandInt | backend/utils/synthetic_data.py:149 | `random.randint(a, b)` lies in [a, b], both ends included |
| Draws.Choice | backend/utils/synthetic_data.py:112 | `random.choice(options)` returns one of the options |
| Draws.Clamp | backend/utils/synthetic_data.py:116-117 | `max(lo, min(hi, x))` lies in [lo, hi], equals x inside the range and the nearer end outside it |
| Draws.Max0 | backend/utils/synthetic_data.py:85-88 | `max(0, x)` is non-negative, at least x, and x itself when x is non-negative |
| Buckets.HealthStatusOf | backend/utils/synthetic_data.py:189-194 | Operational exactly from 85, Warning exactly from 70 up to 85, Critical exactly below 70 |
| Buckets.HealthStatusMonotone | backend/utils/synthetic_data.py:189-194 | a higher health score never gets a more severe status |
| Buckets.AlertRiskLevel | backend/utils/synthetic_data.py:231-239 | Low exactly below 0.3, Medium exactly from 0.3 up to 0.7, High exactly from 0.7 |
| Buckets.AlertBucketPairs | backend/utils/synthetic_data.py:231-239 | each risk band gets its status and action together: Low/Monitor, Medium/Investigate, High/Immediate Action |
| GrowthPhase.Classify | backend/utils/synthetic_data.py:41-53 | growth factor in [0, 1] outside the death phase (below 1 in the exponential phase), at most 1 in the death phase |
| GrowthPhase.PhaseBands | backend/utils/synthetic_data.py:42-53 | lag exactly below 24 h, exponential exactly in [24, 96), stationary exactly in [96, 144), death exactly from 144 h |
| GrowthPhase.PhaseMonotone | backend/utils/synthetic_data.py:42-53 | the phase never goes back as the elapsed hours grow |
| GrowthPhase.GrowthRisesAfterLag | backend/utils/synthetic_data.py:45-50 | from 24 h to 144 h the growth factor never decreases |
| GrowthPhase.GrowthFallsInDeath | backend/utils/synthetic_data.py:51-53 | in the death phase the growth factor strictly decreases |
| GrowthPhase.GrowthDipsAtLagEnd | backend/utils/synthetic_data.py:42-47 | the factor falls from 0.1 in the lag phase to 0 at the start of the exponential phase |
| GrowthPhase.DeathFactorWithinApiWindow | backend/utils/synthetic_data.py:51-53 | between 144 h and 168 h (the default one-week run) the death factor stays above 0.7 |
| GrowthPhase.DeathFactorUnclamped | backend/utils/synthetic_data.py:51-53 | past 224 h the factor goes negative: the code does not clamp it |
| GrowthPhase.ElapsedMonotone | backend/utils/synthetic_data.py:41 | the elapsed hours `i * interval / 60` grow with the sample index |
| GrowthPhase.SeriesPhaseMonotone | backend/utils/synthetic_data.py:39-53 | the phases of the samples of a series appear in order lag, exponential, stationary, death |
| GrowthPhase.CompactClassify | app_fixed.py:39-45 | the dashboard's three-phase curve has no death phase and keeps the factor in [0, 1] |
| GrowthPhase.CompactPhaseBands | app_fixed.py:39-45 | lag exactly below 4 h, exponential exactly in [4, 16), stationary from 16 h, in order |
| GrowthPhase.CompactGrowthRisesAfterLag | app_fixed.py:41-45 | from 4 h on the dashboard's factor never decreases |
| GrowthPhase.CompactGrowthDipsAtLagEnd | app_fixed.py:39-43 | the dashboard's factor falls from 0.1 to 0 at 4 h |
| SensorSeries.FloorDiv | backend/utils/synthetic_data.py:32 | Python's `//`, which rounds toward minus infinity, also for a negative divisor |
| SensorSeries.InjectAnomaly | backend/utils/synthetic_data.py:70-75 | without anomalies, or when the roll is at least 0.01, nothing changes; otherwise exactly one of temperature (up 0.5 to 1.0) or pH (up 0.3 to 0.5) moves |
| SensorSeries.Series | backend/utils/synthetic_data.py:32-92 | one sample per point, `(hours * 60) // interval` of them |
| SensorSeries.SeriesAt | backend/utils/synthetic_data.py:33-90 | sample i is built from index i, its growth phase and its own noise draws |
| SensorSeries.SampleAt | backend/utils/synthetic_data.py:54-88 | sample i is stamped `count - i` intervals before now, carries the reactor id and the phase of its elapsed hours, has non-negative density, viable count, glucose and lactate, and without anomalies the temperature `37 + noise` |
| SensorSeries.GenerateBioreactorTimeseries | backend/utils/synthetic_data.py:23-92 | the loop builds exactly the series; a zero interval is the division error |
| SensorSeries.SeriesTimestampStep | backend/utils/synthetic_data.py:33-36 | consecutive timestamps differ by the interval, and the last is one interval before now |
| SensorSeries.SeriesTimestampsIncrease | backend/utils/synthetic_data.py:33-36 | with a positive interval, timestamps strictly increase by the interval per index |
| SensorSeries.SeriesQuantitiesNonNegative | backend/utils/synthetic_data.py:85-88 | cell density, viable cell count, glucose and lactate are never negative |
| SensorSeries.SeriesPhaseOrder | backend/utils/synthetic_data.py:39-53 | a later sample never has an earlier growth phase |
| SensorSeries.SeriesWithoutAnomalies | backend/utils/synthetic_data.py:56-57 | without anomalies, temperature is 37 plus noise and pH is 7 plus noise minus a tenth of the growth factor |
| SensorSeries.WeekSeriesPhases | backend/utils/synthetic_data.py:26-53 | a one-week hourly series has 168 samples and reaches all four phases |
| SensorSeries.DaySeriesScenario | backend/utils/synthetic_data.py:26-53 | a 24-hour series at 5 minutes has 288 samples and is still in the lag phase at the end |
| EntityRecords.BatchAt | backend/utils/synthetic_data.py:145 | record i has id `B2024-` followed by i + 1 padded to three digits |
| EntityRecords.BatchAtWellFormed | backend/utils/synthetic_data.py:111-162 | a start in the 180 days before `now`; clamped yield, quality, purity and potency ranges; 10 to 21 days' duration; members of the product, status, site and reactor lists; at most one deviation, present exactly when the roll is below 0.1; CAPA exactly for a Major deviation |
| EntityRecords.BatchRecords | backend/utils/synthetic_data.py:110-164 | one record per index in order, record i with id number i + 1 |
| EntityRecords.GenerateBatchRecords | backend/utils/synthetic_data.py:94-164 | the loop appends exactly those records |
| EntityRecords.BatchIdInjective | backend/utils/synthetic_data.py:145 | different numbers give different batch ids |
| EntityRecords.BaseHealthRange | backend/utils/synthetic_data.py:184-185 | base health goes down from 100 to 60 as the days since maintenance go from 0 to 180 |
| EntityRecords.BaseHealth | backend/utils/synthetic_data.py:184-185 | 100 at zero days, and within [60, 100] over the drawn 0 to 180 days |
| EntityRecords.EquipmentAt | backend/utils/synthetic_data.py:180-210 | health clamped to [60, 100], status bucketed from it, id `PREFIX-nn` of the chosen type, maintenance dates and counters in their draw ranges |
| EntityRecords.EquipmentList | backend/utils/synthetic_data.py:179-212 | one record per index, in order |
| EntityRecords.GenerateEquipmentHealth | backend/utils/synthetic_data.py:166-212 | the loop appends exactly those records |
| EntityRecords.EquipmentStatusMatchesHealth | backend/utils/synthetic_data.py:186-194 | every generated record's status is the 85/70 bucket of its health score |
| EntityRecords.EquipmentIdInjective | backend/utils/synthetic_data.py:199 | ids built from dash-free prefixes and different numbers differ |
| EntityRecords.EquipmentIdsDistinct | backend/utils/synthetic_data.py:179-212 | two records at different positions have different equipment ids |
| EntityRecords.AlertAt | backend/utils/synthetic_data.py:227-251 | alert id `CONT-nnnn`, timestamp 1 to 72 hours ago, status and action from the 0.3/0.7 bands, confidence in [0.7, 0.99], a known reactor |
| EntityRecords.UnsortedAlerts | backend/utils/synthetic_data.py:226-251 | one alert per index, in order |
| EntityRecords.ContaminationAlerts | backend/utils/synthetic_data.py:214-253 | the unsorted alerts sorted newest first by timestamp; its properties are stated by `ContaminationAlertsWellFormed` |
| EntityRecords.GenerateContaminationAlerts | backend/utils/synthetic_data.py:214-253 | builds the alerts in order and returns them sorted newest first |
| EntityRecords.ContaminationAlertsWellFormed | backend/utils/synthetic_data.py:229-253 | the result is a permutation of the alerts built, sorted newest first, and every status and action matches its risk band |
| EntityRecords.AuditAt | backend/utils/synthetic_data.py:263-289 | id `AUD-2024-nnnnnn`, timestamp 1 to 720 hours ago, user and reason present, retention 3650 days ahead, old and new values exactly for UPDATE, entity id prefixed by the upper-cased type |
| EntityRecords.UnsortedAuditTrail | backend/utils/synthetic_data.py:262-289 | one entry per index, in order |
| EntityRecords.AuditTrail | backend/utils/synthetic_data.py:255-291 | the unsorted entries sorted newest first by timestamp; its properties are stated by `AuditTrailWellFormed` |
| EntityRecords.GenerateAuditTrail | backend/utils/synthetic_data.py:255-291 | builds the entries in order and returns them sorted newest first |
| EntityRecords.AuditTrailWellFormed | backend/utils/synthetic_data.py:263-291 | the result is a permutation of the entries built, sorted newest first, and each is attributable, has a reason and a retention date, and has old/new values exactly for UPDATE |
| Pipeline.BronzeEquipmentRow | databricks/02_dlt_workflows/pharma_manufacturing_dlt.py:95-112 | runtime in [0, 1000) and vibration in [0, 5) |
| Pipeline.BronzeSensorRow | databricks/02_dlt_workflows/pharma_manufacturing_dlt.py:47-62 | temperature, pH and dissolved oxygen are present and lie in [36.9, 37.1), [6.95, 7.05) and [40, 50) |
| Pipeline.Validate | databricks/02_dlt_workflows/pharma_manufacturing_dlt.py:134-145 | the silver row keeps the readings, and all specs are met exactly when temperature, pH and oxygen are all inside their bands |
| Pipeline.ValidReading | databricks/02_dlt_workflows/pharma_manufacturing_dlt.py:126-128 | the three drop rules: temperature in [30, 42], pH in [5, 9], dissolved oxygen in [0, 100], each present |
| Pipeline.SilverSensors | databricks/02_dlt_workflows/pharma_manufacturing_dlt.py:126-145 | the rows that pass the three drop rules, in order, each validated |
| Pipeline.SilverRowsInBands | databricks/02_dlt_workflows/pharma_manufacturing_dlt.py:126-145 | every silver row is inside the drop bounds, and each flag is exactly its band test |
| Pipeline.BronzeRowsMeetSpecs | databricks/02_dlt_workflows/pharma_manufacturing_dlt.py:47-63 | every synthetic bronze row survives the drop rules and meets all three specs |
| Pipeline.TwinHealth | databricks/02_dlt_workflows/pharma_manufacturing_dlt.py:168-169 | health in [95, 100) when all specs are met, in [70, 80) otherwise |
| Pipeline.TwinHealthSeparates | databricks/02_dlt_workflows/pharma_manufacturing_dlt.py:168-169 | any out-of-spec health is below any in-spec health |
| Pipeline.SilverEquipment | databricks/02_dlt_workflows/pharma_manufacturing_dlt.py:177-190 | keeps exactly the rows with vibration below 10, in input order, each with its health formula and 85/70 status |
| Pipeline.EquipmentHealth | databricks/02_dlt_workflows/pharma_manufacturing_dlt.py:184-185 | `100 - vibration * 10 - runtime / 500`: at most 100 for non-negative readings, and above `-runtime / 500` below the vibration limit |
| Pipeline.EquipmentHealthMonotone | databricks/02_dlt_workflows/pharma_manufacturing_dlt.py:184-185 | more vibration or more runtime never raises the health score |
| Pipeline.BronzeEquipmentHealthRange | databricks/02_dlt_workflows/pharma_manufacturing_dlt.py:104-112 | every synthetic equipment row survives the vibration rule with health in (48, 100] |
| Pipeline.Avg | databricks/02_dlt_workflows/pharma_manufacturing_dlt.py:216-221 | an average exists exactly for a non-empty group, equals the group's mean and lies between its minimum and maximum |
| Pipeline.Percent | databricks/02_dlt_workflows/pharma_manufacturing_dlt.py:232-233 | defined exactly for a non-empty whole, equal to part / whole · 100 (so value · whole = part · 100), in [0, 100], and 100 exactly when every part counts |
| Pipeline.Hourly | databricks/02_dlt_workflows/pharma_manufacturing_dlt.py:204-234 | reading count, in-spec count no larger, compliance equal to `Percent(inSpec, count)` and 100% exactly when every reading meets all specs; for a non-empty window the four averages are the means of their columns and the maximum cell density is the column's maximum; an empty window has no statistics |
| Pipeline.MeetsSpecs | databricks/02_dlt_workflows/pharma_manufacturing_dlt.py:224 | a row counts as in spec exactly when its `all_specs_met` flag holds |
| Pipeline.CountAllIff | databricks/02_dlt_workflows/pharma_manufacturing_dlt.py:223-224 | the in-spec count equals the reading count exactly when every reading passes |
| Pipeline.Fraction | databricks/02_dlt_workflows/pharma_manufacturing_dlt.py:255 | the average of a boolean column is part / whole (so value · whole = part), in [0, 1], and 1 exactly when every value is true |
| Pipeline.RowsOf | databricks/02_dlt_workflows/pharma_manufacturing_dlt.py:248-250 | the group of one reactor holds exactly that reactor's rows |
| Pipeline.BatchSensorAggFor | databricks/02_dlt_workflows/pharma_manufacturing_dlt.py:248-261 | the left join finds an aggregate exactly when the reactor has rows; its maximum cell density, average temperature and average pH are the maximum and means of those rows, its compliance is the in-spec count over the row count, and it is 1 exactly when all of them meet specs |
| Pipeline.PredictedYield | databricks/02_dlt_workflows/pharma_manufacturing_dlt.py:262-263 | null without a sensor aggregate, otherwise in [90 + (density - 4) * 5, that + 3) |
| Pipeline.PredictedYieldMonotone | databricks/02_dlt_workflows/pharma_manufacturing_dlt.py:262-263 | a higher peak cell density never lowers the predicted yield |
| Pipeline.ContaminationRiskScore | databricks/02_dlt_workflows/pharma_manufacturing_dlt.py:293-295 | instability plus 0.3 when average oxygen is below 40, plus 0.05 otherwise |
| Pipeline.Instability | databricks/02_dlt_workflows/pharma_manufacturing_dlt.py:293-298 | `2 * ph_instability + 5 * temp_instability`: non-negative for non-negative inputs, 0 for steady readings |
| Pipeline.ContaminationRiskLevel | databricks/02_dlt_workflows/pharma_manufacturing_dlt.py:296-298 | High exactly above 0.5 instability, Medium exactly in (0.2, 0.5], Low otherwise |
| Pipeline.RiskLevelIgnoresOxygen | databricks/02_dlt_workflows/pharma_manufacturing_dlt.py:293-298 | the level ignores the oxygen term: a score of 0.5 can still be Low |
| Pipeline.PredictiveMaintenance | databricks/02_dlt_workflows/pharma_manufacturing_dlt.py:311-325 | one maintenance row per equipment row with health below 85, in input order, and exactly those rows |
| Pipeline.NeedsMaintenance | databricks/02_dlt_workflows/pharma_manufacturing_dlt.py:313 | the maintenance filter: health below 85 |
| Pipeline.MaintenanceOf | databricks/02_dlt_workflows/pharma_manufacturing_dlt.py:322-324 | urgency High exactly below health 70, Medium exactly in [70, 85), Low exactly from 85; 7, 30 and 90 days for the three urgencies; alert id `PM-<equipment>-<yyyyMMdd>` |
| Pipeline.MaintenanceLowBranchUnreachable | databricks/02_dlt_workflows/pharma_manufacturing_dlt.py:313-321 | after the filter only 7 days/High and 30 days/Medium occur; the 90 days/Low branch cannot |
| Pipeline.DataQualityScore | databricks/02_dlt_workflows/pharma_manufacturing_dlt.py:339-364 | defined exactly for a non-empty window, in [-100, 100], and 100 exactly when no reading has a null or out-of-range temperature or pH |
| Pipeline.CountNoneIff | databricks/02_dlt_workflows/pharma_manufacturing_dlt.py:349-363 | a count is zero exactly when no row meets its condition |
| Pipeline.DataQualityDoubleCounts | databricks/02_dlt_workflows/pharma_manufacturing_dlt.py:349-363 | a row whose temperature and pH are both invalid counts twice: one such row scores -100 |
| Pipeline.ValidReadingIsNotInvalid | databricks/02_dlt_workflows/pharma_manufacturing_dlt.py:126-127 | a row that survives the drop rules is counted as valid by the quality monitor |
| BioreactorApi.ListBioreactors | backend/api/bioreactor.py:18-85 | five reactors with distinct ids; a reactor has a batch exactly when it has a phase and start/harvest dates, started in the past and harvested 14 days after its start |
| BioreactorApi.ListIgnoresFilters | backend/api/bioreactor.py:19-23 | the site and status filters are accepted and never applied |
| BioreactorApi.SensorData | backend/api/bioreactor.py:88-105 | rejects hours outside [1, 168]; otherwise exactly the five-minute series with anomalies, `12 * hours` samples, all of that reactor |
| BioreactorApi.SeriesNamesBioreactor | backend/api/bioreactor.py:88-105 | every sample returned for a reactor carries that reactor's id |
| BioreactorApi.LatestHourSample | backend/api/bioreactor.py:194-200 | the current status reads the last of the twelve samples of a one-hour, five-minute series |
| BioreactorApi.GetCurrentStatus | backend/api/bioreactor.py:186-252 | Operational exactly when temperature, pH and oxygen are all within spec, Warning otherwise; each in-spec flag is its band test |
| BioreactorApi.CurrentStatusFromNoise | backend/api/bioreactor.py:194-210 | the latest sample is 5 minutes old and in the lag phase, and the status is Operational exactly when the noise draws stay within the spec margins |
| BioreactorApi.AgitationAlwaysInSpec | backend/api/bioreactor.py:234-240 | agitation is reported in spec, and the generated value does lie in [115, 125] |
| BioreactorApi.GetDigitalTwin | backend/api/bioreactor.py:117-143 | the twin's sensors are the last of 144 samples of a 24-hour, 10-minute series, and its phase is that sample's phase |
| BioreactorApi.DigitalTwinAlwaysLag | backend/api/bioreactor.py:117-143 | a 24-hour series never leaves the lag phase, so the twin always reports "lag" |
| EquipmentApi.ListEquipment | backend/api/equipment.py:13-30 | at most 15 records, in generated order, holding exactly those that match the status and the case-insensitive type filters |
| EquipmentApi.ListWithoutFilters | backend/api/equipment.py:22-30 | without filters the full generated fleet is returned |
| EquipmentApi.GetEquipmentHealth | backend/api/equipment.py:33-91 | health in [65, 98); status, urgency and maintenance window by the 85/70 bands; failure probability is (100 - health) / 100; normal recommendations exactly from 85 |
| EquipmentApi.HealthReportMonotone | backend/api/equipment.py:43-63 | higher health never gives a more severe status or a higher failure probability |
| EquipmentApi.AlertFor | backend/api/equipment.py:105-119 | the alert of one piece of equipment: its id and health, Critical exactly below 70 and Warning otherwise, 7 or 30 failure days to match, not acknowledged |
| EquipmentApi.AlertsOf | backend/api/equipment.py:104-119 | the alerts of the loop: one per unit below 85, in fleet order; its properties are stated by `AlertsOfLength`, `AlertsOfSound` and `AlertsOfComplete` |
| EquipmentApi.AlertsOfLength | backend/api/equipment.py:104-119 | no more alerts than equipment |
| EquipmentApi.AlertsOfSound | backend/api/equipment.py:105-119 | every alert belongs to a piece of equipment with health below 85 |
| EquipmentApi.AlertsOfComplete | backend/api/equipment.py:105-119 | every piece of equipment with health below 85 gets its alert |
| EquipmentApi.RaiseAlerts | backend/api/equipment.py:104-119 | the loop builds exactly the alert list of the equipment below 85, in order |
| EquipmentApi.GetMaintenanceAlerts | backend/api/equipment.py:94-125 | generate, raise, filter by severity, sort by health |
| EquipmentApi.MaintenanceAlerts | backend/api/equipment.py:121-125 | sorted by health ascending, and a permutation of the raised alerts that pass the severity filter |
| EquipmentApi.MaintenanceAlertsWellFormed | backend/api/equipment.py:104-125 | sorted by health; each alert matches the filter, is below 85, is Critical exactly below 70 with 7 failure days (30 otherwise); every matching low-health piece of equipment is present |
| ContaminationApi.GetContaminationAlerts | backend/api/contamination.py:13-31 | rejects a limit outside [1, 100]; otherwise at most `limit` alerts, newest first, exactly the generated ones matching the status and reactor filters; an order-preserving subsequence of the generated alerts |
| ContaminationApi.GetRealtimeRisk | backend/api/contamination.py:34-76 | Low exactly below 0.3, High exactly from 0.7, its action from the level; confidence and history in their draw ranges; no events |
| ContaminationApi.RealtimeAction | backend/api/contamination.py:46-54 | the fixed action text of each level: monitoring for Low, investigation for Medium, immediate sampling for High |
| ContaminationApi.RealtimeAndAlertBucketsAgree | backend/api/contamination.py:46-54 | the real-time endpoint and the alert generator bucket a score identically but word the action differently |
| ContaminationApi.Summarize | backend/api/contamination.py:87-104 | high, medium and low are the counts of alerts at each level and add up to the total; the average risk is the mean of the scores, 0 without alerts and in [0, 1] when the scores are; no contamination events, false-positive rate 0.02, accuracy 0.96 |
| ContaminationApi.AverageRisk | backend/api/contamination.py:104 | the mean of the risk scores, 0 for no alerts, and in [0, 1] when every score is |
| ContaminationApi.LevelsPartition | backend/api/contamination.py:89-91 | every alert is counted in exactly one level |
| ContaminationApi.GetContaminationSummary | backend/api/contamination.py:79-112 | rejects days outside [7, 90]; otherwise the summary of 50 generated alerts: level counts of those alerts adding up to 50, their mean risk in [0, 1] |
| BatchApi.ListBatches | backend/api/batch.py:14-32 | rejects a limit outside [1, 500]; otherwise at most `limit` batches, exactly those matching status and the case-insensitive product filter, in generation order |
| BatchApi.FirstWithId | backend/api/batch.py:45 | the first index with that id, or none exactly when no batch has it |
| BatchApi.PotencyResult | backend/api/batch.py:83 | Pass exactly when potency is within [90, 110] |
| BatchApi.QualityTests | backend/api/batch.py:61-96 | four tests `QC-<id>-001` to `-004`; purity and potency carry the batch's values; only potency can fail |
| BatchApi.GetBatchDetails | backend/api/batch.py:35-105 | the first of ten generated batches with that id, otherwise the first batch renamed to it; tests built for the requested id |
| BatchApi.BatchDetailsFound | backend/api/batch.py:44-45 | the ids `B2024-001` to `B2024-010` are found at their own positions |
| BatchApi.FirstIndexUnique | backend/api/batch.py:45 | a matching index with no earlier match is the one found |
| BatchApi.GeneratedPotencyPasses | backend/api/batch.py:78-86 | generated potency is clamped, so every quality test of a detail view passes |
| BatchApi.PredictBatchYield | backend/api/batch.py:108-139 | prediction in [88, 96) strictly inside its interval, each side 2 to 4 points wide; "progressing well" exactly above 90 |
| BatchApi.Trends | backend/api/batch.py:151-165 | below-target and at-target counts split the yields; average, min and max are the mean, minimum and maximum of the yields; the achievement rate is the at-target share in percent; all zero without yields; ten recent batches |
| BatchApi.Spread | backend/api/batch.py:154-161 | the mean, minimum and maximum of the yields, with min ≤ average ≤ max, and zeros without yields |
| BatchApi.Targets | backend/api/batch.py:162-163 | the below-target count and the achievement rate of a list of yields |
| BatchApi.AchievementRate | backend/api/batch.py:163 | in [0, 100], equal to at-target * 100 / total, and 100 exactly when every yield is at target |
| BatchApi.GetYieldTrends | backend/api/batch.py:142-165 | rejects days outside [7, 365]; otherwise the trends of 50 generated batches, with the product filter never applied |
| BatchApi.GeneratedYields | backend/api/batch.py:153 | every generated yield is in [75, 98], so the truthiness filter keeps all of them |
| BatchApi.TrendsWithin | backend/api/batch.py:154-161 | yields confined to [lo, hi] give min, average and max confined there too |
| BatchApi.GeneratedTrends | backend/api/batch.py:151-161 | the 50 generated batches give 50 yields with 75 ≤ min ≤ average ≤ max ≤ 98 |
| AuditApi.QueryLogs | backend/api/audit.py:32-40 | keeps exactly the entries that match every given filter (an empty filter matches all); the result is an order-preserving subsequence of the logs |
| AuditApi.QueryKeepsOrder | backend/api/audit.py:32-42 | filtering a newest-first trail leaves it newest first |
| AuditApi.GetAuditLogs | backend/api/audit.py:15-42 | rejects a limit outside [1, 1000]; otherwise the filtered trail of `limit` generated entries |
| AuditApi.AuditLogsWellFormed | backend/api/audit.py:30-42 | the reply holds at most `limit` entries, newest first |
| AuditApi.DatesIgnored | backend/api/audit.py:21-22 | the start and end dates are accepted and never applied |
| AuditApi.FallbackTrail | backend/api/audit.py:64-98 | the three-entry CREATE, UPDATE, APPROVE history of the entity, in time order before now, ids `AUD-<id>-001` to `-003`, old/new values only on the UPDATE |
| AuditApi.EntityTrail | backend/api/audit.py:58-100 | never empty and only about the entity: exactly its entries when there are any, the fallback history otherwise |
| AuditApi.GetEntityAuditTrail | backend/api/audit.py:45-100 | the entity's trail among 50 generated entries, never empty, all about that entity |
| AuditApi.NumWithAction | backend/api/audit.py:116-119 | the number of entries with an action, positive exactly when some entry has it |
| AuditApi.ActionCountsCorrect | backend/api/audit.py:116-119 | the breakdown has a key exactly for each action that occurs, mapped to its number of entries |
| AuditApi.CountActions | backend/api/audit.py:116-119 | the counting loop builds exactly that breakdown |
| AuditApi.MapTotalAt | backend/api/audit.py:116-119 | the sum of a breakdown may be taken starting from any of its keys |
| AuditApi.MapTotalIncrement | backend/api/audit.py:119 | counting one more occurrence of an action raises the sum of the breakdown by one |
| AuditApi.ActionCountsTotal | backend/api/audit.py:116-119 | the per-action counts add up to the number of entries they were taken from |
| AuditApi.UserBreakdownSumsToTotal | backend/api/audit.py:116-124 | a user's action breakdown adds up to that user's total actions |
| AuditApi.ReportBreakdownSumsToTotal | backend/api/audit.py:206-214 | the report's action breakdown adds up to its number of audit entries |
| AuditApi.EntityIdsBound | backend/api/audit.py:127 | there are no more distinct entity ids than entries |
| AuditApi.UserLogs | backend/api/audit.py:113 | exactly the entries of that user |
| AuditApi.UserActivityOf | backend/api/audit.py:113-130 | total, breakdown, entities modified and critical actions of the user's entries, each bounded by the total; the first ten as recent activity |
| AuditApi.UserBreakdownCounts | backend/api/audit.py:113-125 | the user's breakdown has exactly the actions that user performed, with their counts |
| AuditApi.GetUserActivity | backend/api/audit.py:103-130 | rejects days outside [1, 365]; otherwise the activity over 200 generated entries |
| AuditApi.Integrity | backend/api/audit.py:146-192 | attributable, complete, enduring and available as the source tests them; legible, contemporaneous, original, accurate and consistent always hold; overall compliance exactly when all nine hold; the issue list is the missing-attribution message then the missing-reasons message, each exactly when its check fails; "All ALCOA+ criteria met" exactly when there are no issues, otherwise "Address identified issues" |
| AuditApi.FirstOfType | backend/api/audit.py:144 | the first min(5, n) entries of the type in log order, where n is how many the logs hold; some exactly when the logs have that type |
| AuditApi.CheckDataIntegrity | backend/api/audit.py:133-192 | the verdict of `Integrity` over the first five of 50 generated entries with the entity type, so all nine ALCOA+ flags, the issue list and the recommendation as stated there, with at most five entries examined |
| AuditApi.IntegrityOnWellFormedLogs | backend/api/audit.py:144-188 | on entries that all have a user, a reason and a retention date there is no issue, and compliance holds exactly when the type occurs |
| AuditApi.IntegrityOnGeneratedTrail | backend/api/audit.py:143-192 | the generated trail never raises an issue, and compliance fails only when the type is absent |
| AuditApi.UserIdsBound | backend/api/audit.py:207 | there are no more distinct users than entries |
| AuditApi.ReportOf | backend/api/audit.py:205-261 | totals, distinct users and critical actions of the entries, each bounded by the total; the action breakdown; a period of `days` ending now; open plus closed findings equals the total |
| AuditApi.GenerateComplianceReport | backend/api/audit.py:195-261 | rejects days outside [7, 365]; otherwise the report over 500 generated entries |
| AuditApi.ReportCoversTrail | backend/api/audit.py:203-206 | the report counts all 500 generated entries |
| Simulator.ScenarioFor | backend/api/simulator.py:29-109 | a configuration exactly for the three scenario names, each with five objectives and five correct actions |
| Simulator.Points | backend/api/simulator.py:189-201 | a correct action earns 20 on hard, 15 on medium and 10 otherwise; a wrong one costs 5 |
| Simulator.ScoreOf | backend/api/simulator.py:192-199 | the score accumulated from 0 over an action log, each action adding its points; bounded by `ScoreBounds` |
| Simulator.CorrectActionsTaken | backend/api/simulator.py:217 | the correct actions taken, in order with repeats: no longer than the log, every one a correct action |
| Simulator.AllCorrectActionsDone | backend/api/simulator.py:218 | the completion test: every correct action is among those taken |
| Simulator.CorrectActionsTakenMembers | backend/api/simulator.py:217 | a name is among the correct actions taken exactly when it is a correct action and some recorded action has it |
| Simulator.AllDoneIffEachTaken | backend/api/simulator.py:217-218 | the completion test holds exactly when every correct action was taken at least once |
| Simulator.ApplyAction | backend/api/simulator.py:178-224 | one record appended, 1 to 5 minutes added, the score moved by the action's points, completed once all correct actions are done, nothing else changed |
| Simulator.ApplyActionWellFormed | backend/api/simulator.py:178-224 | an action on an active, consistent session leaves it consistent: score equal to the sum of its actions' points, time within 1 to 5 minutes per action, completed exactly when all correct actions were taken |
| Simulator.WellFormed | backend/api/simulator.py:178-224 | what every stored session keeps: correct actions exist, the score is the sum of the actions' points, 1 to 5 minutes per action, and completed exactly when all correct actions are done |
| Simulator.CorrectPlusIncorrect | backend/api/simulator.py:252-253 | correct and incorrect actions together are all actions taken |
| Simulator.ProgressPercent | backend/api/simulator.py:140-146 | progress times the number of objectives is 100 times the correct actions; non-negative, and 0 without objectives or without correct actions |
| Simulator.RepeatedStopFeedingWellFormed | backend/api/simulator.py:185-221 | six repeated `stop_feeding` actions at medium difficulty make a consistent, still active session scoring 90 |
| Simulator.ProgressCountsRepeats | backend/api/simulator.py:141-146 | progress counts repeats, so that session reports 120% |
| Simulator.Grade | backend/api/simulator.py:256-264 | A exactly from 80, B exactly in [60, 80), C exactly in [40, 60), D exactly below 40 |
| Simulator.SummaryOf | backend/api/simulator.py:250-283 | correct and incorrect actions are the counts of correct and other actions and add up to the total; objectives completed is `<correct>/<objectives>`; grade and final score from the score; strengths exactly above two correct actions; improvement areas exactly above one incorrect action; advanced training exactly from 70 |
| Simulator.AllCorrectScore | backend/api/simulator.py:192-194 | a run of correct actions earns the difficulty's points for each |
| Simulator.ScoreBounds | backend/api/simulator.py:192-199 | the score lies between -5 and 20 points per action |
| Simulator.StoreWellFormed | backend/api/simulator.py:15 | storing a consistent session keeps every session in the table consistent |
| Simulator.SimulatorSessions.constructor | backend/api/simulator.py:15 | the table starts empty |
| Simulator.SimulatorSessions.CreateSession | backend/api/simulator.py:18-124 | an unknown scenario is rejected and changes nothing; otherwise a fresh active session with score 0 and no actions is stored under the new id |
| Simulator.SimulatorSessions.GetStatus | backend/api/simulator.py:127-157 | not found exactly for an unknown id; otherwise that session's id, elapsed time, status, score, action count, conditions, progress and `<correct>/<objectives>` |
| Simulator.SimulatorSessions.PerformAction | backend/api/simulator.py:160-236 | unknown id: not found; inactive session: rejected; both change nothing; otherwise exactly that session is replaced by the session after the action, and the reply reports correctness, points, total, status, completion message and consequence |
| Simulator.SimulatorSessions.GetSummary | backend/api/simulator.py:239-283 | not found exactly for an unknown id; otherwise the session's summary |
| Simulator.SimulatorSessions.DeleteSession | backend/api/simulator.py:286-298 | removes exactly that session, or reports not found and changes nothing |
| EmbeddedGenerator.Truncate | app_fixed.py:52 | Python's `int(x)`, which drops the fraction toward zero on both sides of 0 |
| EmbeddedGenerator.CompactSeries | app_fixed.py:34-54 | `(hours * 60) // interval` samples, sample i built from index i and its own noise |
| EmbeddedGenerator.CompactSampleAt | app_fixed.py:39-53 | sample i is stamped `count - i` intervals before now, has agitation exactly in the fixed app, and never a negative density |
| EmbeddedGenerator.GenerateBioreactorTimeseries | app_fixed.py:32-55 | the dashboard's loop builds exactly the compact series of the chosen app; a zero interval is the division error |
| EmbeddedGenerator.CompactSeriesWellFormed | app_fixed.py:34-54 | cell density is never negative, agitation is present exactly in the fixed app, timestamps step by the interval and end one interval before now |
| EmbeddedGenerator.AppsDifferOnlyInAgitation | app_standalone.py:32-54 | from the same per-sample draws, the standalone app's series is the fixed app's series with agitation removed, sample for sample |
| EmbeddedGenerator.NoiselessDensityCurve | app_fixed.py:39-53 | without noise the density is 0.45 in the lag phase, 4.5 from 16 h, and never falls from 4 h on |
| EmbeddedGenerator.CompactBatches | app_fixed.py:57-69 | one record per index, record i built from its own draws |
| EmbeddedGenerator.CompactBatchAt | app_fixed.py:59-67 | id `B2024-` and i + 1, a listed product and status, and the raw yield draw |
| EmbeddedGenerator.GenerateBatchRecords | app_fixed.py:57-69 | the loop appends exactly those records |
| EmbeddedGenerator.CompactBatchesWellFormed | app_fixed.py:59-67 | products and statuses come from the dashboard's lists, and batch ids are pairwise distinct |
| EmbeddedGenerator.CompactYieldUnclamped | app_fixed.py:66 | the dashboard's yield is the raw normal draw, so it can exceed 100 |
| EmbeddedGenerator.CompactEquipmentList | app_fixed.py:71-84 | one record per index, record i built from its own draws |
| EmbeddedGenerator.CompactEquipmentAt | app_fixed.py:74-82 | health in [65, 98) with its 85/70 status, a listed type, and next maintenance 5 to 90 days ahead |
| EmbeddedGenerator.GenerateEquipmentHealth | app_fixed.py:71-84 | the loop appends exactly the equipment list |
| EmbeddedGenerator.CompactEquipmentWellFormed | app_fixed.py:74-82 | health in [65, 98), the status bucket of that health, a listed type, next maintenance 5 to 90 days ahead |
| EmbeddedGenerator.CompactEquipmentStatusesReachable | app_fixed.py:75-76 | each of Critical, Warning and Operational is produced by some draw |
| EmbeddedGenerator.CompactAlerts | app_fixed.py:86-99 | one alert per index, alert i built from its own draws |
| EmbeddedGenerator.CompactAlertAt | app_fixed.py:89-97 | status from the 0.3/0.7 bands of the score, its action, and a timestamp 1 to 72 hours back |
| EmbeddedGenerator.GenerateContaminationAlerts | app_fixed.py:86-99 | the loop appends exactly the alert list |
| EmbeddedGenerator.ReactorName | app_fixed.py:94 | `BR-{n:02d}` for n in 1..5 names one of the five bioreactors |
| EmbeddedGenerator.CompactAlertsWellFormed | app_fixed.py:89-97 | status and action follow the risk bands exactly, the reactor is listed, the timestamp is 1 to 72 hours back |
| SensorSchema.ErrorsAmong | backend/schemas/bioreactor.py:15-23 | a field is reported exactly when it is one of those checked and its bound fails |
| SensorSchema.Errors | backend/schemas/bioreactor.py:15-27 | the errors are exactly the violated fields, none exactly for a valid reading, at most seven |
| SensorSchema.ValidIffNoViolation | backend/schemas/bioreactor.py:15-23 | a reading is valid exactly when no field violates its bound |
| SensorSchema.Construct | backend/schemas/bioreactor.py:9-27 | a reading is accepted unchanged exactly when valid; otherwise the error lists exactly the failing fields |
| SensorSchema.NutrientsUnconstrained | backend/schemas/bioreactor.py:26-27 | changing glucose or lactate changes neither validity nor the error list |
| SensorSchema.DropRulesMatchSchema | backend/schemas/bioreactor.py:15-17 | a pipeline row passes the three drop rules exactly when the schema reports none of temperature, pH and dissolved oxygen |
| SensorSchema.NullRowIsDropped | backend/schemas/bioreactor.py:15-17 | a row missing one of the three required values fails the drop rules |
| SensorSchema.BronzeRowsValid | backend/schemas/bioreactor.py:15-23 | every generated bronze row is accepted by the schema |
| SensorSchema.TwinHealthValid | backend/schemas/bioreactor.py:65 | every digital-twin health the pipeline derives is within [0, 100] |
| YieldModel.Yield | databricks/03_ml_models/yield_predictor.py:93-96 | the labelled yield lies in [75, 98]: the raw yield inside the range, the nearer end outside it |
| YieldModel.ReferenceYield | databricks/03_ml_models/yield_predictor.py:75-93 | at the reference features and zero noise the yield is exactly 90 |
| YieldModel.RawYieldMonotone | databricks/03_ml_models/yield_predictor.py:78-90 | a batch that is no worse in any feature never gets a lower raw yield |
| YieldModel.YieldMonotone | databricks/03_ml_models/yield_predictor.py:93-96 | the clipped yield keeps that order |
| YieldModel.Sensitivities | databricks/03_ml_models/yield_predictor.py:78-90 | each feature moves the raw yield by its coefficient: +10, +0.5, +0.3, -15, -20, -15, and -0.1 per passage |
| YieldModel.ConfidenceInterval | databricks/03_ml_models/yield_predictor.py:217-220 | the interval is 1.96 RMSE either side of the prediction and contains it when the RMSE is non-negative |
| Text.NatToString | backend/utils/synthetic_data.py:145 | `str(n)`: at least one digit, all digits, no leading zero unless n is 0 |
| Text.ZFill | backend/utils/synthetic_data.py:145 | `zfill(width)` pads to the width and never shortens |
| Text.ParseNatToString | backend/utils/synthetic_data.py:145 | reading the digits of `str(n)` gives back n |
| Text.ParseZFill | backend/utils/synthetic_data.py:145 | reading a zero-padded number gives back n, whatever the width |
| Text.PaddedIdInjective | backend/utils/synthetic_data.py:199 | ids that differ in their number differ, for any prefix and width |
| Text.DashedIdNumber | backend/utils/synthetic_data.py:242 | the number after the first dash of `PREFIX-0042` is 42 |
| Text.Lower | backend/api/equipment.py:28 | keeps the length and lowers each ASCII letter, leaving other characters alone |
| Text.Upper | backend/utils/synthetic_data.py:275 | `upper()` keeps the length and raises each ASCII letter |
| Text.ContainsAt | backend/api/equipment.py:28 | Python's `in` on strings holds exactly when the needle occurs at some position |
| Seqs.Filter | backend/api/equipment.py:25-28 | a comprehension filter keeps exactly the matching elements, as an order-preserving subsequence |
| Seqs.FilterFilter | backend/api/audit.py:33-40 | filtering twice is filtering by the conjunction |
| Seqs.CountSplit | backend/api/batch.py:153-163 | counts of two complementary conditions add up to the length |
| Seqs.Min | backend/api/batch.py:160 | `min` is an element no greater than any other |
| Seqs.Max | backend/api/batch.py:161 | `max` is an element no smaller than any other |
| Seqs.MeanBetweenMinAndMax | backend/api/batch.py:153-161 | the mean of a non-empty list lies between its minimum and maximum |
| Seqs.MeanBounds | backend/api/contamination.py:104 | the mean of values within a range lies in that range |
| Seqs.Sort | backend/api/equipment.py:125 | `sorted` returns a permutation ordered by the key, ascending or descending |
| Seqs.InsertSorted | backend/api/equipment.py:125 | inserting into a sorted list keeps it sorted |
| Seqs.FilterKeepsOrder | backend/utils/synthetic_data.py:253 | filtering a sorted list leaves it sorted |

## Left out

- Python's random number generator, NumPy's distributions and Faker are left out. Draws are parameters, each constrained to the range of its distribution.
- EntityRecords.BatchAt: Faker's `-6M` is taken as 180 days, and the start time is whole minutes; Faker's own month length and seconds are not modelled.
- `ContaminationApi.GetRealtimeRisk`: the fixed five-entry `contributing_factors` list of the reply (backend/api/contamination.py:64-70) is not modelled.
- `round(x, n)` is not modelled, and reals are exact. Bounds are proved on the unrounded values and hold for the rounded ones up to the rounding step. Threshold decisions are made on the unrounded values. The source tests some thresholds against stored, rounded values, so a value within half a rounding step of a threshold can fall on the other side there. The members below state their thresholds on unrounded values for this reason.
- BioreactorApi.GetCurrentStatus: the in-spec tests use unrounded readings. The source rounds temperature, pH and dissolved oxygen to 2, 2 and 1 decimals first, so 37.104 °C is stored as 37.10 and is in spec there.
- BioreactorApi.CurrentStatusFromNoise: the same unrounded in-spec tests as `GetCurrentStatus`.
- EntityRecords.EquipmentStatusMatchesHealth: the status is decided on the unrounded health, as in the source, but the model does not round the stored health to 1 decimal. In the source, a health of 84.96 has status Warning and is stored as 85.0.
- EquipmentApi.AlertsOfComplete: the alert filter tests the unrounded health. The source tests the stored, rounded health, so the 84.96 equipment above raises no alert there.
- EquipmentApi.MaintenanceAlertsWellFormed: the same unrounded health as `AlertsOfComplete`.
- EntityRecords.AlertAt: the risk score is not rounded to 2 decimals. Its level comes from the unrounded score, as in the source.
- EntityRecords.ContaminationAlertsWellFormed: the same unrounded risk score as `AlertAt`.
- Standard deviations are left out. In `gold_contamination_risk` and `gold_bioreactor_hourly_metrics`, the standard deviation of a window is an input to the formulas.
- The Spark machinery is left out: streaming, window grouping, joins and table storage. Each window or group is a sequence of rows given to the model.
- Training, evaluation and model registry of the yield predictor are left out: XGBoost, MLflow and the train/test split. The model covers only the labelling formula and the confidence interval.
- The contamination detector model and the other notebooks are left out.
- The Dash user interface of the two dashboard apps is left out, apart from their data generators.
- HTTP routing, FastAPI validation plumbing, authentication and JSON rendering are left out. Parameter bounds and not-found replies are modelled as `Result` errors.
- `datetime.now()`, `isoformat()` and `strftime` are left out. Time is an integer number of minutes, and date stamps are string parameters. One `now` serves a whole call, whereas the source reads the clock again for every record.
- EntityRecords.ContaminationAlerts: two alerts with the same hour offset have equal timestamps here and keep their generation order under the stable sort. In the source, the later record reads a later clock and sorts first.
- EntityRecords.AuditTrail: the same holds for entries with the same hour offset. The order of such ties therefore differs from the source in every list cut from the trail: `recent_activities` of the user activity, the first five entries of the integrity check, and the entity trail.
- Concurrency is left out. The simulator's session table is modelled for one caller at a time.
- `Seqs.Sort`: the insertion sort places each element before the equal keys behind it, so it is stable like Python's `sorted`. Its contract proves only an ordered permutation, and stability is not proved.
- `BatchApi.GetBatchDetails`: the process-parameter, traceability and other constant dictionaries of the reply are not modelled, only the batch and its quality tests.
- The bronze batch-record table of the pipeline is not modelled. Only its sensor and equipment tables feed the silver layer here.
- The electronic batch record endpoints are not part of this model. Neither are the other routers or the frontend.
- The "exponential" default that `get_digital_twin` uses for a missing phase is not modelled. Every generated sample has a phase, so the default never applies.
- `Text.Lower`: lowers the ASCII letters A-Z only. Python's `str.lower()` folds all of Unicode, where lowering can change a string's length, for example "İ" becomes two code points. The equipment-type filter of `EquipmentApi` is therefore exact only on ASCII input.
- The two dashboard apps' NumPy draw streams are not modelled. The fixed app draws five normals per sample and the standalone app four, so the same seed gives different series. `EmbeddedGenerator.AppsDifferOnlyInAgitation` compares the two generators on the same per-sample draws.
- `bioreactor_risk_ranking` in the contamination summary is not modelled. It is a fixed five-entry list of constants and is not derived from the alerts. The `ContaminationSummary` value has no ranking field.
