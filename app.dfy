/**
 * The single-panel backend: the panel record (`panel_data`), the two
 * endpoints that change it (a sensor reading is stored; a defect detection
 * is recorded) and the read-only views computed from it (history, defect
 * list, panel info, predictive maintenance).
 *
 * Sensor values, the detector's output and `datetime.now()` stamps come in
 * as parameters. Arithmetic is over exact reals.
 */
module App {
  import opened PyBuiltins

  // ---------------------------------------------------------------------
  // Installation data: fixed in the record and never reassigned
  // ---------------------------------------------------------------------

  const PanelId: string := "SP-001"
  const InstallationDate: string := "2023-01-15"
  const InstallationCurrentRating: real := 8.5   // amperes
  const InstallationVoltageRating: real := 36.0  // volts
  const InstallationTemperature: real := 25.0    // degrees Celsius

  /** Each reading series keeps at most this many entries. */
  const MaxStoredReadings: int := 1000
  /** Panel info averages over this many newest readings. */
  const InfoWindow: int := 100
  /** Maintenance compares the mean of this many newest currents with the block before. */
  const TrendWindow: int := 30
  /** The history endpoint's `limit` when the query leaves it out. */
  const DefaultHistoryLimit: int := 100

  /** An ISO-8601 stamp from `datetime.now().isoformat()`, opaque here. */
  type Timestamp = string

  /** One stored entry of a series: `{'value': v, 'timestamp': t}`. */
  datatype Sample = Sample(value: real, timestamp: Timestamp)

  /** The three keys of `panel_data` that hold reading series. */
  datatype SeriesKey = CurrentReadings | VoltageReadings | TemperatureReadings

  /** The keys in the order the trim loop visits them. */
  const SeriesKeys: seq<SeriesKey> := [CurrentReadings, VoltageReadings, TemperatureReadings]

  /** The position of a key in `SeriesKeys`. */
  function KeyIndex(key: SeriesKey): (i: nat)
    ensures i < |SeriesKeys| && SeriesKeys[i] == key
  {
    match key
    case CurrentReadings => 0
    case VoltageReadings => 1
    case TemperatureReadings => 2
  }

  /** What the current-reading endpoint returns. */
  datatype Reading = Reading(current: real, voltage: real, temperature: real, timestamp: Timestamp)

  /**
   * One detection from the defect detector: its `type`, `confidence` and
   * `severity`; the `bbox` (bounding box) it also carries is dropped.
   */
  datatype Defect = Defect(kind: string, confidence: real, severity: string)

  const Active: string := "active"
  const Resolved: string := "resolved"

  /** One entry of the defect history: one analysed image and what was found in it. */
  datatype DefectRecord = DefectRecord(
    id: int,
    timestamp: Timestamp,
    defects: seq<Defect>,
    status: string,
    imagePath: Option<string>)

  /** An HTTP answer: a JSON body, or an error status with its message. */
  datatype Response<T> = Ok(body: T) | Error(status: nat, message: string)

  /** The parts of a multipart upload that the endpoint inspects. */
  datatype Upload = Upload(hasImage: bool, filename: string)

  /** The body of a successful detection call (the re-encoded image is left out). */
  datatype Detection = Detection(success: bool, defects: seq<Defect>, timestamp: Timestamp)

  // ---------------------------------------------------------------------
  // Reading series
  // ---------------------------------------------------------------------

  /**
   * The trim step applied to one series after an append: a series longer
   * than the bound keeps its newest `MaxStoredReadings` entries, in order.
   */
  function Trimmed(s: seq<Sample>): (r: seq<Sample>)
    ensures |r| == Min(|s|, MaxStoredReadings)
    ensures r == s[|s| - |r|..]
  {
    if |s| > MaxStoredReadings then SliceFrom(s, -MaxStoredReadings) else s
  }

  /**
   * Storing a sample in a series that respects the bound: the series still
   * respects it, ends with the new sample, and before it holds the newest
   * entries it had, in their order (all of them while there is room).
   */
  lemma IngestKeepsNewest(s: seq<Sample>, x: Sample)
    requires |s| <= MaxStoredReadings
    ensures var r := Trimmed(s + [x]);
      && |r| <= MaxStoredReadings
      && |r| == Min(|s| + 1, MaxStoredReadings)
      && r[|r| - 1] == x
      && r[..|r| - 1] == s[|s| + 1 - |r|..]
  {
  }

  /**
   * The three series of the record hold at most `MaxStoredReadings`
   * entries, have equal lengths, and their entries share a timestamp
   * index by index.
   */
  ghost predicate SeriesAligned(c: seq<Sample>, v: seq<Sample>, t: seq<Sample>)
  {
    && |c| == |v| == |t| <= MaxStoredReadings
    && (forall i :: 0 <= i < |c| ==> c[i].timestamp == v[i].timestamp)
    && (forall i :: 0 <= i < |c| ==> c[i].timestamp == t[i].timestamp)
  }

  /**
   * The defect fields as the detection endpoint writes them: record ids run
   * 1, 2, 3, ... in history order, every record is `active`, and an
   * inspection stamp exists exactly when a record does.
   */
  ghost predicate HistoryWellFormed(h: seq<DefectRecord>, lastInspection: Option<Timestamp>)
  {
    && (forall i :: 0 <= i < |h| ==> h[i].id == i + 1)
    && (forall i :: 0 <= i < |h| ==> h[i].status == Active)
    && (lastInspection.None? <==> h == [])
  }

  /** Storing one reading with a single stamp in all three series keeps them aligned. */
  lemma IngestKeepsAligned(c: seq<Sample>, v: seq<Sample>, t: seq<Sample>,
                           current: real, voltage: real, temperature: real, stamp: Timestamp)
    requires SeriesAligned(c, v, t)
    ensures SeriesAligned(Trimmed(c + [Sample(current, stamp)]),
                          Trimmed(v + [Sample(voltage, stamp)]),
                          Trimmed(t + [Sample(temperature, stamp)]))
  {
    var c', v', t' := c + [Sample(current, stamp)], v + [Sample(voltage, stamp)], t + [Sample(temperature, stamp)];
    assert forall i :: 0 <= i < |c'| ==> c'[i].timestamp == v'[i].timestamp == t'[i].timestamp by {
      forall i | 0 <= i < |c'|
        ensures c'[i].timestamp == v'[i].timestamp == t'[i].timestamp
      {
        if i < |c| {
          assert c'[i] == c[i] && v'[i] == v[i] && t'[i] == t[i];
        }
      }
    }
    var rc, rv, rt := Trimmed(c'), Trimmed(v'), Trimmed(t');
    assert rc == c'[|c'| - |rc|..] && rv == v'[|c'| - |rc|..] && rt == t'[|c'| - |rc|..];
  }

  // ---------------------------------------------------------------------
  // Defect history
  // ---------------------------------------------------------------------

  /** The records of `h` whose status is not `resolved`, in history order. */
  function Unresolved(h: seq<DefectRecord>): (r: seq<DefectRecord>)
    ensures |r| <= |h|
    ensures forall i :: 0 <= i < |r| ==> r[i].status != Resolved && r[i] in h
  {
    if h == [] then []
    else (if h[0].status != Resolved then [h[0]] else []) + Unresolved(h[1..])
  }

  /**
   * `defect_count`: the number of records (analysed images, not individual
   * defects) that are not resolved.
   */
  function ActiveDefectCount(h: seq<DefectRecord>): (count: nat)
    ensures count <= |h|
    ensures (forall i :: 0 <= i < |h| ==> h[i].status == Resolved) ==> count == 0
  {
    var r := Unresolved(h);
    assert |r| > 0 ==> r[0] in h && r[0].status != Resolved;
    |r|
  }

  /** Filtering distributes over appending one record. */
  lemma {:induction false} UnresolvedAppend(h: seq<DefectRecord>, rec: DefectRecord)
    ensures Unresolved(h + [rec]) == Unresolved(h) + (if rec.status != Resolved then [rec] else [])
  {
    if h != [] {
      assert (h + [rec])[1..] == h[1..] + [rec];
      UnresolvedAppend(h[1..], rec);
    }
  }

  /**
   * Appending a record moves `defect_count` by one exactly when the record
   * is not resolved.
   */
  lemma CountAfterAppend(h: seq<DefectRecord>, rec: DefectRecord)
    ensures ActiveDefectCount(h + [rec]) == ActiveDefectCount(h) + (if rec.status != Resolved then 1 else 0)
  {
    UnresolvedAppend(h, rec);
  }

  /**
   * Every record the backend writes is `active`, and nothing sets a status
   * afterwards; so over any such history `defect_count` is the number of
   * records.
   */
  lemma {:induction false} CountOfActiveHistory(h: seq<DefectRecord>)
    requires forall i :: 0 <= i < |h| ==> h[i].status == Active
    ensures ActiveDefectCount(h) == |h|
  {
    if h != [] {
      CountOfActiveHistory(h[1..]);
    }
  }

  /** The `{defects, total}` body of the defect-list endpoint. */
  datatype DefectList = DefectList(defects: seq<DefectRecord>, total: nat)

  // ---------------------------------------------------------------------
  // The panel record
  // ---------------------------------------------------------------------

  /** The mutable part of `panel_data`. */
  class Panel {
    var currentReadings: seq<Sample>
    var voltageReadings: seq<Sample>
    var temperatureReadings: seq<Sample>
    var defectHistory: seq<DefectRecord>
    var lastInspection: Option<Timestamp>

    /**
     * The invariant the endpoints keep: the series are aligned; record ids
     * run 1, 2, 3, ... in history order; every record is `active`; and an
     * inspection stamp exists exactly when a record does.
     */
    ghost predicate Valid()
      reads this
    {
      && SeriesAligned(currentReadings, voltageReadings, temperatureReadings)
      && HistoryWellFormed(defectHistory, lastInspection)
    }

    /** The record as the server starts: no readings, no records, no inspection. */
    constructor ()
      ensures Valid()
      ensures currentReadings == voltageReadings == temperatureReadings == []
      ensures defectHistory == [] && lastInspection == None
    {
      currentReadings, voltageReadings, temperatureReadings := [], [], [];
      defectHistory, lastInspection := [], None;
    }

    /** `panel_data[key]` for a series key. */
    function Series(key: SeriesKey): seq<Sample>
      reads this
    {
      match key
      case CurrentReadings => currentReadings
      case VoltageReadings => voltageReadings
      case TemperatureReadings => temperatureReadings
    }

    /** `panel_data[key] = s` for a series key; nothing else changes. */
    method SetSeries(key: SeriesKey, s: seq<Sample>)
      modifies this
      ensures Series(key) == s
      ensures forall k :: k != key ==> Series(k) == old(Series(k))
      ensures defectHistory == old(defectHistory) && lastInspection == old(lastInspection)
    {
      match key
      case CurrentReadings => currentReadings := s;
      case VoltageReadings => voltageReadings := s;
      case TemperatureReadings => temperatureReadings := s;
    }

    /**
     * The current-reading endpoint: store one sample per series under one
     * stamp, trim every series to its newest `MaxStoredReadings` entries,
     * and echo the reading. The defect history is untouched.
     */
    method GetCurrentReading(current: real, voltage: real, temperature: real, timestamp: Timestamp)
      returns (reading: Reading)
      requires Valid()
      modifies this
      ensures Valid()
      ensures reading == Reading(current, voltage, temperature, timestamp)
      ensures currentReadings == Trimmed(old(currentReadings) + [Sample(current, timestamp)])
      ensures voltageReadings == Trimmed(old(voltageReadings) + [Sample(voltage, timestamp)])
      ensures temperatureReadings == Trimmed(old(temperatureReadings) + [Sample(temperature, timestamp)])
      ensures defectHistory == old(defectHistory) && lastInspection == old(lastInspection)
    {
      IngestKeepsAligned(currentReadings, voltageReadings, temperatureReadings,
                         current, voltage, temperature, timestamp);
      ghost var c := Trimmed(currentReadings + [Sample(current, timestamp)]);
      ghost var v := Trimmed(voltageReadings + [Sample(voltage, timestamp)]);
      ghost var t := Trimmed(temperatureReadings + [Sample(temperature, timestamp)]);
      currentReadings := currentReadings + [Sample(current, timestamp)];
      voltageReadings := voltageReadings + [Sample(voltage, timestamp)];
      temperatureReadings := temperatureReadings + [Sample(temperature, timestamp)];
      TrimSeries();
      assert Series(CurrentReadings) == currentReadings == c;
      assert Series(VoltageReadings) == voltageReadings == v;
      assert Series(TemperatureReadings) == temperatureReadings == t;
      reading := Reading(current, voltage, temperature, timestamp);
    }

    /**
     * The trim loop: every series longer than `MaxStoredReadings` is cut to
     * its newest `MaxStoredReadings` entries; the defect fields are untouched.
     */
    method TrimSeries()
      modifies this
      ensures forall k :: Series(k) == Trimmed(old(Series(k)))
      ensures defectHistory == old(defectHistory) && lastInspection == old(lastInspection)
    {
      var i := 0;
      while i < |SeriesKeys|
        invariant 0 <= i <= |SeriesKeys|
        invariant forall k :: Series(k) == if KeyIndex(k) < i then Trimmed(old(Series(k))) else old(Series(k))
        invariant defectHistory == old(defectHistory) && lastInspection == old(lastInspection)
      {
        var key := SeriesKeys[i];
        assert KeyIndex(key) == i;
        if |Series(key)| > MaxStoredReadings {
          SetSeries(key, SliceFrom(Series(key), -MaxStoredReadings));
        }
        i := i + 1;
      }
    }

    /**
     * The defect-detection endpoint, record keeping only: an upload
     * without an image part, or with an empty file name, is refused with
     * 400 and changes nothing; otherwise the detector's output is stored as
     * record number `|history| + 1` with status `active`, and the
     * inspection stamp is set. `recordStamp` and `inspectionStamp` are the
     * two `datetime.now()` calls.
     */
    method DetectDefects(upload: Upload, detected: seq<Defect>,
                         recordStamp: Timestamp, inspectionStamp: Timestamp)
      returns (r: Response<Detection>)
      requires Valid()
      modifies this
      ensures Valid()
      ensures !upload.hasImage ==> r == Error(400, "No image file provided")
      ensures upload.hasImage && upload.filename == "" ==> r == Error(400, "No image file selected")
      ensures !(upload.hasImage && upload.filename != "") ==>
        defectHistory == old(defectHistory) && lastInspection == old(lastInspection)
      ensures upload.hasImage && upload.filename != "" ==> r == Ok(Detection(true, detected, recordStamp))
      ensures upload.hasImage && upload.filename != "" ==>
        && defectHistory == old(defectHistory) + [DefectRecord(|old(defectHistory)| + 1, recordStamp, detected, Active, None)]
        && lastInspection == Some(inspectionStamp)
      ensures currentReadings == old(currentReadings)
      ensures voltageReadings == old(voltageReadings)
      ensures temperatureReadings == old(temperatureReadings)
    {
      if !upload.hasImage {
        return Error(400, "No image file provided");
      }
      if upload.filename == "" {
        return Error(400, "No image file selected");
      }
      var rec := DefectRecord(|defectHistory| + 1, recordStamp, detected, Active, None);
      defectHistory := defectHistory + [rec];
      lastInspection := Some(inspectionStamp);
      r := Ok(Detection(true, detected, recordStamp));
    }

    /** The history endpoint over this record. */
    function GetReadingsHistory(limit: Option<int>): (h: History)
      reads this
      requires Valid()
      ensures SeriesAligned(h.current, h.voltage, h.temperature)
    {
      var k := if limit.Some? then limit.value else DefaultHistoryLimit;
      AlignedTails(currentReadings, voltageReadings, temperatureReadings, k);
      HistoryOf(currentReadings, voltageReadings, temperatureReadings, limit)
    }

    /** The defect-list endpoint over this record: records numbered 1 to `total`. */
    function GetDefects(): (r: DefectList)
      reads this
      requires Valid()
      ensures r.defects == defectHistory
      ensures r.total == |r.defects|
      ensures forall i :: 0 <= i < r.total ==> r.defects[i].id == i + 1
    {
      DefectList(defectHistory, |defectHistory|)
    }

    /** The panel-info endpoint over this record. */
    function GetPanelInfo(): (info: PanelInfo)
      reads this
      requires Valid()
      ensures info.defectCount == |defectHistory|
      ensures info.lastInspection == lastInspection
    {
      CountOfActiveHistory(defectHistory);
      PanelInfoOf(currentReadings, voltageReadings, defectHistory, lastInspection)
    }

    /** The predictive-maintenance endpoint over this record. */
    function GetPredictiveMaintenance(): (r: Response<Forecast>)
      reads this
      requires Valid()
      ensures r.Error? <==> currentReadings == []
    {
      PredictiveMaintenance(currentReadings, defectHistory)
    }
  }

  // ---------------------------------------------------------------------
  // History and defect-list views
  // ---------------------------------------------------------------------

  /** The `{current, voltage, temperature}` body of the history endpoint. */
  datatype History = History(current: seq<Sample>, voltage: seq<Sample>, temperature: seq<Sample>)

  /**
   * The history endpoint: `series[-limit:]` of every series, `limit`
   * defaulting to 100. For `limit > 0` this is the newest `min(limit, n)`
   * entries, oldest first; `limit == 0` gives whole series.
   */
  function HistoryOf(c: seq<Sample>, v: seq<Sample>, t: seq<Sample>, limit: Option<int>): (h: History)
    ensures var k := if limit.Some? then limit.value else DefaultHistoryLimit;
      && (k > 0 ==> |h.current| == Min(k, |c|) && |h.voltage| == Min(k, |v|) && |h.temperature| == Min(k, |t|))
      && (k == 0 ==> h == History(c, v, t))
      && |h.current| <= |c| && h.current == c[|c| - |h.current|..]
      && |h.voltage| <= |v| && h.voltage == v[|v| - |h.voltage|..]
      && |h.temperature| <= |t| && h.temperature == t[|t| - |h.temperature|..]
  {
    var k := if limit.Some? then limit.value else DefaultHistoryLimit;
    NegativeStartSlice(c, k);
    NegativeStartSlice(v, k);
    NegativeStartSlice(t, k);
    History(SliceFrom(c, -k), SliceFrom(v, -k), SliceFrom(t, -k))
  }

  /** Cutting aligned series at the same `-k` keeps them aligned. */
  lemma AlignedTails(c: seq<Sample>, v: seq<Sample>, t: seq<Sample>, k: int)
    requires SeriesAligned(c, v, t)
    ensures SeriesAligned(SliceFrom(c, -k), SliceFrom(v, -k), SliceFrom(t, -k))
  {
  }

  // ---------------------------------------------------------------------
  // Panel info
  // ---------------------------------------------------------------------

  /** The four condition labels. */
  datatype Condition = Excellent | Good | Fair | Poor
  {
    /** The label as it appears in the JSON body. */
    function Label(): string
    {
      match this
      case Excellent => "Excellent"
      case Good => "Good"
      case Fair => "Fair"
      case Poor => "Poor"
    }
  }

  /** The panel-info body. */
  datatype PanelInfo = PanelInfo(
    panelId: string,
    installationDate: string,
    installationCurrentRating: real,
    installationVoltageRating: real,
    currentRating: real,
    voltageRating: real,
    healthScore: real,
    condition: Condition,
    defectCount: nat,
    lastInspection: Option<Timestamp>)

  /** The values of a list of samples, in order. */
  function Values(s: seq<Sample>): (xs: seq<real>)
    ensures |xs| == |s|
    ensures forall i :: 0 <= i < |s| ==> xs[i] == s[i].value
  {
    seq(|s|, i requires 0 <= i < |s| => s[i].value)
  }

  /**
   * The mean of the newest `InfoWindow` values of a series, or the
   * installation rating when the series is empty.
   */
  function AverageOrRating(s: seq<Sample>, rating: real): (average: real)
    ensures s == [] ==> average == rating
    ensures s != [] ==> average == Mean(Values(s[|s| - Min(|s|, InfoWindow)..]))
    ensures (forall i :: |s| - Min(|s|, InfoWindow) <= i < |s| ==> s[i].value == rating) ==> average == rating
    ensures 0.0 <= rating && (forall i :: |s| - Min(|s|, InfoWindow) <= i < |s| ==> 0.0 <= s[i].value <= rating)
      ==> 0.0 <= average <= rating
  {
    if s != [] then
      var w := SliceFrom(s, -InfoWindow);
      assert w == s[|s| - Min(|s|, InfoWindow)..];
      MeanOfValues(w, rating, rating);
      MeanOfValues(w, 0.0, rating);
      Mean(Values(w))
    else
      rating
  }

  /**
   * Readings older than the newest `InfoWindow` do not move the average:
   * putting any history in front of a full window leaves it as it is.
   */
  lemma AverageIgnoresOlderReadings(older: seq<Sample>, s: seq<Sample>, rating: real)
    requires |s| >= InfoWindow
    ensures AverageOrRating(older + s, rating) == AverageOrRating(s, rating)
  {
    var all := older + s;
    assert all[|all| - InfoWindow..] == s[|s| - InfoWindow..];
  }

  /** The mean value of a non-empty block of samples lies within any bounds its values do. */
  lemma MeanOfValues(w: seq<Sample>, lo: real, hi: real)
    requires w != []
    ensures (forall i :: 0 <= i < |w| ==> lo <= w[i].value <= hi) ==> lo <= Mean(Values(w)) <= hi
  {
    if forall i :: 0 <= i < |w| ==> lo <= w[i].value <= hi {
      MeanBounds(Values(w), lo, hi);
    }
  }

  /**
   * A reading as a percentage of its installation rating: exactly 100 when
   * the reading equals the rating, and (for a positive rating) at most 100
   * exactly when the reading is at most the rating.
   */
  function Efficiency(average: real, rating: real): (e: real)
    requires rating != 0.0
    ensures e == 100.0 <==> average == rating
    ensures rating > 0.0 ==> (e <= 100.0 <==> average <= rating)
  {
    (average / rating) * 100.0
  }

  /**
   * The panel-info health score: the mean of current and voltage
   * efficiency. Averages at the ratings score exactly 100, and averages
   * between 0 and the ratings score between 0 and 100.
   */
  function InfoHealthScore(currentAverage: real, voltageAverage: real): (healthScore: real)
    ensures currentAverage == InstallationCurrentRating && voltageAverage == InstallationVoltageRating
      ==> healthScore == 100.0
    ensures 0.0 <= currentAverage <= InstallationCurrentRating && 0.0 <= voltageAverage <= InstallationVoltageRating
      ==> 0.0 <= healthScore <= 100.0
  {
    (Efficiency(currentAverage, InstallationCurrentRating)
      + Efficiency(voltageAverage, InstallationVoltageRating)) / 2.0
  }

  /**
   * The condition of a health score, with strict thresholds: above 90
   * Excellent, above 75 Good, above 60 Fair, otherwise Poor.
   */
  function Classify(healthScore: real): (c: Condition)
    ensures c == Excellent <==> healthScore > 90.0
    ensures c == Good <==> 75.0 < healthScore <= 90.0
    ensures c == Fair <==> 60.0 < healthScore <= 75.0
    ensures c == Poor <==> healthScore <= 60.0
  {
    if healthScore > 90.0 then Excellent
    else if healthScore > 75.0 then Good
    else if healthScore > 60.0 then Fair
    else Poor
  }

  /** The panel-info endpoint. The condition is taken from the unrounded score. */
  function PanelInfoOf(c: seq<Sample>, v: seq<Sample>, h: seq<DefectRecord>, lastInspection: Option<Timestamp>): (info: PanelInfo)
    ensures info.condition == Classify(InfoHealthScore(AverageOrRating(c, InstallationCurrentRating),
                                                       AverageOrRating(v, InstallationVoltageRating)))
    ensures info.defectCount == ActiveDefectCount(h) <= |h|
    ensures info.lastInspection == lastInspection
  {
    var currentAverage := AverageOrRating(c, InstallationCurrentRating);
    var voltageAverage := AverageOrRating(v, InstallationVoltageRating);
    var healthScore := InfoHealthScore(currentAverage, voltageAverage);
    PanelInfo(
      PanelId, InstallationDate, InstallationCurrentRating, InstallationVoltageRating,
      RoundTo(currentAverage, 2), RoundTo(voltageAverage, 2), RoundTo(healthScore, 1),
      Classify(healthScore), ActiveDefectCount(h), lastInspection)
  }

  /**
   * With no readings the averages fall back to the installation ratings,
   * so the panel reports its ratings, a health score of exactly 100 and
   * the condition Excellent.
   */
  lemma InfoWithoutReadings(h: seq<DefectRecord>, lastInspection: Option<Timestamp>)
    ensures var info := PanelInfoOf([], [], h, lastInspection);
      && info.currentRating == InstallationCurrentRating
      && info.voltageRating == InstallationVoltageRating
      && info.healthScore == 100.0
      && info.condition == Excellent
  {
  }

  /**
   * With readings, each average is the mean of the newest at most 100
   * values; so when those all lie between 0 and the rating, the health
   * score lies in [0, 100].
   */
  lemma InfoHealthScoreInRange(c: seq<Sample>, v: seq<Sample>)
    requires c != [] && v != []
    requires forall i :: |c| - Min(|c|, InfoWindow) <= i < |c| ==> 0.0 <= c[i].value <= InstallationCurrentRating
    requires forall i :: |v| - Min(|v|, InfoWindow) <= i < |v| ==> 0.0 <= v[i].value <= InstallationVoltageRating
    ensures var hs := InfoHealthScore(AverageOrRating(c, InstallationCurrentRating),
                                      AverageOrRating(v, InstallationVoltageRating));
      0.0 <= hs <= 100.0
  {
  }

  /**
   * With the newest 100 readings of each series at their ratings (older
   * readings are free), the health score is exactly 100: there is no
   * defect penalty in the score.
   */
  lemma InfoHealthScoreAtRating(c: seq<Sample>, v: seq<Sample>, h: seq<DefectRecord>, lastInspection: Option<Timestamp>)
    requires c != [] && v != []
    requires forall i :: |c| - Min(|c|, InfoWindow) <= i < |c| ==> c[i].value == InstallationCurrentRating
    requires forall i :: |v| - Min(|v|, InfoWindow) <= i < |v| ==> v[i].value == InstallationVoltageRating
    ensures PanelInfoOf(c, v, h, lastInspection).healthScore == 100.0
    ensures PanelInfoOf(c, v, h, lastInspection).condition == Excellent
  {
    RoundToExact(100.0, 1, 1000);
  }

  // ---------------------------------------------------------------------
  // Predictive maintenance
  // ---------------------------------------------------------------------

  datatype Priority = Low | Medium | High

  datatype HealthTrend = Decreasing | Stable | Improving

  /** The predictive-maintenance body. */
  datatype Forecast = Forecast(
    maintenancePriority: Priority,
    daysUntilMaintenance: nat,
    healthTrend: HealthTrend,
    recommendations: seq<string>,
    predictedEfficiency30Days: real,
    predictedEfficiency90Days: real)

  const DegradationAdvice: string := "Performance degradation detected. Consider cleaning and inspection."
  const DefectsAdvice: string := "Multiple defects detected. Schedule maintenance service."
  const EfficiencyAdvice: string := "Panel efficiency below optimal. Professional assessment recommended."

  /** The newest `TrendWindow` current values (`[-30:]`): the last min(n, 30) of them. */
  function RecentCurrent(s: seq<Sample>): (recent: seq<real>)
    ensures |recent| == Min(|s|, TrendWindow)
    ensures recent == Values(s[|s| - |recent|..])
  {
    Values(SliceFrom(s, -TrendWindow))
  }

  /**
   * The block compared against: `[-60:-30]` when there are more than 30
   * readings, otherwise the recent window itself.
   */
  function OlderCurrent(s: seq<Sample>): (older: seq<real>)
    ensures |s| > TrendWindow ==>
      older == Values(s[Max(|s| - 2 * TrendWindow, 0)..|s| - TrendWindow])
    ensures |s| <= TrendWindow ==> older == RecentCurrent(s)
  {
    if |s| > TrendWindow then Values(Slice(s, -2 * TrendWindow, -TrendWindow)) else RecentCurrent(s)
  }

  /** Mean of the recent window minus mean of the older one (0 if the older is empty). */
  function Trend(s: seq<Sample>): (trend: real)
    requires s != []
    ensures |s| <= TrendWindow ==> trend == 0.0
  {
    var recent, older := RecentCurrent(s), OlderCurrent(s);
    if |older| > 0 then Mean(recent) - Mean(older) else 0.0
  }

  /**
   * The maintenance health score: current efficiency only, over the recent
   * window. Currents at the rating score exactly 100, and currents between
   * 0 and the rating score between 0 and 100.
   */
  function MaintenanceHealthScore(s: seq<Sample>): (healthScore: real)
    requires s != []
    ensures (forall i :: |s| - Min(|s|, TrendWindow) <= i < |s| ==> s[i].value == InstallationCurrentRating)
      ==> healthScore == 100.0
    ensures (forall i :: |s| - Min(|s|, TrendWindow) <= i < |s| ==> 0.0 <= s[i].value <= InstallationCurrentRating)
      ==> 0.0 <= healthScore <= 100.0
  {
    var w := s[|s| - Min(|s|, TrendWindow)..];
    MeanOfValues(w, InstallationCurrentRating, InstallationCurrentRating);
    MeanOfValues(w, 0.0, InstallationCurrentRating);
    Efficiency(Mean(RecentCurrent(s)), InstallationCurrentRating)
  }

  /**
   * Priority and days move together: High/7 when the score is under 70 or
   * more than 5 records are open; otherwise Medium/30 when the score is
   * under 80 or more than 2 are open; otherwise Low/90.
   */
  function PriorityBand(healthScore: real, defectCount: nat): (band: (Priority, nat))
    ensures band.0 == High <==> healthScore < 70.0 || defectCount > 5
    ensures band.0 == Medium <==> !(healthScore < 70.0 || defectCount > 5) && (healthScore < 80.0 || defectCount > 2)
    ensures band.0 == Low <==> healthScore >= 80.0 && defectCount <= 2
    ensures band.1 == match band.0 case High => 7 case Medium => 30 case Low => 90
  {
    if healthScore < 70.0 || defectCount > 5 then (High, 7)
    else if healthScore < 80.0 || defectCount > 2 then (Medium, 30)
    else (Low, 90)
  }

  /** The trend label: below -0.05 decreasing, below 0.05 stable, otherwise improving. */
  function TrendLabel(trend: real): (t: HealthTrend)
    ensures t == Decreasing <==> trend < -0.05
    ensures t == Stable <==> -0.05 <= trend < 0.05
    ensures t == Improving <==> trend >= 0.05
  {
    if trend < -0.05 then Decreasing else if trend < 0.05 then Stable else Improving
  }

  /** The position of a recommendation among the three rules (3 for any other text). */
  function RuleIndex(message: string): nat
  {
    if message == DegradationAdvice then 0
    else if message == DefectsAdvice then 1
    else if message == EfficiencyAdvice then 2
    else 3
  }

  /**
   * The three recommendation rules, each independent of the others, emitted
   * in rule order: falling trend (below -0.1), more than 3 open records,
   * health score under 75.
   */
  function Recommendations(trend: real, defectCount: nat, healthScore: real): (r: seq<string>)
    ensures DegradationAdvice in r <==> trend < -0.1
    ensures DefectsAdvice in r <==> defectCount > 3
    ensures EfficiencyAdvice in r <==> healthScore < 75.0
    ensures forall i :: 0 <= i < |r| ==> RuleIndex(r[i]) < 3
    ensures forall i, j :: 0 <= i < j < |r| ==> RuleIndex(r[i]) < RuleIndex(r[j])
    ensures r == [] <==> trend >= -0.1 && defectCount <= 3 && healthScore >= 75.0
  {
    (if trend < -0.1 then [DegradationAdvice] else [])
      + (if defectCount > 3 then [DefectsAdvice] else [])
      + (if healthScore < 75.0 then [EfficiencyAdvice] else [])
  }

  /** `round(max(0, hs - trend * days), 1)`: a straight extrapolation, floored at 0. */
  function Prediction(healthScore: real, trend: real, days: nat): (p: real)
    ensures p >= 0.0
  {
    RoundToNonNegative(MaxReal(0.0, healthScore - trend * (days as real)), 1);
    RoundTo(MaxReal(0.0, healthScore - trend * (days as real)), 1)
  }

  /**
   * The predictive-maintenance endpoint: "Insufficient data" (400) with no
   * current readings, otherwise the forecast.
   */
  function PredictiveMaintenance(s: seq<Sample>, h: seq<DefectRecord>): (r: Response<Forecast>)
    ensures s == [] <==> r == Error(400, "Insufficient data")
    ensures r.Ok? ==> r.body.predictedEfficiency30Days >= 0.0 && r.body.predictedEfficiency90Days >= 0.0
  {
    if s == [] then Error(400, "Insufficient data")
    else
      var trend := Trend(s);
      var healthScore := MaintenanceHealthScore(s);
      var defectCount := ActiveDefectCount(h);
      var band := PriorityBand(healthScore, defectCount);
      Ok(Forecast(
        band.0, band.1, TrendLabel(trend),
        Recommendations(trend, defectCount, healthScore),
        Prediction(healthScore, trend, 30), Prediction(healthScore, trend, 90)))
  }

  /**
   * With 30 readings or fewer both windows are the same, so the trend is 0:
   * the panel is "stable", the degradation rule cannot fire, and both
   * predictions are the rounded health score (floored at 0).
   */
  lemma ForecastWithFewReadings(s: seq<Sample>, h: seq<DefectRecord>)
    requires 0 < |s| <= TrendWindow
    ensures var r := PredictiveMaintenance(s, h);
      && r.Ok?
      && r.body.healthTrend == Stable
      && DegradationAdvice !in r.body.recommendations
      && r.body.predictedEfficiency30Days == r.body.predictedEfficiency90Days
           == RoundTo(MaxReal(0.0, MaintenanceHealthScore(s)), 1)
  {
  }

  /**
   * The extrapolation runs against the sign of the trend: a falling
   * current (negative trend) raises the 90-day figure above the 30-day
   * one, a rising current lowers it.
   */
  lemma PredictionsFollowTrend(healthScore: real, trend: real)
    ensures trend <= 0.0 ==> Prediction(healthScore, trend, 30) <= Prediction(healthScore, trend, 90)
    ensures trend >= 0.0 ==> Prediction(healthScore, trend, 90) <= Prediction(healthScore, trend, 30)
  {
    if trend <= 0.0 {
      PredictionOrder(healthScore, trend, 30, 90);
    }
    if trend >= 0.0 {
      PredictionOrder(healthScore, trend, 90, 30);
    }
  }

  /** A larger extrapolation never gives a smaller prediction. */
  lemma PredictionOrder(healthScore: real, trend: real, d1: nat, d2: nat)
    requires healthScore - trend * (d1 as real) <= healthScore - trend * (d2 as real)
    ensures Prediction(healthScore, trend, d1) <= Prediction(healthScore, trend, d2)
  {
    RoundToMonotonic(MaxReal(0.0, healthScore - trend * (d1 as real)),
                     MaxReal(0.0, healthScore - trend * (d2 as real)), 1);
  }

  /**
   * Nothing caps a prediction at 100: whenever the extrapolation is not
   * negative the prediction is that extrapolation to within the rounding.
   */
  lemma PredictionIsUnclamped(healthScore: real, trend: real, days: nat)
    ensures var x := healthScore - trend * (days as real);
      x >= 0.0 ==> x - 0.05 < Prediction(healthScore, trend, days) <= x + 0.05
  {
    assert Pow10(1) == 10;
  }

  /** With a falling (or flat) current a prediction never drops below the rounded score. */
  lemma PredictionAboveScore(healthScore: real, trend: real, days: nat)
    requires trend <= 0.0 && healthScore >= 0.0
    ensures Prediction(healthScore, trend, days) >= RoundTo(healthScore, 1)
  {
    assert trend * (days as real) <= 0.0;
    RoundToMonotonic(healthScore, MaxReal(0.0, healthScore - trend * (days as real)), 1);
  }
}
