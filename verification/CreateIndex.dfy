/**
 * The Create index screen: the form's fields and the record `handleCreate`
 * builds from them for the screen's owner. The form fields are only ever
 * overwritten by their inputs, so the builder is a function of the form.
 */
module CreateIndex {
  import opened Wrappers

  /** The data-lifecycle radio group's two values. */
  datatype Lifecycle = Indefinite | Custom

  /** The unit selectors' two values. */
  datatype TimeUnit = Days | Hours

  function UnitText(u: TimeUnit): string {
    match u
    case Days => "days"
    case Hours => "hours"
  }

  datatype IndexForm = IndexForm(
    indexName: string,
    dataLifecycle: Lifecycle,
    retentionValue: string,
    retentionUnit: TimeUnit,
    hotStorageValue: string,
    hotStorageUnit: TimeUnit)

  /** The form as the screen mounts. */
  const InitialForm: IndexForm := IndexForm([], Indefinite, [], Days, "24", Hours)

  datatype IndexRecord = IndexRecord(
    name: string,
    dataRetention: string,
    hotStorageRetention: string,
    size: string,
    documentCount: string,
    timeSeriesFieldCount: string,
    semanticFieldCount: string,
    createdDate: string)

  const IndefiniteRetentionText: string := "Keep data indefinitely (Never delete)"

  /** `${value} ${unit}`: no range check on the value. */
  function DurationText(value: string, unit: TimeUnit): string {
    value + " " + UnitText(unit)
  }

  /**
   * `indexData` in `handleCreate`: the name as entered; the retention text
   * for the chosen lifecycle; the hot-storage duration whatever the
   * lifecycle; zero counts; and the creation date, which the clock supplies.
   */
  function BuildIndexRecord(form: IndexForm, createdDate: string): (r: IndexRecord)
    ensures r.name == form.indexName
    ensures r.dataRetention == if form.dataLifecycle == Indefinite then IndefiniteRetentionText
      else DurationText(form.retentionValue, form.retentionUnit)
    ensures r.hotStorageRetention == DurationText(form.hotStorageValue, form.hotStorageUnit)
    ensures r.size == "0" && r.documentCount == "0"
    ensures r.timeSeriesFieldCount == "0" && r.semanticFieldCount == "0"
    ensures r.createdDate == createdDate
  {
    IndexRecord(
      form.indexName,
      if form.dataLifecycle == Indefinite then IndefiniteRetentionText
      else DurationText(form.retentionValue, form.retentionUnit),
      DurationText(form.hotStorageValue, form.hotStorageUnit),
      "0", "0", "0", "0",
      createdDate)
  }

  /** `handleCreate`: the built record goes to `onIndexCreated` only when the owner gave one. */
  function HandleCreate(form: IndexForm, createdDate: string, hasCallback: bool): (delivered: Option<IndexRecord>)
    ensures delivered.Some? <==> hasCallback
    ensures delivered.Some? ==> delivered.value == BuildIndexRecord(form, createdDate)
    ensures delivered.Some? ==> delivered.value.name == form.indexName
  {
    if hasCallback then Some(BuildIndexRecord(form, createdDate)) else None
  }

  predicate HasNoSpace(s: string) {
    forall i :: 0 <= i < |s| ==> s[i] != ' '
  }

  /** Splits a text at its first space: what comes before it and what comes after. */
  function SplitAtSpace(s: string): (string, string)
    decreases |s|
  {
    if s == [] then ([], [])
    else if s[0] == ' ' then ([], s[1..])
    else var (before, after) := SplitAtSpace(s[1..]); ([s[0]] + before, after)
  }

  function ParseUnit(s: string): Option<TimeUnit> {
    if s == "days" then Some(Days) else if s == "hours" then Some(Hours) else None
  }

  /**
   * A duration text gives back the value and the unit it was built from, as
   * long as the value holds no space (the inputs are number fields).
   */
  lemma {:induction false} DurationRoundTrip(value: string, unit: TimeUnit)
    requires HasNoSpace(value)
    ensures SplitAtSpace(DurationText(value, unit)).0 == value
    ensures ParseUnit(SplitAtSpace(DurationText(value, unit)).1) == Some(unit)
    decreases |value|
  {
    var s := DurationText(value, unit);
    if value == [] {
      assert s == [' '] + UnitText(unit);
    } else {
      assert s[0] == value[0] && s[1..] == DurationText(value[1..], unit);
      DurationRoundTrip(value[1..], unit);
      assert [value[0]] + value[1..] == value;
    }
  }

  /**
   * The record's retention text tells the two lifecycles apart whatever was
   * typed: a custom duration ends in a unit, never in the indefinite text.
   */
  lemma RetentionShowsLifecycle(form: IndexForm, createdDate: string)
    ensures BuildIndexRecord(form, createdDate).dataRetention == IndefiniteRetentionText
        <==> form.dataLifecycle == Indefinite
  {
    if form.dataLifecycle == Custom {
      var d := DurationText(form.retentionValue, form.retentionUnit);
      assert d[|d| - 1] == 's';
      assert IndefiniteRetentionText[|IndefiniteRetentionText| - 1] == ')';
    }
  }

  /**
   * The record keeps what was typed in the duration fields: the hot-storage
   * text, and for a custom lifecycle the retention text, split back into the
   * value and the unit chosen on the form.
   */
  lemma RecordDurationsReadBack(form: IndexForm, createdDate: string)
    requires HasNoSpace(form.hotStorageValue) && HasNoSpace(form.retentionValue)
    ensures var r := BuildIndexRecord(form, createdDate);
      && SplitAtSpace(r.hotStorageRetention).0 == form.hotStorageValue
      && ParseUnit(SplitAtSpace(r.hotStorageRetention).1) == Some(form.hotStorageUnit)
      && (form.dataLifecycle == Custom ==>
            SplitAtSpace(r.dataRetention).0 == form.retentionValue
            && ParseUnit(SplitAtSpace(r.dataRetention).1) == Some(form.retentionUnit))
  {
    DurationRoundTrip(form.hotStorageValue, form.hotStorageUnit);
    DurationRoundTrip(form.retentionValue, form.retentionUnit);
  }

  /** Creating straight away records indefinite retention and 24 hours of hot storage. */
  lemma InitialRecord(createdDate: string)
    ensures BuildIndexRecord(InitialForm, createdDate).dataRetention == IndefiniteRetentionText
    ensures BuildIndexRecord(InitialForm, createdDate).hotStorageRetention == "24 hours"
    ensures BuildIndexRecord(InitialForm, createdDate).name == []
  {
  }
}
