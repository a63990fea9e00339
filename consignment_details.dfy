/** One consignment's editor: its local state, initialised from the stored
    record at its index, the effect that seeds the default contaminant rows,
    `updateLocalState`, which writes every change back into the shared
    store, and the three analytical-row callbacks handed to the table. */
module ConsignmentDetails {
  import opened Common
  import opened Strings
  import opened FormTypes

  // ----- the local state and updateLocalState -----

  /** The fields `updateLocalState` is called with. */
  datatype ConsignmentField =
    | MaterialDescriptionField | ExpectedDeliveryDateField | ExpectedDurationField
    | ExpectedFrequencyField | ExpectedVolumeField | SamplesTakenField
    | SampleMethodField | OtherSampleMethodField | SampleMethodAdditionalInfoField
    | SoilCategorizationField | OtherSoilCategorizationField | SoilCategorizationAdditionalInfoField
    | AnalyticalRowsField

  /** A value one of those fields holds. */
  datatype ConsignmentValue =
    | Text(text: string)
    | Method(sampleMethod: SampleMethod)
    | Categorization(soilCategorization: SoilCategorization)
    | Typed(typed: Option<string>)
    | Rows(rows: seq<AnalyticalRow>)

  /** A well-typed call `updateLocalState(field, value)`. The two "other"
      texts become present once written. */
  datatype LocalUpdate =
    | SetMaterialDescription(materialDescription: string)
    | SetExpectedDeliveryDate(expectedDeliveryDate: string)
    | SetExpectedDuration(expectedDuration: string)
    | SetExpectedFrequency(expectedFrequency: string)
    | SetExpectedVolume(expectedVolume: string)
    | SetSamplesTaken(samplesTaken: string)
    | SetSampleMethod(sampleMethod: SampleMethod)
    | SetOtherSampleMethod(otherSampleMethod: string)
    | SetSampleMethodAdditionalInfo(sampleMethodAdditionalInfo: string)
    | SetSoilCategorization(soilCategorization: SoilCategorization)
    | SetOtherSoilCategorization(otherSoilCategorization: string)
    | SetSoilCategorizationAdditionalInfo(soilCategorizationAdditionalInfo: string)
    | SetAnalyticalRows(analyticalRows: seq<AnalyticalRow>)

  function UpdatedField(u: LocalUpdate): ConsignmentField {
    match u
    case SetMaterialDescription(_) => MaterialDescriptionField
    case SetExpectedDeliveryDate(_) => ExpectedDeliveryDateField
    case SetExpectedDuration(_) => ExpectedDurationField
    case SetExpectedFrequency(_) => ExpectedFrequencyField
    case SetExpectedVolume(_) => ExpectedVolumeField
    case SetSamplesTaken(_) => SamplesTakenField
    case SetSampleMethod(_) => SampleMethodField
    case SetOtherSampleMethod(_) => OtherSampleMethodField
    case SetSampleMethodAdditionalInfo(_) => SampleMethodAdditionalInfoField
    case SetSoilCategorization(_) => SoilCategorizationField
    case SetOtherSoilCategorization(_) => OtherSoilCategorizationField
    case SetSoilCategorizationAdditionalInfo(_) => SoilCategorizationAdditionalInfoField
    case SetAnalyticalRows(_) => AnalyticalRowsField
  }

  function UpdatedValue(u: LocalUpdate): ConsignmentValue {
    match u
    case SetMaterialDescription(s) => Text(s)
    case SetExpectedDeliveryDate(s) => Text(s)
    case SetExpectedDuration(s) => Text(s)
    case SetExpectedFrequency(s) => Text(s)
    case SetExpectedVolume(s) => Text(s)
    case SetSamplesTaken(s) => Text(s)
    case SetSampleMethod(m) => Method(m)
    case SetOtherSampleMethod(s) => Typed(Some(s))
    case SetSampleMethodAdditionalInfo(s) => Text(s)
    case SetSoilCategorization(g) => Categorization(g)
    case SetOtherSoilCategorization(s) => Typed(Some(s))
    case SetSoilCategorizationAdditionalInfo(s) => Text(s)
    case SetAnalyticalRows(rows) => Rows(rows)
  }

  /** `state[field]`. */
  function GetField(c: ConsignmentDetail, f: ConsignmentField): ConsignmentValue {
    match f
    case MaterialDescriptionField => Text(c.materialDescription)
    case ExpectedDeliveryDateField => Text(c.expectedDeliveryDate)
    case ExpectedDurationField => Text(c.expectedDuration)
    case ExpectedFrequencyField => Text(c.expectedFrequency)
    case ExpectedVolumeField => Text(c.expectedVolume)
    case SamplesTakenField => Text(c.samplesTaken)
    case SampleMethodField => Method(c.sampleMethod)
    case OtherSampleMethodField => Typed(c.otherSampleMethod)
    case SampleMethodAdditionalInfoField => Text(c.sampleMethodAdditionalInfo)
    case SoilCategorizationField => Categorization(c.soilCategorization)
    case OtherSoilCategorizationField => Typed(c.otherSoilCategorization)
    case SoilCategorizationAdditionalInfoField => Text(c.soilCategorizationAdditionalInfo)
    case AnalyticalRowsField => Rows(c.analyticalRows)
  }

  /** Two records that agree on every field are the same record. */
  lemma ConsignmentByFields(a: ConsignmentDetail, b: ConsignmentDetail)
    requires forall f :: GetField(a, f) == GetField(b, f)
    ensures a == b
  {
    assert GetField(a, MaterialDescriptionField) == GetField(b, MaterialDescriptionField);
    assert GetField(a, ExpectedDeliveryDateField) == GetField(b, ExpectedDeliveryDateField);
    assert GetField(a, ExpectedDurationField) == GetField(b, ExpectedDurationField);
    assert GetField(a, ExpectedFrequencyField) == GetField(b, ExpectedFrequencyField);
    assert GetField(a, ExpectedVolumeField) == GetField(b, ExpectedVolumeField);
    assert GetField(a, SamplesTakenField) == GetField(b, SamplesTakenField);
    assert GetField(a, SampleMethodField) == GetField(b, SampleMethodField);
    assert GetField(a, OtherSampleMethodField) == GetField(b, OtherSampleMethodField);
    assert GetField(a, SampleMethodAdditionalInfoField) == GetField(b, SampleMethodAdditionalInfoField);
    assert GetField(a, SoilCategorizationField) == GetField(b, SoilCategorizationField);
    assert GetField(a, OtherSoilCategorizationField) == GetField(b, OtherSoilCategorizationField);
    assert GetField(a, SoilCategorizationAdditionalInfoField) == GetField(b, SoilCategorizationAdditionalInfoField);
    assert GetField(a, AnalyticalRowsField) == GetField(b, AnalyticalRowsField);
  }

  /** `{ ...prev, [field]: value }`: the named field takes the new value and
      every other field keeps its old one. */
  function WithConsignmentField(c: ConsignmentDetail, u: LocalUpdate): (r: ConsignmentDetail)
    ensures GetField(r, UpdatedField(u)) == UpdatedValue(u)
    ensures forall f :: f != UpdatedField(u) ==> GetField(r, f) == GetField(c, f)
  {
    match u
    case SetMaterialDescription(s) => c.(materialDescription := s)
    case SetExpectedDeliveryDate(s) => c.(expectedDeliveryDate := s)
    case SetExpectedDuration(s) => c.(expectedDuration := s)
    case SetExpectedFrequency(s) => c.(expectedFrequency := s)
    case SetExpectedVolume(s) => c.(expectedVolume := s)
    case SetSamplesTaken(s) => c.(samplesTaken := s)
    case SetSampleMethod(m) => c.(sampleMethod := m)
    case SetOtherSampleMethod(s) => c.(otherSampleMethod := Some(s))
    case SetSampleMethodAdditionalInfo(s) => c.(sampleMethodAdditionalInfo := s)
    case SetSoilCategorization(g) => c.(soilCategorization := g)
    case SetOtherSoilCategorization(s) => c.(otherSoilCategorization := Some(s))
    case SetSoilCategorizationAdditionalInfo(s) => c.(soilCategorizationAdditionalInfo := s)
    case SetAnalyticalRows(rows) => c.(analyticalRows := rows)
  }

  /** Writing a field twice keeps only the second write. */
  lemma WithConsignmentFieldOverwrites(c: ConsignmentDetail, u: LocalUpdate, v: LocalUpdate)
    requires UpdatedField(u) == UpdatedField(v)
    ensures WithConsignmentField(WithConsignmentField(c, u), v) == WithConsignmentField(c, v)
  {
    var lhs := WithConsignmentField(WithConsignmentField(c, u), v);
    var rhs := WithConsignmentField(c, v);
    forall f ensures GetField(lhs, f) == GetField(rhs, f) {
    }
    ConsignmentByFields(lhs, rhs);
  }

  /** Writes to different fields commute. */
  lemma WithConsignmentFieldCommutes(c: ConsignmentDetail, u: LocalUpdate, v: LocalUpdate)
    requires UpdatedField(u) != UpdatedField(v)
    ensures WithConsignmentField(WithConsignmentField(c, u), v) == WithConsignmentField(WithConsignmentField(c, v), u)
  {
    var lhs := WithConsignmentField(WithConsignmentField(c, u), v);
    var rhs := WithConsignmentField(WithConsignmentField(c, v), u);
    forall f ensures GetField(lhs, f) == GetField(rhs, f) {
    }
    ConsignmentByFields(lhs, rhs);
  }

  /** The initial local state: the defaults, overridden by the record stored
      at `index` when there is one. A stored record carries every field, so
      it replaces the defaults outright. */
  function InitialLocalState(ds: seq<ConsignmentDetail>, index: nat): (r: ConsignmentDetail)
    ensures index < |ds| ==> r == ds[index]
    ensures index >= |ds| ==> r == EmptyConsignment()
  {
    if index < |ds| then ds[index] else EmptyConsignment()
  }

  /** `consignmentDetails[index] = updated`: overwrites the record at
      `index`, or appends it when `index` is the length. */
  function StoreAt(ds: seq<ConsignmentDetail>, index: nat, c: ConsignmentDetail): (r: seq<ConsignmentDetail>)
    requires index <= |ds|
    ensures |r| == if index < |ds| then |ds| else |ds| + 1
    ensures r[index] == c
    ensures forall j :: 0 <= j < |ds| && j != index ==> r[j] == ds[j]
  {
    if index < |ds| then ds[index := c] else ds + [c]
  }

  /** A remounted editor reads back exactly the record it stored. */
  lemma StoredStateReadBack(ds: seq<ConsignmentDetail>, index: nat, c: ConsignmentDetail)
    requires index <= |ds|
    ensures InitialLocalState(StoreAt(ds, index, c), index) == c
  {
  }

  /** Storing twice at the same index keeps only the second record. */
  lemma StoreAtOverwrites(ds: seq<ConsignmentDetail>, index: nat, c: ConsignmentDetail, d: ConsignmentDetail)
    requires index <= |ds|
    ensures StoreAt(StoreAt(ds, index, c), index, d) == StoreAt(ds, index, d)
  {
  }

  // ----- analytical rows -----

  /** The keys of an analytical row. */
  datatype RowField = IdField | ContaminantField | MaximumField | MinimumField | AverageField | LeachableField

  /** `row[field]`. */
  function RowGet(row: AnalyticalRow, f: RowField): string {
    match f
    case IdField => row.id
    case ContaminantField => row.contaminant
    case MaximumField => row.maximum
    case MinimumField => row.minimum
    case AverageField => row.average
    case LeachableField => row.leachable
  }

  /** `{ ...row, [field]: value }`. */
  function RowWith(row: AnalyticalRow, f: RowField, v: string): (r: AnalyticalRow)
    ensures RowGet(r, f) == v
    ensures forall g :: g != f ==> RowGet(r, g) == RowGet(row, g)
  {
    match f
    case IdField => row.(id := v)
    case ContaminantField => row.(contaminant := v)
    case MaximumField => row.(maximum := v)
    case MinimumField => row.(minimum := v)
    case AverageField => row.(average := v)
    case LeachableField => row.(leachable := v)
  }

  /** A fresh row: the given id and contaminant, every value empty. */
  function NewRow(id: string, contaminant: string): AnalyticalRow {
    AnalyticalRow(id, contaminant, "", "", "", "")
  }

  /** The rows the mount effect seeds: one per default contaminant, in the
      listed order, with ids "1", "2", ... */
  function DefaultRows(): (r: seq<AnalyticalRow>)
    ensures |r| == |DefaultContaminants|
    ensures forall i :: 0 <= i < |r| ==> r[i] == NewRow(NatText(i + 1), DefaultContaminants[i])
  {
    seq(|DefaultContaminants|, i requires 0 <= i < |DefaultContaminants| => NewRow(NatText(i + 1), DefaultContaminants[i]))
  }

  /** The rows after the mount effect: seeded only when there are none. */
  function SeededRows(rows: seq<AnalyticalRow>): (r: seq<AnalyticalRow>)
    ensures |rows| == 0 ==> r == DefaultRows()
    ensures |rows| > 0 ==> r == rows
  {
    if |rows| == 0 then DefaultRows() else rows
  }

  /** The update callback: `rows.map(row => row.id === id ? { ...row, [field]: value } : row)`. */
  function UpdateRow(rows: seq<AnalyticalRow>, id: string, f: RowField, v: string): (r: seq<AnalyticalRow>)
    ensures |r| == |rows|
    ensures forall i :: 0 <= i < |rows| ==> r[i] == if rows[i].id == id then RowWith(rows[i], f, v) else rows[i]
  {
    seq(|rows|, i requires 0 <= i < |rows| => if rows[i].id == id then RowWith(rows[i], f, v) else rows[i])
  }

  /** The test `row => row.id !== id`. */
  function HasOtherId(id: string): AnalyticalRow -> bool {
    (row: AnalyticalRow) => row.id != id
  }

  /** The remove callback: `rows.filter(row => row.id !== id)`. */
  function RemoveRow(rows: seq<AnalyticalRow>, id: string): (r: seq<AnalyticalRow>)
    ensures |r| <= |rows|
    ensures forall row :: row in r <==> row in rows && row.id != id
  {
    Filter(rows, HasOtherId(id))
  }

  /** The add callback: `[...rows, newRow]` with id `(rows.length + 1).toString()`. */
  function AddRow(rows: seq<AnalyticalRow>, contaminant: string): (r: seq<AnalyticalRow>)
    ensures |r| == |rows| + 1 && r[..|rows|] == rows
    ensures r[|rows|].contaminant == contaminant && r[|rows|].id == NatText(|rows| + 1)
    ensures ParseInt(r[|rows|].id) == Some(|rows| + 1)
    ensures RowGet(r[|rows|], MaximumField) == RowGet(r[|rows|], MinimumField) == ""
    ensures RowGet(r[|rows|], AverageField) == RowGet(r[|rows|], LeachableField) == ""
  {
    ParseNatText(|rows| + 1);
    rows + [NewRow(NatText(|rows| + 1), contaminant)]
  }

  /** The ids of the rows, in order. */
  function Ids(rows: seq<AnalyticalRow>): (r: seq<string>)
    ensures |r| == |rows|
    ensures forall i :: 0 <= i < |rows| ==> r[i] == rows[i].id
  {
    seq(|rows|, i requires 0 <= i < |rows| => rows[i].id)
  }

  /** Row `i` carries id `i + 1`, as seeding and adding number them. */
  predicate NumberedIds(rows: seq<AnalyticalRow>) {
    forall i :: 0 <= i < |rows| ==> rows[i].id == NatText(i + 1)
  }

  /** The seeded rows are numbered 1 to 8 and carry the default
      contaminants in order. */
  lemma DefaultRowsNumbered()
    ensures NumberedIds(DefaultRows())
    ensures forall i :: 0 <= i < |DefaultRows()| ==> DefaultRows()[i].contaminant == DefaultContaminants[i]
  {
  }

  /** Numbered rows have distinct ids. */
  lemma NumberedIdsDistinct(rows: seq<AnalyticalRow>)
    requires NumberedIds(rows)
    ensures NoDuplicates(Ids(rows))
  {
    forall i, j | 0 <= i < j < |rows| ensures Ids(rows)[i] != Ids(rows)[j] {
      if Ids(rows)[i] == Ids(rows)[j] {
        NatTextInjective(i + 1, j + 1);
      }
    }
  }

  /** Appending a row that carries the next number keeps the numbering. */
  lemma AppendNumbered(rows: seq<AnalyticalRow>, row: AnalyticalRow)
    requires NumberedIds(rows) && row.id == NatText(|rows| + 1)
    ensures NumberedIds(rows + [row])
  {
    var r := rows + [row];
    forall i | 0 <= i < |r| ensures r[i].id == NatText(i + 1) {
      if i < |rows| {
        assert r[i] == rows[i];
      } else {
        assert i == |rows|;
        assert r[i] == row;
      }
    }
  }

  /** Adding keeps the numbering. */
  lemma AddKeepsNumbering(rows: seq<AnalyticalRow>, contaminant: string)
    requires NumberedIds(rows)
    ensures NumberedIds(AddRow(rows, contaminant))
  {
    AppendNumbered(rows, NewRow(NatText(|rows| + 1), contaminant));
  }

  /** Editing a value (anything but the id) keeps the numbering. */
  lemma UpdateKeepsNumbering(rows: seq<AnalyticalRow>, id: string, f: RowField, v: string)
    requires NumberedIds(rows) && f != IdField
    ensures NumberedIds(UpdateRow(rows, id, f, v))
  {
    var r := UpdateRow(rows, id, f, v);
    forall i | 0 <= i < |r| ensures r[i].id == NatText(i + 1) {
      assert RowGet(r[i], IdField) == RowGet(rows[i], IdField);
    }
  }

  /** Updating an id no row carries changes nothing. */
  lemma UpdateAbsentId(rows: seq<AnalyticalRow>, id: string, f: RowField, v: string)
    requires forall row :: row in rows ==> row.id != id
    ensures UpdateRow(rows, id, f, v) == rows
  {
    var r := UpdateRow(rows, id, f, v);
    forall i | 0 <= i < |rows| ensures r[i] == rows[i] {
      assert rows[i] in rows;
    }
  }

  /** A second edit of the same value of the same rows replaces the first. */
  lemma UpdateRowOverwrites(rows: seq<AnalyticalRow>, id: string, f: RowField, v: string, w: string)
    requires f != IdField
    ensures UpdateRow(UpdateRow(rows, id, f, v), id, f, w) == UpdateRow(rows, id, f, w)
  {
    var lhs := UpdateRow(UpdateRow(rows, id, f, v), id, f, w);
    var rhs := UpdateRow(rows, id, f, w);
    forall i | 0 <= i < |rows| ensures lhs[i] == rhs[i] {
      if rows[i].id == id {
        var a := RowWith(RowWith(rows[i], f, v), f, w);
        var b := RowWith(rows[i], f, w);
        assert forall g :: RowGet(a, g) == RowGet(b, g);
        assert RowGet(a, IdField) == RowGet(b, IdField);
        assert RowGet(a, ContaminantField) == RowGet(b, ContaminantField);
        assert RowGet(a, MaximumField) == RowGet(b, MaximumField);
        assert RowGet(a, MinimumField) == RowGet(b, MinimumField);
        assert RowGet(a, AverageField) == RowGet(b, AverageField);
        assert RowGet(a, LeachableField) == RowGet(b, LeachableField);
      }
    }
  }

  /** Removing an id no row carries changes nothing. */
  lemma RemoveAbsentId(rows: seq<AnalyticalRow>, id: string)
    requires forall row :: row in rows ==> row.id != id
    ensures RemoveRow(rows, id) == rows
  {
    FilterKeepsAll(rows, HasOtherId(id));
  }

  /** Removal keeps the surviving rows in their order: removing from a
      concatenation removes from each part. */
  lemma RemoveKeepsOrder(a: seq<AnalyticalRow>, b: seq<AnalyticalRow>, id: string)
    ensures RemoveRow(a + b, id) == RemoveRow(a, id) + RemoveRow(b, id)
  {
    FilterAppend(a, b, HasOtherId(id));
  }

  /** Removing the first of numbered rows leaves the others. */
  lemma RemoveFirstNumbered(rows: seq<AnalyticalRow>)
    requires NumberedIds(rows) && |rows| > 0
    ensures RemoveRow(rows, NatText(1)) == rows[1..]
  {
    NumberedIdsDistinct(rows);
    forall row | row in rows[1..] ensures HasOtherId(NatText(1))(row) {
      var k :| 0 <= k < |rows[1..]| && rows[1..][k] == row;
      assert row == rows[k + 1];
      if row.id == NatText(1) {
        NatTextInjective(k + 2, 1);
      }
    }
    FilterKeepsAll(rows[1..], HasOtherId(NatText(1)));
    assert rows == [rows[0]] + rows[1..];
  }

  /** Ids need not stay unique: after removing row "1" from numbered rows,
      the next added row takes the id of the current last row. */
  lemma RemoveThenAddCollides(rows: seq<AnalyticalRow>, contaminant: string)
    requires NumberedIds(rows) && |rows| >= 2
    ensures var r := AddRow(RemoveRow(rows, NatText(1)), contaminant);
      |r| == |rows| && r[|r| - 1].id == r[|r| - 2].id && !NoDuplicates(Ids(r))
  {
    RemoveFirstNumbered(rows);
    var rest := rows[1..];
    var r := AddRow(rest, contaminant);
    assert r[|r| - 2] == r[..|rest|][|rest| - 1] == rows[|rows| - 1];
    assert Ids(r)[|r| - 2] == Ids(r)[|r| - 1];
  }

  // ----- the editor -----

  /** A mounted consignment editor: its index, the shared store, and its
      local state. */
  class ConsignmentEditor {
    const index: nat
    const formDataRef: FormDataRef
    var localState: ConsignmentDetail

    /** The store holds the editor's local state at its index. */
    predicate Synced()
      reads this, formDataRef
    {
      index < |formDataRef.current.consignmentDetails|
      && formDataRef.current.consignmentDetails[index] == localState
    }

    /** `useState({ ...defaults, ...consignmentData })`. */
    constructor (index: nat, formDataRef: FormDataRef)
      ensures this.index == index && this.formDataRef == formDataRef
      ensures localState == InitialLocalState(formDataRef.current.consignmentDetails, index)
    {
      this.index := index;
      this.formDataRef := formDataRef;
      localState := InitialLocalState(formDataRef.current.consignmentDetails, index);
    }

    /** `updateLocalState(field, value)`: one field of the local state
        changes, and the updated record is written to the store at
        `index`; nothing else in the store changes. */
    method UpdateLocalState(u: LocalUpdate)
      requires index <= |formDataRef.current.consignmentDetails|
      modifies this, formDataRef
      ensures localState == WithConsignmentField(old(localState), u)
      ensures formDataRef.current == old(formDataRef.current).(consignmentDetails :=
        StoreAt(old(formDataRef.current.consignmentDetails), index, localState))
      ensures Synced()
    {
      var updated := WithConsignmentField(localState, u);
      localState := updated;
      var fd := formDataRef.current;
      formDataRef.current := fd.(consignmentDetails := StoreAt(fd.consignmentDetails, index, updated));
    }

    /** The mount effect: seed the default rows when there are none;
        otherwise leave everything as it is. */
    method SeedDefaultRows()
      requires index <= |formDataRef.current.consignmentDetails|
      modifies this, formDataRef
      ensures localState == old(localState).(analyticalRows := SeededRows(old(localState.analyticalRows)))
      ensures |old(localState.analyticalRows)| == 0 ==> Synced()
      ensures |old(localState.analyticalRows)| == 0 ==> formDataRef.current == old(formDataRef.current).(
        consignmentDetails := StoreAt(old(formDataRef.current.consignmentDetails), index, localState))
      ensures |old(localState.analyticalRows)| > 0 ==> formDataRef.current == old(formDataRef.current)
    {
      if |localState.analyticalRows| == 0 {
        UpdateLocalState(SetAnalyticalRows(DefaultRows()));
      }
    }

    /** The table's update callback. */
    method UpdateAnalyticalRow(id: string, f: RowField, v: string)
      requires index <= |formDataRef.current.consignmentDetails|
      modifies this, formDataRef
      ensures localState == old(localState).(analyticalRows := UpdateRow(old(localState.analyticalRows), id, f, v))
      ensures formDataRef.current == old(formDataRef.current).(consignmentDetails :=
        StoreAt(old(formDataRef.current.consignmentDetails), index, localState))
      ensures Synced()
    {
      UpdateLocalState(SetAnalyticalRows(UpdateRow(localState.analyticalRows, id, f, v)));
    }

    /** The table's remove callback. */
    method RemoveAnalyticalRow(id: string)
      requires index <= |formDataRef.current.consignmentDetails|
      modifies this, formDataRef
      ensures localState == old(localState).(analyticalRows := RemoveRow(old(localState.analyticalRows), id))
      ensures formDataRef.current == old(formDataRef.current).(consignmentDetails :=
        StoreAt(old(formDataRef.current.consignmentDetails), index, localState))
      ensures Synced()
    {
      UpdateLocalState(SetAnalyticalRows(RemoveRow(localState.analyticalRows, id)));
    }

    /** The table's add callback; it does not look at the names already
        present. */
    method AddAnalyticalRow(contaminant: string)
      requires index <= |formDataRef.current.consignmentDetails|
      modifies this, formDataRef
      ensures localState == old(localState).(analyticalRows := AddRow(old(localState.analyticalRows), contaminant))
      ensures formDataRef.current == old(formDataRef.current).(consignmentDetails :=
        StoreAt(old(formDataRef.current.consignmentDetails), index, localState))
      ensures Synced()
    {
      UpdateLocalState(SetAnalyticalRows(AddRow(localState.analyticalRows, contaminant)));
    }
  }
}
