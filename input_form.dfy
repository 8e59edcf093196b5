/**
 * The production-input form (components/modals/InputFormModal.tsx): a record with a
 * list of size/shade rows whose quantities add up to the record's total.
 */
module InputForm {
  import opened Types
  import JsNumber
  import Lists
  import RecordStore

  const BlankRow: InputSizeShade := InputSizeShade("", "", 0)

  /** A fresh input record: every field empty and one blank row. */
  const DefaultInputData: InputData :=
    InputData("", "", "", "", "", "", "", "", "", [BlankRow], 0)

  function Quantity(row: InputSizeShade): int { row.quantity }

  /** The `totalQuantity` memo: the rows' quantities summed left to right as `reduce` does. */
  function TotalQuantity(rows: seq<InputSizeShade>): int {
    Lists.SumOf(rows, Quantity)
  }

  /** The record's stored total agrees with its rows. */
  predicate Consistent(form: InputData) {
    form.totalQuantity == TotalQuantity(form.sizeShadeQty)
  }

  /** The effect that writes the memoised total back into the record. */
  function WithTotal(form: InputData): (r: InputData)
    ensures Consistent(r)
    ensures r.sizeShadeQty == form.sizeShadeQty
    ensures r.(totalQuantity := form.totalQuantity) == form
  {
    form.(totalQuantity := TotalQuantity(form.sizeShadeQty))
  }

  /** One field of one row after an edit: `quantity` goes through `Number`, the others are text. */
  function SetRowField(row: InputSizeShade, name: string, value: string): InputSizeShade {
    if name == "size" then row.(size := value)
    else if name == "shade" then row.(shade := value)
    else if name == "quantity" then row.(quantity := JsNumber.NumberOrZero(value))
    else row
  }

  /** `handleSizeShadeChange(index, e)`: a new row list in which only row `index` differs. */
  function HandleSizeShadeChange(form: InputData, index: nat, name: string, value: string): (r: InputData)
    requires index < |form.sizeShadeQty|
    ensures |r.sizeShadeQty| == |form.sizeShadeQty|
    ensures forall j :: 0 <= j < |form.sizeShadeQty| && j != index ==> r.sizeShadeQty[j] == form.sizeShadeQty[j]
    ensures r.(sizeShadeQty := form.sizeShadeQty) == form
  {
    form.(sizeShadeQty := form.sizeShadeQty[index := SetRowField(form.sizeShadeQty[index], name, value)])
  }

  /** The edited row takes the new value in the named field and keeps its other fields. */
  lemma SizeShadeChangeEditsNamedField(form: InputData, index: nat, name: string, value: string)
    requires index < |form.sizeShadeQty|
    ensures var old_row, new_row := form.sizeShadeQty[index], HandleSizeShadeChange(form, index, name, value).sizeShadeQty[index];
      && (name == "size" ==> new_row == old_row.(size := value))
      && (name == "shade" ==> new_row == old_row.(shade := value))
      && (name == "quantity" ==> new_row == old_row.(quantity := JsNumber.NumberOrZero(value)))
      && (name != "size" && name != "shade" && name != "quantity" ==> new_row == old_row)
  {
  }

  /** After a quantity edit the total moves by the new value less the old one; other edits keep it. */
  lemma SizeShadeChangeTotal(form: InputData, index: nat, name: string, value: string)
    requires index < |form.sizeShadeQty|
    ensures var t := TotalQuantity(HandleSizeShadeChange(form, index, name, value).sizeShadeQty);
      if name == "quantity"
      then t == TotalQuantity(form.sizeShadeQty) - form.sizeShadeQty[index].quantity + JsNumber.NumberOrZero(value)
      else t == TotalQuantity(form.sizeShadeQty)
  {
    var rows := form.sizeShadeQty;
    Lists.SumOfUpdate(rows, index, SetRowField(rows[index], name, value), Quantity);
  }

  /** `addSizeShade`: exactly one blank row at the end. */
  function AddSizeShade(form: InputData): (r: InputData)
    ensures |r.sizeShadeQty| == |form.sizeShadeQty| + 1
    ensures r.sizeShadeQty[..|form.sizeShadeQty|] == form.sizeShadeQty
    ensures r.sizeShadeQty[|form.sizeShadeQty|] == BlankRow
    ensures r.(sizeShadeQty := form.sizeShadeQty) == form
  {
    form.(sizeShadeQty := form.sizeShadeQty + [BlankRow])
  }

  /** `removeSizeShade(index)`: filters out position `index`, but never the last remaining row. */
  function RemoveSizeShade(form: InputData, index: int): (r: InputData)
    ensures |form.sizeShadeQty| <= 1 ==> r == form
    ensures |form.sizeShadeQty| > 1 ==> r.sizeShadeQty == Lists.RemoveAt(form.sizeShadeQty, index)
    ensures |form.sizeShadeQty| >= 1 ==> |r.sizeShadeQty| >= 1
    ensures r.(sizeShadeQty := form.sizeShadeQty) == form
  {
    if |form.sizeShadeQty| > 1 then form.(sizeShadeQty := Lists.RemoveAt(form.sizeShadeQty, index))
    else form
  }

  lemma AddSizeShadeKeepsTotal(form: InputData)
    ensures TotalQuantity(AddSizeShade(form).sizeShadeQty) == TotalQuantity(form.sizeShadeQty)
  {
    Lists.SumOfConcat(form.sizeShadeQty, [BlankRow], Quantity);
  }

  /** Removing a row takes exactly that row's quantity off the total. */
  lemma RemoveSizeShadeTotal(form: InputData, index: nat)
    requires 1 < |form.sizeShadeQty| && index < |form.sizeShadeQty|
    ensures TotalQuantity(RemoveSizeShade(form, index).sizeShadeQty)
         == TotalQuantity(form.sizeShadeQty) - form.sizeShadeQty[index].quantity
  {
    Lists.SumOfRemoveAt(form.sizeShadeQty, index, Quantity);
  }

  /** The row editors of the form, as a user can apply them one after another. */
  datatype RowEdit = Add | RemoveRow(index: int) | ChangeField(index: int, name: string, value: string)

  function ApplyEdit(form: InputData, e: RowEdit): InputData {
    match e
    case Add => AddSizeShade(form)
    case RemoveRow(i) => RemoveSizeShade(form, i)
    case ChangeField(i, name, value) =>
      if 0 <= i < |form.sizeShadeQty| then HandleSizeShadeChange(form, i, name, value) else form
  }

  function ApplyEdits(form: InputData, edits: seq<RowEdit>): InputData
    decreases |edits|
  {
    if |edits| == 0 then form else ApplyEdits(ApplyEdit(form, edits[0]), edits[1..])
  }

  /** Starting from a fresh record, no sequence of row edits empties the row list. */
  lemma {:induction false} RowsNeverEmpty(form: InputData, edits: seq<RowEdit>)
    requires |form.sizeShadeQty| >= 1
    ensures |ApplyEdits(form, edits).sizeShadeQty| >= 1
    decreases |edits|
  {
    if |edits| > 0 {
      RowsNeverEmpty(ApplyEdit(form, edits[0]), edits[1..]);
    }
  }

  lemma FreshRecordHasOneBlankRow()
    ensures DefaultInputData.sizeShadeQty == [BlankRow]
    ensures Consistent(DefaultInputData)
    ensures forall edits :: |ApplyEdits(DefaultInputData, edits).sizeShadeQty| >= 1
  {
    var rows := [BlankRow];
    assert Lists.SumOf(rows, Quantity) == Lists.SumOf(rows[..0], Quantity) + Quantity(rows[0]);
    forall edits { RowsNeverEmpty(DefaultInputData, edits); }
  }

  /** The seeded inputs carry totals that agree with their rows (1200 = 500 + 700, 700 = 300 + 400). */
  lemma MockInputsConsistent()
    ensures forall i :: 0 <= i < |RecordStore.MockInputs| ==> Consistent(RecordStore.MockInputs[i])
  {
    var m := RecordStore.MockInputs;
    forall i | 0 <= i < 2 ensures Consistent(m[i]) {
      var rows := m[i].sizeShadeQty;
      assert Lists.SumOf(rows, Quantity) == Lists.SumOf(rows[..1], Quantity) + Quantity(rows[1]);
      assert Lists.SumOf(rows[..1], Quantity) == Lists.SumOf(rows[..1][..0], Quantity) + Quantity(rows[0]);
    }
  }
}
