/**
 * The output form (components/modals/OutputFormModal.tsx): an output record is
 * reconciled against the cohort of input records that share its six match-key fields.
 * Per size/shade key, the balance is what came in, less what other outputs of the same
 * cohort already shipped, less what this record ships.
 */
module OutputForm {
  import opened Types
  import opened Wrappers
  import JsNumber
  import Lists
  import RecordStore
  import InputForm

  // ---------------------------------------------------------------------------
  // Matching
  // ---------------------------------------------------------------------------

  /** All six key fields are non-empty texts (truthy in JavaScript). */
  predicate KeyComplete(k: MatchKey) {
    k.lineNumber != "" && k.buyer != "" && k.po != "" && k.style != "" && k.pf != "" && k.color != ""
  }

  /** The inputs equal to `k` on all six fields, in store order. */
  function MatchingInputs(inputs: seq<InputData>, k: MatchKey): (m: seq<InputData>)
    ensures forall i :: 0 <= i < |m| ==> m[i] in inputs && InputKeyOf(m[i]) == k
    ensures forall i :: 0 <= i < |inputs| && InputKeyOf(inputs[i]) == k ==> inputs[i] in m
    decreases |inputs|
  {
    if |inputs| == 0 then []
    else (if InputKeyOf(inputs[0]) == k then [inputs[0]] else []) + MatchingInputs(inputs[1..], k)
  }

  /** The outputs of cohort `k` other than the record `id` being edited, in store order. */
  function OtherOutputs(outputs: seq<OutputData>, k: MatchKey, id: string): (m: seq<OutputData>)
    ensures forall i :: 0 <= i < |m| ==> m[i] in outputs && OutputKeyOf(m[i]) == k && m[i].id != id
    ensures forall i :: 0 <= i < |outputs| && OutputKeyOf(outputs[i]) == k && outputs[i].id != id ==> outputs[i] in m
    decreases |outputs|
  {
    if |outputs| == 0 then []
    else
      var head := if OutputKeyOf(outputs[0]) == k && outputs[0].id != id then [outputs[0]] else [];
      head + OtherOutputs(outputs[1..], k, id)
  }

  /** The first matching input is the first input of the store that has the key. */
  lemma {:induction false} FirstMatchingInput(inputs: seq<InputData>, k: MatchKey)
    requires |MatchingInputs(inputs, k)| > 0
    ensures var i := Lists.IndexOf(inputs, MatchingInputs(inputs, k)[0]);
      && InputKeyOf(inputs[i]) == k
      && forall j :: 0 <= j < i ==> InputKeyOf(inputs[j]) != k
    decreases |inputs|
  {
    var m := MatchingInputs(inputs, k);
    if InputKeyOf(inputs[0]) != k {
      assert m == MatchingInputs(inputs[1..], k);
      FirstMatchingInput(inputs[1..], k);
      var x := m[0];
      assert x != inputs[0];
      assert Lists.IndexOf(inputs, x) == 1 + Lists.IndexOf(inputs[1..], x);
    }
  }

  lemma {:induction false} OtherOutputsConcat(a: seq<OutputData>, b: seq<OutputData>, k: MatchKey, id: string)
    ensures OtherOutputs(a + b, k, id) == OtherOutputs(a, k, id) + OtherOutputs(b, k, id)
    decreases |a|
  {
    if |a| == 0 {
      assert a + b == b;
    } else {
      assert (a + b)[1..] == a[1..] + b;
      OtherOutputsConcat(a[1..], b, k, id);
    }
  }

  lemma OtherOutputsOfEdited(o: OutputData, k: MatchKey)
    ensures OtherOutputs([o], k, o.id) == []
  {
    assert [o][1..] == [];
  }

  /**
   * Saving the record being edited never changes what counts as "other" outputs:
   * the record with the edited id never contributes to its own claims.
   */
  lemma SaveKeepsOtherOutputs(outputs: seq<OutputData>, self: OutputData, k: MatchKey)
    ensures OtherOutputs(RecordStore.Upsert(outputs, self, OutputId), k, self.id) == OtherOutputs(outputs, k, self.id)
  {
    var i := RecordStore.FindIndex(outputs, self.id, OutputId);
    OtherOutputsOfEdited(self, k);
    if i > -1 {
      var a, b := outputs[..i], outputs[i + 1..];
      assert outputs == a + [outputs[i]] + b;
      assert outputs[i := self] == a + [self] + b;
      OtherOutputsConcat(a + [outputs[i]], b, k, self.id);
      OtherOutputsConcat(a, [outputs[i]], k, self.id);
      OtherOutputsConcat(a + [self], b, k, self.id);
      OtherOutputsConcat(a, [self], k, self.id);
      assert [outputs[i]][1..] == [];
    } else {
      OtherOutputsConcat(outputs, [self], k, self.id);
    }
  }

  /** Deleting the edited record's id from the store does not change its claims either. */
  lemma {:induction false} DeleteKeepsOtherOutputs(outputs: seq<OutputData>, k: MatchKey, id: string)
    ensures OtherOutputs(RecordStore.Remove(outputs, id, OutputId), k, id) == OtherOutputs(outputs, k, id)
    decreases |outputs|
  {
    if |outputs| > 0 {
      var init, last := outputs[..|outputs| - 1], outputs[|outputs| - 1];
      assert outputs == init + [last];
      DeleteKeepsOtherOutputs(init, k, id);
      OtherOutputsConcat(init, [last], k, id);
      var rest := RecordStore.Remove(init, id, OutputId);
      OtherOutputsConcat(rest, [last], k, id);
      assert [last][1..] == [];
    }
  }

  // ---------------------------------------------------------------------------
  // Size/shade keys: `${size}-${shade}` and `key.split('-')`
  // ---------------------------------------------------------------------------

  function RowKey(size: string, shade: string): string {
    size + "-" + shade
  }

  /** The text before the first '-' (all of it when there is none): the first piece of `split('-')`. */
  function FirstPiece(s: string): (p: string)
    ensures '-' !in p
    ensures |p| <= |s| && s[..|p|] == p
    ensures |p| < |s| ==> s[|p|] == '-'
    decreases |s|
  {
    if |s| == 0 || s[0] == '-' then "" else [s[0]] + FirstPiece(s[1..])
  }

  /** The text after the first '-' (empty when there is none). */
  function AfterFirstHyphen(s: string): string
    decreases |s|
  {
    if |s| == 0 then "" else if s[0] == '-' then s[1..] else AfterFirstHyphen(s[1..])
  }

  /**
   * Splitting a key at its hyphens and keeping the first two pieces as size and shade
   * (OutputFormModal.tsx:103). Every key the form builds holds a '-', so the second piece
   * always exists.
   */
  function SplitKey(key: string): (p: (string, string))
    ensures '-' !in p.0 && '-' !in p.1
    ensures |p.0| <= |key| && key[..|p.0|] == p.0
  {
    (FirstPiece(key), FirstPiece(AfterFirstHyphen(key)))
  }

  lemma {:induction false} PiecesOfJoin(a: string, b: string)
    requires '-' !in a
    ensures FirstPiece(a + "-" + b) == a
    ensures AfterFirstHyphen(a + "-" + b) == b
    decreases |a|
  {
    if |a| == 0 {
      assert a + "-" + b == "-" + b;
      assert ("-" + b)[1..] == b;
    } else {
      assert (a + "-" + b)[0] == a[0];
      assert (a + "-" + b)[1..] == a[1..] + "-" + b;
      PiecesOfJoin(a[1..], b);
      assert [a[0]] + a[1..] == a;
    }
  }

  lemma {:induction false} FirstPieceWhole(s: string)
    requires '-' !in s
    ensures FirstPiece(s) == s
    decreases |s|
  {
    if |s| > 0 {
      FirstPieceWhole(s[1..]);
      assert [s[0]] + s[1..] == s;
    }
  }

  /** Without hyphens, splitting a key gives back the size and shade it was built from. */
  lemma KeyRoundTrip(size: string, shade: string)
    requires '-' !in size && '-' !in shade
    ensures SplitKey(RowKey(size, shade)) == (size, shade)
  {
    PiecesOfJoin(size, shade);
    FirstPieceWhole(shade);
  }

  /** Without hyphens, two pairs share a key only when they are the same pair. */
  lemma KeyInjective(size: string, shade: string, size': string, shade': string)
    requires '-' !in size && '-' !in shade && '-' !in size' && '-' !in shade'
    ensures RowKey(size, shade) == RowKey(size', shade') <==> size == size' && shade == shade'
  {
    KeyRoundTrip(size, shade);
    KeyRoundTrip(size', shade');
  }

  /** With a hyphen in the size the key no longer splits back: "XL-T"/"A" reads as "XL"/"T". */
  lemma HyphenatedSizeIsMisread()
    ensures SplitKey(RowKey("XL-T", "A")) == ("XL", "T")
    ensures RowKey("XL-T", "A") == RowKey("XL", "T-A")
  {
    assert RowKey("XL-T", "A") == "XL-T-A";
    PiecesOfJoin("XL", "T-A");
    PiecesOfJoin("T", "A");
  }

  // ---------------------------------------------------------------------------
  // Per-key sums (the specification the dictionaries are checked against)
  // ---------------------------------------------------------------------------

  function InputRowKey(row: InputSizeShade): string { RowKey(row.size, row.shade) }
  function OutputRowKey(row: OutputSizeShade): string { RowKey(row.size, row.shade) }

  /** All size/shade rows of the given inputs, input after input. */
  function InputRows(inputs: seq<InputData>): seq<InputSizeShade>
    decreases |inputs|
  {
    if |inputs| == 0 then [] else InputRows(inputs[..|inputs| - 1]) + inputs[|inputs| - 1].sizeShadeQty
  }

  function OutputRows(outputs: seq<OutputData>): seq<OutputSizeShade>
    decreases |outputs|
  {
    if |outputs| == 0 then [] else OutputRows(outputs[..|outputs| - 1]) + outputs[|outputs| - 1].sizeShadeQty
  }

  /** The key of every row, in row order. */
  function InputKeys(rows: seq<InputSizeShade>): (keys: seq<string>)
    ensures |keys| == |rows|
    decreases |rows|
  {
    if |rows| == 0 then [] else InputKeys(rows[..|rows| - 1]) + [InputRowKey(rows[|rows| - 1])]
  }

  /** Total input quantity of the rows whose key is `key`. */
  function InputQtyFor(rows: seq<InputSizeShade>, key: string): int
    decreases |rows|
  {
    if |rows| == 0 then 0
    else
      var last := rows[|rows| - 1];
      InputQtyFor(rows[..|rows| - 1], key) + (if InputRowKey(last) == key then last.quantity else 0)
  }

  /** Total output quantity of the rows whose key is `key`. */
  function OutputQtyFor(rows: seq<OutputSizeShade>, key: string): int
    decreases |rows|
  {
    if |rows| == 0 then 0
    else
      var last := rows[|rows| - 1];
      OutputQtyFor(rows[..|rows| - 1], key) + (if OutputRowKey(last) == key then last.outputQuantity else 0)
  }

  /** What the cohort brought in under `key`. */
  function Aggregated(matching: seq<InputData>, key: string): int {
    InputQtyFor(InputRows(matching), key)
  }

  /** What the other outputs of the cohort already claimed under `key`. */
  function Claimed(others: seq<OutputData>, key: string): int {
    OutputQtyFor(OutputRows(others), key)
  }

  /** The distinct keys of the cohort's rows, in first-appearance order. */
  function SeedKeys(matching: seq<InputData>): seq<string> {
    Lists.Distinct(InputKeys(InputRows(matching)))
  }

  lemma {:induction false} InputQtyAbsent(rows: seq<InputSizeShade>, key: string)
    requires key !in InputKeys(rows)
    ensures InputQtyFor(rows, key) == 0
    decreases |rows|
  {
    if |rows| > 0 {
      InputQtyAbsent(rows[..|rows| - 1], key);
    }
  }

  lemma {:induction false} OutputQtyForConcat(a: seq<OutputSizeShade>, b: seq<OutputSizeShade>, key: string)
    ensures OutputQtyFor(a + b, key) == OutputQtyFor(a, key) + OutputQtyFor(b, key)
    decreases |b|
  {
    if |b| == 0 {
      assert a + b == a;
    } else {
      assert (a + b)[..|a + b| - 1] == a + b[..|b| - 1];
      OutputQtyForConcat(a, b[..|b| - 1], key);
    }
  }

  lemma {:induction false} OutputQtyAbsent(rows: seq<OutputSizeShade>, key: string)
    requires forall j :: 0 <= j < |rows| ==> OutputRowKey(rows[j]) != key
    ensures OutputQtyFor(rows, key) == 0
    decreases |rows|
  {
    if |rows| > 0 {
      OutputQtyAbsent(rows[..|rows| - 1], key);
    }
  }

  /** A key that no other output lists counts as claimed 0. */
  lemma {:induction false} ClaimedAbsentKey(others: seq<OutputData>, key: string)
    requires forall i, j :: 0 <= i < |others| && 0 <= j < |others[i].sizeShadeQty| ==> OutputRowKey(others[i].sizeShadeQty[j]) != key
    ensures Claimed(others, key) == 0
    decreases |others|
  {
    if |others| > 0 {
      var init, last := others[..|others| - 1], others[|others| - 1];
      ClaimedAbsentKey(init, key);
      OutputQtyForConcat(OutputRows(init), last.sizeShadeQty, key);
      OutputQtyAbsent(last.sizeShadeQty, key);
    }
  }

  // ---------------------------------------------------------------------------
  // JavaScript objects used as dictionaries
  // ---------------------------------------------------------------------------

  /**
   * A plain object `{ [key: string]: number }`: its keys in `Object.keys` order and its
   * values. Every key here holds a '-', so none is an array index and `Object.keys`
   * lists them in insertion order.
   */
  datatype Dict = Dict(order: seq<string>, values: map<string, int>)

  ghost predicate WellFormed(d: Dict) {
    && (forall key :: key in d.values <==> key in d.order)
    && Lists.NoDuplicates(d.order)
  }

  const EmptyDict: Dict := Dict([], map[])

  /** Reading an entry, where an absent key reads as 0. */
  function Lookup(d: Dict, key: string): int {
    if key in d.values then d.values[key] else 0
  }

  /** Writing an entry: a new key goes to the end of the key order. */
  function Assign(d: Dict, key: string, v: int): Dict {
    Dict(if key in d.values then d.order else d.order + [key], d.values[key := v])
  }

  /** Assigning keeps the dictionary well formed, changes only `key`, and appends a new key. */
  lemma AssignFacts(d: Dict, key: string, v: int)
    requires WellFormed(d)
    ensures var r := Assign(d, key, v);
      && WellFormed(r)
      && (forall k :: Lookup(r, k) == if k == key then v else Lookup(d, k))
      && r.order == if key in d.order then d.order else d.order + [key]
  {
  }

  // ---------------------------------------------------------------------------
  // autoFillData
  // ---------------------------------------------------------------------------

  lemma InputQtyStep(seen: seq<InputSizeShade>, row: InputSizeShade, key: string)
    ensures InputQtyFor(seen + [row], key) == InputQtyFor(seen, key) + (if InputRowKey(row) == key then row.quantity else 0)
  {
    assert (seen + [row])[..|seen|] == seen;
  }

  lemma InputKeysStep(seen: seq<InputSizeShade>, row: InputSizeShade)
    ensures InputKeys(seen + [row]) == InputKeys(seen) + [InputRowKey(row)]
    ensures Lists.Distinct(InputKeys(seen + [row])) ==
      var d := Lists.Distinct(InputKeys(seen));
      if InputRowKey(row) in d then d else d + [InputRowKey(row)]
  {
    assert (seen + [row])[..|seen|] == seen;
    var ks := InputKeys(seen) + [InputRowKey(row)];
    assert ks[..|ks| - 1] == InputKeys(seen);
  }

  lemma OutputQtyStep(seen: seq<OutputSizeShade>, row: OutputSizeShade, key: string)
    ensures OutputQtyFor(seen + [row], key) == OutputQtyFor(seen, key) + (if OutputRowKey(row) == key then row.outputQuantity else 0)
  {
    assert (seen + [row])[..|seen|] == seen;
  }

  lemma InputRowsStep(inputs: seq<InputData>, i: nat)
    requires i < |inputs|
    ensures InputRows(inputs[..i + 1]) == InputRows(inputs[..i]) + inputs[i].sizeShadeQty
  {
    assert inputs[..i + 1][..i] == inputs[..i];
  }

  lemma OutputRowsStep(outputs: seq<OutputData>, i: nat)
    requires i < |outputs|
    ensures OutputRows(outputs[..i + 1]) == OutputRows(outputs[..i]) + outputs[i].sizeShadeQty
  {
    assert outputs[..i + 1][..i] == outputs[..i];
  }

  /** One step of the first pass (OutputFormModal.tsx:90): the row's quantity is added to its key's entry, absent reading as 0. */
  function AddInputRow(d: Dict, row: InputSizeShade): Dict {
    Assign(d, InputRowKey(row), Lookup(d, InputRowKey(row)) + row.quantity)
  }

  /** One step of the second pass (OutputFormModal.tsx:98): the row's output quantity is added to its key's entry, absent reading as 0. */
  function AddOutputRow(d: Dict, row: OutputSizeShade): Dict {
    Assign(d, OutputRowKey(row), Lookup(d, OutputRowKey(row)) + row.outputQuantity)
  }

  /** The input dictionary the first pass builds from `rows`, one assignment per row. */
  function InputDict(rows: seq<InputSizeShade>): Dict
    decreases |rows|
  {
    if |rows| == 0 then EmptyDict else AddInputRow(InputDict(rows[..|rows| - 1]), rows[|rows| - 1])
  }

  /** The output dictionary the second pass builds from `rows`, one assignment per row. */
  function OutputDict(rows: seq<OutputSizeShade>): Dict
    decreases |rows|
  {
    if |rows| == 0 then EmptyDict else AddOutputRow(OutputDict(rows[..|rows| - 1]), rows[|rows| - 1])
  }

  lemma AddInputRowOrder(d: Dict, seen: seq<InputSizeShade>, row: InputSizeShade, v: int)
    requires WellFormed(d) && d.order == Lists.Distinct(InputKeys(seen))
    ensures Assign(d, InputRowKey(row), v).order == Lists.Distinct(InputKeys(seen + [row]))
  {
    AssignFacts(d, InputRowKey(row), v);
    InputKeysStep(seen, row);
  }

  lemma AddInputRowValues(d: Dict, seen: seq<InputSizeShade>, row: InputSizeShade, v: int)
    requires WellFormed(d) && forall key :: Lookup(d, key) == InputQtyFor(seen, key)
    requires v == Lookup(d, InputRowKey(row)) + row.quantity
    ensures forall key :: Lookup(Assign(d, InputRowKey(row), v), key) == InputQtyFor(seen + [row], key)
  {
    AssignFacts(d, InputRowKey(row), v);
    forall key ensures Lookup(Assign(d, InputRowKey(row), v), key) == InputQtyFor(seen + [row], key) {
      InputQtyStep(seen, row, key);
    }
  }

  lemma AddOutputRowValues(d: Dict, seen: seq<OutputSizeShade>, row: OutputSizeShade, v: int)
    requires WellFormed(d) && forall key :: Lookup(d, key) == OutputQtyFor(seen, key)
    requires v == Lookup(d, OutputRowKey(row)) + row.outputQuantity
    ensures forall key :: Lookup(Assign(d, OutputRowKey(row), v), key) == OutputQtyFor(seen + [row], key)
  {
    AssignFacts(d, OutputRowKey(row), v);
    forall key ensures Lookup(Assign(d, OutputRowKey(row), v), key) == OutputQtyFor(seen + [row], key) {
      OutputQtyStep(seen, row, key);
    }
  }

  /** The input dictionary is well formed and lists each key once, in first-appearance order. */
  lemma {:induction false} InputDictOrder(rows: seq<InputSizeShade>)
    ensures WellFormed(InputDict(rows))
    ensures InputDict(rows).order == Lists.Distinct(InputKeys(rows))
    decreases |rows|
  {
    if |rows| > 0 {
      var init, row := rows[..|rows| - 1], rows[|rows| - 1];
      assert rows == init + [row];
      InputDictOrder(init);
      var d := InputDict(init);
      var v := Lookup(d, InputRowKey(row)) + row.quantity;
      AddInputRowOrder(d, init, row, v);
      AssignFacts(d, InputRowKey(row), v);
    }
  }

  /** The input dictionary holds each key's row total, and 0 for keys never seen. */
  lemma {:induction false} InputDictValues(rows: seq<InputSizeShade>)
    ensures forall key :: Lookup(InputDict(rows), key) == InputQtyFor(rows, key)
    decreases |rows|
  {
    if |rows| > 0 {
      var init, row := rows[..|rows| - 1], rows[|rows| - 1];
      assert rows == init + [row];
      InputDictValues(init);
      InputDictOrder(init);
      var d := InputDict(init);
      AddInputRowValues(d, init, row, Lookup(d, InputRowKey(row)) + row.quantity);
    }
  }

  /** The input dictionary lists each key once, in first-appearance order, with its row total. */
  lemma InputDictMeaning(rows: seq<InputSizeShade>)
    ensures WellFormed(InputDict(rows))
    ensures InputDict(rows).order == Lists.Distinct(InputKeys(rows))
    ensures forall key :: Lookup(InputDict(rows), key) == InputQtyFor(rows, key)
  {
    InputDictOrder(rows);
    InputDictValues(rows);
  }

  /** The output dictionary holds each key's total output, and 0 for keys never seen. */
  lemma {:induction false} OutputDictMeaning(rows: seq<OutputSizeShade>)
    ensures WellFormed(OutputDict(rows))
    ensures forall key :: Lookup(OutputDict(rows), key) == OutputQtyFor(rows, key)
    decreases |rows|
  {
    if |rows| > 0 {
      var init, row := rows[..|rows| - 1], rows[|rows| - 1];
      assert rows == init + [row];
      OutputDictMeaning(init);
      var d := OutputDict(init);
      AddOutputRowValues(d, init, row, Lookup(d, OutputRowKey(row)) + row.outputQuantity);
      AssignFacts(d, OutputRowKey(row), Lookup(d, OutputRowKey(row)) + row.outputQuantity);
    }
  }

  lemma InputDictStep(seen: seq<InputSizeShade>, row: InputSizeShade)
    ensures InputDict(seen + [row]) == AddInputRow(InputDict(seen), row)
  {
    var s := seen + [row];
    assert s[..|s| - 1] == seen;
    assert s[|s| - 1] == row;
  }

  lemma OutputDictStep(seen: seq<OutputSizeShade>, row: OutputSizeShade)
    ensures OutputDict(seen + [row]) == AddOutputRow(OutputDict(seen), row)
  {
    var s := seen + [row];
    assert s[..|s| - 1] == seen;
    assert s[|s| - 1] == row;
  }

  /** The dictionary `d` after one assignment per row of `rows`, in row order. */
  function InputDictFrom(d: Dict, rows: seq<InputSizeShade>): Dict
    decreases |rows|
  {
    if |rows| == 0 then d else AddInputRow(InputDictFrom(d, rows[..|rows| - 1]), rows[|rows| - 1])
  }

  /** Continuing the first pass's dictionary with more rows is the first pass over all of them. */
  lemma {:induction false} InputDictFromConcat(seen: seq<InputSizeShade>, rows: seq<InputSizeShade>)
    ensures InputDictFrom(InputDict(seen), rows) == InputDict(seen + rows)
    decreases |rows|
  {
    if |rows| == 0 {
      assert seen + rows == seen;
    } else {
      var init, last := rows[..|rows| - 1], rows[|rows| - 1];
      InputDictFromConcat(seen, init);
      assert InputDictFrom(InputDict(seen), rows) == AddInputRow(InputDict(seen + init), last);
      assert seen + rows == (seen + init) + [last];
      InputDictStep(seen + init, last);
    }
  }

  /** The inner `forEach` of the first pass: adds the rows of one input. */
  method AddInputRows(aggregated: Dict, rows: seq<InputSizeShade>) returns (r: Dict)
    ensures r == InputDictFrom(aggregated, rows)
  {
    r := aggregated;
    var j := 0;
    while j < |rows|
      invariant 0 <= j <= |rows|
      invariant r == InputDictFrom(aggregated, rows[..j])
    {
      var ssq := rows[j];
      var key := RowKey(ssq.size, ssq.shade);
      assert rows[..j + 1][..j] == rows[..j];
      r := Assign(r, key, Lookup(r, key) + ssq.quantity);
      j := j + 1;
    }
    assert rows[..j] == rows;
  }

  /**
   * The first `forEach`: sums the quantity of every row of every matching input into a
   * dictionary keyed by size/shade.
   */
  method AggregateInputQty(matchingInputs: seq<InputData>) returns (aggregated: Dict)
    ensures WellFormed(aggregated)
    ensures aggregated.order == SeedKeys(matchingInputs)
    ensures forall key :: Lookup(aggregated, key) == Aggregated(matchingInputs, key)
  {
    aggregated := EmptyDict;
    var i := 0;
    while i < |matchingInputs|
      invariant 0 <= i <= |matchingInputs|
      invariant aggregated == InputDict(InputRows(matchingInputs[..i]))
    {
      InputRowsStep(matchingInputs, i);
      InputDictFromConcat(InputRows(matchingInputs[..i]), matchingInputs[i].sizeShadeQty);
      aggregated := AddInputRows(aggregated, matchingInputs[i].sizeShadeQty);
      i := i + 1;
    }
    assert matchingInputs[..i] == matchingInputs;
    InputDictMeaning(InputRows(matchingInputs));
  }

  /** The dictionary `d` after one assignment per row of `rows`, in row order. */
  function OutputDictFrom(d: Dict, rows: seq<OutputSizeShade>): Dict
    decreases |rows|
  {
    if |rows| == 0 then d else AddOutputRow(OutputDictFrom(d, rows[..|rows| - 1]), rows[|rows| - 1])
  }

  /** Continuing the second pass's dictionary with more rows is the second pass over all of them. */
  lemma {:induction false} OutputDictFromConcat(seen: seq<OutputSizeShade>, rows: seq<OutputSizeShade>)
    ensures OutputDictFrom(OutputDict(seen), rows) == OutputDict(seen + rows)
    decreases |rows|
  {
    if |rows| == 0 {
      assert seen + rows == seen;
    } else {
      var init, last := rows[..|rows| - 1], rows[|rows| - 1];
      OutputDictFromConcat(seen, init);
      assert OutputDictFrom(OutputDict(seen), rows) == AddOutputRow(OutputDict(seen + init), last);
      assert seen + rows == (seen + init) + [last];
      OutputDictStep(seen + init, last);
    }
  }

  /** The inner `forEach` of the second pass: adds the rows of one other output. */
  method AddOutputRows(existing: Dict, rows: seq<OutputSizeShade>) returns (r: Dict)
    ensures r == OutputDictFrom(existing, rows)
  {
    r := existing;
    var j := 0;
    while j < |rows|
      invariant 0 <= j <= |rows|
      invariant r == OutputDictFrom(existing, rows[..j])
    {
      var ssq := rows[j];
      var key := RowKey(ssq.size, ssq.shade);
      assert rows[..j + 1][..j] == rows[..j];
      r := Assign(r, key, Lookup(r, key) + ssq.outputQuantity);
      j := j + 1;
    }
    assert rows[..j] == rows;
  }

  /**
   * The second `forEach`: sums the output quantity of every row of the other outputs into a
   * dictionary keyed by size/shade; a key never seen reads as 0.
   */
  method ClaimedOutputQty(existingOutputs: seq<OutputData>) returns (existing: Dict)
    ensures WellFormed(existing)
    ensures forall key :: Lookup(existing, key) == Claimed(existingOutputs, key)
  {
    existing := EmptyDict;
    var i := 0;
    while i < |existingOutputs|
      invariant 0 <= i <= |existingOutputs|
      invariant existing == OutputDict(OutputRows(existingOutputs[..i]))
    {
      OutputRowsStep(existingOutputs, i);
      OutputDictFromConcat(OutputRows(existingOutputs[..i]), existingOutputs[i].sizeShadeQty);
      existing := AddOutputRows(existing, existingOutputs[i].sizeShadeQty);
      i := i + 1;
    }
    assert existingOutputs[..i] == existingOutputs;
    OutputDictMeaning(OutputRows(existingOutputs));
  }

  /** The first row with this size and shade (`find`), as a position, or -1. */
  function FirstRowIndex(rows: seq<OutputSizeShade>, size: string, shade: string): (r: int)
    ensures -1 <= r < |rows|
    ensures r == -1 <==> forall j :: 0 <= j < |rows| ==> !(rows[j].size == size && rows[j].shade == shade)
    ensures r >= 0 ==> rows[r].size == size && rows[r].shade == shade
    ensures r >= 0 ==> forall j :: 0 <= j < r ==> !(rows[j].size == size && rows[j].shade == shade)
    decreases |rows|
  {
    if |rows| == 0 then -1
    else if rows[0].size == size && rows[0].shade == shade then 0
    else
      var k := FirstRowIndex(rows[1..], size, shade);
      assert forall j :: 1 <= j < |rows| ==> rows[j] == rows[1..][j - 1];
      if k == -1 then -1 else k + 1
  }

  /** The first row with this size and shade, if any (the `find` at OutputFormModal.tsx:107 and 145). */
  function FindRow(rows: seq<OutputSizeShade>, size: string, shade: string): (r: Option<OutputSizeShade>)
    ensures r.None? <==> forall j :: 0 <= j < |rows| ==> !(rows[j].size == size && rows[j].shade == shade)
    ensures r.Some? ==> r.value in rows && r.value.size == size && r.value.shade == shade
  {
    var k := FirstRowIndex(rows, size, shade);
    if k >= 0 then Some(rows[k]) else None
  }

  /** The output quantity of the first row with this size and shade, 0 when there is none. */
  function FirstMatchQty(rows: seq<OutputSizeShade>, size: string, shade: string): int {
    match FindRow(rows, size, shade)
    case Some(row) => row.outputQuantity
    case None => 0
  }

  /** `outputData?.sizeShadeQty.find(...)`: what the record passed in already ships for this pair. */
  function PriorOutputQty(outputData: Option<OutputData>, size: string, shade: string): int {
    match outputData
    case None => 0
    case Some(o) => FirstMatchQty(o.sizeShadeQty, size, shade)
  }

  /** One seeded row: the key split back into size and shade, and the balance left after claims. */
  function SeedRow(key: string, inputQuantity: int, existingOutput: int, outputData: Option<OutputData>): (r: OutputSizeShade)
    ensures (r.size, r.shade) == SplitKey(key) && r.inputQuantity == inputQuantity
    ensures outputData.None? ==> r.outputQuantity == 0
    ensures r.inputQuantity - existingOutput - r.outputQuantity == r.balanceQuantity
  {
    var (size, shade) := SplitKey(key);
    var outputQuantity := PriorOutputQty(outputData, size, shade);
    OutputSizeShade(size, shade, inputQuantity, outputQuantity, inputQuantity - existingOutput - outputQuantity)
  }

  /** One seeded row per key of the aggregated dictionary, in its key order (OutputFormModal.tsx:102-113). */
  function BuildRows(aggregated: Dict, existing: Dict, outputData: Option<OutputData>): (rows: seq<OutputSizeShade>)
    ensures |rows| == |aggregated.order|
    ensures forall j :: 0 <= j < |rows| ==> rows[j].inputQuantity == Lookup(aggregated, aggregated.order[j])
  {
    seq(|aggregated.order|, j requires 0 <= j < |aggregated.order| =>
      SeedRow(aggregated.order[j], Lookup(aggregated, aggregated.order[j]), Lookup(existing, aggregated.order[j]), outputData))
  }

  /** The seeded rows, stated directly by the per-key sums. */
  function SeededRows(matching: seq<InputData>, others: seq<OutputData>, outputData: Option<OutputData>): (rows: seq<OutputSizeShade>)
    ensures |rows| == |SeedKeys(matching)|
  {
    var keys := SeedKeys(matching);
    seq(|keys|, j requires 0 <= j < |keys| =>
      SeedRow(keys[j], Aggregated(matching, keys[j]), Claimed(others, keys[j]), outputData))
  }

  /**
   * The form after autofill: nothing changes unless all six key fields are set and some
   * input matches; then the rows are reseeded from the cohort and the sewing finish date
   * is copied from its first input.
   */
  function AutoFilled(form: OutputData, allInputs: seq<InputData>, allOutputs: seq<OutputData>, outputData: Option<OutputData>): (r: OutputData)
    ensures r.(sizeShadeQty := form.sizeShadeQty, sewingFinishDate := form.sewingFinishDate) == form
  {
    var key := OutputKeyOf(form);
    if !KeyComplete(key) then form
    else
      var matching := MatchingInputs(allInputs, key);
      if |matching| == 0 then form
      else form.(sizeShadeQty := SeededRows(matching, OtherOutputs(allOutputs, key, form.id), outputData),
                 sewingFinishDate := matching[0].sewingFinishDate)
  }

  /** `autoFillData`: the dictionary-based computation, proved equal to `AutoFilled`. */
  method AutoFillData(formData: OutputData, allInputs: seq<InputData>, allOutputs: seq<OutputData>, outputData: Option<OutputData>)
    returns (r: OutputData)
    ensures r == AutoFilled(formData, allInputs, allOutputs, outputData)
  {
    r := formData;
    var key := OutputKeyOf(formData);
    if KeyComplete(key) {
      var matchingInputs := MatchingInputs(allInputs, key);
      if |matchingInputs| > 0 {
        var existingOutputsForThisEntry := OtherOutputs(allOutputs, key, formData.id);
        var aggregatedInputQty := AggregateInputQty(matchingInputs);
        var existingOutputQty := ClaimedOutputQty(existingOutputsForThisEntry);
        var newSizeShadeQty := BuildRows(aggregatedInputQty, existingOutputQty, outputData);
        assert newSizeShadeQty == SeededRows(matchingInputs, existingOutputsForThisEntry, outputData);
        r := formData.(sizeShadeQty := newSizeShadeQty, sewingFinishDate := matchingInputs[0].sewingFinishDate);
      }
    }
  }

  // ---- properties of autofill ----

  /** Autofill does nothing unless all six key fields are set and at least one input matches. */
  lemma AutoFillGuard(form: OutputData, allInputs: seq<InputData>, allOutputs: seq<OutputData>, outputData: Option<OutputData>)
    ensures AutoFilled(form, allInputs, allOutputs, outputData) != form ==>
      KeyComplete(OutputKeyOf(form)) && |MatchingInputs(allInputs, OutputKeyOf(form))| > 0
    ensures !KeyComplete(OutputKeyOf(form)) ==> AutoFilled(form, allInputs, allOutputs, outputData) == form
    ensures (forall i :: 0 <= i < |allInputs| ==> InputKeyOf(allInputs[i]) != OutputKeyOf(form)) ==>
      AutoFilled(form, allInputs, allOutputs, outputData) == form
  {
    var m := MatchingInputs(allInputs, OutputKeyOf(form));
    if |m| > 0 {
      assert m[0] in allInputs;
    }
  }

  /**
   * When autofill fires: one row per distinct key in first-appearance order, each with the
   * cohort's input total, and balance = input - claimed by others - this record's output.
   * Only the rows and the sewing finish date change; the date is that of the first input
   * in store order with the key.
   */
  lemma AutoFillRows(form: OutputData, allInputs: seq<InputData>, allOutputs: seq<OutputData>, outputData: Option<OutputData>)
    requires KeyComplete(OutputKeyOf(form))
    requires |MatchingInputs(allInputs, OutputKeyOf(form))| > 0
    ensures var key := OutputKeyOf(form);
      var matching := MatchingInputs(allInputs, key);
      var others := OtherOutputs(allOutputs, key, form.id);
      var keys := SeedKeys(matching);
      var r := AutoFilled(form, allInputs, allOutputs, outputData);
      && |r.sizeShadeQty| == |keys|
      && (forall j :: 0 <= j < |keys| ==>
            && (r.sizeShadeQty[j].size, r.sizeShadeQty[j].shade) == SplitKey(keys[j])
            && r.sizeShadeQty[j].inputQuantity == Aggregated(matching, keys[j])
            && r.sizeShadeQty[j].outputQuantity == PriorOutputQty(outputData, r.sizeShadeQty[j].size, r.sizeShadeQty[j].shade)
            && r.sizeShadeQty[j].balanceQuantity
               == r.sizeShadeQty[j].inputQuantity - Claimed(others, keys[j]) - r.sizeShadeQty[j].outputQuantity)
      && r.(sizeShadeQty := form.sizeShadeQty, sewingFinishDate := form.sewingFinishDate) == form
      && var first := Lists.IndexOf(allInputs, matching[0]);
         && InputKeyOf(allInputs[first]) == key
         && (forall j :: 0 <= j < first ==> InputKeyOf(allInputs[j]) != key)
         && r.sewingFinishDate == allInputs[first].sewingFinishDate
  {
    FirstMatchingInput(allInputs, OutputKeyOf(form));
  }

  /** The seeded keys are exactly the keys of the cohort's rows, each once, in first-appearance order. */
  lemma SeedKeysAreDistinctKeys(matching: seq<InputData>)
    ensures var rowKeys, keys := InputKeys(InputRows(matching)), SeedKeys(matching);
      && Lists.NoDuplicates(keys)
      && (forall j :: 0 <= j < |keys| ==> keys[j] in rowKeys)
      && (forall j :: 0 <= j < |rowKeys| ==> rowKeys[j] in keys)
      && (forall i, j :: 0 <= i < j < |keys| ==> Lists.IndexOf(rowKeys, keys[i]) < Lists.IndexOf(rowKeys, keys[j]))
  {
    var rowKeys := InputKeys(InputRows(matching));
    forall i, j | 0 <= i < j < |SeedKeys(matching)|
      ensures Lists.IndexOf(rowKeys, SeedKeys(matching)[i]) < Lists.IndexOf(rowKeys, SeedKeys(matching)[j])
    {
      Lists.DistinctFirstAppearance(rowKeys, i, j);
    }
  }

  /**
   * With no prior record (the only case in which autofill runs), every seeded row ships 0
   * and its balance is what came in less what the other outputs claimed; the quantities
   * already typed into the form are not consulted.
   */
  lemma FreshAutoFillSeedsZero(form: OutputData, allInputs: seq<InputData>, allOutputs: seq<OutputData>, typed: seq<OutputSizeShade>)
    requires KeyComplete(OutputKeyOf(form))
    requires |MatchingInputs(allInputs, OutputKeyOf(form))| > 0
    ensures var key := OutputKeyOf(form);
      var matching := MatchingInputs(allInputs, key);
      var others := OtherOutputs(allOutputs, key, form.id);
      var keys := SeedKeys(matching);
      var r := AutoFilled(form, allInputs, allOutputs, None);
      && (forall j :: 0 <= j < |keys| ==>
            r.sizeShadeQty[j].outputQuantity == 0
            && r.sizeShadeQty[j].balanceQuantity == Aggregated(matching, keys[j]) - Claimed(others, keys[j]))
      && AutoFilled(form.(sizeShadeQty := typed), allInputs, allOutputs, None).sizeShadeQty == r.sizeShadeQty
  {
    AutoFillRows(form, allInputs, allOutputs, None);
  }

  /** Running autofill twice with no change in between gives the same form as running it once. */
  lemma AutoFillIdempotent(form: OutputData, allInputs: seq<InputData>, allOutputs: seq<OutputData>, outputData: Option<OutputData>)
    ensures var once := AutoFilled(form, allInputs, allOutputs, outputData);
      AutoFilled(once, allInputs, allOutputs, outputData) == once
  {
    var once := AutoFilled(form, allInputs, allOutputs, outputData);
    assert OutputKeyOf(once) == OutputKeyOf(form) && once.id == form.id;
  }

  /** Saving the record being filled in does not change a later autofill of the same record. */
  lemma AutoFillIgnoresOwnSavedRecord(form: OutputData, allInputs: seq<InputData>, allOutputs: seq<OutputData>, outputData: Option<OutputData>)
    ensures AutoFilled(form, allInputs, RecordStore.Upsert(allOutputs, form, OutputId), outputData)
         == AutoFilled(form, allInputs, allOutputs, outputData)
  {
    SaveKeepsOtherOutputs(allOutputs, form, OutputKeyOf(form));
  }

  // ---- conservation of input quantity ----

  /** Sum over a list of keys of the rows' input quantity under each key. */
  function KeySum(keys: seq<string>, rows: seq<InputSizeShade>): int
    decreases |keys|
  {
    if |keys| == 0 then 0 else KeySum(keys[..|keys| - 1], rows) + InputQtyFor(rows, keys[|keys| - 1])
  }

  lemma {:induction false} KeySumStep(keys: seq<string>, rows: seq<InputSizeShade>, row: InputSizeShade)
    requires Lists.NoDuplicates(keys)
    ensures KeySum(keys, rows + [row]) == KeySum(keys, rows) + (if InputRowKey(row) in keys then row.quantity else 0)
    decreases |keys|
  {
    if |keys| > 0 {
      var init, last := keys[..|keys| - 1], keys[|keys| - 1];
      assert keys == init + [last];
      assert Lists.NoDuplicates(init) by {
        forall a, b | 0 <= a < b < |init| ensures init[a] != init[b] {
          assert init[a] == keys[a] && init[b] == keys[b];
        }
      }
      KeySumStep(init, rows, row);
      InputQtyStep(rows, row, last);
      assert last !in init by {
        forall a | 0 <= a < |init| ensures init[a] != last {
          assert init[a] == keys[a];
        }
      }
    }
  }

  lemma {:induction false} KeySumSnoc(keys: seq<string>, key: string, rows: seq<InputSizeShade>)
    ensures KeySum(keys + [key], rows) == KeySum(keys, rows) + InputQtyFor(rows, key)
  {
    assert (keys + [key])[..|keys|] == keys;
  }

  /** Adding one row adds its quantity to the sum of the per-key aggregates. */
  lemma AggregationStep(init: seq<InputSizeShade>, row: InputSizeShade)
    ensures KeySum(Lists.Distinct(InputKeys(init + [row])), init + [row])
         == KeySum(Lists.Distinct(InputKeys(init)), init + [row]) + (if InputRowKey(row) in InputKeys(init) then 0 else row.quantity)
  {
    var d := Lists.Distinct(InputKeys(init));
    InputKeysStep(init, row);
    if InputRowKey(row) !in d {
      KeySumSnoc(d, InputRowKey(row), init + [row]);
      InputQtyAbsent(init, InputRowKey(row));
      InputQtyStep(init, row, InputRowKey(row));
    }
  }

  lemma TotalQuantityStep(init: seq<InputSizeShade>, row: InputSizeShade)
    ensures InputForm.TotalQuantity(init + [row]) == InputForm.TotalQuantity(init) + row.quantity
  {
    assert (init + [row])[..|init|] == init;
  }

  /** Summed over the distinct keys, the per-key aggregates account for every row's quantity exactly once. */
  lemma {:induction false} AggregationConserves(rows: seq<InputSizeShade>)
    ensures KeySum(Lists.Distinct(InputKeys(rows)), rows) == InputForm.TotalQuantity(rows)
    decreases |rows|
  {
    if |rows| > 0 {
      var init, row := rows[..|rows| - 1], rows[|rows| - 1];
      assert rows == init + [row];
      AggregationConserves(init);
      AggregationStep(init, row);
      KeySumStep(Lists.Distinct(InputKeys(init)), init, row);
      TotalQuantityStep(init, row);
    }
  }

  function InputQuantityOf(row: OutputSizeShade): int { row.inputQuantity }

  lemma {:induction false} RowsSumAsKeys(rows: seq<OutputSizeShade>, keys: seq<string>, flat: seq<InputSizeShade>)
    requires |rows| == |keys|
    requires forall j :: 0 <= j < |rows| ==> rows[j].inputQuantity == InputQtyFor(flat, keys[j])
    ensures Lists.SumOf(rows, InputQuantityOf) == KeySum(keys, flat)
    decreases |rows|
  {
    if |rows| > 0 {
      RowsSumAsKeys(rows[..|rows| - 1], keys[..|keys| - 1], flat);
    }
  }

  function TotalQuantityOf(i: InputData): int { i.totalQuantity }

  lemma {:induction false} InputRowsTotal(inputs: seq<InputData>)
    requires forall i :: 0 <= i < |inputs| ==> InputForm.Consistent(inputs[i])
    ensures InputForm.TotalQuantity(InputRows(inputs)) == Lists.SumOf(inputs, TotalQuantityOf)
    decreases |inputs|
  {
    if |inputs| > 0 {
      var init := inputs[..|inputs| - 1];
      InputRowsTotal(init);
      Lists.SumOfConcat(InputRows(init), inputs[|inputs| - 1].sizeShadeQty, InputForm.Quantity);
    }
  }

  /**
   * Aggregation loses and invents nothing: the seeded rows' input quantities add up to the
   * cohort's total quantity.
   */
  lemma SeededInputConserved(matching: seq<InputData>, others: seq<OutputData>, outputData: Option<OutputData>)
    requires forall i :: 0 <= i < |matching| ==> InputForm.Consistent(matching[i])
    ensures Lists.SumOf(SeededRows(matching, others, outputData), InputQuantityOf) == Lists.SumOf(matching, TotalQuantityOf)
  {
    var flat := InputRows(matching);
    RowsSumAsKeys(SeededRows(matching, others, outputData), SeedKeys(matching), flat);
    AggregationConserves(flat);
    InputRowsTotal(matching);
  }

  // ---------------------------------------------------------------------------
  // handleOutputQtyChange
  // ---------------------------------------------------------------------------

  /** Sum over the other outputs of the first row matching this size and shade. */
  function FirstMatchSum(others: seq<OutputData>, size: string, shade: string): int
    decreases |others|
  {
    if |others| == 0 then 0
    else FirstMatchSum(others[..|others| - 1], size, shade) + FirstMatchQty(others[|others| - 1].sizeShadeQty, size, shade)
  }

  /** The form after typing `value` into the output cell of row `index`. */
  function OutputQtyEdited(form: OutputData, allOutputs: seq<OutputData>, index: nat, value: string): (r: OutputData)
    requires index < |form.sizeShadeQty|
    ensures |r.sizeShadeQty| == |form.sizeShadeQty|
    ensures forall j :: 0 <= j < |form.sizeShadeQty| && j != index ==> r.sizeShadeQty[j] == form.sizeShadeQty[j]
    ensures r.(sizeShadeQty := form.sizeShadeQty) == form
  {
    var item := form.sizeShadeQty[index];
    var newQty := JsNumber.NumberOrZero(value);
    var others := OtherOutputs(allOutputs, OutputKeyOf(form), form.id);
    var previouslyOutputted := FirstMatchSum(others, item.size, item.shade);
    form.(sizeShadeQty := form.sizeShadeQty[index := item.(outputQuantity := newQty,
                                                               balanceQuantity := item.inputQuantity - previouslyOutputted - newQty)])
  }

  /** The `forEach` that adds up what the other outputs shipped for this size and shade. */
  method PreviouslyOutputted(otherOutputs: seq<OutputData>, size: string, shade: string) returns (previouslyOutputted: int)
    ensures previouslyOutputted == FirstMatchSum(otherOutputs, size, shade)
  {
    previouslyOutputted := 0;
    var i := 0;
    while i < |otherOutputs|
      invariant 0 <= i <= |otherOutputs|
      invariant previouslyOutputted == FirstMatchSum(otherOutputs[..i], size, shade)
    {
      var match_ := FindRow(otherOutputs[i].sizeShadeQty, size, shade);
      if match_.Some? {
        previouslyOutputted := previouslyOutputted + match_.value.outputQuantity;
      }
      assert otherOutputs[..i + 1][..i] == otherOutputs[..i];
      i := i + 1;
    }
    assert otherOutputs[..i] == otherOutputs;
  }

  /** `handleOutputQtyChange(index, value)`, proved equal to `OutputQtyEdited`. */
  method HandleOutputQtyChange(formData: OutputData, allOutputs: seq<OutputData>, index: nat, value: string)
    returns (r: OutputData)
    requires index < |formData.sizeShadeQty|
    ensures r == OutputQtyEdited(formData, allOutputs, index, value)
  {
    var newQty := JsNumber.NumberOrZero(value);
    var newSizeShadeQty := formData.sizeShadeQty;
    var item := newSizeShadeQty[index];
    var otherOutputsForThisEntry := OtherOutputs(allOutputs, OutputKeyOf(formData), formData.id);
    var previouslyOutputted := PreviouslyOutputted(otherOutputsForThisEntry, item.size, item.shade);
    item := item.(outputQuantity := newQty);
    item := item.(balanceQuantity := item.inputQuantity - previouslyOutputted - newQty);
    newSizeShadeQty := newSizeShadeQty[index := item];
    r := formData.(sizeShadeQty := newSizeShadeQty);
  }

  // ---- properties of a single edit ----

  /**
   * Only row `index` changes: it keeps its size, shade and input quantity, takes the typed
   * number (0 when the text is not a number) and gets
   * balance = input - (first matching row of each other output) - typed, negative or not.
   */
  lemma EditChangesOnlyItsRow(form: OutputData, allOutputs: seq<OutputData>, index: nat, value: string)
    requires index < |form.sizeShadeQty|
    ensures var r := OutputQtyEdited(form, allOutputs, index, value);
      var old_row, new_row := form.sizeShadeQty[index], r.sizeShadeQty[index];
      var others := OtherOutputs(allOutputs, OutputKeyOf(form), form.id);
      && |r.sizeShadeQty| == |form.sizeShadeQty|
      && (forall j :: 0 <= j < |form.sizeShadeQty| && j != index ==> r.sizeShadeQty[j] == form.sizeShadeQty[j])
      && new_row.size == old_row.size && new_row.shade == old_row.shade
      && new_row.inputQuantity == old_row.inputQuantity
      && new_row.outputQuantity == JsNumber.NumberOrZero(value)
      && (JsNumber.ToNumber(value).None? ==> new_row.outputQuantity == 0)
      && new_row.balanceQuantity
         == old_row.inputQuantity - FirstMatchSum(others, old_row.size, old_row.shade) - new_row.outputQuantity
      && r.(sizeShadeQty := form.sizeShadeQty) == form
  {
  }

  /**
   * On a new record the autofill effect fires again after every change of the form, since
   * its callback depends on the whole record (OutputFormModal.tsx:118-124). Once autofill
   * applies, an output quantity typed by hand is seeded away again: autofilling the edited
   * form gives what autofilling the form before the edit gave, with every output back at 0.
   */
  lemma NewRecordEditIsReseeded(form: OutputData, allInputs: seq<InputData>, allOutputs: seq<OutputData>, index: nat, value: string)
    requires index < |form.sizeShadeQty|
    ensures var key := OutputKeyOf(form);
      var after := AutoFilled(OutputQtyEdited(form, allOutputs, index, value), allInputs, allOutputs, None);
      KeyComplete(key) && |MatchingInputs(allInputs, key)| > 0 ==>
        && after == AutoFilled(form, allInputs, allOutputs, None)
        && forall j :: 0 <= j < |after.sizeShadeQty| ==> after.sizeShadeQty[j].outputQuantity == 0
  {
    var key := OutputKeyOf(form);
    if KeyComplete(key) && |MatchingInputs(allInputs, key)| > 0 {
      EditChangesOnlyItsRow(form, allOutputs, index, value);
      FreshAutoFillSeedsZero(form, allInputs, allOutputs, form.sizeShadeQty);
    }
  }

  /** Typing a number shown by the field stores exactly that number, negative values included. */
  lemma EditStoresShownNumber(form: OutputData, allOutputs: seq<OutputData>, index: nat, n: int)
    requires index < |form.sizeShadeQty|
    ensures OutputQtyEdited(form, allOutputs, index, JsNumber.ShowInt(n)).sizeShadeQty[index].outputQuantity == n
  {
    JsNumber.ShowIntRoundTrip(n);
  }

  /**
   * The edited row's balance is its input less everything shipped for it, counting this
   * record too: what the others shipped (first matching row each) plus the typed quantity.
   * The record being edited is itself skipped even if an older copy of it is in the store.
   */
  lemma EditBalanceConserved(form: OutputData, allOutputs: seq<OutputData>, index: nat, value: string)
    requires index < |form.sizeShadeQty|
    requires FirstRowIndex(form.sizeShadeQty, form.sizeShadeQty[index].size, form.sizeShadeQty[index].shade) == index
    ensures var r := OutputQtyEdited(form, allOutputs, index, value);
      var row := r.sizeShadeQty[index];
      var others := OtherOutputs(allOutputs, OutputKeyOf(form), form.id);
      row.balanceQuantity == row.inputQuantity - FirstMatchSum(others + [r], row.size, row.shade)
  {
    var r := OutputQtyEdited(form, allOutputs, index, value);
    var row := r.sizeShadeQty[index];
    var others := OtherOutputs(allOutputs, OutputKeyOf(form), form.id);
    assert (others + [r])[..|others|] == others;
    var k := FirstRowIndex(r.sizeShadeQty, row.size, row.shade);
    assert forall j :: 0 <= j < index ==> r.sizeShadeQty[j] == form.sizeShadeQty[j];
    assert k == index;
  }

  /** Over-shipment is kept, not clamped: input 100, another output shipped 80, typing 30 leaves -10. */
  lemma NegativeBalanceKept()
    ensures var key := MatchKey("5", "H&M", "PO123", "Basic Tee", "PF001", "Black");
      var other := OutputData("OUT1", "", key.lineNumber, key.buyer, key.po, key.style, key.pf, key.color, "",
                              [OutputSizeShade("M", "A", 100, 80, 20)], 80, 20);
      var form := OutputData("OUT2", "", key.lineNumber, key.buyer, key.po, key.style, key.pf, key.color, "",
                             [OutputSizeShade("M", "A", 100, 0, 20)], 0, 20);
      OutputQtyEdited(form, [other], 0, "30").sizeShadeQty[0].balanceQuantity == -10
  {
    var key := MatchKey("5", "H&M", "PO123", "Basic Tee", "PF001", "Black");
    var other := OutputData("OUT1", "", key.lineNumber, key.buyer, key.po, key.style, key.pf, key.color, "",
                            [OutputSizeShade("M", "A", 100, 80, 20)], 80, 20);
    var form := OutputData("OUT2", "", key.lineNumber, key.buyer, key.po, key.style, key.pf, key.color, "",
                           [OutputSizeShade("M", "A", 100, 0, 20)], 0, 20);
    assert OtherOutputs([other], key, "OUT2") == [other] by {
      assert [other][1..] == [];
    }
    assert FindRow(other.sizeShadeQty, "M", "A") == Some(other.sizeShadeQty[0]);
    assert [other][..0] == [];
    assert FirstMatchSum([other], "M", "A") == 80;
    assert JsNumber.DigitsValue("30") == 30 by {
      assert "30"[..1] == "3";
      assert "3"[..0] == "";
    }
  }

  lemma {:induction false} OutputQtyUnique(rows: seq<OutputSizeShade>, size: string, shade: string)
    requires forall j :: 0 <= j < |rows| ==> '-' !in rows[j].size && '-' !in rows[j].shade
    requires '-' !in size && '-' !in shade
    requires forall i, j :: 0 <= i < j < |rows| && rows[i].size == size && rows[i].shade == shade
               ==> !(rows[j].size == size && rows[j].shade == shade)
    ensures OutputQtyFor(rows, RowKey(size, shade)) == FirstMatchQty(rows, size, shade)
    decreases |rows|
  {
    if |rows| > 0 {
      var init, last := rows[..|rows| - 1], rows[|rows| - 1];
      OutputQtyUnique(init, size, shade);
      KeyInjective(last.size, last.shade, size, shade);
      var k := FirstRowIndex(init, size, shade);
      var k' := FirstRowIndex(rows, size, shade);
      if k >= 0 {
        assert init[k] == rows[k];
        assert k' == k;
      } else if last.size == size && last.shade == shade {
        assert forall j :: 0 <= j < |init| ==> init[j] == rows[j];
        assert k' == |rows| - 1;
      } else {
        assert forall j :: 0 <= j < |init| ==> init[j] == rows[j];
        assert k' == -1;
      }
    }
  }

  /**
   * The single-edit path and autofill agree on what the others claimed when sizes and
   * shades hold no '-' and no other output lists the pair twice.
   */
  lemma {:induction false} EditClaimsAgreeWithAutoFill(others: seq<OutputData>, size: string, shade: string)
    requires '-' !in size && '-' !in shade
    requires forall o, j :: o in others && 0 <= j < |o.sizeShadeQty| ==>
               '-' !in o.sizeShadeQty[j].size && '-' !in o.sizeShadeQty[j].shade
    requires forall o, i, j :: o in others && 0 <= i < j < |o.sizeShadeQty|
               && o.sizeShadeQty[i].size == size && o.sizeShadeQty[i].shade == shade
               ==> !(o.sizeShadeQty[j].size == size && o.sizeShadeQty[j].shade == shade)
    ensures FirstMatchSum(others, size, shade) == Claimed(others, RowKey(size, shade))
    decreases |others|
  {
    if |others| > 0 {
      var init, last := others[..|others| - 1], others[|others| - 1];
      assert forall o :: o in init ==> o in others;
      EditClaimsAgreeWithAutoFill(init, size, shade);
      OutputQtyForConcat(OutputRows(init), last.sizeShadeQty, RowKey(size, shade));
      OutputQtyUnique(last.sizeShadeQty, size, shade);
    }
  }

  /** The single-edit path counts only the first matching row of another output; autofill counts all. */
  lemma EditCountsFirstRowOnly()
    ensures var rows := [OutputSizeShade("M", "A", 100, 10, 0), OutputSizeShade("M", "A", 100, 5, 0)];
      var o := OutputData("OUT1", "", "5", "H&M", "PO123", "Basic Tee", "PF001", "Black", "", rows, 15, 0);
      FirstMatchSum([o], "M", "A") == 10 && Claimed([o], RowKey("M", "A")) == 15
  {
    var rows := [OutputSizeShade("M", "A", 100, 10, 0), OutputSizeShade("M", "A", 100, 5, 0)];
    var o := OutputData("OUT1", "", "5", "H&M", "PO123", "Basic Tee", "PF001", "Black", "", rows, 15, 0);
    assert [o][..0] == [];
    assert FirstRowIndex(rows, "M", "A") == 0;
    assert OutputRows([o]) == rows;
    assert rows[..1][..0] == [];
    assert OutputQtyFor(rows[..1], RowKey("M", "A")) == 10;
  }

  // ---------------------------------------------------------------------------
  // updateQuantities
  // ---------------------------------------------------------------------------

  function OutputQuantityOf(row: OutputSizeShade): int { row.outputQuantity }
  function BalanceQuantityOf(row: OutputSizeShade): int { row.balanceQuantity }

  function TotalOutput(rows: seq<OutputSizeShade>): int { Lists.SumOf(rows, OutputQuantityOf) }
  function TotalBalance(rows: seq<OutputSizeShade>): int { Lists.SumOf(rows, BalanceQuantityOf) }

  /** The totals agree with the rows. */
  predicate TotalsConsistent(form: OutputData) {
    form.totalOutputQuantity == TotalOutput(form.sizeShadeQty)
    && form.totalBalanceQuantity == TotalBalance(form.sizeShadeQty)
  }

  /** `updateQuantities`: the two roll-ups recomputed from the rows, nothing else touched. */
  function UpdateQuantities(form: OutputData): (r: OutputData)
    ensures TotalsConsistent(r)
    ensures r.(totalOutputQuantity := form.totalOutputQuantity, totalBalanceQuantity := form.totalBalanceQuantity) == form
  {
    form.(totalOutputQuantity := TotalOutput(form.sizeShadeQty), totalBalanceQuantity := TotalBalance(form.sizeShadeQty))
  }

  /** After an edit the roll-ups move by exactly the edited row's change. */
  lemma EditMovesTotals(form: OutputData, allOutputs: seq<OutputData>, index: nat, value: string)
    requires index < |form.sizeShadeQty|
    ensures var r := UpdateQuantities(OutputQtyEdited(form, allOutputs, index, value));
      var old_row, new_row := form.sizeShadeQty[index], r.sizeShadeQty[index];
      && r.totalOutputQuantity == TotalOutput(form.sizeShadeQty) - old_row.outputQuantity + new_row.outputQuantity
      && r.totalBalanceQuantity == TotalBalance(form.sizeShadeQty) - old_row.balanceQuantity + new_row.balanceQuantity
  {
    var e := OutputQtyEdited(form, allOutputs, index, value);
    Lists.SumOfUpdate(form.sizeShadeQty, index, e.sizeShadeQty[index], OutputQuantityOf);
    Lists.SumOfUpdate(form.sizeShadeQty, index, e.sizeShadeQty[index], BalanceQuantityOf);
  }

  // ---- a worked cohort: (M,A,500),(L,A,700) and (M,A,300) ----

  const CohortFirst: InputData := InputData("IN1", "2024-01-01", "5", "H&M", "PO123", "Basic Tee", "PF001", "Black",
    "2024-01-20", [InputSizeShade("M", "A", 500), InputSizeShade("L", "A", 700)], 1200)
  const CohortSecond: InputData := InputData("IN2", "2024-01-02", "5", "H&M", "PO123", "Basic Tee", "PF001", "Black",
    "2024-01-25", [InputSizeShade("M", "A", 300)], 300)
  const NewOutput: OutputData := OutputData("OUT1", "", "5", "H&M", "PO123", "Basic Tee", "PF001", "Black", "", [], 0, 0)

  lemma CohortMatches()
    ensures MatchingInputs([CohortFirst, CohortSecond], OutputKeyOf(NewOutput)) == [CohortFirst, CohortSecond]
    ensures InputRows([CohortFirst, CohortSecond]) == CohortFirst.sizeShadeQty + CohortSecond.sizeShadeQty
  {
    var a, b, key := CohortFirst, CohortSecond, OutputKeyOf(NewOutput);
    assert [a, b][1..] == [b] && [b][1..] == [];
    assert InputKeyOf(a) == key && InputKeyOf(b) == key;
    assert MatchingInputs([b], key) == [b];
    assert [a, b][..1] == [a] && [a][..0] == [];
    assert InputRows([a]) == a.sizeShadeQty;
  }

  lemma CohortRowKeys()
    ensures InputKeys(CohortFirst.sizeShadeQty + CohortSecond.sizeShadeQty) == [RowKey("M", "A"), RowKey("L", "A"), RowKey("M", "A")]
  {
    var rows := CohortFirst.sizeShadeQty + CohortSecond.sizeShadeQty;
    assert rows[..2][..1] == [rows[0]] && [rows[0]][..0] == [];
    assert InputKeys([rows[0]]) == [RowKey("M", "A")];
    assert InputKeys(rows[..2]) == [RowKey("M", "A"), RowKey("L", "A")];
  }

  lemma CohortKeys()
    ensures var rows := CohortFirst.sizeShadeQty + CohortSecond.sizeShadeQty;
      Lists.Distinct(InputKeys(rows)) == [RowKey("M", "A"), RowKey("L", "A")]
  {
    var ma, la := RowKey("M", "A"), RowKey("L", "A");
    CohortRowKeys();
    KeyInjective("M", "A", "L", "A");
    assert [ma, la, ma][..2] == [ma, la] && [ma, la][..1] == [ma] && [ma][..0] == [];
    assert Lists.Distinct([ma]) == [ma];
    assert Lists.Distinct([ma, la]) == [ma, la];
  }

  lemma CohortSums()
    ensures var rows := CohortFirst.sizeShadeQty + CohortSecond.sizeShadeQty;
      InputQtyFor(rows, RowKey("M", "A")) == 800 && InputQtyFor(rows, RowKey("L", "A")) == 700
  {
    var rows := CohortFirst.sizeShadeQty + CohortSecond.sizeShadeQty;
    var ma, la := RowKey("M", "A"), RowKey("L", "A");
    KeyInjective("M", "A", "L", "A");
    assert rows[..2][..1] == [rows[0]] && [rows[0]][..0] == [];
    assert InputQtyFor([rows[0]], ma) == 500 && InputQtyFor([rows[0]], la) == 0;
    assert InputQtyFor(rows[..2], ma) == 500 && InputQtyFor(rows[..2], la) == 700;
  }

  lemma CohortAggregation()
    ensures MatchingInputs([CohortFirst, CohortSecond], OutputKeyOf(NewOutput)) == [CohortFirst, CohortSecond]
    ensures SeedKeys([CohortFirst, CohortSecond]) == [RowKey("M", "A"), RowKey("L", "A")]
    ensures Aggregated([CohortFirst, CohortSecond], RowKey("M", "A")) == 800
    ensures Aggregated([CohortFirst, CohortSecond], RowKey("L", "A")) == 700
  {
    CohortMatches();
    CohortKeys();
    CohortSums();
  }

  /** The cohort's seeded rows when nothing has been shipped under its key. */
  lemma CohortSeededRows()
    ensures SeededRows([CohortFirst, CohortSecond], [], None)
         == [OutputSizeShade("M", "A", 800, 0, 800), OutputSizeShade("L", "A", 700, 0, 700)]
  {
    var matching := [CohortFirst, CohortSecond];
    CohortAggregation();
    assert Claimed([], RowKey("M", "A")) == 0 && Claimed([], RowKey("L", "A")) == 0;
    KeyRoundTrip("M", "A");
    KeyRoundTrip("L", "A");
    var seeded := SeededRows(matching, [], None);
    assert seeded[0] == OutputSizeShade("M", "A", 800, 0, 800);
    assert seeded[1] == OutputSizeShade("L", "A", 700, 0, 700);
  }

  /** The cohort seeds a new output with (M,A) in 800 and (L,A) in 700, nothing shipped yet. */
  lemma CohortSeedsNewOutput()
    ensures AutoFilled(NewOutput, [CohortFirst, CohortSecond], [], None)
         == NewOutput.(sizeShadeQty := [OutputSizeShade("M", "A", 800, 0, 800), OutputSizeShade("L", "A", 700, 0, 700)],
                       sewingFinishDate := "2024-01-20")
  {
    CohortMatches();
    assert OtherOutputs([], OutputKeyOf(NewOutput), NewOutput.id) == [];
    CohortSeededRows();
  }

  /** Typing 200 for (M,A) leaves 600 outstanding there; the totals become 200 shipped and 1300 outstanding. */
  lemma CohortEdit()
    ensures var seeded := NewOutput.(sizeShadeQty := [OutputSizeShade("M", "A", 800, 0, 800), OutputSizeShade("L", "A", 700, 0, 700)],
                                     sewingFinishDate := "2024-01-20");
      var edited := UpdateQuantities(OutputQtyEdited(seeded, [], 0, "200"));
      && edited.sizeShadeQty == [OutputSizeShade("M", "A", 800, 200, 600), OutputSizeShade("L", "A", 700, 0, 700)]
      && edited.totalOutputQuantity == 200
      && edited.totalBalanceQuantity == 1300
  {
    assert JsNumber.DigitsValue("200") == 200 by {
      assert "200"[..2] == "20" && "20"[..1] == "2" && "2"[..0] == "";
    }
    assert JsNumber.NumberOrZero("200") == 200;
    assert OtherOutputs([], OutputKeyOf(NewOutput), NewOutput.id) == [];
    assert FirstMatchSum([], "M", "A") == 0;
    var edited := [OutputSizeShade("M", "A", 800, 200, 600), OutputSizeShade("L", "A", 700, 0, 700)];
    assert Lists.SumOf(edited, OutputQuantityOf) == Lists.SumOf(edited[..1], OutputQuantityOf) + OutputQuantityOf(edited[1]);
    assert Lists.SumOf(edited[..1], OutputQuantityOf) == Lists.SumOf(edited[..1][..0], OutputQuantityOf) + OutputQuantityOf(edited[0]);
    assert Lists.SumOf(edited, BalanceQuantityOf) == Lists.SumOf(edited[..1], BalanceQuantityOf) + BalanceQuantityOf(edited[1]);
    assert Lists.SumOf(edited[..1], BalanceQuantityOf) == Lists.SumOf(edited[..1][..0], BalanceQuantityOf) + BalanceQuantityOf(edited[0]);
  }

  // ---------------------------------------------------------------------------
  // uniqueInputFilters
  // ---------------------------------------------------------------------------

  /** The option lists of the six key selects. */
  datatype InputFilters = InputFilters(
    lineNumbers: seq<string>, buyers: seq<string>, pos: seq<string>,
    styles: seq<string>, pfs: seq<string>, colors: seq<string>)

  function Column(inputs: seq<InputData>, field: InputData -> string): (c: seq<string>)
    ensures |c| == |inputs| && forall i :: 0 <= i < |inputs| ==> c[i] == field(inputs[i])
  {
    seq(|inputs|, i requires 0 <= i < |inputs| => field(inputs[i]))
  }

  function LineNumberOf(i: InputData): string { i.lineNumber }
  function BuyerOf(i: InputData): string { i.buyer }
  function PoOf(i: InputData): string { i.po }
  function StyleOf(i: InputData): string { i.style }
  function PfOf(i: InputData): string { i.pf }
  function ColorOf(i: InputData): string { i.color }

  /** The six option lists: each key field's values over all inputs, de-duplicated (OutputFormModal.tsx:43-53). */
  function UniqueInputFilters(allInputs: seq<InputData>): InputFilters {
    InputFilters(
      Lists.Distinct(Column(allInputs, LineNumberOf)),
      Lists.Distinct(Column(allInputs, BuyerOf)),
      Lists.Distinct(Column(allInputs, PoOf)),
      Lists.Distinct(Column(allInputs, StyleOf)),
      Lists.Distinct(Column(allInputs, PfOf)),
      Lists.Distinct(Column(allInputs, ColorOf)))
  }

  /** Every option list is duplicate-free and offers exactly the values found in the inputs. */
  lemma FiltersOfferStoredValues(allInputs: seq<InputData>, i: nat)
    requires i < |allInputs|
    ensures var f := UniqueInputFilters(allInputs);
      && Lists.NoDuplicates(f.lineNumbers) && Lists.NoDuplicates(f.buyers) && Lists.NoDuplicates(f.pos)
      && Lists.NoDuplicates(f.styles) && Lists.NoDuplicates(f.pfs) && Lists.NoDuplicates(f.colors)
      && allInputs[i].lineNumber in f.lineNumbers && allInputs[i].buyer in f.buyers
      && allInputs[i].po in f.pos && allInputs[i].style in f.styles
      && allInputs[i].pf in f.pfs && allInputs[i].color in f.colors
  {
    assert Column(allInputs, LineNumberOf)[i] == allInputs[i].lineNumber;
    assert Column(allInputs, BuyerOf)[i] == allInputs[i].buyer;
    assert Column(allInputs, PoOf)[i] == allInputs[i].po;
    assert Column(allInputs, StyleOf)[i] == allInputs[i].style;
    assert Column(allInputs, PfOf)[i] == allInputs[i].pf;
    assert Column(allInputs, ColorOf)[i] == allInputs[i].color;
  }

  /** The six option lists, by name. */
  datatype FilterField = LineNumbers | Buyers | Pos | Styles | Pfs | Colors

  /** The input field a list offers values of. */
  function FieldOf(f: FilterField): InputData -> string {
    match f
    case LineNumbers => LineNumberOf
    case Buyers => BuyerOf
    case Pos => PoOf
    case Styles => StyleOf
    case Pfs => PfOf
    case Colors => ColorOf
  }

  function Options(filters: InputFilters, f: FilterField): seq<string> {
    match f
    case LineNumbers => filters.lineNumbers
    case Buyers => filters.buyers
    case Pos => filters.pos
    case Styles => filters.styles
    case Pfs => filters.pfs
    case Colors => filters.colors
  }

  /**
   * In each of the six lists, every offered value comes from some input, and the options
   * keep the order in which their values first appear among the inputs.
   */
  lemma FilterOptionsInOrder(allInputs: seq<InputData>, f: FilterField, a: nat, b: nat)
    requires a < b < |Lists.Distinct(Column(allInputs, FieldOf(f)))|
    ensures Options(UniqueInputFilters(allInputs), f) == Lists.Distinct(Column(allInputs, FieldOf(f)))
    ensures var col, opts := Column(allInputs, FieldOf(f)), Options(UniqueInputFilters(allInputs), f);
      && opts[a] in col && opts[b] in col
      && Lists.IndexOf(col, opts[a]) < Lists.IndexOf(col, opts[b])
  {
    Lists.DistinctFirstAppearance(Column(allInputs, FieldOf(f)), a, b);
  }
}
