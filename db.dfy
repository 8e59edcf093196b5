/**
 * The record store of services/db.ts: three collections (employees, inputs, outputs)
 * kept in browser storage, each an ordered list of records with a string `id`.
 * Storage is modelled in memory; each collection's slot says what the storage key holds.
 */
module RecordStore {
  import opened Types

  /**
   * What a storage key holds: nothing usable (absent or the empty text), text that does
   * not parse, or a parsed list of records.
   */
  datatype Slot<T> = Missing | Unreadable | Stored(records: seq<T>)

  /** `getFromStorage`: a missing or unparsable collection reads as the empty list. */
  function Load<T>(slot: Slot<T>): (r: seq<T>)
    ensures slot.Missing? || slot.Unreadable? ==> r == []
    ensures slot.Stored? ==> r == slot.records
  {
    match slot
    case Stored(records) => records
    case _ => []
  }

  /** `findIndex` by id: the first position holding that id, or -1. */
  function FindIndex<T>(s: seq<T>, id: string, idOf: T -> string): (r: int)
    ensures -1 <= r < |s|
    ensures r == -1 <==> forall j :: 0 <= j < |s| ==> idOf(s[j]) != id
    ensures r >= 0 ==> idOf(s[r]) == id && forall j :: 0 <= j < r ==> idOf(s[j]) != id
  {
    if |s| == 0 then -1
    else if idOf(s[0]) == id then 0
    else
      var k := FindIndex(s[1..], id, idOf);
      assert forall j :: 1 <= j < |s| ==> s[j] == s[1..][j - 1];
      if k == -1 then -1 else k + 1
  }

  predicate HasId<T>(s: seq<T>, id: string, idOf: T -> string) {
    exists j :: 0 <= j < |s| && idOf(s[j]) == id
  }

  /** The list after saving `x`: it replaces the first record with its id, or is appended. */
  function Upsert<T>(s: seq<T>, x: T, idOf: T -> string): (r: seq<T>)
    ensures x in r
    ensures |r| == if HasId(s, idOf(x), idOf) then |s| else |s| + 1
    ensures !HasId(s, idOf(x), idOf) ==> r[..|s|] == s
  {
    var index := FindIndex(s, idOf(x), idOf);
    if index > -1 then
      assert s[index := x][index] == x;
      s[index := x]
    else
      assert (s + [x])[|s|] == x;
      s + [x]
  }

  /** The list after deleting `id`: the records with any other id, in order. */
  function Remove<T>(s: seq<T>, id: string, idOf: T -> string): (r: seq<T>)
    ensures |r| <= |s|
    decreases |s|
  {
    if |s| == 0 then []
    else
      var rest := Remove(s[..|s| - 1], id, idOf);
      if idOf(s[|s| - 1]) == id then rest else rest + [s[|s| - 1]]
  }

  // ---- Upsert ----

  /** Saving an existing id overwrites its first record, keeps the length and every other position. */
  lemma UpsertExisting<T>(s: seq<T>, x: T, idOf: T -> string)
    requires HasId(s, idOf(x), idOf)
    ensures var k := FindIndex(s, idOf(x), idOf);
      && 0 <= k < |s|
      && |Upsert(s, x, idOf)| == |s|
      && Upsert(s, x, idOf)[k] == x
      && forall j :: 0 <= j < |s| && j != k ==> Upsert(s, x, idOf)[j] == s[j]
  {
  }

  /** Saving a new id appends the record and keeps the old list as a prefix. */
  lemma UpsertNew<T>(s: seq<T>, x: T, idOf: T -> string)
    requires !HasId(s, idOf(x), idOf)
    ensures Upsert(s, x, idOf) == s + [x]
    ensures |Upsert(s, x, idOf)| == |s| + 1
  {
  }

  /** After a save, the first record found with that id is the saved record. */
  lemma UpsertThenFind<T>(s: seq<T>, x: T, idOf: T -> string)
    ensures var r := Upsert(s, x, idOf);
      var k := FindIndex(r, idOf(x), idOf);
      0 <= k < |r| && r[k] == x
  {
    var r := Upsert(s, x, idOf);
    var i := FindIndex(s, idOf(x), idOf);
    if i == -1 {
      assert r[|s|] == x;
    } else {
      assert r[i] == x;
      assert forall j :: 0 <= j < i ==> r[j] == s[j];
    }
  }

  /** Saving the same record twice gives the same list as saving it once. */
  lemma UpsertIdempotent<T>(s: seq<T>, x: T, idOf: T -> string)
    ensures Upsert(Upsert(s, x, idOf), x, idOf) == Upsert(s, x, idOf)
  {
    var r := Upsert(s, x, idOf);
    var k := FindIndex(r, idOf(x), idOf);
    UpsertThenFind(s, x, idOf);
    assert r[k := x] == r;
  }

  // ---- Remove ----

  lemma {:induction false} RemoveDropsId<T>(s: seq<T>, id: string, idOf: T -> string)
    ensures !HasId(Remove(s, id, idOf), id, idOf)
    decreases |s|
  {
    if |s| > 0 {
      RemoveDropsId(s[..|s| - 1], id, idOf);
    }
  }

  /** Deleting keeps every record with another id (and only such records). */
  lemma {:induction false} RemoveKeepsOthers<T>(s: seq<T>, id: string, idOf: T -> string, x: T)
    ensures x in Remove(s, id, idOf) <==> x in s && idOf(x) != id
    decreases |s|
  {
    if |s| > 0 {
      var init := s[..|s| - 1];
      assert s == init + [s[|s| - 1]];
      RemoveKeepsOthers(init, id, idOf, x);
    }
  }

  /** Deleting distributes over concatenation: the survivors stay in their original order. */
  lemma {:induction false} RemoveConcat<T>(a: seq<T>, b: seq<T>, id: string, idOf: T -> string)
    ensures Remove(a + b, id, idOf) == Remove(a, id, idOf) + Remove(b, id, idOf)
    decreases |b|
  {
    if |b| == 0 {
      assert a + b == a;
    } else {
      var init := b[..|b| - 1];
      assert (a + b)[..|a + b| - 1] == a + init;
      assert (a + b)[|a + b| - 1] == b[|b| - 1];
      RemoveConcat(a, init, id, idOf);
    }
  }

  /** Deleting an id no record has leaves the list unchanged. */
  lemma {:induction false} RemoveAbsent<T>(s: seq<T>, id: string, idOf: T -> string)
    requires !HasId(s, id, idOf)
    ensures Remove(s, id, idOf) == s
    decreases |s|
  {
    if |s| > 0 {
      var init := s[..|s| - 1];
      assert !HasId(init, id, idOf) by {
        forall j | 0 <= j < |init| ensures idOf(init[j]) != id { assert init[j] == s[j]; }
      }
      RemoveAbsent(init, id, idOf);
      assert idOf(s[|s| - 1]) != id;
      assert s == init + [s[|s| - 1]];
    }
  }

  /** Saving a record under a fresh id and then deleting that id restores the list. */
  lemma UpsertNewThenRemove<T>(s: seq<T>, x: T, idOf: T -> string)
    requires !HasId(s, idOf(x), idOf)
    ensures Remove(Upsert(s, x, idOf), idOf(x), idOf) == s
  {
    UpsertNew(s, x, idOf);
    assert (s + [x])[..|s|] == s;
    RemoveAbsent(s, idOf(x), idOf);
  }

  // ---- Mock data (initializeMockData) ----

  const MockEmployees: seq<Employee> := [
    Employee("EMP001", "John Doe", "Sewing Operator", "5", "2023-01-15", "01234567890",
      [EmployeeSkill("T-Shirt", "Neck Join")], "1234567890", "Richard Doe", "Jane Doe", true, "Male",
      "O+", "Dhaka", "Dhaka", "Savar", "Savar", "Savar Cantt", "Hemayetpur", ""),
    Employee("EMP002", "Jane Smith", "Quality Inspector", "3", "2022-11-20", "09876543210",
      [EmployeeSkill("Polo Shirt", "Button Attach")], "0987654321", "John Smith", "Mary Smith", false, "Female",
      "A+", "Chattogram", "Chattogram", "Pahartali", "Pahartali", "CDA Market", "AK Khan", "")
  ]

  const MockInputs: seq<InputData> := [
    InputData("INP001", "2024-07-20", "5", "H&M", "PO123", "Basic Tee", "PF001", "Black", "2024-07-30",
      [InputSizeShade("M", "A", 500), InputSizeShade("L", "A", 700)], 1200),
    InputData("INP002", "2024-07-21", "3", "Zara", "PO456", "Polo", "PF002", "White", "2024-08-05",
      [InputSizeShade("S", "B", 300), InputSizeShade("M", "B", 400)], 700)
  ]

  /** What `initializeMockData` leaves in one slot: a seed only where nothing usable is stored. */
  function Seeded<T>(slot: Slot<T>, seed: seq<T>): (r: Slot<T>)
    ensures slot.Missing? ==> r == Stored(seed)
    ensures !slot.Missing? ==> r == slot
  {
    if slot.Missing? then Stored(seed) else slot
  }

  /** The browser's storage for the three collections. */
  class Storage {
    var employees: Slot<Employee>
    var inputs: Slot<InputData>
    var outputs: Slot<OutputData>

    /** Storage as the page finds it, before the module's seeding runs. */
    constructor (employees0: Slot<Employee>, inputs0: Slot<InputData>, outputs0: Slot<OutputData>)
      ensures employees == employees0 && inputs == inputs0 && outputs == outputs0
    {
      employees, inputs, outputs := employees0, inputs0, outputs0;
    }

    /** `getEmployees`: the stored employees, or none when the key holds nothing readable. */
    function GetEmployees(): (r: seq<Employee>)
      reads this
      ensures employees.Stored? ==> r == employees.records
      ensures !employees.Stored? ==> r == []
    {
      Load(employees)
    }

    /** `getInputs`: the stored inputs, or none when the key holds nothing readable. */
    function GetInputs(): (r: seq<InputData>)
      reads this
      ensures inputs.Stored? ==> r == inputs.records
      ensures !inputs.Stored? ==> r == []
    {
      Load(inputs)
    }

    /** `getOutputs`: the stored outputs, or none when the key holds nothing readable. */
    function GetOutputs(): (r: seq<OutputData>)
      reads this
      ensures outputs.Stored? ==> r == outputs.records
      ensures !outputs.Stored? ==> r == []
    {
      Load(outputs)
    }

    /** Seeds each collection whose key holds nothing; two employees, two inputs, no outputs. */
    method InitializeMockData()
      modifies this
      ensures employees == Seeded(old(employees), MockEmployees)
      ensures inputs == Seeded(old(inputs), MockInputs)
      ensures outputs == Seeded(old(outputs), [])
    {
      if employees.Missing? {
        employees := Stored(MockEmployees);
      }
      if inputs.Missing? {
        inputs := Stored(MockInputs);
      }
      if outputs.Missing? {
        outputs := Stored([]);
      }
    }

    method SaveEmployee(employee: Employee)
      modifies this
      ensures employees == Stored(Upsert(old(GetEmployees()), employee, EmployeeId))
      ensures inputs == old(inputs) && outputs == old(outputs)
    {
      var list := GetEmployees();
      var index := FindIndex(list, employee.id, EmployeeId);
      if index > -1 {
        list := list[index := employee];
      } else {
        list := list + [employee];
      }
      employees := Stored(list);
    }

    method DeleteEmployee(employeeId: string)
      modifies this
      ensures employees == Stored(Remove(old(GetEmployees()), employeeId, EmployeeId))
      ensures inputs == old(inputs) && outputs == old(outputs)
    {
      employees := Stored(Remove(GetEmployees(), employeeId, EmployeeId));
    }

    method SaveInput(input: InputData)
      modifies this
      ensures inputs == Stored(Upsert(old(GetInputs()), input, InputId))
      ensures employees == old(employees) && outputs == old(outputs)
    {
      var list := GetInputs();
      var index := FindIndex(list, input.id, InputId);
      if index > -1 {
        list := list[index := input];
      } else {
        list := list + [input];
      }
      inputs := Stored(list);
    }

    method DeleteInput(inputId: string)
      modifies this
      ensures inputs == Stored(Remove(old(GetInputs()), inputId, InputId))
      ensures employees == old(employees) && outputs == old(outputs)
    {
      inputs := Stored(Remove(GetInputs(), inputId, InputId));
    }

    method SaveOutput(output: OutputData)
      modifies this
      ensures outputs == Stored(Upsert(old(GetOutputs()), output, OutputId))
      ensures employees == old(employees) && inputs == old(inputs)
    {
      var list := GetOutputs();
      var index := FindIndex(list, output.id, OutputId);
      if index > -1 {
        list := list[index := output];
      } else {
        list := list + [output];
      }
      outputs := Stored(list);
    }

    method DeleteOutput(outputId: string)
      modifies this
      ensures outputs == Stored(Remove(old(GetOutputs()), outputId, OutputId))
      ensures employees == old(employees) && inputs == old(inputs)
    {
      outputs := Stored(Remove(GetOutputs(), outputId, OutputId));
    }
  }
}
