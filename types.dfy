/**
 * The records of the garment-factory application (types.ts).
 * Quantities are mathematical integers; strings are sequences of characters.
 */
module Types {

  datatype EmployeeSkill = EmployeeSkill(item: string, process: string)

  /** An employee record. `gender` stays a string: at run time the form stores whatever the select offers. */
  datatype Employee = Employee(
    id: string,
    name: string,
    designation: string,
    lineNumber: string,
    joinDate: string,
    phone: string,
    skills: seq<EmployeeSkill>,
    nid: string,
    fatherName: string,
    motherName: string,
    isMarried: bool,
    gender: string,
    bloodGroup: string,
    division: string,
    district: string,
    upazila: string,
    thana: string,
    postOffice: string,
    village: string,
    photo: string)

  /** One size/shade line of a production input. */
  datatype InputSizeShade = InputSizeShade(size: string, shade: string, quantity: int)

  datatype InputData = InputData(
    id: string,
    date: string,
    lineNumber: string,
    buyer: string,
    po: string,
    style: string,
    pf: string,
    color: string,
    sewingFinishDate: string,
    sizeShadeQty: seq<InputSizeShade>,
    totalQuantity: int)

  /** One size/shade line of an output: what came in, what this record ships, what remains. */
  datatype OutputSizeShade = OutputSizeShade(
    size: string,
    shade: string,
    inputQuantity: int,
    outputQuantity: int,
    balanceQuantity: int)

  datatype OutputData = OutputData(
    id: string,
    date: string,
    lineNumber: string,
    buyer: string,
    po: string,
    style: string,
    pf: string,
    color: string,
    sewingFinishDate: string,
    sizeShadeQty: seq<OutputSizeShade>,
    totalOutputQuantity: int,
    totalBalanceQuantity: int)

  /** The six fields that identify a production cohort. */
  datatype MatchKey = MatchKey(lineNumber: string, buyer: string, po: string, style: string, pf: string, color: string)

  function InputKeyOf(i: InputData): MatchKey {
    MatchKey(i.lineNumber, i.buyer, i.po, i.style, i.pf, i.color)
  }

  function OutputKeyOf(o: OutputData): MatchKey {
    MatchKey(o.lineNumber, o.buyer, o.po, o.style, o.pf, o.color)
  }

  function EmployeeId(e: Employee): string { e.id }
  function InputId(i: InputData): string { i.id }
  function OutputId(o: OutputData): string { o.id }
}
