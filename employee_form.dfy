/**
 * The employee form (components/modals/EmployeeFormModal.tsx): field edits on an
 * employee record and the editor for its list of skills.
 */
module EmployeeForm {
  import opened Types
  import opened Wrappers
  import Lists

  const BlankSkill: EmployeeSkill := EmployeeSkill("", "")

  /** A fresh employee: empty text, not married, gender "Male", one blank skill. */
  const DefaultEmployee: Employee :=
    Employee("", "", "", "", "", "", [BlankSkill], "", "", "", false, "Male", "", "", "", "", "", "", "", "")

  /** The text-valued fields of an employee, as the inputs' `name` attributes call them. */
  datatype TextName =
    IdNumber | FullName | Designation | LineNumber | JoinDate | Phone
    | Nid | FatherName | MotherName | Gender | BloodGroup | Division
    | District | Upazila | Thana | PostOffice | Village | Photo

  /** The text field an input's `name` attribute designates, if any. */
  function TextNameOf(name: string): (f: Option<TextName>)
    ensures f.Some? ==> FieldName(f.value) == name
  {
    if name == "id" then Some(IdNumber)
    else if name == "name" then Some(FullName)
    else if name == "designation" then Some(Designation)
    else if name == "lineNumber" then Some(LineNumber)
    else if name == "joinDate" then Some(JoinDate)
    else if name == "phone" then Some(Phone)
    else if name == "nid" then Some(Nid)
    else if name == "fatherName" then Some(FatherName)
    else if name == "motherName" then Some(MotherName)
    else if name == "gender" then Some(Gender)
    else if name == "bloodGroup" then Some(BloodGroup)
    else if name == "division" then Some(Division)
    else if name == "district" then Some(District)
    else if name == "upazila" then Some(Upazila)
    else if name == "thana" then Some(Thana)
    else if name == "postOffice" then Some(PostOffice)
    else if name == "village" then Some(Village)
    else if name == "photo" then Some(Photo)
    else None
  }

  function FieldName(f: TextName): string {
    match f
    case IdNumber => "id"
    case FullName => "name"
    case Designation => "designation"
    case LineNumber => "lineNumber"
    case JoinDate => "joinDate"
    case Phone => "phone"
    case Nid => "nid"
    case FatherName => "fatherName"
    case MotherName => "motherName"
    case Gender => "gender"
    case BloodGroup => "bloodGroup"
    case Division => "division"
    case District => "district"
    case Upazila => "upazila"
    case Thana => "thana"
    case PostOffice => "postOffice"
    case Village => "village"
    case Photo => "photo"
  }

  function TextField(e: Employee, f: TextName): string {
    match f
    case IdNumber => e.id
    case FullName => e.name
    case Designation => e.designation
    case LineNumber => e.lineNumber
    case JoinDate => e.joinDate
    case Phone => e.phone
    case Nid => e.nid
    case FatherName => e.fatherName
    case MotherName => e.motherName
    case Gender => e.gender
    case BloodGroup => e.bloodGroup
    case Division => e.division
    case District => e.district
    case Upazila => e.upazila
    case Thana => e.thana
    case PostOffice => e.postOffice
    case Village => e.village
    case Photo => e.photo
  }

  /** The record with one text-valued field replaced by `value`. */
  function SetTextField(e: Employee, f: TextName, value: string): Employee {
    match f
    case IdNumber => e.(id := value)
    case FullName => e.(name := value)
    case Designation => e.(designation := value)
    case LineNumber => e.(lineNumber := value)
    case JoinDate => e.(joinDate := value)
    case Phone => e.(phone := value)
    case Nid => e.(nid := value)
    case FatherName => e.(fatherName := value)
    case MotherName => e.(motherName := value)
    case Gender => e.(gender := value)
    case BloodGroup => e.(bloodGroup := value)
    case Division => e.(division := value)
    case District => e.(district := value)
    case Upazila => e.(upazila := value)
    case Thana => e.(thana := value)
    case PostOffice => e.(postOffice := value)
    case Village => e.(village := value)
    case Photo => e.(photo := value)
  }

  /** The record with the one boolean field replaced by `checked`. */
  function SetFlagField(e: Employee, name: string, checked: bool): Employee {
    if name == "isMarried" then e.(isMarried := checked) else e
  }

  /** The parts of a change event the handler reads. */
  datatype ChangeTarget = ChangeTarget(name: string, value: string, inputType: string, checked: bool)

  /** `handleChange`: a checkbox stores its `checked` flag, every other input its text value. */
  function HandleChange(e: Employee, target: ChangeTarget): Employee {
    if target.inputType == "checkbox" then SetFlagField(e, target.name, target.checked)
    else match TextNameOf(target.name)
      case Some(f) => SetTextField(e, f, target.value)
      case None => e
  }

  /** Setting one text field leaves every other text field as it was. */
  lemma SetTextFieldFrame(e: Employee, f: TextName, value: string, g: TextName)
    ensures TextField(SetTextField(e, f, value), g) == if g == f then value else TextField(e, g)
  {
    match f
    case IdNumber =>
    case FullName =>
    case Designation =>
    case LineNumber =>
    case JoinDate =>
    case Phone =>
    case Nid =>
    case FatherName =>
    case MotherName =>
    case Gender =>
    case BloodGroup =>
    case Division =>
    case District =>
    case Upazila =>
    case Thana =>
    case PostOffice =>
    case Village =>
    case Photo =>
  }

  /** Setting a text field leaves the flag and the skills alone. */
  lemma SetTextFieldKeepsRest(e: Employee, f: TextName, value: string)
    ensures SetTextField(e, f, value).isMarried == e.isMarried
    ensures SetTextField(e, f, value).skills == e.skills
  {
    match f
    case IdNumber =>
    case FullName =>
    case Designation =>
    case LineNumber =>
    case JoinDate =>
    case Phone =>
    case Nid =>
    case FatherName =>
    case MotherName =>
    case Gender =>
    case BloodGroup =>
    case Division =>
    case District =>
    case Upazila =>
    case Thana =>
    case PostOffice =>
    case Village =>
    case Photo =>
  }

  /** A text input sets exactly the named field; every other field, the flag and the skills stay. */
  lemma HandleChangeText(e: Employee, target: ChangeTarget, f: TextName)
    requires target.inputType != "checkbox" && TextNameOf(target.name) == Some(f)
    ensures var r := HandleChange(e, target);
      && TextField(r, f) == target.value
      && (forall g :: g != f ==> TextField(r, g) == TextField(e, g))
      && r.isMarried == e.isMarried && r.skills == e.skills
  {
    var r := HandleChange(e, target);
    assert r == SetTextField(e, f, target.value);
    forall g ensures TextField(r, g) == if g == f then target.value else TextField(e, g) {
      SetTextFieldFrame(e, f, target.value, g);
    }
    SetTextFieldKeepsRest(e, f, target.value);
  }

  /** A checkbox sets the flag to `checked` and leaves every text field and the skills alone. */
  lemma HandleChangeCheckbox(e: Employee, target: ChangeTarget)
    requires target.inputType == "checkbox" && target.name == "isMarried"
    ensures var r := HandleChange(e, target);
      && r.isMarried == target.checked
      && (forall g :: TextField(r, g) == TextField(e, g))
      && r.skills == e.skills
  {
  }

  /** One field of a skill after an edit. */
  function SetSkillField(skill: EmployeeSkill, name: string, value: string): EmployeeSkill {
    if name == "item" then skill.(item := value)
    else if name == "process" then skill.(process := value)
    else skill
  }

  /** `handleSkillChange(index, e)`: only the skill at `index` changes, and only its named field. */
  function HandleSkillChange(e: Employee, index: nat, name: string, value: string): (r: Employee)
    requires index < |e.skills|
    ensures |r.skills| == |e.skills|
    ensures forall j :: 0 <= j < |e.skills| && j != index ==> r.skills[j] == e.skills[j]
    ensures name == "item" ==> r.skills[index] == e.skills[index].(item := value)
    ensures name == "process" ==> r.skills[index] == e.skills[index].(process := value)
    ensures name != "item" && name != "process" ==> r.skills[index] == e.skills[index]
    ensures r.(skills := e.skills) == e
  {
    e.(skills := e.skills[index := SetSkillField(e.skills[index], name, value)])
  }

  /** `addSkill`: one blank skill at the end. */
  function AddSkill(e: Employee): (r: Employee)
    ensures |r.skills| == |e.skills| + 1
    ensures r.skills[..|e.skills|] == e.skills && r.skills[|e.skills|] == BlankSkill
    ensures r.(skills := e.skills) == e
  {
    e.(skills := e.skills + [BlankSkill])
  }

  /** `removeSkill(index)`: filters out position `index`, but never the last remaining skill. */
  function RemoveSkill(e: Employee, index: int): (r: Employee)
    ensures |e.skills| <= 1 ==> r == e
    ensures |e.skills| > 1 ==> r.skills == Lists.RemoveAt(e.skills, index)
    ensures |e.skills| >= 1 ==> |r.skills| >= 1
    ensures r.(skills := e.skills) == e
  {
    if |e.skills| > 1 then e.(skills := Lists.RemoveAt(e.skills, index)) else e
  }

  /** The skill editors of the form, as a user can apply them one after another. */
  datatype SkillEdit = AddOne | RemoveOne(index: int) | ChangeOne(index: int, name: string, value: string)

  function ApplySkillEdit(e: Employee, edit: SkillEdit): Employee {
    match edit
    case AddOne => AddSkill(e)
    case RemoveOne(i) => RemoveSkill(e, i)
    case ChangeOne(i, name, value) =>
      if 0 <= i < |e.skills| then HandleSkillChange(e, i, name, value) else e
  }

  function ApplySkillEdits(e: Employee, edits: seq<SkillEdit>): Employee
    decreases |edits|
  {
    if |edits| == 0 then e else ApplySkillEdits(ApplySkillEdit(e, edits[0]), edits[1..])
  }

  /** The skills list starts with one entry and no sequence of skill edits empties it. */
  lemma {:induction false} SkillsNeverEmpty(e: Employee, edits: seq<SkillEdit>)
    requires |e.skills| >= 1
    ensures |ApplySkillEdits(e, edits).skills| >= 1
    decreases |edits|
  {
    if |edits| > 0 {
      SkillsNeverEmpty(ApplySkillEdit(e, edits[0]), edits[1..]);
    }
  }

  lemma FreshEmployeeKeepsASkill()
    ensures DefaultEmployee.skills == [BlankSkill]
    ensures forall edits :: |ApplySkillEdits(DefaultEmployee, edits).skills| >= 1
  {
    forall edits { SkillsNeverEmpty(DefaultEmployee, edits); }
  }
}
