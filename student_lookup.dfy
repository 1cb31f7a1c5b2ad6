/** The student null object: a lookup in a fixed, case-sensitive grade table
    returns a real student with the stored grade, or the null student with a
    placeholder name, grade -1 and `isNull` true. */
module StudentManagement {
  import opened Common

  /** The table filled once by the static initialiser and never written
      again. */
  function StudentDatabase(): map<string, int>
  {
    map["kamal" := 85, "sri" := 90, "john" := 78]
  }

  const NoStudentFound: string := "No Student Found"

  datatype Student = RealStudent(name: string, grade: int) | NullStudent

  function GetName(s: Student): string
  {
    match s
    case RealStudent(name, _) => name
    case NullStudent => NoStudentFound
  }

  function GetGrade(s: Student): int
  {
    match s
    case RealStudent(_, grade) => grade
    case NullStudent => -1
  }

  function IsNull(s: Student): bool
  {
    s.NullStudent?
  }

  /** `getStudent`: `containsKey`, then `get`. A null name is simply not a
      key. */
  function GetStudent(name: Option<string>): Student
  {
    if name.Some? && name.value in StudentDatabase() then
      RealStudent(name.value, StudentDatabase()[name.value])
    else NullStudent
  }

  /** A student is found exactly for a key of the table, spelled exactly;
      its getters return the name asked for and the stored grade. Otherwise
      the getters return the placeholder name, -1 and true. */
  lemma GetStudentIff(name: Option<string>)
    ensures !IsNull(GetStudent(name)) <==> name.Some? && name.value in StudentDatabase()
    ensures !IsNull(GetStudent(name)) ==>
      GetName(GetStudent(name)) == name.value
      && GetGrade(GetStudent(name)) == StudentDatabase()[name.value]
    ensures IsNull(GetStudent(name)) ==>
      GetName(GetStudent(name)) == NoStudentFound && GetGrade(GetStudent(name)) == -1
  {
  }

  /** The three students, and case sensitivity: "Kamal" is not "kamal". */
  lemma KnownStudents()
    ensures GetStudent(Some("kamal")) == RealStudent("kamal", 85)
    ensures GetStudent(Some("sri")) == RealStudent("sri", 90)
    ensures GetStudent(Some("john")) == RealStudent("john", 78)
    ensures GetStudent(Some("Kamal")) == NullStudent
    ensures GetStudent(None) == NullStudent
  {
    assert "Kamal" != "kamal" && "Kamal" != "sri" && "Kamal" != "john";
  }
}
