/** Record shapes of the portal's database rows, the result of a query, and
    small predicates shared by the other modules. */
module Types {

  datatype Option<T> = None | Some(value: T) {
    /** The value, or `default` when there is none (JavaScript's `x || default` on a row list). */
    function GetOr(default: T): T {
      match this
      case Some(v) => v
      case None => default
    }
  }

  /** The `{ data, error }` pair that a query to the hosted database resolves to. */
  datatype QueryResult<T> = QueryResult(data: Option<seq<T>>, error: Option<string>) {
    /** The guard `!error && data` used before a result replaces component state. */
    predicate Succeeded() {
      error.None? && data.Some?
    }
  }

  /** Numbers that occur at most once. */
  predicate Distinct(xs: seq<int>)
  {
    forall i, j :: 0 <= i < j < |xs| ==> xs[i] != xs[j]
  }

  datatype Student = Student(id: string, regNo: string, name: string, cgpa: real, earnedCredits: real, arrears: int)

  datatype AttendanceRecord = AttendanceRecord(
    id: string, courseCode: string, courseName: string,
    conducted: int, attended: int,
    /** already parsed; `None` stands for a missing or empty percentage */
    percentage: Option<real>)

  datatype DayStatus = Present | Absent | OnDuty

  datatype DailyAttendance = DailyAttendance(id: string, date: string, slot: string, status: DayStatus)

  datatype GradeRecord = GradeRecord(
    id: string, semester: int, courseCode: string, courseName: string,
    credits: real, gradePoints: real, grade: string)

  datatype Course = Course(courseCode: string, courseName: string, semester: int, department: string)

  /** A row of the enrollments table joined with its course. */
  datatype Enrollment = Enrollment(course: Course)

  datatype Material = Material(id: string, title: string, kind: string, url: string, weekNumber: int)

  datatype Assignment = Assignment(id: string, title: string, deadline: string)

  datatype Quiz = Quiz(id: string, title: string, totalQuestions: int, timeLimitMinutes: int)
}
