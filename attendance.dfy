/** The attendance view: the course list loaded on mount, and the daily log of
    at most one expanded course. */
module Attendance {
  import opened Types

  /** The state of the attendance view. */
  class AttendanceView {
    var data: seq<AttendanceRecord>
    var loading: bool
    /** the course whose daily log is open, if any */
    var expandedCourse: Option<string>
    var dailyData: seq<DailyAttendance>
    var loadingDaily: bool

    /** The view as first mounted: loading, nothing fetched, nothing expanded. */
    constructor()
      ensures data == [] && loading
      ensures expandedCourse == None && dailyData == [] && !loadingDaily
    {
      data := [];
      loading := true;
      expandedCourse := None;
      dailyData := [];
      loadingDaily := false;
    }

    /** Whether the daily log of `course` is open. */
    predicate IsExpanded(course: string)
      reads this
    {
      expandedCourse == Some(course)
    }

    /** fetchData: the course rows replace `data` only when the query has no
        error and returned rows; loading ends false either way. */
    method FetchData(result: QueryResult<AttendanceRecord>)
      modifies this
      ensures result.Succeeded() ==> data == result.data.value
      ensures !result.Succeeded() ==> data == old(data)
      ensures !loading
      ensures expandedCourse == old(expandedCourse) && dailyData == old(dailyData)
      ensures loadingDaily == old(loadingDaily)
    {
      loading := true;
      if result.Succeeded() {
        data := result.data.value;
      }
      loading := false;
    }

    /** The synchronous part of toggleExpand, up to the daily-log query. On the
        open course it closes the log and returns without querying; on any other
        course it opens that one alone and starts loading its log. */
    method StartToggle(courseCode: string) returns (fetching: bool)
      modifies this
      ensures fetching <==> old(expandedCourse) != Some(courseCode)
      ensures !fetching ==> expandedCourse == None && loadingDaily == old(loadingDaily)
      ensures fetching ==> expandedCourse == Some(courseCode) && loadingDaily
      ensures forall c :: IsExpanded(c) ==> c == courseCode
      ensures dailyData == old(dailyData) && data == old(data) && loading == old(loading)
    {
      if expandedCourse == Some(courseCode) {
        expandedCourse := None;
        return false;
      }
      expandedCourse := Some(courseCode);
      loadingDaily := true;
      return true;
    }

    /** The part of toggleExpand after the daily-log query answers: its rows
        on success, no rows on an error or missing data; loading ends. */
    method FinishDailyFetch(result: QueryResult<DailyAttendance>)
      modifies this
      ensures result.Succeeded() ==> dailyData == result.data.value
      ensures !result.Succeeded() ==> dailyData == []
      ensures !loadingDaily
      ensures expandedCourse == old(expandedCourse) && data == old(data) && loading == old(loading)
    {
      if result.Succeeded() {
        dailyData := result.data.value;
      } else {
        dailyData := [];
      }
      loadingDaily := false;
    }

    /** toggleExpand with the answer its daily-log query would get. */
    method ToggleExpand(courseCode: string, daily: QueryResult<DailyAttendance>)
      modifies this
      ensures old(expandedCourse) == Some(courseCode) ==>
        expandedCourse == None && dailyData == old(dailyData) && loadingDaily == old(loadingDaily)
      ensures old(expandedCourse) != Some(courseCode) ==>
        expandedCourse == Some(courseCode) && !loadingDaily &&
        dailyData == (if daily.Succeeded() then daily.data.value else [])
      ensures forall c :: IsExpanded(c) ==> c == courseCode
      ensures data == old(data) && loading == old(loading)
    {
      var fetching := StartToggle(courseCode);
      if fetching {
        FinishDailyFetch(daily);
      }
    }
  }

  /** From a fresh view, toggling the same course twice closes it again, and
      the log shown in between is the one fetched. */
  method ToggleTwice(courseCode: string, daily: QueryResult<DailyAttendance>)
    returns (openedLog: seq<DailyAttendance>, expandedBetween: Option<string>, expandedAfter: Option<string>)
    ensures expandedBetween == Some(courseCode)
    ensures openedLog == if daily.Succeeded() then daily.data.value else []
    ensures expandedAfter == None
  {
    var view := new AttendanceView();
    view.ToggleExpand(courseCode, daily);
    openedLog, expandedBetween := view.dailyData, view.expandedCourse;
    view.ToggleExpand(courseCode, daily);
    expandedAfter := view.expandedCourse;
  }

  /** A load that fails leaves the fresh view's course list empty. */
  method FailedLoad(error: string, rows: Option<seq<AttendanceRecord>>)
    returns (data: seq<AttendanceRecord>, loading: bool)
    ensures data == [] && !loading
  {
    var view := new AttendanceView();
    view.FetchData(QueryResult(rows, Some(error)));
    data, loading := view.data, view.loading;
  }
}
