/** The learning-management pages: the enrolled-course list with its course
    selection, and the course view whose materials are shown week by week. */
module Lms {
  import opened Types

  /** The materials of one week, in the order they were fetched. */
  function MaterialsOfWeek(ms: seq<Material>, week: int): (r: seq<Material>)
    ensures forall i :: 0 <= i < |r| ==> r[i].weekNumber == week
    ensures |r| <= |ms|
  {
    if ms == [] then []
    else (if ms[0].weekNumber == week then [ms[0]] else []) + MaterialsOfWeek(ms[1..], week)
  }

  /** A week's materials hold each fetched material of that week as often as
      it was fetched, and nothing else. */
  lemma {:induction false} MaterialsOfWeekCount(ms: seq<Material>, week: int, m: Material)
    ensures multiset(MaterialsOfWeek(ms, week))[m] == if m.weekNumber == week then multiset(ms)[m] else 0
    decreases |ms|
  {
    if ms != [] {
      assert ms == [ms[0]] + ms[1..];
      MaterialsOfWeekCount(ms[1..], week, m);
    }
  }

  /** Picking a week's materials keeps their order: it commutes with concatenation. */
  lemma {:induction false} MaterialsOfWeekAppend(a: seq<Material>, b: seq<Material>, week: int)
    ensures MaterialsOfWeek(a + b, week) == MaterialsOfWeek(a, week) + MaterialsOfWeek(b, week)
    decreases |a|
  {
    if a != [] {
      assert (a + b)[1..] == a[1..] + b;
      MaterialsOfWeekAppend(a[1..], b, week);
    } else {
      assert a + b == b;
    }
  }

  /** The heading and the materials of one week. */
  datatype WeekGroup = WeekGroup(week: int, items: seq<Material>)

  /** The week numbers of the groups, in order. */
  function WeeksOf(groups: seq<WeekGroup>): seq<int>
  {
    if groups == [] then [] else [groups[0].week] + WeeksOf(groups[1..])
  }

  /** A group for each of `weeks` that has materials, in the order of `weeks`. */
  function GroupWeeks(ms: seq<Material>, weeks: seq<int>): (groups: seq<WeekGroup>)
    ensures forall i :: 0 <= i < |groups| ==>
      groups[i].items == MaterialsOfWeek(ms, groups[i].week) && groups[i].items != []
    ensures forall w :: w in WeeksOf(groups) <==> w in weeks && MaterialsOfWeek(ms, w) != []
    ensures |groups| <= |weeks|
  {
    if weeks == [] then []
    else
      var items := MaterialsOfWeek(ms, weeks[0]);
      var rest := GroupWeeks(ms, weeks[1..]);
      if items == [] then rest else [WeekGroup(weeks[0], items)] + rest
  }

  /** Strictly increasing numbers. */
  predicate Ascending(xs: seq<int>)
  {
    forall i, j :: 0 <= i < j < |xs| ==> xs[i] < xs[j]
  }

  /** Groups built along ascending weeks come out in ascending week order. */
  lemma {:induction false} GroupWeeksAscending(ms: seq<Material>, weeks: seq<int>)
    requires Ascending(weeks)
    ensures Ascending(WeeksOf(GroupWeeks(ms, weeks)))
    decreases |weeks|
  {
    if weeks != [] {
      var rest := GroupWeeks(ms, weeks[1..]);
      assert Ascending(weeks[1..]);
      GroupWeeksAscending(ms, weeks[1..]);
      var items := MaterialsOfWeek(ms, weeks[0]);
      if items != [] {
        var groups := [WeekGroup(weeks[0], items)] + rest;
        assert groups[1..] == rest;
        forall j | 0 < j < |WeeksOf(groups)|
          ensures WeeksOf(groups)[0] < WeeksOf(groups)[j]
        {
          assert WeeksOf(groups)[j] in WeeksOf(rest);
        }
      }
    }
  }

  /** The week groups of the materials tab: weeks 1 to 4, empty weeks skipped. */
  function WeekGroups(ms: seq<Material>): (groups: seq<WeekGroup>)
    ensures Ascending(WeeksOf(groups))
    ensures forall w :: w in WeeksOf(groups) <==> 1 <= w <= 4 && MaterialsOfWeek(ms, w) != []
    ensures forall i :: 0 <= i < |groups| ==>
      groups[i].items == MaterialsOfWeek(ms, groups[i].week) && groups[i].items != []
  {
    var weeks := [1, 2, 3, 4];
    assert forall w :: w in weeks <==> 1 <= w <= 4;
    GroupWeeksAscending(ms, weeks);
    GroupWeeks(ms, weeks)
  }

  /** The materials on the page, group after group. */
  function Displayed(groups: seq<WeekGroup>): seq<Material>
  {
    if groups == [] then [] else groups[0].items + Displayed(groups[1..])
  }

  /** Along distinct weeks, a material is displayed as often as it was fetched
      when its week is one of them, and never otherwise. */
  lemma {:induction false} DisplayedCounts(ms: seq<Material>, weeks: seq<int>, m: Material)
    requires Distinct(weeks)
    ensures multiset(Displayed(GroupWeeks(ms, weeks)))[m] ==
      if m.weekNumber in weeks then multiset(ms)[m] else 0
    decreases |weeks|
  {
    if weeks != [] {
      var w, rest := weeks[0], weeks[1..];
      assert Distinct(rest);
      assert w !in rest by {
        forall k | 0 <= k < |rest| ensures rest[k] != w {
          assert rest[k] == weeks[k + 1];
        }
      }
      assert forall x :: x in weeks <==> x == w || x in rest;
      DisplayedCounts(ms, rest, m);
      var items := MaterialsOfWeek(ms, w);
      var tail := GroupWeeks(ms, rest);
      if items != [] {
        var groups := [WeekGroup(w, items)] + tail;
        assert groups[1..] == tail;
        assert Displayed(groups) == items + Displayed(tail);
      }
      MaterialsOfWeekCount(ms, w, m);
    }
  }

  /** The week numbers of the groups, one per group, at the same positions. */
  lemma {:induction false} WeeksOfIndex(groups: seq<WeekGroup>)
    ensures |WeeksOf(groups)| == |groups|
    ensures forall i :: 0 <= i < |groups| ==> WeeksOf(groups)[i] == groups[i].week
    decreases |groups|
  {
    if groups != [] {
      WeeksOfIndex(groups[1..]);
    }
  }

  /** Materials outside weeks 1 to 4 are never displayed; every other material
      is displayed exactly as often as it was fetched, all in one group. */
  lemma DisplayedMaterials(ms: seq<Material>, m: Material)
    ensures multiset(Displayed(WeekGroups(ms)))[m] == if 1 <= m.weekNumber <= 4 then multiset(ms)[m] else 0
    ensures forall i, j ::
      (0 <= i < |WeekGroups(ms)| && 0 <= j < |WeekGroups(ms)| &&
       m in WeekGroups(ms)[i].items && m in WeekGroups(ms)[j].items) ==> i == j
  {
    var weeks := [1, 2, 3, 4];
    assert Distinct(weeks);
    assert m.weekNumber in weeks <==> 1 <= m.weekNumber <= 4;
    var groups := WeekGroups(ms);
    assert groups == GroupWeeks(ms, weeks);
    DisplayedCounts(ms, weeks, m);
    WeeksOfIndex(groups);
    forall i, j | 0 <= i < |groups| && 0 <= j < |groups| && m in groups[i].items && m in groups[j].items
      ensures i == j
    {
      var a :| 0 <= a < |groups[i].items| && groups[i].items[a] == m;
      var b :| 0 <= b < |groups[j].items| && groups[j].items[b] == m;
      assert WeeksOf(groups)[i] == m.weekNumber == WeeksOf(groups)[j];
    }
  }

  /** What the course list shows. */
  datatype DashboardScreen = CoursesLoading | CourseList(courses: seq<Course>) | CourseScreen(course: Course)

  /** The state of the enrolled-course list. */
  class LmsDashboard {
    var courses: seq<Course>
    var loading: bool
    var selectedCourse: Option<Course>

    /** The list as first mounted: loading, no courses, nothing selected. */
    constructor()
      ensures courses == [] && loading && selectedCourse == None
    {
      courses := [];
      loading := true;
      selectedCourse := None;
    }

    /** fetchCourses: the enrolled courses replace the list only when the
        query has no error and returned rows; loading ends false either way. */
    method FetchCourses(result: QueryResult<Enrollment>)
      modifies this
      ensures result.Succeeded() ==>
        |courses| == |result.data.value| &&
        forall i :: 0 <= i < |courses| ==> courses[i] == result.data.value[i].course
      ensures !result.Succeeded() ==> courses == old(courses)
      ensures !loading && selectedCourse == old(selectedCourse)
    {
      loading := true;
      if result.Succeeded() {
        var rows := result.data.value;
        courses := seq(|rows|, i requires 0 <= i < |rows| => rows[i].course);
      }
      loading := false;
    }

    /** A click on a course card. */
    method SelectCourse(course: Course)
      modifies this
      ensures selectedCourse == Some(course)
      ensures courses == old(courses) && loading == old(loading)
    {
      selectedCourse := Some(course);
    }

    /** The course view's Back button. */
    method Back()
      modifies this
      ensures selectedCourse == None
      ensures courses == old(courses) && loading == old(loading)
    {
      selectedCourse := None;
    }

    /** The spinner while loading, then the selected course's view, or the list. */
    function Screen(): (s: DashboardScreen)
      reads this
      ensures loading ==> s == CoursesLoading
      ensures !loading && selectedCourse.Some? ==> s == CourseScreen(selectedCourse.value)
      ensures !loading && selectedCourse == None ==> s == CourseList(courses)
    {
      if loading then CoursesLoading
      else if selectedCourse.Some? then CourseScreen(selectedCourse.value)
      else CourseList(courses)
    }
  }

  /** After the courses load, selecting one shows its view, and Back shows the
      loaded list again. */
  method SelectThenBack(enrollments: seq<Enrollment>, course: Course)
    returns (selected: DashboardScreen, back: DashboardScreen)
    ensures selected == CourseScreen(course)
    ensures back.CourseList? && |back.courses| == |enrollments|
    ensures forall i :: 0 <= i < |enrollments| ==> back.courses[i] == enrollments[i].course
  {
    var dashboard := new LmsDashboard();
    dashboard.FetchCourses(QueryResult(Some(enrollments), None));
    dashboard.SelectCourse(course);
    selected := dashboard.Screen();
    dashboard.Back();
    back := dashboard.Screen();
  }

  datatype CourseTab = MaterialsTab | AssignmentsTab | QuizzesTab

  /** What the course view's panel shows. */
  datatype CoursePanel =
    | PanelLoading
    | Weeks(groups: seq<WeekGroup>)
    | Assignments(assignments: seq<Assignment>)
    | Quizzes(quizzes: seq<Quiz>)

  /** The state of one course's view. */
  class CourseView {
    var activeTab: CourseTab
    var materials: seq<Material>
    var assignments: seq<Assignment>
    var quizzes: seq<Quiz>
    var loading: bool

    /** The view as first mounted: on the materials tab, loading, nothing fetched. */
    constructor()
      ensures activeTab == MaterialsTab && loading
      ensures materials == [] && assignments == [] && quizzes == []
    {
      activeTab := MaterialsTab;
      materials, assignments, quizzes := [], [], [];
      loading := true;
    }

    /** fetchData: each list takes its query's rows, or none when the query
        returned no data; a query's error is not looked at. */
    method FetchData(matRes: QueryResult<Material>, asgnRes: QueryResult<Assignment>, quizRes: QueryResult<Quiz>)
      modifies this
      ensures materials == matRes.data.GetOr([])
      ensures assignments == asgnRes.data.GetOr([])
      ensures quizzes == quizRes.data.GetOr([])
      ensures !loading && activeTab == old(activeTab)
    {
      loading := true;
      materials := matRes.data.GetOr([]);
      assignments := asgnRes.data.GetOr([]);
      quizzes := quizRes.data.GetOr([]);
      loading := false;
    }

    /** A click on one of the tab buttons. */
    method SetTab(tab: CourseTab)
      modifies this
      ensures activeTab == tab
      ensures materials == old(materials) && assignments == old(assignments)
      ensures quizzes == old(quizzes) && loading == old(loading)
    {
      activeTab := tab;
    }

    /** The spinner while loading, otherwise the active tab's contents. */
    function Panel(): (p: CoursePanel)
      reads this
      ensures loading ==> p == PanelLoading
      ensures !loading && activeTab == MaterialsTab ==>
        p.Weeks? && p.groups == WeekGroups(materials) &&
        (forall w :: w in WeeksOf(p.groups) <==> 1 <= w <= 4 && MaterialsOfWeek(materials, w) != [])
      ensures !loading && activeTab == AssignmentsTab ==> p == Assignments(assignments)
      ensures !loading && activeTab == QuizzesTab ==> p == Quizzes(quizzes)
    {
      if loading then PanelLoading
      else match activeTab
        case MaterialsTab => Weeks(WeekGroups(materials))
        case AssignmentsTab => Assignments(assignments)
        case QuizzesTab => Quizzes(quizzes)
    }
  }

  /** After a course's data loads, the materials tab shows one group per week
      from 1 to 4 that has materials, holding exactly that week's materials. */
  method OpenCourse(matRes: QueryResult<Material>, asgnRes: QueryResult<Assignment>, quizRes: QueryResult<Quiz>)
    returns (panel: CoursePanel)
    ensures panel.Weeks?
    ensures forall w :: w in WeeksOf(panel.groups) <==>
      1 <= w <= 4 && MaterialsOfWeek(matRes.data.GetOr([]), w) != []
    ensures Ascending(WeeksOf(panel.groups))
  {
    var view := new CourseView();
    view.FetchData(matRes, asgnRes, quizRes);
    panel := view.Panel();
  }
}
