/** The credit-weighted grade-point averages of the grade report: SGPA per
    semester, CGPA overall, and where a semester summary row is shown. */
module Grades {
  import opened Types
  import opened Numbers

  /** The credits of a grade row. */
  function Credits(g: GradeRecord): real { g.credits }

  /** The credit-weighted points of a grade row: credits times grade points. */
  function Points(g: GradeRecord): real { g.credits * g.gradePoints }

  /** The sum of `w` over `rows`. */
  function Total(rows: seq<GradeRecord>, w: GradeRecord -> real): real
  {
    if rows == [] then 0.0 else Total(rows[..|rows| - 1], w) + w(rows[|rows| - 1])
  }

  /** The rows of semester `s`, in their original order. */
  function InSemester(rows: seq<GradeRecord>, s: int): seq<GradeRecord>
  {
    if rows == [] then []
    else
      var init := InSemester(rows[..|rows| - 1], s);
      if rows[|rows| - 1].semester == s then init + [rows[|rows| - 1]] else init
  }

  /** The semesters for which the grade list has rows. */
  function Semesters(rows: seq<GradeRecord>): set<int>
  {
    if rows == [] then {} else Semesters(rows[..|rows| - 1]) + {rows[|rows| - 1].semester}
  }

  lemma TotalSnoc(rows: seq<GradeRecord>, g: GradeRecord, w: GradeRecord -> real)
    ensures Total(rows + [g], w) == Total(rows, w) + w(g)
  {
    assert (rows + [g])[..|rows|] == rows;
  }

  lemma InSemesterSnoc(rows: seq<GradeRecord>, g: GradeRecord, s: int)
    ensures InSemester(rows + [g], s) == if g.semester == s then InSemester(rows, s) + [g] else InSemester(rows, s)
  {
    assert (rows + [g])[..|rows|] == rows;
  }

  lemma SemestersSnoc(rows: seq<GradeRecord>, g: GradeRecord)
    ensures Semesters(rows + [g]) == Semesters(rows) + {g.semester}
  {
    assert (rows + [g])[..|rows|] == rows;
  }

  /** A semester has an entry exactly when at least one row carries it. */
  lemma {:induction false} SemesterIffRow(rows: seq<GradeRecord>, s: int)
    ensures s in Semesters(rows) <==> exists i :: 0 <= i < |rows| && rows[i].semester == s
    decreases |rows|
  {
    if rows != [] {
      var init := rows[..|rows| - 1];
      SemesterIffRow(init, s);
      if s in Semesters(init) {
        var i :| 0 <= i < |init| && init[i].semester == s;
        assert rows[i].semester == s;
      }
      if exists i :: 0 <= i < |rows| && rows[i].semester == s {
        var i :| 0 <= i < |rows| && rows[i].semester == s;
        if i < |init| {
          assert init[i].semester == s;
        }
      }
    }
  }

  /** The rows of semester `s` are rows of the list that carry semester `s`,
      and every such row is among them. */
  lemma {:induction false} InSemesterMembers(rows: seq<GradeRecord>, s: int)
    ensures forall g :: g in InSemester(rows, s) <==> g in rows && g.semester == s
    decreases |rows|
  {
    if rows != [] {
      var init := rows[..|rows| - 1];
      assert rows == init + [rows[|rows| - 1]];
      InSemesterMembers(init, s);
    }
  }

  /** A semester without an entry has no rows to sum. */
  lemma NoRowsOutsideSemesters(rows: seq<GradeRecord>, s: int)
    requires s !in Semesters(rows)
    ensures InSemester(rows, s) == []
  {
    SemesterIffRow(rows, s);
    InSemesterMembers(rows, s);
  }

  /** A grade-point average from its totals: 0 unless the credit total is
      positive, and otherwise the credit-weighted mean rounded to two decimals,
      that is within 0.005 of it and a whole number of hundredths. */
  function Gpa(totalPoints: real, totalCredits: real): (r: real)
    ensures totalCredits <= 0.0 ==> r == 0.0
    ensures totalCredits > 0.0 ==>
      var mean := totalPoints / totalCredits;
      mean - 0.005 <= r <= mean + 0.005 && (r * 100.0).Floor as real == r * 100.0
  {
    if totalCredits > 0.0 then ToFixed2(totalPoints / totalCredits) else 0.0
  }

  datatype SemStat = SemStat(totalPoints: real, totalCredits: real, sgpa: real)

  datatype Stats = Stats(semStats: map<int, SemStat>, cgpa: real, grandTotalCredits: real)

  /** The entry of semester `s`: the totals over exactly that semester's rows
      and the SGPA derived from them. */
  function SemesterStat(rows: seq<GradeRecord>, s: int): SemStat
  {
    var own := InSemester(rows, s);
    SemStat(Total(own, Points), Total(own, Credits), Gpa(Total(own, Points), Total(own, Credits)))
  }

  /** calculateStats: one pass accumulating the per-semester and grand totals,
      then a pass over the semester entries setting each SGPA. */
  method CalculateStats(grades: seq<GradeRecord>) returns (stats: Stats)
    ensures stats.semStats.Keys == Semesters(grades)
    ensures forall s :: s in stats.semStats ==> stats.semStats[s] == SemesterStat(grades, s)
    ensures stats.grandTotalCredits == Total(grades, Credits)
    ensures stats.cgpa == Gpa(Total(grades, Points), Total(grades, Credits))
  {
    var accumulated, grandTotalPoints, grandTotalCredits := AccumulateTotals(grades);
    AccumulationEntries(grades);
    var semStats := SetSgpas(accumulated);
    var cgpa := Gpa(grandTotalPoints, grandTotalCredits);
    stats := Stats(semStats, cgpa, grandTotalCredits);
  }

  /** The first pass of calculateStats over the grade rows. */
  method AccumulateTotals(grades: seq<GradeRecord>)
    returns (semStats: map<int, SemStat>, grandTotalPoints: real, grandTotalCredits: real)
    ensures semStats == Accumulation(grades)
    ensures grandTotalPoints == Total(grades, Points)
    ensures grandTotalCredits == Total(grades, Credits)
  {
    semStats, grandTotalPoints, grandTotalCredits := map[], 0.0, 0.0;
    var i := 0;
    while i < |grades|
      invariant 0 <= i <= |grades|
      invariant semStats == Accumulation(grades[..i])
      invariant grandTotalPoints == Total(grades[..i], Points)
      invariant grandTotalCredits == Total(grades[..i], Credits)
    {
      var g := grades[i];
      ghost var before := semStats;
      if g.semester !in semStats {
        semStats := semStats[g.semester := SemStat(0.0, 0.0, 0.0)];
      }
      var points := Points(g);
      var entry := semStats[g.semester];
      semStats := semStats[g.semester := entry.(totalPoints := entry.totalPoints + points,
                                                 totalCredits := entry.totalCredits + g.credits)];
      assert semStats == AddRow(before, g);
      assert grades[..i + 1][..i] == grades[..i];
      grandTotalPoints := grandTotalPoints + points;
      grandTotalCredits := grandTotalCredits + g.credits;
      i := i + 1;
    }
    assert grades[..i] == grades;
  }

  /** The second pass of calculateStats: every entry gets the SGPA of its totals. */
  method SetSgpas(accumulated: map<int, SemStat>) returns (semStats: map<int, SemStat>)
    ensures semStats.Keys == accumulated.Keys
    ensures forall s :: s in semStats ==> semStats[s] == WithSgpa(accumulated[s])
  {
    semStats := accumulated;
    var pending := semStats.Keys;
    while pending != {}
      invariant pending <= semStats.Keys
      invariant semStats.Keys == accumulated.Keys
      invariant forall s :: s in semStats ==>
        semStats[s] == if s in pending then accumulated[s] else WithSgpa(accumulated[s])
      decreases pending
    {
      HasMember(pending);
      var s :| s in pending;
      var entry := semStats[s];
      semStats := semStats[s := entry.(sgpa := Gpa(entry.totalPoints, entry.totalCredits))];
      pending := pending - {s};
    }
  }

  /** A set other than the empty one has a member. */
  lemma HasMember(keys: set<int>)
    requires keys != {}
    ensures exists k :: k in keys
  {
    if forall k :: k !in keys {
      assert false;
    }
  }

  /** The entry with its SGPA derived from its totals. */
  function WithSgpa(e: SemStat): SemStat
  {
    e.(sgpa := Gpa(e.totalPoints, e.totalCredits))
  }

  /** One step of the accumulating pass: create the row's semester entry if it
      is missing, then add the row's points and credits to it. */
  function AddRow(semStats: map<int, SemStat>, g: GradeRecord): map<int, SemStat>
  {
    var created := if g.semester in semStats then semStats else semStats[g.semester := SemStat(0.0, 0.0, 0.0)];
    created[g.semester := created[g.semester].(
      totalPoints := created[g.semester].totalPoints + Points(g),
      totalCredits := created[g.semester].totalCredits + g.credits)]
  }

  /** The semester entries after the accumulating pass over `rows`. */
  ghost function Accumulation(rows: seq<GradeRecord>): map<int, SemStat>
  {
    if rows == [] then map[] else AddRow(Accumulation(rows[..|rows| - 1]), rows[|rows| - 1])
  }

  /** The accumulating pass leaves one entry per semester that has rows,
      holding the point and credit totals of exactly that semester's rows. */
  lemma {:induction false} AccumulationEntries(rows: seq<GradeRecord>)
    ensures Accumulation(rows).Keys == Semesters(rows)
    ensures forall s :: s in Accumulation(rows) ==>
      Accumulation(rows)[s] == SemStat(Total(InSemester(rows, s), Points), Total(InSemester(rows, s), Credits), 0.0)
    decreases |rows|
  {
    if rows != [] {
      var init, g := rows[..|rows| - 1], rows[|rows| - 1];
      assert rows == init + [g];
      AccumulationEntries(init);
      SemestersSnoc(init, g);
      if g.semester !in Accumulation(init) {
        NoRowsOutsideSemesters(init, g.semester);
      }
      forall s | s in Accumulation(rows)
        ensures Accumulation(rows)[s] == SemStat(Total(InSemester(rows, s), Points), Total(InSemester(rows, s), Credits), 0.0)
      {
        InSemesterSnoc(init, g, s);
        if s == g.semester {
          TotalSnoc(InSemester(init, s), g, Points);
          TotalSnoc(InSemester(init, s), g, Credits);
        }
      }
    }
  }

  // ----- Sums over concatenations and reorderings -----

  /** The sum over two lists joined is the sum of their sums. */
  lemma {:induction false} TotalAppend(a: seq<GradeRecord>, b: seq<GradeRecord>, w: GradeRecord -> real)
    ensures Total(a + b, w) == Total(a, w) + Total(b, w)
    decreases |b|
  {
    if b == [] {
      assert a + b == a;
    } else {
      var b' := b[..|b| - 1];
      assert (a + b)[..|a + b| - 1] == a + b';
      TotalAppend(a, b', w);
    }
  }

  /** Selecting a semester's rows keeps their order: it commutes with concatenation. */
  lemma {:induction false} InSemesterAppend(a: seq<GradeRecord>, b: seq<GradeRecord>, s: int)
    ensures InSemester(a + b, s) == InSemester(a, s) + InSemester(b, s)
    decreases |b|
  {
    if b == [] {
      assert a + b == a;
    } else {
      var b' := b[..|b| - 1];
      assert (a + b)[..|a + b| - 1] == a + b';
      InSemesterAppend(a, b', s);
    }
  }

  lemma SplitAt(b: seq<GradeRecord>, j: int)
    requires 0 <= j < |b|
    ensures b == (b[..j] + [b[j]]) + b[j + 1..]
  {
  }

  /** Taking one row out of a list takes its weight out of the sum. */
  lemma TotalRemove(b: seq<GradeRecord>, j: int, w: GradeRecord -> real)
    requires 0 <= j < |b|
    ensures Total(b, w) == Total(b[..j] + b[j + 1..], w) + w(b[j])
  {
    var before, x, after := b[..j], b[j], b[j + 1..];
    SplitAt(b, j);
    calc {
      Total(b, w);
      Total((before + [x]) + after, w);
      { TotalAppend(before + [x], after, w); }
      Total(before + [x], w) + Total(after, w);
      { TotalSnoc(before, x, w); }
      Total(before, w) + w(x) + Total(after, w);
      { TotalAppend(before, after, w); }
      Total(before + after, w) + w(x);
    }
  }

  /** Taking the last row of `a`, and one occurrence of it in `b`, out of two
      reorderings of each other leaves two reorderings of each other. */
  lemma PermutationWithout(a: seq<GradeRecord>, b: seq<GradeRecord>, j: int)
    requires multiset(a) == multiset(b)
    requires a != [] && 0 <= j < |b| && b[j] == a[|a| - 1]
    ensures multiset(a[..|a| - 1]) == multiset(b[..j] + b[j + 1..])
  {
    var x, a', b' := a[|a| - 1], a[..|a| - 1], b[..j] + b[j + 1..];
    assert a == a' + [x];
    assert b == b[..j] + [x] + b[j + 1..];
    assert multiset(b) == multiset(b') + multiset{x};
    assert multiset(a) == multiset(a') + multiset{x};
    forall y ensures multiset(a')[y] == multiset(b')[y] {
      assert multiset(a)[y] == multiset(b)[y];
    }
  }

  /** A sum does not depend on the order of the rows. */
  lemma {:induction false} TotalPermutation(a: seq<GradeRecord>, b: seq<GradeRecord>, w: GradeRecord -> real)
    requires multiset(a) == multiset(b)
    ensures Total(a, w) == Total(b, w)
    decreases |a|
  {
    if a == [] {
      assert |b| == |multiset(b)| == 0;
    } else {
      var x := a[|a| - 1];
      assert x in multiset(b);
      var j :| 0 <= j < |b| && b[j] == x;
      PermutationWithout(a, b, j);
      TotalPermutation(a[..|a| - 1], b[..j] + b[j + 1..], w);
      TotalRemove(b, j, w);
    }
  }

  /** How often a row occurs among the rows of semester `s`. */
  lemma {:induction false} InSemesterCount(rows: seq<GradeRecord>, s: int, g: GradeRecord)
    ensures multiset(InSemester(rows, s))[g] == if g.semester == s then multiset(rows)[g] else 0
    decreases |rows|
  {
    if rows != [] {
      var init := rows[..|rows| - 1];
      assert rows == init + [rows[|rows| - 1]];
      InSemesterCount(init, s, g);
    }
  }

  /** Reordering the grade rows changes none of the statistics: the same
      semesters, the same per-semester entries and the same grand totals. */
  lemma StatsOrderIndependent(a: seq<GradeRecord>, b: seq<GradeRecord>)
    requires multiset(a) == multiset(b)
    ensures Semesters(a) == Semesters(b)
    ensures forall s :: SemesterStat(a, s) == SemesterStat(b, s)
    ensures Total(a, Credits) == Total(b, Credits)
    ensures Total(a, Points) == Total(b, Points)
    ensures Gpa(Total(a, Points), Total(a, Credits)) == Gpa(Total(b, Points), Total(b, Credits))
  {
    TotalPermutation(a, b, Credits);
    TotalPermutation(a, b, Points);
    forall s
      ensures SemesterStat(a, s) == SemesterStat(b, s)
    {
      forall g ensures multiset(InSemester(a, s))[g] == multiset(InSemester(b, s))[g] {
        InSemesterCount(a, s, g);
        InSemesterCount(b, s, g);
      }
      assert multiset(InSemester(a, s)) == multiset(InSemester(b, s));
      TotalPermutation(InSemester(a, s), InSemester(b, s), Credits);
      TotalPermutation(InSemester(a, s), InSemester(b, s), Points);
    }
    forall s ensures s in Semesters(a) ==> s in Semesters(b) {
      SemesterIffRow(a, s);
      SemesterIffRow(b, s);
      if s in Semesters(a) {
        var i :| 0 <= i < |a| && a[i].semester == s;
        assert a[i] in multiset(b);
        var j :| 0 <= j < |b| && b[j] == a[i];
      }
    }
    forall s ensures s in Semesters(b) ==> s in Semesters(a) {
      SemesterIffRow(a, s);
      SemesterIffRow(b, s);
      if s in Semesters(b) {
        var j :| 0 <= j < |b| && b[j].semester == s;
        assert b[j] in multiset(a);
        var i :| 0 <= i < |a| && a[i] == b[j];
      }
    }
  }

  // ----- The semester totals partition the grand totals -----

  /** The sum, over the listed semesters, of each semester's total. */
  function SumOverSemesters(sems: seq<int>, rows: seq<GradeRecord>, w: GradeRecord -> real): real
  {
    if sems == [] then 0.0 else Total(InSemester(rows, sems[0]), w) + SumOverSemesters(sems[1..], rows, w)
  }

  lemma {:induction false} SumOverSemestersSnoc(sems: seq<int>, rows: seq<GradeRecord>, g: GradeRecord, w: GradeRecord -> real)
    requires Distinct(sems)
    ensures SumOverSemesters(sems, rows + [g], w)
         == SumOverSemesters(sems, rows, w) + (if g.semester in sems then w(g) else 0.0)
    decreases |sems|
  {
    if sems != [] {
      assert (rows + [g])[..|rows + [g]| - 1] == rows;
      SumOverSemestersSnoc(sems[1..], rows, g, w);
      assert g.semester == sems[0] ==> g.semester !in sems[1..];
    }
  }

  /** Adding up the semester totals over a list of all the semesters, each
      named once, gives the grand total. */
  lemma {:induction false} SemesterTotalsAddUp(rows: seq<GradeRecord>, sems: seq<int>, w: GradeRecord -> real)
    requires Distinct(sems)
    requires forall i :: 0 <= i < |rows| ==> rows[i].semester in sems
    ensures SumOverSemesters(sems, rows, w) == Total(rows, w)
    decreases |rows|
  {
    if rows == [] {
      ZeroOverSemesters(sems, w);
    } else {
      var init := rows[..|rows| - 1];
      var g := rows[|rows| - 1];
      assert rows == init + [g];
      SemesterTotalsAddUp(init, sems, w);
      SumOverSemestersSnoc(sems, init, g, w);
    }
  }

  lemma {:induction false} ZeroOverSemesters(sems: seq<int>, w: GradeRecord -> real)
    ensures SumOverSemesters(sems, [], w) == 0.0
    decreases |sems|
  {
    if sems != [] {
      ZeroOverSemesters(sems[1..], w);
    }
  }

  // ----- Bounds of the weighted mean -----

  lemma {:induction false} WeightedBounds(rows: seq<GradeRecord>, lo: real, hi: real)
    requires forall i :: 0 <= i < |rows| ==> rows[i].credits >= 0.0 && lo <= rows[i].gradePoints <= hi
    ensures lo * Total(rows, Credits) <= Total(rows, Points) <= hi * Total(rows, Credits)
    decreases |rows|
  {
    if rows != [] {
      var init := rows[..|rows| - 1];
      var g := rows[|rows| - 1];
      WeightedBounds(init, lo, hi);
      assert g.credits * (g.gradePoints - lo) >= 0.0;
      assert g.credits * (hi - g.gradePoints) >= 0.0;
    }
  }

  /** With non-negative credits, some credit in all, and every grade point in
      [lo, hi], the unrounded average lies in [lo, hi]. */
  lemma GpaWithinGradeRange(rows: seq<GradeRecord>, lo: real, hi: real)
    requires forall i :: 0 <= i < |rows| ==> rows[i].credits >= 0.0 && lo <= rows[i].gradePoints <= hi
    requires Total(rows, Credits) > 0.0
    ensures lo <= Total(rows, Points) / Total(rows, Credits) <= hi
  {
    WeightedBounds(rows, lo, hi);
    MeanBetween(Total(rows, Points), Total(rows, Credits), lo, hi);
  }

  lemma MeanBetween(p: real, c: real, lo: real, hi: real)
    requires c > 0.0 && lo * c <= p <= hi * c
    ensures lo <= p / c <= hi
  {
    var m := p / c;
    assert m * c == p;
    assert (m - lo) * c >= 0.0;
    assert (hi - m) * c >= 0.0;
  }

  /** The same for each semester's SGPA. */
  lemma SgpaWithinGradeRange(rows: seq<GradeRecord>, s: int, lo: real, hi: real)
    requires forall i :: 0 <= i < |rows| && rows[i].semester == s ==>
      rows[i].credits >= 0.0 && lo <= rows[i].gradePoints <= hi
    requires SemesterStat(rows, s).totalCredits > 0.0
    ensures lo <= SemesterStat(rows, s).totalPoints / SemesterStat(rows, s).totalCredits <= hi
  {
    var own := InSemester(rows, s);
    InSemesterMembers(rows, s);
    forall i | 0 <= i < |own| ensures own[i].credits >= 0.0 && lo <= own[i].gradePoints <= hi {
      var j :| 0 <= j < |rows| && rows[j] == own[i];
    }
    GpaWithinGradeRange(own, lo, hi);
  }

  /** Two courses of 3 and 4 credits with grade points 8 and 9 give 60/7,
      shown as 8.57; no rows give a CGPA of 0. */
  lemma CgpaExample()
    ensures var rows := [GradeRecord("1", 1, "A", "a", 3.0, 8.0, "A"), GradeRecord("2", 1, "B", "b", 4.0, 9.0, "S")];
            Gpa(Total(rows, Points), Total(rows, Credits)) == 8.57
    ensures Gpa(Total([], Points), Total([], Credits)) == 0.0
  {
    var rows := [GradeRecord("1", 1, "A", "a", 3.0, 8.0, "A"), GradeRecord("2", 1, "B", "b", 4.0, 9.0, "S")];
    assert rows[..1][..0] == [];
    assert rows[..|rows| - 1] == rows[..1];
    assert Total(rows, Credits) == 7.0;
    assert Total(rows, Points) == 60.0;
    var x := 60.0 / 7.0 * 100.0 + 0.5;
    assert 857.0 <= x < 858.0;
    assert x.Floor == 857;
  }

  // ----- Semester summary rows -----

  /** Whether the row at `idx` is followed by a semester summary row: the
      final row always is, and a row that is not has a later row of its own
      semester, whose summary is still to come. */
  predicate IsLastInSem(grades: seq<GradeRecord>, idx: int): (last: bool)
    requires 0 <= idx < |grades|
    ensures idx == |grades| - 1 ==> last
    ensures !last ==> exists j :: idx < j < |grades| && grades[j].semester == grades[idx].semester
  {
    idx == |grades| - 1 || grades[idx + 1].semester != grades[idx].semester
  }

  /** The rows come ordered by semester, ascending, as the grade query asks. */
  predicate SortedBySemester(grades: seq<GradeRecord>)
  {
    forall i, j :: 0 <= i < j < |grades| ==> grades[i].semester <= grades[j].semester
  }

  /** On rows ordered by semester a row gets a summary exactly when no later
      row belongs to its semester. */
  lemma LastInSemIsLastOfSemester(grades: seq<GradeRecord>, idx: int)
    requires SortedBySemester(grades)
    requires 0 <= idx < |grades|
    ensures IsLastInSem(grades, idx) <==> forall j :: idx < j < |grades| ==> grades[j].semester != grades[idx].semester
  {
    if IsLastInSem(grades, idx) && idx < |grades| - 1 {
      forall j | idx < j < |grades| ensures grades[j].semester != grades[idx].semester {
        assert grades[idx + 1].semester <= grades[j].semester;
      }
    }
  }

  /** On rows ordered by semester every semester gets exactly one summary row. */
  lemma OneSummaryPerSemester(grades: seq<GradeRecord>, s: int)
    requires SortedBySemester(grades)
    requires s in Semesters(grades)
    ensures exists idx :: 0 <= idx < |grades| && grades[idx].semester == s && IsLastInSem(grades, idx)
    ensures forall i, j ::
              (0 <= i < |grades| && 0 <= j < |grades| &&
               grades[i].semester == s && IsLastInSem(grades, i) &&
               grades[j].semester == s && IsLastInSem(grades, j)) ==> i == j
  {
    var k :| 0 <= k < |grades| && grades[k].semester == s;
    var idx := k;
    while idx + 1 < |grades| && grades[idx + 1].semester == s
      invariant k <= idx < |grades| && grades[idx].semester == s
      decreases |grades| - idx
    {
      idx := idx + 1;
    }
    assert IsLastInSem(grades, idx);
    forall i, j | 0 <= i < |grades| && 0 <= j < |grades| &&
                  grades[i].semester == s && IsLastInSem(grades, i) &&
                  grades[j].semester == s && IsLastInSem(grades, j)
      ensures i == j
    {
      LastInSemIsLastOfSemester(grades, i);
      LastInSemIsLastOfSemester(grades, j);
    }
  }
}
