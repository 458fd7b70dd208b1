/**
 * Students with grade lists, groups of students, and the ranking of both
 * by average grade.  Grades and members are appended or removed in place;
 * the best student of a group, and the group with the best student, are
 * what Python's `max` picks: the first element whose key is not exceeded
 * by any other.
 */
module Students {
  import opened Wrappers

  /** Python's `sum` over a grade list, adding from the left. */
  function Sum(gs: seq<int>): (r: int) {
    if gs == [] then 0 else Sum(gs[..|gs| - 1]) + gs[|gs| - 1]
  }

  /** `sum(grades) / len(grades)`, with 0 where the division would fail; exact, not floating point. */
  function Mean(gs: seq<int>): (m: real)
    ensures |gs| == 0 ==> m == 0.0
    ensures |gs| > 0 ==> m * (|gs| as real) == Sum(gs) as real
  {
    if |gs| == 0 then 0.0 else Sum(gs) as real / |gs| as real
  }

  lemma {:induction false} SumBounds(gs: seq<int>, lo: real, hi: real)
    requires forall i :: 0 <= i < |gs| ==> lo <= gs[i] as real <= hi
    ensures lo * (|gs| as real) <= Sum(gs) as real <= hi * (|gs| as real)
  {
    if gs != [] {
      var n := |gs| - 1;
      var init := gs[..n];
      assert forall i :: 0 <= i < n ==> init[i] == gs[i];
      SumBounds(init, lo, hi);
      assert Sum(gs) == Sum(init) + gs[n];
      assert Sum(gs) as real == Sum(init) as real + gs[n] as real;
      assert lo <= gs[n] as real <= hi;
      var m := n as real;
      assert (n + 1) as real == m + 1.0;
      assert lo * (m + 1.0) == lo * m + lo;
      assert hi * (m + 1.0) == hi * m + hi;
    }
  }

  /** The average of a non-empty grade list lies between its smallest and largest grade. */
  lemma MeanBounds(gs: seq<int>, lo: int, hi: int)
    requires |gs| > 0
    requires forall i :: 0 <= i < |gs| ==> lo <= gs[i] <= hi
    ensures lo as real <= Mean(gs) <= hi as real
  {
    SumBounds(gs, lo as real, hi as real);
    QuotientBounds(lo as real, hi as real, Sum(gs) as real, |gs| as real);
  }

  lemma QuotientBounds(lo: real, hi: real, total: real, n: real)
    requires n > 0.0 && lo * n <= total <= hi * n
    ensures lo <= total / n <= hi
  {
    var m := total / n;
    assert (m - lo) * n == total - lo * n;
    assert (hi - m) * n == hi * n - total;
    NonNegativeFactor(m - lo, n);
    NonNegativeFactor(hi - m, n);
  }

  lemma NonNegativeFactor(x: real, n: real)
    requires n > 0.0 && x * n >= 0.0
    ensures x >= 0.0
  {
  }

  /** Adding a grade moves the total by exactly that grade. */
  lemma MeanAfterAppend(gs: seq<int>, g: int)
    ensures Mean(gs + [g]) * ((|gs| + 1) as real) == Mean(gs) * (|gs| as real) + g as real
  {
    assert (gs + [g])[..|gs|] == gs;
  }

  /** `first` is where Python's `max` stops: no key exceeds it, every earlier key is smaller. */
  predicate IsFirstMax(keys: seq<real>, first: nat) {
    first < |keys|
    && (forall j :: 0 <= j < |keys| ==> keys[j] <= keys[first])
    && (forall j :: 0 <= j < first ==> keys[j] < keys[first])
  }

  lemma FirstMaxUnique(keys: seq<real>, i: nat, j: nat)
    requires IsFirstMax(keys, i) && IsFirstMax(keys, j)
    ensures i == j
  {
    assert keys[i] <= keys[j] && keys[j] <= keys[i];
  }

  /**
   * Python's `max` as its left fold: keep the first element, and replace
   * the kept one by a later one only when the kept one compares less than
   * it.  `best` is the index kept after looking at the first `k` keys.
   */
  function MaxIndexFrom(keys: seq<real>, best: nat, k: nat): (i: nat)
    requires best < k <= |keys|
    requires IsFirstMax(keys[..k], best)
    ensures IsFirstMax(keys, i)
    decreases |keys| - k
  {
    if k == |keys| then
      assert keys[..k] == keys;
      best
    else if keys[best] < keys[k] then
      MaxIndexFrom(keys, k, k + 1)
    else
      MaxIndexFrom(keys, best, k + 1)
  }

  function FirstMaxIndex(keys: seq<real>): (i: nat)
    requires |keys| > 0
    ensures IsFirstMax(keys, i)
  {
    MaxIndexFrom(keys, 0, 1)
  }

  /** Index of the first occurrence of `x`, by identity as `list.remove` compares students. */
  function FirstIndex<T(==)>(s: seq<T>, x: T): (i: nat)
    requires x in s
    ensures i < |s| && s[i] == x
    ensures forall j :: 0 <= j < i ==> s[j] != x
  {
    if s[0] == x then 0 else 1 + FirstIndex(s[1..], x)
  }

  /** `list.remove`: the first occurrence of `x` is dropped, the rest keeps its order. */
  function RemoveFirst<T(==)>(s: seq<T>, x: T): (r: seq<T>)
    requires x in s
    ensures r == s[..FirstIndex(s, x)] + s[FirstIndex(s, x) + 1..]
  {
    assert s == [s[0]] + s[1..];
    if s[0] == x then
      s[1..]
    else
      var tail := s[1..];
      var k := FirstIndex(tail, x);
      assert s[..k + 1] == [s[0]] + tail[..k];
      assert s[k + 2..] == tail[k + 1..];
      [s[0]] + RemoveFirst(tail, x)
  }

  /** Removing drops exactly one copy of the element and keeps every other element. */
  lemma RemoveFirstMultiset<T>(s: seq<T>, x: T)
    requires x in s
    ensures multiset(RemoveFirst(s, x)) == multiset(s) - multiset{x}
  {
    var i := FirstIndex(s, x);
    assert s == s[..i] + [x] + s[i + 1..];
  }

  class Student {
    const name: string
    const age: int
    var grades: seq<int>

    constructor (name: string, age: int, grades: seq<int>)
      ensures this.name == name && this.age == age && this.grades == grades
    {
      this.name := name;
      this.age := age;
      this.grades := grades;
    }

    method AddGrade(grade: int)
      modifies this
      ensures grades == old(grades) + [grade]
    {
      grades := grades + [grade];
    }

    /** `average_grade`: 0 without grades, otherwise the grades' total shared out over their number. */
    function AverageGrade(): (r: real)
      reads this
      ensures |grades| == 0 ==> r == 0.0
      ensures |grades| > 0 ==> r * (|grades| as real) == Sum(grades) as real
    {
      Mean(grades)
    }

    /** `__lt__`: ranked by average grade. */
    predicate Less(other: Student)
      reads this, other
    {
      AverageGrade() < other.AverageGrade()
    }
  }

  /** Ordering students by `<` is a strict weak order; students of equal average are tied. */
  lemma StudentOrder(a: Student, b: Student, c: Student)
    ensures !a.Less(a)
    ensures a.Less(b) ==> !b.Less(a)
    ensures a.Less(b) && b.Less(c) ==> a.Less(c)
    ensures !a.Less(b) && !b.Less(a) <==> a.AverageGrade() == b.AverageGrade()
  {
  }

  function Averages(ss: seq<Student>): (r: seq<real>)
    reads ss
    ensures |r| == |ss|
    ensures forall i :: 0 <= i < |ss| ==> r[i] == ss[i].AverageGrade()
  {
    if ss == [] then [] else [ss[0].AverageGrade()] + Averages(ss[1..])
  }

  /** The error `list.remove` raises for a student who is not a member. */
  datatype GroupError = NotInGroup

  class Group {
    const name: string
    var students: seq<Student>

    constructor (name: string)
      ensures this.name == name && students == []
    {
      this.name := name;
      students := [];
    }

    method AddStudent(student: Student)
      modifies this
      ensures students == old(students) + [student]
    {
      students := students + [student];
    }

    /** Removes the first occurrence; an absent student raises and changes nothing. */
    method RemoveStudent(student: Student) returns (r: Outcome<GroupError>)
      modifies this
      ensures r.Pass? <==> student in old(students)
      ensures r.Fail? ==> r.error == NotInGroup
      ensures students == if student in old(students) then RemoveFirst(old(students), student) else old(students)
    {
      if student in students {
        students := RemoveFirst(students, student);
        r := Pass;
      } else {
        r := Fail(NotInGroup);
      }
    }

    /** `max(students, default=None)`: the first member whose average no member exceeds. */
    function BestStudent(): (r: Option<Student>)
      reads this, students
      ensures r.None? <==> students == []
      ensures r.Some? ==> exists i: nat :: IsFirstMax(Averages(students), i) && students[i] == r.value
    {
      if students == [] then None
      else
        var i := FirstMaxIndex(Averages(students));
        Some(students[i])
    }

    /** The highest member average; 0 for an empty group (a student object is always truthy). */
    function BestStudentAverage(): (a: real)
      reads this, students
      ensures students == [] ==> a == 0.0
      ensures students != [] ==> forall s :: s in students ==> s.AverageGrade() <= a
      ensures students != [] ==> exists s :: s in students && s.AverageGrade() == a
    {
      match BestStudent()
      case None => 0.0
      case Some(best) =>
        var keys := Averages(students);
        assert forall s :: s in students ==> s.AverageGrade() in keys;
        best.AverageGrade()
    }

    /** `__lt__`: ranked by the average of the best student. */
    predicate Less(other: Group)
      reads this, students, other, other.students
    {
      BestStudentAverage() < other.BestStudentAverage()
    }
  }

  /** Every student of every group in `groups`. */
  ghost function MembersOf(groups: seq<Group>): set<Student>
    reads groups
  {
    if groups == [] then {} else (set s | s in groups[0].students) + MembersOf(groups[1..])
  }

  function BestAverages(groups: seq<Group>): (r: seq<real>)
    reads groups, MembersOf(groups)
    ensures |r| == |groups|
    ensures forall i :: 0 <= i < |groups| ==> r[i] == groups[i].BestStudentAverage()
  {
    if groups == [] then []
    else
      assert groups[0] in groups;
      assert forall g :: g in groups[1..] ==> g in groups;
      [groups[0].BestStudentAverage()] + BestAverages(groups[1..])
  }

  /** `max(groups, default=None)`: the first group whose best average no group exceeds. */
  function GroupWithBestStudent(groups: seq<Group>): (r: Option<Group>)
    reads groups, MembersOf(groups)
    ensures r.None? <==> groups == []
    ensures r.Some? ==> exists i: nat :: IsFirstMax(BestAverages(groups), i) && groups[i] == r.value
  {
    if groups == [] then None
    else
      var i := FirstMaxIndex(BestAverages(groups));
      Some(groups[i])
  }

  lemma SumOfFour(a: int, b: int, c: int, d: int)
    ensures Sum([a, b, c, d]) == a + b + c + d
  {
    assert [a, b, c, d][..3] == [a, b, c];
    assert [a, b, c][..2] == [a, b];
    assert [a, b][..1] == [a];
    assert [a][..0] == [];
    assert Sum([a]) == a;
    assert Sum([a, b]) == a + b;
    assert Sum([a, b, c]) == a + b + c;
  }

  /** Comparing groups by `<` is a strict weak order; groups with equal best averages are tied. */
  lemma GroupOrder(a: Group, b: Group, c: Group)
    ensures !a.Less(a)
    ensures a.Less(b) ==> !b.Less(a)
    ensures a.Less(b) && b.Less(c) ==> a.Less(c)
    ensures !a.Less(b) && !b.Less(a) <==> a.BestStudentAverage() == b.BestStudentAverage()
  {
  }

  /**
   * In terms of the Python code's `<`: no member is greater than the best student
   * under `<`, and every member before its first occurrence is less.
   */
  lemma BestStudentByLess(g: Group)
    requires g.students != []
    ensures forall s :: s in g.students ==> !g.BestStudent().value.Less(s)
    ensures forall j :: 0 <= j < FirstIndex(g.students, g.BestStudent().value) ==>
              g.students[j].Less(g.BestStudent().value)
  {
    var keys := Averages(g.students);
    var best := g.BestStudent().value;
    var i: nat :| IsFirstMax(keys, i) && g.students[i] == best;
    var k := FirstIndex(g.students, best);
    assert keys[k] == keys[i];
    assert k == i;
    forall s | s in g.students
      ensures !best.Less(s)
    {
      var j :| 0 <= j < |g.students| && g.students[j] == s;
      assert keys[j] <= keys[i];
    }
  }

  /** No group is greater than the chosen one under `<`, and every group before it is less. */
  lemma GroupWithBestStudentByLess(groups: seq<Group>)
    requires groups != []
    ensures forall g :: g in groups ==> !GroupWithBestStudent(groups).value.Less(g)
    ensures forall j :: 0 <= j < FirstIndex(groups, GroupWithBestStudent(groups).value) ==>
              groups[j].Less(GroupWithBestStudent(groups).value)
  {
    var keys := BestAverages(groups);
    var best := GroupWithBestStudent(groups).value;
    var i: nat :| IsFirstMax(keys, i) && groups[i] == best;
    var k := FirstIndex(groups, best);
    assert keys[k] == keys[i];
    assert k == i;
    forall g | g in groups
      ensures !best.Less(g)
    {
      var j :| 0 <= j < |groups| && groups[j] == g;
      assert keys[j] <= keys[i];
    }
  }

  /** The demonstration: two groups of two students; the first group holds the best student. */
  method DemoBestGroup() returns (best: Option<string>)
    ensures best == Some("RPO 9")
  {
    var ivan := new Student("Ivan", 29, [4, 5, 3, 4]);
    var anna := new Student("Anna", 22, [5, 5, 5, 4]);
    var alex := new Student("Alex", 25, [4, 4, 5, 4]);
    var alla := new Student("Alla", 19, [3, 4, 5, 4]);

    var group1 := new Group("RPO 9");
    group1.AddStudent(ivan);
    group1.AddStudent(anna);
    assert group1.students == [ivan, anna];

    var group2 := new Group("RPO 8");
    group2.AddStudent(alex);
    group2.AddStudent(alla);
    assert group1.students == [ivan, anna] && group2.students == [alex, alla];
    assert ivan.grades == [4, 5, 3, 4] && anna.grades == [5, 5, 5, 4];
    assert alex.grades == [4, 4, 5, 4] && alla.grades == [3, 4, 5, 4];

    var groups := [group1, group2];
    var found := GroupWithBestStudent(groups);
    DemoRanking(groups);
    best := match found case None => None case Some(g) => Some(g.name);
  }

  lemma DemoRanking(groups: seq<Group>)
    requires |groups| == 2 && groups[0].name == "RPO 9"
    requires |groups[0].students| == 2 && |groups[1].students| == 2
    requires groups[0].students[0].grades == [4, 5, 3, 4] && groups[0].students[1].grades == [5, 5, 5, 4]
    requires groups[1].students[0].grades == [4, 4, 5, 4] && groups[1].students[1].grades == [3, 4, 5, 4]
    ensures GroupWithBestStudent(groups) == Some(groups[0])
  {
    SumOfFour(4, 5, 3, 4);
    SumOfFour(5, 5, 5, 4);
    SumOfFour(4, 4, 5, 4);
    SumOfFour(3, 4, 5, 4);
    var a := groups[0].BestStudentAverage();
    var b := groups[1].BestStudentAverage();
    assert a == 4.75;
    assert b == 4.25;
    var keys := BestAverages(groups);
    assert keys == [4.75, 4.25];
  }
}
