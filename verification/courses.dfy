/**
 * The employee's course list: a list of courses keyed by id, with
 * append-if-absent (`addCourse`) and remove-by-id (`removeCourse`).
 * The page keeps the list in component state and replaces it on every
 * change; here it is the `courses` field of a `CourseList` object.
 */
module Courses {
  import opened Effects

  datatype Course = Course(id: int, title: string, provider: string)

  /** The list a fresh page starts with. */
  const InitialCourses: seq<Course> := [
    Course(1, "Advanced TypeScript for Enterprise", "Udemy"),
    Course(2, "Microservices with Node.js and React", "Coursera"),
    Course(3, "The Complete Guide to Project Leadership", "LinkedIn Learning")
  ]

  /** The catalogue the "Add a Course" dialog offers; each entry is passed to `addCourse` as it is. */
  const AvailableCourses: seq<Course> := [
    Course(1, "Advanced TypeScript for Enterprise", "Udemy"),
    Course(2, "Microservices with Node.js and React", "Coursera"),
    Course(3, "The Complete Guide to Project Leadership", "LinkedIn Learning"),
    Course(4, "Data Structures and Algorithms in Python", "edX"),
    Course(5, "Mastering Figma: From Beginner to Expert", "Skillshare"),
    Course(6, "Certified Kubernetes Administrator (CKA)", "Linux Foundation"),
    Course(7, "AWS Certified Solutions Architect - Associate", "Amazon Web Services"),
    Course(8, "Introduction to Machine Learning", "Coursera")
  ]

  /** Some course in the list has this id (`courses.some(c => c.id === id)`). */
  predicate HasId(courses: seq<Course>, id: int) {
    exists i :: 0 <= i < |courses| && courses[i].id == id
  }

  /** No two courses of the list share an id. */
  predicate DistinctIds(courses: seq<Course>) {
    forall i, j :: 0 <= i < j < |courses| ==> courses[i].id != courses[j].id
  }

  /** The list filtered to the courses whose id differs from `id`. */
  function Without(courses: seq<Course>, id: int): (r: seq<Course>)
    ensures |r| <= |courses|
    ensures forall i :: 0 <= i < |r| ==> r[i] in courses && r[i].id != id
  {
    if |courses| == 0 then []
    else if courses[0].id == id then Without(courses[1..], id)
    else [courses[0]] + Without(courses[1..], id)
  }

  /** Removal keeps exactly the courses with another id. */
  lemma {:induction false} WithoutKeepsOthers(courses: seq<Course>, id: int)
    ensures forall c :: c in Without(courses, id) <==> c in courses && c.id != id
    decreases |courses|
  {
    if |courses| > 0 {
      WithoutKeepsOthers(courses[1..], id);
      assert courses == [courses[0]] + courses[1..];
    }
  }

  /** After removal no course with the removed id is left. */
  lemma WithoutRemovesId(courses: seq<Course>, id: int)
    ensures !HasId(Without(courses, id), id)
  {
  }

  /**
   * Removal works piecewise: filtering a concatenation filters each part and
   * keeps them in order, so every other course stays in its relative place.
   */
  lemma {:induction false} WithoutDistributes(a: seq<Course>, b: seq<Course>, id: int)
    ensures Without(a + b, id) == Without(a, id) + Without(b, id)
    decreases |a|
  {
    if |a| == 0 {
      assert a + b == b;
    } else {
      var t := a[1..];
      WithoutDistributes(t, b, id);
      assert a == [a[0]] + t;
      assert (a + b)[1..] == t + b;
      assert (a + b)[0] == a[0];
      if a[0].id != id {
        var x, y := Without(t, id), Without(b, id);
        assert [a[0]] + (x + y) == ([a[0]] + x) + y;
      }
    }
  }

  /** Removing an id that is not in the list leaves the list unchanged. */
  lemma {:induction false} WithoutAbsent(courses: seq<Course>, id: int)
    requires !HasId(courses, id)
    ensures Without(courses, id) == courses
    decreases |courses|
  {
    if |courses| > 0 {
      assert courses[0].id != id;
      assert !HasId(courses[1..], id);
      WithoutAbsent(courses[1..], id);
      assert courses == [courses[0]] + courses[1..];
    }
  }

  /** Removing the same id twice is the same as removing it once. */
  lemma WithoutIdempotent(courses: seq<Course>, id: int)
    ensures Without(Without(courses, id), id) == Without(courses, id)
  {
    WithoutRemovesId(courses, id);
    WithoutAbsent(Without(courses, id), id);
  }

  /** The tail of a list with distinct ids has distinct ids, none equal to the head's. */
  lemma DistinctTail(courses: seq<Course>)
    requires |courses| > 0 && DistinctIds(courses)
    ensures DistinctIds(courses[1..])
    ensures forall c :: c in courses[1..] ==> c.id != courses[0].id
  {
    var tail := courses[1..];
    forall i, j | 0 <= i < j < |tail| ensures tail[i].id != tail[j].id {
      assert tail[i] == courses[i + 1] && tail[j] == courses[j + 1];
    }
    forall c | c in tail ensures c.id != courses[0].id {
      var k :| 0 <= k < |tail| && tail[k] == c;
      assert courses[k + 1] == c;
    }
  }

  /** Putting a course in front of a list with distinct ids none equal to its own keeps them distinct. */
  lemma ConsKeepsDistinct(course: Course, rest: seq<Course>)
    requires DistinctIds(rest)
    requires forall c :: c in rest ==> c.id != course.id
    ensures DistinctIds([course] + rest)
  {
    var r := [course] + rest;
    forall i, j | 0 <= i < j < |r| ensures r[i].id != r[j].id {
      assert r[j] == rest[j - 1];
      if i > 0 {
        assert r[i] == rest[i - 1];
      } else {
        assert r[j] in rest;
      }
    }
  }

  /** Removal keeps the ids distinct. */
  lemma {:induction false} WithoutKeepsDistinct(courses: seq<Course>, id: int)
    requires DistinctIds(courses)
    ensures DistinctIds(Without(courses, id))
    decreases |courses|
  {
    if |courses| > 0 {
      var tail := courses[1..];
      DistinctTail(courses);
      WithoutKeepsDistinct(tail, id);
      if courses[0].id != id {
        ConsKeepsDistinct(courses[0], Without(tail, id));
      }
    }
  }

  /** Appending a course whose id is new keeps the ids distinct. */
  lemma AppendFreshKeepsDistinct(courses: seq<Course>, course: Course)
    requires DistinctIds(courses) && !HasId(courses, course.id)
    ensures DistinctIds(courses + [course])
  {
    var r := courses + [course];
    forall i, j | 0 <= i < j < |r| ensures r[i].id != r[j].id {
      if j == |courses| {
        assert r[i] == courses[i];
      } else {
        assert r[i] == courses[i] && r[j] == courses[j];
      }
    }
  }

  /**
   * Starting from the initial list, the catalogue's first three courses are
   * already enrolled and the other five are not.
   */
  lemma CatalogueAgainstInitial()
    ensures DistinctIds(InitialCourses)
    ensures forall k :: 0 <= k < |AvailableCourses| ==>
      (HasId(InitialCourses, AvailableCourses[k].id) <==> k < 3)
  {
    forall k | 0 <= k < 3 ensures HasId(InitialCourses, AvailableCourses[k].id) {
      assert InitialCourses[k].id == AvailableCourses[k].id;
    }
  }

  /** The toast `addCourse` raises after appending `course`. */
  function AddedToast(course: Course): Toast {
    Toast(Standard, "Course Added", course.title + " has been added to your list.")
  }

  /** The toast `addCourse` raises when the id is already in the list. */
  const AlreadyAddedToast: Toast :=
    Toast(Destructive, "Course Already Added", "You are already enrolled in this course.")

  /** The course page's state: its list of courses and the toasts it has raised. */
  class CourseList {
    var courses: seq<Course>
    var toasts: seq<Toast>

    constructor ()
      ensures courses == InitialCourses && toasts == []
      ensures DistinctIds(courses)
    {
      courses := InitialCourses;
      toasts := [];
      CatalogueAgainstInitial();
    }

    /** `removeCourse(id)`: keep every course whose id differs. */
    method RemoveCourse(id: int)
      modifies this
      ensures courses == Without(old(courses), id)
      ensures !HasId(courses, id)
      ensures DistinctIds(old(courses)) ==> DistinctIds(courses)
      ensures toasts == old(toasts)
    {
      WithoutRemovesId(courses, id);
      if DistinctIds(courses) {
        WithoutKeepsDistinct(courses, id);
      }
      courses := Without(courses, id);
    }

    /**
     * `addCourse(course)`: only the id is compared; a course whose id is
     * present is refused with a destructive toast, any other is appended.
     * `added` reports which branch was taken.
     */
    method AddCourse(course: Course) returns (added: bool)
      modifies this
      ensures added <==> !HasId(old(courses), course.id)
      ensures added ==> courses == old(courses) + [course]
      ensures !added ==> courses == old(courses)
      ensures HasId(courses, course.id)
      ensures DistinctIds(old(courses)) ==> DistinctIds(courses)
      ensures toasts == old(toasts) + [if added then AddedToast(course) else AlreadyAddedToast]
    {
      if HasId(courses, course.id) {
        toasts := toasts + [AlreadyAddedToast];
        added := false;
        return;
      }
      if DistinctIds(courses) {
        AppendFreshKeepsDistinct(courses, course);
      }
      courses := courses + [course];
      assert courses[|courses| - 1] == course;
      toasts := toasts + [AddedToast(course)];
      added := true;
    }
  }
}
