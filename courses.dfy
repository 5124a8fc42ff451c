/** The courses store: the course currently shown, the last fetched list of
    courses, the enrolment getter, and the five actions that fetch, create
    and update courses with optimistic updates and rollback. */
module Courses {
  import opened Wrappers
  import opened Api
  import opened OrderedSet

  /** `CourseParams`: every field is optional. */
  datatype Course = Course(
    TimeTrack: Option<int>,
    CurrentLessonId: Option<string>,
    ContentId: Option<string>,
    Done: Option<bool>,
    Lessons: Option<seq<string>>,
    Id: Option<string>)

  /** The object literal `{}`. */
  const NoFields := Course(None, None, None, None, None, None)

  // ---------------------------------------------------------------- getter

  /** `course?.ContentId` */
  function ContentIdOf(course: Option<Course>): Option<string> {
    match course
    case None => None
    case Some(c) => c.ContentId
  }

  /** `!!v` for `v: string | undefined`: undefined and "" are falsy. */
  function Truthy(v: Option<string>): bool {
    v.Some? && v.value != ""
  }

  /** The `isEnrolled` getter. */
  function IsEnrolled(course: Option<Course>): (enrolled: bool)
    ensures enrolled <==> exists c :: course == Some(c) && c.ContentId.Some? && |c.ContentId.value| > 0
  {
    Truthy(ContentIdOf(course))
  }

  // ---------------------------------------------------------------- spread

  /** One key of `{ ...was, ...given }`: a key present in `given` wins. */
  function Override<T>(was: Option<T>, given: Option<T>): Option<T> {
    if given.Some? then given else was
  }

  /** `{ ...course, ...payload }` */
  function Spread(course: Course, payload: Course): (merged: Course)
    ensures payload.TimeTrack.Some? ==> merged.TimeTrack == payload.TimeTrack
    ensures payload.TimeTrack.None? ==> merged.TimeTrack == course.TimeTrack
    ensures payload.CurrentLessonId.Some? ==> merged.CurrentLessonId == payload.CurrentLessonId
    ensures payload.CurrentLessonId.None? ==> merged.CurrentLessonId == course.CurrentLessonId
    ensures payload.ContentId.Some? ==> merged.ContentId == payload.ContentId
    ensures payload.ContentId.None? ==> merged.ContentId == course.ContentId
    ensures payload.Done.Some? ==> merged.Done == payload.Done
    ensures payload.Done.None? ==> merged.Done == course.Done
    ensures payload.Lessons.Some? ==> merged.Lessons == payload.Lessons
    ensures payload.Lessons.None? ==> merged.Lessons == course.Lessons
    ensures payload.Id.Some? ==> merged.Id == payload.Id
    ensures payload.Id.None? ==> merged.Id == course.Id
  {
    Course(
      Override(course.TimeTrack, payload.TimeTrack),
      Override(course.CurrentLessonId, payload.CurrentLessonId),
      Override(course.ContentId, payload.ContentId),
      Override(course.Done, payload.Done),
      Override(course.Lessons, payload.Lessons),
      Override(course.Id, payload.Id))
  }

  /** Spreading `{}` changes nothing. */
  lemma SpreadNoFields(course: Course)
    ensures Spread(course, NoFields) == course
  {
  }

  /** Applying the same update twice is applying it once. */
  lemma SpreadIdempotent(course: Course, payload: Course)
    ensures Spread(Spread(course, payload), payload) == Spread(course, payload)
  {
  }

  /** Two updates in a row are one update with the later one's fields winning. */
  lemma SpreadCompose(course: Course, p: Course, q: Course)
    ensures Spread(Spread(course, p), q) == Spread(course, Spread(p, q))
  {
  }

  /** An update without `ContentId` leaves enrolment as it was. */
  lemma SpreadKeepsEnrolment(course: Course, payload: Course)
    requires payload.ContentId.None?
    ensures IsEnrolled(Some(Spread(course, payload))) == IsEnrolled(Some(course))
  {
  }

  // ---------------------------------------------------------------- lessons

  /** `course?.Lessons`, where `new Set(undefined)` is empty. */
  function LessonsOf(course: Option<Course>): seq<string> {
    match course
    case None => []
    case Some(c) => c.Lessons.GetOr([])
  }

  /** `course?.Id` */
  function IdOf(course: Option<Course>): Option<string> {
    match course
    case None => None
    case Some(c) => c.Id
  }

  /** `if (this.course) this.course.Lessons = lessons`: only `Lessons` is
      written, and nothing happens when no course is loaded. */
  function WithLessons(course: Option<Course>, lessons: seq<string>): (r: Option<Course>)
    ensures r.None? <==> course.None?
    ensures course.Some? ==> r.value.Lessons == Some(lessons)
    ensures course.Some? ==> r.value.(Lessons := course.value.Lessons) == course.value
  {
    match course
    case None => None
    case Some(c) => Some(c.(Lessons := Some(lessons)))
  }

  /** The lesson list after the optimistic step of `updateCourseLessons`:
      `[...new Set(course?.Lessons).add(lessonId)]`. */
  function Appended(course: Option<Course>, lessonId: string): (lessons: seq<string>)
    ensures lessonId in lessons
    ensures forall y :: y in lessons ==> y in LessonsOf(course) || y == lessonId
  {
    DedupMembers(LessonsOf(course));
    Insert(Dedup(LessonsOf(course)), lessonId)
  }

  /** The lesson list written back when the request fails: the same set with
      `lessonId` deleted. */
  function RolledBack(course: Option<Course>, lessonId: string): (lessons: seq<string>)
    ensures lessonId !in lessons
    ensures forall y :: y in lessons ==> y in LessonsOf(course)
  {
    Delete(Appended(course, lessonId), lessonId)
  }

  /** The optimistic list is the old one without duplicates, with `lessonId`
      added at the end unless it was already there. */
  lemma AppendedShape(course: Option<Course>, lessonId: string)
    ensures lessonId in LessonsOf(course) ==> Appended(course, lessonId) == Dedup(LessonsOf(course))
    ensures lessonId !in LessonsOf(course) ==> Appended(course, lessonId) == Dedup(LessonsOf(course)) + [lessonId]
  {
    DedupMembers(LessonsOf(course));
  }

  /** The optimistic list has no duplicates, holds `lessonId` exactly once,
      and holds exactly the old lessons and `lessonId`. */
  lemma AppendedUnique(course: Option<Course>, lessonId: string)
    ensures NoDup(Appended(course, lessonId))
    ensures multiset(Appended(course, lessonId))[lessonId] == 1
    ensures forall y :: y in Appended(course, lessonId) <==> y in LessonsOf(course) || y == lessonId
  {
    var d := Dedup(LessonsOf(course));
    DedupNoDup(LessonsOf(course));
    DedupMembers(LessonsOf(course));
    assert NoDup(Insert(d, lessonId));
    NoDupOnce(Appended(course, lessonId), lessonId);
  }

  /** Adding the same lesson again after a successful add changes nothing. */
  lemma AppendIdempotent(course: Option<Course>, lessonId: string)
    ensures var once := WithLessons(course, Appended(course, lessonId));
      WithLessons(once, Appended(once, lessonId)) == once
  {
    var once := WithLessons(course, Appended(course, lessonId));
    if course.Some? {
      AppendedUnique(course, lessonId);
      assert LessonsOf(once) == Appended(course, lessonId);
      DedupOfNoDup(LessonsOf(once));
      assert once.value.(Lessons := Some(Appended(course, lessonId))) == once.value;
    }
  }

  /** The rolled-back list is the old one without duplicates and without
      `lessonId`, in the old first-occurrence order. */
  lemma RolledBackShape(course: Option<Course>, lessonId: string)
    ensures RolledBack(course, lessonId) == Delete(Dedup(LessonsOf(course)), lessonId)
    ensures NoDup(RolledBack(course, lessonId))
    ensures forall y :: y in RolledBack(course, lessonId) <==> y in LessonsOf(course) && y != lessonId
  {
    var d := Dedup(LessonsOf(course));
    DedupNoDup(LessonsOf(course));
    DedupMembers(LessonsOf(course));
    if lessonId !in d {
      DeleteConcat(d, [lessonId], lessonId);
      assert Delete([lessonId], lessonId) == [];
    }
    DeleteNoDup(d, lessonId);
  }

  /** Rollback is not a snapshot restore: a lesson that was present before
      the failed call is gone afterwards. */
  lemma RollbackDropsPresentLesson(course: Option<Course>, lessonId: string)
    requires course.Some? && lessonId in LessonsOf(course)
    ensures lessonId !in LessonsOf(WithLessons(course, RolledBack(course, lessonId)))
    ensures WithLessons(course, RolledBack(course, lessonId)) != course
  {
  }

  /** Rollback restores the old list only when `lessonId` was new and the
      old list was present and free of duplicates. */
  lemma RollbackRestoresNewLesson(course: Option<Course>, lessonId: string)
    requires course.Some? && course.value.Lessons.Some?
    requires lessonId !in LessonsOf(course) && NoDup(LessonsOf(course))
    ensures WithLessons(course, RolledBack(course, lessonId)) == course
  {
    RolledBackShape(course, lessonId);
    DedupOfNoDup(LessonsOf(course));
    DeleteAbsent(LessonsOf(course), lessonId);
  }

  /** ... and in no other case: a failed call that leaves the course as it
      was implies that `Lessons` was present, did not hold `lessonId`, and
      had no duplicates. */
  lemma RollbackRestoresOnlyNewLesson(course: Option<Course>, lessonId: string)
    requires course.Some? && WithLessons(course, RolledBack(course, lessonId)) == course
    ensures course.value.Lessons.Some?
    ensures lessonId !in LessonsOf(course) && NoDup(LessonsOf(course))
  {
    RolledBackShape(course, lessonId);
    assert course.value.Lessons == Some(RolledBack(course, lessonId));
    assert LessonsOf(course) == RolledBack(course, lessonId);
  }

  /** Neither outcome of `updateCourseLessons` changes enrolment. */
  lemma LessonsKeepEnrolment(course: Option<Course>, lessons: seq<string>)
    ensures IsEnrolled(WithLessons(course, lessons)) == IsEnrolled(course)
  {
  }

  // ---------------------------------------------------------------- store

  /** The store's state and its actions. Each action is atomic; the awaited
      `$api` call is the `outcome` parameter, and the request handed to
      `$api` is returned beside the action's own result. */
  class Store {
    var course: Option<Course>
    var courses: Option<seq<Course>>

    /** The initial state: nothing loaded. */
    constructor ()
      ensures course == None && courses == None
    {
      course := None;
      courses := None;
    }

    /** `getCourse(id)`: loads the first course of the response, or null for
        an empty response; on failure the state is kept. */
    method GetCourse(id: string, outcome: Outcome<seq<Course>>) returns (r: Result<(), string>, req: Request<Course>)
      modifies this`course
      ensures req == Request(Get, CoursePath(id), NoBody)
      ensures outcome.Resolved? ==>
        r == Success(()) && course == (if |outcome.response| > 0 then Some(outcome.response[0]) else None)
      ensures outcome.Rejected? ==> r == Failure(outcome.message) && course == old(course)
    {
      req := Request(Get, CoursePath(id), NoBody);
      match outcome
      case Resolved(response) =>
        course := if |response| > 0 then Some(response[0]) else None;
        r := Success(());
      case Rejected(message) =>
        r := Failure(message);
    }

    /** `getCourses()`: stores and returns the response; on failure the
        state is kept. */
    method GetCourses(outcome: Outcome<seq<Course>>) returns (r: Result<seq<Course>, string>, req: Request<Course>)
      modifies this`courses
      ensures req == Request(Get, "/course", NoBody)
      ensures outcome.Resolved? ==> r == Success(outcome.response) && courses == Some(outcome.response)
      ensures outcome.Rejected? ==> r == Failure(outcome.message) && courses == old(courses)
    {
      req := Request(Get, "/course", NoBody);
      match outcome
      case Resolved(response) =>
        courses := Some(response);
        r := Success(response);
      case Rejected(message) =>
        r := Failure(message);
    }

    /** `createCourse(payload)`: shows the payload at once; on failure the
        course is cleared, whatever it was before. */
    method CreateCourse(payload: Course, outcome: Outcome<()>) returns (r: Result<(), string>, req: Request<Course>)
      modifies this`course
      ensures req == Request(Post, "/course", CourseBody(payload))
      ensures outcome.Resolved? ==> r == Success(()) && course == Some(payload)
      ensures outcome.Rejected? ==> r == Failure(outcome.message) && course == None
    {
      course := Some(payload);
      req := Request(Post, "/course", CourseBody(payload));
      if outcome.Rejected? {
        course := None;
        r := Failure(outcome.message);
      } else {
        r := Success(());
      }
    }

    /** `updateCourse(payload)`: without a course, nothing happens and no
        request is made; otherwise the payload is spread over the course at
        once, and the snapshot taken before is put back on failure. */
    method UpdateCourse(payload: Course, outcome: Outcome<()>) returns (r: Result<(), string>, sent: Option<Request<Course>>)
      modifies this`course
      ensures old(course).None? ==> r == Success(()) && sent == None && course == None
      ensures old(course).Some? ==>
        sent == Some(Request(Patch, CoursePath(Segment(Spread(old(course).value, payload).Id)), CourseBody(payload)))
      ensures old(course).Some? && outcome.Resolved? ==>
        r == Success(()) && course == Some(Spread(old(course).value, payload))
      ensures old(course).Some? && outcome.Rejected? ==>
        r == Failure(outcome.message) && course == old(course)
    {
      if course.None? {
        return Success(()), None;
      }
      var lastState := course;
      course := Some(Spread(course.value, payload));
      sent := Some(Request(Patch, CoursePath(Segment(course.value.Id)), CourseBody(payload)));
      if outcome.Rejected? {
        course := lastState;
        r := Failure(outcome.message);
      } else {
        r := Success(());
      }
    }

    /** `updateCourseLessons(lessonId)`: adds the lesson to the set built
        from the course's lessons and writes it back at once; on failure
        deletes the lesson from that set and writes it back again. The
        request is sent even when no course is loaded. */
    method UpdateCourseLessons(lessonId: string, outcome: Outcome<()>) returns (r: Result<(), string>, req: Request<Course>)
      modifies this`course
      ensures req == Request(Patch, CoursePath(Segment(IdOf(old(course)))), LessonsBody(Appended(old(course), lessonId)))
      ensures outcome.Resolved? ==>
        r == Success(()) && course == WithLessons(old(course), Appended(old(course), lessonId))
      ensures outcome.Rejected? ==>
        r == Failure(outcome.message) && course == WithLessons(old(course), RolledBack(old(course), lessonId))
    {
      var lessons := NewSet(LessonsOf(course));
      lessons := Insert(lessons, lessonId);
      if course.Some? {
        course := Some(course.value.(Lessons := Some(lessons)));
      }
      req := Request(Patch, CoursePath(Segment(IdOf(course))), LessonsBody(lessons));
      if outcome.Rejected? {
        lessons := Delete(lessons, lessonId);
        if course.Some? {
          course := Some(course.value.(Lessons := Some(lessons)));
        }
        r := Failure(outcome.message);
      } else {
        r := Success(());
      }
    }
  }

  /** Example runs of the store. */
  method Scenarios() {
    var store := new Store();
    var payload := NoFields.(Id := Some("c1"), Done := Some(false));
    var r, req := store.CreateCourse(payload, Resolved(()));
    assert store.course == Some(payload);
    assert !IsEnrolled(store.course);

    store.course := Some(NoFields.(Id := Some("c1"), Lessons := Some(["l1"])));
    r, req := store.UpdateCourseLessons("l2", Rejected("offline"));
    assert r == Failure("offline");
    assert Dedup(["l1"]) == ["l1"];
    assert LessonsOf(store.course) == ["l1"];

    r, req := store.UpdateCourseLessons("l1", Rejected("offline"));
    assert LessonsOf(store.course) == [];

    store.course := None;
    r, req := store.UpdateCourseLessons("l1", Resolved(()));
    assert store.course == None && req.path == "/course/undefined";
  }
}
