# Courses store

A Dafny model of `useCoursesStore`, the Pinia store that holds a course
application's course state. The store keeps two pieces of state: `course`,
the course currently shown, or null; and `courses`, the last fetched list,
or null. It has one getter, `isEnrolled`, and five actions:

- `getCourse` loads one course.
- `getCourses` loads the list.
- `createCourse` shows the new course at once and clears it on failure.
- `updateCourse` spreads a partial update over the course at once and puts
  back a snapshot on failure.
- `updateCourseLessons` adds a lesson id to the course's lesson list,
  using JavaScript `Set` semantics, and deletes it again on failure.

Each action is modelled as an atomic method of the class `Courses.Store`.
The awaited `$api` call becomes a parameter `outcome`: either `Resolved`
with the response data, or `Rejected` with the message of the thrown error.
Each method also returns the `Request` it hands to `$api` (verb, path, body).
`updateCourse` returns `None` there when it makes no request. A failed
action returns `Failure(message)`, which models `throw new Error(message)`.

Files:

- `wrappers.dfy`: `Option` and `Result`.
- `api.dfy`: requests, outcomes and the `/course/${id}` path. An absent id
  is spelled `undefined`, as a template literal does.
- `ordered_set.dfy`: a JavaScript `Set` of strings seen through its
  iteration order. `Insert` models `add`, `Delete` models `delete`, and
  `Dedup(xs)` models `[...new Set(xs)]`. `NewSet` is the `Set` constructor,
  which adds the items one at a time. The lemmas prove that `Dedup` keeps
  exactly the elements of its input, keeps each of them once, and keeps
  them in first-occurrence order. They also prove that `Delete` cuts out
  one element and leaves the rest in order.
- `courses.dfy`: the `Course` record (`CourseParams`, all fields optional),
  object spread, the getter, the store and its actions, and the lemmas
  about the lesson list.

A failed `updateCourseLessons` does not restore the pre-call list. It
deletes `lessonId` from the set instead, so a lesson that was already
present before the call is missing afterwards (`RollbackDropsPresentLesson`).
A course without `Lessons` comes back with an empty list. A failed call
leaves the course exactly as it was if and only if `Lessons` was present,
had no duplicates and did not hold `lessonId` (`RollbackRestoresNewLesson`
and `RollbackRestoresOnlyNewLesson`).

## Model

| member | source | states |
|---|---|---|
| `Courses.Store.constructor` | apps/app/stores/api/courses.ts:13-19 | the store starts with no course and no course list |
| `Courses.IsEnrolled` | apps/app/stores/api/courses.ts:21-23 | enrolled exactly when a course is loaded and its `ContentId` is present and non-empty (`!!""` is false) |
| `Courses.Store.GetCourse` | apps/app/stores/api/courses.ts:26-33 | requests `GET /course/{id}`; on success `course` is the first element of the response, or null when the response is empty; on failure `course` is kept and the error carries the original message; `courses` is never touched |
| `Courses.Store.GetCourses` | apps/app/stores/api/courses.ts:34-42 | requests `GET /course`; on success `courses` is the response and the same list is returned; on failure `courses` is kept and the message is forwarded |
| `Courses.Store.CreateCourse` | apps/app/stores/api/courses.ts:43-54 | posts the payload; on success `course` is the payload; on failure `course` is null whatever it held before, and the message is forwarded |
| `Courses.Store.UpdateCourse` | apps/app/stores/api/courses.ts:55-69 | with no course: no request, no change, normal return; otherwise PATCHes the payload to the merged course's id; on success `course` is the shallow merge; on failure `course` is exactly its pre-call value |
| `Courses.Store.UpdateCourseLessons` | apps/app/stores/api/courses.ts:70-91 | the PATCH body is the deduplicated list with `lessonId` added, and goes to `course?.Id` even when no course is loaded; on success that list becomes `Lessons`; on failure `Lessons` is that list with `lessonId` deleted; no other field and no absent course changes |
| `Courses.WithLessons` | apps/app/stores/api/courses.ts:74-76 | writing the lesson list leaves an absent course absent and changes only the `Lessons` field of a loaded one |
| `Courses.AppendedShape` | apps/app/stores/api/courses.ts:71-75 | the optimistic list is the old list without duplicates, with `lessonId` added at the end exactly when it was not there before |
| `Courses.AppendedUnique` | apps/app/stores/api/courses.ts:71-82 | the optimistic list, which is also the PATCH body, has no duplicates, holds `lessonId` exactly once, and holds exactly the old lessons plus `lessonId` |
| `Courses.AppendIdempotent` | apps/app/stores/api/courses.ts:71-76 | adding the same lesson again after a successful add leaves the course unchanged |
| `Courses.RolledBackShape` | apps/app/stores/api/courses.ts:84-88 | the list written back on failure is the old list without duplicates and with `lessonId` deleted, in first-occurrence order; it has no duplicates, and its elements are the old lessons other than `lessonId` |
| `Courses.RollbackDropsPresentLesson` | apps/app/stores/api/courses.ts:84-88 | if `lessonId` was in the list before a failed call, it is absent afterwards, so the course differs from its pre-call value: rollback is not a snapshot restore |
| `Courses.RollbackRestoresNewLesson` | apps/app/stores/api/courses.ts:84-88 | when `lessonId` was new, and the old list was present and had no duplicates, a failed call restores the course exactly |
| `Courses.RollbackRestoresOnlyNewLesson` | apps/app/stores/api/courses.ts:84-88 | conversely, if a failed call leaves the course unchanged, then `Lessons` was present, had no duplicates and did not hold `lessonId` |
| `Courses.Spread` | apps/app/stores/api/courses.ts:59 | the shallow merge `{ ...course, ...payload }`: each field present in the payload wins, and every other field keeps the course's value |
| `Courses.Appended` | apps/app/stores/api/courses.ts:71-75 | the optimistic lesson list holds `lessonId` and nothing but the old lessons and `lessonId` |
| `Courses.RolledBack` | apps/app/stores/api/courses.ts:85-87 | the list written back on failure does not hold `lessonId` and holds only old lessons |
| `Api.Segment` | apps/app/stores/api/courses.ts:78 | the template literal `${course?.Id}` spells a present id as itself and an absent one as "undefined", so the two are the same path exactly when the id is "undefined" |
| `Api.CoursePath` | apps/app/stores/api/courses.ts:28 | the path `/course/${id}` is the prefix "/course/" followed by the id, unchanged |
| `OrderedSet.Insert` | apps/app/stores/api/courses.ts:72 | `set.add(x)` keeps the old elements in their order at the front, adds at most one element, and afterwards holds exactly the old elements and `x` |
| `OrderedSet.Dedup` | apps/app/stores/api/courses.ts:71 | `[...new Set(xs)]` is never longer than `xs` |
| `Courses.LessonsKeepEnrolment` | apps/app/stores/api/courses.ts:21-23 | writing the lesson list, on either outcome, never changes enrolment |
| `Courses.SpreadNoFields` | apps/app/stores/api/courses.ts:59 | spreading an empty payload over a course leaves it unchanged |
| `Courses.SpreadIdempotent` | apps/app/stores/api/courses.ts:59 | spreading the same payload twice is the same as spreading it once |
| `Courses.SpreadCompose` | apps/app/stores/api/courses.ts:59 | two successive spreads equal one spread of the merged payloads, with the later payload's fields winning |
| `Courses.SpreadKeepsEnrolment` | apps/app/stores/api/courses.ts:22 | an update without `ContentId` leaves enrolment as it was |
| `OrderedSet.NewSet` | apps/app/stores/api/courses.ts:71 | the `Set` constructor, adding the items one at a time, produces `Dedup` of the items |
| `OrderedSet.Delete` | apps/app/stores/api/courses.ts:85 | after `delete(x)` the set holds exactly the old elements other than `x` |
| `OrderedSet.DeleteAt` | apps/app/stores/api/courses.ts:85 | deleting from a list without duplicates cuts out only that element's position; the other elements keep their order |
| `OrderedSet.DeleteAbsent` | apps/app/stores/api/courses.ts:85 | deleting an element that is not present changes nothing |
| `OrderedSet.DeleteNoDup` | apps/app/stores/api/courses.ts:85 | deleting keeps the set free of duplicates |
| `OrderedSet.DedupMembers` | apps/app/stores/api/courses.ts:71 | the set built from a list holds exactly that list's elements |
| `OrderedSet.DedupNoDup` | apps/app/stores/api/courses.ts:71 | the set built from a list holds each element once |
| `OrderedSet.DedupOfNoDup` | apps/app/stores/api/courses.ts:71 | a list without duplicates comes back from `[...new Set(xs)]` unchanged |
| `OrderedSet.DedupIdempotent` | apps/app/stores/api/courses.ts:71 | rebuilding a set from a set's own iteration gives the same order |
| `OrderedSet.DedupFirstOccurrenceOrder` | apps/app/stores/api/courses.ts:71 | the set iterates its elements in the order of their first occurrence in the list it was built from |

## Left out

- The `$api` transport: request construction, headers, JSON parsing and
  the network are not modelled. The call is reduced to the `Request` it is
  given and the `Outcome` it settles with.
- Pinia itself is not modelled: `defineStore`, reactivity and store
  registration are framework lifecycle code.
- Concurrency: two actions in flight at once can race. Each action is
  modelled as atomic, from the state at its start to the state after its
  outcome.
- JavaScript object aliasing and `Object.freeze` are not modelled. Values
  are immutable here. For example, after `createCourse` the payload object
  and `course` are one object in JavaScript. In particular, after a failed
  `updateCourse` the course is the frozen snapshot (courses.ts:58, 66). A
  later `updateCourseLessons` then throws a `TypeError` when it writes
  `Lessons` (courses.ts:75), throws again from its catch block
  (courses.ts:87), and sends no request. The model instead writes `Lessons`
  and sends the PATCH in that case.
- In JavaScript, a payload key that is present with the value `undefined`
  overrides the course's value when spread. The model treats such a key as
  absent: `None` never overrides.
- `TimeTrack` is an opaque integer. The store does no arithmetic on it.
- Response shapes: `getCourse` and `getCourses` assume that the response is
  a list of courses. A falsy first element (`null`), which `|| null` would
  also turn into null, is not modelled.
- Thrown values: only the message of the caught error is kept. A thrown
  value that is not an `Error`, whose `.message` would be `undefined`, is
  not modelled.
