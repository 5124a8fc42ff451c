/** The HTTP collaborator `$api`, reduced to what the store sees of it: the
    request it is handed and the outcome the awaited promise settles with. */
module Api {
  import opened Wrappers

  datatype Verb = Get | Post | Patch

  /** The JSON body of a request. */
  datatype Body<C> = NoBody | CourseBody(fields: C) | LessonsBody(lessons: seq<string>)

  datatype Request<C> = Request(verb: Verb, path: string, body: Body<C>)

  /** How the awaited call settles: with the response data, or by throwing
      an error whose message the store forwards. */
  datatype Outcome<R> = Resolved(response: R) | Rejected(message: string)

  /** A template literal `${x}` for `x: string | undefined`: an absent id
      is spelled "undefined", so it cannot be told from the id "undefined". */
  function Segment(id: Option<string>): (s: string)
    ensures id.Some? ==> s == id.value
    ensures s == "undefined" <==> id == None || id == Some("undefined")
  {
    id.GetOr("undefined")
  }

  /** `/course/${segment}` */
  function CoursePath(segment: string): (p: string)
    ensures |p| == |"/course/"| + |segment|
    ensures p[..|"/course/"|] == "/course/" && p[|"/course/"|..] == segment
  {
    "/course/" + segment
  }
}
