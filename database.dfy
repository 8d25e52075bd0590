/**
 * The database the controllers work against: the enrollment, course, user and review
 * collections, held by one mutable store. Unique indexes are map keys or store
 * invariants; validation that runs on save is the `SchemaValid` invariant.
 */
module Database {
  import opened Wrappers
  import opened Schemas

  /** The contents of the four collections at one moment. Enrollments are keyed by their
      unique (userId, courseId) index; reviews keep their insertion order. */
  datatype Db = Db(
    enrollments: map<(Id, Id), Enrollment>,
    courses: map<Id, Course>,
    users: map<Id, User>,
    reviews: seq<Review>)

  /** What the schemas and unique indexes guarantee of stored documents. Courses are not
      required to be valid: an update writes them without running the validators. */
  predicate SchemaValid(db: Db) {
    && EnrollmentsKeyed(db.enrollments)
    && (forall k :: k in db.enrollments ==> ValidEnrollment(db.enrollments[k]))
    && (forall u :: u in db.users ==> ValidUser(db.users[u]))
    && UniqueEmails(db.users)
    && (forall i :: 0 <= i < |db.reviews| ==> ValidReview(db.reviews[i]))
    && ReviewsUnique(db.reviews)
  }

  /** The reviews of one course, in insertion order. */
  function ReviewsOf(reviews: seq<Review>, courseId: Id): (rs: seq<Review>)
    ensures |rs| <= |reviews|
    ensures forall r :: r in rs <==> r in reviews && r.courseId == courseId
  {
    if reviews == [] then []
    else
      var rest := ReviewsOf(reviews[1..], courseId);
      assert forall r :: r in reviews <==> r == reviews[0] || r in reviews[1..];
      if reviews[0].courseId == courseId then [reviews[0]] + rest else rest
  }

  /** The database after a request, and the response. */
  datatype Step<O> = Step(db: Db, out: O)

  /** The shared, mutable database. */
  class Store {
    var enrollments: map<(Id, Id), Enrollment>
    var courses: map<Id, Course>
    var users: map<Id, User>
    var reviews: seq<Review>

    /** The collections as one value. */
    function Snapshot(): Db
      reads this
    {
      Db(enrollments, courses, users, reviews)
    }

    predicate Valid()
      reads this
    {
      SchemaValid(Snapshot())
    }

    /** An empty database. */
    constructor ()
      ensures Valid()
      ensures Snapshot() == Db(map[], map[], map[], [])
    {
      enrollments, courses, users, reviews := map[], map[], map[], [];
    }
  }
}
