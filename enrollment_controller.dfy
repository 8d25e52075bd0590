/**
 * The enrollment handlers: enrolling in a course (free, card checkout through the
 * payment gateway, or any other method), verifying a gateway payment, listing a user's
 * completed enrollments and recording lesson progress.
 *
 * Each handler is specified by a step function from the database before the request to
 * the database after it and the response (`EnrollStep`, `VerifyStep`, `ProgressStep`),
 * and implemented by a method that updates a `Store` in the order the handler writes.
 * The payment gateway is not modelled: the session it creates, or what it reports about
 * a session, comes in as a parameter.
 */
module EnrollmentController {
  import opened Wrappers
  import opened Schemas
  import opened Database

  /** A checkout session the gateway created: its id and the URL where the user pays. */
  datatype CheckoutSession = CheckoutSession(id: string, url: string)

  /** What the gateway reports about a session: whether it is paid, and the user and
      course recorded in its metadata. */
  datatype GatewaySession = GatewaySession(paid: bool, userId: Id, courseId: Id)

  datatype EnrollOutcome =
    | Enrolled
    | CheckoutStarted(sessionUrl: string)
    | AlreadyEnrolled
    | CourseNotFound
    | GatewayError       // creating the checkout session failed
    | ValidationError    // the enrollment failed validation on save

  datatype VerifyOutcome = Verified | PaymentNotCompleted | SessionLookupFailed

  datatype ProgressOutcome = ProgressSaved(progress: Progress) | EnrollmentNotFound | ProgressRejected


  predicate NoDup<T(==)>(xs: seq<T>) {
    forall i, j :: 0 <= i < j < |xs| ==> xs[i] != xs[j]
  }

  // ---------------------------------------------------------------- updates

  /** `$addToSet`: `x` joins the list unless it is already there. */
  function AddToSet(xs: seq<Id>, x: Id): (r: seq<Id>)
    ensures forall y :: y in r <==> y in xs || y == x
    ensures |xs| <= |r| && r[..|xs|] == xs
    ensures NoDup(xs) ==> NoDup(r)
    ensures x in xs ==> r == xs
  {
    if x in xs then xs else xs + [x]
  }

  /** `$addToSet` of a course on a user's enrolled courses; nothing when there is no such user. */
  function AddEnrolledCourse(db: Db, userId: Id, courseId: Id): (r: Db)
    ensures r.enrollments == db.enrollments && r.courses == db.courses && r.reviews == db.reviews
    ensures r.users.Keys == db.users.Keys
    ensures forall u :: u in db.users && u != userId ==> r.users[u] == db.users[u]
    ensures userId in db.users ==>
      r.users[userId] == db.users[userId].(enrolledCourses := AddToSet(db.users[userId].enrolledCourses, courseId))
  {
    if userId in db.users then
      var user := db.users[userId];
      db.(users := db.users[userId := user.(enrolledCourses := AddToSet(user.enrolledCourses, courseId))])
    else db
  }

  /** `$inc` of a course's enrollment counter; nothing when there is no such course. */
  function IncrementStudents(db: Db, courseId: Id): (r: Db)
    ensures r.enrollments == db.enrollments && r.users == db.users && r.reviews == db.reviews
    ensures r.courses.Keys == db.courses.Keys
    ensures forall c :: c in db.courses && c != courseId ==> r.courses[c] == db.courses[c]
    ensures courseId in db.courses ==>
      r.courses[courseId] == db.courses[courseId].(studentsEnrolled := db.courses[courseId].studentsEnrolled + 1)
  {
    if courseId in db.courses then
      var course := db.courses[courseId];
      db.(courses := db.courses[courseId := course.(studentsEnrolled := course.studentsEnrolled + 1)])
    else db
  }

  // ---------------------------------------------------------------- enrollInCourse

  /** The payment method as stored: a missing one is stored as nothing at all. */
  function StoredMethod(paymentMethod: Option<string>): string {
    if paymentMethod.Some? then paymentMethod.value else ""
  }

  /** The enrollment a request creates before it is saved: it snapshots the course's
      lesson count and price, starts with no progress, and is completed exactly when
      the course is taken for free. */
  function NewEnrollment(userId: Id, courseId: Id, course: Course, paymentMethod: string): (e: Enrollment)
    ensures e.userId == userId && e.courseId == courseId
    ensures e.progress == Progress([], |course.lessons|, Finite(0.0), 0)
    ensures e.payment.amount == course.price && e.payment.paymentMethod == paymentMethod
    ensures e.payment.transactionId.None?
    ensures e.payment.paymentStatus == Completed <==> paymentMethod == "free"
    ensures e.payment.paymentStatus != Completed ==> e.payment.paymentStatus == Pending
    ensures !e.certificateIssued && e.isActive
  {
    var e := EnrollmentDefaults(userId, courseId, |course.lessons|, course.price, paymentMethod);
    e.(payment := e.payment.(paymentStatus := if paymentMethod == "free" then Completed else Pending))
  }

  /** `enrollInCourse`: refuses a second enrollment for the pair (whatever the first one's
      status) and an unknown course; for `"stripe"` it opens a checkout session and stores
      a pending enrollment carrying the session id; otherwise it stores the enrollment,
      adds the course to the user and counts one more student. */
  function EnrollStep(db: Db, userId: Id, courseId: Id, paymentMethod: Option<string>,
                      checkout: Option<CheckoutSession>): Step<EnrollOutcome>
  {
    var key := (userId, courseId);
    if key in db.enrollments then Step(db, AlreadyEnrolled)
    else if courseId !in db.courses then Step(db, CourseNotFound)
    else
      var chosen := StoredMethod(paymentMethod);
      var e := NewEnrollment(userId, courseId, db.courses[courseId], chosen);
      if chosen == "stripe" then
        match checkout
        case None => Step(db, GatewayError)
        case Some(session) =>
          var pending := e.(payment := e.payment.(transactionId := Some(session.id)));
          Step(db.(enrollments := db.enrollments[key := pending]), CheckoutStarted(session.url))
      else if !ValidEnrollment(e) then Step(db, ValidationError)
      else
        var saved := db.(enrollments := db.enrollments[key := e]);
        Step(IncrementStudents(AddEnrolledCourse(saved, userId, courseId), courseId), Enrolled)
  }

  /** An existing enrollment for the pair, or an unknown course, refuses the request and
      leaves every collection as it was. */
  lemma EnrollRefusals(db: Db, userId: Id, courseId: Id, paymentMethod: Option<string>,
                       checkout: Option<CheckoutSession>)
    ensures (userId, courseId) in db.enrollments ==>
      EnrollStep(db, userId, courseId, paymentMethod, checkout) == Step(db, AlreadyEnrolled)
    ensures (userId, courseId) !in db.enrollments && courseId !in db.courses ==>
      EnrollStep(db, userId, courseId, paymentMethod, checkout) == Step(db, CourseNotFound)
    ensures var r := EnrollStep(db, userId, courseId, paymentMethod, checkout);
      !r.out.Enrolled? && !r.out.CheckoutStarted? ==> r.db == db
  {
  }

  /** The card branch stores exactly one new, pending enrollment carrying the session id,
      and touches neither the user nor the course. */
  lemma EnrollByCard(db: Db, userId: Id, courseId: Id, session: CheckoutSession)
    requires (userId, courseId) !in db.enrollments && courseId in db.courses
    ensures var r := EnrollStep(db, userId, courseId, Some("stripe"), Some(session));
      && r.out == CheckoutStarted(session.url)
      && r.db.users == db.users && r.db.courses == db.courses && r.db.reviews == db.reviews
      && r.db.enrollments.Keys == db.enrollments.Keys + {(userId, courseId)}
      && (forall k :: k in db.enrollments ==> r.db.enrollments[k] == db.enrollments[k])
      && r.db.enrollments[(userId, courseId)].payment.paymentStatus == Pending
      && r.db.enrollments[(userId, courseId)].payment.transactionId == Some(session.id)
      && var e := NewEnrollment(userId, courseId, db.courses[courseId], "stripe");
         r.db.enrollments[(userId, courseId)] == e.(payment := e.payment.(transactionId := Some(session.id)))
  {
  }

  /** Any other method stores the enrollment (completed for `"free"`, pending otherwise),
      adds the course to the user's list without duplicating it, and raises the course's
      counter by exactly one; nothing else changes. */
  lemma EnrollDirect(db: Db, userId: Id, courseId: Id, chosen: string)
    requires (userId, courseId) !in db.enrollments && courseId in db.courses
    requires chosen != "stripe" && chosen != ""
    ensures var r := EnrollStep(db, userId, courseId, Some(chosen), None);
      && r.out == Enrolled
      && r.db.enrollments == db.enrollments[(userId, courseId) := NewEnrollment(userId, courseId, db.courses[courseId], chosen)]
      && (r.db.enrollments[(userId, courseId)].payment.paymentStatus == Completed <==> chosen == "free")
      && r.db.courses.Keys == db.courses.Keys
      && r.db.courses[courseId].studentsEnrolled == db.courses[courseId].studentsEnrolled + 1
      && (forall c :: c in db.courses && c != courseId ==> r.db.courses[c] == db.courses[c])
      && r.db.courses[courseId] == db.courses[courseId].(studentsEnrolled := db.courses[courseId].studentsEnrolled + 1)
      && r.db.users.Keys == db.users.Keys
      && (userId in db.users ==> courseId in r.db.users[userId].enrolledCourses)
      && (userId in db.users ==>
            r.db.users[userId] == db.users[userId].(enrolledCourses := AddToSet(db.users[userId].enrolledCourses, courseId)))
      && (forall u :: u in db.users && u != userId ==> r.db.users[u] == db.users[u])
      && r.db.reviews == db.reviews
  {
  }

  // ---------------------------------------------------------------- verifyEnrollment

  /** Marks the enrollment for the pair completed when it carries the session id. */
  function CompleteMatching(db: Db, key: (Id, Id), sessionId: string): (r: Db)
    ensures r.courses == db.courses && r.users == db.users && r.reviews == db.reviews
    ensures r.enrollments.Keys == db.enrollments.Keys
    ensures forall k :: k in db.enrollments && k != key ==> r.enrollments[k] == db.enrollments[k]
  {
    if key in db.enrollments && db.enrollments[key].payment.transactionId == Some(sessionId) then
      var e := db.enrollments[key];
      db.(enrollments := db.enrollments[key := e.(payment := e.payment.(paymentStatus := Completed))])
    else db
  }

  /** `verifyEnrollment`: when the gateway reports the session paid, the enrollment
      matching the metadata and the session id is marked completed, the course is added
      to the user, and the course's counter goes up by one, on every such call. */
  function VerifyStep(db: Db, sessionId: string, session: Option<GatewaySession>): Step<VerifyOutcome> {
    match session
    case None => Step(db, SessionLookupFailed)
    case Some(s) =>
      if !s.paid then Step(db, PaymentNotCompleted)
      else
        var marked := CompleteMatching(db, (s.userId, s.courseId), sessionId);
        Step(IncrementStudents(AddEnrolledCourse(marked, s.userId, s.courseId), s.courseId), Verified)
  }

  /** An unpaid session, or one the gateway cannot find, writes nothing. */
  lemma VerifyUnpaidWritesNothing(db: Db, sessionId: string, session: Option<GatewaySession>)
    requires session.None? || !session.value.paid
    ensures VerifyStep(db, sessionId, session).db == db
    ensures VerifyStep(db, sessionId, session).out != Verified
  {
  }

  /** A paid session completes the matching enrollment (only when it carries the session
      id), set-adds the course to the user and raises the course's counter by one;
      nothing else changes. */
  lemma VerifyPaid(db: Db, sessionId: string, s: GatewaySession)
    requires s.paid
    ensures var r := VerifyStep(db, sessionId, Some(s));
      var key := (s.userId, s.courseId);
      && r.out == Verified
      && r.db.enrollments.Keys == db.enrollments.Keys
      && (forall k :: k in db.enrollments && k != key ==> r.db.enrollments[k] == db.enrollments[k])
      && (key in db.enrollments && db.enrollments[key].payment.transactionId == Some(sessionId) ==>
            r.db.enrollments[key] == db.enrollments[key].(payment := db.enrollments[key].payment.(paymentStatus := Completed)))
      && (key in db.enrollments && db.enrollments[key].payment.transactionId != Some(sessionId) ==>
            r.db.enrollments[key] == db.enrollments[key])
      && r.db.users.Keys == db.users.Keys
      && (forall u :: u in db.users && u != s.userId ==> r.db.users[u] == db.users[u])
      && (s.userId in db.users ==>
            r.db.users[s.userId] == db.users[s.userId].(enrolledCourses := AddToSet(db.users[s.userId].enrolledCourses, s.courseId)))
      && r.db.courses.Keys == db.courses.Keys
      && (forall c :: c in db.courses && c != s.courseId ==> r.db.courses[c] == db.courses[c])
      && (s.courseId in db.courses ==>
            r.db.courses[s.courseId] == db.courses[s.courseId].(studentsEnrolled := db.courses[s.courseId].studentsEnrolled + 1))
      && r.db.reviews == db.reviews
  {
  }

  /** Verifying the same paid session twice counts the student twice, while the user's
      list and the enrollments end as after one call. */
  lemma {:induction false} VerifyTwice(db: Db, sessionId: string, s: GatewaySession)
    requires s.paid && s.courseId in db.courses
    ensures var once := VerifyStep(db, sessionId, Some(s)).db;
      var twice := VerifyStep(once, sessionId, Some(s)).db;
      && twice.courses[s.courseId].studentsEnrolled == db.courses[s.courseId].studentsEnrolled + 2
      && twice.users == once.users
      && twice.enrollments == once.enrollments
  {
    var key := (s.userId, s.courseId);
    var once := VerifyStep(db, sessionId, Some(s)).db;
    var marked := CompleteMatching(once, key, sessionId);
    assert marked.enrollments == once.enrollments;
    var added := AddEnrolledCourse(marked, s.userId, s.courseId);
    assert added.users == once.users;
  }

  /** A card enrollment followed by a paid verification of its session ends completed,
      listed on the user and counted once. */
  lemma {:induction false} CardThenVerify(db: Db, userId: Id, courseId: Id, session: CheckoutSession)
    requires (userId, courseId) !in db.enrollments && courseId in db.courses && userId in db.users
    ensures var started := EnrollStep(db, userId, courseId, Some("stripe"), Some(session)).db;
      var done := VerifyStep(started, session.id, Some(GatewaySession(true, userId, courseId))).db;
      && done.enrollments[(userId, courseId)].payment.paymentStatus == Completed
      && courseId in done.users[userId].enrolledCourses
      && done.courses[courseId].studentsEnrolled == db.courses[courseId].studentsEnrolled + 1
  {
    EnrollByCard(db, userId, courseId, session);
  }

  // ---------------------------------------------------------------- getUserEnrollments

  /** The completed enrollments of a user, by course. */
  method GetUserEnrollments(store: Store, userId: Id) returns (found: map<Id, Enrollment>)
    ensures forall c :: c in found <==>
      (userId, c) in store.enrollments && store.enrollments[(userId, c)].payment.paymentStatus == Completed
    ensures forall c :: c in found ==> found[c] == store.enrollments[(userId, c)]
  {
    var keys := set k | k in store.enrollments && k.0 == userId
      && store.enrollments[k].payment.paymentStatus == Completed;
    found := map k | k in keys :: k.1 := store.enrollments[k];
  }

  // ---------------------------------------------------------------- updateProgress

  /** `completed / total * 100`; a course without lessons gives Infinity. */
  function Percentage(completed: nat, total: nat): (p: Percent)
    requires completed > 0
    ensures total == 0 <==> p.Infinity?
    ensures p.Finite? ==> p.value > 0.0 && (p.value <= 100.0 <==> completed <= total)
  {
    if total == 0 then Infinity
    else
      var q := completed as real / total as real;
      assert q <= 1.0 <==> completed <= total by {
        assert completed as real == q * total as real;
      }
      Finite(q * 100.0)
  }

  /** `updateProgress`: appends the lesson unless it is already completed, recomputes
      the percentage only on an append, and always records the lesson as last accessed. */
  function ProgressStep(db: Db, userId: Id, courseId: Id, lessonOrder: int): Step<ProgressOutcome> {
    var key := (userId, courseId);
    if key !in db.enrollments then Step(db, EnrollmentNotFound)
    else
      var e := db.enrollments[key];
      var p := e.progress;
      var appended :=
        if lessonOrder in p.completedLessons then p
        else
          var done := p.completedLessons + [lessonOrder];
          p.(completedLessons := done, progressPercentage := Percentage(|done|, p.totalLessons));
      var p' := appended.(lastAccessedLesson := lessonOrder);
      var e' := e.(progress := p');
      if !ValidEnrollment(e') then Step(db, ProgressRejected)
      else Step(db.(enrollments := db.enrollments[key := e']), ProgressSaved(p'))
  }

  /** The percentage a progress record should show for its completed lessons. */
  function ExpectedPercent(p: Progress): Percent {
    if |p.completedLessons| == 0 then Finite(0.0) else Percentage(|p.completedLessons|, p.totalLessons)
  }

  /** Recording progress only ever adds lessons, keeps them distinct, keeps the percentage
      in step with them, and remembers the lesson last accessed. */
  lemma {:induction false} ProgressGrows(db: Db, userId: Id, courseId: Id, lessonOrder: int)
    requires (userId, courseId) in db.enrollments
    requires ValidEnrollment(db.enrollments[(userId, courseId)])
    ensures var old_ := db.enrollments[(userId, courseId)].progress;
      var r := ProgressStep(db, userId, courseId, lessonOrder);
      && r.out.ProgressSaved?
      && r.db.enrollments == db.enrollments[(userId, courseId) := db.enrollments[(userId, courseId)].(progress := r.out.progress)]
      && r.out.progress.totalLessons == old_.totalLessons
      && r.out.progress.lastAccessedLesson == lessonOrder
      && lessonOrder in r.out.progress.completedLessons
      && (forall l :: l in r.out.progress.completedLessons <==> l in old_.completedLessons || l == lessonOrder)
      && (NoDup(old_.completedLessons) ==> NoDup(r.out.progress.completedLessons))
      && (lessonOrder in old_.completedLessons ==> r.out.progress.completedLessons == old_.completedLessons
                                                   && r.out.progress.progressPercentage == old_.progressPercentage)
      && (lessonOrder !in old_.completedLessons ==> r.out.progress.progressPercentage == ExpectedPercent(r.out.progress))
      && (lessonOrder !in old_.completedLessons ==> r.out.progress.completedLessons == old_.completedLessons + [lessonOrder])
      && r.db.courses == db.courses && r.db.users == db.users && r.db.reviews == db.reviews
  {
  }

  /** Progress for a pair without an enrollment is refused and nothing is written. */
  lemma ProgressNotFound(db: Db, userId: Id, courseId: Id, lessonOrder: int)
    requires (userId, courseId) !in db.enrollments
    ensures ProgressStep(db, userId, courseId, lessonOrder) == Step(db, EnrollmentNotFound)
  {
  }

  /** Percentages in order, with Infinity above every finite value. */
  predicate PercentAtMost(a: Percent, b: Percent) {
    b.Infinity? || (a.Finite? && a.value <= b.value)
  }

  /** Whatever the lesson number, a saved progress record never shows a lower percentage
      than before, as long as the stored one agreed with its lessons. */
  lemma {:induction false} ProgressMonotone(db: Db, userId: Id, courseId: Id, lessonOrder: int)
    requires (userId, courseId) in db.enrollments
    requires ProgressConsistent(db.enrollments[(userId, courseId)].progress)
    ensures var r := ProgressStep(db, userId, courseId, lessonOrder);
      r.out.ProgressSaved? ==>
        PercentAtMost(db.enrollments[(userId, courseId)].progress.progressPercentage, r.out.progress.progressPercentage)
  {
    var p := db.enrollments[(userId, courseId)].progress;
    var n := |p.completedLessons|;
    if lessonOrder !in p.completedLessons && p.totalLessons > 0 && n > 0 {
      var t := p.totalLessons as real;
      assert n as real / t <= (n + 1) as real / t by {
        assert (n + 1) as real / t - n as real / t == 1.0 / t;
      }
    }
  }

  /** Nothing bounds the lesson number, so a one-lesson course can show 200%. */
  lemma ProgressCanExceedHundred(db: Db, userId: Id, courseId: Id, e: Enrollment)
    requires e.progress == Progress([1], 1, Finite(100.0), 1) && ValidEnrollment(e)
    requires db.enrollments == map[(userId, courseId) := e]
    ensures ProgressStep(db, userId, courseId, 2).out.progress.progressPercentage == Finite(200.0)
  {
  }

  // ---------------------------------------------------------------- invariant

  /** The progress record agrees with its completed lessons. */
  predicate ProgressConsistent(p: Progress) {
    NoDup(p.completedLessons) && p.progressPercentage == ExpectedPercent(p)
  }

  /** What the enrollment handlers keep true of the database, beyond validation:
      progress records agree with their lessons, users list each course once, and a
      completed enrollment's course is listed on its user. */
  predicate Consistent(db: Db) {
    && (forall k :: k in db.enrollments ==> ProgressConsistent(db.enrollments[k].progress))
    && (forall u :: u in db.users ==> NoDup(db.users[u].enrolledCourses))
    && (forall k :: k in db.enrollments && db.enrollments[k].payment.paymentStatus == Completed && k.0 in db.users
          ==> k.1 in db.users[k.0].enrolledCourses)
  }

  /** The set-add keeps every user valid and every list of courses duplicate-free, and
      drops no course from any list. */
  lemma {:induction false} AddEnrolledCourseKeepsUsers(db: Db, userId: Id, courseId: Id)
    requires SchemaValid(db)
    requires forall u :: u in db.users ==> NoDup(db.users[u].enrolledCourses)
    ensures var r := AddEnrolledCourse(db, userId, courseId);
      && SchemaValid(r)
      && (forall u :: u in r.users ==> NoDup(r.users[u].enrolledCourses))
      && (forall u :: u in db.users ==> forall c :: c in db.users[u].enrolledCourses ==> c in r.users[u].enrolledCourses)
  {
    var r := AddEnrolledCourse(db, userId, courseId);
    if userId in db.users {
      assert forall u :: u in r.users ==> r.users[u].email == db.users[u].email;
      assert forall u :: u in r.users ==> ValidUser(r.users[u]);
    }
  }

  lemma {:induction false} AddEnrolledCoursePreserves(db: Db, userId: Id, courseId: Id)
    requires SchemaValid(db) && Consistent(db)
    ensures var r := AddEnrolledCourse(db, userId, courseId);
      SchemaValid(r) && Consistent(r)
      && (forall u :: u in db.users ==> forall c :: c in db.users[u].enrolledCourses ==> c in r.users[u].enrolledCourses)
  {
    AddEnrolledCourseKeepsUsers(db, userId, courseId);
    AddEnrolledCoursePreserves2(db, userId, courseId);
  }

  lemma {:induction false} IncrementStudentsPreserves(db: Db, courseId: Id)
    requires SchemaValid(db) && Consistent(db)
    ensures SchemaValid(IncrementStudents(db, courseId)) && Consistent(IncrementStudents(db, courseId))
  {
  }

  /** Saving a valid enrollment with no progress into a free slot keeps the database
      valid, and consistent apart from listing the course on the user. */
  lemma {:induction false} SaveNewPreserves(db: Db, e: Enrollment)
    requires SchemaValid(db) && Consistent(db)
    requires (e.userId, e.courseId) !in db.enrollments && ValidEnrollment(e)
    requires e.progress.completedLessons == [] && e.progress.progressPercentage == Finite(0.0)
    ensures var saved := db.(enrollments := db.enrollments[(e.userId, e.courseId) := e]);
      && SchemaValid(saved)
      && (forall k :: k in saved.enrollments ==> ProgressConsistent(saved.enrollments[k].progress))
      && (forall k :: k in saved.enrollments && k != (e.userId, e.courseId)
            && saved.enrollments[k].payment.paymentStatus == Completed && k.0 in saved.users
            ==> k.1 in saved.users[k.0].enrolledCourses)
      && (e.payment.paymentStatus != Completed ==> Consistent(saved))
  {
    assert ProgressConsistent(e.progress);
  }

  /** Enrolling keeps the database valid and consistent. */
  lemma {:induction false} EnrollPreserves(db: Db, userId: Id, courseId: Id, paymentMethod: Option<string>,
                                           checkout: Option<CheckoutSession>)
    requires SchemaValid(db) && Consistent(db)
    ensures var r := EnrollStep(db, userId, courseId, paymentMethod, checkout).db;
      SchemaValid(r) && Consistent(r)
  {
    var key := (userId, courseId);
    if key !in db.enrollments && courseId in db.courses {
      var chosen := StoredMethod(paymentMethod);
      var e := NewEnrollment(userId, courseId, db.courses[courseId], chosen);
      if chosen == "stripe" {
        if checkout.Some? {
          SaveNewPreserves(db, e.(payment := e.payment.(transactionId := Some(checkout.value.id))));
        }
      } else if ValidEnrollment(e) {
        SaveNewPreserves(db, e);
        var saved := db.(enrollments := db.enrollments[key := e]);
        AddEnrolledCoursePreserves2(saved, userId, courseId);
        IncrementStudentsPreserves(AddEnrolledCourse(saved, userId, courseId), courseId);
      }
    }
  }

  /** Adding the course to the user of a freshly saved enrollment restores consistency. */
  lemma {:induction false} AddEnrolledCoursePreserves2(saved: Db, userId: Id, courseId: Id)
    requires SchemaValid(saved)
    requires forall k :: k in saved.enrollments ==> ProgressConsistent(saved.enrollments[k].progress)
    requires forall u :: u in saved.users ==> NoDup(saved.users[u].enrolledCourses)
    requires forall k :: k in saved.enrollments && k != (userId, courseId)
               && saved.enrollments[k].payment.paymentStatus == Completed && k.0 in saved.users
               ==> k.1 in saved.users[k.0].enrolledCourses
    ensures SchemaValid(AddEnrolledCourse(saved, userId, courseId))
    ensures Consistent(AddEnrolledCourse(saved, userId, courseId))
  {
    var r := AddEnrolledCourse(saved, userId, courseId);
    AddEnrolledCourseKeepsUsers(saved, userId, courseId);
    if userId in saved.users {
      forall k | k in r.enrollments && r.enrollments[k].payment.paymentStatus == Completed && k.0 in r.users
        ensures k.1 in r.users[k.0].enrolledCourses
      {
        if k != (userId, courseId) {
          assert k.1 in saved.users[k.0].enrolledCourses;
        }
      }
    }
  }

  /** Verifying a payment keeps the database valid and consistent. */
  lemma {:induction false} VerifyPreserves(db: Db, sessionId: string, session: Option<GatewaySession>)
    requires SchemaValid(db) && Consistent(db)
    ensures var r := VerifyStep(db, sessionId, session).db;
      SchemaValid(r) && Consistent(r)
  {
    if session.Some? && session.value.paid {
      var s := session.value;
      var marked := CompleteMatching(db, (s.userId, s.courseId), sessionId);
      AddEnrolledCoursePreserves2(marked, s.userId, s.courseId);
      IncrementStudentsPreserves(AddEnrolledCourse(marked, s.userId, s.courseId), s.courseId);
    }
  }

  /** Recording progress keeps the database valid and consistent. */
  lemma {:induction false} ProgressPreserves(db: Db, userId: Id, courseId: Id, lessonOrder: int)
    requires SchemaValid(db) && Consistent(db)
    ensures var r := ProgressStep(db, userId, courseId, lessonOrder).db;
      SchemaValid(r) && Consistent(r)
  {
    if (userId, courseId) in db.enrollments {
      ProgressGrows(db, userId, courseId, lessonOrder);
    }
  }

  // ---------------------------------------------------------------- handlers on the store

  /** `enrollInCourse` on the shared store. */
  method EnrollInCourse(store: Store, userId: Id, courseId: Id, paymentMethod: Option<string>,
                        checkout: Option<CheckoutSession>) returns (out: EnrollOutcome)
    modifies store
    ensures Step(store.Snapshot(), out) == EnrollStep(old(store.Snapshot()), userId, courseId, paymentMethod, checkout)
  {
    if (userId, courseId) in store.enrollments {
      return AlreadyEnrolled;
    }
    if courseId !in store.courses {
      return CourseNotFound;
    }
    var chosen := StoredMethod(paymentMethod);
    var enrollment := NewEnrollment(userId, courseId, store.courses[courseId], chosen);
    if chosen == "stripe" {
      if checkout.None? {
        return GatewayError;
      }
      var session := checkout.value;
      enrollment := enrollment.(payment := enrollment.payment.(transactionId := Some(session.id)));
      store.enrollments := store.enrollments[(userId, courseId) := enrollment];
      return CheckoutStarted(session.url);
    }
    if !ValidEnrollment(enrollment) {
      return ValidationError;
    }
    store.enrollments := store.enrollments[(userId, courseId) := enrollment];
    if userId in store.users {
      var user := store.users[userId];
      store.users := store.users[userId := user.(enrolledCourses := AddToSet(user.enrolledCourses, courseId))];
    }
    if courseId in store.courses {
      var course := store.courses[courseId];
      store.courses := store.courses[courseId := course.(studentsEnrolled := course.studentsEnrolled + 1)];
    }
    return Enrolled;
  }

  /** `verifyEnrollment` on the shared store. */
  method VerifyEnrollment(store: Store, sessionId: string, session: Option<GatewaySession>) returns (out: VerifyOutcome)
    modifies store
    ensures Step(store.Snapshot(), out) == VerifyStep(old(store.Snapshot()), sessionId, session)
  {
    if session.None? {
      return SessionLookupFailed;
    }
    var s := session.value;
    if !s.paid {
      return PaymentNotCompleted;
    }
    var key := (s.userId, s.courseId);
    if key in store.enrollments && store.enrollments[key].payment.transactionId == Some(sessionId) {
      var e := store.enrollments[key];
      store.enrollments := store.enrollments[key := e.(payment := e.payment.(paymentStatus := Completed))];
    }
    if s.userId in store.users {
      var user := store.users[s.userId];
      store.users := store.users[s.userId := user.(enrolledCourses := AddToSet(user.enrolledCourses, s.courseId))];
    }
    if s.courseId in store.courses {
      var course := store.courses[s.courseId];
      store.courses := store.courses[s.courseId := course.(studentsEnrolled := course.studentsEnrolled + 1)];
    }
    return Verified;
  }

  /** `updateProgress` on the shared store: the enrollment document is changed in place
      and saved. */
  method UpdateProgress(store: Store, userId: Id, courseId: Id, lessonOrder: int) returns (out: ProgressOutcome)
    requires store.Valid() && Consistent(store.Snapshot())
    modifies store
    ensures Step(store.Snapshot(), out) == ProgressStep(old(store.Snapshot()), userId, courseId, lessonOrder)
    ensures store.Valid() && Consistent(store.Snapshot())
  {
    ProgressPreserves(store.Snapshot(), userId, courseId, lessonOrder);
    var key := (userId, courseId);
    if key !in store.enrollments {
      return EnrollmentNotFound;
    }
    var enrollment := store.enrollments[key];
    var progress := enrollment.progress;
    if lessonOrder !in progress.completedLessons {
      progress := progress.(completedLessons := progress.completedLessons + [lessonOrder]);
      progress := progress.(progressPercentage := Percentage(|progress.completedLessons|, progress.totalLessons));
    }
    progress := progress.(lastAccessedLesson := lessonOrder);
    enrollment := enrollment.(progress := progress);
    if !ValidEnrollment(enrollment) {
      return ProgressRejected;
    }
    store.enrollments := store.enrollments[key := enrollment];
    return ProgressSaved(progress);
  }
}
