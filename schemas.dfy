/**
 * The four document shapes of the marketplace (course, enrollment, user, review) with
 * their enumerations, required fields and defaults.
 *
 * Conventions: a required string field is a `string` and the empty string stands for
 * "missing" (the required-string validator refuses both); an optional field is an
 * `Option`; an enumerated field that some operation can write without validation is a
 * `string` checked by a validity predicate. Document ids are natural numbers.
 */
module Schemas {
  import opened Wrappers

  /** A document id (an ObjectId). */
  type Id = nat

  /** The 34 course categories, in schema order. */
  const Categories: seq<string> := [
    "Ads Courses", "Affiliate Marketing Courses", "Agency Courses", "AI Courses",
    "Amazon Courses", "Best Courses", "Blogging Courses", "Business Courses",
    "Copywriting Courses", "Crypto Courses", "Dating & Relationships", "Design Courses",
    "Dropshipping Courses", "E-commerce Courses", "Email Marketing", "Forex Courses",
    "LinkedIn Courses", "Marketing Courses", "Music Courses", "Notion Courses",
    "Personal Development", "Premium Courses", "Productivity & Growth", "Real Estate Courses",
    "SAAS Courses", "Sales & Business Courses", "Sales Courses", "SEO Courses",
    "Social Media Courses", "TikTok Courses", "Trading Courses", "Video Editing & Design",
    "Web Design and Development Courses", "Youtube Courses"
  ]

  const Levels: seq<string> := ["Beginner", "Intermediate", "Advanced"]

  const ResourceTypes: seq<string> := ["pdf", "excel", "link", "image"]

  const TradingExperiences: seq<string> := ["Beginner", "Intermediate", "Advanced", "Professional"]

  const Markets: seq<string> := ["Forex", "Stocks", "Crypto", "Options", "Futures"]

  // ---------------------------------------------------------------- course

  datatype Resource = Resource(title: Option<string>, url: Option<string>, kind: Option<string>)

  datatype Lesson = Lesson(
    title: string,
    description: Option<string>,
    videoUrl: string,
    duration: Option<string>,
    order: int,
    resources: seq<Resource>)

  datatype SocialLinks = SocialLinks(twitter: Option<string>, linkedin: Option<string>, youtube: Option<string>)

  datatype Instructor = Instructor(
    name: string,
    bio: Option<string>,
    avatar: Option<string>,
    experience: Option<string>,
    socialLinks: SocialLinks)

  datatype CurriculumItem = CurriculumItem(title: Option<string>, duration: Option<string>)

  datatype Course = Course(
    title: string,
    description: string,
    about: Option<string>,
    shortDescription: string,
    price: real,
    originalPrice: Option<real>,
    thumbnail: string,
    images: seq<string>,
    previewVideo: Option<string>,
    category: string,
    level: string,
    duration: string,
    lessons: seq<Lesson>,
    instructor: Instructor,
    features: seq<string>,
    requirements: seq<string>,
    whatYouWillLearn: seq<string>,
    tags: seq<string>,
    keywords: Option<string>,
    curriculum: seq<CurriculumItem>,
    rating: real,
    totalRatings: nat,
    studentsEnrolled: nat,
    isActive: bool,
    isFeatured: bool,
    isPopular: bool)

  /** A lesson passes validation: title and video URL present, every resource type known. */
  predicate ValidLesson(l: Lesson) {
    && l.title != ""
    && l.videoUrl != ""
    && forall r :: r in l.resources && r.kind.Some? ==> r.kind.value in ResourceTypes
  }

  /** A course passes validation on save: the required fields are present, category and
      level are in their enumerations, every lesson and the instructor are valid. */
  predicate ValidCourse(c: Course) {
    && c.title != ""
    && c.description != ""
    && c.shortDescription != ""
    && c.thumbnail != ""
    && c.category in Categories
    && c.level in Levels
    && c.duration != ""
    && (forall l :: l in c.lessons ==> ValidLesson(l))
    && c.instructor.name != ""
  }

  // ---------------------------------------------------------------- enrollment

  datatype PaymentStatus = Pending | Completed | Failed

  /** A stored percentage: a JavaScript division by zero lessons gives Infinity. */
  datatype Percent = Finite(value: real) | Infinity

  datatype Progress = Progress(
    completedLessons: seq<int>,
    totalLessons: nat,
    progressPercentage: Percent,
    lastAccessedLesson: int)

  datatype PaymentDetails = PaymentDetails(
    amount: real,
    paymentMethod: string,
    transactionId: Option<string>,
    paymentStatus: PaymentStatus)

  datatype Enrollment = Enrollment(
    userId: Id,
    courseId: Id,
    progress: Progress,
    payment: PaymentDetails,
    certificateIssued: bool,
    certificateUrl: Option<string>,
    isActive: bool)

  /** An enrollment passes validation on save: its payment method is present (ids,
      lesson count, amount and status are present by construction). */
  predicate ValidEnrollment(e: Enrollment) {
    e.payment.paymentMethod != ""
  }

  /** A new enrollment with every field the caller does not give at its default. */
  function EnrollmentDefaults(userId: Id, courseId: Id, totalLessons: nat, amount: real, paymentMethod: string): (e: Enrollment)
    ensures e.userId == userId && e.courseId == courseId
    ensures e.progress == Progress([], totalLessons, Finite(0.0), 0)
    ensures e.payment == PaymentDetails(amount, paymentMethod, None, Pending)
    ensures !e.certificateIssued && e.certificateUrl.None? && e.isActive
    ensures ValidEnrollment(e) <==> paymentMethod != ""
  {
    Enrollment(userId, courseId, Progress([], totalLessons, Finite(0.0), 0),
      PaymentDetails(amount, paymentMethod, None, Pending), false, None, true)
  }

  /** The enrollment collection is keyed by its unique (userId, courseId) index. */
  predicate EnrollmentsKeyed(m: map<(Id, Id), Enrollment>) {
    forall k :: k in m ==> m[k].userId == k.0 && m[k].courseId == k.1
  }

  /** Keying by the pair leaves at most one enrollment per (userId, courseId), whatever
      its status or activity. */
  lemma EnrollmentPairUnique(m: map<(Id, Id), Enrollment>, k1: (Id, Id), k2: (Id, Id))
    requires EnrollmentsKeyed(m) && k1 in m && k2 in m
    requires m[k1].userId == m[k2].userId && m[k1].courseId == m[k2].courseId
    ensures k1 == k2
  {
  }

  // ---------------------------------------------------------------- user

  datatype User = User(
    name: string,
    email: string,
    password: string,
    avatar: Option<string>,
    phone: Option<string>,
    tradingExperience: string,
    interestedMarkets: seq<string>,
    enrolledCourses: seq<Id>,
    wishlist: seq<Id>,
    cartKeys: set<string>,
    isActive: bool)

  predicate ValidUser(u: User) {
    && u.name != ""
    && u.email != ""
    && u.password != ""
    && u.tradingExperience in TradingExperiences
    && forall m :: m in u.interestedMarkets ==> m in Markets
  }

  /** A new user with every field the caller does not give at its default. */
  function NewUser(name: string, email: string, password: string): (u: User)
    ensures u.tradingExperience == "Beginner" && u.interestedMarkets == []
    ensures u.enrolledCourses == [] && u.wishlist == [] && u.cartKeys == {} && u.isActive
    ensures ValidUser(u) <==> name != "" && email != "" && password != ""
  {
    User(name, email, password, None, None, "Beginner", [], [], [], {}, true)
  }

  /** No two users share an email. */
  predicate UniqueEmails(users: map<Id, User>) {
    forall a, b :: a in users && b in users && users[a].email == users[b].email ==> a == b
  }

  // ---------------------------------------------------------------- review

  datatype Review = Review(
    id: Id,
    userId: Option<Id>,
    courseId: Id,
    rating: int,
    comment: string,
    isVerifiedPurchase: bool,
    reviewerName: Option<string>,
    reviewerEmail: Option<string>,
    isAdminAdded: bool)

  /** A review passes validation: a rating from 1 to 5 and a comment. */
  predicate ValidReview(r: Review) {
    1 <= r.rating <= 5 && r.comment != ""
  }

  /** A new review with every field the caller does not give at its default. */
  function NewReview(id: Id, courseId: Id, rating: int, comment: string): (r: Review)
    ensures r.userId.None? && r.reviewerName.None? && r.reviewerEmail.None?
    ensures !r.isVerifiedPurchase && !r.isAdminAdded
    ensures ValidReview(r) <==> 1 <= rating <= 5 && comment != ""
  {
    Review(id, None, courseId, rating, comment, false, None, None, false)
  }

  /** Review ids are distinct, and reviews written by a user are unique per course.
      The database index also holds at most one review without a user per course, since
      a sparse compound index still indexes a document whose course is set; that part
      is not enforced here. */
  predicate ReviewsUnique(rs: seq<Review>) {
    && (forall i, j :: 0 <= i < j < |rs| ==> rs[i].id != rs[j].id)
    && (forall i, j :: 0 <= i < j < |rs| && rs[i].userId.Some? && rs[i].userId == rs[j].userId
          ==> rs[i].courseId != rs[j].courseId)
  }
}
