/**
 * The decision logic of the course handlers: the list filter, validation and assembly of
 * a new course, the merge of an update into a stored course (including the `about` rule
 * and the replacement of images), and the recomputation of a course's rating when an
 * administrator adds or deletes a review.
 *
 * Form fields arrive as text (`Option<string>`, `None` when absent); fields that carry
 * JSON come with what `JSON.parse` makes of their text. Image uploads are given as a map
 * from form field name (`thumbnail`, `thumbnail0`, `thumbnail1`, ...) to the URL the image
 * host returns for that file.
 */
module CourseController {
  import opened Wrappers
  import opened JsText
  import opened JsNumber
  import opened Schemas
  import opened Database

  // ---------------------------------------------------------------- listCourses

  datatype ListQuery = ListQuery(
    category: Option<string>,
    level: Option<string>,
    search: Option<string>,
    featured: Option<string>)

  /** The query document: `search` stays as text, since its regular-expression match is
      not modelled. */
  datatype Filter = Filter(
    isActive: bool,
    category: Option<string>,
    level: Option<string>,
    isFeatured: Option<bool>,
    search: Option<string>)

  /** The courses a filter selects, leaving the text search aside. */
  predicate Admits(f: Filter, c: Course) {
    && c.isActive == f.isActive
    && (f.category.Some? ==> c.category == f.category.value)
    && (f.level.Some? ==> c.level == f.level.value)
    && (f.isFeatured.Some? ==> c.isFeatured == f.isFeatured.value)
  }

  /** Builds the filter of `listCourses` field by field: active courses only, narrowed by
      category and level when given and to featured courses when `featured` is `"true"`. */
  method ListFilter(q: ListQuery) returns (f: Filter)
    ensures forall c :: Admits(f, c) <==>
      && c.isActive
      && (Truthy(q.category) ==> c.category == q.category.value)
      && (Truthy(q.level) ==> c.level == q.level.value)
      && (q.featured == Some("true") ==> c.isFeatured)
    ensures f.search == if Truthy(q.search) then q.search else None
  {
    f := Filter(true, None, None, None, None);
    if Truthy(q.category) {
      f := f.(category := q.category);
    }
    if Truthy(q.level) {
      f := f.(level := q.level);
    }
    if q.featured == Some("true") {
      f := f.(isFeatured := Some(true));
    }
    if Truthy(q.search) {
      f := f.(search := q.search);
    }
  }

  // ---------------------------------------------------------------- form fields

  /** A JSON-encoded form field: its text, and what `JSON.parse` makes of that text
      (`None` when it throws). */
  datatype Json<T> = Json(text: Option<string>, parsed: Option<T>)

  /** `JSON.parse(field)`: absent or empty text does not parse. */
  function ParseField<T>(j: Json<T>): (r: Option<T>)
    ensures !Truthy(j.text) ==> r.None?
  {
    if Truthy(j.text) then j.parsed else None
  }

  /** `field ? JSON.parse(field) : fallback`. */
  function ParseOr<T>(j: Json<T>, fallback: T): (r: Option<T>)
    ensures !Truthy(j.text) ==> r == Some(fallback)
    ensures Truthy(j.text) ==> r == j.parsed
  {
    if Truthy(j.text) then j.parsed else Some(fallback)
  }

  /** The multipart form of `addCourse` and `updateCourse`. */
  datatype CourseForm = CourseForm(
    title: Option<string>,
    description: Option<string>,
    about: Option<string>,
    shortDescription: Option<string>,
    price: Option<string>,
    originalPrice: Option<string>,
    category: Option<string>,
    level: Option<string>,
    duration: Option<string>,
    lessons: Json<seq<Lesson>>,
    instructor: Json<Instructor>,
    features: Json<seq<string>>,
    requirements: Json<seq<string>>,
    whatYouWillLearn: Json<seq<string>>,
    tags: Json<seq<string>>,
    isFeatured: Option<string>,
    isPopular: Option<string>,
    keywords: Option<string>,
    curriculum: Json<seq<CurriculumItem>>,
    thumbnailCount: Option<string>)

  /** Uploaded files: form field name to the URL of the stored image. */
  type Uploads = map<string, string>

  /** How many numbered images the form announces: `parseInt(thumbnailCount)` when that is
      a positive number, and 0 otherwise (an absent count or NaN selects nothing). */
  function ImageCount(thumbnailCount: Option<string>): (n: nat)
    ensures n > 0 <==> Truthy(thumbnailCount) && ParseInt(thumbnailCount.value).Some? && ParseInt(thumbnailCount.value).value > 0
    ensures n > 0 ==> ParseInt(thumbnailCount.value) == Some(n)
  {
    if Truthy(thumbnailCount) then
      match ParseInt(thumbnailCount.value)
      case Some(k) => if k > 0 then k else 0
      case None => 0
    else 0
  }

  /** The form field of the `i`-th numbered image: `thumbnail${i}`. */
  function ImageField(i: nat): (name: string)
    ensures |name| > |"thumbnail"| && name[..9] == "thumbnail"
  {
    "thumbnail" + NatToDecimal(i)
  }

  /** Numbered image fields are distinct from each other and from the plain `thumbnail` field. */
  lemma ImageFieldsDistinct(i: nat, j: nat)
    ensures ImageField(i) != "thumbnail"
    ensures ImageField(i) == ImageField(j) ==> i == j
  {
    if ImageField(i) == ImageField(j) {
      assert NatToDecimal(i) == ImageField(i)[9..];
      assert NatToDecimal(j) == ImageField(j)[9..];
      NatToDecimalInjective(i, j);
    }
  }

  /** The URLs of the numbered images `lo` to `hi - 1` that were uploaded, in index order,
      skipping absent ones. */
  function UploadedRange(files: Uploads, lo: nat, hi: nat): (urls: seq<string>)
    decreases hi
    ensures |urls| <= if lo <= hi then hi - lo else 0
    ensures forall u :: u in urls ==> u in files.Values
  {
    if hi <= lo then []
    else
      var before := UploadedRange(files, lo, hi - 1);
      var f := ImageField(hi - 1);
      if f in files then before + [files[f]] else before
  }

  /** When every numbered image in the range was uploaded, each contributes one URL. */
  lemma {:induction false} UploadedRangeAll(files: Uploads, lo: nat, hi: nat)
    requires lo <= hi
    requires forall i :: lo <= i < hi ==> ImageField(i) in files
    ensures |UploadedRange(files, lo, hi)| == hi - lo
    ensures forall i :: lo <= i < hi ==> UploadedRange(files, lo, hi)[i - lo] == files[ImageField(i)]
  {
    if lo < hi {
      UploadedRangeAll(files, lo, hi - 1);
      var before := UploadedRange(files, lo, hi - 1);
      var urls := UploadedRange(files, lo, hi);
      assert urls == before + [files[ImageField(hi - 1)]];
      forall i | lo <= i < hi
        ensures urls[i - lo] == files[ImageField(i)]
      {
        if i < hi - 1 {
          assert urls[i - lo] == before[i - lo];
        }
      }
    }
  }

  /** Uploads the numbered images `lo` to `count - 1` one at a time, keeping the URL of
      each one that is present. */
  method UploadImages(files: Uploads, lo: nat, count: nat) returns (urls: seq<string>)
    ensures urls == UploadedRange(files, lo, count)
  {
    urls := [];
    var i := lo;
    while i < count
      invariant lo <= i || count <= lo
      invariant urls == UploadedRange(files, lo, if i <= count then i else count)
      invariant count <= lo ==> urls == [] && i == lo
    {
      var image := ImageField(i);
      if image in files {
        urls := urls + [files[image]];
      }
      i := i + 1;
    }
  }

  // ---------------------------------------------------------------- addCourse

  datatype AddError =
    | MissingFields
    | ThumbnailRequired
    | InvalidJson       // one of the JSON fields other than `lessons` does not parse
    | ServerError       // `lessons` does not parse, a price is NaN, or the course fails validation

  /** `!title || !description || !price || !category || !level || !duration || !instructor`
      fails. */
  predicate RequiredPresent(form: CourseForm) {
    && Truthy(form.title) && Truthy(form.description) && Truthy(form.price)
    && Truthy(form.category) && Truthy(form.level) && Truthy(form.duration)
    && Truthy(form.instructor.text)
  }

  /** The main image: `thumbnail0` when numbered images are announced and it was uploaded,
      otherwise the plain `thumbnail` field. */
  function SelectThumbnail(files: Uploads, count: nat): (r: Option<string>)
    ensures r.Some? <==> (count > 0 && ImageField(0) in files) || "thumbnail" in files
    ensures r.Some? ==> r.value in files.Values
    ensures count > 0 && ImageField(0) in files ==> r == Some(files[ImageField(0)])
  {
    if count > 0 && ImageField(0) in files then Some(files[ImageField(0)])
    else if "thumbnail" in files then Some(files["thumbnail"])
    else None
  }

  /** The JSON fields `addCourse` parses together; `curriculum` defaults to none. */
  datatype ParsedFields = ParsedFields(
    instructor: Instructor,
    features: seq<string>,
    requirements: seq<string>,
    whatYouWillLearn: seq<string>,
    tags: seq<string>,
    curriculum: seq<CurriculumItem>)

  function ParseAddFields(form: CourseForm): Option<ParsedFields> {
    var instructor := ParseField(form.instructor);
    var features := ParseField(form.features);
    var requirements := ParseField(form.requirements);
    var learn := ParseField(form.whatYouWillLearn);
    var tags := ParseField(form.tags);
    var curriculum := ParseOr(form.curriculum, []);
    if instructor.Some? && features.Some? && requirements.Some? && learn.Some? && tags.Some? && curriculum.Some? then
      Some(ParsedFields(instructor.value, features.value, requirements.value, learn.value, tags.value, curriculum.value))
    else None
  }

  /** A required string as stored: a missing one is stored as nothing at all. */
  function Stored(o: Option<string>): string {
    if o.Some? then o.value else ""
  }

  /** The course document `addCourse` builds, before validation. */
  function NewCourse(form: CourseForm, thumbnail: string, additional: seq<string>, p: ParsedFields,
                     lessons: seq<Lesson>, price: real, originalPrice: Option<real>): Course
  {
    Course(
      title := Stored(form.title),
      description := Stored(form.description),
      about := Some(OrElse(form.about, "")),
      shortDescription := Stored(form.shortDescription),
      price := price,
      originalPrice := originalPrice,
      thumbnail := thumbnail,
      images := [thumbnail] + additional,
      previewVideo := None,
      category := Stored(form.category),
      level := Stored(form.level),
      duration := Stored(form.duration),
      lessons := lessons,
      instructor := p.instructor,
      features := p.features,
      requirements := p.requirements,
      whatYouWillLearn := p.whatYouWillLearn,
      tags := p.tags,
      keywords := Some(OrElse(form.keywords, "")),
      curriculum := p.curriculum,
      rating := 0.0,
      totalRatings := 0,
      studentsEnrolled := 0,
      isActive := true,
      isFeatured := form.isFeatured == Some("true"),
      isPopular := form.isPopular == Some("true"))
  }

  /** `originalPrice ? Number(originalPrice) : undefined`, with NaN as an error. */
  function OptionalNumber(text: Option<string>): Result<Option<real>, AddError> {
    if !Truthy(text) then Ok(None)
    else match ToNumber(text.value)
      case Some(v) => Ok(Some(v))
      case None => Err(ServerError)
  }

  /** What `addCourse` stores, or why it refuses. */
  function CourseToAdd(form: CourseForm, files: Uploads): (r: Result<Course, AddError>)
    ensures r == Err(MissingFields) <==> !RequiredPresent(form)
    ensures RequiredPresent(form) && SelectThumbnail(files, ImageCount(form.thumbnailCount)).None? ==>
      r == Err(ThumbnailRequired)
    ensures r.Ok? ==>
      && ValidCourse(r.value)
      && Some(r.value.thumbnail) == SelectThumbnail(files, ImageCount(form.thumbnailCount))
      && r.value.images == [r.value.thumbnail] + UploadedRange(files, 1, ImageCount(form.thumbnailCount))
      && Some(r.value.price) == ToNumber(form.price.value)
      && r.value.title == form.title.value && r.value.category == form.category.value
      && r.value.about == Some(OrElse(form.about, ""))
      && r.value.rating == 0.0 && r.value.totalRatings == 0 && r.value.studentsEnrolled == 0
      && r.value.isActive
      && (r.value.isFeatured <==> form.isFeatured == Some("true"))
      && (r.value.isPopular <==> form.isPopular == Some("true"))
  {
    if !RequiredPresent(form) then Err(MissingFields)
    else
      var count := ImageCount(form.thumbnailCount);
      match SelectThumbnail(files, count)
      case None => Err(ThumbnailRequired)
      case Some(thumbnail) =>
        var additional := UploadedRange(files, 1, count);
        match ParseAddFields(form)
        case None => Err(InvalidJson)
        case Some(p) =>
          match ParseOr(form.lessons, [])
          case None => Err(ServerError)
          case Some(lessons) =>
            match (ToNumber(form.price.value), OptionalNumber(form.originalPrice))
            case (Some(price), Ok(originalPrice)) =>
              var course := NewCourse(form, thumbnail, additional, p, lessons, price, originalPrice);
              if ValidCourse(course) then Ok(course) else Err(ServerError)
            case _ => Err(ServerError)
  }

  /** When `addCourse` creates a course and when it reports invalid JSON: a course is
      created exactly when every check and every parse succeeds and the built document
      validates; invalid JSON is reported exactly when the required fields and a thumbnail
      are there but one of the JSON fields does not parse. */
  lemma AddCourseOutcomes(form: CourseForm, files: Uploads)
    ensures var count := ImageCount(form.thumbnailCount);
      var thumb := SelectThumbnail(files, count);
      && (CourseToAdd(form, files) == Err(InvalidJson) <==>
            RequiredPresent(form) && thumb.Some? && ParseAddFields(form).None?)
      && (CourseToAdd(form, files).Ok? <==>
            && RequiredPresent(form) && thumb.Some? && ParseAddFields(form).Some?
            && ParseOr(form.lessons, []).Some? && ToNumber(form.price.value).Some?
            && OptionalNumber(form.originalPrice).Ok?
            && ValidCourse(NewCourse(form, thumb.value, UploadedRange(files, 1, count), ParseAddFields(form).value,
                                     ParseOr(form.lessons, []).value, ToNumber(form.price.value).value,
                                     OptionalNumber(form.originalPrice).value)))
  {
  }

  /** A form without a usable price, title or instructor never creates a course. */
  lemma AddCourseNeedsRequired(form: CourseForm, files: Uploads)
    requires !Truthy(form.price) || !Truthy(form.title) || !Truthy(form.instructor.text)
    ensures CourseToAdd(form, files) == Err(MissingFields)
  {
  }

  /** `addCourse` on the shared store: validates, uploads, parses, builds and saves. */
  method AddCourse(store: Store, form: CourseForm, files: Uploads, newId: Id) returns (r: Result<Course, AddError>)
    requires newId !in store.courses
    requires store.Valid()
    modifies store
    ensures store.Valid()
    ensures r == CourseToAdd(form, files)
    ensures store.courses == if r.Ok? then old(store.courses)[newId := r.value] else old(store.courses)
    ensures store.enrollments == old(store.enrollments) && store.users == old(store.users)
    ensures store.reviews == old(store.reviews)
  {
    if !RequiredPresent(form) {
      return Err(MissingFields);
    }
    var count := ImageCount(form.thumbnailCount);
    var thumbnail := SelectThumbnail(files, count);
    if thumbnail.None? {
      return Err(ThumbnailRequired);
    }
    var additional: seq<string> := [];
    if count > 1 {
      additional := UploadImages(files, 1, count);
    }
    var parsed := ParseAddFields(form);
    if parsed.None? {
      return Err(InvalidJson);
    }
    var lessons := ParseOr(form.lessons, []);
    if lessons.None? {
      return Err(ServerError);
    }
    var price := ToNumber(form.price.value);
    var originalPrice := OptionalNumber(form.originalPrice);
    if price.None? || originalPrice.Err? {
      return Err(ServerError);
    }
    var course := NewCourse(form, thumbnail.value, additional, parsed.value, lessons.value, price.value, originalPrice.value);
    if !ValidCourse(course) {
      return Err(ServerError);
    }
    store.courses := store.courses[newId := course];
    return Ok(course);
  }

  // ---------------------------------------------------------------- updateCourse

  datatype UpdateError =
    | CourseNotFound
    | UpdateInvalidJson   // a JSON field that was sent does not parse
    | NotANumber          // a price that was sent is NaN, which the update cannot store

  /** The `about` rule: the trimmed request value when it has any non-space text,
      otherwise the stored value (or the empty string). */
  function UpdatedAbout(existing: Option<string>, about: Option<string>): (r: string)
    ensures about.Some? && Trim(about.value) != "" ==> r == Trim(about.value)
    ensures about.None? || Trim(about.value) == "" ==> r == OrElse(existing, "")
    ensures r == "" ==> !Truthy(existing) && (about.None? || Trim(about.value) == "")
  {
    if about.Some? && Trim(about.value) != "" then Trim(about.value) else OrElse(existing, "")
  }

  /** The main image and image list after an update: replaced by the new uploads when at
      least one arrived, kept otherwise. */
  function UpdatedImages(existing: Course, uploaded: seq<string>): (r: (string, seq<string>))
    ensures |uploaded| > 0 ==> r == (uploaded[0], uploaded)
    ensures |uploaded| == 0 ==> r == (existing.thumbnail, existing.images)
  {
    if |uploaded| > 0 then (uploaded[0], uploaded) else (existing.thumbnail, existing.images)
  }

  /** The update document of `updateCourse` applied to the stored course: each text field
      takes the request value when it is truthy and keeps the stored one otherwise;
      `shortDescription` falls back to the first 150 characters of a new description;
      the flags change only when sent; JSON fields are parsed only when sent. Counters,
      activity and preview video are not part of the update. */
  function Updated(existing: Course, form: CourseForm, thumbnail: string, images: seq<string>): Result<Course, UpdateError> {
    var instructor := ParseOr(form.instructor, existing.instructor);
    var features := ParseOr(form.features, existing.features);
    var requirements := ParseOr(form.requirements, existing.requirements);
    var learn := ParseOr(form.whatYouWillLearn, existing.whatYouWillLearn);
    var tags := ParseOr(form.tags, existing.tags);
    var curriculum := ParseOr(form.curriculum, existing.curriculum);
    var lessons := ParseOr(form.lessons, existing.lessons);
    if instructor.None? || features.None? || requirements.None? || learn.None? || tags.None?
       || curriculum.None? || lessons.None? then Err(UpdateInvalidJson)
    else
      var price := if Truthy(form.price) then ToNumber(form.price.value) else Some(existing.price);
      var originalPrice := if Truthy(form.originalPrice) then
          (match ToNumber(form.originalPrice.value) case Some(v) => Some(Some(v)) case None => None)
        else Some(existing.originalPrice);
      if price.None? || originalPrice.None? then Err(NotANumber)
      else
        var shortFromDescription := if form.description.Some? then Some(Take(form.description.value, 150)) else None;
        Ok(existing.(
          title := OrElse(form.title, existing.title),
          description := OrElse(form.description, existing.description),
          about := Some(UpdatedAbout(existing.about, form.about)),
          shortDescription := OrElse(form.shortDescription, OrElse(shortFromDescription, existing.shortDescription)),
          price := price.value,
          originalPrice := originalPrice.value,
          thumbnail := thumbnail,
          images := images,
          category := OrElse(form.category, existing.category),
          level := OrElse(form.level, existing.level),
          duration := OrElse(form.duration, existing.duration),
          instructor := instructor.value,
          features := features.value,
          requirements := requirements.value,
          whatYouWillLearn := learn.value,
          tags := tags.value,
          keywords := if Truthy(form.keywords) then form.keywords else existing.keywords,
          curriculum := curriculum.value,
          isFeatured := if form.isFeatured.Some? then form.isFeatured == Some("true") else existing.isFeatured,
          isPopular := if form.isPopular.Some? then form.isPopular == Some("true") else existing.isPopular,
          lessons := lessons.value))
  }

  /** What `updateCourse` makes of a stored course. */
  function CourseAfterUpdate(existing: Course, form: CourseForm, files: Uploads): Result<Course, UpdateError> {
    var images := UpdatedImages(existing, UploadedRange(files, 0, ImageCount(form.thumbnailCount)));
    Updated(existing, form, images.0, images.1)
  }

  /** The merge rules, field by field. */
  lemma {:induction false} UpdateFieldRules(existing: Course, form: CourseForm, files: Uploads)
    requires CourseAfterUpdate(existing, form, files).Ok?
    ensures var c := CourseAfterUpdate(existing, form, files).value;
      && c.title == (if Truthy(form.title) then form.title.value else existing.title)
      && c.category == (if Truthy(form.category) then form.category.value else existing.category)
      && c.level == (if Truthy(form.level) then form.level.value else existing.level)
      && (Truthy(form.shortDescription) ==> c.shortDescription == form.shortDescription.value)
      && (!Truthy(form.shortDescription) && Truthy(form.description) ==>
            c.shortDescription == Take(form.description.value, 150))
      && (!Truthy(form.shortDescription) && !Truthy(form.description) ==>
            c.shortDescription == existing.shortDescription)
      && c.description == (if Truthy(form.description) then form.description.value else existing.description)
      && c.duration == (if Truthy(form.duration) then form.duration.value else existing.duration)
      && c.keywords == (if Truthy(form.keywords) then form.keywords else existing.keywords)
      && (form.isFeatured.None? ==> c.isFeatured == existing.isFeatured)
      && (form.isFeatured.Some? ==> (c.isFeatured <==> form.isFeatured.value == "true"))
      && (form.isPopular.None? ==> c.isPopular == existing.isPopular)
      && (form.isPopular.Some? ==> (c.isPopular <==> form.isPopular.value == "true"))
      && c.rating == existing.rating && c.totalRatings == existing.totalRatings
      && c.studentsEnrolled == existing.studentsEnrolled && c.isActive == existing.isActive
      && c.about == Some(UpdatedAbout(existing.about, form.about))
      && (var uploaded := UploadedRange(files, 0, ImageCount(form.thumbnailCount));
          if |uploaded| > 0 then c.thumbnail == uploaded[0] && c.images == uploaded
          else c.thumbnail == existing.thumbnail && c.images == existing.images)
  {
    if !Truthy(form.shortDescription) && Truthy(form.description) {
      assert Take(form.description.value, 150) != "";
    }
  }

  /** The field took the parsed request value when it was sent, and kept the stored one
      otherwise. */
  predicate TakesJson<T(==)>(j: Json<T>, stored: T, now: T) {
    if Truthy(j.text) then j.parsed == Some(now) else now == stored
  }

  /** The merge rules for the prices and the JSON fields: a sent price becomes `Number` of
      its text, a sent JSON field what it parses to, and a field not sent keeps the stored
      value. */
  lemma {:induction false} UpdateValueRules(existing: Course, form: CourseForm, files: Uploads)
    requires CourseAfterUpdate(existing, form, files).Ok?
    ensures var c := CourseAfterUpdate(existing, form, files).value;
      && (Truthy(form.price) ==> ToNumber(form.price.value) == Some(c.price))
      && (!Truthy(form.price) ==> c.price == existing.price)
      && (Truthy(form.originalPrice) ==> ToNumber(form.originalPrice.value) == c.originalPrice && c.originalPrice.Some?)
      && (!Truthy(form.originalPrice) ==> c.originalPrice == existing.originalPrice)
      && TakesJson(form.instructor, existing.instructor, c.instructor)
      && TakesJson(form.features, existing.features, c.features)
      && TakesJson(form.requirements, existing.requirements, c.requirements)
      && TakesJson(form.whatYouWillLearn, existing.whatYouWillLearn, c.whatYouWillLearn)
      && TakesJson(form.tags, existing.tags, c.tags)
      && TakesJson(form.curriculum, existing.curriculum, c.curriculum)
      && TakesJson(form.lessons, existing.lessons, c.lessons)
  {
  }

  /** A sent JSON field whose text does not parse. */
  predicate Unparsable<T>(j: Json<T>) {
    Truthy(j.text) && j.parsed.None?
  }

  /** A sent price that `Number` reads as NaN. */
  predicate NotNumeric(price: Option<string>) {
    Truthy(price) && ToNumber(price.value).None?
  }

  /** The update fails on a sent JSON field that does not parse, then on a sent price
      that is not a number, and otherwise succeeds. */
  lemma UpdateFailures(existing: Course, form: CourseForm, files: Uploads)
    ensures var r := CourseAfterUpdate(existing, form, files);
      var badJson := Unparsable(form.instructor) || Unparsable(form.features) || Unparsable(form.requirements)
        || Unparsable(form.whatYouWillLearn) || Unparsable(form.tags) || Unparsable(form.curriculum)
        || Unparsable(form.lessons);
      && (r == Err(UpdateInvalidJson) <==> badJson)
      && (r == Err(NotANumber) <==> !badJson && (NotNumeric(form.price) || NotNumeric(form.originalPrice)))
      && (r.Ok? <==> !badJson && !NotNumeric(form.price) && !NotNumeric(form.originalPrice))
  {
  }

  /** The numbered images in range are all missing exactly when none is kept. */
  lemma {:induction false} UploadedRangeEmpty(files: Uploads, lo: nat, hi: nat)
    decreases hi
    ensures UploadedRange(files, lo, hi) == [] <==> forall i: nat :: lo <= i < hi ==> ImageField(i) !in files
  {
    if hi > lo {
      UploadedRangeEmpty(files, lo, hi - 1);
      if ImageField(hi - 1) in files {
        assert UploadedRange(files, lo, hi) != [];
      }
    }
  }

  /** When any numbered image within the announced count arrives, the new images are
      uploaded URLs and the first of them becomes the thumbnail; when none arrives, the
      stored thumbnail and images stay. */
  lemma {:induction false} UpdateImagesUploaded(existing: Course, form: CourseForm, files: Uploads)
    requires CourseAfterUpdate(existing, form, files).Ok?
    ensures var c := CourseAfterUpdate(existing, form, files).value;
      var count := ImageCount(form.thumbnailCount);
      && ((exists i: nat :: i < count && ImageField(i) in files) ==>
            c.images != [] && c.thumbnail == c.images[0] && forall u :: u in c.images ==> u in files.Values)
      && ((forall i: nat :: i < count ==> ImageField(i) !in files) ==>
            c.thumbnail == existing.thumbnail && c.images == existing.images)
  {
    UploadedRangeEmpty(files, 0, ImageCount(form.thumbnailCount));
  }

  /** The form that sends nothing. */
  const EmptyForm := CourseForm(None, None, None, None, None, None, None, None, None,
    Json(None, None), Json(None, None), Json(None, None), Json(None, None), Json(None, None),
    Json(None, None), None, None, None, Json(None, None), None)

  /** An update that sends nothing changes nothing, except that an absent `about`
      becomes the empty string. */
  lemma UpdateWithNothing(existing: Course, files: Uploads)
    ensures CourseAfterUpdate(existing, EmptyForm, files) == Ok(existing.(about := Some(OrElse(existing.about, ""))))
  {
    assert UploadedRange(files, 0, 0) == [];
  }

  /** Applying the same update document twice, with the same images, gives what applying
      it once gave. */
  lemma {:induction false} UpdatedIdempotent(existing: Course, form: CourseForm, thumbnail: string, images: seq<string>)
    requires Updated(existing, form, thumbnail, images).Ok?
    ensures var once := Updated(existing, form, thumbnail, images).value;
      Updated(once, form, thumbnail, images) == Ok(once)
  {
    var once := Updated(existing, form, thumbnail, images).value;
    assert ParseOr(form.instructor, once.instructor) == Some(once.instructor);
    assert ParseOr(form.features, once.features) == Some(once.features);
    assert ParseOr(form.requirements, once.requirements) == Some(once.requirements);
    assert ParseOr(form.whatYouWillLearn, once.whatYouWillLearn) == Some(once.whatYouWillLearn);
    assert ParseOr(form.tags, once.tags) == Some(once.tags);
    assert ParseOr(form.curriculum, once.curriculum) == Some(once.curriculum);
    assert ParseOr(form.lessons, once.lessons) == Some(once.lessons);
    var a := UpdatedAbout(existing.about, form.about);
    assert UpdatedAbout(Some(a), form.about) == a;
  }

  /** Sending the same update twice has the effect of sending it once. */
  lemma {:induction false} UpdateIdempotent(existing: Course, form: CourseForm, files: Uploads)
    requires CourseAfterUpdate(existing, form, files).Ok?
    ensures var once := CourseAfterUpdate(existing, form, files).value;
      CourseAfterUpdate(once, form, files) == Ok(once)
  {
    var uploaded := UploadedRange(files, 0, ImageCount(form.thumbnailCount));
    var images := UpdatedImages(existing, uploaded);
    var once := Updated(existing, form, images.0, images.1).value;
    UpdatedIdempotent(existing, form, images.0, images.1);
    assert UpdatedImages(once, uploaded) == images;
  }

  /** An update that sends only a category changes the category and nothing else, except
      that an absent `about` becomes the empty string. */
  lemma UpdateCategoryOnly(existing: Course, files: Uploads, category: string)
    requires category != ""
    ensures CourseAfterUpdate(existing, EmptyForm.(category := Some(category)), files)
      == Ok(existing.(about := Some(OrElse(existing.about, "")), category := category))
  {
    assert UploadedRange(files, 0, 0) == [];
  }

  /** The update runs no validators: a valid course can be given any category outside
      the enumeration. */
  lemma UpdateSkipsValidation(existing: Course, category: string)
    requires ValidCourse(existing)
    requires category != "" && category !in Categories
    ensures var form := EmptyForm.(category := Some(category));
      && CourseAfterUpdate(existing, form, map[]).Ok?
      && !ValidCourse(CourseAfterUpdate(existing, form, map[]).value)
  {
    UpdateCategoryOnly(existing, map[], category);
  }

  /** `updateCourse` on the shared store. */
  method UpdateCourse(store: Store, id: Id, form: CourseForm, files: Uploads) returns (r: Result<Course, UpdateError>)
    requires store.Valid()
    modifies store
    ensures store.Valid()
    ensures id !in old(store.courses) ==> r == Err(CourseNotFound) && store.courses == old(store.courses)
    ensures id in old(store.courses) ==> r == CourseAfterUpdate(old(store.courses)[id], form, files)
    ensures store.courses == if r.Ok? then old(store.courses)[id := r.value] else old(store.courses)
    ensures store.enrollments == old(store.enrollments) && store.users == old(store.users)
    ensures store.reviews == old(store.reviews)
  {
    if id !in store.courses {
      return Err(CourseNotFound);
    }
    var existing := store.courses[id];
    var thumbnail := existing.thumbnail;
    var images := existing.images;
    var count := ImageCount(form.thumbnailCount);
    if count > 0 {
      var uploaded := UploadImages(files, 0, count);
      if |uploaded| > 0 {
        thumbnail := uploaded[0];
        images := uploaded;
      }
    } else {
      assert UploadedRange(files, 0, count) == [];
    }
    r := Updated(existing, form, thumbnail, images);
    if r.Ok? {
      store.courses := store.courses[id := r.value];
    }
  }

  // ---------------------------------------------------------------- ratings

  /** The sum of the ratings, added up from the left as `reduce` does. */
  function Sum(rs: seq<Review>): int {
    if rs == [] then 0 else Sum(rs[..|rs| - 1]) + rs[|rs| - 1].rating
  }

  /** The mean rating of a non-empty list of reviews. */
  function Mean(rs: seq<Review>): real
    requires rs != []
  {
    Sum(rs) as real / |rs| as real
  }

  /** The rating and number of ratings a course shows for its reviews: the mean and count,
      or 0 and 0 when it has none. */
  function RatingSummary(rs: seq<Review>): (r: (real, nat))
    ensures r.1 == |rs|
    ensures rs == [] ==> r.0 == 0.0
    ensures rs != [] ==> r.0 * |rs| as real == Sum(rs) as real
  {
    if rs == [] then (0.0, 0) else (Mean(rs), |rs|)
  }

  lemma {:induction false} SumBounds(rs: seq<Review>)
    requires forall i :: 0 <= i < |rs| ==> ValidReview(rs[i])
    ensures |rs| <= Sum(rs) <= 5 * |rs|
  {
    if rs != [] {
      SumBounds(rs[..|rs| - 1]);
    }
  }

  /** The mean of valid reviews lies between 1 and 5. */
  lemma {:induction false} MeanBounds(rs: seq<Review>)
    requires rs != [] && forall i :: 0 <= i < |rs| ==> ValidReview(rs[i])
    ensures 1.0 <= Mean(rs) <= 5.0
  {
    SumBounds(rs);
    QuotientBounds(Sum(rs) as real, |rs| as real);
  }

  lemma QuotientBounds(s: real, n: real)
    requires 0.0 < n && n <= s <= 5.0 * n
    ensures 1.0 <= s / n <= 5.0
  {
    var q := s / n;
    assert q * n == s;
    var below := q - 1.0;
    var above := 5.0 - q;
    assert below * n == s - n;
    assert above * n == 5.0 * n - s;
  }

  /** One more review moves the mean to the weighted combination of the old mean and the
      new rating. */
  lemma MeanAppend(rs: seq<Review>, r: Review)
    requires rs != []
    ensures Mean(rs + [r]) == (Mean(rs) * |rs| as real + r.rating as real) / (|rs| + 1) as real
  {
    assert (rs + [r])[..|rs|] == rs;
    assert Sum(rs + [r]) == Sum(rs) + r.rating;
    assert Mean(rs) * |rs| as real == Sum(rs) as real;
  }

  datatype ReviewError = AllFieldsRequired | ReviewCourseNotFound | ReviewRejected | ReviewNotFound

  /** Sets a course's rating and number of ratings; nothing when there is no such course. */
  function SetRating(db: Db, courseId: Id, summary: (real, nat)): (r: Db)
    ensures r.enrollments == db.enrollments && r.users == db.users && r.reviews == db.reviews
    ensures r.courses.Keys == db.courses.Keys
    ensures forall c :: c in db.courses && c != courseId ==> r.courses[c] == db.courses[c]
    ensures courseId in db.courses ==>
      r.courses[courseId] == db.courses[courseId].(rating := summary.0, totalRatings := summary.1)
  {
    if courseId in db.courses then
      var c := db.courses[courseId];
      db.(courses := db.courses[courseId := c.(rating := summary.0, totalRatings := summary.1)])
    else db
  }

  /** The review an administrator adds: no user, the reviewer's name and email, and the
      rating as `parseInt` reads it (`None` for NaN, which the schema refuses). */
  function AdminReview(id: Id, courseId: Id, rating: Option<int>, comment: string,
                       reviewerName: string, reviewerEmail: string): Option<Review>
  {
    match rating
    case None => None
    case Some(k) =>
      Some(NewReview(id, courseId, k, comment).(reviewerName := Some(reviewerName),
        reviewerEmail := Some(reviewerEmail), isAdminAdded := true))
  }

  /** `addReview`: every field must be present, the course must exist and the review must
      pass validation; the review is saved and the course's rating and count are
      recomputed from all of its reviews. */
  function AddReviewStep(db: Db, courseId: Option<Id>, reviewerName: Option<string>, reviewerEmail: Option<string>,
                         rating: Option<string>, comment: Option<string>, newId: Id): Step<Result<Review, ReviewError>>
  {
    if courseId.None? || !Truthy(reviewerName) || !Truthy(reviewerEmail) || !Truthy(rating) || !Truthy(comment) then
      Step(db, Err(AllFieldsRequired))
    else if courseId.value !in db.courses then Step(db, Err(ReviewCourseNotFound))
    else
      var c := courseId.value;
      match AdminReview(newId, c, ParseInt(rating.value), comment.value, reviewerName.value, reviewerEmail.value)
      case None => Step(db, Err(ReviewRejected))
      case Some(review) =>
        if !ValidReview(review) then Step(db, Err(ReviewRejected))
        else
          var saved := db.(reviews := db.reviews + [review]);
          Step(SetRating(saved, c, RatingSummary(ReviewsOf(saved.reviews, c))), Ok(review))
  }

  /** A successful `addReview` stores an administrator's review of the requested course:
      the new id, no user, the rating as `parseInt` reads it and the request's texts. */
  lemma AddedReview(db: Db, courseId: Option<Id>, reviewerName: Option<string>,
                    reviewerEmail: Option<string>, rating: Option<string>,
                    comment: Option<string>, newId: Id)
    requires AddReviewStep(db, courseId, reviewerName, reviewerEmail, rating, comment, newId).out.Ok?
    ensures var v := AddReviewStep(db, courseId, reviewerName, reviewerEmail, rating, comment, newId).out.value;
      && v.id == newId && v.courseId == courseId.value && v.userId.None?
      && ParseInt(rating.value) == Some(v.rating) && v.comment == comment.value
      && v.reviewerName == reviewerName && v.reviewerEmail == reviewerEmail
      && v.isAdminAdded && !v.isVerifiedPurchase
  {
  }

  /** After a successful `addReview` the course counts all of its reviews and shows their
      mean, which lies between 1 and 5 when the stored reviews are valid. */
  lemma {:induction false} AddReviewRecomputes(db: Db, courseId: Option<Id>, reviewerName: Option<string>,
                                               reviewerEmail: Option<string>, rating: Option<string>,
                                               comment: Option<string>, newId: Id)
    requires SchemaValid(db)
    requires AddReviewStep(db, courseId, reviewerName, reviewerEmail, rating, comment, newId).out.Ok?
    ensures var r := AddReviewStep(db, courseId, reviewerName, reviewerEmail, rating, comment, newId);
      var c := courseId.value;
      var rs := ReviewsOf(r.db.reviews, c);
      var v := r.out.value;
      && v.id == newId && v.courseId == c && v.userId.None?
      && ParseInt(rating.value) == Some(v.rating) && v.comment == comment.value
      && v.reviewerName == reviewerName && v.reviewerEmail == reviewerEmail
      && v.isAdminAdded && !v.isVerifiedPurchase
      && r.db.reviews == db.reviews + [r.out.value]
      && rs != []
      && r.db.courses[c].totalRatings == |rs|
      && r.db.courses[c].rating == Mean(rs)
      && 1.0 <= r.db.courses[c].rating <= 5.0
  {
    var r := AddReviewStep(db, courseId, reviewerName, reviewerEmail, rating, comment, newId);
    var c := courseId.value;
    var review := r.out.value;
    var rs := ReviewsOf(r.db.reviews, c);
    AddedReview(db, courseId, reviewerName, reviewerEmail, rating, comment, newId);
    assert review in rs;
    ReviewsOfValid(r.db.reviews, c);
    MeanBounds(rs);
  }

  /** Appending a review appends it to its own course's reviews and to no other. */
  lemma {:induction false} ReviewsOfAppend(reviews: seq<Review>, review: Review, courseId: Id)
    ensures ReviewsOf(reviews + [review], courseId)
      == ReviewsOf(reviews, courseId) + (if review.courseId == courseId then [review] else [])
  {
    if reviews != [] {
      assert (reviews + [review])[1..] == reviews[1..] + [review];
      ReviewsOfAppend(reviews[1..], review, courseId);
    } else {
      assert [review][1..] == [];
    }
  }

  /** The rating shown after one more review of a course: the previous mean moved
      towards the new rating by one part in the new count, or the new rating itself when
      it is the first. */
  lemma {:induction false} RatingAfterAppend(before: seq<Review>, review: Review)
    ensures before == [] ==> RatingSummary(before + [review]).0 == review.rating as real
    ensures before != [] ==>
      RatingSummary(before + [review]).0 == (Mean(before) * |before| as real + review.rating as real) / (|before| + 1) as real
  {
    var after := before + [review];
    assert RatingSummary(after).0 == Mean(after);
    if before != [] {
      MeanAppend(before, review);
    } else {
      assert after[..0] == [];
      assert Sum(after) == review.rating;
    }
  }

  /** The rating `addReview` stores is the rating summary of the course's previous reviews
      followed by the new one; RatingAfterAppend turns that into the previous mean moved
      towards the new rating. */
  lemma {:induction false} AddReviewIncremental(db: Db, courseId: Option<Id>, reviewerName: Option<string>,
                                                reviewerEmail: Option<string>, rating: Option<string>,
                                                comment: Option<string>, newId: Id)
    requires AddReviewStep(db, courseId, reviewerName, reviewerEmail, rating, comment, newId).out.Ok?
    ensures var r := AddReviewStep(db, courseId, reviewerName, reviewerEmail, rating, comment, newId);
      var c := courseId.value;
      && c in r.db.courses
      && r.db.courses[c].rating == RatingSummary(ReviewsOf(db.reviews, c) + [r.out.value]).0
  {
    var r := AddReviewStep(db, courseId, reviewerName, reviewerEmail, rating, comment, newId);
    var c := courseId.value;
    var review := r.out.value;
    var saved := db.(reviews := db.reviews + [review]);
    assert review.courseId == c;
    var before := ReviewsOf(db.reviews, c);
    assert r.db == SetRating(saved, c, RatingSummary(ReviewsOf(saved.reviews, c)));
    ReviewsOfAppend(db.reviews, review, c);
    assert ReviewsOf(saved.reviews, c) == before + [review];
  }

  /** The reviews of one course are valid when all reviews are. */
  lemma {:induction false} ReviewsOfValid(reviews: seq<Review>, courseId: Id)
    requires forall i :: 0 <= i < |reviews| ==> ValidReview(reviews[i])
    ensures var rs := ReviewsOf(reviews, courseId);
      forall i :: 0 <= i < |rs| ==> ValidReview(rs[i])
  {
    var rs := ReviewsOf(reviews, courseId);
    forall i | 0 <= i < |rs| ensures ValidReview(rs[i]) {
      assert rs[i] in reviews;
    }
  }

  /** Adding a review with a fresh id keeps the database valid. */
  lemma {:induction false} AddReviewPreserves(db: Db, courseId: Option<Id>, reviewerName: Option<string>,
                                              reviewerEmail: Option<string>, rating: Option<string>,
                                              comment: Option<string>, newId: Id)
    requires SchemaValid(db)
    requires forall i :: 0 <= i < |db.reviews| ==> db.reviews[i].id != newId
    ensures SchemaValid(AddReviewStep(db, courseId, reviewerName, reviewerEmail, rating, comment, newId).db)
  {
    var r := AddReviewStep(db, courseId, reviewerName, reviewerEmail, rating, comment, newId);
    if r.out.Ok? {
      var review := r.out.value;
      AppendReviewValid(db.reviews, review);
      var saved := db.(reviews := db.reviews + [review]);
      assert SchemaValid(saved);
      assert r.db == SetRating(saved, courseId.value, RatingSummary(ReviewsOf(saved.reviews, courseId.value)));
    }
  }

  /** Appending a valid review with a fresh id and no user keeps the reviews valid and unique. */
  lemma AppendReviewValid(reviews: seq<Review>, review: Review)
    requires forall i :: 0 <= i < |reviews| ==> ValidReview(reviews[i])
    requires ReviewsUnique(reviews)
    requires forall i :: 0 <= i < |reviews| ==> reviews[i].id != review.id
    requires ValidReview(review) && review.userId.None?
    ensures var rs := reviews + [review];
      (forall i :: 0 <= i < |rs| ==> ValidReview(rs[i])) && ReviewsUnique(rs)
  {
  }

  /** Removing the review at `i` keeps the remaining reviews unique. */
  lemma {:induction false} RemovedReviewKeepsUnique(reviews: seq<Review>, i: nat)
    requires i < |reviews| && ReviewsUnique(reviews)
    ensures ReviewsUnique(reviews[..i] + reviews[i + 1..])
  {
    var remaining := reviews[..i] + reviews[i + 1..];
    forall a, b | 0 <= a < b < |remaining|
      ensures remaining[a].id != remaining[b].id
      ensures remaining[a].userId.Some? && remaining[a].userId == remaining[b].userId
              ==> remaining[a].courseId != remaining[b].courseId
    {
      var a' := if a < i then a else a + 1;
      var b' := if b < i then b else b + 1;
      assert remaining[a] == reviews[a'] && remaining[b] == reviews[b'];
    }
  }

  /** Deleting a review keeps the database valid. */
  lemma {:induction false} DeleteReviewPreserves(db: Db, reviewId: Id)
    requires SchemaValid(db)
    ensures SchemaValid(DeleteReviewStep(db, reviewId).db)
  {
    var found := FindReview(db.reviews, reviewId);
    if found.Some? {
      var i := found.value;
      var remaining := db.reviews[..i] + db.reviews[i + 1..];
      RemovedReviewKeepsValid(db.reviews, i);
      RemovedReviewKeepsUnique(db.reviews, i);
      var saved := db.(reviews := remaining);
      assert SchemaValid(saved);
      var c := db.reviews[i].courseId;
      assert DeleteReviewStep(db, reviewId).db == SetRating(saved, c, RatingSummary(ReviewsOf(remaining, c)));
    }
  }

  /** The position of the review with the given id. */
  function FindReview(reviews: seq<Review>, reviewId: Id): (r: Option<nat>)
    ensures r.Some? ==> r.value < |reviews| && reviews[r.value].id == reviewId
    ensures r.None? ==> forall i :: 0 <= i < |reviews| ==> reviews[i].id != reviewId
  {
    if reviews == [] then None
    else if reviews[0].id == reviewId then Some(0)
    else match FindReview(reviews[1..], reviewId)
      case Some(i) => Some(i + 1)
      case None => None
  }

  /** `deleteReview`: removes the review and recomputes its course's rating and count from
      the reviews that remain, both becoming 0 when none remain. */
  function DeleteReviewStep(db: Db, reviewId: Id): Step<Result<Review, ReviewError>> {
    match FindReview(db.reviews, reviewId)
    case None => Step(db, Err(ReviewNotFound))
    case Some(i) =>
      var review := db.reviews[i];
      var remaining := db.reviews[..i] + db.reviews[i + 1..];
      var saved := db.(reviews := remaining);
      Step(SetRating(saved, review.courseId, RatingSummary(ReviewsOf(remaining, review.courseId))), Ok(review))
  }

  /** After `deleteReview` the review is gone, and its course shows the count and mean of
      the reviews left, or 0 and 0 when there are none. */
  lemma {:induction false} DeleteReviewRecomputes(db: Db, reviewId: Id)
    requires SchemaValid(db)
    requires DeleteReviewStep(db, reviewId).out.Ok?
    ensures var r := DeleteReviewStep(db, reviewId);
      var c := r.out.value.courseId;
      var rs := ReviewsOf(r.db.reviews, c);
      && r.out.value.id == reviewId
      && (exists i :: 0 <= i < |db.reviews| && db.reviews[i] == r.out.value
                      && r.db.reviews == db.reviews[..i] + db.reviews[i + 1..])
      && |r.db.reviews| == |db.reviews| - 1
      && (forall x :: x in r.db.reviews ==> x.id != reviewId)
      && (c in db.courses ==> r.db.courses[c].totalRatings == |rs|)
      && (c in db.courses && rs == [] ==> r.db.courses[c].rating == 0.0)
      && (c in db.courses && rs != [] ==> r.db.courses[c].rating == Mean(rs) && 1.0 <= Mean(rs) <= 5.0)
  {
    var r := DeleteReviewStep(db, reviewId);
    var i := FindReview(db.reviews, reviewId).value;
    var remaining := db.reviews[..i] + db.reviews[i + 1..];
    assert r.db.reviews == remaining;
    RemovedReviewGone(db.reviews, i);
    var c := db.reviews[i].courseId;
    var rs := ReviewsOf(remaining, c);
    if rs != [] {
      RemovedReviewKeepsValid(db.reviews, i);
      ReviewsOfValid(remaining, c);
      MeanBounds(rs);
    }
  }

  /** With unique review ids, no review left after removing the one at `i` has its id. */
  lemma RemovedReviewGone(reviews: seq<Review>, i: nat)
    requires i < |reviews| && ReviewsUnique(reviews)
    ensures forall x :: x in reviews[..i] + reviews[i + 1..] ==> x.id != reviews[i].id
  {
    var remaining := reviews[..i] + reviews[i + 1..];
    forall x | x in remaining ensures x.id != reviews[i].id {
      var j :| 0 <= j < |remaining| && remaining[j] == x;
      if j < i { assert x == reviews[j]; } else { assert x == reviews[j + 1]; }
    }
  }

  /** Removing a review keeps the others valid. */
  lemma RemovedReviewKeepsValid(reviews: seq<Review>, i: nat)
    requires i < |reviews|
    requires forall k :: 0 <= k < |reviews| ==> ValidReview(reviews[k])
    ensures var remaining := reviews[..i] + reviews[i + 1..];
      forall k :: 0 <= k < |remaining| ==> ValidReview(remaining[k])
  {
    var remaining := reviews[..i] + reviews[i + 1..];
    forall k | 0 <= k < |remaining| ensures ValidReview(remaining[k]) {
      if k < i { assert remaining[k] == reviews[k]; } else { assert remaining[k] == reviews[k + 1]; }
    }
  }

  /** `addReview` on the shared store. */
  method AddReview(store: Store, courseId: Option<Id>, reviewerName: Option<string>, reviewerEmail: Option<string>,
                   rating: Option<string>, comment: Option<string>, newId: Id) returns (r: Result<Review, ReviewError>)
    requires store.Valid()
    requires forall i :: 0 <= i < |store.reviews| ==> store.reviews[i].id != newId
    modifies store
    ensures Step(store.Snapshot(), r) ==
      AddReviewStep(old(store.Snapshot()), courseId, reviewerName, reviewerEmail, rating, comment, newId)
    ensures store.Valid()
  {
    AddReviewPreserves(store.Snapshot(), courseId, reviewerName, reviewerEmail, rating, comment, newId);
    if courseId.None? || !Truthy(reviewerName) || !Truthy(reviewerEmail) || !Truthy(rating) || !Truthy(comment) {
      return Err(AllFieldsRequired);
    }
    var c := courseId.value;
    if c !in store.courses {
      return Err(ReviewCourseNotFound);
    }
    var review := AdminReview(newId, c, ParseInt(rating.value), comment.value, reviewerName.value, reviewerEmail.value);
    if review.None? || !ValidReview(review.value) {
      return Err(ReviewRejected);
    }
    store.reviews := store.reviews + [review.value];
    var summary := RatingSummary(ReviewsOf(store.reviews, c));
    if c in store.courses {
      var course := store.courses[c];
      store.courses := store.courses[c := course.(rating := summary.0, totalRatings := summary.1)];
    }
    return Ok(review.value);
  }

  /** `deleteReview` on the shared store. */
  method DeleteReview(store: Store, reviewId: Id) returns (r: Result<Review, ReviewError>)
    requires store.Valid()
    modifies store
    ensures Step(store.Snapshot(), r) == DeleteReviewStep(old(store.Snapshot()), reviewId)
    ensures store.Valid()
  {
    DeleteReviewPreserves(store.Snapshot(), reviewId);
    var found := FindReview(store.reviews, reviewId);
    if found.None? {
      return Err(ReviewNotFound);
    }
    var review := store.reviews[found.value];
    var c := review.courseId;
    store.reviews := store.reviews[..found.value] + store.reviews[found.value + 1..];
    var summary := RatingSummary(ReviewsOf(store.reviews, c));
    if c in store.courses {
      var course := store.courses[c];
      store.courses := store.courses[c := course.(rating := summary.0, totalRatings := summary.1)];
    }
    return Ok(review);
  }
}
