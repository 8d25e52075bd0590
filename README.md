# Course marketplace core, modelled in Dafny

This project models the server side of a course marketplace. Users enroll in courses, pay
for them through a card-payment gateway and record their progress lesson by lesson.
Administrators add courses, update them and moderate reviews. Scripts import courses in
bulk from product data files.

The model has three parts.

- **Enrollment handlers.** These cover `enrollInCourse` (free, card checkout, or any other
  method), `verifyEnrollment`, `getUserEnrollments` and `updateProgress`. They run over a
  mutable `Store` of four collections: enrollments keyed by their unique (userId, courseId)
  index, courses, users and reviews.
  - Each handler is a step function from the database before a request to the database
    after it and the response.
  - Each handler is also a method on the store that writes in the order the handler writes.
  - Each method is proved equal to its step function.
  - Lemmas state what each branch does, and that the schema rules plus a consistency
    invariant survive every call.
- **Course handlers.** The list filter, the validation and assembly of a new course, the
  merge of an update into a stored course, and the recomputation of a course's rating when
  a review is added or deleted.
- **The three import scripts.** Each turns product records into course documents:
  - category mapping and image colours;
  - URL-safe image names;
  - price cleaning;
  - instructor extraction by separators and regular expressions;
  - sample lessons;
  - the batch loops, including the title de-duplication of the CSV import.

Modules:

- `Wrappers` (Option, Result);
- `JsText`, `JsNumber`, `JsUri`: the JavaScript built-ins the code relies on: truthiness,
  `trim`, `split`, `substring`, `parseInt`, `parseFloat`, `Number`, `encodeURIComponent`;
- `Schemas`: the four Mongoose schemas;
- `Database`: the collections and the `Store` class;
- `EnrollmentController`, `CourseController`;
- `ImportCommon`, `CsvImport`, `BulkImport`, `SimpleImport`.

### Behaviour of the code worth knowing

The model keeps each of these behaviours of the code.

- **Verifying a payment is not idempotent.** Every paid verification adds one to the
  course's `studentsEnrolled` again (`VerifyTwice`). The user's course list does not change
  on a repeat, because it is a set-add.
- **Any method other than `stripe` and `free` still writes the user and the counter.** Such
  an enrollment is stored as `pending`, yet the course is added to the user's list and the
  counter goes up (`EnrollDirect`).
- **The duplicate check ignores status.** Any stored enrollment for the pair refuses a new
  one, whatever its status.
- **A course with no lessons is not refused.** Its progress percentage becomes JavaScript's
  `Infinity`, the `Percent.Infinity` case.
- **Lesson numbers are not checked.** The percentage can exceed 100
  (`ProgressCanExceedHundred`). It still never goes down (`ProgressMonotone`).
- **A price of 0 is rejected only when absent or empty.** `addCourse` refuses a falsy
  price, but multipart form fields are strings. The text `"0"` is therefore accepted; only an
  absent or empty price is rejected (`AddCourseNeedsRequired`).
- **`updateCourse` runs no validators.** A stored course can leave the category
  enumeration (`UpdateSkipsValidation`), so the store invariant does not include course
  validity.
- **The CSV script's separator is an en dash.** The character it splits on is U+2013,
  although a comment in the script calls it an em dash.

## Model

| member | source | states |
|---|---|---|
| Schemas.EnrollmentDefaults | models/enrollmentModel.js:4-21 | a new enrollment has no completed lessons, 0 percent and last lesson 0; its payment is pending with no transaction id; it has no certificate and is active; it is valid exactly when the payment method is present |
| Schemas.EnrollmentPairUnique | models/enrollmentModel.js:25 | keying the collection by the unique (userId, courseId) index leaves at most one enrollment per pair, whatever its status or activity |
| Schemas.NewUser | models/userModel.js:5-22 | a new user has experience `Beginner`, no markets, no enrolled courses, no wishlist, an empty cart and is active; it is valid exactly when name, email and password are present |
| Schemas.NewReview | models/reviewModel.js:3-12 | a new review has no user, reviewer name or email and both flags false; it is valid exactly when the rating is 1 to 5 and a comment is present |
| Database.ReviewsOf | controllers/courseController.js:467 | the reviews a course query finds are exactly the stored reviews with that course id |
| EnrollmentController.AddToSet | controllers/enrollmentController.js:83-85 | `$addToSet` yields the old members plus the new one, keeps the old list as a prefix, never creates a duplicate and changes nothing when the course is already listed |
| EnrollmentController.AddEnrolledCourse | controllers/enrollmentController.js:83-85 | only the named user's course list changes, by a set-add; an unknown user changes nothing |
| EnrollmentController.AddEnrolledCourseKeepsUsers | controllers/enrollmentController.js:83-85 | the set-add keeps every user valid and every course list duplicate-free, and drops no listed course |
| EnrollmentController.IncrementStudents | controllers/enrollmentController.js:88-90 | only the named course changes, and its `studentsEnrolled` goes up by exactly one; an unknown course changes nothing |
| EnrollmentController.NewEnrollment | controllers/enrollmentController.js:24-38 | the enrollment snapshots the course's lesson count and price and starts with no progress; its status is completed exactly for `free` and pending otherwise |
| EnrollmentController.EnrollRefusals | controllers/enrollmentController.js:14-22 | an existing enrollment for the pair, or an unknown course, refuses the request with the database unchanged; every outcome other than enrolled or checkout-started writes nothing |
| EnrollmentController.EnrollByCard | controllers/enrollmentController.js:40-76 | the card branch stores exactly one new pending enrollment, the `stripe` enrollment snapshot (price, lesson count, empty progress) with the session id as transaction id; it leaves users and courses alone and returns the session URL |
| EnrollmentController.EnrollDirect | controllers/enrollmentController.js:79-92 | any other method stores the enrollment (completed only for `free`); the user's record becomes the stored one with the course set-added, the course's record the stored one with `studentsEnrolled` one higher, and every other user, course, enrollment and the reviews stay as they were |
| EnrollmentController.CompleteMatching | controllers/enrollmentController.js:110-113 | only the enrollment for the pair can change, and no other collection changes |
| EnrollmentController.VerifyUnpaidWritesNothing | controllers/enrollmentController.js:104-128 | a session that is not paid, or that the gateway cannot find, writes nothing and does not verify |
| EnrollmentController.VerifyPaid | controllers/enrollmentController.js:106-125 | a paid session completes the pair's enrollment exactly when it carries the session id (otherwise that enrollment stays as stored), set-adds the course to the user and raises the course's counter by one; every other enrollment, user and course and the reviews stay as they were |
| EnrollmentController.VerifyTwice | controllers/enrollmentController.js:106-125 | verifying the same paid session twice raises the counter by two, while users and enrollments end as after one call |
| EnrollmentController.CardThenVerify | controllers/enrollmentController.js:40-125 | a card enrollment followed by a paid verification of its session ends completed, listed on the user and counted once |
| EnrollmentController.GetUserEnrollments | controllers/enrollmentController.js:140-143 | the result holds exactly the user's completed enrollments, each as stored |
| EnrollmentController.Percentage | controllers/enrollmentController.js:165-166 | the percentage is Infinity exactly for a course with no lessons; otherwise it is positive and at most 100 exactly when no more lessons are completed than the course has |
| EnrollmentController.ProgressGrows | controllers/enrollmentController.js:157-170 | recording a lesson appends it at the end only when absent (staying duplicate-free), recomputes the percentage only on an append and always sets the last accessed lesson; only that enrollment changes, and courses, users and reviews stay as they were |
| EnrollmentController.ProgressNotFound | controllers/enrollmentController.js:153-160 | progress for a pair without an enrollment is answered with not-found and writes nothing |
| EnrollmentController.ProgressMonotone | controllers/enrollmentController.js:157-170 | for any lesson number, a saved progress record never shows a lower percentage than the stored, consistent one (Infinity counting as the highest) |
| EnrollmentController.ProgressCanExceedHundred | controllers/enrollmentController.js:163-167 | a lesson number beyond the course's lessons drives a one-lesson course to 200 percent |
| EnrollmentController.AddEnrolledCoursePreserves | controllers/enrollmentController.js:83-85 | the set-add keeps the schema rules and the consistency invariant, and removes no listed course |
| EnrollmentController.IncrementStudentsPreserves | controllers/enrollmentController.js:88-90 | the counter update keeps the schema rules and the consistency invariant |
| EnrollmentController.SaveNewPreserves | controllers/enrollmentController.js:79-80 | saving a valid enrollment with no progress into a free slot keeps the schema rules, and consistency apart from listing the course on the user |
| EnrollmentController.EnrollPreserves | controllers/enrollmentController.js:9-97 | enrolling keeps the schema rules and the consistency invariant (progress agrees with lessons, users list each course once, completed enrollments are listed) |
| EnrollmentController.AddEnrolledCoursePreserves2 | controllers/enrollmentController.js:116-118 | listing the course of a freshly saved or completed enrollment restores the consistency invariant |
| EnrollmentController.VerifyPreserves | controllers/enrollmentController.js:100-133 | verifying keeps the schema rules and the consistency invariant |
| EnrollmentController.ProgressPreserves | controllers/enrollmentController.js:153-177 | recording progress keeps the schema rules and the consistency invariant |
| EnrollmentController.EnrollInCourse | controllers/enrollmentController.js:9-97 | the store after the call and the response are those of the enrollment step function |
| EnrollmentController.VerifyEnrollment | controllers/enrollmentController.js:100-133 | the store after the call and the response are those of the verification step function |
| EnrollmentController.UpdateProgress | controllers/enrollmentController.js:153-177 | the store after the call and the response are those of the progress step function, and the schema rules and the consistency invariant hold again afterwards |
| CourseController.ListFilter | controllers/courseController.js:11-22 | the filter admits exactly the active courses, narrowed by category and level when given and to featured courses only when `featured` is `"true"`; the search text is kept only when given |
| CourseController.ImageCount | controllers/courseController.js:112 | numbered images are announced exactly when the count parses as a positive integer, and then there are that many |
| CourseController.ImageField | controllers/courseController.js:137 | each numbered image field starts with `thumbnail` followed by more text |
| CourseController.ImageFieldsDistinct | controllers/courseController.js:137 | numbered image fields differ from the plain `thumbnail` field and from each other |
| CourseController.UploadedRange | controllers/courseController.js:134-147 | the images kept are at most as many as the indices in range, and each is an uploaded URL |
| CourseController.UploadedRangeAll | controllers/courseController.js:134-147 | when every numbered image in range was uploaded, each contributes its URL in index order |
| CourseController.UploadImages | controllers/courseController.js:134-147 | the upload loop keeps the URL of each present numbered image, in index order |
| CourseController.SelectThumbnail | controllers/courseController.js:109-123 | there is a main image exactly when `thumbnail0` (with a positive count) or `thumbnail` was uploaded, and `thumbnail0` wins |
| CourseController.CourseToAdd | controllers/courseController.js:72-203 | missing fields are refused exactly when a required field is falsy; without a thumbnail the request is refused; a stored course is valid, has the selected thumbnail, the numbered images in order, the parsed price, the defaults and the requested flags |
| CourseController.AddCourseOutcomes | controllers/courseController.js:104-203 | a course is created exactly when the required fields, a thumbnail, every JSON parse and both numbers are there and the built document validates; invalid JSON is reported exactly when the required fields and a thumbnail are there but a JSON field does not parse |
| CourseController.AddCourseNeedsRequired | controllers/courseController.js:104-106 | a form without a price, title or instructor text never creates a course |
| CourseController.AddCourse | controllers/courseController.js:72-203 | the response is that of the specification function, and a course is stored under the new id exactly when it succeeds; the other collections are untouched and the store stays valid |
| CourseController.UpdatedAbout | controllers/courseController.js:283-299 | `about` becomes the trimmed request value when that has non-space text, and otherwise stays as stored (or empty) |
| CourseController.UpdateFieldRules | controllers/courseController.js:301-324 | each text field (title, description, category, level, duration, keywords) takes a truthy request value and keeps the stored one otherwise; `shortDescription` falls back to the first 150 characters of a new description; the two flags change only when sent, to whether the text is `"true"`; `about` follows its own rule; counters and activity never change; the images follow the uploads |
| CourseController.UpdateValueRules | controllers/courseController.js:301-324 | a sent price or original price becomes `Number` of its text, a sent JSON field (instructor, features, requirements, outcomes, tags, curriculum, lessons) what it parses to, and a field not sent keeps the stored value |
| CourseController.UpdateFailures | controllers/courseController.js:301-324 | the update fails with invalid JSON exactly when a sent JSON field does not parse, fails as not a number exactly when, with all JSON fine, a sent price is NaN, and succeeds otherwise |
| CourseController.UploadedRangeEmpty | controllers/courseController.js:256-270 | no new image is kept exactly when no numbered image field in range was uploaded |
| CourseController.UpdateImagesUploaded | controllers/courseController.js:247-281 | when any numbered image within the announced count arrives, the images become uploaded URLs with the first as thumbnail; when none arrives, the stored thumbnail and images stay |
| CourseController.UpdateWithNothing | controllers/courseController.js:301-324 | an update that sends nothing changes nothing, except that an absent `about` becomes the empty string |
| CourseController.UpdateCategoryOnly | controllers/courseController.js:301-324 | an update that sends only a category changes only the category (and turns an absent `about` into the empty string) |
| CourseController.UpdateIdempotent | controllers/courseController.js:301-324 | sending the same update twice has the effect of sending it once |
| CourseController.UpdatedIdempotent | controllers/courseController.js:301-324 | merging the same update document, with the same images, into its own result changes nothing |
| CourseController.UpdateSkipsValidation | controllers/courseController.js:329 | a valid course updated with any non-empty category outside the enumeration stores that category and is no longer valid, because no validator runs |
| CourseController.UpdateCourse | controllers/courseController.js:206-340 | an unknown id is refused with nothing written; otherwise the result is the merge of the stored course with the request, written back only on success; the other collections are untouched and the store stays valid |
| CourseController.RatingSummary | controllers/courseController.js:467-473 | the number of ratings is the number of reviews, and the rating times that number is their sum; no reviews give 0 |
| CourseController.SumBounds | controllers/courseController.js:468 | the sum of valid ratings lies between the count and five times the count |
| CourseController.MeanBounds | controllers/courseController.js:468 | the mean of valid ratings lies between 1 and 5 |
| CourseController.MeanAppend | controllers/courseController.js:467-468 | one more review moves the mean to the weighted combination of the old mean and the new rating |
| CourseController.RatingAfterAppend | controllers/courseController.js:467-473 | the rating shown after one more review is the previous mean moved towards the new rating by one part in the new count, or the new rating itself for the first review |
| CourseController.ReviewsOfAppend | controllers/courseController.js:464-467 | a saved review joins its own course's reviews, at the end, and no other course's |
| CourseController.AddReviewIncremental | controllers/courseController.js:464-473 | the rating `addReview` stores is the rating summary of the course's previous reviews followed by the new one |
| CourseController.SetRating | controllers/courseController.js:470-473 | only the named course's rating and count change; an unknown course changes nothing |
| CourseController.AddedReview | controllers/courseController.js:454-462 | the saved review has the new id, the requested course, no user, the rating `parseInt` reads, the request's comment, name and email, and is marked as added by an administrator |
| CourseController.AddReviewRecomputes | controllers/courseController.js:454-473 | after a successful add, the saved review is the request's (new id, requested course, no user, `parseInt` rating, the comment, name and email, administrator flag) appended at the end, and the course counts all of its reviews and shows their mean, between 1 and 5 |
| CourseController.AddReviewPreserves | controllers/courseController.js:454-464 | adding a review with a fresh id keeps the schema rules |
| CourseController.AppendReviewValid | controllers/courseController.js:454-464 | appending a valid review with a fresh id and no user keeps the reviews valid and unique |
| CourseController.FindReview | controllers/courseController.js:487-490 | the position found holds the review with that id; when none is found, no review has it |
| CourseController.DeleteReviewPreserves | controllers/courseController.js:483-508 | deleting a review keeps the schema rules |
| CourseController.RemovedReviewKeepsUnique | controllers/courseController.js:493-496 | removing one review keeps review ids unique and one review per user and course |
| CourseController.DeleteReviewRecomputes | controllers/courseController.js:493-508 | after a delete, the returned review has the requested id and the reviews left are the old ones with exactly that review removed; no review with the id remains, and the deleted review's course shows the count and mean of the reviews left, or 0 and 0 when none are left |
| CourseController.RemovedReviewGone | controllers/courseController.js:493-496 | with unique review ids, no review left after the delete has the deleted id |
| CourseController.AddReview | controllers/courseController.js:440-480 | the store after the call and the response are those of the add-review step function, and a store that was valid stays valid when the new id is unused |
| CourseController.DeleteReview | controllers/courseController.js:483-515 | the store after the call and the response are those of the delete-review step function, and a store that was valid stays valid |
| ImportCommon.KeepNameChars | scripts/uploadFromCSVJSON.js:35 | removing special characters leaves only letters, digits and white space, and never lengthens the name |
| ImportCommon.JoinSpaces | scripts/uploadFromCSVJSON.js:36 | each run of white space becomes one `+`, leaving letters, digits and no two adjacent `+` |
| ImportCommon.CleanName | scripts/uploadFromCSVJSON.js:34-37 | the image name has only letters, digits and `+`, no two adjacent `+`, and at most the limit of characters (25 here, 30 in the bulk script) |
| ImportCommon.CaptureBefore | scripts/uploadBulkCourses.js:140-141 | the dash or colon pattern matches exactly when the longest letter-and-space prefix is non-empty and followed by the mark, and it captures that prefix |
| ImportCommon.CaptureCourseFrom | scripts/uploadBulkCourses.js:142 | the `Course` pattern's greedy capture, when there is one, is a prefix followed by white space and `course` in any case |
| ImportCommon.CaptureCourseFromLongest | scripts/uploadBulkCourses.js:142 | the greedy capture is the longest such prefix, and there is none only when no prefix up to the scan start is followed by white space and `course` |
| ImportCommon.MatchPattern | scripts/uploadBulkCourses.js:139-143 | every capture is a prefix of the name |
| ImportCommon.CourseCaptureIsLongest | scripts/uploadFromCSVJSON.js:172 | the `Course` pattern captures the longest class prefix followed by white space and `course`, and fails only when there is none |
| ImportCommon.FirstMatch | scripts/uploadFromCSVJSON.js:175-178 | the result is the trimmed text of a prefix of the name, and there is none only when no pattern matches |
| ImportCommon.FirstMatchIsFirst | scripts/uploadFromCSVJSON.js:175-178 | a result is the trimmed capture of a pattern that matches while every earlier pattern in the list does not: the patterns are tried in list order |
| ImportCommon.MatchPatterns | scripts/uploadFromCSVJSON.js:175-178 | the pattern loop returns the trimmed capture of the first pattern that matches |
| ImportCommon.Before | scripts/uploadFromCSVJSON.js:152-154 | the instructor is the trimmed text of a prefix of the name |
| ImportCommon.TrimmedSecond | scripts/uploadFromCSVJSON.js:255 | the second segment exists exactly when the name contains the separator |
| ImportCommon.WeightedLevel | scripts/uploadFromCSVJSON.js:236-247 | the level is in the level enumeration; it is Beginner exactly for draws up to 0.4 and Advanced exactly above 0.8 |
| ImportCommon.PickLevel | scripts/uploadFromCSVJSON.js:236-247 | the weight-summing loop returns the weighted level |
| ImportCommon.Pick | scripts/uploadFromCSVJSON.js:251 | a random pick is one of the options |
| ImportCommon.ExperienceYears | scripts/uploadFromCSVJSON.js:111 | the instructor experience is 5 to 14 years |
| ImportCommon.PriceOr | scripts/uploadBulkCourses.js:76-77 | an absent, unparsable or zero price gives the fallback, a parsed non-zero price is kept, and a non-zero fallback never yields 0 |
| ImportCommon.PriceOfDecimal | scripts/uploadBulkCourses.js:76-77 | a whole-number price is kept and zero falls back |
| ImportCommon.RecordTitle | scripts/uploadFromCSVJSON.js:75 | the title is never empty, and it is the trimmed product name whenever that is not empty |
| ImportCommon.SampleLesson | scripts/uploadFromCSVJSON.js:256-289 | each sample lesson passes lesson validation and has the given order and title |
| ImportCommon.IntroLesson | scripts/uploadFromCSVJSON.js:257-264 | the first sample lesson is valid, has order 1 and introduces the given topic |
| ImportCommon.LaterLessons | scripts/uploadFromCSVJSON.js:265-288 | the three later sample lessons are valid and ordered 2 to 4 |
| ImportCommon.LessonsAbout | scripts/uploadFromCSVJSON.js:256-290 | four valid lessons ordered 1 to 4, the first introducing the topic |
| ImportCommon.RandomDuration | scripts/uploadFromCSVJSON.js:249-252 | the duration is one of the six listed and never empty |
| ImportCommon.BatchEnd | scripts/uploadFromCSVJSON.js:329-330 | a batch holds 1 to 50 records, and only the last can be short |
| ImportCommon.Batches | scripts/uploadFromCSVJSON.js:329-331 | every batch holds 1 to 50 records |
| ImportCommon.BatchesPartition | scripts/uploadFromCSVJSON.js:329-331 | the batches put back together are the input in order, and all but the last hold 50 records |
| CsvImport.CategoryColor | scripts/uploadFromCSVJSON.js:12-29 | a listed raw category gets its colour, anything else `343a40`; every colour is six lower-case hexadecimal digits, as the image URL needs |
| CsvImport.MapCategoryInSchema | scripts/uploadFromCSVJSON.js:51-70 | the 15 listed product categories map as listed, anything else to `Trading Courses`, and every result is in the course category enumeration |
| CsvImport.YouTubeColor | scripts/uploadFromCSVJSON.js:12-29 | the colour lookup is by raw category and case-sensitive, so `YouTube` maps to `Youtube Courses` but gets the default colour |
| CsvImport.StripMarks | scripts/uploadFromCSVJSON.js:47 | the result holds no `$` and no `,` and is never longer |
| CsvImport.StripMarksIdempotent | scripts/uploadFromCSVJSON.js:47 | stripping twice is stripping once |
| CsvImport.StripDollar | scripts/uploadFromCSVJSON.js:47 | a leading dollar sign is removed from a number |
| CsvImport.CleanPrice | scripts/uploadFromCSVJSON.js:44-48 | an absent, empty or unparsable price gives 0; otherwise the price is `parseFloat` of the text with every `$` and `,` removed; a negative price needs a leading minus sign in that text |
| CsvImport.CleanPriceNonNegative | scripts/uploadFromCSVJSON.js:44-48 | a price text without a minus sign never gives a negative price |
| CsvImport.CleanPriceIgnoresMarks | scripts/uploadFromCSVJSON.js:44-48 | removing the marks beforehand changes nothing |
| CsvImport.CleanPriceOfDollars | scripts/uploadFromCSVJSON.js:44-48 | a whole dollar amount such as `$297` is read as its value |
| CsvImport.InstructorOf | scripts/uploadFromCSVJSON.js:151-181 | the instructor is `Expert Instructor` or the trimmed text of a prefix of the name |
| CsvImport.InstructorPriority | scripts/uploadFromCSVJSON.js:151-181 | the separators are tried in order (en dash, `--`, `-`), each giving the trimmed text before its first occurrence; with none of them and no pattern match the result is `Expert Instructor` |
| CsvImport.ExtractInstructor | scripts/uploadFromCSVJSON.js:151-181 | the separator tests and the pattern loop compute the instructor |
| CsvImport.Topic | scripts/uploadFromCSVJSON.js:255 | the first lesson's topic is never empty |
| CsvImport.SampleLessons | scripts/uploadFromCSVJSON.js:254-290 | four valid lessons ordered 1 to 4, the first introducing the topic |
| CsvImport.ProcessRecord | scripts/uploadFromCSVJSON.js:73-148 | a document carries the record's title or its numbered fallback, and every field the course schema requires except the instructor is set and valid |
| CsvImport.ProcessedRecord | scripts/uploadFromCSVJSON.js:73-148 | a document has the record's title or its fallback, the mapped category, the cleaned prices, zero counters, three images led by the thumbnail, and passes validation exactly when an instructor was found |
| CsvImport.ProcessBatch | scripts/uploadFromCSVJSON.js:73-74 | one document per record, in order, each numbered by its place in the batch |
| CsvImport.UntitledFirst | scripts/uploadFromCSVJSON.js:75 | an untitled first record of a batch is called `Course 1` |
| CsvImport.FallbackTitleRestarts | scripts/uploadFromCSVJSON.js:329-331 | fallback numbering restarts in every batch: the untitled first record of the batch starting at any offset is `Course 1` |
| CsvImport.NewOnes | scripts/uploadFromCSVJSON.js:341-342 | the kept documents are exactly the batch documents whose title is not among the given titles |
| CsvImport.NewOnesKeepsAll | scripts/uploadFromCSVJSON.js:341-342 | when no title is stored, every document is kept, duplicates within the batch included |
| CsvImport.NewOnesAppend | scripts/uploadFromCSVJSON.js:341-342 | the filter keeps order: it distributes over concatenation |
| CsvImport.BatchInsertsNewTitles | scripts/uploadFromCSVJSON.js:337-342 | every inserted course has a title not stored before the batch, and every batch document with such a title is inserted |
| CsvImport.UploadBatch | scripts/uploadFromCSVJSON.js:337-357 | when every new document of the batch is valid they are all appended, in order, and counted as uploaded with the rest skipped; when one is not, the insert fails and store and counters stay as they were; only documents whose title was not stored are ever appended |
| CsvImport.UploadTotals | scripts/uploadFromCSVJSON.js:325-358 | over a run the store only grows, by exactly the number counted as uploaded, and no document is counted twice |
| CsvImport.ProcessedBatchesAreBatches | scripts/uploadFromCSVJSON.js:324-331 | the processed batches are the 50-record slices of the records and draws, each processed as one batch, so every record is processed in exactly one batch, in order |
| CsvImport.ProcessedCount | scripts/uploadFromCSVJSON.js:329-331 | the batches hold one document per record |
| CsvImport.InsertBatch | scripts/uploadFromCSVJSON.js:335-357 | one iteration of the batch loop computes the batch step |
| CsvImport.UploadFromCsvJson | scripts/uploadFromCSVJSON.js:325-358 | the batch loop computes the run over the processed batches, starting from zero counters |
| BulkImport.CategoryColor | scripts/uploadBulkCourses.js:12-29 | a listed course category gets its colour, anything else `343a40`; every colour is six lower-case hexadecimal digits, as the image URL needs |
| BulkImport.MapCategoryInSchema | scripts/uploadBulkCourses.js:44-62 | the 14 listed product categories map as listed, anything else to `Trading Courses`, and every result is in the course category enumeration |
| BulkImport.ColorOfMappedCategory | scripts/uploadBulkCourses.js:78-83 | the colour is looked up by mapped category: `YouTube` gets the YouTube colour, `Programming` the default, an unknown category the Trading colour |
| BulkImport.InstructorOf | scripts/uploadBulkCourses.js:133-151 | the instructor is `Expert Instructor` or the trimmed text of a prefix of the name |
| BulkImport.SplitWins | scripts/uploadBulkCourses.js:134-137 | with a `--` the instructor is the trimmed text before it, whatever the patterns say |
| BulkImport.DashPatternFirst | scripts/uploadBulkCourses.js:139-147 | without `--`, a matching dash pattern decides the instructor |
| BulkImport.NoMatchFallsBack | scripts/uploadBulkCourses.js:145-150 | with no `--` and no pattern match the instructor is `Expert Instructor` |
| BulkImport.ExtractInstructor | scripts/uploadBulkCourses.js:133-151 | the split test and the pattern loop compute the instructor |
| BulkImport.Topic | scripts/uploadBulkCourses.js:230 | the topic is never empty, and it is `Course Content` when the name has no `--` |
| BulkImport.SampleLessons | scripts/uploadBulkCourses.js:229-265 | four valid lessons ordered 1 to 4, the first introducing the topic |
| BulkImport.ProcessRecord | scripts/uploadBulkCourses.js:65-130 | a document carries the record's title or its numbered fallback, and every field the course schema requires except the instructor is set and valid |
| BulkImport.ProcessedRecord | scripts/uploadBulkCourses.js:65-130 | a document has the record's title or its fallback, the mapped category, prices that are never 0, zero counters, three images led by the thumbnail, and passes validation exactly when an instructor was found |
| BulkImport.ProcessBatch | scripts/uploadBulkCourses.js:65-66 | one document per record, in order, each numbered by its place in the batch |
| BulkImport.InputRows | scripts/uploadBulkCourses.js:289-301 | the records are those of the data file, or the three sample records when there is none |
| BulkImport.SplitNameParts | scripts/uploadBulkCourses.js:134-136 | a name with one `--` and no other dash has the text before it as instructor and the text after it as topic |
| BulkImport.SpacedNameParts | scripts/uploadBulkCourses.js:134-136 | a name `instructor -- topic` yields exactly that instructor and topic |
| BulkImport.SplitOnce | scripts/uploadBulkCourses.js:134-136 | a name `head--tail` with no other dash splits into `head` before the separator and `tail` after it |
| BulkImport.FirstSampleParts | scripts/uploadBulkCourses.js:297 | the first sample record is by `Mike Valtos` on `Order Flow Dynamics` |
| BulkImport.ThirdSampleParts | scripts/uploadBulkCourses.js:299 | the third sample record is by `BKForex` on `All Courses Bundle` |
| BulkImport.ProcessedBatchesAreBatches | scripts/uploadBulkCourses.js:305-311 | the processed batches are the 50-record slices of the records and draws, each processed as one batch, so every record is processed in exactly one batch, in order |
| BulkImport.ProcessedCount | scripts/uploadBulkCourses.js:309-311 | the batches hold one document per record |
| BulkImport.UploadOutcome | scripts/uploadBulkCourses.js:306-319 | a run only adds to the store and counts exactly what it added; it fails exactly when some batch holds an invalid document; otherwise every document is added in order |
| BulkImport.CompleteRunUploadsAll | scripts/uploadBulkCourses.js:306-319 | a run without an error uploads every record exactly once |
| BulkImport.InsertMany | scripts/uploadBulkCourses.js:315-316 | `insertMany` stores the whole batch exactly when all of it is valid, and nothing otherwise |
| BulkImport.UploadBulkCourses | scripts/uploadBulkCourses.js:289-319 | the batch loop computes the run over the processed batches of the input records |
| SimpleImport.CategoryColor | scripts/uploadCourses.js:10-23 | a listed course category gets its colour, anything else `343a40`; every colour is six lower-case hexadecimal digits, as the image URL needs |
| SimpleImport.MapCategoryInSchema | scripts/uploadCourses.js:110-120 | the six product categories map as listed, anything else (an absent one included) to `Trading Courses`; every result is in the enumeration and has a colour of its own |
| SimpleImport.ImageText | scripts/uploadCourses.js:26 | the image text holds only unreserved characters and percent escapes |
| SimpleImport.ImageTextDecodes | scripts/uploadCourses.js:26 | the image text percent-decodes to the UTF-8 bytes of the name's first 50 characters |
| SimpleImport.ImageTextStaysInQuery | scripts/uploadCourses.js:26-27 | the image text holds no `&`, `#` or `=`, so it stays one query parameter |
| SimpleImport.InstructorOf | scripts/uploadCourses.js:122-125 | the instructor is never empty |
| SimpleImport.InstructorRule | scripts/uploadCourses.js:122-125 | the instructor is the trimmed text before `--`, or the whole trimmed name when there is none; `Expert Instructor` only stands in for an empty text |
| SimpleImport.RandomDuration | scripts/uploadCourses.js:132-135 | the duration is one of the five listed and never empty |
| SimpleImport.UniformLevel | scripts/uploadCourses.js:127-130 | the level is in the enumeration, and Beginner exactly for draws below one third |
| SimpleImport.SampleLessons | scripts/uploadCourses.js:137-164 | three valid lessons ordered 1 to 3, the first introducing the text after `--` or `Course Content` |
| SimpleImport.ProcessedCourse | scripts/uploadCourses.js:31-107 | a document has the trimmed name as title, its instructor, the mapped category, zero counters and three images led by the thumbnail, and passes validation exactly when the trimmed name is not empty |
| SimpleImport.FirstUnnamed | scripts/uploadCourses.js:33 | finds the first record without a name, and there is none exactly when every record has one |
| SimpleImport.ProcessCourses | scripts/uploadCourses.js:31-107 | it succeeds exactly when every record has a name, then with one document per record in order; otherwise it fails at the first unnamed record |
| JsNumber.ParseIntOfDecimal | controllers/courseController.js:457 | `parseInt` reads a decimal numeral back as its value |
| JsNumber.ToNumberOfDecimal | controllers/courseController.js:306 | `Number` reads a decimal numeral back as its value |
| JsNumber.ParseFloatOfDecimal | scripts/uploadBulkCourses.js:76 | `parseFloat` reads a decimal numeral back as its value |
| JsText.TrimIdempotent | controllers/courseController.js:291 | trimming twice is trimming once |
| JsUri.DecodeEncode | scripts/uploadCourses.js:26 | percent-decoding `encodeURIComponent` of a text gives the text's UTF-8 bytes |

## Left out

- The payment gateway and the image host are not called. The checkout session, the
  gateway's report on a session and the uploaded image URLs come in as parameters. A
  failed checkout session creation is the `GatewayError` outcome.
- The card line item (`unit_amount = price * 100`) is not modelled, and neither are the
  success and cancel URLs. Prices are `real`; floating-point rounding is not modelled.
- JsNumber.ParseFloat, JsNumber.ToNumber: the texts `Infinity`, `+Infinity` and `-Infinity` read as
  NaN (`None`) here, while JavaScript reads them as infinite numbers, and overflow such as `1e400` gives
  a large exact value rather than Infinity. So a price of `Infinity` is refused by the course handlers
  and replaced by 0 or the fallback in the import scripts, where the code would store Infinity.
- `Math.random` is a parameter: each record's draws (level, duration, experience, flags)
  are values in [0, 1).
- The text search of `listCourses` (`$regex`, `RegExp` on tags) is kept as text, not
  evaluated. `populate`, `sort` and `limit` are not modelled.
- Requests are sequential. Concurrent check-then-insert races are not modelled.
- `JSON.parse` is abstract: each JSON field carries what it parses to, or nothing when
  parsing throws.
- The import records carry string fields only; non-string JSON values are not modelled.
- Lookup tables are maps. JavaScript object-prototype keys such as `constructor` are not
  modelled.
- Strings are sequences of code points. `substring` on UTF-16 units and lone surrogates
  are not modelled.
- The unique review index on (userId, courseId) is sparse, but MongoDB leaves a document
  out of a sparse compound index only when every indexed field is missing. Every review
  has a course, so every review is indexed, with a missing user indexed as null. `addReview`
  always writes `userId: null`, so the program refuses a second administrator review of the
  same course with a duplicate-key error. The model enforces uniqueness only for reviews
  with a user: it accepts any number of user-less reviews per course.
- Timestamps are not modelled, and neither are the generated template texts: description,
  about, short description, bio, avatar, social links, features, requirements, outcomes,
  tags, keywords and curriculum.
- The discount percentage that the CSV import computes and never stores is not modelled.
- `req.files` being absent altogether (a request with no multipart body) is not
  modelled: uploads are a possibly empty map.
- Database errors other than validation failures are not modelled.
- The other course handlers (get, remove, delete all, featured, by category, all reviews),
  the routes and the course-listing check script are not part of this model.
- The driver of the first import script (`uploadCourses`, its fixed five-record list, its
  single `insertMany` and its exit codes) is not modelled.
- File reading, database connection, console output and `process.exit` are not modelled.
- `lessonOrder` in `updateProgress` is an integer here. The request body may carry any
  JSON value (a string, a fraction, null), which the code would push and compare as given.
- EnrollmentController.EnrollInCourse, EnrollmentController.VerifyEnrollment: their
  contracts do not repeat the store invariant. They equal the step functions, and
  `EnrollPreserves` and `VerifyPreserves` prove the invariant for those.
- ImportCommon.FirstMatch: its own contract does not state the list-order priority of the
  patterns. `FirstMatchIsFirst` proves it separately, which keeps the recursive function's
  proof small.
- New document ids are parameters. The handlers that create documents require them to be
  unused.
- CourseController.AddCourseNeedsRequired: refuses only an absent or empty price, not a
  price of 0. Multipart fields are strings, and the string `"0"` is truthy.
