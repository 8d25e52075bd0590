/**
 * The import of `courses-data.json` (or of three sample records when the file is
 * absent): records are turned into course documents fifty at a time and each batch is
 * inserted whole; the first batch that fails validation ends the run.
 */
module BulkImport {
  import opened Wrappers
  import opened JsText
  import opened JsNumber
  import opened Schemas
  import opened ImportCommon

  /** Image colours, keyed by the course category. */
  const Colors: map<string, string> := map[
    "Trading Courses" := "0066cc", "Business Courses" := "28a745",
    "Marketing Courses" := "fd7e14", "AI Courses" := "6f42c1",
    "Design Courses" := "dc3545", "E-commerce Courses" := "17a2b8",
    "SEO Courses" := "6c757d", "Youtube Courses" := "ffc107",
    "Forex Courses" := "20c997", "Crypto Courses" := "f8cf0f",
    "Dropshipping Courses" := "e83e8c", "Affiliate Marketing Courses" := "6610f2",
    "default" := "343a40"]

  const DefaultColor := "343a40"

  /** `colors[cat] || colors.default`: the listed colour, or the default one, and in
      either case six hexadecimal digits the image URL can carry. */
  function CategoryColor(category: string): (color: string)
    ensures category in Colors ==> color == Colors[category]
    ensures category !in Colors ==> color == DefaultColor
    ensures HexColor(color)
  {
    if category in Colors then Colors[category] else DefaultColor
  }

  /** Product categories to course categories. */
  const CategoryMap: map<string, string> := map[
    "Trading" := "Trading Courses", "Business" := "Business Courses",
    "Marketing" := "Marketing Courses", "AI" := "AI Courses",
    "Design" := "Design Courses", "E-commerce" := "E-commerce Courses",
    "SEO" := "SEO Courses", "YouTube" := "Youtube Courses",
    "Forex" := "Forex Courses", "Crypto" := "Crypto Courses",
    "Dropshipping" := "Dropshipping Courses",
    "Affiliate" := "Affiliate Marketing Courses",
    "Programming" := "Web Design and Development Courses",
    "Development" := "Web Design and Development Courses"]

  /** `categoryMap[original] || 'Trading Courses'`. */
  function MapCategory(raw: string): string {
    if raw in CategoryMap then CategoryMap[raw] else "Trading Courses"
  }

  /** Known product categories map as listed, anything else to `Trading Courses`, and the
      result is always a category of the course schema. */
  lemma MapCategoryInSchema(raw: string)
    ensures raw in CategoryMap ==> MapCategory(raw) == CategoryMap[raw]
    ensures raw !in CategoryMap ==> MapCategory(raw) == "Trading Courses"
    ensures MapCategory(raw) in Categories
  {
  }

  /** The colour is looked up by the mapped category: `YouTube` records get the YouTube
      colour, and the one mapped category without a colour gets the default. */
  lemma ColorOfMappedCategory()
    ensures CategoryColor(MapCategory("YouTube")) == "ffc107"
    ensures CategoryColor(MapCategory("Programming")) == DefaultColor
    ensures forall raw :: raw !in CategoryMap ==> CategoryColor(MapCategory(raw)) == "0066cc"
  {
  }

  /** `extractInstructor`: the trimmed text before the first `--`; otherwise the first of
      the dash, colon and `Course` patterns that matches; otherwise `Expert Instructor`. */
  function InstructorOf(name: string): (r: string)
    ensures r == "Expert Instructor" || exists k :: 0 <= k <= |name| && r == Trim(name[..k])
  {
    if Contains(name, "--") then Before(name, "--")
    else match FirstMatch([BeforeDash, BeforeColon, BeforeCourse], name)
      case Some(r) => r
      case None => "Expert Instructor"
  }

  /** The `--` split wins over every pattern. */
  lemma SplitWins(name: string)
    requires Contains(name, "--")
    ensures InstructorOf(name) == Trim(SplitHead(name, "--"))
  {
  }

  /** Without `--`, the dash pattern is tried first. */
  lemma {:induction false} DashPatternFirst(name: string)
    requires !Contains(name, "--") && MatchPattern(BeforeDash, name).Some?
    ensures InstructorOf(name) == Trim(MatchPattern(BeforeDash, name).value)
  {
    assert FirstMatch([BeforeDash, BeforeColon, BeforeCourse], name) == Some(Trim(MatchPattern(BeforeDash, name).value));
  }

  /** `Expert Instructor` is the answer when neither the split nor any pattern applies. */
  lemma {:induction false} NoMatchFallsBack(name: string)
    requires !Contains(name, "--")
    requires MatchPattern(BeforeDash, name).None? && MatchPattern(BeforeColon, name).None?
    requires MatchPattern(BeforeCourse, name).None?
    ensures InstructorOf(name) == "Expert Instructor"
  {
    var ps := [BeforeDash, BeforeColon, BeforeCourse];
    assert ps[1..] == [BeforeColon, BeforeCourse];
    assert ps[1..][1..] == [BeforeCourse];
    assert FirstMatch([BeforeCourse], name) == None by {
      assert [BeforeCourse][1..] == [];
    }
    assert FirstMatch([BeforeColon, BeforeCourse], name) == None;
  }

  /** `extractInstructor` as the script runs it: the split, then the loop over the
      patterns. */
  method ExtractInstructor(name: string) returns (instructor: string)
    ensures instructor == InstructorOf(name)
  {
    if Contains(name, "--") {
      return Before(name, "--");
    }
    var matched := MatchPatterns([BeforeDash, BeforeColon, BeforeCourse], name);
    if matched.Some? {
      return matched.value;
    }
    return "Expert Instructor";
  }

  /** The topic of the first lesson: the trimmed second `--` segment, or `Course Content`. */
  function Topic(name: string): (t: string)
    ensures t != ""
    ensures !Contains(name, "--") ==> t == "Course Content"
  {
    OrElse(TrimmedSecond(name, "--"), "Course Content")
  }

  /** `generateSampleLessons`: four valid lessons ordered 1 to 4. */
  function SampleLessons(name: string): (ls: seq<Lesson>)
    ensures |ls| == 4
    ensures forall i :: 0 <= i < 4 ==> ls[i].order == i + 1
    ensures forall l :: l in ls ==> ValidLesson(l)
    ensures ls[0].title == "Introduction to " + Topic(name)
  {
    LessonsAbout(Topic(name))
  }

  /** The course document generated for one record: every field the schema requires is
      set, except possibly the instructor. */
  function ProcessRecord(row: Row, index: nat, d: Draws): (c: Imported)
    ensures c.title == RecordTitle(row, index)
    ensures RequiredFieldsSet(c)
  {
    var title := RecordTitle(row, index);
    var category := MapCategory(OrElse(row.productCategory, "Trading"));
    var color := CategoryColor(category);
    var text := CleanName(title, 30);
    var thumbnail := PlaceholdUrl("400x300", color, text);
    var level := WeightedLevel(d.level);
    var duration := RandomDuration(d.duration);
    var lessons := SampleLessons(title);
    MapCategoryInSchema(OrElse(row.productCategory, "Trading"));
    Imported(
      title := title,
      price := PriceOr(row.currentPrice, 9.99),
      originalPrice := PriceOr(row.originalPrice, 99.0),
      thumbnail := thumbnail,
      images := [thumbnail, PlaceholdUrl("800x400", color, text), PlaceholdUrl("600x400", color, text)],
      category := category,
      level := level,
      duration := duration,
      lessons := lessons,
      instructorName := InstructorOf(title),
      experience := Experience(d.experience),
      rating := 0.0,
      totalRatings := 0,
      studentsEnrolled := 0,
      isActive := true,
      isFeatured := d.featured > 0.85,
      isPopular := d.popular > 0.75)
  }

  /** The generated document keeps the record's title (or its fallback), maps its
      category into the schema's, never has a zero price, starts with no rating and no
      students, and passes validation exactly when an instructor name was found. */
  lemma ProcessedRecord(row: Row, index: nat, d: Draws)
    ensures var c := ProcessRecord(row, index, d);
      && c.title == RecordTitle(row, index)
      && c.category == MapCategory(OrElse(row.productCategory, "Trading"))
      && c.instructorName == InstructorOf(c.title)
      && c.price == PriceOr(row.currentPrice, 9.99) && c.price != 0.0
      && c.originalPrice == PriceOr(row.originalPrice, 99.0) && c.originalPrice != 0.0
      && c.rating == 0.0 && c.totalRatings == 0 && c.studentsEnrolled == 0 && c.isActive
      && |c.images| == 3 && c.images[0] == c.thumbnail
      && (Insertable(c) <==> c.instructorName != "")
  {
  }

  /** `processCourseData`: one document per record, in order, numbered within the batch. */
  function ProcessBatch(rows: seq<Row>, draws: seq<Draws>): (cs: seq<Imported>)
    requires |draws| == |rows|
    ensures |cs| == |rows|
    ensures forall i {:trigger cs[i]} :: 0 <= i < |rows| ==> cs[i] == ProcessRecord(rows[i], i, draws[i])
  {
    seq(|rows|, i requires 0 <= i < |rows| => ProcessRecord(rows[i], i, draws[i]))
  }

  // ---------------------------------------------------------------- the input

  /** The three records used when `courses-data.json` does not exist. */
  const SampleRows: seq<Row> := [
    Row(Some("Mike Valtos -- Order Flow Dynamics"), Some("Trading"), Some("297"), Some("9.99")),
    Row(Some("Mike Valtos -- Order Flow By The Numbers"), Some("Trading"), Some("99"), Some("29.99")),
    Row(Some("BKForex -- All Courses Bundle"), Some("Trading"), Some("1000"), Some("19.99"))]

  /** The records of the data file, or the sample when there is no file. */
  function InputRows(file: Option<seq<Row>>): (rows: seq<Row>)
    ensures file.Some? ==> rows == file.value
    ensures file.None? ==> rows == SampleRows && |rows| == 3
  {
    if file.Some? then file.value else SampleRows
  }

  /** Text without a dash has no `--`, so splitting on it keeps the whole text. */
  lemma {:induction false} DashFreeSplit(t: string)
    requires forall j :: 0 <= j < |t| ==> t[j] != '-'
    ensures SplitHead(t, "--") == t
  {
    forall j | 0 <= j ensures !OccursAt(t, "--", j) {
      if j < |t| {
        assert t[j] != '-';
      }
    }
    assert IndexOf(t, "--").None?;
  }

  /** In `head -- tail` with a dash-free `head`, the first `--` follows `head`. */
  lemma {:induction false} FirstSeparator(head: string, tail: string)
    requires forall j :: 0 <= j < |head| ==> head[j] != '-'
    ensures IndexOf(head + "--" + tail, "--") == Some(|head|)
  {
    var s := head + "--" + tail;
    forall j | 0 <= j < |head| ensures !OccursAt(s, "--", j) {
      assert s[j] == head[j];
    }
    assert s[|head|..|head| + 2] == "--";
    IndexOfFirst(s, "--", |head|);
  }

  /** A name with one `--` and no other dash splits into the text before and after it. */
  lemma {:induction false} SplitOnce(head: string, tail: string)
    requires forall j :: 0 <= j < |head| ==> head[j] != '-'
    requires forall j :: 0 <= j < |tail| ==> tail[j] != '-'
    ensures SplitHead(head + "--" + tail, "--") == head
    ensures SplitSecond(head + "--" + tail, "--") == Some(tail)
  {
    var s := head + "--" + tail;
    FirstSeparator(head, tail);
    assert SplitHead(s, "--") == s[..|head|];
    assert s[..|head|] == head;
    assert s[|head| + 2..] == tail;
    assert SplitSecond(s, "--") == Some(SplitHead(tail, "--"));
    DashFreeSplit(tail);
  }

  /** Such a name has the text before `--` as instructor and the text after it as topic. */
  lemma SplitNameParts(head: string, tail: string)
    requires forall j :: 0 <= j < |head| ==> head[j] != '-'
    requires forall j :: 0 <= j < |tail| ==> tail[j] != '-'
    ensures InstructorOf(head + "--" + tail) == Trim(head)
    ensures Topic(head + "--" + tail) == if Trim(tail) == "" then "Course Content" else Trim(tail)
  {
    SplitOnce(head, tail);
  }

  /** `{instructor} -- {topic}` names its instructor and its topic. */
  lemma {:induction false} SpacedNameParts(instructor: string, topic: string)
    requires instructor != [] && !IsSpace(instructor[0]) && !IsSpace(instructor[|instructor| - 1])
    requires topic != [] && !IsSpace(topic[0]) && !IsSpace(topic[|topic| - 1])
    requires forall j :: 0 <= j < |instructor| ==> instructor[j] != '-'
    requires forall j :: 0 <= j < |topic| ==> topic[j] != '-'
    ensures InstructorOf(instructor + " -- " + topic) == instructor
    ensures Topic(instructor + " -- " + topic) == topic
  {
    var head, tail := instructor + " ", " " + topic;
    assert instructor + " -- " + topic == head + "--" + tail;
    assert forall j :: 0 <= j < |head| ==> head[j] != '-' by {
      forall j | 0 <= j < |head| ensures head[j] != '-' {
        if j < |instructor| { assert head[j] == instructor[j]; }
      }
    }
    assert forall j :: 0 <= j < |tail| ==> tail[j] != '-' by {
      forall j | 0 <= j < |tail| ensures tail[j] != '-' {
        if j > 0 { assert tail[j] == topic[j - 1]; }
      }
    }
    SplitNameParts(head, tail);
    TrimPadding(instructor);
    TrimPadding(topic);
  }

  /** The first sample record is by Mike Valtos, on Order Flow Dynamics. */
  lemma FirstSampleParts()
    ensures InstructorOf(SampleRows[0].productName.value) == "Mike Valtos"
    ensures Topic(SampleRows[0].productName.value) == "Order Flow Dynamics"
  {
    assert SampleRows[0].productName.value == "Mike Valtos" + " -- " + "Order Flow Dynamics";
    SpacedNameParts("Mike Valtos", "Order Flow Dynamics");
  }

  /** The third sample record is by BKForex, on All Courses Bundle. */
  lemma ThirdSampleParts()
    ensures InstructorOf(SampleRows[2].productName.value) == "BKForex"
    ensures Topic(SampleRows[2].productName.value) == "All Courses Bundle"
  {
    assert SampleRows[2].productName.value == "BKForex" + " -- " + "All Courses Bundle";
    SpacedNameParts("BKForex", "All Courses Bundle");
  }

  // ---------------------------------------------------------------- the batch loop

  /** The documents of each batch of records from `start` on, each batch processed on
      its own. */
  function ProcessedBatches(rows: seq<Row>, draws: seq<Draws>, start: nat): (bs: seq<seq<Imported>>)
    requires |draws| == |rows| && start <= |rows|
    decreases |rows| - start
  {
    if start == |rows| then []
    else
      var end := BatchEnd(|rows|, start);
      [ProcessBatch(rows[start..end], draws[start..end])] + ProcessedBatches(rows, draws, end)
  }

  /** The processed batches are the batches of the records (and of their draws), each run
      through ProcessBatch: by BatchesPartition every record is processed in exactly one
      batch, in input order. */
  lemma {:induction false} ProcessedBatchesAreBatches(rows: seq<Row>, draws: seq<Draws>, start: nat)
    requires |draws| == |rows| && start <= |rows|
    decreases |rows| - start
    ensures var bs := ProcessedBatches(rows, draws, start);
      var rowBatches := Batches(rows, start);
      var drawBatches := Batches(draws, start);
      && |bs| == |rowBatches| == |drawBatches|
      && forall k :: 0 <= k < |bs| ==>
           |rowBatches[k]| == |drawBatches[k]| && bs[k] == ProcessBatch(rowBatches[k], drawBatches[k])
  {
    if start < |rows| {
      var end := BatchEnd(|rows|, start);
      ProcessedBatchesAreBatches(rows, draws, end);
      var bs := ProcessedBatches(rows, draws, start);
      var rowBatches := Batches(rows, start);
      var drawBatches := Batches(draws, start);
      assert bs[1..] == ProcessedBatches(rows, draws, end);
      assert rowBatches[1..] == Batches(rows, end);
      assert drawBatches[1..] == Batches(draws, end);
      forall k | 0 <= k < |bs|
        ensures |rowBatches[k]| == |drawBatches[k]| && bs[k] == ProcessBatch(rowBatches[k], drawBatches[k])
      {
        if k > 0 {
          assert bs[k] == bs[1..][k - 1];
          assert rowBatches[k] == rowBatches[1..][k - 1];
          assert drawBatches[k] == drawBatches[1..][k - 1];
        }
      }
    }
  }

  /** The batches hold one document per record. */
  lemma {:induction false} ProcessedCount(rows: seq<Row>, draws: seq<Draws>, start: nat)
    requires |draws| == |rows| && start <= |rows|
    decreases |rows| - start
    ensures |Flatten(ProcessedBatches(rows, draws, start))| == |rows| - start
  {
    if start < |rows| {
      var end := BatchEnd(|rows|, start);
      ProcessedCount(rows, draws, end);
      assert ProcessedBatches(rows, draws, start)[1..] == ProcessedBatches(rows, draws, end);
    }
  }

  /** The stored courses after a run, the number counted as uploaded, and whether the run
      ended with an error. */
  datatype Outcome = Outcome(db: seq<Imported>, uploaded: nat, failed: bool)

  /** The batches are inserted in order; `insertMany` rejects a batch with an invalid
      document as a whole, and the error ends the run. */
  function UploadAll(db: seq<Imported>, batches: seq<seq<Imported>>, uploaded: nat): Outcome
    decreases |batches|
  {
    if batches == [] then Outcome(db, uploaded, false)
    else if !AllInsertable(batches[0]) then Outcome(db, uploaded, true)
    else UploadAll(db + batches[0], batches[1..], uploaded + |batches[0]|)
  }

  /** Some batch holds a document that fails validation. */
  predicate SomeInvalid(batches: seq<seq<Imported>>) {
    exists i :: 0 <= i < |batches| && !AllInsertable(batches[i])
  }

  /** After a valid first batch, an invalid batch can only be among the rest. */
  lemma InvalidInRest(batches: seq<seq<Imported>>)
    requires batches != [] && AllInsertable(batches[0])
    ensures SomeInvalid(batches) <==> SomeInvalid(batches[1..])
  {
    if SomeInvalid(batches) {
      var i :| 0 <= i < |batches| && !AllInsertable(batches[i]);
      assert batches[1..][i - 1] == batches[i];
    }
    if SomeInvalid(batches[1..]) {
      var i :| 0 <= i < |batches[1..]| && !AllInsertable(batches[1..][i]);
      assert batches[i + 1] == batches[1..][i];
    }
  }

  /** A run only adds to the store, counts exactly what it added, fails exactly when some
      batch holds an invalid document, and otherwise adds every document in order. */
  lemma {:induction false} UploadOutcome(db: seq<Imported>, batches: seq<seq<Imported>>, uploaded: nat)
    decreases |batches|
    ensures var o := UploadAll(db, batches, uploaded);
      && |o.db| >= |db| && o.db[..|db|] == db
      && o.uploaded == uploaded + (|o.db| - |db|)
      && (o.failed <==> SomeInvalid(batches))
      && (!o.failed ==> o.db == db + Flatten(batches))
  {
    if batches == [] {
    } else if !AllInsertable(batches[0]) {
      assert !AllInsertable(batches[0]);
    } else {
      var rest := batches[1..];
      var db1 := db + batches[0];
      UploadOutcome(db1, rest, uploaded + |batches[0]|);
      InvalidInRest(batches);
      var o := UploadAll(db1, rest, uploaded + |batches[0]|);
      assert UploadAll(db, batches, uploaded) == o;
      assert o.db[..|db|] == db by {
        assert o.db[..|db1|] == db1;
        assert db1[..|db|] == db;
      }
      if !o.failed {
        assert Flatten(batches) == batches[0] + Flatten(rest);
        assert db1 + Flatten(rest) == db + (batches[0] + Flatten(rest));
      }
    }
  }


  /** A run that ends without an error uploads every record once. */
  lemma CompleteRunUploadsAll(db: seq<Imported>, rows: seq<Row>, draws: seq<Draws>)
    requires |draws| == |rows|
    ensures var o := UploadAll(db, ProcessedBatches(rows, draws, 0), 0);
      !o.failed ==> o.uploaded == |rows| && |o.db| == |db| + |rows|
  {
    UploadOutcome(db, ProcessedBatches(rows, draws, 0), 0);
    ProcessedCount(rows, draws, 0);
  }

  /** One batch of the loop of `uploadBulkCourses`: `insertMany` of the processed batch,
      which either stores all of it or reports an error. */
  method InsertMany(db0: seq<Imported>, processed: seq<Imported>) returns (db: seq<Imported>, ok: bool)
    ensures ok <==> AllInsertable(processed)
    ensures db == if ok then db0 + processed else db0
  {
    db := db0;
    ok := forall i :: 0 <= i < |processed| ==> Insertable(processed[i]);
    if ok {
      db := db + processed;
    }
  }

  /** The loop of `uploadBulkCourses`, from an initial store. */
  method UploadBulkCourses(db0: seq<Imported>, file: Option<seq<Row>>, draws: seq<Draws>) returns (db: seq<Imported>, totalUploaded: nat, failed: bool)
    requires |draws| == |InputRows(file)|
    ensures Outcome(db, totalUploaded, failed) == UploadAll(db0, ProcessedBatches(InputRows(file), draws, 0), 0)
  {
    var courseData := InputRows(file);
    db := db0;
    totalUploaded := 0;
    failed := false;
    var i := 0;
    while i < |courseData|
      invariant 0 <= i <= |courseData|
      invariant UploadAll(db, ProcessedBatches(courseData, draws, i), totalUploaded) == UploadAll(db0, ProcessedBatches(courseData, draws, 0), 0)
      decreases |courseData| - i
    {
      var end := BatchEnd(|courseData|, i);
      var processedBatch := ProcessBatch(courseData[i..end], draws[i..end]);
      assert ProcessedBatches(courseData, draws, i) == [processedBatch] + ProcessedBatches(courseData, draws, end);
      var ok;
      db, ok := InsertMany(db, processedBatch);
      if !ok {
        failed := true;
        return;
      }
      totalUploaded := totalUploaded + |processedBatch|;
      i := end;
    }
  }
}
