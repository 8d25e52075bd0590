/**
 * The import of `csvjson.json`: records are cleaned into course documents, fifty at a
 * time; each batch inserts the records whose title is not yet stored, and a batch whose
 * insert fails is skipped.
 */
module CsvImport {
  import opened Wrappers
  import opened JsText
  import opened JsNumber
  import opened Schemas
  import opened ImportCommon

  /** Image colours, keyed by the raw product category. */
  const Colors: map<string, string> := map[
    "Trading" := "0066cc", "Business" := "28a745", "Marketing" := "fd7e14",
    "Money Making" := "6f42c1", "AI" := "dc3545", "Design" := "17a2b8",
    "SEO" := "6c757d", "Youtube" := "ffc107", "Forex" := "20c997",
    "Crypto" := "f8cf0f", "Dropshipping" := "e83e8c", "Affiliate" := "6610f2",
    "default" := "343a40"]

  const DefaultColor := "343a40"

  /** `colors[cat] || colors.default`: the listed colour, or the default one, and in
      either case six hexadecimal digits the image URL can carry. */
  function CategoryColor(raw: string): (color: string)
    ensures raw in Colors ==> color == Colors[raw]
    ensures raw !in Colors ==> color == DefaultColor
    ensures HexColor(color)
  {
    if raw in Colors then Colors[raw] else DefaultColor
  }

  /** Product categories to course categories. */
  const CategoryMap: map<string, string> := map[
    "Trading" := "Trading Courses", "Business" := "Business Courses",
    "Marketing" := "Marketing Courses", "Money Making" := "Business Courses",
    "AI" := "AI Courses", "Design" := "Design Courses",
    "E-commerce" := "E-commerce Courses", "SEO" := "SEO Courses",
    "YouTube" := "Youtube Courses", "Forex" := "Forex Courses",
    "Crypto" := "Crypto Courses", "Dropshipping" := "Dropshipping Courses",
    "Affiliate" := "Affiliate Marketing Courses",
    "Programming" := "Web Design and Development Courses",
    "Development" := "Web Design and Development Courses"]

  /** `categoryMap[original] || 'Trading Courses'`. */
  function MapCategory(raw: string): string {
    if raw in CategoryMap then CategoryMap[raw] else "Trading Courses"
  }

  /** Known product categories map as listed, anything else to `Trading Courses`, and the
      result is always a category of the course schema. */
  lemma MapCategoryInSchema(raw: string)
    ensures raw in CategoryMap ==> MapCategory(raw) == CategoryMap[raw]
    ensures raw !in CategoryMap ==> MapCategory(raw) == "Trading Courses"
    ensures MapCategory(raw) in Categories
  {
  }

  /** The colour lookup is by the raw category and is case-sensitive: `YouTube` maps to a
      course category but gets the default colour. */
  lemma YouTubeColor()
    ensures MapCategory("YouTube") == "Youtube Courses"
    ensures CategoryColor("YouTube") == DefaultColor
  {
  }

  /** `replace(/[$,]/g, '')`. */
  function StripMarks(s: string): (r: string)
    ensures |r| <= |s|
    ensures forall i :: 0 <= i < |r| ==> r[i] != '$' && r[i] != ','
    ensures forall c :: c in r ==> c in s
  {
    if s == [] then []
    else (if s[0] == '$' || s[0] == ',' then [] else [s[0]]) + StripMarks(s[1..])
  }

  lemma {:induction false} StripMarksIdempotent(s: string)
    ensures StripMarks(StripMarks(s)) == StripMarks(s)
  {
    StripMarksKeeps(StripMarks(s));
  }

  /** A leading dollar sign is removed from a number. */
  lemma StripDollar(d: string)
    requires AllDigitsIn(d, 10)
    ensures StripMarks("$" + d) == d
  {
    assert forall i :: 0 <= i < |d| ==> IsDigitIn(d[i], 10);
    StripMarksKeeps(d);
    assert ("$" + d)[1..] == d;
  }

  /** A text without marks is left alone. */
  lemma {:induction false} StripMarksKeeps(s: string)
    requires forall i :: 0 <= i < |s| ==> s[i] != '$' && s[i] != ','
    ensures StripMarks(s) == s
  {
    if s != [] {
      StripMarksKeeps(s[1..]);
    }
  }

  /** `cleanPrice`: 0 for an absent or empty price; otherwise `parseFloat` of the text with
      every `$` and `,` removed, and 0 when that is NaN. */
  function CleanPrice(raw: Option<string>): (price: real)
    ensures !Truthy(raw) ==> price == 0.0
    ensures Truthy(raw) && ParseFloat(StripMarks(raw.value)).None? ==> price == 0.0
    ensures Truthy(raw) && ParseFloat(StripMarks(raw.value)).Some? ==> price == ParseFloat(StripMarks(raw.value)).value
    ensures price < 0.0 ==> Truthy(raw) && SignSplit(TrimStart(StripMarks(raw.value))).0
  {
    if !Truthy(raw) then 0.0
    else match ParseFloat(StripMarks(raw.value))
      case Some(v) => v
      case None => 0.0
  }

  /** A price text without a minus sign never gives a negative price. */
  lemma CleanPriceNonNegative(s: string)
    requires forall i :: 0 <= i < |s| ==> s[i] != '-'
    ensures CleanPrice(Some(s)) >= 0.0
  {
    var t := TrimStart(StripMarks(s));
    if t != [] {
      assert t[0] in StripMarks(s);
    }
  }

  /** Removing the marks first changes nothing. */
  lemma CleanPriceIgnoresMarks(s: string)
    ensures CleanPrice(Some(s)) == CleanPrice(Some(StripMarks(s)))
  {
    StripMarksIdempotent(s);
  }

  /** A whole dollar amount is read as its value. */
  lemma CleanPriceOfDollars(n: nat)
    ensures CleanPrice(Some("$" + NatToDecimal(n))) == n as real
  {
    var d := NatToDecimal(n);
    StripDollar(d);
    ParseFloatOfDecimal(n);
    assert ParseFloat(StripMarks("$" + d)) == Some(n as real);
  }

  /** The en dash that separates instructor and topic in many product names. */
  const EnDash := "\U{2013}"

  /** `extractInstructor`: the trimmed text before the first en dash, else before the first
      `--`, else before the first `-`; otherwise the first matching name pattern; otherwise
      `Expert Instructor`. */
  function InstructorOf(name: string): (r: string)
    ensures r == "Expert Instructor" || exists k :: 0 <= k <= |name| && r == Trim(name[..k])
  {
    if Contains(name, EnDash) then Before(name, EnDash)
    else if Contains(name, "--") then Before(name, "--")
    else if Contains(name, "-") then Before(name, "-")
    else match FirstMatch([BeforeColon, BeforeCourse], name)
      case Some(r) => r
      case None => "Expert Instructor"
  }

  /** The separators are tried in priority order, and `Expert Instructor` is the answer
      only when no separator and no pattern applies, or when that is the name's text. */
  lemma InstructorPriority(name: string)
    ensures Contains(name, EnDash) ==> InstructorOf(name) == Trim(SplitHead(name, EnDash))
    ensures !Contains(name, EnDash) && Contains(name, "--") ==> InstructorOf(name) == Trim(SplitHead(name, "--"))
    ensures !Contains(name, EnDash) && !Contains(name, "--") && Contains(name, "-") ==>
      InstructorOf(name) == Trim(SplitHead(name, "-"))
    ensures
      (!Contains(name, EnDash) && !Contains(name, "--") && !Contains(name, "-")
       && MatchPattern(BeforeColon, name).None? && MatchPattern(BeforeCourse, name).None?) ==>
      InstructorOf(name) == "Expert Instructor"
  {
    if MatchPattern(BeforeColon, name).None? && MatchPattern(BeforeCourse, name).None? {
      assert [BeforeColon, BeforeCourse][1..] == [BeforeCourse];
      assert FirstMatch([BeforeCourse], name) == None;
    }
  }

  /** `extractInstructor` as the script runs it: the separator tests, then the loop over
      the patterns. */
  method ExtractInstructor(name: string) returns (instructor: string)
    ensures instructor == InstructorOf(name)
  {
    if Contains(name, EnDash) {
      return Before(name, EnDash);
    }
    if Contains(name, "--") {
      return Before(name, "--");
    }
    if Contains(name, "-") {
      return Before(name, "-");
    }
    var matched := MatchPatterns([BeforeColon, BeforeCourse], name);
    if matched.Some? {
      return matched.value;
    }
    return "Expert Instructor";
  }

  /** The topic of the first lesson: the trimmed second en-dash segment, else the trimmed
      second `--` segment, else `Course Content`. */
  function Topic(name: string): (t: string)
    ensures t != ""
  {
    OrElse(TrimmedSecond(name, EnDash), OrElse(TrimmedSecond(name, "--"), "Course Content"))
  }

  /** `generateSampleLessons`: four valid lessons ordered 1 to 4. */
  function SampleLessons(name: string): (ls: seq<Lesson>)
    ensures |ls| == 4
    ensures forall i :: 0 <= i < 4 ==> ls[i].order == i + 1
    ensures forall l :: l in ls ==> ValidLesson(l)
    ensures ls[0].title == "Introduction to " + Topic(name)
  {
    LessonsAbout(Topic(name))
  }

  /** The course document generated for one record: every field the schema requires is
      set, except possibly the instructor. */
  function ProcessRecord(row: Row, index: nat, d: Draws): (c: Imported)
    ensures c.title == RecordTitle(row, index)
    ensures RequiredFieldsSet(c)
  {
    var title := RecordTitle(row, index);
    var raw := OrElse(row.productCategory, "Trading");
    var category := MapCategory(raw);
    var color := CategoryColor(raw);
    var text := CleanName(title, 25);
    var thumbnail := PlaceholdUrl("400x300", color, text);
    var level := WeightedLevel(d.level);
    var duration := RandomDuration(d.duration);
    var lessons := SampleLessons(title);
    MapCategoryInSchema(OrElse(row.productCategory, "Trading"));
    Imported(
      title := title,
      price := CleanPrice(row.currentPrice),
      originalPrice := CleanPrice(row.originalPrice),
      thumbnail := thumbnail,
      images := [thumbnail, PlaceholdUrl("800x400", color, text), PlaceholdUrl("600x400", color, text)],
      category := category,
      level := level,
      duration := duration,
      lessons := lessons,
      instructorName := InstructorOf(title),
      experience := Experience(d.experience),
      rating := 0.0,
      totalRatings := 0,
      studentsEnrolled := 0,
      isActive := true,
      isFeatured := d.featured > 0.85,
      isPopular := d.popular > 0.75)
  }

  /** The generated document keeps the record's title (or its fallback), maps its
      category into the schema's, starts with no rating and no students, and passes
      validation exactly when an instructor name was found. */
  lemma ProcessedRecord(row: Row, index: nat, d: Draws)
    ensures var c := ProcessRecord(row, index, d);
      && c.title == RecordTitle(row, index)
      && c.category == MapCategory(OrElse(row.productCategory, "Trading"))
      && c.instructorName == InstructorOf(c.title)
      && c.price == CleanPrice(row.currentPrice) && c.originalPrice == CleanPrice(row.originalPrice)
      && c.rating == 0.0 && c.totalRatings == 0 && c.studentsEnrolled == 0 && c.isActive
      && |c.images| == 3 && c.images[0] == c.thumbnail
      && (Insertable(c) <==> c.instructorName != "")
  {
  }

  /** `processCourseData`: one document per record, in order, numbered within the batch. */
  function ProcessBatch(rows: seq<Row>, draws: seq<Draws>): (cs: seq<Imported>)
    requires |draws| == |rows|
    ensures |cs| == |rows|
    ensures forall i {:trigger cs[i]} :: 0 <= i < |rows| ==> cs[i] == ProcessRecord(rows[i], i, draws[i])
  {
    seq(|rows|, i requires 0 <= i < |rows| => ProcessRecord(rows[i], i, draws[i]))
  }

  lemma {:induction false} FirstOfBatch(rows: seq<Row>, draws: seq<Draws>)
    requires |draws| == |rows| && |rows| > 0
    ensures ProcessBatch(rows, draws)[0] == ProcessRecord(rows[0], 0, draws[0])
  {
  }

  /** An untitled first record of a batch is called `Course 1`. */
  lemma {:induction false} UntitledFirst(rows: seq<Row>, draws: seq<Draws>)
    requires |draws| == |rows| && |rows| > 0
    requires rows[0].productName.None?
    ensures ProcessBatch(rows, draws)[0].title == "Course 1"
  {
    FirstOfBatch(rows, draws);
    UntitledFirstTitle(rows[0]);
  }

  /** Fallback titles are numbered within a batch, so the numbering restarts at every
      batch: an untitled first record of the batch that starts at `start` is called
      `Course 1`, wherever the batch starts. */
  lemma {:induction false} FallbackTitleRestarts(rows: seq<Row>, draws: seq<Draws>, start: nat)
    requires |draws| == |rows| && start < |rows|
    requires rows[start].productName.None?
    ensures var end := BatchEnd(|rows|, start);
      ProcessBatch(rows[start..end], draws[start..end])[0].title == "Course 1"
  {
    var end := BatchEnd(|rows|, start);
    var batch, batchDraws := rows[start..end], draws[start..end];
    assert batch[0] == rows[start];
    UntitledFirst(batch, batchDraws);
  }

  // ---------------------------------------------------------------- the batch loop

  function Titles(db: seq<Imported>): set<string> {
    set c | c in db :: c.title
  }

  /** The documents whose title is not among `titles`, in order. */
  function NewOnes(cs: seq<Imported>, titles: set<string>): (r: seq<Imported>)
    ensures |r| <= |cs|
    ensures forall c {:trigger c in r} :: c in r <==> c in cs && c.title !in titles
  {
    if cs == [] then []
    else (if cs[0].title in titles then [] else [cs[0]]) + NewOnes(cs[1..], titles)
  }

  /** When no title is known, every document is new, duplicates within the batch included. */
  lemma {:induction false} NewOnesKeepsAll(cs: seq<Imported>, titles: set<string>)
    requires forall c :: c in cs ==> c.title !in titles
    ensures NewOnes(cs, titles) == cs
  {
    if cs != [] {
      NewOnesKeepsAll(cs[1..], titles);
    }
  }

  /** Filtering keeps the order: it distributes over concatenation. */
  lemma {:induction false} NewOnesAppend(xs: seq<Imported>, ys: seq<Imported>, titles: set<string>)
    ensures NewOnes(xs + ys, titles) == NewOnes(xs, titles) + NewOnes(ys, titles)
  {
    if xs == [] {
      assert xs + ys == ys;
    } else {
      assert (xs + ys)[0] == xs[0];
      assert (xs + ys)[1..] == xs[1..] + ys;
      NewOnesAppend(xs[1..], ys, titles);
    }
  }

  datatype Totals = Totals(uploaded: nat, skipped: nat)

  /** One batch against the stored courses: its new documents are inserted and the rest
      counted as skipped; a batch whose insert fails changes neither the store nor the
      counters. */
  function UploadBatch(db: seq<Imported>, processed: seq<Imported>, totals: Totals): (r: (seq<Imported>, Totals))
    ensures |r.0| >= |db| && r.0[..|db|] == db
    ensures r.1.uploaded - totals.uploaded == |r.0| - |db|
    ensures r.1.uploaded >= totals.uploaded && r.1.skipped >= totals.skipped
    ensures (r.1.uploaded + r.1.skipped) - (totals.uploaded + totals.skipped) <= |processed|
    ensures forall c :: c in r.0[|db|..] ==> c in processed && c.title !in Titles(db)
    ensures AllInsertable(NewOnes(processed, Titles(db))) ==> r.0 == db + NewOnes(processed, Titles(db))
    ensures !AllInsertable(NewOnes(processed, Titles(db))) ==> r == (db, totals)
    ensures r.0 == db + NewOnes(processed, Titles(db)) ==>
      r.1.uploaded + r.1.skipped == totals.uploaded + totals.skipped + |processed|
  {
    var added := NewOnes(processed, Titles(db));
    if |added| > 0 && !AllInsertable(added) then (db, totals)
    else
      assert (db + added)[..|db|] == db;
      assert (db + added)[|db|..] == added;
      (db + added, Totals(totals.uploaded + |added|, totals.skipped + (|processed| - |added|)))
  }

  /** The documents of each batch of records from `start` on, each batch processed on
      its own. */
  function ProcessedBatches(rows: seq<Row>, draws: seq<Draws>, start: nat): (bs: seq<seq<Imported>>)
    requires |draws| == |rows| && start <= |rows|
    decreases |rows| - start
  {
    if start == |rows| then []
    else
      var end := BatchEnd(|rows|, start);
      [ProcessBatch(rows[start..end], draws[start..end])] + ProcessedBatches(rows, draws, end)
  }

  /** The processed batches are the batches of the records (and of their draws), each run
      through ProcessBatch: by BatchesPartition every record is processed in exactly one
      batch, in input order. */
  lemma {:induction false} ProcessedBatchesAreBatches(rows: seq<Row>, draws: seq<Draws>, start: nat)
    requires |draws| == |rows| && start <= |rows|
    decreases |rows| - start
    ensures var bs := ProcessedBatches(rows, draws, start);
      var rowBatches := Batches(rows, start);
      var drawBatches := Batches(draws, start);
      && |bs| == |rowBatches| == |drawBatches|
      && forall k :: 0 <= k < |bs| ==>
           |rowBatches[k]| == |drawBatches[k]| && bs[k] == ProcessBatch(rowBatches[k], drawBatches[k])
  {
    if start < |rows| {
      var end := BatchEnd(|rows|, start);
      ProcessedBatchesAreBatches(rows, draws, end);
      var bs := ProcessedBatches(rows, draws, start);
      var rowBatches := Batches(rows, start);
      var drawBatches := Batches(draws, start);
      assert bs[1..] == ProcessedBatches(rows, draws, end);
      assert rowBatches[1..] == Batches(rows, end);
      assert drawBatches[1..] == Batches(draws, end);
      forall k | 0 <= k < |bs|
        ensures |rowBatches[k]| == |drawBatches[k]| && bs[k] == ProcessBatch(rowBatches[k], drawBatches[k])
      {
        if k > 0 {
          assert bs[k] == bs[1..][k - 1];
          assert rowBatches[k] == rowBatches[1..][k - 1];
          assert drawBatches[k] == drawBatches[1..][k - 1];
        }
      }
    }
  }

  /** The batches from `start` on are the first of them followed by those from the end
      of that batch on. */
  lemma ProcessedBatchesFirst(rows: seq<Row>, draws: seq<Draws>, start: nat)
    requires |draws| == |rows| && start < |rows|
    ensures var bs := ProcessedBatches(rows, draws, start);
      bs != [] && bs == [bs[0]] + ProcessedBatches(rows, draws, BatchEnd(|rows|, start))
  {
  }

  /** The stored courses and counters after uploading the given batches in order. */
  function UploadAll(db: seq<Imported>, batches: seq<seq<Imported>>, totals: Totals): (r: (seq<Imported>, Totals))
    decreases |batches|
  {
    if batches == [] then (db, totals)
    else
      var (db', totals') := UploadBatch(db, batches[0], totals);
      UploadAll(db', batches[1..], totals')
  }

  /** Uploading a first batch and then the rest. */
  lemma UploadAllFirst(db: seq<Imported>, batch: seq<Imported>, rest: seq<seq<Imported>>, totals: Totals)
    ensures var (db', totals') := UploadBatch(db, batch, totals);
      UploadAll(db, [batch] + rest, totals) == UploadAll(db', rest, totals')
  {
    assert ([batch] + rest)[1..] == rest;
  }

  function Count(batches: seq<seq<Imported>>): nat {
    if batches == [] then 0 else |batches[0]| + Count(batches[1..])
  }

  /** The store only grows, by exactly the number of courses counted as uploaded, and no
      document is counted twice. */
  lemma {:induction false} UploadTotals(db: seq<Imported>, batches: seq<seq<Imported>>, totals: Totals)
    decreases |batches|
    ensures var (db', totals') := UploadAll(db, batches, totals);
      && |db'| >= |db| && db'[..|db|] == db
      && totals'.uploaded - totals.uploaded == |db'| - |db|
      && totals'.uploaded >= totals.uploaded && totals'.skipped >= totals.skipped
      && (totals'.uploaded + totals'.skipped) - (totals.uploaded + totals.skipped) <= Count(batches)
  {
    if batches != [] {
      var (db1, t1) := UploadBatch(db, batches[0], totals);
      UploadTotals(db1, batches[1..], t1);
      var (db', _) := UploadAll(db1, batches[1..], t1);
      assert db'[..|db|] == (db'[..|db1|])[..|db|];
    }
  }

  /** The batches hold one document per record. */
  lemma {:induction false} ProcessedCount(rows: seq<Row>, draws: seq<Draws>, start: nat)
    requires |draws| == |rows| && start <= |rows|
    decreases |rows| - start
    ensures Count(ProcessedBatches(rows, draws, start)) == |rows| - start
  {
    if start < |rows| {
      var end := BatchEnd(|rows|, start);
      ProcessedCount(rows, draws, end);
      assert ProcessedBatches(rows, draws, start)[1..] == ProcessedBatches(rows, draws, end);
    }
  }

  /** Every course a batch inserts has a title that was not stored before the batch, and
      every document of the batch with such a title is inserted. */
  lemma BatchInsertsNewTitles(db: seq<Imported>, processed: seq<Imported>)
    ensures forall c :: c in NewOnes(processed, Titles(db)) ==> c in processed && c.title !in Titles(db)
    ensures forall c :: c in processed && (forall d :: d in db ==> d.title != c.title) ==> c in NewOnes(processed, Titles(db))
  {
  }

  /** One batch of the loop of `uploadFromCSVJSON`: drop the documents whose title is
      already stored, insert the rest in one call, count the dropped ones as skipped. */
  method InsertBatch(db0: seq<Imported>, processed: seq<Imported>, totals0: Totals) returns (db: seq<Imported>, totals: Totals)
    ensures (db, totals) == UploadBatch(db0, processed, totals0)
  {
    db, totals := db0, totals0;
    var existing := Titles(db);
    var added := NewOnes(processed, existing);
    if |added| > 0 {
      if !AllInsertable(added) {
        return;
      }
      db := db + added;
      totals := totals.(uploaded := totals.uploaded + |added|);
    } else {
      assert db + added == db;
    }
    totals := totals.(skipped := totals.skipped + (|processed| - |added|));
  }

  /** The loop of `uploadFromCSVJSON`, from an initial store. */
  method UploadFromCsvJson(db0: seq<Imported>, rows: seq<Row>, draws: seq<Draws>) returns (db: seq<Imported>, totals: Totals)
    requires |draws| == |rows|
    ensures (db, totals) == UploadAll(db0, ProcessedBatches(rows, draws, 0), Totals(0, 0))
  {
    db := db0;
    totals := Totals(0, 0);
    var i := 0;
    while i < |rows|
      invariant 0 <= i <= |rows|
      invariant UploadAll(db, ProcessedBatches(rows, draws, i), totals) == UploadAll(db0, ProcessedBatches(rows, draws, 0), Totals(0, 0))
      decreases |rows| - i
    {
      var end := BatchEnd(|rows|, i);
      ProcessedBatchesFirst(rows, draws, i);
      var processed := ProcessedBatches(rows, draws, i)[0];
      UploadAllFirst(db, processed, ProcessedBatches(rows, draws, end), totals);
      db, totals := InsertBatch(db, processed, totals);
      i := end;
    }
  }
}
