/**
 * The first import script, which turns a fixed list of product records into course
 * documents: placeholder images carry the percent-encoded name, the instructor is the
 * text before `--`, and a record without a name stops the whole import.
 */
module SimpleImport {
  import opened Wrappers
  import opened JsText
  import opened JsUri
  import opened Schemas
  import opened ImportCommon

  /** Image colours, keyed by the course category. */
  const Colors: map<string, string> := map[
    "Trading Courses" := "0066cc", "Business Courses" := "28a745",
    "Marketing Courses" := "fd7e14", "AI Courses" := "6f42c1",
    "Design Courses" := "dc3545", "E-commerce Courses" := "17a2b8",
    "SEO Courses" := "6c757d", "Youtube Courses" := "ffc107",
    "default" := "343a40"]

  const DefaultColor := "343a40"

  /** `colors[cat] || colors.default`: the listed colour, or the default one, and in
      either case six hexadecimal digits the image URL can carry. */
  function CategoryColor(category: string): (color: string)
    ensures category in Colors ==> color == Colors[category]
    ensures category !in Colors ==> color == DefaultColor
    ensures HexColor(color)
  {
    if category in Colors then Colors[category] else DefaultColor
  }

  /** Product categories to course categories. */
  const CategoryMap: map<string, string> := map[
    "Trading" := "Trading Courses", "Business" := "Business Courses",
    "Marketing" := "Marketing Courses", "AI" := "AI Courses",
    "Design" := "Design Courses", "E-commerce" := "E-commerce Courses"]

  /** `categoryMap[original] || 'Trading Courses'`; an absent category is looked up as
      `undefined`, which is not a key. */
  function MapCategory(raw: Option<string>): string {
    if raw.Some? && raw.value in CategoryMap then CategoryMap[raw.value] else "Trading Courses"
  }

  /** The six product categories map as listed, anything else (an absent one included)
      to `Trading Courses`, and the result is always a category of the course schema
      that has a colour of its own. */
  lemma MapCategoryInSchema(raw: Option<string>)
    ensures raw.Some? && raw.value in CategoryMap ==> MapCategory(raw) == CategoryMap[raw.value]
    ensures raw.None? || raw.value !in CategoryMap ==> MapCategory(raw) == "Trading Courses"
    ensures MapCategory(raw) in Categories
    ensures CategoryColor(MapCategory(raw)) != DefaultColor
  {
  }

  /** The `text` parameter of an image: the first 50 characters, percent-encoded. */
  function ImageText(name: string): (text: string)
    ensures forall i :: 0 <= i < |text| ==> IsUnreserved(text[i]) || text[i] == '%' || IsHexUpper(text[i])
  {
    EncodeURIComponent(Take(name, 50))
  }

  /** `generateCourseImage`. */
  function ImageUrl(name: string, category: string, size: string): string {
    "https://via.placeholder.com/" + size + "/" + CategoryColor(category) + "/ffffff?text=" + ImageText(name)
  }

  /** The image text decodes back to the bytes of the name's first 50 characters. */
  lemma ImageTextDecodes(name: string)
    ensures DecodeBytes(ImageText(name)) == Some(Utf8Encode(Take(name, 50)))
  {
    DecodeEncode(Take(name, 50));
  }

  /** The image text holds no character that could end the query parameter or start
      another one. */
  lemma ImageTextStaysInQuery(name: string)
    ensures forall i :: 0 <= i < |ImageText(name)| ==>
      ImageText(name)[i] != '&' && ImageText(name)[i] != '#' && ImageText(name)[i] != '='
  {
  }

  /** `extractInstructor`: the trimmed text before the first `--` (the whole name when
      there is none), or `Expert Instructor` when that text is empty. */
  function InstructorOf(name: string): (r: string)
    ensures r != ""
  {
    OrElse(Some(Trim(SplitHead(name, "--"))), "Expert Instructor")
  }

  /** The instructor is the text before `--`, or the whole trimmed name, and falls back to
      `Expert Instructor` only when that text is empty. */
  lemma InstructorRule(name: string)
    ensures Contains(name, "--") && Trim(SplitHead(name, "--")) != "" ==>
      InstructorOf(name) == Trim(SplitHead(name, "--"))
    ensures !Contains(name, "--") && Trim(name) != "" ==> InstructorOf(name) == Trim(name)
    ensures InstructorOf(name) == "Expert Instructor" ==>
      Trim(SplitHead(name, "--")) == "" || Trim(SplitHead(name, "--")) == "Expert Instructor"
  {
    if !Contains(name, "--") {
      assert SplitHead(name, "--") == name;
    }
  }

  /** The five durations a course picks from. */
  const Durations: seq<string> := ["2-4 hours", "1-2 weeks", "3-5 hours", "1 week", "2-3 weeks"]

  /** `getRandomDuration`. */
  function RandomDuration(draw: Unit): (duration: string)
    ensures duration in Durations && duration != ""
  {
    Pick(Durations, draw)
  }

  /** `levels[Math.floor(draw * 3)]`: each level equally likely. */
  function UniformLevel(draw: Unit): (level: string)
    ensures level in Levels
    ensures level == "Beginner" <==> draw * 3.0 < 1.0
  {
    Pick(Levels, draw)
  }

  /** `generateSampleLessons`: three valid lessons ordered 1 to 3, the first about the
      trimmed text after `--`. */
  function SampleLessons(name: string): (ls: seq<Lesson>)
    ensures |ls| == 3
    ensures forall i :: 0 <= i < 3 ==> ls[i].order == i + 1
    ensures forall l :: l in ls ==> ValidLesson(l)
    ensures ls[0].title == "Introduction to " + OrElse(TrimmedSecond(name, "--"), "Course Content")
  {
    var topic := OrElse(TrimmedSecond(name, "--"), "Course Content");
    [ SampleLesson("Introduction to " + topic, "Course overview and learning objectives", "https://example.com/video1", "15 mins", 1),
      SampleLesson("Core Concepts and Fundamentals", "Essential knowledge and basic principles", "https://example.com/video2", "25 mins", 2),
      SampleLesson("Advanced Strategies and Techniques", "Professional-level methods and approaches", "https://example.com/video3", "30 mins", 3) ]
  }

  /** Why `processCourseData` throws: a record without a product name. */
  datatype ProcessError = MissingName(index: nat)

  /** The course document for a record with a name. */
  function ProcessCourse(name: string, row: Row, d: Draws): (c: Imported)
  {
    var title := Trim(name);
    var category := MapCategory(row.productCategory);
    var thumbnail := ImageUrl(title, category, "400x300");
    Imported(
      title := title,
      price := PriceOr(row.currentPrice, 0.0),
      originalPrice := PriceOr(row.originalPrice, 0.0),
      thumbnail := thumbnail,
      images := [thumbnail, ImageUrl(title, category, "800x400"), ImageUrl(title, category, "600x400")],
      category := category,
      level := UniformLevel(d.level),
      duration := RandomDuration(d.duration),
      lessons := SampleLessons(title),
      instructorName := InstructorOf(title),
      experience := Experience(d.experience),
      rating := 0.0,
      totalRatings := 0,
      studentsEnrolled := 0,
      isActive := true,
      isFeatured := d.featured > 0.8,
      isPopular := d.popular > 0.7)
  }

  /** The generated document has the trimmed name as title, its instructor from that
      title, a mapped category, no rating and no students, and passes validation exactly
      when the trimmed name is not empty. */
  lemma {:induction false} ProcessedCourse(name: string, row: Row, d: Draws)
    ensures var c := ProcessCourse(name, row, d);
      && c.title == Trim(name)
      && c.instructorName == InstructorOf(Trim(name))
      && c.category == MapCategory(row.productCategory)
      && c.rating == 0.0 && c.totalRatings == 0 && c.studentsEnrolled == 0 && c.isActive
      && |c.images| == 3 && c.images[0] == c.thumbnail
      && (Insertable(c) <==> Trim(name) != "")
  {
    var c := ProcessCourse(name, row, d);
    MapCategoryInSchema(row.productCategory);
    assert c.category in Categories;
    assert c.level in Levels;
    assert c.duration in Durations;
    assert c.thumbnail != "";
    assert c.instructorName != "";
    assert forall l :: l in c.lessons ==> ValidLesson(l);
  }

  /** The index of the first record without a product name, if any. */
  function FirstUnnamed(rows: seq<Row>): (k: Option<nat>)
    ensures k.None? <==> forall i :: 0 <= i < |rows| ==> rows[i].productName.Some?
    ensures k.Some? ==> k.value < |rows| && rows[k.value].productName.None?
    ensures k.Some? ==> forall i :: 0 <= i < k.value ==> rows[i].productName.Some?
  {
    if rows == [] then None
    else if rows[0].productName.None? then Some(0)
    else
      var k := FirstUnnamed(rows[1..]);
      assert forall i :: 1 <= i < |rows| ==> rows[i] == rows[1..][i - 1];
      if k.Some? then Some(k.value + 1) else None
  }

  /** `processCourseData`: one document per record, in order, or the error of the first
      record that has no name, on which `trim` throws. */
  function ProcessCourses(rows: seq<Row>, draws: seq<Draws>): (r: Result<seq<Imported>, ProcessError>)
    requires |draws| == |rows|
    ensures r.Ok? <==> forall i :: 0 <= i < |rows| ==> rows[i].productName.Some?
    ensures r.Ok? ==> |r.value| == |rows|
    ensures r.Ok? ==> forall i :: 0 <= i < |rows| ==>
      r.value[i] == ProcessCourse(rows[i].productName.value, rows[i], draws[i])
    ensures r.Err? ==> var k := r.error.index;
      k < |rows| && rows[k].productName.None? && forall i :: 0 <= i < k ==> rows[i].productName.Some?
  {
    match FirstUnnamed(rows)
    case Some(k) => Err(MissingName(k))
    case None =>
      Ok(seq(|rows|, i requires 0 <= i < |rows| => ProcessCourse(rows[i].productName.value, rows[i], draws[i])))
  }
}
