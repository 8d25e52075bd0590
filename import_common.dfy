/**
 * What the three course-import scripts share: the input records, the random draws a
 * record consumes, the part of a generated course document the model follows, the
 * URL-safe name used in placeholder images, the instructor-name regular expressions,
 * the level and duration picks, and slicing the input into batches of 50.
 */
module ImportCommon {
  import opened Wrappers
  import opened JsText
  import opened JsNumber
  import opened Schemas

  /** One record of a product data file; each field is its string value, or `None`. */
  datatype Row = Row(
    productName: Option<string>,
    productCategory: Option<string>,
    originalPrice: Option<string>,
    currentPrice: Option<string>)

  /** A value of `Math.random()`. */
  type Unit = r: real | 0.0 <= r < 1.0

  /** The random draws one record consumes: level, duration, instructor experience and
      the two flags. */
  datatype Draws = Draws(level: Unit, duration: Unit, experience: Unit, featured: Unit, popular: Unit)

  /** The fields of a generated course document that the model follows. The template
      texts (description, about, short description, bio, links, features, requirements,
      outcomes, tags, keywords, curriculum) are always non-empty and are not modelled. */
  datatype Imported = Imported(
    title: string,
    price: real,
    originalPrice: real,
    thumbnail: string,
    images: seq<string>,
    category: string,
    level: string,
    duration: string,
    lessons: seq<Lesson>,
    instructorName: string,
    experience: string,
    rating: real,
    totalRatings: nat,
    studentsEnrolled: nat,
    isActive: bool,
    isFeatured: bool,
    isPopular: bool)

  /** Every field the course schema requires, other than the instructor, is set. */
  predicate RequiredFieldsSet(c: Imported) {
    && c.title != ""
    && c.thumbnail != ""
    && c.category in Categories
    && c.level in Levels
    && c.duration != ""
    && (forall l :: l in c.lessons ==> ValidLesson(l))
  }

  /** The course schema's validation, on the fields an import generates. */
  predicate Insertable(c: Imported) {
    RequiredFieldsSet(c) && c.instructorName != ""
  }

  predicate AllInsertable(cs: seq<Imported>) {
    forall i :: 0 <= i < |cs| ==> Insertable(cs[i])
  }

  // ---------------------------------------------------------------- image names

  /** Six lower-case hexadecimal digits: a colour the placeholder image services read in
      their URL path. */
  predicate HexColor(c: string) {
    |c| == 6 && forall i :: 0 <= i < 6 ==> ('0' <= c[i] <= '9' || 'a' <= c[i] <= 'f')
  }

  predicate NameChar(c: char) { IsAsciiAlnum(c) || IsSpace(c) }

  /** `replace(/[^a-zA-Z0-9\s]/g, '')`. */
  function KeepNameChars(s: string): (r: string)
    ensures |r| <= |s|
    ensures forall i :: 0 <= i < |r| ==> NameChar(r[i])
  {
    if s == [] then []
    else (if NameChar(s[0]) then [s[0]] else []) + KeepNameChars(s[1..])
  }

  /** Only letters, digits and `+`, with no two `+` side by side. */
  predicate PlusText(r: string) {
    && (forall i :: 0 <= i < |r| ==> IsAsciiAlnum(r[i]) || r[i] == '+')
    && (forall i :: 0 <= i < |r| - 1 && r[i] == '+' ==> r[i + 1] != '+')
  }

  lemma PlusTextCons(c: char, tail: string)
    requires PlusText(tail)
    requires IsAsciiAlnum(c) || (c == '+' && (tail == [] || tail[0] != '+'))
    ensures PlusText([c] + tail)
  {
    var r := [c] + tail;
    assert forall i :: 1 <= i < |r| ==> r[i] == tail[i - 1];
  }

  /** `replace(/\s+/g, '+')`: each run of white space becomes one `+`. */
  function JoinSpaces(s: string): (r: string)
    requires forall i :: 0 <= i < |s| ==> NameChar(s[i])
    ensures |r| <= |s|
    ensures PlusText(r)
    ensures r != [] && r[0] == '+' ==> s != [] && IsSpace(s[0])
    decreases |s|
  {
    if s == [] then []
    else if IsSpace(s[0]) then
      var rest := TrimStart(s[1..]);
      assert rest == s[|s| - |rest|..];
      var tail := JoinSpaces(rest);
      assert tail == [] || tail[0] != '+';
      PlusTextCons('+', tail);
      ['+'] + tail
    else
      assert NameChar(s[0]);
      var tail := JoinSpaces(s[1..]);
      PlusTextCons(s[0], tail);
      [s[0]] + tail
  }

  /** The name shown in a placeholder image: special characters removed, runs of white
      space joined into `+`, cut to `limit` characters. */
  function CleanName(name: string, limit: nat): (r: string)
    ensures |r| <= limit
    ensures PlusText(r)
  {
    var joined := JoinSpaces(KeepNameChars(name));
    var r := Take(joined, limit);
    assert forall i :: 0 <= i < |r| ==> r[i] == joined[i];
    r
  }

  /** The placeholder image URL both CSV-style scripts generate; `size` is
      `{width}x{height}`. */
  function PlaceholdUrl(size: string, color: string, text: string): (url: string)
    ensures |url| > |size| + |color| + |text|
  {
    "https://placehold.co/" + size + "/" + color + "/ffffff?text=" + text + "&font=roboto"
  }

  // ---------------------------------------------------------------- instructor patterns

  /** The characters of `[A-Za-z\s]`. */
  predicate InNameClass(c: char) { IsAsciiLetter(c) || IsSpace(c) }

  /** The length of the longest prefix made of `[A-Za-z\s]`. */
  function ClassPrefix(s: string): (n: nat)
    ensures n <= |s|
    ensures forall i :: 0 <= i < n ==> InNameClass(s[i])
    ensures n < |s| ==> !InNameClass(s[n])
  {
    if s != [] && InNameClass(s[0]) then 1 + ClassPrefix(s[1..]) else 0
  }

  /** The instructor patterns: `/^([A-Za-z\s]+)\s*-/`, `/^([A-Za-z\s]+)\s*:/` and
      `/^([A-Za-z\s]+)\s+Course/i`. */
  datatype Pattern = BeforeDash | BeforeColon | BeforeCourse

  /** `/^([A-Za-z\s]+)\s*M/` for a mark `M` outside the class: the whole class prefix is
      captured, and the mark must follow it. */
  function CaptureBefore(s: string, mark: char): (r: Option<string>)
    requires !InNameClass(mark)
    ensures r.Some? <==> 0 < ClassPrefix(s) < |s| && s[ClassPrefix(s)] == mark
    ensures r.Some? ==> r.value == s[..ClassPrefix(s)]
  {
    var n := ClassPrefix(s);
    if 0 < n < |s| && s[n] == mark then Some(s[..n]) else None
  }

  /** At `j` the word `course` starts, in any letter case. */
  predicate CourseWordAt(s: string, j: nat) {
    j + 6 <= |s| && forall i :: 0 <= i < 6 ==> AsciiLower(s[j + i]) == "course"[i]
  }

  /** At `k` there is white space followed by `course` in any letter case. */
  predicate CourseAfter(s: string, k: nat) {
    k < |s| && IsSpace(s[k]) && CourseWordAt(s, k + LeadingSpaces(s[k..]))
  }

  /** Tries capture lengths `k`, `k - 1`, ..., 1, as the greedy group backtracks. */
  function CaptureCourseFrom(s: string, k: nat): (r: Option<string>)
    requires k <= ClassPrefix(s)
    ensures r.Some? ==> 0 < |r.value| <= k && r.value == s[..|r.value|] && CourseAfter(s, |r.value|)
  {
    if k == 0 then None
    else if CourseAfter(s, k) then Some(s[..k])
    else CaptureCourseFrom(s, k - 1)
  }

  /** No longer capture up to `k` is followed by `course`, and none at all when nothing
      is captured. */
  lemma {:induction false} CaptureCourseFromLongest(s: string, k: nat)
    requires k <= ClassPrefix(s)
    ensures var r := CaptureCourseFrom(s, k);
      && (r.Some? ==> forall m :: |r.value| < m <= k ==> !CourseAfter(s, m))
      && (r.None? ==> forall m :: 0 < m <= k ==> !CourseAfter(s, m))
  {
    if k > 0 && !CourseAfter(s, k) {
      CaptureCourseFromLongest(s, k - 1);
      var r := CaptureCourseFrom(s, k - 1);
      assert CaptureCourseFrom(s, k) == r;
      var low := if r.Some? then |r.value| else 0;
      forall m | low < m <= k
        ensures !CourseAfter(s, m)
      {
        if m == k {
        } else {
          assert low < m <= k - 1;
        }
      }
    }
  }

  /** What a pattern captures at the start of a name, `None` when it does not match. */
  function MatchPattern(p: Pattern, s: string): (r: Option<string>)
    ensures r.Some? ==> |r.value| <= |s| && r.value == s[..|r.value|]
  {
    match p
    case BeforeDash => CaptureBefore(s, '-')
    case BeforeColon => CaptureBefore(s, ':')
    case BeforeCourse => CaptureCourseFrom(s, ClassPrefix(s))
  }

  /** `/^([A-Za-z\s]+)\s+Course/i` captures the longest class prefix that is followed by
      white space and `course`. */
  lemma CourseCaptureIsLongest(s: string)
    ensures var r := MatchPattern(BeforeCourse, s);
      && (r.Some? ==> CourseAfter(s, |r.value|) && forall m :: |r.value| < m <= ClassPrefix(s) ==> !CourseAfter(s, m))
      && (r.None? ==> forall m :: 0 < m <= ClassPrefix(s) ==> !CourseAfter(s, m))
  {
    CaptureCourseFromLongest(s, ClassPrefix(s));
  }

  /** The trimmed capture of the first pattern that matches. */
  function FirstMatch(patterns: seq<Pattern>, s: string): (r: Option<string>)
    ensures r.Some? ==> exists k :: 0 <= k <= |s| && r.value == Trim(s[..k])
    ensures r.None? ==> forall i :: 0 <= i < |patterns| ==> MatchPattern(patterns[i], s).None?
  {
    if patterns == [] then None
    else match MatchPattern(patterns[0], s)
      case Some(c) =>
        assert c == s[..|c|];
        Some(Trim(c))
      case None =>
        var r := FirstMatch(patterns[1..], s);
        assert forall i :: 1 <= i < |patterns| ==> patterns[i] == patterns[1..][i - 1];
        r
  }

  /** Pattern `i` wins: it matches and no earlier pattern does. */
  predicate WinsAt(patterns: seq<Pattern>, s: string, i: nat) {
    && i < |patterns| && MatchPattern(patterns[i], s).Some?
    && forall j :: 0 <= j < i ==> MatchPattern(patterns[j], s).None?
  }

  /** A result is the trimmed capture of the first pattern in list order that matches. */
  lemma {:induction false} FirstMatchIsFirst(patterns: seq<Pattern>, s: string)
    ensures var r := FirstMatch(patterns, s);
      r.Some? ==> exists i: nat :: WinsAt(patterns, s, i) && r.value == Trim(MatchPattern(patterns[i], s).value)
  {
    if patterns == [] {
    } else if MatchPattern(patterns[0], s).Some? {
      assert FirstMatch(patterns, s) == Some(Trim(MatchPattern(patterns[0], s).value));
      assert WinsAt(patterns, s, 0);
    } else {
      var tail := patterns[1..];
      assert FirstMatch(patterns, s) == FirstMatch(tail, s);
      FirstMatchIsFirst(tail, s);
      var r := FirstMatch(tail, s);
      if r.Some? {
        var k: nat :| WinsAt(tail, s, k) && r.value == Trim(MatchPattern(tail[k], s).value);
        assert patterns[k + 1] == tail[k];
        forall j | 0 <= j < k + 1 ensures MatchPattern(patterns[j], s).None? {
          if j > 0 {
            assert patterns[j] == tail[j - 1];
          }
        }
        assert WinsAt(patterns, s, k + 1);
      }
    }
  }

  /** The loop over the patterns: returns the trimmed capture of the first one that matches. */
  method MatchPatterns(patterns: seq<Pattern>, s: string) returns (r: Option<string>)
    ensures r == FirstMatch(patterns, s)
  {
    var i := 0;
    while i < |patterns|
      invariant 0 <= i <= |patterns|
      invariant FirstMatch(patterns, s) == FirstMatch(patterns[i..], s)
    {
      assert patterns[i..][1..] == patterns[i + 1..];
      var m := MatchPattern(patterns[i], s);
      if m.Some? {
        return Some(Trim(m.value));
      }
      i := i + 1;
    }
    return None;
  }

  /** A name whose trimmed text before the first `sep` is the instructor. */
  function Before(name: string, sep: string): (r: string)
    requires sep != []
    ensures exists k :: 0 <= k <= |name| && r == Trim(name[..k])
  {
    var head := SplitHead(name, sep);
    assert head == name[..|head|];
    Trim(head)
  }

  /** `name.split(sep)[1]?.trim()`. */
  function TrimmedSecond(name: string, sep: string): (r: Option<string>)
    requires sep != []
    ensures r.Some? <==> Contains(name, sep)
  {
    match SplitSecond(name, sep)
    case Some(t) => Some(Trim(t))
    case None => None
  }

  // ---------------------------------------------------------------- random picks

  const LevelWeights: seq<real> := [0.4, 0.4, 0.2]

  /** The weighted level: Beginner and Intermediate 40% each, Advanced 20%. */
  function WeightedLevel(draw: Unit): (level: string)
    ensures level in Levels
    ensures level == "Beginner" <==> draw <= 0.4
    ensures level == "Advanced" <==> draw > 0.8
  {
    if draw <= 0.4 then "Beginner" else if draw <= 0.8 then "Intermediate" else "Advanced"
  }

  /** The loop of `getRandomLevel`: adds up the weights until they reach the draw. */
  method PickLevel(draw: Unit) returns (level: string)
    ensures level == WeightedLevel(draw)
  {
    var sum := 0.0;
    var i := 0;
    while i < |LevelWeights|
      invariant 0 <= i <= |LevelWeights|
      invariant sum == [0.0, 0.4, 0.8, 1.0][i]
      invariant i > 0 ==> draw > sum
    {
      sum := sum + LevelWeights[i];
      if draw <= sum {
        return Levels[i];
      }
      i := i + 1;
    }
    assert false;
    level := "Beginner";
  }

  /** `options[Math.floor(draw * options.length)]`. */
  function Pick(options: seq<string>, draw: Unit): (r: string)
    requires options != []
    ensures r in options
  {
    var n := |options| as real;
    var k := (draw * n).Floor;
    assert 0.0 <= draw * n < n;
    options[k]
  }

  /** `Math.floor(draw * 10) + 5`. */
  function ExperienceYears(draw: Unit): (years: nat)
    ensures 5 <= years <= 14
  {
    assert 0.0 <= draw * 10.0 < 10.0;
    (draw * 10.0).Floor + 5
  }

  /** `${years}+ years`. */
  function Experience(draw: Unit): string {
    NatToDecimal(ExperienceYears(draw)) + "+ years"
  }

  /** `parseFloat(text) || fallback`: the fallback for an absent field, for a text that
      does not start with a number and for a zero price. */
  function PriceOr(raw: Option<string>, fallback: real): (price: real)
    ensures fallback != 0.0 ==> price != 0.0
    ensures raw.None? ==> price == fallback
    ensures raw.Some? && ParseFloat(raw.value).Some? && ParseFloat(raw.value).value != 0.0 ==>
      price == ParseFloat(raw.value).value
    ensures raw.Some? && (ParseFloat(raw.value).None? || ParseFloat(raw.value).value == 0.0) ==>
      price == fallback
  {
    if raw.None? then fallback
    else match ParseFloat(raw.value)
      case Some(v) => if v != 0.0 then v else fallback
      case None => fallback
  }

  /** A whole-number price is kept; zero falls back. */
  lemma PriceOfDecimal(n: nat, fallback: real)
    ensures n > 0 ==> PriceOr(Some(NatToDecimal(n)), fallback) == n as real
    ensures n == 0 ==> PriceOr(Some(NatToDecimal(n)), fallback) == fallback
  {
    var s := NatToDecimal(n);
    ParseFloatOfDecimal(n);
    assert ParseFloat(s) == Some(n as real);
    if n > 0 {
      assert ParseFloat(s).value != 0.0;
    } else {
      assert ParseFloat(s).value == 0.0;
    }
  }

  /** The durations a generated course picks from. */
  const Durations: seq<string> := ["2-4 hours", "1-2 weeks", "3-5 hours", "1 week", "2-3 weeks", "4-6 hours"]

  /** `durations[Math.floor(draw * durations.length)]`. */
  function RandomDuration(draw: Unit): (duration: string)
    ensures duration in Durations && duration != ""
  {
    Pick(Durations, draw)
  }

  /** The title of the record at `index` of its batch: the trimmed product name, or
      `Course {index + 1}`. */
  function RecordTitle(row: Row, index: nat): (t: string)
    ensures t != ""
    ensures row.productName.Some? && Trim(row.productName.value) != "" ==> t == Trim(row.productName.value)
  {
    var trimmed := if row.productName.Some? then Trim(row.productName.value) else "";
    if trimmed != "" then trimmed else "Course " + NatToDecimal(index + 1)
  }

  /** The first record of a batch, when it has no product name, is called `Course 1`. */
  lemma UntitledFirstTitle(row: Row)
    requires row.productName.None?
    ensures RecordTitle(row, 0) == "Course 1"
  {
    assert NatToDecimal(1) == "1";
  }

  /** A sample lesson with no resources. */
  function SampleLesson(title: string, description: string, videoUrl: string, duration: string, order: int): (l: Lesson)
    requires title != "" && videoUrl != ""
    ensures ValidLesson(l) && l.order == order && l.title == title
  {
    Lesson(title, Some(description), videoUrl, Some(duration), order, [])
  }

  /** The introduction lesson of the courses of the two CSV-style scripts, about `topic`. */
  function IntroLesson(topic: string): (l: Lesson)
    ensures ValidLesson(l) && l.order == 1 && l.title == "Introduction to " + topic
  {
    SampleLesson("Introduction to " + topic, "Course overview, objectives, and what you'll achieve", "https://example.com/video1", "15 mins", 1)
  }

  /** The lessons after the introduction in the courses of the two CSV-style scripts,
      ordered 2 to 4. */
  function LaterLessons(): (ls: seq<Lesson>)
    ensures |ls| == 3
    ensures forall i :: 0 <= i < 3 ==> ls[i].order == i + 2 && ValidLesson(ls[i])
  {
    [ SampleLesson("Fundamentals and Core Concepts", "Essential knowledge and foundational principles", "https://example.com/video2", "25 mins", 2),
      SampleLesson("Advanced Strategies and Techniques", "Professional-level methods and advanced approaches", "https://example.com/video3", "30 mins", 3),
      SampleLesson("Practical Implementation", "Hands-on exercises and real-world applications", "https://example.com/video4", "35 mins", 4) ]
  }

  /** The four lessons of a course of the two CSV-style scripts: a valid introduction to
      `topic` and the three later lessons, ordered 1 to 4. */
  function LessonsAbout(topic: string): (ls: seq<Lesson>)
    ensures |ls| == 4
    ensures forall i :: 0 <= i < 4 ==> ls[i].order == i + 1
    ensures forall l :: l in ls ==> ValidLesson(l)
    ensures ls[0].title == "Introduction to " + topic
  {
    var intro := IntroLesson(topic);
    var later := LaterLessons();
    var ls := [intro] + later;
    assert forall i :: 1 <= i < 4 ==> ls[i] == later[i - 1];
    assert forall l :: l in ls ==> l == intro || l in later;
    ls
  }

  // ---------------------------------------------------------------- batches

  const BatchSize: nat := 50

  /** The end of the batch starting at `start`: `slice(start, start + 50)`. */
  function BatchEnd(n: nat, start: nat): (end: nat)
    requires start < n
    ensures start < end <= n && end - start <= BatchSize
    ensures end < n ==> end == start + BatchSize
  {
    if start + BatchSize <= n then start + BatchSize else n
  }

  /** The batches of `xs` from `start` on. */
  function Batches<T>(xs: seq<T>, start: nat): (bs: seq<seq<T>>)
    requires start <= |xs|
    decreases |xs| - start
    ensures forall i :: 0 <= i < |bs| ==> 0 < |bs[i]| <= BatchSize
  {
    if start == |xs| then []
    else [xs[start..BatchEnd(|xs|, start)]] + Batches(xs, BatchEnd(|xs|, start))
  }

  function Flatten<T>(bs: seq<seq<T>>): seq<T> {
    if bs == [] then [] else bs[0] + Flatten(bs[1..])
  }

  /** Batches of 50 partition the input: put back together they are the input, in order,
      and all but the last are full. */
  lemma {:induction false} BatchesPartition<T>(xs: seq<T>, start: nat)
    requires start <= |xs|
    decreases |xs| - start
    ensures Flatten(Batches(xs, start)) == xs[start..]
    ensures forall i :: 0 <= i < |Batches(xs, start)| - 1 ==> |Batches(xs, start)[i]| == BatchSize
  {
    if start < |xs| {
      var end := BatchEnd(|xs|, start);
      BatchesPartition(xs, end);
      var bs := Batches(xs, start);
      assert bs[1..] == Batches(xs, end);
      assert xs[start..end] + xs[end..] == xs[start..];
      forall i | 0 <= i < |bs| - 1 ensures |bs[i]| == BatchSize {
        if i > 0 {
          assert bs[i] == Batches(xs, end)[i - 1];
        }
      }
    }
  }
}
