/** Worked inputs of the pipeline, from the parsed file to the chart rows. The two pandas
    parsers stay parameters; each lemma names only the answers it needs from them. */
module Scenarios {
  import opened Wrappers
  import opened Calendar
  import opened Text
  import opened Cleaning
  import opened Aggregation

  const MONDAY_MARCH_4: Timestamp := Timestamp(2024, 3, 4, 0, 0, 0)

  /** An export header with padded names, in an order of its own. */
  const HEADER: seq<string> :=
    ["Platform", " Media Type", "Likes/Reactions ", "Comments", "Shares/Retweets", "Post Timestamp"]

  const COLS: seq<string> := ["platform", "post_type", "likes", "comments", "shares", "date"]

  /** Where the example header holds each field; it has no `Post Text` column. */
  const IX: Columns := Columns(2, 3, 4, 5, 0, 1, None)

  /** Two complete rows, a row whose likes are not a number, and a row without a platform
      whose date text is not a date. */
  const ROWS: seq<seq<Cell>> := [
    [Some("X"), Some("video"), Some("10"), Some("2"), Some("1"), Some("2024-03-04")],
    [Some("Y"), Some("video"), Some("20"), Some("3"), Some("2"), Some("2024-03-04")],
    [Some("X"), Some("image"), Some("abc"), Some("2"), Some("1"), Some("2024-03-04")],
    [None, Some("image"), Some("10"), Some("2"), Some("1"), Some("not-a-date")]
  ]

  /** A complete row whose date text is not a date. */
  const BAD_DATE_ROW: seq<Cell> :=
    [Some("Y"), Some("image"), Some("1"), Some("1"), Some("1"), Some("not-a-date")]

  const RECORDS: seq<Record> := [
    Record(Some(10), Some(2), Some(1), Some("2024-03-04"), Some("X"), Some("video"), None),
    Record(Some(20), Some(3), Some(2), Some("2024-03-04"), Some("Y"), Some("video"), None),
    Record(None, Some(2), Some(1), Some("2024-03-04"), Some("X"), Some("image"), None),
    Record(Some(10), Some(2), Some(1), Some("not-a-date"), None, Some("image"), None)
  ]

  const POSTS: seq<Post> := [
    Post("X", "video", None, 10, 2, 1, MONDAY_MARCH_4, Monday),
    Post("Y", "video", None, 20, 3, 2, MONDAY_MARCH_4, Monday)
  ]

  lemma StripLeadingSpace()
    ensures NormalizeHeader(" Media Type") == "post_type"
  {
    assert " Media Type" == " " + "Media Type" + [];
    TrimPadded(" ", "Media Type", []);
  }

  lemma StripTrailingSpace()
    ensures NormalizeHeader("Likes/Reactions ") == "likes"
  {
    assert "Likes/Reactions " == [] + "Likes/Reactions" + " ";
    TrimPadded([], "Likes/Reactions", " ");
  }

  lemma RenamePlatform() ensures NormalizeHeader("Platform") == "platform" { TrimOfTrimmed("Platform"); }
  lemma RenameComments() ensures NormalizeHeader("Comments") == "comments" { TrimOfTrimmed("Comments"); }
  lemma RenameShares() ensures NormalizeHeader("Shares/Retweets") == "shares" { TrimOfTrimmed("Shares/Retweets"); }
  lemma RenameDate() ensures NormalizeHeader("Post Timestamp") == "date" { TrimOfTrimmed("Post Timestamp"); }

  /** Each column of a header is its own header name, normalised. */
  lemma NormalizedAt(header: seq<string>, i: nat)
    requires i < |header|
    ensures |NormalizedColumns(header)| == |header|
    ensures NormalizedColumns(header)[i] == NormalizeHeader(header[i])
  {
  }

  lemma HeaderAt0() ensures NormalizedColumns(HEADER)[0] == "platform"
  {
    assert HEADER[0] == "Platform";
    NormalizedAt(HEADER, 0);
    RenamePlatform();
  }

  lemma HeaderAt1() ensures NormalizedColumns(HEADER)[1] == "post_type"
  {
    assert HEADER[1] == " Media Type";
    NormalizedAt(HEADER, 1);
    StripLeadingSpace();
  }

  lemma HeaderAt2() ensures NormalizedColumns(HEADER)[2] == "likes"
  {
    assert HEADER[2] == "Likes/Reactions ";
    NormalizedAt(HEADER, 2);
    StripTrailingSpace();
  }

  lemma HeaderAt3() ensures NormalizedColumns(HEADER)[3] == "comments"
  {
    assert HEADER[3] == "Comments";
    NormalizedAt(HEADER, 3);
    RenameComments();
  }

  lemma HeaderAt4() ensures NormalizedColumns(HEADER)[4] == "shares"
  {
    assert HEADER[4] == "Shares/Retweets";
    NormalizedAt(HEADER, 4);
    RenameShares();
  }

  lemma HeaderAt5() ensures NormalizedColumns(HEADER)[5] == "date"
  {
    assert HEADER[5] == "Post Timestamp";
    NormalizedAt(HEADER, 5);
    RenameDate();
  }

  /** Padded and unpadded export headers all reach their canonical names. */
  lemma HeaderExample()
    ensures NormalizedColumns(HEADER) == ["platform", "post_type", "likes", "comments", "shares", "date"]
  {
    NormalizedAt(HEADER, 0);
    HeaderAt0();
    HeaderAt1();
    HeaderAt2();
    HeaderAt3();
    HeaderAt4();
    HeaderAt5();
    SixEqual(NormalizedColumns(HEADER), ["platform", "post_type", "likes", "comments", "shares", "date"]);
  }

  /** Two six-element sequences that agree at every position are equal. */
  lemma SixEqual<T>(a: seq<T>, b: seq<T>)
    requires |a| == 6 && |b| == 6
    requires a[0] == b[0] && a[1] == b[1] && a[2] == b[2] && a[3] == b[3] && a[4] == b[4] && a[5] == b[5]
    ensures a == b
  {
    forall j | 0 <= j < 6 ensures a[j] == b[j] {
      if j == 0 { } else if j == 1 { } else if j == 2 { } else if j == 3 { } else if j == 4 { } else { }
    }
  }

  lemma ExampleColumnsPresent()
    ensures MissingOf(METRIC_COLUMNS, COLS) == [] && MissingOf(REQUIRED_COLUMNS, COLS) == []
  {
    assert COLS[2] == "likes";
  }

  lemma LocatePlatform() ensures IndexOf(COLS, "platform") == Some(0) { }

  lemma LocatePostType() ensures IndexOf(COLS, "post_type") == Some(1)
  {
    assert COLS[..1] == ["platform"];
    IndexOfFirst(COLS, "post_type", 1);
  }

  lemma LocateLikes() ensures IndexOf(COLS, "likes") == Some(2)
  {
    assert COLS[..2] == ["platform", "post_type"];
    IndexOfFirst(COLS, "likes", 2);
  }

  lemma LocateComments() ensures IndexOf(COLS, "comments") == Some(3)
  {
    assert COLS[..3] == ["platform", "post_type", "likes"];
    IndexOfFirst(COLS, "comments", 3);
  }

  lemma LocateShares() ensures IndexOf(COLS, "shares") == Some(4)
  {
    assert COLS[..4] == ["platform", "post_type", "likes", "comments"];
    IndexOfFirst(COLS, "shares", 4);
  }

  lemma LocateDate() ensures IndexOf(COLS, "date") == Some(5)
  {
    assert COLS[..5] == ["platform", "post_type", "likes", "comments", "shares"];
    IndexOfFirst(COLS, "date", 5);
  }

  lemma LocatePostText() ensures IndexOf(COLS, "post_text") == None
  {
    assert "post_text" !in COLS;
  }

  /** Every field is found at its column; the missing `post_text` column is no error. */
  lemma ResolveExample()
    ensures ResolveColumns(COLS) == Success(IX)
  {
    ExampleColumnsPresent();
    LocatePlatform();
    LocatePostType();
    LocateLikes();
    LocateComments();
    LocateShares();
    LocateDate();
    LocatePostText();
  }

  predicate ExampleNumbers(toNumeric: string -> Option<int>)
  {
    toNumeric("10") == Some(10) && toNumeric("2") == Some(2) && toNumeric("1") == Some(1) &&
    toNumeric("20") == Some(20) && toNumeric("3") == Some(3) && toNumeric("abc") == None
  }

  lemma RecordAt(toNumeric: string -> Option<int>, i: nat)
    requires ExampleNumbers(toNumeric) && i < 4
    ensures ToRecord(IX, ROWS[i], toNumeric) == RECORDS[i]
  {
  }

  lemma RecordsExample(toNumeric: string -> Option<int>)
    requires ExampleNumbers(toNumeric)
    ensures Records(IX, ROWS, toNumeric) == RECORDS
  {
    var recs := Records(IX, ROWS, toNumeric);
    forall i | 0 <= i < 4 ensures recs[i] == RECORDS[i] {
      RecordAt(toNumeric, i);
    }
  }

  /** The filter keeps the two complete rows and drops the one with non-numeric likes and
      the one without a platform. */
  lemma DropExample()
    ensures DropIncomplete(RECORDS) == RECORDS[..2]
  {
    var r0, r1, r2, r3 := RECORDS[0], RECORDS[1], RECORDS[2], RECORDS[3];
    assert RECORDS == [] + [r0] + [r1] + [r2] + [r3];
    DropIncompleteAppend([], r0);
    DropIncompleteAppend([r0], r1);
    assert [r0] + [r1] == [] + [r0] + [r1];
    DropIncompleteAppend([r0, r1], r2);
    assert [r0, r1] + [r2] == [] + [r0] + [r1] + [r2];
    DropIncompleteAppend([r0, r1, r2], r3);
  }

  lemma DatesExample(toDatetime: string -> Option<Timestamp>)
    requires toDatetime("2024-03-04") == Some(MONDAY_MARCH_4)
    ensures ParseDates(RECORDS[..2], toDatetime) == Some(POSTS)
  {
    MondayExamples();
    var ks := RECORDS[..2];
    assert ks == [RECORDS[0], RECORDS[1]];
    assert Complete(ks[0]) && DateText(ks[0]) == "2024-03-04";
    assert Complete(ks[1]) && DateText(ks[1]) == "2024-03-04";
    var r := ParseDates(ks, toDatetime);
    assert r.Some? && |r.value| == 2;
    assert r.value[0] == ToPost(ks[0], MONDAY_MARCH_4) == POSTS[0];
    assert r.value[1] == ToPost(ks[1], MONDAY_MARCH_4) == POSTS[1];
    assert r.value == POSTS;
  }

  /** Composes the stages of the load for any file. */
  lemma CleanOfStages(file: RawTable, toNumeric: string -> Option<int>,
                      toDatetime: string -> Option<Timestamp>, ix: Columns, posts: seq<Post>)
    requires ResolveColumns(NormalizedColumns(file.header)) == Success(ix)
    requires ParseDates(DropIncomplete(Records(ix, file.rows, toNumeric)), toDatetime) == Some(posts)
    ensures Clean(file, toNumeric, toDatetime) == Success(Cleaned(WithDay(NormalizedColumns(file.header)), posts))
  {
  }

  /** The first four stages of the load on the example file. */
  lemma StagesExample(toNumeric: string -> Option<int>, toDatetime: string -> Option<Timestamp>)
    requires ExampleNumbers(toNumeric)
    requires toDatetime("2024-03-04") == Some(MONDAY_MARCH_4)
    ensures ResolveColumns(NormalizedColumns(HEADER)) == Success(IX)
    ensures ParseDates(DropIncomplete(Records(IX, ROWS, toNumeric)), toDatetime) == Some(POSTS)
  {
    HeaderExample();
    ResolveExample();
    RecordsExample(toNumeric);
    DropExample();
    DatesExample(toDatetime);
  }

  lemma CleanExampleRows(toNumeric: string -> Option<int>, toDatetime: string -> Option<Timestamp>)
    requires ExampleNumbers(toNumeric)
    requires toDatetime("2024-03-04") == Some(MONDAY_MARCH_4)
    ensures Clean(RawTable(HEADER, ROWS), toNumeric, toDatetime) == Success(Cleaned(WithDay(NormalizedColumns(HEADER)), POSTS))
  {
    StagesExample(toNumeric, toDatetime);
    CleanOfStages(RawTable(HEADER, ROWS), toNumeric, toDatetime, IX, POSTS);
  }

  lemma WithDayExample()
    ensures WithDay(NormalizedColumns(HEADER)) == COLS + ["day"]
  {
    HeaderExample();
    assert "day" !in COLS;
  }

  /** From the parsed file to the cleaned posts: the row with likes "abc" and the row
      without a platform are dropped, and the latter's bad date does not fail the load. */
  lemma CleanExample(toNumeric: string -> Option<int>, toDatetime: string -> Option<Timestamp>)
    requires ExampleNumbers(toNumeric)
    requires toDatetime("2024-03-04") == Some(MONDAY_MARCH_4)
    ensures Clean(RawTable(HEADER, ROWS), toNumeric, toDatetime) == Success(Cleaned(COLS + ["day"], POSTS))
  {
    CleanExampleRows(toNumeric, toDatetime);
    WithDayExample();
  }

  lemma GroupByPostTypeExample()
    ensures GroupBySum(POSTS, PostType) == [Group(TextKey("video"), Metrics(30, 5, 3))]
  {
    var p1 := POSTS[1];
    assert POSTS[1..] == [p1] && [p1][1..] == [];
    assert GroupBySum([p1], PostType) == [Group(TextKey("video"), Metrics(20, 3, 2))];
  }

  lemma GroupByDateExample()
    ensures GroupBySum(POSTS, Date) == [Group(TimeKey(MONDAY_MARCH_4), Metrics(30, 5, 3))]
  {
    var p1 := POSTS[1];
    assert POSTS[1..] == [p1] && [p1][1..] == [];
    assert GroupBySum([p1], Date) == [Group(TimeKey(MONDAY_MARCH_4), Metrics(20, 3, 2))];
  }

  lemma GroupByPlatformExample()
    ensures GroupBySum(POSTS, Platform) == [Group(TextKey("X"), Metrics(10, 2, 1)),
                                            Group(TextKey("Y"), Metrics(20, 3, 2))]
  {
    var p1 := POSTS[1];
    assert POSTS[1..] == [p1] && [p1][1..] == [];
    assert GroupBySum([p1], Platform) == [Group(TextKey("Y"), Metrics(20, 3, 2))];
    assert KeyLess(TextKey("X"), TextKey("Y"));
  }

  /** Chart 1 shows one `video` group with 30 likes, 5 comments and 3 shares; chart 4 shows
      platforms X and Y separately, X first; chart 2 has the one date. */
  lemma ChartsExample()
    ensures CreateVisualizations(POSTS).byPostType ==
              [MeltRow(TextKey("video"), Likes, 30), MeltRow(TextKey("video"), Comments, 5),
               MeltRow(TextKey("video"), Shares, 3)]
    ensures CreateVisualizations(POSTS).byPlatform ==
              [MeltRow(TextKey("X"), Likes, 10), MeltRow(TextKey("Y"), Likes, 20),
               MeltRow(TextKey("X"), Comments, 2), MeltRow(TextKey("Y"), Comments, 3),
               MeltRow(TextKey("X"), Shares, 1), MeltRow(TextKey("Y"), Shares, 2)]
    ensures CreateVisualizations(POSTS).daily ==
              [MeltRow(TimeKey(MONDAY_MARCH_4), Likes, 30), MeltRow(TimeKey(MONDAY_MARCH_4), Comments, 5),
               MeltRow(TimeKey(MONDAY_MARCH_4), Shares, 3)]
  {
    GroupByPostTypeExample();
    GroupByDateExample();
    GroupByPlatformExample();
  }

  lemma BadRowRecord(toNumeric: string -> Option<int>)
    requires ExampleNumbers(toNumeric)
    ensures ToRecord(IX, BAD_DATE_ROW, toNumeric) ==
            Record(Some(1), Some(1), Some(1), Some("not-a-date"), Some("Y"), Some("image"), None)
  {
  }

  /** Any file whose columns resolve and one of whose rows has a bad date fails to load. */
  lemma CleanFailsAt(file: RawTable, toNumeric: string -> Option<int>,
                     toDatetime: string -> Option<Timestamp>, ix: Columns, i: nat)
    requires ResolveColumns(NormalizedColumns(file.header)) == Success(ix)
    requires i < |file.rows| && DateFails(ix, file.rows[i], toNumeric, toDatetime)
    ensures Clean(file, toNumeric, toDatetime) == Failure(UnparseableDate)
  {
    CleanFailsOnBadDate(file, toNumeric, toDatetime);
  }

  lemma BadRowFails(toNumeric: string -> Option<int>, toDatetime: string -> Option<Timestamp>)
    requires ExampleNumbers(toNumeric) && toDatetime("not-a-date") == None
    ensures DateFails(IX, BAD_DATE_ROW, toNumeric, toDatetime)
  {
    BadRowRecord(toNumeric);
  }

  /** The example rows followed by the row with a bad date. */
  const BAD_ROWS: seq<seq<Cell>> := ROWS + [BAD_DATE_ROW]

  lemma BadRowIsFifth(toNumeric: string -> Option<int>, toDatetime: string -> Option<Timestamp>)
    requires ExampleNumbers(toNumeric) && toDatetime("not-a-date") == None
    ensures 4 < |BAD_ROWS| && DateFails(IX, BAD_ROWS[4], toNumeric, toDatetime)
  {
    BadRowFails(toNumeric, toDatetime);
    assert BAD_ROWS[4] == BAD_DATE_ROW;
  }

  lemma ExampleResolves()
    ensures ResolveColumns(NormalizedColumns(HEADER)) == Success(IX)
  {
    HeaderExample();
    ResolveExample();
  }

  /** A complete row whose date is not a date fails the whole load instead of being dropped. */
  lemma BadDateFailsLoad(toNumeric: string -> Option<int>, toDatetime: string -> Option<Timestamp>)
    requires ExampleNumbers(toNumeric) && toDatetime("not-a-date") == None
    ensures Clean(RawTable(HEADER, BAD_ROWS), toNumeric, toDatetime) == Failure(UnparseableDate)
  {
    BadRowIsFifth(toNumeric, toDatetime);
    ExampleResolves();
    CleanFailsAt(RawTable(HEADER, BAD_ROWS), toNumeric, toDatetime, IX, 4);
  }
}
