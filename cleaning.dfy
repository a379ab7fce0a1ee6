/** load_and_clean_data: from the parsed CSV table to the cleaned posts.
    The two pandas parsers the function relies on are parameters: `toNumeric` stands for
    `pd.to_numeric` on one cell (None where coercion yields NaN) and `toDatetime` for
    `pd.to_datetime` on one cell (None where it would raise). */
module Cleaning {
  import opened Wrappers
  import opened Calendar
  import opened Text

  /** A cell as the CSV reader delivers it: its text, or None for an empty (NA) field. */
  type Cell = Option<string>

  /** The uploaded file after CSV parsing: the header row and the data rows. A row shorter
      than the header reads as NA in the columns it lacks. */
  datatype RawTable = RawTable(header: seq<string>, rows: seq<seq<Cell>>)

  /** The ways the function raises instead of returning a table. */
  datatype LoadError =
    | MissingColumns(names: seq<string>)  // KeyError: selected columns that do not exist
    | UnparseableDate                     // pd.to_datetime met a date it cannot read

  /** The rename table applied after stripping the header names. */
  const RENAMES: map<string, string> := map[
    "Likes/Reactions" := "likes",
    "Comments" := "comments",
    "Shares/Retweets" := "shares",
    "Post Timestamp" := "date",
    "Platform" := "platform",
    "Post Text" := "post_text",
    "Media Type" := "post_type"
  ]

  /** The columns coerced to numbers, in the order they are selected. */
  const METRIC_COLUMNS: seq<string> := ["likes", "comments", "shares"]

  /** The `subset` of the dropna call, in its order. */
  const REQUIRED_COLUMNS: seq<string> :=
    ["likes", "comments", "shares", "date", "platform", "post_type"]

  /** `DataFrame.rename(columns=RENAMES)` on one column name. */
  function Rename(h: string): (r: string)
    ensures r == h || (h in RENAMES && r in CANONICAL)
  {
    RenameOntoCanonical();
    if h in RENAMES then RENAMES[h] else h
  }

  /** The name a raw header ends up with: stripped, then renamed. */
  function NormalizeHeader(h: string): (r: string)
    ensures r == Trim(h) || r in CANONICAL
  {
    Rename(Trim(h))
  }

  function NormalizedColumns(header: seq<string>): (cols: seq<string>)
    ensures |cols| == |header|
    ensures forall k :: 0 <= k < |header| ==> cols[k] == Trim(header[k]) || cols[k] in CANONICAL
  {
    seq(|header|, k requires 0 <= k < |header| => NormalizeHeader(header[k]))
  }

  /** The canonical field names the rename table produces. */
  const CANONICAL: set<string> :=
    {"likes", "comments", "shares", "date", "platform", "post_text", "post_type"}

  /** Exactly the seven listed names are renamed, to seven distinct canonical field names;
      every other name is left as it is. */
  lemma RenameTable()
    ensures |RENAMES.Keys| == 7 && RENAMES.Values == CANONICAL && |RENAMES.Values| == 7
    ensures forall h :: Rename(h) != h <==> h in RENAMES
  {
    RenameMovesEveryListedName();
    RenameValues();
  }

  lemma RenameMovesEveryListedName()
    ensures forall h :: h in RENAMES ==> RENAMES[h] != h
  {
  }

  lemma RenameValues()
    ensures |RENAMES.Keys| == 7 && RENAMES.Values == CANONICAL && |RENAMES.Values| == 7
  {
    RenameKeys();
    RenameOntoCanonical();
  }

  lemma RenameKeys()
    ensures RENAMES.Keys == {"Likes/Reactions", "Comments", "Shares/Retweets", "Post Timestamp",
                             "Platform", "Post Text", "Media Type"}
    ensures |RENAMES.Keys| == 7
  {
  }

  lemma RenameLookups()
    ensures RENAMES["Likes/Reactions"] == "likes" && RENAMES["Comments"] == "comments"
    ensures RENAMES["Shares/Retweets"] == "shares" && RENAMES["Post Timestamp"] == "date"
    ensures RENAMES["Platform"] == "platform" && RENAMES["Post Text"] == "post_text"
    ensures RENAMES["Media Type"] == "post_type"
  {
  }

  lemma CanonicalSize()
    ensures |CANONICAL| == 7
  {
  }

  lemma RenameOntoCanonical()
    ensures RENAMES.Values == CANONICAL && |CANONICAL| == 7
  {
    RenameKeys();
    RenameLookups();
    CanonicalSize();
    forall v | v in RENAMES.Values
      ensures v in CANONICAL
    {
      var h :| h in RENAMES && RENAMES[h] == v;
    }
    forall v | v in CANONICAL
      ensures v in RENAMES.Values
    {
      if v == "likes" { assert RENAMES["Likes/Reactions"] == v; }
      else if v == "comments" { assert RENAMES["Comments"] == v; }
      else if v == "shares" { assert RENAMES["Shares/Retweets"] == v; }
      else if v == "date" { assert RENAMES["Post Timestamp"] == v; }
      else if v == "platform" { assert RENAMES["Platform"] == v; }
      else if v == "post_text" { assert RENAMES["Post Text"] == v; }
      else { assert RENAMES["Media Type"] == v; }
    }
  }

  /** After normalisation each column keeps its position; its name is the stripped original
      unless the stripped original is one of the seven listed headers, which become their
      canonical names. No column is added or lost. */
  lemma HeaderNormalization(header: seq<string>)
    ensures |NormalizedColumns(header)| == |header|
    ensures forall k :: 0 <= k < |header| && Trim(header[k]) !in RENAMES ==>
              NormalizedColumns(header)[k] == Trim(header[k])
    ensures forall k :: 0 <= k < |header| && Trim(header[k]) in RENAMES ==>
              NormalizedColumns(header)[k] == RENAMES[Trim(header[k])] &&
              NormalizedColumns(header)[k] != Trim(header[k])
  {
    RenameTable();
  }

  /** The position of the first column called `name`, if any. */
  function IndexOf(cols: seq<string>, name: string): (r: Option<nat>)
    ensures r.None? <==> name !in cols
    ensures r.Some? ==> r.value < |cols| && cols[r.value] == name && name !in cols[..r.value]
  {
    if cols == [] then None
    else if cols[0] == name then Some(0)
    else match IndexOf(cols[1..], name)
      case None => None
      case Some(i) =>
        assert cols[..i + 1] == [cols[0]] + cols[1..][..i];
        Some(i + 1)
  }

  /** The names of `names` that are not columns, in the order of `names`. */
  function MissingOf(names: seq<string>, cols: seq<string>): (r: seq<string>)
    ensures forall n :: n in r <==> n in names && n !in cols
    ensures r == [] <==> forall n :: n in names ==> n in cols
    ensures |r| <= |names|
  {
    if names == [] then []
    else (if names[0] in cols then [] else [names[0]]) + MissingOf(names[1..], cols)
  }

  /** Where the fields of a post are read from: the first column of each canonical name.
      `post_text` is never selected, so its absence is no error. */
  datatype Columns = Columns(likes: nat, comments: nat, shares: nat, date: nat,
                             platform: nat, postType: nat, postText: Option<nat>)

  predicate LocatesFields(ix: Columns, cols: seq<string>)
  {
    IndexOf(cols, "likes") == Some(ix.likes) &&
    IndexOf(cols, "comments") == Some(ix.comments) &&
    IndexOf(cols, "shares") == Some(ix.shares) &&
    IndexOf(cols, "date") == Some(ix.date) &&
    IndexOf(cols, "platform") == Some(ix.platform) &&
    IndexOf(cols, "post_type") == Some(ix.postType) &&
    IndexOf(cols, "post_text") == ix.postText
  }

  /** Column selection: selecting the metric columns raises KeyError when one of them is
      missing; otherwise the dropna subset raises KeyError when one of its columns is missing. */
  function ResolveColumns(cols: seq<string>): (r: Result<Columns, LoadError>)
    ensures r.Success? <==> forall n :: n in REQUIRED_COLUMNS ==> n in cols
    ensures r.Success? ==> LocatesFields(r.value, cols)
    ensures r.Failure? ==>
              (r.error.MissingColumns? && r.error.names != [] &&
               forall n :: n in r.error.names ==> n in REQUIRED_COLUMNS && n !in cols)
  {
    var missing := MissingOf(METRIC_COLUMNS, cols);
    if missing != [] then
      Failure(MissingColumns(missing))
    else
      var missing' := MissingOf(REQUIRED_COLUMNS, cols);
      if missing' != [] then
        Failure(MissingColumns(missing'))
      else
        Success(Locate(cols))
  }

  /** The first column of each field, once every required field has a column. */
  function Locate(cols: seq<string>): (ix: Columns)
    requires forall n :: n in REQUIRED_COLUMNS ==> n in cols
    ensures LocatesFields(ix, cols)
  {
    assert "likes" in cols && "comments" in cols && "shares" in cols;
    assert "date" in cols && "platform" in cols && "post_type" in cols;
    Columns(IndexOf(cols, "likes").value, IndexOf(cols, "comments").value,
            IndexOf(cols, "shares").value, IndexOf(cols, "date").value,
            IndexOf(cols, "platform").value, IndexOf(cols, "post_type").value,
            IndexOf(cols, "post_text"))
  }

  /** The KeyError names the missing metric columns when there are any (the metric
      selection comes first), and otherwise the missing columns of the dropna subset; both
      lists keep the order of the code's lists. */
  lemma ResolveColumnsReports(cols: seq<string>)
    ensures (exists n :: n in METRIC_COLUMNS && n !in cols) ==>
              ResolveColumns(cols) == Failure(MissingColumns(MissingOf(METRIC_COLUMNS, cols)))
    ensures (forall n :: n in METRIC_COLUMNS ==> n in cols) && ResolveColumns(cols).Failure? ==>
              ResolveColumns(cols) == Failure(MissingColumns(MissingOf(REQUIRED_COLUMNS, cols)))
  {
    if n :| n in METRIC_COLUMNS && n !in cols {
      assert n in MissingOf(METRIC_COLUMNS, cols);
    }
  }

  /** A row after the metric columns were coerced, still with missing values. */
  datatype Record = Record(likes: Option<int>, comments: Option<int>, shares: Option<int>,
                           date: Cell, platform: Cell, postType: Cell, postText: Cell)

  function CellAt(row: seq<Cell>, j: nat): Cell
  {
    if j < |row| then row[j] else None
  }

  /** `pd.to_numeric(errors='coerce')` on one cell: NA stays NA, a failure becomes NA. */
  function Coerce(c: Cell, toNumeric: string -> Option<int>): (r: Option<int>)
    ensures c.None? ==> r.None?
    ensures c.Some? ==> r == toNumeric(c.value)
  {
    match c
    case None => None
    case Some(s) => toNumeric(s)
  }

  function ToRecord(ix: Columns, row: seq<Cell>, toNumeric: string -> Option<int>): (r: Record)
    ensures r.likes.Some? ==> ix.likes < |row| && row[ix.likes].Some?
    ensures r.comments.Some? ==> ix.comments < |row| && row[ix.comments].Some?
    ensures r.shares.Some? ==> ix.shares < |row| && row[ix.shares].Some?
    ensures ix.likes < |row| && row[ix.likes].Some? ==> r.likes == toNumeric(row[ix.likes].value)
    ensures ix.comments < |row| && row[ix.comments].Some? ==> r.comments == toNumeric(row[ix.comments].value)
    ensures ix.shares < |row| && row[ix.shares].Some? ==> r.shares == toNumeric(row[ix.shares].value)
    ensures r.date == CellAt(row, ix.date) && r.platform == CellAt(row, ix.platform)
    ensures r.postType == CellAt(row, ix.postType)
    ensures r.postText == if ix.postText.Some? then CellAt(row, ix.postText.value) else None
  {
    Record(Coerce(CellAt(row, ix.likes), toNumeric),
           Coerce(CellAt(row, ix.comments), toNumeric),
           Coerce(CellAt(row, ix.shares), toNumeric),
           CellAt(row, ix.date), CellAt(row, ix.platform), CellAt(row, ix.postType),
           match ix.postText case None => None case Some(j) => CellAt(row, j))
  }

  /** The rows after coercion, one record per row, in order. */
  function Records(ix: Columns, rows: seq<seq<Cell>>, toNumeric: string -> Option<int>): (recs: seq<Record>)
    ensures |recs| == |rows|
    ensures forall i :: 0 <= i < |rows| ==> recs[i] == ToRecord(ix, rows[i], toNumeric)
  {
    if rows == [] then []
    else Records(ix, rows[..|rows| - 1], toNumeric) + [ToRecord(ix, rows[|rows| - 1], toNumeric)]
  }

  /** The dropna test: all six required fields are present; `post_text` does not matter. */
  predicate Complete(r: Record)
  {
    r.likes.Some? && r.comments.Some? && r.shares.Some? &&
    r.date.Some? && r.platform.Some? && r.postType.Some?
  }

  /** `dropna(subset=REQUIRED_COLUMNS)`: the complete records, in order. */
  function DropIncomplete(recs: seq<Record>): (kept: seq<Record>)
    ensures |kept| <= |recs|
    ensures forall k :: 0 <= k < |kept| ==> Complete(kept[k])
  {
    if recs == [] then []
    else
      var last := recs[|recs| - 1];
      DropIncomplete(recs[..|recs| - 1]) + (if Complete(last) then [last] else [])
  }

  /** The positions of the records the filter keeps. */
  function KeptIndices(recs: seq<Record>): (idx: seq<nat>)
    ensures forall k :: 0 <= k < |idx| ==> idx[k] < |recs|
  {
    if recs == [] then []
    else
      var n := |recs| - 1;
      KeptIndices(recs[..n]) + (if Complete(recs[n]) then [n] else [])
  }

  lemma {:induction false} KeptIndicesAlign(recs: seq<Record>)
    ensures |KeptIndices(recs)| == |DropIncomplete(recs)|
    ensures forall k :: 0 <= k < |KeptIndices(recs)| ==> DropIncomplete(recs)[k] == recs[KeptIndices(recs)[k]]
  {
    if recs != [] {
      var n := |recs| - 1;
      var front := recs[..n];
      KeptIndicesAlign(front);
      var idx, kept := KeptIndices(front), DropIncomplete(front);
      assert forall k :: 0 <= k < |idx| ==> kept[k] == front[idx[k]] == recs[idx[k]];
    }
  }

  lemma {:induction false} KeptIndicesIncreasing(recs: seq<Record>)
    ensures forall k, l :: 0 <= k < l < |KeptIndices(recs)| ==> KeptIndices(recs)[k] < KeptIndices(recs)[l]
  {
    if recs != [] {
      KeptIndicesIncreasing(recs[..|recs| - 1]);
    }
  }

  lemma {:induction false} KeptIndicesExact(recs: seq<Record>)
    ensures forall i :: 0 <= i < |recs| ==> (i in KeptIndices(recs) <==> Complete(recs[i]))
  {
    if recs != [] {
      var n := |recs| - 1;
      var front := recs[..n];
      KeptIndicesExact(front);
      var idx := KeptIndices(front);
      assert forall i :: 0 <= i < n ==> front[i] == recs[i];
      assert n !in idx;
    }
  }

  /** The positions of the records the filter keeps: it keeps exactly the complete ones,
      each once, in their original order. */
  lemma KeptIndicesCorrect(recs: seq<Record>)
    ensures |KeptIndices(recs)| == |DropIncomplete(recs)|
    ensures forall k :: 0 <= k < |KeptIndices(recs)| ==>
              KeptIndices(recs)[k] < |recs| && DropIncomplete(recs)[k] == recs[KeptIndices(recs)[k]]
    ensures forall k, l :: 0 <= k < l < |KeptIndices(recs)| ==> KeptIndices(recs)[k] < KeptIndices(recs)[l]
    ensures forall i :: 0 <= i < |recs| ==> (i in KeptIndices(recs) <==> Complete(recs[i]))
  {
    KeptIndicesAlign(recs);
    KeptIndicesIncreasing(recs);
    KeptIndicesExact(recs);
  }

  /** The text of a complete record's date cell. */
  function DateText(r: Record): string
    requires Complete(r)
  {
    r.date.value
  }

  /** A cleaned post: the fields the charts read, with the parsed date and its weekday. */
  datatype Post = Post(platform: string, postType: string, postText: Cell,
                       likes: int, comments: int, shares: int, date: Timestamp, day: Day)

  /** `pd.to_datetime` and `dt.day_name()` on one row: the parsed date replaces the text, and
      `day` is its weekday. */
  function ToPost(r: Record, t: Timestamp): (p: Post)
    requires Complete(r)
    ensures p.date == t && p.day == Weekday(t) && Name(p.day) in DAY_ORDER
    ensures p.platform == r.platform.value && p.postType == r.postType.value
    ensures p.likes == r.likes.value && p.comments == r.comments.value && p.shares == r.shares.value
    ensures p.postText == r.postText
  {
    Post(r.platform.value, r.postType.value, r.postText,
         r.likes.value, r.comments.value, r.shares.value, t, Weekday(t))
  }

  /** `pd.to_datetime` on the filtered date column (no `errors='coerce'`): either every date
      parses and each row becomes a post, or the whole conversion fails. */
  function ParseDates(kept: seq<Record>, toDatetime: string -> Option<Timestamp>): (r: Option<seq<Post>>)
    requires forall k :: 0 <= k < |kept| ==> Complete(kept[k])
    ensures r.Some? <==> forall k :: 0 <= k < |kept| ==> toDatetime(DateText(kept[k])).Some?
    ensures r.Some? ==>
              (|r.value| == |kept| &&
               forall k :: 0 <= k < |kept| ==> r.value[k] == ToPost(kept[k], toDatetime(DateText(kept[k])).value))
  {
    if kept == [] then Some([])
    else
      var n := |kept| - 1;
      match ParseDates(kept[..n], toDatetime)
      case None => None
      case Some(posts) =>
        match toDatetime(DateText(kept[n]))
        case None => None
        case Some(t) => Some(posts + [ToPost(kept[n], t)])
  }

  /** `df["day"] = ...` overwrites a column called `day` or appends one. */
  function WithDay(cols: seq<string>): (r: seq<string>)
    ensures "day" in r && |cols| <= |r| <= |cols| + 1 && r[..|cols|] == cols
    ensures |r| == |cols| <==> "day" in cols
  {
    if "day" in cols then cols else cols + ["day"]
  }

  /** The cleaned frame: its column names and its rows. */
  datatype Cleaned = Cleaned(columns: seq<string>, posts: seq<Post>)

  /** load_and_clean_data as one function of the parsed file. */
  function Clean(file: RawTable, toNumeric: string -> Option<int>,
                 toDatetime: string -> Option<Timestamp>): (r: Result<Cleaned, LoadError>)
    ensures r.Success? ==> |r.value.posts| <= |file.rows| && "day" in r.value.columns
  {
    var cols := NormalizedColumns(file.header);
    match ResolveColumns(cols)
    case Failure(e) => Failure(e)
    case Success(ix) =>
      var kept := DropIncomplete(Records(ix, file.rows, toNumeric));
      match ParseDates(kept, toDatetime)
      case None => Failure(UnparseableDate)
      case Some(posts) => Success(Cleaned(WithDay(cols), posts))
  }

  /** `df.columns = df.columns.str.strip()`. */
  method StripColumns(header: seq<string>) returns (columns: seq<string>)
    ensures |columns| == |header|
    ensures forall k :: 0 <= k < |header| ==> columns[k] == Trim(header[k])
  {
    columns := header;
    var i := 0;
    while i < |columns|
      invariant |columns| == |header| && 0 <= i <= |columns|
      invariant forall k :: 0 <= k < i ==> columns[k] == Trim(header[k])
      invariant forall k :: i <= k < |columns| ==> columns[k] == header[k]
    {
      columns := columns[i := Trim(columns[i])];
      i := i + 1;
    }
  }

  /** `df.rename(columns=RENAMES)` on the column names. */
  method RenameColumns(stripped: seq<string>) returns (columns: seq<string>)
    ensures |columns| == |stripped|
    ensures forall k :: 0 <= k < |stripped| ==> columns[k] == Rename(stripped[k])
  {
    columns := stripped;
    var i := 0;
    while i < |columns|
      invariant |columns| == |stripped| && 0 <= i <= |columns|
      invariant forall k :: 0 <= k < i ==> columns[k] == Rename(stripped[k])
      invariant forall k :: i <= k < |columns| ==> columns[k] == stripped[k]
    {
      columns := columns[i := Rename(columns[i])];
      i := i + 1;
    }
  }

  /** Selecting the required columns and coercing the metric ones, row by row. */
  method CoerceMetrics(ix: Columns, rows: seq<seq<Cell>>, toNumeric: string -> Option<int>)
    returns (records: seq<Record>)
    ensures records == Records(ix, rows, toNumeric)
  {
    records := [];
    var i := 0;
    while i < |rows|
      invariant 0 <= i <= |rows|
      invariant records == Records(ix, rows[..i], toNumeric)
    {
      assert rows[..i + 1][..i] == rows[..i];
      records := records + [ToRecord(ix, rows[i], toNumeric)];
      i := i + 1;
    }
    assert rows[..i] == rows;
  }

  /** `dropna(subset=REQUIRED_COLUMNS)`. */
  method DropNa(records: seq<Record>) returns (kept: seq<Record>)
    ensures kept == DropIncomplete(records)
  {
    kept := [];
    var i := 0;
    while i < |records|
      invariant 0 <= i <= |records|
      invariant kept == DropIncomplete(records[..i])
    {
      assert records[..i + 1][..i] == records[..i];
      if Complete(records[i]) {
        kept := kept + [records[i]];
      }
      i := i + 1;
    }
    assert records[..i] == records;
  }

  /** `pd.to_datetime` on the date column, then the `day` column from it. */
  method ConvertDates(kept: seq<Record>, toDatetime: string -> Option<Timestamp>)
    returns (posts: Option<seq<Post>>)
    requires forall k :: 0 <= k < |kept| ==> Complete(kept[k])
    ensures posts == ParseDates(kept, toDatetime)
  {
    var done: seq<Post> := [];
    var i := 0;
    while i < |kept|
      invariant 0 <= i <= |kept|
      invariant ParseDates(kept[..i], toDatetime) == Some(done)
    {
      assert kept[..i + 1][..i] == kept[..i];
      var t := toDatetime(DateText(kept[i]));
      if t.None? {
        assert !(forall k :: 0 <= k < |kept| ==> toDatetime(DateText(kept[k])).Some?);
        return None;
      }
      done := done + [ToPost(kept[i], t.value)];
      i := i + 1;
    }
    assert kept[..i] == kept;
    posts := Some(done);
  }

  /** load_and_clean_data, step by step on one frame: strip the header, rename it, coerce the
      metric columns, drop incomplete rows, then parse the dates and add the weekday. */
  method LoadAndCleanData(file: RawTable, toNumeric: string -> Option<int>,
                          toDatetime: string -> Option<Timestamp>)
    returns (result: Result<Cleaned, LoadError>)
    ensures result == Clean(file, toNumeric, toDatetime)
  {
    var columns := StripColumns(file.header);
    columns := RenameColumns(columns);
    assert columns == NormalizedColumns(file.header);
    var resolved := ResolveColumns(columns);
    if resolved.Failure? {
      return Failure(resolved.error);
    }
    var records := CoerceMetrics(resolved.value, file.rows, toNumeric);
    var kept := DropNa(records);
    var posts := ConvertDates(kept, toDatetime);
    if posts.None? {
      return Failure(UnparseableDate);
    }
    result := Success(Cleaned(WithDay(columns), posts.value));
  }

  /** The first column called `name` is the one IndexOf finds. */
  lemma IndexOfFirst(cols: seq<string>, name: string, i: nat)
    requires i < |cols| && cols[i] == name && name !in cols[..i]
    ensures IndexOf(cols, name) == Some(i)
  {
    var r := IndexOf(cols, name);
    if r.value < i {
      assert false;
    } else if r.value > i {
      assert false;
    }
  }

  lemma DropIncompleteAppend(recs: seq<Record>, r: Record)
    ensures DropIncomplete(recs + [r]) == DropIncomplete(recs) + (if Complete(r) then [r] else [])
  {
    assert (recs + [r])[..|recs|] == recs;
  }

  // ----- Properties of the cleaning -----

  /** `p` was made from `r`: the record passes the filter, its date text parses to the
      post's date, and the post carries the record's fields and that date's weekday. */
  predicate PostOfRecord(p: Post, r: Record, toDatetime: string -> Option<Timestamp>)
  {
    Complete(r) && toDatetime(DateText(r)) == Some(p.date) && p == ToPost(r, p.date)
  }

  /** The fields of a post made from `row`: each metric is what the numeric parser reads from
      its cell, the date is what the date parser reads from the date cell, and platform,
      post type and post text are the row's own cells. */
  predicate CarriesRowFields(p: Post, ix: Columns, row: seq<Cell>, toNumeric: string -> Option<int>,
                             toDatetime: string -> Option<Timestamp>)
  {
    ix.likes < |row| && row[ix.likes].Some? && toNumeric(row[ix.likes].value) == Some(p.likes) &&
    ix.comments < |row| && row[ix.comments].Some? && toNumeric(row[ix.comments].value) == Some(p.comments) &&
    ix.shares < |row| && row[ix.shares].Some? && toNumeric(row[ix.shares].value) == Some(p.shares) &&
    ix.date < |row| && row[ix.date].Some? && toDatetime(row[ix.date].value) == Some(p.date) &&
    CellAt(row, ix.platform) == Some(p.platform) && CellAt(row, ix.postType) == Some(p.postType) &&
    p.postText == (if ix.postText.Some? then CellAt(row, ix.postText.value) else None)
  }

  /** A post made from the record of `row` carries that row's fields. */
  lemma PostOfRowCarriesFields(p: Post, ix: Columns, row: seq<Cell>, toNumeric: string -> Option<int>,
                               toDatetime: string -> Option<Timestamp>)
    requires PostOfRow(p, ix, row, toNumeric, toDatetime)
    ensures CarriesRowFields(p, ix, row, toNumeric, toDatetime)
  {
    var r := ToRecord(ix, row, toNumeric);
    assert p == ToPost(r, p.date);
    assert toDatetime(DateText(r)) == Some(p.date);
  }

  /** `p` was made from the record of `row`. */
  predicate PostOfRow(p: Post, ix: Columns, row: seq<Cell>, toNumeric: string -> Option<int>,
                      toDatetime: string -> Option<Timestamp>)
  {
    PostOfRecord(p, ToRecord(ix, row, toNumeric), toDatetime)
  }

  /** On records: post `k` comes from the `k`-th kept record. */
  lemma PostsOfKeptRecords(recs: seq<Record>, toDatetime: string -> Option<Timestamp>)
    requires ParseDates(DropIncomplete(recs), toDatetime).Some?
    ensures var posts := ParseDates(DropIncomplete(recs), toDatetime).value;
            |KeptIndices(recs)| == |posts| &&
            forall k :: 0 <= k < |posts| ==> PostOfRecord(posts[k], recs[KeptIndices(recs)[k]], toDatetime)
  {
    KeptIndicesAlign(recs);
    var kept := DropIncomplete(recs);
    var posts := ParseDates(kept, toDatetime).value;
    var idx := KeptIndices(recs);
    forall k | 0 <= k < |posts|
      ensures PostOfRecord(posts[k], recs[idx[k]], toDatetime)
    {
      assert kept[k] == recs[idx[k]];
    }
  }

  lemma CleanedPosts(file: RawTable, toNumeric: string -> Option<int>,
                     toDatetime: string -> Option<Timestamp>)
    requires Clean(file, toNumeric, toDatetime).Success?
    ensures var recs := Records(ResolveColumns(NormalizedColumns(file.header)).value, file.rows, toNumeric);
            ResolveColumns(NormalizedColumns(file.header)).Success? &&
            ParseDates(DropIncomplete(recs), toDatetime).Some? &&
            Clean(file, toNumeric, toDatetime).value.posts == ParseDates(DropIncomplete(recs), toDatetime).value
  {
  }

  /** The cleaned posts are the rows that pass the required-field filter, each exactly once
      and in their original order: `origin[k]` is the input row of post `k`. */
  lemma CleanKeepsExactlyCompleteRows(file: RawTable, toNumeric: string -> Option<int>,
                                      toDatetime: string -> Option<Timestamp>)
    returns (ix: Columns, origin: seq<nat>)
    requires Clean(file, toNumeric, toDatetime).Success?
    ensures LocatesFields(ix, NormalizedColumns(file.header))
    ensures var posts := Clean(file, toNumeric, toDatetime).value.posts;
            |origin| == |posts| &&
            (forall k :: 0 <= k < |origin| ==>
               origin[k] < |file.rows| &&
               PostOfRow(posts[k], ix, file.rows[origin[k]], toNumeric, toDatetime))
    ensures forall k, l :: 0 <= k < l < |origin| ==> origin[k] < origin[l]
    ensures forall i :: 0 <= i < |file.rows| ==>
              (i in origin <==> Complete(ToRecord(ix, file.rows[i], toNumeric)))
  {
    CleanedPosts(file, toNumeric, toDatetime);
    ix := ResolveColumns(NormalizedColumns(file.header)).value;
    var recs := Records(ix, file.rows, toNumeric);
    origin := KeptIndices(recs);
    KeptIndicesIncreasing(recs);
    KeptIndicesExact(recs);
    PostsOfKeptRecords(recs, toDatetime);
    var posts := Clean(file, toNumeric, toDatetime).value.posts;
    forall k | 0 <= k < |origin|
      ensures PostOfRow(posts[k], ix, file.rows[origin[k]], toNumeric, toDatetime)
    {
      assert recs[origin[k]] == ToRecord(ix, file.rows[origin[k]], toNumeric);
    }
    forall i | 0 <= i < |file.rows|
      ensures i in origin <==> Complete(ToRecord(ix, file.rows[i], toNumeric))
    {
      assert recs[i] == ToRecord(ix, file.rows[i], toNumeric);
    }
  }

  /** A row in which a metric cell does not parse as a number never reaches the charts. */
  lemma UnparseableMetricDropsRow(ix: Columns, row: seq<Cell>, toNumeric: string -> Option<int>, s: string)
    requires toNumeric(s).None?
    requires CellAt(row, ix.likes) == Some(s) || CellAt(row, ix.comments) == Some(s) ||
             CellAt(row, ix.shares) == Some(s)
    ensures !Complete(ToRecord(ix, row, toNumeric))
  {
  }

  /** The filter ignores `post_text`: blanking it does not change whether a row survives. */
  lemma MissingPostTextKeepsRow(ix: Columns, cols: seq<string>, row: seq<Cell>,
                                toNumeric: string -> Option<int>)
    requires LocatesFields(ix, cols) && ix.postText.Some? && ix.postText.value < |row|
    ensures Complete(ToRecord(ix, row[ix.postText.value := None], toNumeric)) ==
            Complete(ToRecord(ix, row, toNumeric))
  {
    var j := ix.postText.value;
    assert cols[j] == "post_text";
    assert cols[ix.likes] == "likes" && cols[ix.comments] == "comments" && cols[ix.shares] == "shares";
    assert cols[ix.date] == "date" && cols[ix.platform] == "platform" && cols[ix.postType] == "post_type";
  }

  /** A row that passes the filter but whose date text does not parse. */
  predicate DateFails(ix: Columns, row: seq<Cell>, toNumeric: string -> Option<int>,
                      toDatetime: string -> Option<Timestamp>)
  {
    var r := ToRecord(ix, row, toNumeric);
    Complete(r) && toDatetime(DateText(r)).None?
  }

  /** On records: date parsing after the filter fails exactly when a complete record has a
      date that does not parse. */
  lemma ParseDatesFailsIff(recs: seq<Record>, toDatetime: string -> Option<Timestamp>)
    ensures ParseDates(DropIncomplete(recs), toDatetime).None? <==>
            exists i :: 0 <= i < |recs| && Complete(recs[i]) && toDatetime(DateText(recs[i])).None?
  {
    if ParseDates(DropIncomplete(recs), toDatetime).None? {
      var i := FailingRecord(recs, toDatetime);
    }
    if i :| 0 <= i < |recs| && Complete(recs[i]) && toDatetime(DateText(recs[i])).None? {
      FailingRecordIsKept(recs, toDatetime, i);
    }
  }

  lemma FailingRecord(recs: seq<Record>, toDatetime: string -> Option<Timestamp>) returns (i: nat)
    requires ParseDates(DropIncomplete(recs), toDatetime).None?
    ensures i < |recs| && Complete(recs[i]) && toDatetime(DateText(recs[i])).None?
  {
    var idx := KeptIndices(recs);
    KeptIndicesAlign(recs);
    var kept := DropIncomplete(recs);
    var k :| 0 <= k < |kept| && toDatetime(DateText(kept[k])).None?;
    i := idx[k];
    assert kept[k] == recs[i];
  }

  lemma FailingRecordIsKept(recs: seq<Record>, toDatetime: string -> Option<Timestamp>, i: nat)
    requires i < |recs| && Complete(recs[i]) && toDatetime(DateText(recs[i])).None?
    ensures ParseDates(DropIncomplete(recs), toDatetime).None?
  {
    var idx := KeptIndices(recs);
    KeptIndicesAlign(recs);
    KeptIndicesExact(recs);
    var kept := DropIncomplete(recs);
    assert i in idx;
    var k :| 0 <= k < |idx| && idx[k] == i;
    assert kept[k] == recs[i];
    assert toDatetime(DateText(kept[k])).None?;
  }

  /** Dates are parsed after the filter and without coercion: the load fails with
      UnparseableDate exactly when some row that passes the filter has a date that does not
      parse. A bad date in a row the filter drops is harmless. */
  lemma CleanFailsOnBadDate(file: RawTable, toNumeric: string -> Option<int>,
                            toDatetime: string -> Option<Timestamp>)
    ensures Clean(file, toNumeric, toDatetime) == Failure(UnparseableDate) <==>
            ResolveColumns(NormalizedColumns(file.header)).Success? &&
            exists i :: 0 <= i < |file.rows| &&
              DateFails(ResolveColumns(NormalizedColumns(file.header)).value, file.rows[i], toNumeric, toDatetime)
  {
    var resolved := ResolveColumns(NormalizedColumns(file.header));
    if resolved.Success? {
      var ix := resolved.value;
      var recs := Records(ix, file.rows, toNumeric);
      ParseDatesFailsIff(recs, toDatetime);
      assert (exists i :: 0 <= i < |recs| && Complete(recs[i]) && toDatetime(DateText(recs[i])).None?) <==>
             (exists i :: 0 <= i < |file.rows| && DateFails(ix, file.rows[i], toNumeric, toDatetime));
    }
  }

  /** The load raises KeyError exactly when some required column is absent after the
      header was normalised, and the error names only absent required columns. */
  lemma CleanFailsOnMissingColumn(file: RawTable, toNumeric: string -> Option<int>,
                                  toDatetime: string -> Option<Timestamp>)
    ensures var r := Clean(file, toNumeric, toDatetime);
            var cols := NormalizedColumns(file.header);
            (r.Failure? && r.error.MissingColumns?) <==>
              exists n :: n in REQUIRED_COLUMNS && n !in cols
    ensures var r := Clean(file, toNumeric, toDatetime);
            r.Failure? && r.error.MissingColumns? ==>
              r.error.names != [] &&
              forall n :: n in r.error.names ==> n in REQUIRED_COLUMNS && n !in NormalizedColumns(file.header)
  {
  }

  /** Every cleaned post's `day` is the weekday of its `date`, a DAY_ORDER category. */
  lemma CleanDayIsWeekday(file: RawTable, toNumeric: string -> Option<int>,
                          toDatetime: string -> Option<Timestamp>)
    requires Clean(file, toNumeric, toDatetime).Success?
    ensures forall p :: p in Clean(file, toNumeric, toDatetime).value.posts ==>
              p.day == Weekday(p.date) && Name(p.day) in DAY_ORDER
  {
    var ix, origin := CleanKeepsExactlyCompleteRows(file, toNumeric, toDatetime);
    var posts := Clean(file, toNumeric, toDatetime).value.posts;
    forall p | p in posts ensures p.day == Weekday(p.date) && Name(p.day) in DAY_ORDER {
      var k :| 0 <= k < |posts| && posts[k] == p;
      assert PostOfRow(posts[k], ix, file.rows[origin[k]], toNumeric, toDatetime);
    }
  }

  /** Every cleaned post comes from a distinct data row, in order, and carries that row's
      values: its likes, comments and shares are the numbers the numeric parser reads from the
      row's cells, its date is what the date parser reads from its date cell, and platform,
      post type and post text are the row's own cells. */
  lemma CleanPostsCarryRowFields(file: RawTable, toNumeric: string -> Option<int>,
                                 toDatetime: string -> Option<Timestamp>)
    returns (ix: Columns, origin: seq<nat>)
    requires Clean(file, toNumeric, toDatetime).Success?
    ensures LocatesFields(ix, NormalizedColumns(file.header))
    ensures var posts := Clean(file, toNumeric, toDatetime).value.posts;
            |origin| == |posts| &&
            (forall k :: 0 <= k < |origin| ==>
               origin[k] < |file.rows| &&
               CarriesRowFields(posts[k], ix, file.rows[origin[k]], toNumeric, toDatetime))
    ensures forall k, l :: 0 <= k < l < |origin| ==> origin[k] < origin[l]
  {
    ix, origin := CleanKeepsExactlyCompleteRows(file, toNumeric, toDatetime);
    var posts := Clean(file, toNumeric, toDatetime).value.posts;
    forall k | 0 <= k < |origin|
      ensures CarriesRowFields(posts[k], ix, file.rows[origin[k]], toNumeric, toDatetime)
    {
      PostOfRowCarriesFields(posts[k], ix, file.rows[origin[k]], toNumeric, toDatetime);
    }
  }

  /** Given a date parser that only returns real calendar instants, every cleaned post carries
      a valid date, it is the date parsed from its row's date cell, and its day is that date's
      weekday. */
  lemma CleanDatesAreValid(file: RawTable, toNumeric: string -> Option<int>,
                           toDatetime: string -> Option<Timestamp>)
    requires forall s :: toDatetime(s).Some? ==> Valid(toDatetime(s).value)
    requires Clean(file, toNumeric, toDatetime).Success?
    ensures forall p :: p in Clean(file, toNumeric, toDatetime).value.posts ==>
              Valid(p.date) && p.day == Weekday(p.date)
  {
    var ix, origin := CleanKeepsExactlyCompleteRows(file, toNumeric, toDatetime);
    var posts := Clean(file, toNumeric, toDatetime).value.posts;
    forall p | p in posts ensures Valid(p.date) && p.day == Weekday(p.date) {
      var k :| 0 <= k < |posts| && posts[k] == p;
      var r := ToRecord(ix, file.rows[origin[k]], toNumeric);
      assert PostOfRow(posts[k], ix, file.rows[origin[k]], toNumeric, toDatetime);
      assert toDatetime(DateText(r)) == Some(p.date);
    }
  }

  /** The cleaned frame's columns: each header in place, stripped and, if it is one of the
      seven listed names, renamed; then `day`, appended unless a `day` column existed. */
  lemma CleanColumnNames(file: RawTable, toNumeric: string -> Option<int>,
                         toDatetime: string -> Option<Timestamp>)
    requires Clean(file, toNumeric, toDatetime).Success?
    ensures var cols := Clean(file, toNumeric, toDatetime).value.columns;
            "day" in cols && |file.header| <= |cols| <= |file.header| + 1 &&
            (forall k :: 0 <= k < |file.header| ==>
               cols[k] == (if Trim(file.header[k]) in RENAMES then RENAMES[Trim(file.header[k])]
                           else Trim(file.header[k]))) &&
            (|cols| > |file.header| ==> cols[|file.header|] == "day") &&
            ("day" in NormalizedColumns(file.header) <==> |cols| == |file.header|)
  {
    var cols := NormalizedColumns(file.header);
    CleanedColumns(file, toNumeric, toDatetime);
    assert Clean(file, toNumeric, toDatetime).value.columns == WithDay(cols);
    forall k | 0 <= k < |file.header|
      ensures cols[k] == (if Trim(file.header[k]) in RENAMES then RENAMES[Trim(file.header[k])]
                          else Trim(file.header[k]))
    {
      assert cols[k] == Rename(Trim(file.header[k]));
    }
  }

  lemma CleanedColumns(file: RawTable, toNumeric: string -> Option<int>,
                       toDatetime: string -> Option<Timestamp>)
    requires Clean(file, toNumeric, toDatetime).Success?
    ensures Clean(file, toNumeric, toDatetime).value.columns == WithDay(NormalizedColumns(file.header))
  {
  }

  /** A file with a header row and no data rows cleans to an empty frame whenever its
      required columns exist. */
  lemma CleanEmptyFile(file: RawTable, toNumeric: string -> Option<int>,
                       toDatetime: string -> Option<Timestamp>)
    requires file.rows == []
    requires forall n :: n in REQUIRED_COLUMNS ==> n in NormalizedColumns(file.header)
    ensures Clean(file, toNumeric, toDatetime).Success?
    ensures Clean(file, toNumeric, toDatetime).value.posts == []
  {
  }
}
