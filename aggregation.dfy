/** create_visualizations: the group-by-sum tables, their wide-to-long reshaping, and the
    rows and day axis of the likes box chart. Only the data each chart is given is modelled. */
module Aggregation {
  import opened Calendar
  import opened Text
  import opened Cleaning

  /** The column a table is grouped by. */
  datatype Field = PostType | Date | Platform

  /** A group-by key: a text label or a parsed date. */
  datatype Key = TextKey(text: string) | TimeKey(time: Timestamp)

  function KeyOf(p: Post, f: Field): Key
  {
    match f
    case PostType => TextKey(p.postType)
    case Date => TimeKey(p.date)
    case Platform => TextKey(p.platform)
  }

  /** The order `groupby` sorts its keys in: code-point order for text, chronological order
      for dates. (Keys of one column never mix the two kinds.) */
  predicate KeyLess(a: Key, b: Key)
  {
    match (a, b)
    case (TextKey(s), TextKey(t)) => StrLess(s, t)
    case (TimeKey(s), TimeKey(t)) => Before(s, t)
    case (TextKey(_), TimeKey(_)) => true
    case (TimeKey(_), TextKey(_)) => false
  }

  lemma KeyLessIrreflexive(a: Key)
    ensures !KeyLess(a, a)
  {
    if a.TextKey? {
      StrLessIrreflexive(a.text);
    } else {
      BeforeIsStrictTotalOrder(a.time, a.time, a.time);
    }
  }

  lemma KeyLessTransitive(a: Key, b: Key, c: Key)
    requires KeyLess(a, b) && KeyLess(b, c)
    ensures KeyLess(a, c)
  {
    if a.TextKey? && b.TextKey? && c.TextKey? {
      StrLessTransitive(a.text, b.text, c.text);
    } else if a.TimeKey? && b.TimeKey? && c.TimeKey? {
      BeforeIsStrictTotalOrder(a.time, b.time, c.time);
    }
  }

  lemma KeyLessTotal(a: Key, b: Key)
    requires a != b
    ensures KeyLess(a, b) || KeyLess(b, a)
  {
    if a.TextKey? && b.TextKey? {
      StrLessTotal(a.text, b.text);
    } else if a.TimeKey? && b.TimeKey? {
      BeforeIsStrictTotalOrder(a.time, b.time, b.time);
    }
  }

  /** The three summed columns of one row or one group. */
  datatype Metrics = Metrics(likes: int, comments: int, shares: int)

  const ZERO: Metrics := Metrics(0, 0, 0)

  function Plus(a: Metrics, b: Metrics): Metrics
  {
    Metrics(a.likes + b.likes, a.comments + b.comments, a.shares + b.shares)
  }

  function MetricsOf(p: Post): Metrics
  {
    Metrics(p.likes, p.comments, p.shares)
  }

  /** The column totals of a sequence of posts. */
  function Total(posts: seq<Post>): (t: Metrics)
    ensures (forall i :: 0 <= i < |posts| ==>
               posts[i].likes >= 0 && posts[i].comments >= 0 && posts[i].shares >= 0) ==>
            t.likes >= 0 && t.comments >= 0 && t.shares >= 0
  {
    if posts == [] then ZERO else Plus(MetricsOf(posts[0]), Total(posts[1..]))
  }

  /** The posts whose grouping column holds `k`, in order. */
  function RowsWithKey(posts: seq<Post>, f: Field, k: Key): (r: seq<Post>)
    ensures forall p :: p in r <==> p in posts && KeyOf(p, f) == k
    ensures forall p :: multiset(r)[p] == if KeyOf(p, f) == k then multiset(posts)[p] else 0
  {
    if posts == [] then []
    else
      assert posts == [posts[0]] + posts[1..];
      (if KeyOf(posts[0], f) == k then [posts[0]] else []) + RowsWithKey(posts[1..], f, k)
  }

  /** One row of a `groupby(...)[metrics].sum().reset_index()` table. */
  datatype Group = Group(key: Key, totals: Metrics)

  /** One row per key, keys strictly ascending. */
  predicate Ascending(gs: seq<Group>)
  {
    forall i, j :: 0 <= i < j < |gs| ==> KeyLess(gs[i].key, gs[j].key)
  }

  function KeysOf(gs: seq<Group>): set<Key>
  {
    set i | 0 <= i < |gs| :: gs[i].key
  }

  /** The totals of the group with key `k`, or zero when there is none. */
  function Lookup(gs: seq<Group>, k: Key): Metrics
  {
    if gs == [] then ZERO
    else if gs[0].key == k then gs[0].totals
    else Lookup(gs[1..], k)
  }

  /** The sum of all groups' totals. */
  function SumGroups(gs: seq<Group>): Metrics
  {
    if gs == [] then ZERO else Plus(gs[0].totals, SumGroups(gs[1..]))
  }

  /** Adds one row's metrics to the sorted group table: to its key's group, or as a new
      group at the key's place in the order. */
  function AddTo(gs: seq<Group>, k: Key, m: Metrics): (r: seq<Group>)
    ensures |gs| <= |r| <= |gs| + 1
  {
    if gs == [] then [Group(k, m)]
    else if gs[0].key == k then [Group(k, Plus(gs[0].totals, m))] + gs[1..]
    else if KeyLess(k, gs[0].key) then [Group(k, m)] + gs
    else [gs[0]] + AddTo(gs[1..], k, m)
  }

  /** `df.groupby(f)[["likes", "comments", "shares"]].sum().reset_index()`. */
  function GroupBySum(posts: seq<Post>, f: Field): (gs: seq<Group>)
    ensures |gs| <= |posts|
    ensures gs == [] <==> posts == []
  {
    if posts == [] then []
    else AddTo(GroupBySum(posts[1..], f), KeyOf(posts[0], f), MetricsOf(posts[0]))
  }

  lemma KeysOfCons(g: Group, gs: seq<Group>)
    ensures KeysOf([g] + gs) == {g.key} + KeysOf(gs)
  {
    var r := [g] + gs;
    forall x | x in KeysOf(r) ensures x in {g.key} + KeysOf(gs) {
      var i :| 0 <= i < |r| && r[i].key == x;
      if i > 0 { assert gs[i - 1].key == x; }
    }
    forall x | x in KeysOf(gs) ensures x in KeysOf(r) {
      var i :| 0 <= i < |gs| && gs[i].key == x;
      assert r[i + 1].key == x;
    }
    assert r[0].key == g.key;
  }

  /** Adding a row keeps the table ascending and adds the row's key to its keys. */
  lemma {:induction false} AddToAscending(gs: seq<Group>, k: Key, m: Metrics)
    requires Ascending(gs)
    ensures Ascending(AddTo(gs, k, m))
    ensures KeysOf(AddTo(gs, k, m)) == KeysOf(gs) + {k}
  {
    var r := AddTo(gs, k, m);
    if gs == [] {
      KeysOfCons(Group(k, m), []);
    } else if gs[0].key == k {
      KeysOfCons(r[0], gs[1..]);
      KeysOfCons(gs[0], gs[1..]);
      assert gs == [gs[0]] + gs[1..];
    } else if KeyLess(k, gs[0].key) {
      forall i, j | 0 <= i < j < |r| ensures KeyLess(r[i].key, r[j].key) {
        if i == 0 && j > 1 {
          KeyLessTransitive(k, gs[0].key, gs[j - 1].key);
        }
      }
      KeysOfCons(Group(k, m), gs);
    } else {
      KeyLessTotal(k, gs[0].key);
      var tail := gs[1..];
      AddToAscending(tail, k, m);
      var rt := AddTo(tail, k, m);
      KeysOfCons(gs[0], rt);
      KeysOfCons(gs[0], tail);
      assert gs == [gs[0]] + tail;
      forall i, j | 0 <= i < j < |r| ensures KeyLess(r[i].key, r[j].key) {
        if i == 0 {
          var x := r[j].key;
          assert x in KeysOf(rt) by { assert rt[j - 1].key == x; }
          if x in KeysOf(tail) {
            var t :| 0 <= t < |tail| && tail[t].key == x;
            assert gs[t + 1].key == x;
          }
        }
      }
    }
  }

  lemma {:induction false} LookupAbsent(gs: seq<Group>, k: Key)
    requires k !in KeysOf(gs)
    ensures Lookup(gs, k) == ZERO
  {
    if gs != [] {
      KeysOfCons(gs[0], gs[1..]);
      assert gs == [gs[0]] + gs[1..];
      LookupAbsent(gs[1..], k);
    }
  }

  /** In an ascending table the lookup of a group's key finds that group. */
  lemma {:induction false} LookupAscending(gs: seq<Group>, i: nat)
    requires Ascending(gs) && i < |gs|
    ensures Lookup(gs, gs[i].key) == gs[i].totals
  {
    if i > 0 {
      assert gs[0].key != gs[i].key by {
        assert KeyLess(gs[0].key, gs[i].key);
        KeyLessIrreflexive(gs[0].key);
      }
      assert gs[1..][i - 1] == gs[i];
      LookupAscending(gs[1..], i - 1);
    }
  }

  /** Adding a row changes the totals of its key's group by the row's metrics, no other. */
  lemma {:induction false} AddToLookup(gs: seq<Group>, k: Key, m: Metrics, j: Key)
    requires Ascending(gs)
    ensures Lookup(AddTo(gs, k, m), j) == if j == k then Plus(Lookup(gs, j), m) else Lookup(gs, j)
  {
    if gs == [] {
    } else if gs[0].key == k {
    } else if KeyLess(k, gs[0].key) {
      if j == k {
        assert k !in KeysOf(gs) by {
          if k in KeysOf(gs) {
            var i :| 0 <= i < |gs| && gs[i].key == k;
            if i > 0 {
              KeyLessTransitive(k, gs[0].key, gs[i].key);
            }
            KeyLessIrreflexive(k);
          }
        }
        LookupAbsent(gs, k);
      }
    } else {
      AddToLookup(gs[1..], k, m, j);
    }
  }

  /** Adding a row adds its metrics to the grand total of the table. */
  lemma {:induction false} AddToSum(gs: seq<Group>, k: Key, m: Metrics)
    ensures SumGroups(AddTo(gs, k, m)) == Plus(SumGroups(gs), m)
  {
    if gs != [] && gs[0].key != k && !KeyLess(k, gs[0].key) {
      AddToSum(gs[1..], k, m);
      assert AddTo(gs, k, m)[1..] == AddTo(gs[1..], k, m);
    } else if gs != [] && gs[0].key == k {
      assert AddTo(gs, k, m)[1..] == gs[1..];
    } else if gs != [] {
      assert AddTo(gs, k, m)[1..] == gs;
    }
  }

  /** The distinct values of the grouping column. */
  function PresentKeys(posts: seq<Post>, f: Field): set<Key>
  {
    set i | 0 <= i < |posts| :: KeyOf(posts[i], f)
  }

  lemma {:induction false} GroupBySumShape(posts: seq<Post>, f: Field)
    ensures Ascending(GroupBySum(posts, f))
    ensures KeysOf(GroupBySum(posts, f)) == PresentKeys(posts, f)
  {
    if posts != [] {
      GroupBySumShape(posts[1..], f);
      AddToAscending(GroupBySum(posts[1..], f), KeyOf(posts[0], f), MetricsOf(posts[0]));
      assert PresentKeys(posts, f) == {KeyOf(posts[0], f)} + PresentKeys(posts[1..], f) by {
        forall x | x in PresentKeys(posts, f) ensures x in {KeyOf(posts[0], f)} + PresentKeys(posts[1..], f) {
          var i :| 0 <= i < |posts| && KeyOf(posts[i], f) == x;
          if i > 0 { assert posts[1..][i - 1] == posts[i]; }
        }
        forall x | x in PresentKeys(posts[1..], f) ensures x in PresentKeys(posts, f) {
          var i :| 0 <= i < |posts[1..]| && KeyOf(posts[1..][i], f) == x;
          assert posts[i + 1] == posts[1..][i];
        }
      }
    }
  }

  lemma {:induction false} GroupBySumLookup(posts: seq<Post>, f: Field, k: Key)
    ensures Lookup(GroupBySum(posts, f), k) == Total(RowsWithKey(posts, f, k))
  {
    if posts != [] {
      GroupBySumLookup(posts[1..], f, k);
      GroupBySumShape(posts[1..], f);
      AddToLookup(GroupBySum(posts[1..], f), KeyOf(posts[0], f), MetricsOf(posts[0]), k);
      var rest := RowsWithKey(posts[1..], f, k);
      if KeyOf(posts[0], f) == k {
        assert RowsWithKey(posts, f, k) == [posts[0]] + rest;
        assert ([posts[0]] + rest)[1..] == rest;
      } else {
        assert RowsWithKey(posts, f, k) == rest;
      }
    }
  }

  lemma {:induction false} GroupBySumTotal(posts: seq<Post>, f: Field)
    ensures SumGroups(GroupBySum(posts, f)) == Total(posts)
  {
    if posts != [] {
      GroupBySumTotal(posts[1..], f);
      AddToSum(GroupBySum(posts[1..], f), KeyOf(posts[0], f), MetricsOf(posts[0]));
    }
  }

  /** The group-by-sum table has one row per distinct key value present, in ascending key
      order; each row's metrics are the sums of those metrics over the rows with its key;
      the groups' totals add up to the column totals; and it is empty exactly when the
      input is. */
  lemma GroupBySumCorrect(posts: seq<Post>, f: Field)
    ensures var gs := GroupBySum(posts, f);
            Ascending(gs) && KeysOf(gs) == PresentKeys(posts, f) &&
            (forall i :: 0 <= i < |gs| ==>
               gs[i].totals == Total(RowsWithKey(posts, f, gs[i].key)) &&
               RowsWithKey(posts, f, gs[i].key) != []) &&
            SumGroups(gs) == Total(posts) &&
            (gs == [] <==> posts == [])
  {
    var gs := GroupBySum(posts, f);
    GroupBySumShape(posts, f);
    GroupBySumTotal(posts, f);
    forall i | 0 <= i < |gs|
      ensures gs[i].totals == Total(RowsWithKey(posts, f, gs[i].key)) &&
              RowsWithKey(posts, f, gs[i].key) != []
    {
      LookupAscending(gs, i);
      GroupBySumLookup(posts, f, gs[i].key);
      assert gs[i].key in KeysOf(gs);
      var j :| 0 <= j < |posts| && KeyOf(posts[j], f) == gs[i].key;
      assert posts[j] in RowsWithKey(posts, f, gs[i].key);
    }
    if posts != [] {
      assert KeyOf(posts[0], f) in PresentKeys(posts, f);
    }
  }

  // ----- melt -----

  /** The `var_name` values of a melted table. */
  datatype Metric = Likes | Comments | Shares

  function MetricName(m: Metric): string
  {
    match m
    case Likes => "likes"
    case Comments => "comments"
    case Shares => "shares"
  }

  function Value(t: Metrics, m: Metric): int
  {
    match m
    case Likes => t.likes
    case Comments => t.comments
    case Shares => t.shares
  }

  /** One row of `melt(id_vars=key, var_name="metric", value_name="count")`. */
  datatype MeltRow = MeltRow(key: Key, metric: Metric, count: int)

  function MeltColumn(gs: seq<Group>, m: Metric): seq<MeltRow>
  {
    seq(|gs|, i requires 0 <= i < |gs| => MeltRow(gs[i].key, m, Value(gs[i].totals, m)))
  }

  /** Wide to long: the likes column of every group, then the comments, then the shares. */
  function Melt(gs: seq<Group>): (rows: seq<MeltRow>)
    ensures |rows| == 3 * |gs|
  {
    MeltColumn(gs, Likes) + MeltColumn(gs, Comments) + MeltColumn(gs, Shares)
  }

  /** The metric of the `c`-th block of a melted table. */
  function MetricAt(c: nat): Metric
    requires c < 3
  {
    if c == 0 then Likes else if c == 1 then Comments else Shares
  }

  /** A melted table has three rows per group; row `c * n + i` is group `i`'s value of the
      `c`-th metric, and its `metric` column holds the `c`-th selected column's name, so the
      blocks follow the order of `[["likes", "comments", "shares"]]`. */
  lemma MeltShape(gs: seq<Group>)
    ensures |Melt(gs)| == 3 * |gs|
    ensures forall c, i :: 0 <= c < 3 && 0 <= i < |gs| ==>
              Melt(gs)[c * |gs| + i] == MeltRow(gs[i].key, MetricAt(c), Value(gs[i].totals, MetricAt(c))) &&
              MetricName(Melt(gs)[c * |gs| + i].metric) == METRIC_COLUMNS[c]
  {
    var n := |gs|;
    forall c, i | 0 <= c < 3 && 0 <= i < n
      ensures Melt(gs)[c * n + i] == MeltRow(gs[i].key, MetricAt(c), Value(gs[i].totals, MetricAt(c))) &&
              MetricName(Melt(gs)[c * n + i].metric) == METRIC_COLUMNS[c]
    {
      if c == 0 {
        assert Melt(gs)[i] == MeltColumn(gs, Likes)[i];
      } else if c == 1 {
        assert Melt(gs)[n + i] == MeltColumn(gs, Comments)[i];
      } else {
        assert Melt(gs)[2 * n + i] == MeltColumn(gs, Shares)[i];
      }
    }
  }

  /** Long back to wide: the inverse of Melt for a table of `n` groups. */
  function Unmelt(rows: seq<MeltRow>, n: nat): seq<Group>
    requires |rows| == 3 * n
  {
    seq(n, i requires 0 <= i < n =>
      Group(rows[i].key, Metrics(rows[i].count, rows[n + i].count, rows[2 * n + i].count)))
  }

  /** Melting loses nothing: pivoting the long table back gives the grouped table. */
  lemma UnmeltMelt(gs: seq<Group>)
    ensures |Melt(gs)| == 3 * |gs| && Unmelt(Melt(gs), |gs|) == gs
  {
    MeltShape(gs);
    var n := |gs|;
    forall i | 0 <= i < n ensures Unmelt(Melt(gs), n)[i] == gs[i] {
      assert Melt(gs)[0 * n + i].count == gs[i].totals.likes;
      assert Melt(gs)[1 * n + i].count == gs[i].totals.comments;
      assert Melt(gs)[2 * n + i].count == gs[i].totals.shares;
    }
  }

  // ----- the four charts -----

  /** One point of the likes box chart. */
  datatype BoxPoint = BoxPoint(day: Day, likes: int)

  /** The box chart's data and its category axis (`category_orders={"day": DAY_ORDER}`). */
  datatype BoxChart = BoxChart(categories: seq<string>, points: seq<BoxPoint>)

  function LikesByDay(posts: seq<Post>): (chart: BoxChart)
    ensures chart.categories == DAY_ORDER && |chart.points| == |posts|
  {
    BoxChart(DAY_ORDER, seq(|posts|, i requires 0 <= i < |posts| => BoxPoint(posts[i].day, posts[i].likes)))
  }

  /** The data rows of the four charts. */
  datatype Figures = Figures(byPostType: seq<MeltRow>, daily: seq<MeltRow>,
                             likesByDay: BoxChart, byPlatform: seq<MeltRow>)

  function CreateVisualizations(posts: seq<Post>): (figs: Figures)
    ensures |figs.byPostType| <= 3 * |posts| && |figs.daily| <= 3 * |posts| && |figs.byPlatform| <= 3 * |posts|
    ensures figs.byPostType == [] <==> posts == []
    ensures figs.daily == [] <==> posts == []
    ensures figs.byPlatform == [] <==> posts == []
    ensures figs.likesByDay.categories == DAY_ORDER && |figs.likesByDay.points| == |posts|
  {
    Figures(Melt(GroupBySum(posts, PostType)), Melt(GroupBySum(posts, Date)),
            LikesByDay(posts), Melt(GroupBySum(posts, Platform)))
  }

  /** The box chart plots one point per post, its weekday against its likes, and its axis is
      DAY_ORDER whatever days occur in the data, each point's day at its DAY_ORDER position. */
  lemma BoxChartAxis(posts: seq<Post>)
    ensures LikesByDay(posts).categories == DAY_ORDER
    ensures |LikesByDay(posts).points| == |posts|
    ensures forall i :: 0 <= i < |posts| ==>
              LikesByDay(posts).points[i] == BoxPoint(posts[i].day, posts[i].likes) &&
              DAY_ORDER[Index(posts[i].day)] == Name(posts[i].day)
  {
  }

  /** Row `j` of a melted table: the group it comes from and the metric it carries. */
  lemma MeltRowAt(gs: seq<Group>, j: nat) returns (i: nat)
    requires j < |Melt(gs)|
    ensures i < |gs|
    ensures Melt(gs)[j].key == gs[i].key
    ensures Melt(gs)[j].count == Value(gs[i].totals, Melt(gs)[j].metric)
  {
    var n := |gs|;
    if j < n {
      i := j;
      assert Melt(gs)[j] == MeltColumn(gs, Likes)[i];
    } else if j < 2 * n {
      i := j - n;
      assert Melt(gs)[j] == MeltColumn(gs, Comments)[i];
    } else {
      i := j - 2 * n;
      assert Melt(gs)[j] == MeltColumn(gs, Shares)[i];
    }
  }

  /** Each row of a bar or line chart is the sum of one metric over the posts with its key. */
  lemma ChartRowsAreGroupSums(posts: seq<Post>, f: Field)
    ensures var rows := Melt(GroupBySum(posts, f));
            |rows| == 3 * |GroupBySum(posts, f)| &&
            forall j :: 0 <= j < |rows| ==>
              rows[j].count == Value(Total(RowsWithKey(posts, f, rows[j].key)), rows[j].metric) &&
              rows[j].key in PresentKeys(posts, f)
  {
    var gs := GroupBySum(posts, f);
    GroupBySumCorrect(posts, f);
    var rows := Melt(gs);
    forall j | 0 <= j < |rows|
      ensures rows[j].count == Value(Total(RowsWithKey(posts, f, rows[j].key)), rows[j].metric) &&
              rows[j].key in PresentKeys(posts, f)
    {
      var i := MeltRowAt(gs, j);
      assert gs[i].key in KeysOf(gs);
    }
  }

  /** No posts: four empty data tables, and the box chart still has the full day axis. */
  lemma EmptyCharts()
    ensures CreateVisualizations([]) == Figures([], [], BoxChart(DAY_ORDER, []), [])
  {
  }
}
