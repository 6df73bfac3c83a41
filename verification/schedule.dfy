/**
 * The weekly schedule (`pick_today_theme_and_topic`): each CSV row names a day
 * of the week (1 = Monday .. 7 = Sunday), a theme and a comma-separated list of
 * sub-topics. Today's row is the first whose day matches; when none does, the
 * first row stands in. The sub-topic is drawn from that row's list.
 */
module Schedule {
  import opened Wrappers
  import opened Text

  /**
   * One row of the schedule file. `day` is the `Day` column as `int()` reads
   * it, `None` when `int()` rejects the text.
   */
  datatype Row = Row(day: Option<int>, theme: string, subTopics: string)

  /** What the resolver hands on: today's theme and one of its sub-topics. */
  datatype Topic = Topic(theme: string, subTopic: string)

  /**
   * Why no topic could be chosen: the `Day` of row `index` is not a number, the
   * file has no rows (so `rows[0]` fails), or the chosen row lists no sub-topic
   * (so `random.choice` fails).
   */
  datatype ScheduleError = BadDay(index: nat) | NoRows | NoSubTopics

  /** `datetime.weekday()`: Monday is 0, Sunday is 6. */
  type Weekday = w: int | 0 <= w <= 6

  /** `[x.strip() for x in fields if x.strip()]` */
  function StrippedNonBlank(fields: seq<string>): (kept: seq<string>)
    ensures |kept| <= |fields|
  {
    if fields == [] then []
    else if Strip(fields[0]) == [] then StrippedNonBlank(fields[1..])
    else [Strip(fields[0])] + StrippedNonBlank(fields[1..])
  }

  /**
   * What the comprehension keeps: only non-empty, trimmed entries, each the
   * strip of some field, and the strip of every field that is not blank.
   */
  lemma {:induction false} StrippedNonBlankShape(fields: seq<string>)
    ensures forall t :: t in StrippedNonBlank(fields) ==> t != [] && !IsSpace(t[0]) && !IsSpace(t[|t| - 1])
    ensures forall f :: f in fields && !AllSpace(f) ==> Strip(f) in StrippedNonBlank(fields)
    ensures forall t :: t in StrippedNonBlank(fields) ==> exists i :: 0 <= i < |fields| && t == Strip(fields[i])
  {
    if fields != [] {
      var rest := StrippedNonBlank(fields[1..]);
      StrippedNonBlankShape(fields[1..]);
      forall f | f in fields && !AllSpace(f) ensures Strip(f) in StrippedNonBlank(fields) {
        if f != fields[0] {
          assert f in fields[1..];
        }
      }
      forall t | t in StrippedNonBlank(fields) ensures exists i :: 0 <= i < |fields| && t == Strip(fields[i]) {
        if t in rest {
          var i :| 0 <= i < |fields[1..]| && t == Strip(fields[1..][i]);
          assert t == Strip(fields[i + 1]);
        } else {
          assert t == Strip(fields[0]);
        }
      }
    }
  }

  /** The sub-topics of a row: its `SubTopics` field split at commas, trimmed, blanks dropped. */
  function SubTopics(field: string): (subs: seq<string>)
  {
    StrippedNonBlank(Split(field, ','))
  }

  /**
   * Every sub-topic is non-empty, carries no surrounding white space and no
   * comma; every comma-separated entry that is not blank is offered, trimmed;
   * a field with a non-blank character between its commas offers at least one.
   */
  lemma SubTopicsShape(field: string)
    ensures forall t :: t in SubTopics(field) ==> t != [] && !IsSpace(t[0]) && !IsSpace(t[|t| - 1])
    ensures forall t :: t in SubTopics(field) ==> ',' !in t
    ensures forall f :: f in Split(field, ',') && !AllSpace(f) ==> Strip(f) in SubTopics(field)
    ensures SubTopics(field) == [] <==> forall f :: f in Split(field, ',') ==> AllSpace(f)
  {
    var fields := Split(field, ',');
    StrippedNonBlankShape(fields);
    forall t | t in SubTopics(field) ensures ',' !in t {
      var k :| 0 <= k < |fields| && t == Strip(fields[k]);
      assert ',' !in fields[k];
      StripChars(fields[k]);
    }
  }

  /**
   * The rows from index `i` on, as the `for r in rows` loop meets them: a row
   * whose day does not parse aborts the whole resolution, the first row whose
   * day is `today` is chosen, and once the rows run out the first row is the
   * fallback (which fails when there is none).
   */
  function Scan(rows: seq<Row>, today: int, i: nat): Result<Row, ScheduleError>
    requires i <= |rows|
    decreases |rows| - i
  {
    if i == |rows| then
      if rows == [] then Failure(NoRows) else Success(rows[0])
    else
      match rows[i].day
      case None => Failure(BadDay(i))
      case Some(d) => if d == today then Success(rows[i]) else Scan(rows, today, i + 1)
  }

  /**
   * The row chosen for the day numbered `today`, or why none could be: a
   * chosen row has day `today` or is the first-row fallback; a `BadDay` names a
   * row whose day does not parse, with every row before it passed over; and
   * `NoRows` comes exactly from an empty file.
   */
  function ChosenRow(rows: seq<Row>, today: int): (r: Result<Row, ScheduleError>)
    ensures r == Failure(NoRows) <==> rows == []
    ensures r.Success? ==> r.value in rows && (r.value.day == Some(today) || r.value == rows[0])
    ensures r.Failure? ==> r.error == NoRows || (r.error.BadDay? && r.error.index < |rows|)
    ensures r.Failure? && r.error.BadDay? ==>
      r.error.index < |rows| && rows[r.error.index].day.None?
      && forall j :: 0 <= j < r.error.index ==> PassedOver(rows[j], today)
  {
    ScanWithin(rows, today, 0);
    Scan(rows, today, 0)
  }

  lemma {:induction false} ScanWithin(rows: seq<Row>, today: int, i: nat)
    requires i <= |rows|
    ensures Scan(rows, today, i) == Failure(NoRows) <==> rows == []
    ensures Scan(rows, today, i).Success? ==>
      Scan(rows, today, i).value in rows
      && (Scan(rows, today, i).value.day == Some(today) || Scan(rows, today, i).value == rows[0])
    ensures Scan(rows, today, i).Failure? ==>
      Scan(rows, today, i).error == NoRows
      || (Scan(rows, today, i).error.BadDay? && Scan(rows, today, i).error.index < |rows|)
    ensures Scan(rows, today, i).Failure? && Scan(rows, today, i).error.BadDay? ==>
      var k := Scan(rows, today, i).error.index;
      i <= k < |rows| && rows[k].day.None? && forall j :: i <= j < k ==> PassedOver(rows[j], today)
    decreases |rows| - i
  {
    if i < |rows| && rows[i].day.Some? && rows[i].day.value != today {
      ScanWithin(rows, today, i + 1);
    }
  }

  /** A row whose day parses and is not `today` is passed over. */
  predicate PassedOver(r: Row, today: int) {
    r.day.Some? && r.day.value != today
  }

  /** Rows `i .. k-1` are all passed over, so the scan from `i` goes on at `k`. */
  lemma {:induction false} ScanSkips(rows: seq<Row>, today: int, i: nat, k: nat)
    requires i <= k <= |rows|
    requires forall j :: i <= j < k ==> PassedOver(rows[j], today)
    ensures Scan(rows, today, i) == Scan(rows, today, k)
    decreases k - i
  {
    if i < k {
      ScanSkips(rows, today, i + 1, k);
    }
  }

  /** The first row dated `today`, with every earlier day well-formed, is chosen. */
  lemma FirstMatchChosen(rows: seq<Row>, today: int, k: nat)
    requires k < |rows| && rows[k].day == Some(today)
    requires forall j :: 0 <= j < k ==> PassedOver(rows[j], today)
    ensures ChosenRow(rows, today) == Success(rows[k])
  {
    ScanSkips(rows, today, 0, k);
  }

  /** When every day is well-formed and none is `today`, the first row is chosen. */
  lemma FallbackToFirst(rows: seq<Row>, today: int)
    requires rows != []
    requires forall j :: 0 <= j < |rows| ==> PassedOver(rows[j], today)
    ensures ChosenRow(rows, today) == Success(rows[0])
  {
    ScanSkips(rows, today, 0, |rows|);
  }

  /** A malformed day met before any match aborts the resolution, naming that row. */
  lemma MalformedDayAborts(rows: seq<Row>, today: int, k: nat)
    requires k < |rows| && rows[k].day.None?
    requires forall j :: 0 <= j < k ==> PassedOver(rows[j], today)
    ensures ChosenRow(rows, today) == Failure(BadDay(k))
  {
    ScanSkips(rows, today, 0, k);
  }

  /**
   * `r` is what drawing a sub-topic from `row` may give: one of its sub-topics
   * under its theme, or `NoSubTopics` exactly when it lists none.
   */
  predicate TopicFrom(row: Row, r: Result<Topic, ScheduleError>) {
    if SubTopics(row.subTopics) == [] then r == Failure(NoSubTopics)
    else r.Success? && r.value.theme == row.theme && r.value.subTopic in SubTopics(row.subTopics)
  }

  /** `random.choice(subtopics)` on the chosen row. */
  method ChooseTopic(row: Row) returns (r: Result<Topic, ScheduleError>)
    ensures TopicFrom(row, r)
  {
    var subs := SubTopics(row.subTopics);
    if subs == [] {
      return Failure(NoSubTopics);
    }
    assert subs[0] in subs;
    var sub :| sub in subs;
    return Success(Topic(row.theme, sub));
  }

  /**
   * `pick_today_theme_and_topic()`: scans the rows for today's day number
   * (weekday + 1) and returns the first match's theme and one of its sub-topics;
   * with no match, the first row's. A malformed day met on the way, an empty
   * file, or a chosen row without sub-topics is an error.
   */
  method PickTodayThemeAndTopic(rows: seq<Row>, weekday: Weekday) returns (r: Result<Topic, ScheduleError>)
    ensures match ChosenRow(rows, weekday + 1)
      case Failure(e) => r == Failure(e)
      case Success(row) => TopicFrom(row, r)
  {
    var today := weekday + 1;
    var i := 0;
    while i < |rows|
      invariant i <= |rows|
      invariant Scan(rows, today, 0) == Scan(rows, today, i)
    {
      match rows[i].day {
        case None =>
          return Failure(BadDay(i));
        case Some(d) =>
          if d == today {
            r := ChooseTopic(rows[i]);
            return;
          }
      }
      i := i + 1;
    }
    if rows == [] {
      return Failure(NoRows);
    }
    r := ChooseTopic(rows[0]);
  }
}
