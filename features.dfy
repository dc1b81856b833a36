/** Lead feature engineering (`engineer_features`): a high-intent flag from
    the tag, a heuristic score from the last activity, and their product
    with the time spent on the website, added to a copy of the frame. */
module Features {
  import opened Wrappers
  import opened Table

  const TagsColumn: string := "Tags"
  const LastActivityColumn: string := "Last Activity"
  const TotalTimeColumn: string := "Total Time Spent on Website"
  const HighIntentColumn: string := "Has_High_Intent_Tag"
  const ActivityScoreColumn: string := "Activity_Score"
  const InteractionColumn: string := "Time_Activity_Interaction"

  /** The sentinel a missing tag or activity is filled with. */
  const Unknown: string := "Unknown"

  /** The tags that signal high intent. */
  const HighIntentTags: seq<string> := [
    "Will revert after reading the email",
    "Closed by Horizzon",
    "Lost to EINS",
    "Interested in other courses"
  ]

  /** The heuristic score of each last activity. */
  const ActivityScores: map<string, int> := map[
    "SMS Sent" := 10,
    "Email Opened" := 8,
    "Page Visited on Website" := 6,
    "Olark Chat Conversation" := 5,
    "Converted to Lead" := 4,
    "Email Bounced" := -2,
    "Unreachable" := -2
  ]

  /** The columns the derivation adds. */
  const DerivedColumns: set<string> := {HighIntentColumn, ActivityScoreColumn, InteractionColumn}

  /** The columns the derivation reads and writes back filled or coerced. */
  const CleanedColumns: set<string> := {TagsColumn, LastActivityColumn, TotalTimeColumn}

  /** `fillna('Unknown')` on a tag or activity cell. */
  function FillUnknown(c: Cell): (r: Cell)
    ensures !IsMissing(r)
    ensures IsMissing(c) ==> r == Text(Unknown)
    ensures !IsMissing(c) ==> r == c
  {
    FillMissing(c, Text(Unknown))
  }

  /** 1 when the tag is one of the allow-listed strings, else 0. */
  function HighIntentFlag(tag: Cell): (r: real)
    ensures r == 0.0 || r == 1.0
    ensures r == 1.0 <==> tag.Text? && tag.s in HighIntentTags
  {
    if tag.Text? && tag.s in HighIntentTags then 1.0 else 0.0
  }

  /** `activity_scores` looked up with `map`, then `fillna(0)`. */
  function ActivityScore(activity: Cell): (r: real)
    ensures activity.Text? && activity.s in ActivityScores ==> r == ActivityScores[activity.s] as real
    ensures !(activity.Text? && activity.s in ActivityScores) ==> r == 0.0
    ensures -2.0 <= r <= 10.0
  {
    if activity.Text? && activity.s in ActivityScores then ActivityScores[activity.s] as real else 0.0
  }

  /** `pd.to_numeric(errors='coerce').fillna(0)` on one cell: a number is
      kept, a text is parsed (`parse` is pandas' parser), anything that does
      not parse and any missing value become 0. */
  function CoerceNumber(c: Cell, parse: string -> Option<real>): (r: real)
    ensures c.Number? ==> r == c.v
    ensures IsMissing(c) ==> r == 0.0
    ensures c.Text? ==> r == parse(c.s).GetOr(0.0)
  {
    match c
    case Number(v) => v
    case Text(s) => parse(s).GetOr(0.0)
    case NaN => 0.0
    case Null => 0.0
  }

  /** The three columns `engineer_features` reads are all present. */
  predicate HasInputColumns(keys: set<string>) {
    TagsColumn in keys && LastActivityColumn in keys && TotalTimeColumn in keys
  }

  /** `engineer_features` on one row: the tag and the activity filled with
      "Unknown", the time coerced to a number, and the three derived
      columns computed from those cleaned values; every other column is
      passed through. */
  function EngineerRow(row: Row, parse: string -> Option<real>): (r: Row)
    requires HasInputColumns(row.Keys)
    ensures r.Keys == row.Keys + DerivedColumns
    ensures forall k :: k in row && k !in CleanedColumns + DerivedColumns ==> r[k] == row[k]
    ensures r[TagsColumn] == FillUnknown(row[TagsColumn])
    ensures r[LastActivityColumn] == FillUnknown(row[LastActivityColumn])
    ensures r[TotalTimeColumn] == Number(CoerceNumber(row[TotalTimeColumn], parse))
    ensures r[HighIntentColumn] == Number(HighIntentFlag(r[TagsColumn]))
    ensures r[ActivityScoreColumn] == Number(ActivityScore(r[LastActivityColumn]))
    ensures r[InteractionColumn] == Number(r[TotalTimeColumn].v * r[ActivityScoreColumn].v)
  {
    var tags := FillUnknown(row[TagsColumn]);
    var activity := FillUnknown(row[LastActivityColumn]);
    var time := CoerceNumber(row[TotalTimeColumn], parse);
    var score := ActivityScore(activity);
    row[TagsColumn := tags]
       [HighIntentColumn := Number(HighIntentFlag(tags))]
       [LastActivityColumn := activity]
       [ActivityScoreColumn := Number(score)]
       [TotalTimeColumn := Number(time)]
       [InteractionColumn := Number(time * score)]
  }

  /** `engineer_features(df)`: a new frame with the same rows, each
      engineered, and the three derived columns added. Reading a column the
      frame lacks raises `KeyError`, reported here with the column's name;
      the columns are read in the order Tags, Last Activity, Total Time.
      The caller's frame is a value and cannot change. */
  function EngineerFeatures(f: Frame, parse: string -> Option<real>): (r: Result<Frame, string>)
    requires WellFormed(f)
    ensures r.Failure? <==> !HasInputColumns(f.columns)
    ensures r.Failure? ==> r.error == (if TagsColumn !in f.columns then TagsColumn
                                      else if LastActivityColumn !in f.columns then LastActivityColumn
                                      else TotalTimeColumn)
    ensures r.Success? ==> && WellFormed(r.value)
                           && r.value.columns == f.columns + DerivedColumns
                           && |r.value.rows| == |f.rows|
                           && forall i :: 0 <= i < |f.rows| ==> r.value.rows[i] == EngineerRow(f.rows[i], parse)
  {
    if TagsColumn !in f.columns then Failure(TagsColumn)
    else if LastActivityColumn !in f.columns then Failure(LastActivityColumn)
    else if TotalTimeColumn !in f.columns then Failure(TotalTimeColumn)
    else
      var rows := seq(|f.rows|, i requires 0 <= i < |f.rows| => EngineerRow(f.rows[i], parse));
      Success(Frame(f.columns + DerivedColumns, rows))
  }

  /** A missing tag is filled with "Unknown", which is not allow-listed, so
      the row is never flagged high-intent; a missing activity scores 0 and
      so does its interaction term. */
  lemma MissingValuesScoreZero(row: Row, parse: string -> Option<real>)
    requires HasInputColumns(row.Keys)
    ensures IsMissing(row[TagsColumn]) ==> EngineerRow(row, parse)[HighIntentColumn] == Number(0.0)
    ensures IsMissing(row[LastActivityColumn]) ==>
              && EngineerRow(row, parse)[ActivityScoreColumn] == Number(0.0)
              && EngineerRow(row, parse)[InteractionColumn] == Number(0.0)
  {
    assert Unknown !in HighIntentTags;
    assert Unknown !in ActivityScores;
  }

  /** Engineering an engineered row changes nothing: the cleaned columns are
      already filled and numeric, so the derived columns come out the same. */
  lemma EngineerRowIdempotent(row: Row, parse: string -> Option<real>)
    requires HasInputColumns(row.Keys)
    ensures EngineerRow(EngineerRow(row, parse), parse) == EngineerRow(row, parse)
  {
    var once := EngineerRow(row, parse);
    var twice := EngineerRow(once, parse);
    assert twice.Keys == once.Keys;
    forall k | k in once ensures twice[k] == once[k] {
    }
  }
}
