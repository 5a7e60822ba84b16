/**
 * The customization schema (validation/setting.ts): board rows and columns are
 * numbers between 3 and 10 inclusive, and the AI difficulty is one of three
 * names. The numeric checks are bounds only, so 3.5 rows passes.
 */
module SettingSchema {

  /** A settings object as the schema sees it. */
  datatype Customization = Customization(boardRows: real, boardCols: real, aiDifficulty: string)

  /** One validation failure: the field it concerns and its message. */
  datatype Issue = Issue(path: string, message: string)

  /** The two bound checks of one board dimension; both run, and at most one can fail. */
  function BoundIssues(field: string, value: real, tooFew: string, tooMany: string): (issues: seq<Issue>)
    ensures issues == [] <==> 3.0 <= value <= 10.0
    ensures |issues| <= 1
    ensures forall i :: 0 <= i < |issues| ==> issues[i].path == field
    ensures value < 3.0 ==> issues == [Issue(field, tooFew)]
    ensures value > 10.0 ==> issues == [Issue(field, tooMany)]
  {
    (if value < 3.0 then [Issue(field, tooFew)] else []) +
    (if value > 10.0 then [Issue(field, tooMany)] else [])
  }

  const Difficulties: set<string> := {"easy", "medium", "hard"}

  function RowIssues(rows: real): seq<Issue>
  {
    BoundIssues("boardRows", rows, "Board must have at least 3 rows", "Board cannot have more than 10 rows")
  }

  function ColIssues(cols: real): seq<Issue>
  {
    BoundIssues("boardCols", cols, "Board must have at least 3 columns", "Board cannot have more than 10 columns")
  }

  function DifficultyIssues(difficulty: string): seq<Issue>
  {
    if difficulty in Difficulties then [] else [Issue("aiDifficulty", "Please select a valid AI difficulty")]
  }

  /** `customizationSchema.safeParse`: every failed check, in field order. */
  function SafeParse(s: Customization): (issues: seq<Issue>)
    ensures |issues| <= 3
    ensures forall i, j :: 0 <= i < j < |issues| ==> issues[i].path != issues[j].path
  {
    RowIssues(s.boardRows) + ColIssues(s.boardCols) + DifficultyIssues(s.aiDifficulty)
  }

  /** The bounds the schema enforces, stated directly. */
  predicate InRange(s: Customization)
  {
    3.0 <= s.boardRows <= 10.0 && 3.0 <= s.boardCols <= 10.0 &&
    (s.aiDifficulty == "easy" || s.aiDifficulty == "medium" || s.aiDifficulty == "hard")
  }

  /**
   * The schema accepts a settings object exactly when rows and columns lie in
   * [3, 10] and the difficulty is 'easy', 'medium' or 'hard'; every issue it
   * reports names a field whose check failed.
   */
  lemma SafeParseAcceptsIffInRange(s: Customization)
    ensures SafeParse(s) == [] <==> InRange(s)
    ensures forall i :: 0 <= i < |SafeParse(s)| ==>
      (SafeParse(s)[i].path == "boardRows" && !(3.0 <= s.boardRows <= 10.0)) ||
      (SafeParse(s)[i].path == "boardCols" && !(3.0 <= s.boardCols <= 10.0)) ||
      (SafeParse(s)[i].path == "aiDifficulty" && s.aiDifficulty !in Difficulties)
  {
    var r, c, d := RowIssues(s.boardRows), ColIssues(s.boardCols), DifficultyIssues(s.aiDifficulty);
    assert SafeParse(s) == r + c + d;
    forall i | 0 <= i < |SafeParse(s)|
      ensures (SafeParse(s)[i].path == "boardRows" && !(3.0 <= s.boardRows <= 10.0)) ||
        (SafeParse(s)[i].path == "boardCols" && !(3.0 <= s.boardCols <= 10.0)) ||
        (SafeParse(s)[i].path == "aiDifficulty" && s.aiDifficulty !in Difficulties)
    {
      if i < |r| {
        assert SafeParse(s)[i] == r[i];
      } else if i < |r| + |c| {
        assert SafeParse(s)[i] == c[i - |r|];
      } else {
        assert SafeParse(s)[i] == d[i - |r| - |c|];
      }
    }
  }
}
