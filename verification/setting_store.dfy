/**
 * The persisted settings store (stores/setting.ts): board rows, board columns
 * and AI difficulty, each changed only when the settings that would result
 * pass the customization schema.
 */
module SettingStore {
  import opened SettingSchema

  /** `defaultSettings`: a 3×3 board at medium difficulty, which the schema accepts. */
  function DefaultSettings(): (d: Customization)
    ensures SafeParse(d) == []
    ensures d.boardRows == 3.0 && d.boardCols == 3.0 && d.aiDifficulty == "medium"
  {
    Customization(3.0, 3.0, "medium")
  }

  class Store {
    var boardRows: real
    var boardCols: real
    var aiDifficulty: string

    /** `getSettings`: the three fields as one settings object. */
    function GetSettings(): (s: Customization)
      reads this
      ensures s.boardRows == boardRows && s.boardCols == boardCols && s.aiDifficulty == aiDifficulty
    {
      Customization(boardRows, boardCols, aiDifficulty)
    }

    /** The stored settings always pass the schema. */
    ghost predicate Valid()
      reads this
    {
      SafeParse(GetSettings()) == []
    }

    /** The store starts from the defaults. */
    constructor ()
      ensures GetSettings() == DefaultSettings() && Valid()
    {
      boardRows, boardCols, aiDifficulty := 3.0, 3.0, "medium";
    }

    /**
     * `setBoardRows`: the current settings with `rows` in place of the row
     * count are validated; on success only the row count changes, otherwise
     * nothing does. From valid settings this means: exactly when 3 ≤ rows ≤ 10.
     */
    method SetBoardRows(rows: real)
      modifies this
      ensures var merged := old(GetSettings()).(boardRows := rows);
        GetSettings() == if SafeParse(merged) == [] then merged else old(GetSettings())
      ensures old(Valid()) ==> Valid() && (boardRows == rows <==> 3.0 <= rows <= 10.0 || rows == old(boardRows))
    {
      var merged := GetSettings().(boardRows := rows);
      SafeParseAcceptsIffInRange(merged);
      SafeParseAcceptsIffInRange(GetSettings());
      if SafeParse(merged) == [] {
        boardRows := rows;
      }
    }

    /** `setBoardCols`: as `setBoardRows`, for the column count. */
    method SetBoardCols(cols: real)
      modifies this
      ensures var merged := old(GetSettings()).(boardCols := cols);
        GetSettings() == if SafeParse(merged) == [] then merged else old(GetSettings())
      ensures old(Valid()) ==> Valid() && (boardCols == cols <==> 3.0 <= cols <= 10.0 || cols == old(boardCols))
    {
      var merged := GetSettings().(boardCols := cols);
      SafeParseAcceptsIffInRange(merged);
      SafeParseAcceptsIffInRange(GetSettings());
      if SafeParse(merged) == [] {
        boardCols := cols;
      }
    }

    /** `setAiDifficulty`: as `setBoardRows`, for the difficulty. */
    method SetAiDifficulty(difficulty: string)
      modifies this
      ensures var merged := old(GetSettings()).(aiDifficulty := difficulty);
        GetSettings() == if SafeParse(merged) == [] then merged else old(GetSettings())
      ensures old(Valid()) ==> Valid()
      ensures old(Valid()) ==>
        (aiDifficulty == difficulty <==> difficulty in Difficulties || difficulty == old(aiDifficulty))
    {
      var merged := GetSettings().(aiDifficulty := difficulty);
      SafeParseAcceptsIffInRange(merged);
      SafeParseAcceptsIffInRange(GetSettings());
      if SafeParse(merged) == [] {
        aiDifficulty := difficulty;
      }
    }

    /**
     * `updateSettings`: all three fields at once when `s` passes the schema,
     * nothing otherwise; afterwards `getSettings` returns `s` exactly.
     */
    method UpdateSettings(s: Customization)
      modifies this
      ensures GetSettings() == if SafeParse(s) == [] then s else old(GetSettings())
      ensures old(Valid()) ==> Valid()
    {
      if SafeParse(s) == [] {
        boardRows, boardCols, aiDifficulty := s.boardRows, s.boardCols, s.aiDifficulty;
      }
    }

    /** `resetSettings`: back to the defaults; resetting twice is the same as once. */
    method ResetSettings()
      modifies this
      ensures GetSettings() == DefaultSettings() && Valid()
    {
      boardRows, boardCols, aiDifficulty := 3.0, 3.0, "medium";
    }

    /**
     * Rehydration: the stored settings are loaded, and if they fail the schema
     * the store is reset to the defaults, so the store is valid afterwards.
     */
    method Rehydrate(stored: Customization)
      modifies this
      ensures GetSettings() == if SafeParse(stored) == [] then stored else DefaultSettings()
      ensures Valid()
    {
      boardRows, boardCols, aiDifficulty := stored.boardRows, stored.boardCols, stored.aiDifficulty;
      if SafeParse(GetSettings()) != [] {
        ResetSettings();
      }
    }
  }
}
