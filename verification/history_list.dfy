/**
 * The history list's text rules (components/history-list.tsx): the game
 * duration shown as minutes and two-digit seconds, and the winner label and
 * its colour class.
 */
module HistoryList {
  import opened Wrappers

  /** The decimal digit character for 0..9. */
  function DigitChar(d: nat): char
    requires d < 10
  {
    "0123456789"[d]
  }

  /** A string made only of decimal digits. */
  predicate AllDigits(s: string)
  {
    forall i :: 0 <= i < |s| ==> IsDigit(s[i])
  }

  function DigitValue(c: char): nat
    requires IsDigit(c)
  {
    (c as int - '0' as int) as nat
  }

  /** `n.toString()` for a whole number: its decimal digits, most significant first, no leading zero. */
  function NatToString(n: nat): (s: string)
    ensures |s| >= 1
    ensures AllDigits(s)
    ensures n < 10 <==> |s| == 1
    ensures |s| > 1 ==> s[0] != '0'
  {
    if n < 10 then [DigitChar(n)] else NatToString(n / 10) + [DigitChar(n % 10)]
  }

  /** The value of a non-empty string of decimal digits. */
  function ParseNat(s: string): nat
    requires |s| >= 1 && AllDigits(s)
  {
    if |s| == 1 then DigitValue(s[0])
    else ParseNat(s[..|s| - 1]) * 10 + DigitValue(s[|s| - 1])
  }

  /** Reading back the digits `toString` writes gives the number again. */
  lemma {:induction false} ParseNatToString(n: nat)
    ensures ParseNat(NatToString(n)) == n
  {
    var s := NatToString(n);
    if n >= 10 {
      ParseNatToString(n / 10);
      assert s[..|s| - 1] == NatToString(n / 10);
    }
  }

  /** `padStart(2, '0')`. */
  function PadStart2(s: string): (p: string)
    ensures |s| >= 2 ==> p == s
    ensures |s| < 2 ==> |p| == 2 && p[2 - |s|..] == s
  {
    if |s| >= 2 then s else seq(2 - |s|, _ => '0') + s
  }

  /**
   * `formatDuration`: whole minutes, a colon, then the remaining seconds
   * zero-padded to two digits.
   */
  function FormatDuration(seconds: nat): (text: string)
    ensures |text| >= 4 && text[|text| - 3] == ':'
    ensures text[..|text| - 3] == NatToString(seconds / 60)
    ensures forall i :: |text| - 2 <= i < |text| ==> IsDigit(text[i])
  {
    NatToString(seconds / 60) + ":" + PadStart2(NatToString(seconds % 60))
  }

  /**
   * The inverse reading of a duration: the minutes before the colon, the two
   * seconds digits after it; `None` for text of any other shape.
   */
  function ParseDuration(text: string): Option<nat>
  {
    if |text| < 4 || text[|text| - 3] != ':' then None
    else if !AllDigits(text[..|text| - 3]) then None
    else if !IsDigit(text[|text| - 2]) || !IsDigit(text[|text| - 1]) then None
    else
      var secs := DigitValue(text[|text| - 2]) * 10 + DigitValue(text[|text| - 1]);
      if secs >= 60 then None else Some(ParseNat(text[..|text| - 3]) * 60 + secs)
  }

  /** The padded seconds field of a value below 60 holds exactly that value. */
  lemma PaddedSeconds(r: nat)
    requires r < 60
    ensures var p := PadStart2(NatToString(r));
      |p| == 2 && IsDigit(p[0]) && IsDigit(p[1]) && DigitValue(p[0]) * 10 + DigitValue(p[1]) == r
  {
    var s := NatToString(r);
    if r >= 10 {
      assert s == NatToString(r / 10) + [DigitChar(r % 10)];
      assert NatToString(r / 10) == [DigitChar(r / 10)];
    }
  }

  /**
   * Every duration's text reads back as the same number of seconds: the
   * minutes are `seconds div 60`, the two seconds digits `seconds mod 60`, and
   * minutes × 60 + seconds gives the duration. So distinct durations show
   * distinct texts.
   */
  lemma {:induction false} DurationRoundTrip(seconds: nat)
    ensures ParseDuration(FormatDuration(seconds)) == Some(seconds)
  {
    PaddedSeconds(seconds % 60);
    ParseNatToString(seconds / 60);
    ParseJoined(NatToString(seconds / 60), PadStart2(NatToString(seconds % 60)));
  }

  /** Minutes digits, a colon and two seconds digits below 60 read back as minutes × 60 + seconds. */
  lemma {:induction false} ParseJoined(m: string, p: string)
    requires |m| >= 1 && AllDigits(m)
    requires |p| == 2 && IsDigit(p[0]) && IsDigit(p[1]) && DigitValue(p[0]) * 10 + DigitValue(p[1]) < 60
    ensures ParseDuration(m + ":" + p) == Some(ParseNat(m) * 60 + DigitValue(p[0]) * 10 + DigitValue(p[1]))
  {
    var text := m + ":" + p;
    var n := |m|;
    assert |text| == n + 3;
    assert text[..n] == m;
    assert text[n] == ':';
    assert text[n + 1] == p[0];
    assert text[n + 2] == p[1];
  }

  /**
   * `getWinnerDisplay`: the status is looked at first ('draw', then
   * 'abandoned'), then a missing winner means 'In Progress'; only then is the
   * winner named, and a winner outside 'st', 'nd', 'bot' is shown as it is.
   */
  function WinnerDisplay(winner: Option<string>, gameStatus: string): (text: string)
    ensures gameStatus == "draw" ==> text == "Draw"
    ensures gameStatus != "draw" && gameStatus == "abandoned" ==> text == "Abandoned"
    ensures gameStatus != "draw" && gameStatus != "abandoned" && !Truthy(winner) ==> text == "In Progress"
    ensures gameStatus != "draw" && gameStatus != "abandoned" && Truthy(winner) ==>
      text == (if winner.value == "st" then "Player X"
        else if winner.value == "nd" then "Player O"
        else if winner.value == "bot" then "Bot"
        else winner.value)
  {
    if gameStatus == "draw" then "Draw"
    else if gameStatus == "abandoned" then "Abandoned"
    else if !Truthy(winner) then "In Progress"
    else match winner.value
      case "st" => "Player X"
      case "nd" => "Player O"
      case "bot" => "Bot"
      case _ => winner.value
  }

  /** `getWinnerColor`: the same decision order as the label, one class per outcome. */
  function WinnerColor(winner: Option<string>, gameStatus: string): (cls: string)
    ensures cls == "text-warning" <==> gameStatus == "draw"
    ensures cls == "text-gray-400" <==> gameStatus != "draw" && gameStatus == "abandoned"
    ensures cls == "text-blue-400" <==> gameStatus != "draw" && gameStatus != "abandoned" && !Truthy(winner)
  {
    if gameStatus == "draw" then "text-warning"
    else if gameStatus == "abandoned" then "text-gray-400"
    else if !Truthy(winner) then "text-blue-400"
    else match winner.value
      case "st" => "text-primary"
      case "nd" => "text-secondary"
      case "bot" => "text-red-400"
      case _ => "text-gray-300"
  }

  /** The branch of the shared decision table a (winner, status) pair falls into. */
  datatype Branch = DrawBranch | AbandonedBranch | InProgressBranch | StBranch | NdBranch | BotBranch | OtherBranch

  function BranchOf(winner: Option<string>, gameStatus: string): Branch
  {
    if gameStatus == "draw" then DrawBranch
    else if gameStatus == "abandoned" then AbandonedBranch
    else if !Truthy(winner) then InProgressBranch
    else if winner.value == "st" then StBranch
    else if winner.value == "nd" then NdBranch
    else if winner.value == "bot" then BotBranch
    else OtherBranch
  }

  /**
   * Label and colour always come from the same branch: each branch's colour
   * appears only with that branch's label, so a row never shows, say, the
   * 'Draw' colour beside a player's name.
   */
  lemma ColorFollowsDisplay(winner: Option<string>, gameStatus: string)
    ensures var d, c := WinnerDisplay(winner, gameStatus), WinnerColor(winner, gameStatus);
      match BranchOf(winner, gameStatus)
      case DrawBranch => d == "Draw" && c == "text-warning"
      case AbandonedBranch => d == "Abandoned" && c == "text-gray-400"
      case InProgressBranch => d == "In Progress" && c == "text-blue-400"
      case StBranch => d == "Player X" && c == "text-primary"
      case NdBranch => d == "Player O" && c == "text-secondary"
      case BotBranch => d == "Bot" && c == "text-red-400"
      case OtherBranch => d == winner.value && c == "text-gray-300"
  {
  }

  /**
   * The label checks the status, not the winner, for a draw: a completed game
   * whose stored winner is 'draw' is labelled with the raw text 'draw' in the
   * fallback colour.
   */
  lemma DrawWinnerShownVerbatim()
    ensures WinnerDisplay(Some("draw"), "completed") == "draw"
    ensures WinnerColor(Some("draw"), "completed") == "text-gray-300"
  {
  }
}
