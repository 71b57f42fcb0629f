/**
 * The label and score to word table of `DiscordBot`, the exceptions the bot
 * can raise while handling a message, and the ASCII `str.capitalize` the
 * reply text uses.
 */
module Words {
  import opened Wrappers
  import opened Categories

  /**
   * An exception escaping a handler, with the message or key it carries;
   * `ScorerFailure` is whatever the score engine does not catch.
   */
  datatype Raised = ValueError(message: string) | KeyError(key: string) | ScorerFailure

  type WordTable = map<int, string>

  /** `score_to_word`: the table entry for `score`, or "Invalid score.". */
  function ScoreToWord(table: WordTable, score: int): (r: Result<string, Raised>)
    ensures r.Ok? <==> score in table
    ensures r.Ok? ==> r.value == table[score]
    ensures r.Err? ==> r.error == ValueError("Invalid score.")
  {
    if score in table then Ok(table[score]) else Err(ValueError("Invalid score."))
  }

  const ValidLabels: seq<string> := ["grammar", "friendliness", "humor"]

  const WordTables: map<string, WordTable> := map[
    "grammar" := map[1 := "Appropriate", 0 := "Mediocre", -1 := "Bad"],
    "friendliness" := map[1 := "Friendly", 0 := "Natural", -1 := "Not friendly"],
    "humor" := map[1 := "Funny", 0 := "Mediocre", -1 := "Not funny"]
  ]

  /**
   * `get_corresponding_word`: fails loudly, with the source's messages, on a
   * label outside the three categories or a score outside {-1, 0, 1}.
   */
  function GetCorrespondingWord(name: string, score: int): (r: Result<string, Raised>)
    ensures r.Ok? <==> name in ValidLabels && (score == -1 || score == 0 || score == 1)
    ensures name !in ValidLabels ==> r == Err(ValueError("Invalid label."))
    ensures name in ValidLabels && !(score == -1 || score == 0 || score == 1) ==> r == Err(ValueError("Invalid score."))
    ensures r.Ok? ==> name in WordTables && score in WordTables[name] && r.value == WordTables[name][score]
  {
    if name !in ValidLabels then Err(ValueError("Invalid label."))
    else ScoreToWord(WordTables[name], score)
  }

  /** Every category has a word for every tri-state score. */
  lemma CategoryWordsTotal(c: Category, score: int)
    requires score == -1 || score == 0 || score == 1
    ensures GetCorrespondingWord(Label(c), score).Ok?
  {
  }

  /** Within one category the word names exactly one score. */
  lemma WordDeterminesScore(name: string, a: int, b: int)
    requires GetCorrespondingWord(name, a).Ok?
    requires GetCorrespondingWord(name, a) == GetCorrespondingWord(name, b)
    ensures a == b
  {
  }

  function UpperAscii(ch: char): char {
    if 'a' <= ch <= 'z' then (ch as int - 32) as char else ch
  }

  function LowerAscii(ch: char): char {
    if 'A' <= ch <= 'Z' then (ch as int + 32) as char else ch
  }

  /** `str.capitalize` on ASCII text: first letter upper case, the rest lower case. */
  function Capitalize(s: string): (r: string)
    ensures |r| == |s|
    ensures |s| > 0 ==> r[0] == UpperAscii(s[0])
    ensures forall i :: 0 < i < |s| ==> r[i] == LowerAscii(s[i])
  {
    if s == [] then [] else [UpperAscii(s[0])] + seq(|s| - 1, i requires 0 <= i < |s| - 1 => LowerAscii(s[i + 1]))
  }

  /** `Capitalize` is determined by its length and its characters. */
  lemma CapitalizeIs(s: string, t: string)
    requires |t| == |s| > 0 && t[0] == UpperAscii(s[0])
    requires forall i :: 0 < i < |s| ==> t[i] == LowerAscii(s[i])
    ensures Capitalize(s) == t
  {
  }
}
