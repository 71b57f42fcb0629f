# ChatWizard score pipeline and ledger, modelled in Dafny

ChatWizard is a Discord bot. For every message it scores three behaviour categories (grammar, friendliness and humor) by asking a language model. It adds the scores to a per-user running total that is kept in a JSON file, and it answers three commands: `!help`, `!me` and `!reset`. This project models the two parts of the bot that hold logic:

- **The score engine** (`OpenAIHandler`). For each category it builds the prompt from the category's template followed by the message. It reads the model's reply with `int()`, rescales the value with `((v/5)-1)*10`, bounds-checks it against [-10, 10] and buckets it. An authentication failure, a non-numeric reply or an out-of-range value becomes the sentinel -1001. Any other exception escapes: another client error, `int(None)`'s TypeError, or the OverflowError of `v/5` on a huge reply. The completion service is an abstract oracle from prompt text to the outcome of `int()` on its reply: `AuthenticationFailure`, `NonNumeric`, `Numeric(v)` or `Uncaught`.
- **The message handler and ledger** (`DiscordBot`). The bot is a state made of the in-memory dictionary `user_scores` and the file it is dumped to. Each `on_message` call is one atomic step from a state and a message to the next state and a reply. The memory keys are modelled exactly as the code produces them:
  - `update_scores` and `!reset` insert the raw integer `author.id` (`Key.IntId`).
  - Loading the file yields string keys (`Key.StrId`).
  - `!me` looks up `str(author.id)`.
  - `json.dump` writes an integer key `n` as `str(n)` (`Ledger.Persist`).

Modules: `Wrappers` (Option, Result), `Decimal` (Python `str()` of an int, and its left inverse), `Categories` (the category enumeration and one-value-per-category records), `Scoring` (`scripts/openai_handler.py`), `Words` (the score-to-word table), `Ledger` (memory, file, `update_scores`, `save_updated_scores`, load and save), `Bot` (`on_message`, `scan_message`, command dispatch) and `Scenarios` (concrete runs).

Both findings below are corrected behind one parameter. `Scoring.Variant` is either `AsWritten` or `Intended`. `Bot.Handle` and `Scoring.GetMessageScore` take it. With `AsWritten` the model follows the code. With `Intended` it uses the corrected bucketing and keys every write by `str(id)`.

## Model

| member | source | states |
|---|---|---|
| `Decimal.IntToString` | scripts/discord_bot.py:69 | `str(id)` is non-empty. It starts with '-' exactly for negative ids and is all digits otherwise. |
| `Decimal.ParseIntToString` | scripts/discord_bot.py:69 | Reading back `str(n)` gives `n`, so the key string determines the id. |
| `Decimal.IntToStringInjective` | scripts/discord_bot.py:69 | Distinct user ids never share a key string in memory lookups or in the file. |
| `Scoring.Rescale` | scripts/openai_handler.py:105-109 | The rescaled value equals `((v/5)-1)*10` in exact arithmetic. It lies in [-10, 10] exactly when 0 <= v <= 10, and it is <= 0 exactly when v <= 5. |
| `Scoring.Normalize` | scripts/openai_handler.py:105-123 | For a reply that raises nothing uncaught, the result is always -1001, -1 or 1, never 0. It is -1001 exactly for an authentication failure, a non-numeric reply or v outside 0..10. It is -1 exactly for v in 0..5 and 1 exactly for v in 6..10. |
| `Scoring.NormalizeIntended` | scripts/openai_handler.py:118-123 | Corrected bucketing with the range [-1, 0, 1] the docstrings promise: 0 exactly for v = 5, -1 for 0..4, 1 for 6..10, and -1001 otherwise as before. |
| `Scoring.NormalizeMonotone` | scripts/openai_handler.py:118-123 | For valid replies 0 <= v <= w <= 10, the bucket of v is at most the bucket of w, in both variants. |
| `Scoring.ScaledZeroIsNegative` | scripts/openai_handler.py:118-123 | The reply 5 rescales to exactly 0, and the code as written returns -1 for it. The corrected bucketing returns 0. |
| `Scoring.Prompt` | scripts/openai_handler.py:90-93 | The prompt is the template followed verbatim by the message content. |
| `Scoring.CategoryScore` | scripts/openai_handler.py:80-123 | The body shared by the three category scorers. It raises (`None`) exactly when the reply is an uncaught client failure or `v/5` overflows, that is when |v| >= 5·(2^1024 − 2^970). Otherwise it returns -1001 exactly when the reply is not an integer in 0..10. As written, it returns -1 exactly for replies 0..5 and 1 exactly for 6..10, never 0. Corrected, it returns -1 for 0..4, 0 exactly for 5 and 1 for 6..10. |
| `Scoring.GetMessageScore` | scripts/openai_handler.py:74-78 | Raises exactly when one of the three replies makes its scorer raise. Otherwise every category's score is `CategoryScore` of that category's template, so the three scorers differ only in the template. As written, no category scores 0. |
| `Scoring.CategoriesIndependent` | scripts/openai_handler.py:74-78 | A category's score depends only on the reply to its own prompt, so a sentinel in one category leaves the others unchanged. |
| `Scoring.DefaultScores` | scripts/openai_handler.py:55-62 | Every category starts at 10. No request is made. |
| `Words.ScoreToWord` | scripts/discord_bot.py:214-228 | The lookup succeeds exactly when the score is in the table, with that entry. Otherwise it raises ValueError("Invalid score."). |
| `Words.GetCorrespondingWord` | scripts/discord_bot.py:230-254 | Returns a word exactly when the label is grammar, friendliness or humor and the score is -1, 0 or 1. The word is that label's table entry for the score: grammar Bad/Mediocre/Appropriate, friendliness Not friendly/Natural/Friendly, humor Not funny/Mediocre/Funny. A bad label raises "Invalid label." A bad score under a good label raises "Invalid score." |
| `Words.CategoryWordsTotal` | scripts/discord_bot.py:244-249 | Each category has a word for each of -1, 0 and 1. |
| `Words.WordDeterminesScore` | scripts/discord_bot.py:245-249 | Within one category, a word names exactly one score. |
| `Words.Capitalize` | scripts/discord_bot.py:115 | `str.capitalize` on ASCII text: the length is unchanged, the first letter is upper-cased and the rest are lower-cased. |
| `Ledger.Persist` | scripts/discord_bot.py:189-195 | The file after `json.dump` and reading it back. Its keys are exactly the string keys of memory plus `str(n)` for each integer key `n`. An integer key's record lands at `str(n)` and wins over an equal string key. Every other string key keeps its record. |
| `Ledger.Load` | scripts/discord_bot.py:176-187 | Memory after a load has only string keys: exactly the file's keys, with the file's records. |
| `Ledger.PersistLoad` | scripts/discord_bot.py:176-195 | Dumping what was just loaded rewrites the same file. |
| `Ledger.LoadPersist` | scripts/discord_bot.py:176-195 | For string-keyed memory, loading what was dumped gives back the same memory. |
| `Ledger.PersistSet` | scripts/discord_bot.py:189-195 | Writing one record under a key that is not shadowed changes the file at that key's string and nowhere else. |
| `Ledger.SaveUserScores` | scripts/discord_bot.py:189-195 | Memory is unchanged, and afterwards the file is the dump of memory. |
| `Ledger.SaveUpdatedScores` | scripts/discord_bot.py:163-174 | Each of the user's totals grows by exactly its increment. No key is added or removed, other users keep their records, and the file is rewritten from memory. |
| `Ledger.UpdateScores` | scripts/discord_bot.py:149-161 | An absent user gets 10 plus each increment. A present user gets old total plus increment. Other users are unchanged, and the file is rewritten from memory. |
| `Ledger.ResetScores` | scripts/discord_bot.py:96-99 | The user's record becomes the defaults whatever it held. Other users are unchanged, and the file is rewritten from memory. |
| `Ledger.ResetIdempotent` | scripts/discord_bot.py:96-99 | Resetting twice leaves the same memory and file as resetting once. |
| `Ledger.UpdatePersisted` | scripts/discord_bot.py:158-174 | Seen in the file, the user's entry becomes their prior totals plus the increments, and no other entry changes. |
| `Ledger.ResetPersisted` | scripts/discord_bot.py:96-99 | Seen in the file, the user's entry becomes the defaults, and no other entry changes. |
| `Bot.PrefixesExclusive` | scripts/discord_bot.py:58-110 | No text starts with two of `!help`, `!me` and `!reset`. |
| `Bot.ParseCommand` | scripts/discord_bot.py:58-110 | The dispatch chain picks `!help`, `!me` or `!reset` exactly when the text starts with that prefix. It picks scoring exactly when the text starts with none of them. |
| `Bot.ScanMessage` | scripts/discord_bot.py:144-147 | A message is handled exactly when its author is not the bot itself. |
| `Bot.RenderLine` | scripts/discord_bot.py:113-120 | A category's reply line is produced exactly for -1001, -1, 0 or 1. Any other score raises "Invalid score." A sentinel is shown as `<Label>:** Not calculated` and never as a number. A valid score is shown as `<Label>: **<word>**` with the table's word for that label. |
| `Bot.RenderScores` | scripts/discord_bot.py:112-120 | The scoring reply text is produced exactly when all three scores can be rendered. It is the grammar, friendliness and humor lines in that order. Otherwise it raises "Invalid score." |
| `Bot.Substitute` | scripts/discord_bot.py:113-118 | A sentinel score becomes exactly 0, so no increment is -1001. Every score that is not a sentinel passes through unchanged. |
| `Bot.StatsTextInjective` | scripts/discord_bot.py:80-85 | The `!me` text determines the three totals it shows: equal texts come from equal totals. Each total is printed with `str()` and closed by `**`, which no number contains. |
| `Bot.HandleMe` | scripts/discord_bot.py:68-94 | The file is never written. When memory lacks `str(id)` the reply is "not found" and the state is unchanged. When memory has it, memory becomes the reloaded file, whatever it held before. |
| `Bot.HandleReset` | scripts/discord_bot.py:96-108 | The reply is the confirmation. The write key's record becomes the defaults, and the file is the dump of memory. |
| `Bot.HandleScore` | scripts/discord_bot.py:110-131 | A raise leaves the state unchanged. When a reply makes the score engine raise, the handler raises. A sent reply means no reply raised. The state then follows `update_scores` with the sentinel-free increments. The reply is a blue embed titled with the message text, whose description is the rendered grammar, friendliness and humor lines of the engine's scores. |
| `Bot.Handle` | scripts/discord_bot.py:43-131 | `on_message` either leaves the file alone or rewrites it as the dump of memory. A raise never touches the file. |
| `Bot.HelpReplies` | scripts/discord_bot.py:58-66 | `!help` replies with the command list and changes nothing. |
| `Bot.ScorerFailureRaises` | scripts/openai_handler.py:111-116 | An exception the scorers do not catch escapes `on_message` before `update_scores`, so the ledger is untouched. |
| `Bot.ScoringNeverRaises` | scripts/discord_bot.py:113-116 | Once no reply makes the score engine raise, every score it returns has a word, so the scoring branch sends its reply. |
| `Bot.ScoringStep` | scripts/discord_bot.py:110-122 | A scored message replies and accumulates its increments under the author's write key. |
| `Bot.SelfMessageIgnored` | scripts/discord_bot.py:53-54 | A message from the bot itself changes nothing and gets no reply. |
| `Bot.OnlyScoringConsultsOracle` | scripts/discord_bot.py:58-111 | Outside the scoring branch the result is the same for every oracle, so the completion service is never consulted there. |
| `Bot.HandlePreservesConsistency` | scripts/discord_bot.py:43-131 | From a state whose file is the dump of memory, every message leads to such a state. A message raises exactly when it reaches the scoring branch and some reply makes the engine raise. |
| `Bot.IncrementsAreTernary` | scripts/discord_bot.py:113-122 | The ledger only ever receives -1, 0 or 1. A sentinel score becomes 0, so that category's total is unchanged. |
| `Bot.ScoringAccumulates` | scripts/discord_bot.py:110-122 | A scored message sets the author's file entry to the prior totals plus the increments. The prior totals are the defaults when memory lacks the write key. Every other file entry is unchanged. |
| `Bot.ResetInstallsDefaults` | scripts/discord_bot.py:96-99 | `!reset` replies with the confirmation and sets the author's file entry to the defaults. Every other file entry is unchanged. |
| `Bot.ResetTwiceIsResetOnce` | scripts/discord_bot.py:96-99 | Two `!reset` messages in a row leave the same state as one. |
| `Bot.MeLooksUpStringKey` | scripts/discord_bot.py:68-85 | `!me` answers "not found" exactly when memory lacks `str(id)`, and then nothing changes. Otherwise memory is reloaded and the reply shows the file's totals. |
| `Bot.MeMissesSessionScores` | scripts/discord_bot.py:69 | As written, a user scored in this session (integer key only) gets "not found" although the file has their record. |
| `Bot.ScoringAfterLoadRestarts` | scripts/discord_bot.py:158-159 | As written, right after a load every user's next scored message writes 10 plus the increment to their file entry, whatever the file held. |
| `Bot.IntendedStaysNamed` | scripts/discord_bot.py:98 | Corrected: with string keys for every write, memory stays string-keyed. |
| `Bot.IntendedKeepsTotals` | scripts/discord_bot.py:69-80 | Corrected: `!me` says "not found" exactly when the file lacks the user. A scored message continues the file's totals. |
| `Scenarios.NewUserAccumulates` | scripts/discord_bot.py:158-173 | A new user whose message scores {1, 0, -1} ends with {11, 10, 9} in the file. |
| `Scenarios.ReplySevenIsPositive` | scripts/openai_handler.py:105-123 | The reply 7 rescales to 4 and scores +1. |
| `Scenarios.WordExamples` | scripts/discord_bot.py:244-254 | grammar/1 gives "Appropriate" and friendliness/-1 gives "Not friendly". grammar/2 and the label "tone" raise. |
| `Scenarios.NonNumericNotCalculated` | scripts/discord_bot.py:113-120 | A non-numeric reply in every category gives three "Not calculated" lines and increments of 0. |
| `Scenarios.UncaughtErrorRaises` | scripts/openai_handler.py:95-116 | A client error other than AuthenticationError on a scored message raises and leaves the state as it was. |
| `Scenarios.HugeReplyRaises` | scripts/openai_handler.py:105-106 | A reply of 5·(2^1024 − 2^970) overflows `v/5`. The OverflowError escapes and the state is unchanged. |
| `Scenarios.SessionScoresNotFound` | scripts/discord_bot.py:69 | As written: user 7 sends "hello" and then "!me" on a fresh ledger. The file holds "7", yet the reply is "not found". |
| `Scenarios.SessionScoresFoundIntended` | scripts/discord_bot.py:69 | Corrected: the same two messages find the record. |
| `Scenarios.RestartLosesTotals` | scripts/discord_bot.py:158-161 | As written: after a restart with {15, 15, 15} for user 7, a +1 message leaves {11, 11, 11}. |
| `Scenarios.RestartKeepsTotalsIntended` | scripts/discord_bot.py:158-161 | Corrected: the same message leaves {16, 16, 16}. |

## Left out

- The Discord client is left out as transport and bootstrap: connection, `on_ready`, `bot.run`, `async` interleaving, `scripts/main.py` and `scripts/launch_bot.py`. Each handler is one atomic step.
- Embeds are kept as title, description and colour. Their fixed url is dropped.
- `update_log_file` (scripts/discord_bot.py:197-212) is an append-only text sink with no effect on scoring or the ledger.
- The completion request is an oracle. `get_response` (scripts/openai_handler.py:37-53) is never called by the core and is left out.
- Category templates are fixed strings. The source re-reads the template file on every call, and a missing file raises outside the `try`. That I/O failure is not modelled.
- The exact grammar of Python `int()` (whitespace, signs, underscores) is abstracted into the `Completion` outcome.
- The `print` on an authentication failure is output only.
- Scoring.Rescale: uses exact arithmetic instead of floating point. For integer replies the float result lies on the same side of -10, 0 and 10, so every branch agrees.
- The completion service is one function of the prompt text, so two identical prompts get the same reply. The source sends three separate requests, whose replies may differ even for equal prompts. No stated property depends on the replies differing.
- Every exception that escapes the score engine is the single `ScorerFailure`. The model does not say which exception it was: an OpenAI rate limit, connection, timeout or invalid-request error, the TypeError of `int(None)`, or the OverflowError of `v/5`.
- JSON is reduced to a map from key strings to three-field records. The following are not modelled:
  - a file that is not valid JSON (the load raises);
  - a record lacking a category (`+=` raises KeyError);
  - a file changed by another process.
  A missing file loads as the empty map, which is the empty `disk`.
- Ledger.Persist: resolves a collision between an integer key and an equal string key in favour of the integer key, without modelling dictionary insertion order. This is the code's behaviour: string keys enter memory only through a load, which replaces the whole dictionary, and integer keys are inserted after that. So `json.dump` writes the integer entry later, and `json.load` keeps the later duplicate.
- Words.Capitalize: covers ASCII only. The only strings it is applied to are the three lower-case labels.
- `scan_message` compares the author with the bot's own user object. The model compares user ids, which is how Discord user objects compare.
- Each handler is one atomic step, because that is how the source behaves. The completion request `openai.ChatCompletion.create` is a blocking call. In every branch the only `await` is the final `message.channel.send` (scripts/discord_bot.py:66, 77, 94, 108, 131), which comes after the ledger update. So no other handler runs between a handler's read and write of the ledger.
- The code is followed even where its docstrings promise otherwise:
  - The scorers promise `[-1, 0, 1]` (scripts/openai_handler.py:88), but a rescaled 0 is bucketed as -1 (see Findings).
  - `update_scores` documents `user_id (str)` (scripts/discord_bot.py:155), but it receives the raw integer id.

## Findings

| source | as written | input that shows it | evidently intended | confidence | as-written member | corrected member |
|---|---|---|---|---|---|---|
| scripts/openai_handler.py:118-123 | `<= 0` is checked before `== 0`, so a rescaled 0 gives -1 and 0 is never returned | reply "5": rescaled 0, score -1 | 0 is the neutral bucket: the docstrings promise [-1, 0, 1] and the word tables have 0 entries | not executed; high | `Scoring.Normalize`, `Scoring.ScaledZeroIsNegative` | `Scoring.NormalizeIntended` |
| scripts/discord_bot.py:98 | `update_scores` and `!reset` key memory by the integer id, but `!me` looks up `str(id)` and a load yields string keys | user 7 sends "hello" then "!me" on a fresh ledger and gets "not found"; after a restart with {15, 15, 15}, a +1 message leaves {11, 11, 11} | one key, `str(id)`, for every read and write | not executed; high (Discord delivers `author.id` as an int) | `Bot.MeMissesSessionScores`, `Bot.ScoringAfterLoadRestarts`, `Scenarios.SessionScoresNotFound`, `Scenarios.RestartLosesTotals` | `Bot.IntendedKeepsTotals`, `Scenarios.SessionScoresFoundIntended`, `Scenarios.RestartKeepsTotalsIntended` |
