# ABC-GAME: a verified model of the word-game core

ABC-GAME is a Streamlit word game built around three letters, such as those of a licence plate. This project models its game logic in Dafny:

- **Letter matching** (`match.dfy`, with `seqs.dfy` and `text.dfy`): the ordered test `contiene_en_orden` of `app.py` and the unordered test `contiene_letras` of `modes/mode_multiplayer.py`, which `modes/mode_individual.py` inlines again. The ordered test is a `for` loop with an early return. It is proved equal to "the plate is a subsequence of the word", stated both as the greedy recursion and as an increasing index embedding. The unordered test is proved equal to inclusion of character sets.
- **The turn-based game of `app.py`** (`app.dfy`): a class `Partida` whose fields are the session keys (`fase`, `jugadores`, `letras`, `palabras_usadas`, `ultimo_resultado`, `ultima_accion`). Each button or input box becomes one method: Start, Continuar, Confirmar jugadores, the plate box, Comprobar palabra, the scoreboard redraw and Reiniciar partida. A ghost field records the words that scored. The class invariant keeps the points handed out equal to the number of those words, each of them a dictionary word marked used. So a word scores at most once per game.
- **The multiplayer mode** (`multiplayer.dfy`): the same machine, entered at the roster screen, with the unordered test and the menu's `screen` key.
- **The individual mode** (`individual.dfy`):
  - letter choice by bounded random search with the fallback `"CAS"`;
  - the 60-second timer;
  - a class `Session` for the round state. Its invariant is that the round score is the sum of the lengths of the words found, and never exceeds the running total.
- **Shared pieces** (`scores.dfy`): the roster comprehension `{n: 0 for n in nombres if n}`, the submission outcomes, and the sums of a score table and of a set of word lengths.
- **Python string operations** (`text.dfy`): `strip()`, `lower()` and `isalpha()`, written out on Latin-1 characters.

Inputs from outside the program become parameters:

- the dictionary is a `seq<String>`;
- a clock reading (`time.time()`) is an integer number of milliseconds;
- the random letter draws (`random.sample`) are a sequence of draws, each three distinct capital letters;
- the text typed into an input box is a method argument.

## Model

| member | source | states |
|---|---|---|
| Text.IsSpace | app.py:116 | the characters `str.isspace()` accepts below U+0100 |
| Text.IsAlpha | app.py:117 | the characters `str.isalpha()` accepts below U+0100; none of them is whitespace, and every cased letter is one |
| Text.Lower | app.py:116 | `str.lower()` on one character: nothing upper-case remains, the character's alphabetic and whitespace class is kept, and a character without a case is untouched |
| Text.LowerStr | app.py:116 | `str.lower()` keeps the length and each character's class and leaves no upper-case letter |
| Text.ValidPlate | app.py:117 | the plate test `letras and len(letras) == 3 and letras.isalpha()`; an accepted plate has three characters and no whitespace at its ends |
| Text.Strip | app.py:116 | `str.strip()`: the result is empty iff the input is all whitespace, and it neither starts nor ends with whitespace |
| Text.StripIsSlice | app.py:116 | what strip keeps is one contiguous slice of the input, and everything cut on either side is whitespace |
| Text.Normalize | app.py:123 | `.strip().lower()` keeps the stripped length and is empty exactly for all-whitespace input |
| Text.NormalizeIdempotent | app.py:123 | normalising an already normalised word changes nothing |
| Text.LowerIdempotent | app.py:116 | lower-casing a character twice is lower-casing it once |
| Text.LowerStrIdempotent | app.py:123 | lower-casing a string twice is lower-casing it once |
| Text.StripNoEdges | app.py:116 | a string with no whitespace at either end is its own strip |
| Seqs.IsSubsequence | app.py:17-24 | the greedy subsequence recursion; a subsequence is never longer than the word |
| Seqs.SubsequenceIffEmbedding | app.py:17-24 | the greedy subsequence scan succeeds iff there are strictly increasing positions of the word spelling the plate |
| Seqs.Filter | app.py:165 | a list comprehension keeps exactly the satisfying elements, each as often as in the input, in input order |
| Seqs.Count | modes/mode_individual.py:43 | `sum(1 for ...)` never exceeds the list length |
| Seqs.CountIsFilterLength | modes/mode_individual.py:43 | counting the matching words gives the length of the list of matching words |
| Match.EnOrden | app.py:17-24 | what `contiene_en_orden` answers: a non-empty plate that is a subsequence of the word; a match needs a word at least as long as the plate |
| Match.ContieneEnOrden | app.py:17-24 | the loop answers true iff the plate is non-empty and is a subsequence of the word (both definitions), never reads past the plate, and answers false for an empty word |
| Match.ContieneLetras | modes/mode_multiplayer.py:18-20 | `all(letra in palabra for letra in letras)`: true iff every position of the plate holds a character occurring in the word |
| Match.ContieneLetrasIffSubset | modes/mode_multiplayer.py:18-20 | `all(letra in palabra for letra in letras)` holds iff every plate character occurs in the word (set inclusion) |
| Match.ContieneLetrasPermutation | modes/mode_multiplayer.py:20 | permuting the plate never changes the unordered test |
| Match.RepeatedLetterIsRedundant | modes/mode_multiplayer.py:20 | a repeated plate letter needs only one occurrence in the word |
| Match.EnOrdenImpliesContieneLetras | modes/mode_multiplayer.py:18-20 | a word holding the plate in order holds it in any order |
| Match.Examples | app.py:61-63 | the instructions' example: for plate C-S-A, "casa", "costa" and "cosecha" match in order; "saco" does not |
| Match.AnyOrderExamples | modes/mode_multiplayer.py:18-20 | "casa" and "saco" contain the plate letters in any order; "bote" lacks the "a" of "acs" |
| Scores.Roster | app.py:94 | the roster holds exactly the non-empty names, all with score 0, and has no more entries than names typed |
| Scores.RosterTotalZero | app.py:94 | a fresh roster has no points |
| Scores.TotalIncrement | app.py:133 | one point more for one player raises the table's total by exactly one |
| Scores.SumLenPositive | modes/mode_individual.py:177 | a non-empty set of non-empty words has a positive total length |
| Scores.SumLenAdd | modes/mode_individual.py:90-93 | adding a new word to the found set adds exactly its length to the sum of lengths |
| App.PosiblesEnOrden | app.py:165 | the listing is exactly the dictionary words holding the plate in order, with their multiplicities, in dictionary order |
| App.Partida.constructor | app.py:30-39 | the initial session: opening screen, no players, no plate, no used words, no result |
| App.Partida.PressStart | app.py:49-51 | Start moves the opening screen to the instructions and does nothing elsewhere |
| App.Partida.PressContinue | app.py:75-77 | Continuar moves the instructions to the roster screen and does nothing elsewhere |
| App.Partida.ConfirmPlayers | app.py:93-99 | the roster becomes the non-empty names at 0; play starts iff there is one, otherwise a warning and the phase stays |
| App.Partida.EnterPlate | app.py:116-142 | the plate is stored only if the normalised box holds three alphabetic characters; an empty box is silent; anything else warns and leaves the plate unchanged; the word-check widgets are shown exactly when the plate was accepted |
| App.Partida.CheckWord | app.py:117-139 | callable only while the plate box holds a valid plate; empty and duplicate words change nothing; a fresh dictionary word holding the plate in order is marked used and gives exactly its player one point; any other word is marked used without a point; the used set only grows; the invariant holds |
| App.Partida.Award | app.py:131-133 | accepting marks the word used and adds one point for the chosen player only, keeping points equal to accepted words |
| App.Partida.RedrawScoreboard | app.py:155-160 | the updated scoreboard is drawn exactly when the last action set the flag, which it clears |
| App.Partida.Restart | app.py:174-180 | during play, players, plate, used words and result go back to their initial values and the phase to the opening screen |
| Multiplayer.PosiblesLetras | modes/mode_multiplayer.py:116 | the listing is exactly the dictionary words containing every plate letter, with their multiplicities, in dictionary order |
| Multiplayer.InOrderListingIncluded | modes/mode_multiplayer.py:116 | every word of the ordered game's listing is in the unordered listing |
| Multiplayer.Partida.constructor | modes/mode_multiplayer.py:28-37 | the mode's defaults: roster screen, no players, no plate, no used words |
| Multiplayer.Partida.ConfirmPlayers | modes/mode_multiplayer.py:53-59 | the roster becomes the non-empty names at 0; play starts iff there is one, otherwise a warning |
| Multiplayer.Partida.EnterPlate | modes/mode_multiplayer.py:68-93 | the plate is stored only if the normalised box holds three alphabetic characters; otherwise it is unchanged, with a warning unless the box is empty; the word-check widgets are shown exactly when the plate was accepted |
| Multiplayer.Partida.CheckWord | modes/mode_multiplayer.py:69-90 | callable only while the plate box holds a valid plate; the four outcomes in order, with the unordered test; rejected words are still consumed; the used set only grows |
| Multiplayer.Partida.Award | modes/mode_multiplayer.py:82-85 | accepting marks the word used and adds one point for the chosen player only |
| Multiplayer.Partida.RedrawScoreboard | modes/mode_multiplayer.py:106-111 | the scoreboard is drawn iff the flag is set or somebody has a point, and drawing clears the flag |
| Multiplayer.Partida.Restart | modes/mode_multiplayer.py:125-131 | during play, all the mode's keys return to their defaults (roster screen again) and the menu's screen becomes "start" |
| Individual.ChooseLetters | modes/mode_individual.py:38-46 | the result is the first of the first 3000 draws matched by at least 100 dictionary words, or "CAS" when none is; so it is three distinct capitals that qualify, or "CAS" |
| Individual.ChosenIsUnique | modes/mode_individual.py:38-46 | the draws determine the chosen letters uniquely |
| Individual.PossibleWords | modes/mode_individual.py:162-164 | the round-end listing is exactly the dictionary words containing every round letter, lower-cased, in dictionary order |
| Individual.Matches | modes/mode_individual.py:43 | the count that qualifies a draw equals the length of the round-end listing for those letters |
| Individual.TruncSeconds | modes/mode_individual.py:107 | `int()` of a number of seconds rounds toward zero, for negative readings too |
| Individual.Judgement | modes/mode_individual.py:86-96 | the verdict always names the word; "already used" iff it was found before; accepted iff new, in the dictionary and holding every lower-cased letter, and then worth its length |
| Individual.Remaining | modes/mode_individual.py:106-108 | for a clock that has not gone backwards, the remaining seconds are at most 60 and reach 0 exactly when 60 seconds have elapsed |
| Individual.Session.constructor | modes/mode_individual.py:18-33 | the mode's defaults: no letters, nothing found, both scores 0, no start time, 60 seconds, idle |
| Individual.Session.StartGame | modes/mode_individual.py:61-73 | new letters as chosen from the draws, nothing found, round score 0, clock restarted at 60 seconds, round running; the total is zeroed only when asked |
| Individual.Session.FullCleanForNewRound | modes/mode_individual.py:48-58 | the same fresh round with new letters and the total unchanged |
| Individual.Session.BeginIfIdle | modes/mode_individual.py:124-125 | a round starts by itself, keeping the total, the last message and the screen, exactly when none is running or finished |
| Individual.Session.SetCurrentWord | modes/mode_individual.py:133 | typing fills the word box |
| Individual.Session.CheckWord | modes/mode_individual.py:75-99 | a no-op while a check is under way, for an empty normalised word or outside a round; otherwise the effect of `Submitted`; the guard flag ends as it began |
| Individual.Session.Submit | modes/mode_individual.py:79-99 | the effect of checking a normalised word: nothing when it is empty or no round is running; otherwise the verdict, the scoring and the cleared box |
| Individual.Session.Judge | modes/mode_individual.py:86-96 | a word already found only warns; a new dictionary word with every letter adds its length to round and total and joins the found words; anything else is rejected and not remembered |
| Individual.Session.ShowMessage | modes/mode_individual.py:142-150 | during a round the last verdict is shown once and then cleared |
| Individual.Session.UpdateTimer | modes/mode_individual.py:101-116 | nothing outside a round; otherwise the remaining seconds are stored, and at 0 or below the timer reads 0 and the round ends; at most 60 for a clock that has not gone backwards |
| Individual.Session.NextRoundOffered | modes/mode_individual.py:177 | "Siguiente ronda" is shown iff the round is over and a word was found; then no round is running and the round score is positive |
| Individual.Session.NextRound | modes/mode_individual.py:177-180 | offered, and acting, only at round end with at least one word found: a fresh round keeping the total, the last message and the screen |
| Individual.Session.ReturnToStart | modes/mode_individual.py:184-188 | at round end every key returns to its default, total included, and the menu's screen becomes "start" |

## Left out

- Rendering is not modelled: titles, markdown, expanders, columns, coloured message boxes, the sorted leaderboards (`app.py:110`, `app.py:158`, `modes/mode_multiplayer.py:109`), the `sorted()` of listings and found words, and `st.rerun`. A listing is modelled in dictionary order; sorting would only reorder it.
- Message text is not modelled: the outcomes are the datatypes `Resultado` and `Message`, without the emoji prefixes or the upper-cased word.
- Dictionary loading (`cargar_palabras`, `utils/dictionary.py`, `preparar_diccionario.py`) is file I/O and caching. The dictionary is a given `seq<String>`.
- `random.sample` is an input: a sequence of at least 3000 draws, each three distinct letters `A`..`Z`. The model does not claim the draws are uniform.
- The clock is an integer number of milliseconds passed in, not float seconds. `time.sleep(1)` and the one-second polling are left out.
- Individual.Session.FullCleanForNewRound and Individual.Session.StartGame take one clock reading `now`. In the source, `full_clean_for_new_round` reads the clock before the letter search (`modes/mode_individual.py:56`, then `:58`), while `start_game` reads it after (`:65`, then `:68`). So only in the first case does the search's running time count against the new round; the model does not capture that difference.
- Individual.Remaining: the bound of 60 seconds is stated only for a clock that has not gone backwards; with an earlier reading the source itself can show more than 60.
- The remaining time is `60 - int(elapsed)`, which rounds the remaining seconds up for a positive, non-whole elapsed time; the model follows the code.
- Characters from U+0100 upwards: `strip`, `lower` and `isalpha` are modelled on Latin-1 only, so Unicode case mapping and whitespace beyond it are not captured.
- App.Partida.CheckWord and Multiplayer.Partida.CheckWord take the word box already passed through `.strip().lower()` (the function `Text.Normalize`). The plate box's normalisation is inside `EnterPlate`.
- App.Partida.ConfirmPlayers and Multiplayer.Partida.ConfirmPlayers take each name already passed through `.strip()`. The "Número de jugadores" input's 1 to 10 range becomes a precondition on the number of names.
- Match.ContieneEnOrden requires a non-empty plate, or an empty word. The Python loop reads `letras[0]` for the first character of the word, so any other call raises IndexError. Every call in the source passes a stored, non-empty plate.
- A Streamlit widget's value only exists while its phase is drawn. For the phase buttons, the roster form, the plate box, the scoreboard and the reset button, the model renders this as totality: each method does nothing when called in another phase. `CheckWord` of both games instead requires what puts its widgets on screen: a running game whose plate box holds a valid plate at this moment (`placaActiva`).
- `ultima_accion` starts as `None`; it is modelled as `false`, which is what the script's truth tests make of it.
- The multiplayer reset deletes the key `fase`, so the next run re-installs its default. The model stores `Config` directly; the other deleted keys likewise take their default values at once.
- "Volver al inicio" deletes every session key, including keys of the other modes, since all modes share one session. Only this mode's keys and `screen` are modelled.
- `word_checked` in the individual mode guards against `check_word` being re-entered. Calls here run one at a time and the flag is back to false when each one returns, so the guard never fires.
