# Common solids explorer: the quiz

`growth.py` is a Streamlit page about ten common solids: iron, aluminium,
copper, gold, silver, lead, zinc, tin, nickel and magnesium. It shows a table
of their properties and a Wikipedia link for each one. It also runs a
six-question multiple-choice quiz on them. This project models the page's
logic and proves properties of it:

- the table as pandas holds it, and what `str()` prints for each cell;
- `create_wikipedia_link`;
- `create_options`, which builds the options of one question: distractors
  drawn from the same column, the right answer, and a shuffle;
- `generate_quiz`, which builds the questions;
- the quiz's session state and the four buttons that change it: "Start
  Quiz", "Submit Answer", "Next Question" and "Restart Quiz".

Modules:

- `PyStr` (`pystr.dfy`): Python's `str()` on non-negative integers.
- `Sampling` (`sampling.dfy`): the library calls the quiz draws through.
  These are pandas' `unique()`, `random.sample` and `random.shuffle` (the
  Fisher-Yates loop CPython runs, in place on an array).
- `Catalog` (`catalog.dfy`): cell values and their dtypes, the ten rows, the
  question kinds with the column each reads, and the Wikipedia link.
- `Quiz` (`quiz.dfy`): `create_options` and `generate_quiz`. Both take the
  table as a parameter; the page passes `Solids`.
- `Session` (`session.dfy`): the class `QuizSession`, holding `quiz_active`,
  `quiz_questions`, `current_question_index` and `quiz_score`, plus the set
  of indices that have a `submitted_<idx>` flag.

Randomness is a parameter. A `Round` records what the random source decides
for one question: the row `sample(1)` draws, the kind `random.choice` draws,
the positions `random.sample` picks, and the draws `random.shuffle` makes.
`ValidRound` says which of these the random source can produce. Every
contract therefore holds for every possible quiz.

Cell values follow the pandas dtypes:

- "Melting Point (°C)" mixes integers with 419.5 and 231.9, so it is a
  float column. `str()` of its cells gives "1538.0" and "419.5". It is
  modelled exactly, in tenths of a degree.
- "Atomic Number" and "Boiling Point (°C)" are integer columns.
- The other columns hold text.

The answer check in "Submit Answer" compares the chosen option with
`str(answer)`. So a question has exactly one right option only if `str` is
injective within one column (`Catalog.ShowInjective`) and the options are
pairwise different (`Quiz.OptionsDistinct`).

The session model follows the code on one point a reader might not expect.
Nothing stops a second "Submit Answer" on a question that was already
submitted, and each right submission adds a point. The score is therefore
not bounded by the number of questions: `Session.RepeatedSubmit` reaches 7
on a six-question quiz. A player who submits each question once does get at
most one point per question (`Session.PlayThrough`). "Restart Quiz" is
offered only in the "Quiz Completed!" view, so its method requires
`Completed()`. The other buttons are guarded in the same way. Each method
requires the state in which the page shows that button, so a press in any
other state is not a transition of the model.

## Model

| member | source | states |
|---|---|---|
| PyStr.NatToString | growth.py:150 | `str()` of a non-negative integer: at least one character, all decimal digits, no leading zero except for 0 itself, and a single character exactly for values below 10 |
| PyStr.NatToStringValue | growth.py:150 | the digits `str(n)` prints, read in base 10, give back `n` |
| PyStr.NatToStringInjective | growth.py:205 | different integers print differently, so comparing `str(answer)` with an option compares the values |
| Catalog.Show | growth.py:150 | `str()` of a cell; a float cell prints with one digit after the decimal point |
| Catalog.ShowInjective | growth.py:150 | two cells of the same dtype print alike only when they are equal |
| Catalog.Cell | growth.py:138-179 | the cell a question kind reads, with that kind's column dtype (float for melting point, integer for boiling point and atomic number, text otherwise). One function serves both kind-to-column maps: the dict `create_options` filters on (lines 138-145) and the `if`/`elif` chain `generate_quiz` reads the answer from (lines 162-179) name the same column for each of the six kinds |
| Catalog.ColumnDistinct | growth.py:46-74 | none of the six quiz columns of the ten-row table repeats a value |
| Catalog.WikipediaLink | growth.py:86-90 | the link is the Wikipedia article prefix followed by the solid's name, except that "Aluminum" links to "Aluminium" |
| Catalog.WikipediaLinkCollision | growth.py:86-90 | two names get the same link exactly when they are equal or are the two spellings of aluminium |
| Catalog.CatalogLinksDistinct | growth.py:86-90 | every solid of the table gets a link of its own |
| Sampling.UniqueExcluding | growth.py:146 | the filtered `unique()` list holds only column values other than the excluded ones, holds every such value, and holds each once |
| Sampling.UniqueExcludingLength | growth.py:146 | on a column without repeats, filtering out the single correct value loses exactly that value |
| Sampling.Sample | growth.py:148 | `random.sample` returns as many values as it draws positions, all from the population, and without repeats when the population has none |
| Sampling.Shuffled | growth.py:151 | `random.shuffle` under given draws: the result has the same length and multiset as the list, and no repeats when the list had none |
| Sampling.SelfDrawsKeepOrder | growth.py:151 | when every draw picks the position being filled, the shuffle leaves the list unchanged |
| Sampling.ShufflePermutes | growth.py:151 | the shuffle keeps the length and the multiset of the list, and a list without repeats stays without repeats |
| Sampling.Shuffle | growth.py:151 | the in-place Fisher-Yates loop leaves the array equal to the shuffle of its old contents under the same draws |
| Quiz.Distractors | growth.py:146 | the distractors are values of the question's column, all different from the correct answer, without repeats |
| Quiz.DistractorsComplete | growth.py:146 | every value of the column that differs from the answer is a distractor |
| Quiz.Chosen | growth.py:146-148 | the shown distractors are three of them when there are at least three, otherwise all of them; they come from the column, differ from the answer and do not repeat |
| Quiz.Stringify | growth.py:150 | `[str(opt) for opt in options]`: as long as the list, each entry `str()` of the value at the same position |
| Quiz.StringifyDistinct | growth.py:150 | different values of one dtype stay different once stringified |
| Quiz.OptionsDistinct | growth.py:146-151 | when the answer comes from the column asked about, no option string appears twice |
| Quiz.CreateOptions | growth.py:137-152 | the options contain `str(answer)`; there are four of them, or one more than the distractors when there are fewer than three; they are a permutation of the stringified distractors plus the answer; they are pairwise different when the answer has the column's dtype |
| Quiz.CatalogDistractors | growth.py:146-148 | on the page's table every question has nine distractors, so it always offers four options |
| Quiz.CatalogRoundValid | growth.py:146-151 | on the page's table, a draw is possible exactly when it picks three of the nine distractors and shuffles four options |
| Quiz.CatalogFourOptions | growth.py:137-152 | every question built on the page's table has exactly four options |
| Quiz.Prompt | growth.py:162-178 | the question text of each branch: it starts with "What is the " and the kind's subject, and it ends with the solid's name and "?" |
| Quiz.PromptInjective | growth.py:162-178 | the question text determines both the kind and the solid: two prompts are equal only for the same kind and name |
| Quiz.QuestionForWellFormed | growth.py:158-181 | a built question's answer is the cell of its row in the drawn kind's column; its options contain `str(answer)` once and do not repeat |
| Quiz.MakeQuestion | growth.py:159-181 | one pass of the loop: the text is the drawn kind's prompt about the drawn row's solid; the answer is that row's cell in the kind's column; the options contain `str(answer)` and no option repeats |
| Quiz.QuestionsWellFormed | growth.py:155-182 | every question of a generated quiz asks for the cell of its round and is well formed |
| Quiz.GenerateQuiz | growth.py:155-182 | the quiz has `num` questions, one per round in order; each asks for its row's cell and offers that answer once among different options |
| Session.QuizSession.constructor | growth.py:127-134 | a new session is inactive, holds no questions, and has index and score 0 |
| Session.QuizSession.Start | growth.py:185-190 | starting holds a fresh six-question quiz, every question with four options; index and score are 0 and nothing is flagged as submitted |
| Session.QuizSession.Submit | growth.py:197-210 | the answer counts as right exactly when the chosen option equals `str(answer)`; the score goes up by one exactly then; the current question is flagged as submitted; questions and index are unchanged |
| Session.QuizSession.Next | growth.py:212-216 | only after a submission: the index moves on by one and the flag is cleared; score and questions are unchanged |
| Session.QuizSession.Restart | growth.py:221-230 | only from the completed view: every session field is back to its default, and the loop over a snapshot of the keys removes every submitted flag |
| Session.QuizSession.Completed | growth.py:197-218 | no ensures of its own: it is the `else` branch of `idx < total`, an active quiz whose index has reached the number of questions; `Summary` and `PlayThrough` state what holds there |
| Session.QuizSession.Summary | growth.py:218-220 | the completed view shows the score out of the number of questions; it is reached only with the index exactly at the end of a six-question quiz |
| Session.CorrectCount | growth.py:204-207 | helper for `PlayThrough`: counts the answers equal to `str()` of their question's answer, which is at most the number of questions; that bound gives `PlayThrough`'s score bound |
| Session.PlayThrough | growth.py:194-220 | submitting each question once and pressing "Next Question" reaches the completed view exactly at the end, with one point per right answer and so at most one point per question |
| Session.SymbolRoundsValid | growth.py:158-161 | six chemical-symbol questions, each drawing the first three distractors and shuffle draws that keep the options in order, are draws the random source can make |
| Session.RepeatedSubmit | growth.py:204-210 | repeated submissions of a question score every time: seven right submissions of the first question give a score of 7 on a six-question quiz |

## Left out

- The Streamlit user interface is not modelled: layout, CSS, the sidebar, the data preview, `st.rerun` and `st.experimental_rerun`, and the success and error messages. Only the session-state changes each button makes are.
- Widget keys in the session state (`quiz_form_<idx>`, `quiz_radio_<idx>`) are not modelled. The radio button's choice becomes `Submit`'s parameter.
- The pandas DataFrame and `st.cache_data` are not modelled. The table is a constant sequence of rows, and a column lookup is a kind-to-field function.
- The random number generator is not modelled. Its outcomes are the parameters of each `Round`; `ValidRound` bounds them to what the library calls can return.
- `Catalog.Show`: models `str()` of a float only for non-negative values below 1e16 with at most one decimal, which covers every value in the table. Python's exponent form ("1e+16") and general floating-point printing are left out.
- `convert_to_fahrenheit` and the Fahrenheit display are not modelled: they are floating-point display for the detail view, not quiz logic.
- The Excel download (`to_excel`) is not modelled: it is file I/O.
- The detail view of the selected solid is display only. Of it, only its Wikipedia link is modelled.
- A free-text answer mode, compared within a numeric tolerance, is not modelled: `growth.py` has only the multiple-choice quiz.
