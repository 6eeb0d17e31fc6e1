# Mindset quiz engine, modelled in Dafny

The application is a ten-question Likert quiz about fixed and growth mindset. The respondent starts on
an intro screen and begins the quiz. For each statement they pick one of four options, from
"Strongly Agree" to "Strongly Disagree". Option `i` is worth the raw score `3 - i`. On reverse-coded
statements (the fixed-mindset phrasings) the raw score is inverted to `3 - raw` before it is stored
under the question's id. After the tenth answer the summary screen shows the total of the stored
scores and one of four mindset bands.

The model has four modules:

- `QuestionBank` (questions.dfy): the bank of ten questions (`id`, `reverse`, and the text as data),
  the option-to-raw-score rule and the reverse-coding rule.
- `Scoring` (scoring.dfy): the total of an answers map and `GetScoreCategory`, the four-band
  classification ladder. The answers map is summed key by key in ascending id order, which is the
  order in which `Object.entries` lists integer keys. `TotalRemove` proves that the order does not
  matter.
- `QuizFlow` (flow.dfy): the session as a value, `Session(quizState, currentQuestion, answers)`. It
  holds the two transitions `StartQuiz` and `HandleAnswer` as functions, the invariant `Inv` that every
  reachable session keeps, and `Play`, the session after a fresh start followed by a sequence of
  answers.
- `MindsetApp` (app.dfy): the component's three state variables as fields of the class
  `MindsetQuiz`. The handlers are methods that update the fields in place. Each method is proved
  against the matching `QuizFlow` function (`Snapshot() == QuizFlow.HandleAnswer(old(Snapshot()), score)`).

Two facts about the code shape the model:

- While the quiz is in progress the number of stored answers equals `currentQuestion`: an answer is
  recorded as the index moves past its question (`QuizFlow.QuizAnswerCount`).
- `handleAnswer` has no error path. Only the four option buttons call it, the quiz screen alone
  renders them, and they pass only `3 - i`. The model states these facts as preconditions of
  `MindsetQuiz.HandleAnswer` (`quizState == Quiz`, score in 0..3).

## Model

| member | source | states |
|---|---|---|
| QuestionBank.BankShape | src/App.js:7-58 | the bank has ten questions with ids 1..10 in order; exactly the odd-numbered ones are reverse-coded |
| QuestionBank.OptionScore | src/App.js:205-208 | the option at index `i` of the four yields a raw score in 0..3 |
| QuestionBank.OptionScoreOrder | src/App.js:205-208 | earlier options score strictly higher; "Strongly Agree" is 3 and "Strongly Disagree" is 0 |
| QuestionBank.OptionScoreOnto | src/App.js:205-208 | every raw score 0..3 is produced by some option |
| QuestionBank.ActualScore | src/App.js:79-80 | the stored score is `3 - raw` on a reverse item and `raw` otherwise; a raw score in 0..3 gives a stored score in 0..3 |
| QuestionBank.ActualScoreInvolution | src/App.js:80 | reverse coding applied twice returns the raw score |
| QuestionBank.StoredScoreOfOption | src/App.js:79-80 | picking option `i` stores `i` on a reverse item and `3 - i` on a forward one, so disagreement with a fixed-mindset statement earns points |
| Scoring.Total | src/App.js:72-74 | models the `reduce` over the answers map; its own contract says only that no answers total 0, and TotalRemove, TotalInsert and TotalBounds below state what the sum means |
| Scoring.TotalRemove | src/App.js:72-74 | the total is the sum of all values whichever answered id is taken out first, so accumulation order does not matter |
| Scoring.TotalInsert | src/App.js:72-74 | adding an answer under a new id raises the total by exactly that answer |
| Scoring.TotalBounds | src/App.js:72-74 | answers each in 0..3 total between 0 and 3 times their number |
| Scoring.GetScoreCategory | src/App.js:60-65 | every integer score is classified into one of the four bands |
| Scoring.ThresholdsMetMonotone | src/App.js:60-65 | a higher score reaches at least as many band thresholds |
| Scoring.CategoryByThresholds | src/App.js:60-65 | the band of a score is the one at the position given by the number of thresholds 11, 17, 22 it reaches |
| Scoring.CategoriesDistinct | src/App.js:61-64 | the four band labels are pairwise distinct |
| Scoring.CategoryBands | src/App.js:60-65 | both ways: s >= 22 is Strong Growth Mindset, 17..21 Growth with some Fixed ideas, 11..16 Fixed with some growth ideas, below 11 Strong fixed mindset |
| Scoring.CategoryMonotone | src/App.js:60-65 | a higher score never lands in a more fixed band |
| QuizFlow.InitialSession | src/App.js:68-70 | the initial state is the intro screen with no answers, and it satisfies the session invariant |
| QuizFlow.StartQuiz | src/App.js:96-103 | starting yields a session that satisfies the invariant |
| QuizFlow.StartQuizIdempotent | src/App.js:96-101 | starting resets to quiz, index 0 and no answers whatever the prior session; starting twice equals starting once |
| QuizFlow.HandleAnswer | src/App.js:77-94 | the current question's id gains the reverse-coded score and every other entry is unchanged; the index advances by one, or after the last question the state becomes summary with the index unchanged |
| QuizFlow.HandleAnswerStep | src/App.js:79-91 | from a valid quiz session an answer in 0..3 keeps the invariant, writes a previously unanswered id, adds one entry and adds exactly the stored score to the total |
| QuizFlow.QuizAnswerCount | src/App.js:82-91 | in every valid session on the quiz screen the number of stored answers equals the current question index |
| QuizFlow.SessionTotalBounds | src/App.js:72-74 | in every reachable session at most ten answers are stored and the total lies in 0..30 |
| QuizFlow.Play | src/App.js:87-91 | after k < 10 answers from a fresh start the quiz is on question k; after 10 it is on the summary screen with the index at 9 |
| QuizFlow.Recorded | src/App.js:82-85 | the reference answers map for a run holds exactly the ids 1..k |
| QuizFlow.RecordedEntries | src/App.js:79-85 | in the reference map, id i + 1 holds the reverse-coded score of the i-th answer |
| QuizFlow.RecordedTotal | src/App.js:72-74 | the total of the reference map is the sum of the stored scores |
| QuizFlow.PlayRecords | src/App.js:77-103 | every run from a fresh start keeps the invariant and stores exactly the reference answers |
| QuizFlow.PlayFromStart | src/App.js:82-91 | after k answers from a fresh start exactly the ids 1..k are stored, each with its reverse-coded score; the total is their sum and lies in 0..3k; the summary is reached exactly when k = 10 |
| MindsetApp.MindsetQuiz.constructor | src/App.js:68-70 | a new component is on the intro screen at index 0 with no answers and satisfies the invariant |
| MindsetApp.MindsetQuiz.CalculateScore | src/App.js:72-74 | the displayed total is the sum of the answers map and lies in 0..30 |
| MindsetApp.MindsetQuiz.Profile | src/App.js:159-163 | the summary shows the band at the position given by how many of the thresholds 11, 17, 22 the total reaches |
| MindsetApp.MindsetQuiz.StartQuiz | src/App.js:96-103 | the fields become quiz, 0 and empty, as the pure transition says, and the invariant holds |
| MindsetApp.MindsetQuiz.HandleAnswer | src/App.js:77-94 | the fields change exactly as the pure transition says: one entry written under the current id, the total raised by the stored score, the index advanced or the summary entered; the invariant is kept |
| MindsetApp.MindsetQuiz.SelectOption | src/App.js:205-208 | clicking option `i` is answering with raw score `3 - i` |

## Left out

- The 500 ms leading-edge debounce on both handlers is a timing gate at the view boundary. One call is one answer.
- React's `useState` and `useCallback` plumbing is left out. The three state variables are plain fields that update synchronously.
- The JSX rendering, CSS classes, icons and the external video link are presentation only.
- The progress-bar percentages are floating-point display values: `calculateScore() / 30 * 100` and `currentQuestion / QUESTIONS.length * 100`.
- src/components/ui/progress.jsx is a view wrapper with no logic. It is not part of this model.
- JavaScript numbers are doubles. All values here are integers of at most 30, which doubles represent exactly, so the model uses unbounded `int`.
- MindsetApp.MindsetQuiz.HandleAnswer: requires the quiz screen and a raw score in 0..3. The source does not check either; only the four option buttons call it, and they appear only on the quiz screen.
