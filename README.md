# Quality-engineering quiz: session model

The application is a Streamlit study site for quality-engineering certification
(ISO standards, Six Sigma, QC tools, interview questions). Almost all of it is
static content and charts. This project models its two pieces of logic:

- the **random-quiz session** of the "随机测验" page: a shuffled copy of the
  question bank, a cursor `quiz_idx`, a score, an "answered" flag, the selected
  option and a 0/1 answer history, kept in the session store and changed by
  three buttons — an option button (answer), "下一题" (next) and "重新开始测验"
  (restart);
- the **interview Q&A filter** of the "面试题库" page: records kept by category
  and level, where the choice "全部" ("all") lifts a criterion.

Files:

- `quiz_bank.dfy` (module `QuizBank`): the question record, its validity
  (right option in range, at most four options because buttons are labelled
  `'ABCD'[i]`), the points an answer earns, the marks of the reveal screen and
  the ten shipped questions.
- `shuffle.dfy` (module `Shuffle`): the copy-and-shuffle of the bank, written as
  the in-place Fisher–Yates walk of Python's `random.shuffle` over an array.
  The random source is a parameter `randBelow`, so the only promise is that the
  result is a permutation of the bank.
- `quiz_session.dfy` (module `QuizSession`): class `Session` with the session
  fields, the object invariant `Valid()` and the three transitions as methods
  whose preconditions are the conditions under which the page renders the
  corresponding button.
- `interview.dfy` (module `Interview`): the two successive list
  comprehensions of the filter, proved equal to a single matching pass.

The invariant `Valid()` holds after set-up and every transition:

- the bank is valid;
- the shuffled list is a permutation of the bank;
- `idx <= |shuffled|`;
- `score == Sum(history)`;
- `|history| == idx + (1 if answered else 0)`;
- while answered, `idx < |shuffled|`, the selection is an option of the current
  question, and the history entry just added is the points of that selection;
- while not answered, the selection is `None`.

The session is complete exactly when `idx == |shuffled|`. At that point the
history holds one entry per question. An empty bank gives a session that is
complete from the start. Its result tally is `0` out of `0`, and no percentage
is computed.

## Modelling choices

- The history holds the integers 0 and 1, as the answer button appends them (app.py:997).
- The session shuffles a copy of the question records themselves (app.py:531-532).
- Restart is offered only on the result page, inside the completion branch (app.py:947, 964), so `Restart` requires a finished session.
- The option buttons exist only while the current question is unanswered, and the "next" button only once it is answered (app.py:990, 1010). Clicks in any other state cannot happen, so the transitions take these conditions as preconditions.
- Option buttons are labelled `'ABCD'[i]` (app.py:992), which fails for a fifth option. The session therefore requires a valid bank, with at most four options per question, and its invariant carries that validity. The shipped bank is proved valid, so `NewQuizSession` can start a session over it.
- The sidebar tally is shown only once the history is non-empty (app.py:556), so `SidebarTally` requires a non-empty history.

## Model

| member | source | states |
|---|---|---|
| `QuizBank.Label` | app.py:991-992 | an option of a valid question gets a label from "ABCD" |
| `QuizBank.ExactlyOneScoringOption` | app.py:995-997 | a valid question has exactly one option that earns a point |
| `QuizBank.RevealMarks` | app.py:999-1006 | one mark per option; for a valid question the right option is marked right and no other option is; an option is marked wrong iff it is the selected one and earned no point |
| `QuizBank.RevealAgreesWithPoints` | app.py:992-1006 | the reveal screen shows a wrong choice iff the answer earned no point, and then on the chosen option; for a valid question the right option carries the right-answer mark |
| `QuizBank.PermutationKeepsValid` | app.py:530-533 | every question of a permutation of a valid bank is valid |
| `QuizBank.QuizQuestionsValid` | app.py:454-515 | the shipped bank has ten questions and every one is valid |
| `Shuffle.ShuffledCopy` | app.py:531-532 | the shuffled copy has the bank's length and exactly the bank's questions with their multiplicities, whatever the random draws |
| `QuizSession.SumBounded` | app.py:556-558 | the number of correct answers never exceeds the number of answers |
| `QuizSession.SumIsLengthIffAllCorrect` | app.py:556-558 | the history sums to its length iff every entry is 1 |
| `QuizSession.Session.constructor` | app.py:520-533 | over a valid bank, set-up gives cursor 0, score 0, not answered, no selection, empty history and a permutation of the bank, and establishes the invariant |
| `QuizSession.Session.IsComplete` | app.py:945-947 | the completion test holds iff the cursor equals the number of questions; then nothing is pending and the history has one entry per question |
| `QuizSession.Session.CurrentQuestion` | app.py:975 | the question on screen is a valid question of the bank, so each of its options has an "ABCD" label |
| `QuizSession.Session.QuestionNumber` | app.py:980 | the number shown lies between 1 and the bank size; it is one more than the answers given while the question awaits its answer |
| `QuizSession.Session.SidebarTally` | app.py:556-558 | once an answer was given, the sidebar shows the score out of the answers given; that count is at least 1 and the score is at most it |
| `QuizSession.Session.FinalTally` | app.py:947-960 | the result page shows the score out of the bank size; the history then has one entry per question; full marks iff every entry is 1 |
| `QuizSession.Session.Reveal` | app.py:999-1006 | once answered, the current question's right option is marked as the answer, and a wrong choice is shown, on the selected option, iff the recorded history entry is 0 |
| `QuizSession.Session.Answer` | app.py:990-998 | answering sets the selection and the flag, adds the answer's points to the score and appends them to the history; the cursor and the shuffled list are unchanged; the invariant is kept |
| `QuizSession.Session.Next` | app.py:1010-1014 | next advances the cursor by one and clears the flag and the selection; score, history and shuffled list are unchanged; the invariant is kept |
| `QuizSession.NewQuizSession` | app.py:454-533 | the page's session over the shipped bank is valid, holds a permutation of the ten questions and starts with every counter cleared |
| `QuizSession.Session.Restart` | app.py:964-973 | on a finished session, restart reshuffles into a permutation of the bank and clears every counter, re-establishing the invariant |
| `Interview.CategoryChoices` | app.py:916 | the category choices are exactly "all" and the categories of the records |
| `Interview.KeepCategoryIsSelect` | app.py:923-925 | the category comprehension keeps exactly the records of that category, in order |
| `Interview.KeepLevelAfterSelect` | app.py:926-927 | the level comprehension applied after the category filter keeps exactly the records matching both |
| `Interview.FilteredIsSelect` | app.py:923-927 | the two successive comprehensions equal one in-order pass keeping the records that match both choices |
| `Interview.SelectMembers` | app.py:923-927 | a record is shown iff it is one of the records and matches both choices |
| `Interview.SelectIsSubsequence` | app.py:923-927 | the matching pass keeps the records' order |
| `Interview.FilteredSpec` | app.py:923-927 | the list shown is an in-order subsequence of the records, holds exactly the matching ones, and is all records when both choices are "all" |
| `Interview.OfferedCategoryIsNonEmpty` | app.py:916-927 | every category offered in the select box shows at least one record when the level is "all" |

## Left out

- Streamlit page set-up, CSS, the sidebar menu and the rerun-driven control flow (app.py:11-165, 538-552) are not modelled. Button clicks are method calls, and the conditions under which a button is rendered are preconditions.
- The random source is not modelled. The shuffle takes a `randBelow` function whose results pick the swap partners, so uniformity of the shuffle is not stated.
- Percentages, grades, colours and the progress fraction are left out (app.py:559-563, 950-953, 978). They are floating-point presentation only. The sidebar divides by the history length, which app.py:556 keeps non-zero. The result page (app.py:950) and the progress bar (app.py:978) divide by the bank size and would fail on an empty bank. The shipped bank has ten questions, and the model computes no percentage.
- The Plotly and numpy demos and the self-assessment page are not modelled (app.py:630-1090 outside the quiz and interview pages). They are charting and floating-point arithmetic.
- The static content tables `QUALITY_SYSTEMS`, `QUALITY_TOOLS`, `SIX_SIGMA` and the records of `INTERVIEW_QA` are not modelled. The filter is modelled for any list of records.
- Interview.CategoryChoices: modelled as a set, so the order of the choices is not stated. The source lists "all" first and then the categories in Python's unspecified set iteration order.
- The reveal screen's option texts and the explanation shown with it are data only. The model keeps them in the records but states nothing about their rendering.
