# StudyBuddy quiz core in Dafny

This project models the logic of the StudyBuddy quiz application that does
not depend on the user interface:

- **Question generation with retry** (`QuestionGenerator._retry_and_parse`,
  `generate_mcq`, `generate_fill_blank`). The app calls the language model and
  parses its reply, up to `MAX_RETRIES` times (default 3), and keeps the first
  reply that parses. It then applies one structural check, which is never
  retried:
  - a multiple-choice question needs exactly four options, and its answer
    must be one of them;
  - a fill-in-the-blank question must contain `___`.

  Every failure comes out as one wrapped exception.
- **Question-text normalisation** (`clean_question` on both records). A dict
  gives its `description` value, or its own string form when it has no
  `description`. Any other value gives `str(v)`.
- **The deduplicating batch collector** (`QuizManager.generate_questions`):
  - it fills up to `num_questions` slots;
  - each slot has five generator calls;
  - a question whose `strip().lower()` text was already seen is skipped, and
    the skipped call still counts;
  - a slot without a new question stops the batch;
  - the result is `True` exactly when no exception escaped and at least one
    question was accepted.
- **Scoring** (`QuizManager.evaluate_quiz`). Questions and answers are walked
  together as `zip` walks them. Multiple-choice answers must match exactly.
  Fill-in-the-blank answers are compared after `strip().lower()`.

The language model together with the output parser is an oracle,
`Gateway = nat -> Reply`. Call number `i` of the session receives
`gateway(i)`. The retry and generation functions, the generator and the
slot and batch steps take the number of the first gateway call they may
make and report how many calls they used. A whole `generate_questions` run
(`Collect`, `CollectQuestions`, `GenerateQuestions`) starts at call 0. This
makes call counts, early stops and ordering provable.

Files and modules:

| file | module | contents |
|---|---|---|
| `wrappers.dfy` | `Wrappers` | `Option`, and `Result` (a `Failure` is an exception that escapes) |
| `pystr.dfy` | `PyStr` | ASCII `strip()`, `lower()` and substring search, with their laws |
| `question_schemas.dfy` | `QuestionSchemas` | raw JSON values, `str()`/`repr()`, `clean_question`, the two records and their parsers |
| `question_generator.dfy` | `QuestionGenerator` | `_retry_and_parse` (as a function and as a loop), `generate_mcq`, `generate_fill_blank` |
| `quiz_manager.dfy` | `QuizManagement` | quiz entries, the slot and batch collector (as functions and as loops), `generate_questions`, `evaluate_quiz` |
| `quiz_scenarios.dfy` | `QuizScenarios` | consequences of the collector and of scoring for particular generators and answers |

The collector is written once as a reference function (`FillSlot`,
`CollectFrom`, `Collect`) and once as the nested loop of the source
(`TryFillSlot`, `CollectQuestions`). Each loop method is proved equal to its
reference function. The properties are proved about the reference functions.
The collector is generic in the generator and in the duplicate key.
`GenerateQuestions` instantiates it with the real generator and
`strip().lower()`.

## Model

| member | source | states |
|---|---|---|
| PyStr.LowerFacts | src/utils/helpers.py:137 | `lower()` keeps the length, leaves no upper-case letter, turns each upper-case ASCII letter into its lower-case form and keeps every other character |
| PyStr.StripStartFacts | src/utils/helpers.py:137 | left stripping drops exactly a leading run of whitespace and leaves a text that does not start with whitespace |
| PyStr.StripEndFacts | src/utils/helpers.py:137 | right stripping drops exactly a trailing run of whitespace and leaves a text that does not end with whitespace |
| PyStr.StripFacts | src/utils/helpers.py:137 | `strip()` leaves no whitespace at either end, and gives the empty text exactly when the input is all whitespace |
| PyStr.StripIdempotent | src/utils/helpers.py:137 | stripping twice equals stripping once |
| PyStr.NormalizeIdempotent | src/utils/helpers.py:268-269 | `strip().lower()` applied to its own output changes nothing |
| PyStr.Contains | src/generator/question_generator.py:203 | `sub in s` holds exactly when `sub` occurs at some index of `s` |
| QuestionSchemas.ReprString | src/models/question_schemas.py:79 | `repr()` of a string (as `str()` of a dict writes its keys and string values) is quoted by the same character at both ends, a single or a double quote |
| QuestionSchemas.UnescapeEscapeChars | src/models/question_schemas.py:79 | the escaping `repr()` applies to a string's characters loses nothing: reading the escapes back gives the original text |
| QuestionSchemas.ReprStringRoundTrip | src/models/question_schemas.py:79 | the text between the quotes of a string's `repr()` reads back to the string |
| QuestionSchemas.CleanQuestion | src/models/question_schemas.py:78-80 | a dict with a `description` key gives the value bound to that key; a dict without one gives its own string form, which is wrapped in braces; any other value gives `str(v)` |
| QuestionSchemas.CleanQuestionIdempotent | src/models/question_schemas.py:80 | cleaning text that is already clean changes nothing |
| QuestionSchemas.ParsersShareNormalisation | src/models/question_schemas.py:113-135 | the multiple-choice and fill-in-the-blank records accept the same raw `question` values and derive the same text from them |
| QuestionSchemas.ReparseCleanText | src/models/question_schemas.py:58-80 | parsing a reply whose `question` is already the cleaned text gives the same record |
| QuestionSchemas.ParseMCQ | src/models/question_schemas.py:58-80 | a reply yields a multiple-choice record exactly when it has that shape and its question cleans to text; the record's options, answer and cleaned text come from the reply |
| QuestionSchemas.ParseFill | src/models/question_schemas.py:113-135 | a reply yields a fill-in-the-blank record exactly when it has that shape and its question cleans to text; the record's answer and cleaned text come from the reply |
| QuestionGenerator.RetryFromFacts | src/generator/question_generator.py:89-116 | the remaining attempts make at least one and at most the remaining calls; they stop at the first reply that parses, with none parsed before it; otherwise they fail with the exhaustion error after the last allowed call |
| QuestionGenerator.RetryFacts | src/generator/question_generator.py:89-119 | `_retry_and_parse` makes at most `MAX_RETRIES` calls; it returns the first parse and makes no call after it; if every attempt fails it raises after exactly `MAX_RETRIES` calls, none of which parsed; with `MAX_RETRIES <= 0` it makes no call and raises the "unexpected" error |
| QuestionGenerator.DefaultBudgetExhausted | src/config/settings.py:65 | with the default of three retries, a gateway whose replies never parse makes `_retry_and_parse` raise the exhaustion error for 3 attempts after exactly three calls |
| QuestionGenerator.RetryAndParse | src/generator/question_generator.py:89-119 | the counted loop returns the same outcome and call count as the retry function |
| QuestionGenerator.RetryReadsOnlyConsumed | src/generator/question_generator.py:89-107 | the outcome depends only on the replies actually consumed, so no reply after the successful parse is read |
| QuestionGenerator.RetryFromReadsOnlyConsumed | src/generator/question_generator.py:89-116 | from any attempt on, the outcome depends only on the replies that attempt and the later ones consume |
| QuestionGenerator.GenerateMCQ | src/generator/question_generator.py:142-163 | only a question with exactly four options that include its answer is returned, and it is the first reply that parsed; a structural failure happens after the call that parsed, with no further call; retry exhaustion uses the whole budget; every failure is one `MCQGenerationFailed` |
| QuestionGenerator.GenerateFillBlank | src/generator/question_generator.py:190-211 | only a question containing `___` is returned, and it is the first reply that parsed; a structural failure makes no further call; every failure is one fill-in-the-blank generation error |
| QuestionGenerator.StructuralFailureNotRetried | src/generator/question_generator.py:147-156 | a first reply that parses but fails the multiple-choice check ends the call with a structural error after exactly one gateway call |
| QuizManagement.GenerateFor | src/utils/helpers.py:133-177 | an entry of the requested kind comes from the matching generator call with the same call count and errors; multiple-choice entries carry type `MCQ`, the options and the correct answer; fill-in-the-blank entries take the model's `answer` as their correct answer and have type `Fill in the blank`; a returned entry passed its kind's structural check |
| QuizManagement.GeneratorForSound | src/utils/helpers.py:133-177 | every question the real generator returns is of the requested kind and structurally valid |
| QuizManagement.AppendKeepsConsistent | src/utils/helpers.py:140-144 | accepting a question whose key is new keeps `seen` equal to the keys of the batch, with keys pairwise distinct |
| QuizManagement.FillSlotCalls | src/utils/helpers.py:127-141 | a slot makes at most its remaining generator calls, uses all of them when it finds no new question, and makes at least one otherwise |
| QuizManagement.FillSlotAccepts | src/utils/helpers.py:130-153 | a slot accepts only the question its own last generator call returned: that call starts at the recorded gateway number and the slot's gateway count ends right after it, every earlier call of the slot returned a question whose key was already seen, and the accepted key was not seen |
| QuizManagement.CollectFromGrows | src/utils/helpers.py:126-186 | the batch keeps what it had and gains at most one entry per slot; it is complete exactly when every slot accepted one |
| QuizManagement.CollectFromCalls | src/utils/helpers.py:123-141 | each remaining slot costs at most five generator calls |
| QuizManagement.CollectFromProduced | src/utils/helpers.py:133-177 | every entry the remaining slots add is one the generator returned |
| QuizManagement.CollectFromConsistent | src/utils/helpers.py:137-169 | the remaining slots keep `seen` equal to the keys of the batch, with keys pairwise distinct |
| QuizManagement.CollectFacts | src/utils/helpers.py:115-186 | a fresh batch never exceeds `num_questions` and is complete exactly when full; its keys are pairwise distinct and are exactly `seen_questions`; every entry is a generator result, so every entry is valid when the generator only returns valid questions; at most five generator calls per slot |
| QuizManagement.TryFillSlot | src/utils/helpers.py:127-177 | the inner `while` loop ends the slot exactly as the reference slot function does |
| QuizManagement.CollectQuestions | src/utils/helpers.py:114-197 | the nested loops produce the reference batch, verdict and call counts, and discard the previous answers and results |
| QuizManagement.GenerateQuestions | src/utils/helpers.py:78-197 | answers and results are reset; at most `num_questions` entries; `strip().lower()` texts pairwise distinct; every entry is of the requested kind and structurally valid; at most five generator calls per slot; the result is `True` exactly when no exception escaped and at least one question was accepted |
| QuizManagement.EvaluateQuiz | src/utils/helpers.py:233-272 | one record per `zip` pair, numbered from 1, carrying the question, type, user answer and correct answer; multiple choice keeps the options and is correct exactly on equal strings; fill-in-the-blank has no options and is correct exactly when both sides agree after `strip().lower()`; questions and answers are unchanged |
| QuizScenarios.DuplicatesExhaustSlot | src/utils/helpers.py:130-141 | when every call returns a seen key, the slot spends all its remaining attempts and ends without a question |
| QuizScenarios.ConstantGeneratorGivesOneQuestion | src/utils/helpers.py:123-186 | a generator whose every question has the same `strip().lower()` text (options and answers may differ), asked for two or more, gives a batch of just its first question after exactly six generator calls, stops early, and reports success |
| QuizScenarios.ConstantReplyGenerator | src/generator/question_generator.py:89-159 | a gateway that keeps giving the same valid multiple-choice reply makes every `generate_mcq` call succeed after one gateway call |
| QuizScenarios.ConstantGatewayGivesOneQuestion | src/utils/helpers.py:78-197 | multiple-choice generation against such a gateway, asked for two or more questions, gives one question after six generator calls and six gateway calls, reported as success |
| QuizScenarios.GatewayCallsOfUnitGenerator | src/utils/helpers.py:126-186 | when each generator call uses exactly one gateway call, the batch's gateway and generator counts stay equal |
| QuizScenarios.UnitSlotCounters | src/utils/helpers.py:127-177 | the same equality holds across one slot |
| QuizScenarios.DistinctQuestionsAllAccepted | src/utils/helpers.py:126-177 | a generator whose successive questions have distinct keys has all of them accepted, in order, one call per slot, and the batch completes |
| QuizScenarios.AcceptInOrder | src/utils/helpers.py:126-177 | from any slot on, such a generator's remaining questions are appended in order and `seen` ends as their keys |
| QuizScenarios.ExceptionAfterAcceptedQuestion | src/utils/helpers.py:188-190 | an exception in the second slot makes the call report `False` although the first question stays in the batch |
| QuizScenarios.NoUniqueStopsBatch | src/utils/helpers.py:181-186 | a slot without a new question ends the batch: the batch is unchanged and no later slot makes a generator call |
| QuizScenarios.FillMarkingIgnoresPaddingAndCase | src/utils/helpers.py:264-270 | a fill-in-the-blank answer is marked exactly as its `strip().lower()` form is |
| QuizScenarios.CorrectChoiceIsAnOption | src/utils/helpers.py:260-263 | an answer marked correct on a valid multiple-choice question is one of its options |
| QuizScenarios.MarkingExamples | src/utils/helpers.py:260-270 | `"paris"` is wrong for the multiple-choice answer `"Paris"`, and `" paris "` is right for the fill-in-the-blank answer `"Paris"` |

Three behaviours of the code that its docstrings do not spell out:

- The structural check runs once, after `_retry_and_parse` has returned. A
  reply that parses but fails the check is not retried
  (`StructuralFailureNotRetried`).
- The `generate_questions` docstring (src/utils/helpers.py:108-112) promises
  `True` when at least one question is generated and `False` when generation
  fails entirely. The code returns `False` on any exception, even after
  questions were accepted, and those questions stay in `self.questions`
  because nothing clears the list on that path
  (`ExceptionAfterAcceptedQuestion`).
- The `MCQQuestion` docstring (src/models/question_schemas.py:40-43) speaks
  of typically four options, one of them correct. The check in
  `generate_mcq` requires exactly four options containing the answer, and
  does not require the options to be distinct.

## Left out

- `rerun` and `attempt_quiz` (src/utils/helpers.py:30-41, 200-231): Streamlit session state and widgets, pure UI.
- `generate_result_dataframe` and `save_to_csv` (src/utils/helpers.py:274-329): pandas, file writes and wall-clock timestamps.
- The Groq client, the prompt templates and prompt formatting: together with the output parser, they are folded into the `Gateway` oracle. Topic and difficulty only shape the prompt, so they do not appear.
- Settings loading: `MAX_RETRIES` is a parameter (`DefaultMaxRetries` records its default of 3); `TEMPERATURE` is a float and does not affect this logic.
- Pydantic and LangChain parsing internals: a reply either has one of the two record shapes or is `Unparseable`. A `question` value that cleans to something other than a string fails the parse.
- Logging, `st.warning` and `st.error` output.
- Exception messages: each exception is a constructor (`Exhausted(maxRetries)` carries the attempt count that the message reports), not a string.
- PyStr.StripFacts, PyStr.LowerFacts: whitespace and case cover ASCII only. Python's `strip()` and `lower()` also act on Unicode whitespace and letters.
- QuestionSchemas.CleanQuestion: `repr()` is modelled exactly for ASCII text (the quote choice, and the escapes for the quote, backslash, tab, line feed, carriage return and other control characters). Every non-ASCII character is taken as printable and kept, so the `\x`, `\u` and `\U` escapes Python writes for non-printable non-ASCII characters are missing. Floating-point values are not modelled. Dict keys are assumed distinct, so `get` returns the first matching entry.
- QuizManagement.EvaluateQuiz: selects the comparison by the entry's kind, not by its `type` string. The two coincide because `generate_questions` writes the `type` label from the kind (`TypeLabel`).
