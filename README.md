# AI Excel Mock Interviewer — a Dafny model of its core

The interviewer is a Streamlit script (`app.py`). It greets the candidate and asks whether they are ready. It then takes their name and asks the questions of a fixed question bank one at a time. A language model scores each answer, and a feedback report closes the interview. Two parts of it carry logic of their own, and this project models both:

- **The answer evaluator's reply handling** (`ExcelEvaluator.evaluate_answer`, module `Evaluator`, file `evaluator.dfy`). The model's reply may contain a fence: three backticks, `json` and a newline. If it does, the text up to the nearest following three backticks is taken; otherwise the whole reply is. That text is stripped and decoded as JSON. The result is accepted only if it is an object with both the keys `score` and `justification` and a score that is a Python `int` from 1 to 5. Every other outcome becomes a score-0 sentinel. Its justification starts with one of three prefixes, one per `except` branch. The fence search, strip and validation are pure functions. The JSON decoder (`json.loads`) is a parameter: `Decoded` is either the value it returns or its `JSONDecodeError` message.
- **The interview session** (`MockInterviewer` plus the Streamlit session entries the script keeps in step with it, module `Interview`, file `interview.dfy`). It is a class `Session` with these fields:
  - `phase`: `initial`, `ask_readiness`, `ask_name`, `await_answer` or `finished`;
  - the question `cursor`, the answer `history`, `candidateName` and `currentQuestion`;
  - the append-only `chat` and `transcript` sequences;
  - the immutable `questions` bank.

  The class has one method per input event: `Start`, `SubmitReadiness`, `SubmitName`, `SubmitAnswer` and `Restart`. It also has one method per `MockInterviewer` method that changes the session. Every model-written text is a parameter: the introduction, a question's phrasing, the acknowledgement and the closing message. So are the evaluation of an answer and the outcome of writing the report file. An empty submission is no event, because of the script's `if x:` guards.

The class invariant `Session.Valid()` states:
- The transcript is exactly the log lines of the displayed chat entries, in order (`TranscriptOf`). A submission recorded by the dispatch itself writes nothing to it.
- `|history| == cursor <= |questions|`.
- `history[i]` records bank question `i` (its id, topic and question text) and a non-empty answer.
- In `await_answer`, the current question is the bank question at the cursor.
- In `initial`, `ask_readiness` and `ask_name` the cursor is 0. In `finished` it is 0 (the candidate said no) or `|questions|` (every question was answered).

Helper module `Text` (file `text.dfy`) models the string operations the source uses, over ASCII: `str.strip()`, `str.lower()`, substring search and `str(n)`. `Wrappers` holds `Option`.

Some behaviours of the code differ from what its own prompts and branches suggest. The model follows what the code does:
- **The name prompt and empty input.** The name branch provides for an empty name (app.py:325-326, "No problem. We'll proceed."). But the guard at app.py:318 treats an empty submission as no event, so that branch can never run.
- **An empty question bank.** With no questions, a name moves nothing: the phase stays `ask_name`.
- **The justification.** The evaluation prompt asks for exactly two keys, an integer score and a string justification (app.py:57-58). The code checks only that `justification` is present, and it allows extra keys. A JSON `true` score passes as 1, because `bool` is a subclass of `int`.
- **Empty answers.** The dispatch ignores an empty answer (app.py:334). So the "[No response provided]" sentinel of app.py:225-227 is reachable only by calling `ProcessAnswer` directly. The model proves the sentinel there.
- **Readiness and name submissions in the chat.** Each one enters the chat twice: once as a `user` entry (the dispatch) and once as a `candidate` entry (the display helper). Only the second is written to the transcript.

## Model

| member | source | states |
|---|---|---|
| `Text.Strip` | app.py:86-88 | the result is the input with only whitespace cut from either end, and it neither starts nor ends with whitespace |
| `Text.StripUnique` | app.py:86-88 | any string cut from the input that way is the strip: the description determines `s.strip()` |
| `Text.Lower` | app.py:308 | same length, every character lower-cased (ASCII) |
| `Text.LowerIsYes` | app.py:308 | `x.lower() == "yes"` holds exactly for the three-letter inputs y/Y, e/E, s/S |
| `Text.FindFrom` | app.py:84 | the first index at or after the start where the pattern occurs, or none when it occurs nowhere there |
| `Text.ContainsIff` | app.py:90 | `key in s` on strings holds exactly when the key occurs somewhere in `s` |
| `Text.NatToStringDenotes` | app.py:212-214 | the question number and count are printed as decimal digits, without leading zeros, that denote the number |
| `Evaluator.FirstFenceIsSearchMatch` | app.py:84 | the first opener, with the first closer after it, is the leftmost match of the lazy pattern |
| `Evaluator.ExtractFenced` | app.py:84-86 | when the fence pattern matches, the decoded text is the stripped content between the first opener and the nearest following closer |
| `Evaluator.ExtractUnfenced` | app.py:87-88 | when the fence pattern matches nowhere, the decoded text is the whole reply, stripped |
| `Evaluator.ExtractCases` | app.py:84-88 | every reply falls under exactly one of the two cases above |
| `Evaluator.Validate` | app.py:89-106 | accepted exactly when the decode succeeded with an object that has both keys and a Python-int score from 1 to 5, and then the object is returned unchanged. A decode error is the "not valid JSON" failure. Any object that fails is the "format invalid" failure. The "unexpected" failure happens exactly for a decoded non-object where the `in` test raises (a number, bool or null) or where the string index raises (a list or string that holds both keys). Each failure's justification starts with its own prefix. The score is in 0..5, and it is 0 exactly on failure |
| `Evaluator.AsDict` | app.py:94-106 | for anything the evaluator can return, the returned dictionary has both keys and a Python-int score from 0 to 5, and that score is 0 exactly for a sentinel. An accepted object is returned as decoded. A sentinel has just the two keys, and its justification is a string that starts with its handler's prefix |
| `Evaluator.EvaluateReply` | app.py:70-106 | whatever the model call or its reply, the score is in 0..5 |
| `Evaluator.EvaluateReplyOutcome` | app.py:72-106 | accepted exactly when the call replied and the extracted text decodes to a well-formed object, and then that object is the result. A failed call is handled by the branch its exception class selects, and the justification is that branch's prefix followed by the exception's message. A rejection always carries its prefix. Score 0 means rejection, in the returned dictionary as well |
| `Evaluator.BoolScoreAccepted` | app.py:92 | a JSON `true` score passes as the integer 1, whatever type the justification has |
| `Evaluator.WordScoreRejected` | app.py:90-93 | `{"score": "five"}` fails as "missing key", and with a justification it fails as "score not an integer between 1 and 5", both with score 0 |
| `Interview.KeyIsLowerLabel` | app.py:180 | the speaker stored in the chat is the displayed speaker name lower-cased |
| `Interview.TranscriptUpToPrefix` | app.py:181-184 | entries appended later never change what was written for earlier ones |
| `Interview.TranscriptOfConcat` | app.py:179-190 | the transcript of two chat runs is the first run's transcript followed by the second's |
| `Interview.UserEntryNotLogged` | app.py:333-336 | a submission recorded by the dispatch adds nothing to the transcript |
| `Interview.DisplayedEntryLogged` | app.py:179-184 | a displayed message adds exactly one transcript write, `"\n" + speaker + ": " + message + "\n"` |
| `Interview.InterviewerLogged` | app.py:179-190 | a run of interviewer messages is written one line each, in order, labelled `AI` |
| `Interview.SubmissionNotLogged` | app.py:332-336 | after an answer, the transcript grows by the interviewer's replies only, one line each, and never by the answer itself |
| `Interview.AnswerRepliesAreInterviewer` | app.py:223-226 | the acknowledgement, the notice for an empty answer, and a following run of interviewer messages are all the interviewer's |
| `Interview.RepliesLogged` | app.py:332-336 | when the chat grows by an answer and then its replies, the transcript grows by exactly the log of the replies |
| `Interview.RecordedAnswer` | app.py:225-227 | the recorded answer is never empty: an empty answer becomes "[No response provided]", and any other is kept as given |
| `Interview.HistoryMatchesAppend` | app.py:234-241 | appending an entry for the question at the cursor keeps the history in order with the bank |
| `Interview.Session.constructor` | app.py:286-292 | a new session is `initial`, with cursor 0, empty history, chat and transcript, and the default name "Candidate" |
| `Interview.Session.DisplayMessage` | app.py:179-190 | exactly one chat entry and one transcript write are appended, and earlier entries are unchanged |
| `Interview.Session.RecordSubmission` | app.py:335 | one `user` chat entry is appended, and the transcript is unchanged |
| `Interview.Session.StartInterview` | app.py:201-208 | the greeting and the introduction are displayed, and the phase becomes `ask_readiness` |
| `Interview.Session.AskQuestion` | app.py:210-219 | the banner "Question n of N: topic" and the phrasing are displayed, the question at the cursor becomes current, and the phase becomes `await_answer` |
| `Interview.Session.EndInterview` | app.py:249-272 | the seven closing messages are displayed in order, including the report-file outcome, and the phase becomes `finished` |
| `Interview.Session.AnnounceReport` | app.py:250-258 | the thanks, the model's farewell and the two report banners are displayed in that order |
| `Interview.Session.Acknowledge` | app.py:222-227 | the acknowledgement is displayed, plus the no-answer notice for an empty answer, and the answer to record is returned |
| `Interview.Session.RecordAnswer` | app.py:234-243 | exactly one history entry (the cursor question's id, topic and text, the answer and the evaluation) is appended, and the cursor grows by exactly 1 |
| `Interview.Session.ProcessAnswer` | app.py:221-247 | one history entry for the current question and the cursor plus 1. The next question is asked if one is left, otherwise the interview ends. `finished` holds exactly when every question is answered |
| `Interview.Session.AskNextOrEnd` | app.py:244-247 | if the cursor is inside the bank, its question is asked and the phase is `await_answer`; otherwise the closing runs and the phase is `finished` |
| `Interview.Session.Start` | app.py:300-301 | only in `initial`: the chat becomes the greeting and the introduction, and the phase becomes `ask_readiness` |
| `Interview.Session.SubmitReadiness` | app.py:303-314 | in `ask_readiness`, a non-empty "yes" in any case moves to `ask_name`. Any other non-empty input says goodbye and moves to `finished` with an empty history. An empty input or any other phase changes nothing |
| `Interview.Session.AnswerReadiness` | app.py:305-314 | the submission is echoed, then lower-case "yes" moves to `ask_name` and anything else says goodbye and finishes with no question asked |
| `Interview.Session.SubmitName` | app.py:316-330 | in `ask_name`, a non-empty input becomes the name. The first question is then asked if the bank has one, and otherwise the phase stays `ask_name`. An empty input or any other phase changes nothing |
| `Interview.Session.AnswerName` | app.py:318-330 | the name is stored and welcomed, then the first question is asked if there is one |
| `Interview.Session.WelcomeCandidate` | app.py:319-324 | the name is echoed to the chat as `user` and as `candidate`, stored, and welcomed |
| `Interview.Session.SubmitAnswer` | app.py:332-337 | in `await_answer`, a non-empty answer is recorded as a `user` chat entry, and then exactly one history entry is added and the cursor grows by 1, as `ProcessAnswer` states. Everything displayed after the answer is the interviewer's, and the transcript grows by exactly its log, so the answer itself is never written. An empty input or any other phase changes nothing |
| `Interview.Session.Restart` | app.py:339-343 | only in `finished`: back to `initial` with cursor 0, empty history, chat and transcript, the default name, and new output files |

## Left out

- Language-model calls: the introduction, question phrasing, acknowledgement and closing message are parameters, and so is the model call inside the evaluator (`ModelReply`). `_get_ai_response` and its `ConversationBufferMemory` (including `memory.clear()` at the end) are not modelled.
- `json.loads` is not written out. Its outcome is a parameter of type `Decoded`, and the text of a `JSONDecodeError` is opaque.
- `FeedbackGenerator.generate_feedback_report` is not modelled. The report text is not part of the session state. Only the outcome of writing the report file (`saveError`) appears, as the message it displays.
- The proficiency tier and the average score are not computed anywhere in the code. They exist only as instructions in the report prompt (app.py:133-139), so the model has no member for them.
- Prompt texts, including `candidate_answer[:100]` in the acknowledgement prompt and the question count in the introduction prompt, are not modelled.
- File I/O is not modelled: loading the question bank, creating directories, timestamped file names, and writing the report file. The transcript is an append-only sequence of writes. Closing and reopening its file handle (app.py:182-192, 268-270) appends just the same, so the model does not distinguish the two; a failed reopen, which loses that write, is not modelled.
- Streamlit rendering and control are not modelled: `st.chat_input`, `st.rerun`, `st.spinner`, `st.markdown`, `st.error`, `st.code`, `st.warning`, `st.success`, the render loop at app.py:296-298, and `@st.cache_resource`. The API-key check at app.py:14-19 is left out too.
- `st.session_state.current_question_index` and `interviewer.current_question_index` are kept equal by the script (app.py:242, 327). The model has a single `cursor`.
- `str.lower()`, `str.strip()` and `str.isspace()` are modelled over ASCII only. There is no Unicode case folding or Unicode whitespace.
- `TypeError` messages for a non-object reply follow the CPython 3.11 wording.
- Interview.Session.ProcessAnswer: the evaluation is a parameter. Its contract does not say that it is `Evaluator.EvaluateReply` of the reply to the recorded answer; the score bound 0..5 is proved of `EvaluateReply` instead.
- Interview.Session.SubmitAnswer: the same applies to its evaluation parameter.
- Interview.Session.StartInterview, Interview.Session.AskQuestion, Interview.Session.Acknowledge, Interview.Session.EndInterview: in these methods a model call always succeeds, because its text is a parameter. In the source, the calls at app.py:205, 216, 223 and 253 are not guarded by a `try`. If one raises, the script run stops with the session half-updated. For example, if the phrasing call at app.py:216 fails after app.py:241 has advanced the index, `current_question_data` and the phase keep their old values. The next answer is then filed under the question already answered, and a question is skipped. If the call at app.py:253 fails, the phase stays `await_answer`, and the next answer makes the history longer than the bank. In such a run, `Session.Valid()` would break: both `|history| == cursor <= |questions|` and the in-order match of history and bank would fail. The model does not capture these partial updates.
