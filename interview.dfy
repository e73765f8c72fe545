/**
 * The interview session (`MockInterviewer` together with the Streamlit
 * session entries it keeps in step): the phase machine
 * initial -> ask_readiness -> ask_name -> await_answer* -> finished,
 * the question cursor, the per-answer history, the chat log and the
 * transcript file. Everything a language model writes (the introduction,
 * the phrasing of a question, the acknowledgement, the closing message)
 * arrives as a parameter, and so does the evaluation of an answer, which
 * is what `Evaluator.EvaluateReply` computes from the model's reply.
 */
module Interview {
  import opened Wrappers
  import opened Text
  import opened Evaluator

  datatype Phase = Initial | AskReadiness | AskName | AwaitAnswer | Finished

  /** One record of the question bank. */
  datatype Question = Question(id: Json, topic: string, question: string, expectedAnswer: string, criteria: string)

  /** One answered question, as appended to `interview_history`. */
  datatype HistoryEntry = HistoryEntry(id: Json, topic: string, question: string, answer: string, evaluation: Evaluation)

  /** One entry of `chat_messages`. */
  datatype ChatEntry = ChatEntry(role: Role, message: string)

  /** The two speakers `_display_message_to_chat` is called with. */
  datatype Speaker = AI | Candidate {
    /** The label written to the transcript. */
    function Label(): string {
      match this
      case AI => "AI"
      case Candidate => "Candidate"
    }

    /** The speaker key stored in the chat (see `KeyIsLowerLabel`). */
    function Key(): string {
      match this
      case AI => "ai"
      case Candidate => "candidate"
    }
  }

  /** Who a chat entry is from: the dispatch's own record of a submission, or a displayed speaker. */
  datatype Role = User | Said(speaker: Speaker) {
    /** The `role` value stored in the chat entry. */
    function Key(): string {
      match this
      case User => "user"
      case Said(s) => s.Key()
    }
  }

  /** The chat key of a speaker is its label lower-cased (`speaker.lower()`). */
  lemma KeyIsLowerLabel(speaker: Speaker)
    ensures speaker.Key() == Lower(speaker.Label())
  {
    match speaker
    case AI => assert Lower("AI") == "ai";
    case Candidate => assert Lower("Candidate") == "candidate";
  }

  const DefaultName := "Candidate"
  const NoResponse := "[No response provided]"
  const Greeting := "Hello! I'm your AI-powered Excel Mock Interviewer."
  const Goodbye := "No problem. We can proceed later. Goodbye!"
  const NoAnswerNotice := "It seems you didn't provide an answer. Moving to evaluation for this question."
  const ThankYou := "Thank you for completing the mock interview!"
  const GeneratingBanner := "--- Generating Your Feedback Report ---"
  const FeedbackBanner := "--- Your Performance Feedback ---"
  const EndBanner := "--- End of Interview ---"

  function UserEntry(message: string): ChatEntry { ChatEntry(User, message) }
  function AIEntry(message: string): ChatEntry { ChatEntry(Said(AI), message) }
  function CandidateEntry(message: string): ChatEntry { ChatEntry(Said(Candidate), message) }

  /** What one display call writes to the transcript file. */
  function LogText(speaker: Speaker, message: string): string {
    "\n" + speaker.Label() + ": " + message + "\n"
  }

  /** What a chat entry contributes to the transcript: user submissions contribute nothing. */
  function EntryLog(e: ChatEntry): seq<string> {
    match e.role
    case User => []
    case Said(s) => [LogText(s, e.message)]
  }

  /** The transcript writes the first `n` entries of a chat log correspond to. */
  function TranscriptUpTo(chat: seq<ChatEntry>, n: nat): seq<string>
    requires n <= |chat|
  {
    if n == 0 then [] else TranscriptUpTo(chat, n - 1) + EntryLog(chat[n - 1])
  }

  /** The transcript writes a chat log corresponds to. */
  function TranscriptOf(chat: seq<ChatEntry>): seq<string> {
    TranscriptUpTo(chat, |chat|)
  }

  /** What is logged for a prefix does not depend on what follows it. */
  lemma {:induction false} TranscriptUpToPrefix(a: seq<ChatEntry>, b: seq<ChatEntry>, n: nat)
    requires n <= |a|
    ensures TranscriptUpTo(a + b, n) == TranscriptUpTo(a, n)
  {
    if n > 0 {
      TranscriptUpToPrefix(a, b, n - 1);
      assert (a + b)[n - 1] == a[n - 1];
    }
  }

  /** The transcript of two chat runs is the transcript of the first followed by that of the second. */
  lemma {:induction false} TranscriptOfConcat(a: seq<ChatEntry>, b: seq<ChatEntry>)
    ensures TranscriptOf(a + b) == TranscriptOf(a) + TranscriptOf(b)
    decreases |b|
  {
    if b == [] {
      assert a + b == a;
    } else {
      var b' := b[..|b| - 1];
      assert a + b == (a + b') + [b[|b| - 1]];
      TranscriptUpToPrefix(a + b', [b[|b| - 1]], |a + b'|);
      TranscriptUpToPrefix(b', [b[|b| - 1]], |b'|);
      assert b == b' + [b[|b| - 1]];
      TranscriptOfConcat(a, b');
    }
  }

  /** A user submission added to the chat leaves the transcript as it was. */
  lemma UserEntryNotLogged(chat: seq<ChatEntry>, message: string)
    ensures TranscriptOf(chat + [UserEntry(message)]) == TranscriptOf(chat)
  {
    TranscriptUpToPrefix(chat, [UserEntry(message)], |chat|);
  }

  /** A displayed message is logged once, labelled with the speaker as written. */
  lemma DisplayedEntryLogged(chat: seq<ChatEntry>, speaker: Speaker, message: string)
    ensures TranscriptOf(chat + [ChatEntry(Said(speaker), message)]) == TranscriptOf(chat) + [LogText(speaker, message)]
  {
    TranscriptUpToPrefix(chat, [ChatEntry(Said(speaker), message)], |chat|);
  }

  /** The answer recorded for a submission: the sentinel stands in for an empty one. */
  function RecordedAnswer(answer: string): (r: string)
    ensures r != ""
    ensures answer != "" ==> r == answer
    ensures answer == "" ==> r == NoResponse
  {
    if answer == "" then NoResponse else answer
  }

  /** A history entry records the bank question it was made for. */
  predicate Records(h: HistoryEntry, q: Question) {
    h.id == q.id && h.topic == q.topic && h.question == q.question
  }

  /** The banner announcing question number `index + 1` of `total`. */
  function QuestionBanner(index: nat, total: nat, topic: string): string {
    "--- Question " + NatToString(index + 1) + " of " + NatToString(total) + ": " + topic + " ---"
  }

  function Welcome(name: string): string {
    "Nice to meet you, " + name + "! Let's begin."
  }

  /** The message reporting whether the feedback report file was written. */
  function SaveNotice(saveError: Option<string>, feedbackFile: string): string {
    match saveError
    case None => "Feedback report saved to: " + feedbackFile
    case Some(e) => "Error saving feedback report: " + e
  }

  /** The chat entries opening the interview. */
  function StartEntries(introduction: string): seq<ChatEntry> {
    [AIEntry(Greeting), AIEntry(introduction)]
  }

  /** The chat entries asking question number `index + 1` of `total`. */
  function QuestionEntries(index: nat, total: nat, topic: string, phrasing: string): seq<ChatEntry> {
    [AIEntry(QuestionBanner(index, total, topic)), AIEntry(phrasing)]
  }

  /** The notice shown after the acknowledgement of an empty answer. */
  function NoticeEntries(answer: string): seq<ChatEntry> {
    if answer == "" then [AIEntry(NoAnswerNotice)] else []
  }

  /** The chat entries closing the interview; `saveError` is the failure, if any, of writing the report file. */
  function EndEntries(finalMessage: string, saveError: Option<string>, feedbackFile: string, transcriptFile: string): seq<ChatEntry> {
    [AIEntry(ThankYou), AIEntry(finalMessage), AIEntry(GeneratingBanner), AIEntry(FeedbackBanner),
     AIEntry(SaveNotice(saveError, feedbackFile)), AIEntry(EndBanner), AIEntry("Transcript saved to: " + transcriptFile)]
  }

  /** The transcript holds exactly the displayed messages of the chat, in order. */
  predicate Logged(chat: seq<ChatEntry>, transcript: seq<string>) {
    transcript == TranscriptOf(chat)
  }

  /** Seven entries appended one at a time are the run of those seven. */
  lemma AppendedOneByOne(chat: seq<ChatEntry>, e1: ChatEntry, e2: ChatEntry, e3: ChatEntry, e4: ChatEntry,
                         e5: ChatEntry, e6: ChatEntry, e7: ChatEntry)
    ensures chat + [e1] + [e2] + [e3] + [e4] + [e5] + [e6] + [e7] == chat + [e1, e2, e3, e4, e5, e6, e7]
  {
  }

  /** Every entry is the interviewer's. */
  predicate AllInterviewer(entries: seq<ChatEntry>) {
    forall k :: 0 <= k < |entries| ==> entries[k].role == Said(AI)
  }

  /** A run of interviewer entries is logged one write each, in order, labelled "AI". */
  lemma {:induction false} InterviewerLogged(entries: seq<ChatEntry>, n: nat)
    requires AllInterviewer(entries) && n <= |entries|
    ensures |TranscriptUpTo(entries, n)| == n
    ensures forall k :: 0 <= k < n ==> TranscriptUpTo(entries, n)[k] == LogText(AI, entries[k].message)
  {
    if n > 0 {
      InterviewerLogged(entries, n - 1);
      assert entries[n - 1].role == Said(AI);
    }
  }

  /** The opening, question and closing runs are the interviewer's alone. */
  lemma ScriptedRunsAreInterviewer(introduction: string, index: nat, total: nat, topic: string, phrasing: string,
                                   answer: string, finalMessage: string, saveError: Option<string>,
                                   feedbackFile: string, transcriptFile: string)
    ensures AllInterviewer(StartEntries(introduction))
    ensures AllInterviewer(QuestionEntries(index, total, topic, phrasing))
    ensures AllInterviewer(NoticeEntries(answer))
    ensures AllInterviewer(EndEntries(finalMessage, saveError, feedbackFile, transcriptFile))
  {
  }

  /**
   * What a processed answer leaves in the transcript: the submission itself
   * is never written, and every interviewer message after it is written
   * once, in order, labelled "AI".
   */
  lemma SubmissionNotLogged(chat: seq<ChatEntry>, input: string, replies: seq<ChatEntry>)
    requires AllInterviewer(replies)
    ensures TranscriptOf(chat + [UserEntry(input)] + replies) == TranscriptOf(chat) + TranscriptOf(replies)
    ensures |TranscriptOf(replies)| == |replies|
    ensures forall k :: 0 <= k < |replies| ==> TranscriptOf(replies)[k] == LogText(AI, replies[k].message)
  {
    TranscriptOfConcat(chat + [UserEntry(input)], replies);
    UserEntryNotLogged(chat, input);
    InterviewerLogged(replies, |replies|);
  }

  /**
   * The chat run that follows a submitted answer: the acknowledgement, the
   * notice for an empty answer, then the next question or the closing.
   * Every entry of it is the interviewer's.
   */
  lemma AnswerRepliesAreInterviewer(acknowledgement: string, answer: string, tail: seq<ChatEntry>)
    requires AllInterviewer(tail)
    ensures AllInterviewer([AIEntry(acknowledgement)] + NoticeEntries(answer) + tail)
  {
    var head := [AIEntry(acknowledgement)] + NoticeEntries(answer);
    assert AllInterviewer(head);
    var all := head + tail;
    forall k | 0 <= k < |all| ensures all[k].role == Said(AI) {
      if k < |head| { assert all[k] == head[k]; } else { assert all[k] == tail[k - |head|]; }
    }
  }

  /**
   * After an answer, the chat holds the submission and then a run of
   * interviewer replies; the transcript grows by that run's log alone.
   */
  lemma RepliesLogged(before: seq<ChatEntry>, logBefore: seq<string>, after: seq<ChatEntry>, logAfter: seq<string>,
                      input: string, acknowledgement: string, tail: seq<ChatEntry>)
    requires Logged(before, logBefore) && Logged(after, logAfter) && AllInterviewer(tail)
    requires after == before + [UserEntry(input)] + [AIEntry(acknowledgement)] + NoticeEntries(input) + tail
    ensures |after| > |before| && AllInterviewer(after[|before| + 1..])
    ensures logAfter == logBefore + TranscriptOf(after[|before| + 1..])
  {
    AnswerRepliesAreInterviewer(acknowledgement, input, tail);
    var replies := [AIEntry(acknowledgement)] + NoticeEntries(input) + tail;
    assert after == before + [UserEntry(input)] + replies;
    assert after[|before| + 1..] == replies;
    SubmissionNotLogged(before, input, replies);
  }

  /**
   * The history records, in order, one answer to each of the first `|history|`
   * bank questions, and never an empty answer.
   */
  predicate HistoryMatches(history: seq<HistoryEntry>, questions: seq<Question>) {
    && |history| <= |questions|
    && (forall i :: 0 <= i < |history| ==> Records(history[i], questions[i]))
    && (forall i :: 0 <= i < |history| ==> history[i].answer != "")
  }

  /** Recording the next question keeps the history in step with the bank. */
  lemma HistoryMatchesAppend(history: seq<HistoryEntry>, questions: seq<Question>, e: HistoryEntry)
    requires HistoryMatches(history, questions) && |history| < |questions|
    requires Records(e, questions[|history|]) && e.answer != ""
    ensures HistoryMatches(history + [e], questions)
  {
    var h := history + [e];
    forall i | 0 <= i < |h|
      ensures Records(h[i], questions[i]) && h[i].answer != ""
    {
      if i < |history| { assert h[i] == history[i]; }
    }
  }

  /**
   * The session: the `MockInterviewer` object and the session entries
   * (`interview_state`, `current_question_index`, `interview_history`,
   * `candidate_name`, `current_question_data`, `chat_messages`) that the
   * script keeps in step with it. The transcript file is the sequence of
   * writes made to it.
   */
  class Session {
    const questions: seq<Question>
    var phase: Phase
    var cursor: nat
    var history: seq<HistoryEntry>
    var candidateName: string
    var currentQuestion: Option<Question>
    var chat: seq<ChatEntry>
    var transcript: seq<string>
    var transcriptFile: string
    var feedbackFile: string

    /** The session's invariant: the transcript follows the chat and the bookkeeping is in step. */
    ghost predicate Valid()
      reads this
    {
      Logged(chat, transcript) && InStep()
    }

    /** The cursor, history, phase and current question agree with each other and with the bank. */
    ghost predicate InStep()
      reads this
    {
      && cursor == |history|
      && HistoryMatches(history, questions)
      && (phase == AwaitAnswer ==> cursor < |questions| && currentQuestion == Some(questions[cursor]))
      && (phase == Initial || phase == AskReadiness || phase == AskName ==> cursor == 0)
      && (phase == Finished ==> cursor == 0 || cursor == |questions|)
      && (phase == Initial ==> chat == [] && candidateName == DefaultName && currentQuestion == None)
    }

    /** A fresh session: the session-state defaults and a newly opened (empty) transcript file. */
    constructor (questions: seq<Question>, transcriptFile: string, feedbackFile: string)
      ensures Valid()
      ensures this.questions == questions && this.transcriptFile == transcriptFile && this.feedbackFile == feedbackFile
      ensures phase == Initial && cursor == 0 && history == [] && candidateName == DefaultName
      ensures currentQuestion == None && chat == [] && transcript == []
    {
      this.questions := questions;
      this.transcriptFile := transcriptFile;
      this.feedbackFile := feedbackFile;
      phase := Initial;
      cursor := 0;
      history := [];
      candidateName := DefaultName;
      currentQuestion := None;
      chat := [];
      transcript := [];
    }

    /** `_display_message_to_chat`: one chat entry with the lower-cased speaker, one transcript write. */
    method DisplayMessage(speaker: Speaker, message: string)
      requires Logged(chat, transcript)
      modifies this`chat, this`transcript
      ensures Logged(chat, transcript)
      ensures chat == old(chat) + [ChatEntry(Said(speaker), message)]
      ensures transcript == old(transcript) + [LogText(speaker, message)]
    {
      DisplayedEntryLogged(chat, speaker, message);
      chat := chat + [ChatEntry(Said(speaker), message)];
      transcript := transcript + [LogText(speaker, message)];
    }

    /** The dispatch's own `chat_messages.append` of a submission: chat only, never the transcript. */
    method RecordSubmission(message: string)
      requires Logged(chat, transcript)
      modifies this`chat
      ensures Logged(chat, transcript)
      ensures chat == old(chat) + [UserEntry(message)]
    {
      UserEntryNotLogged(chat, message);
      chat := chat + [UserEntry(message)];
    }

    /** `start_interview_streamlit`. */
    method StartInterview(introduction: string)
      requires Logged(chat, transcript)
      modifies this`chat, this`transcript, this`phase
      ensures Logged(chat, transcript)
      ensures chat == old(chat) + StartEntries(introduction)
      ensures phase == AskReadiness
    {
      DisplayMessage(AI, Greeting);
      DisplayMessage(AI, introduction);
      phase := AskReadiness;
    }

    /** `ask_excel_question_streamlit`: announce and ask the question at the cursor. */
    method AskQuestion(phrasing: string)
      requires Logged(chat, transcript) && cursor < |questions|
      modifies this`chat, this`transcript, this`currentQuestion, this`phase
      ensures Logged(chat, transcript)
      ensures chat == old(chat) + QuestionEntries(cursor, |questions|, questions[cursor].topic, phrasing)
      ensures currentQuestion == Some(questions[cursor])
      ensures phase == AwaitAnswer
    {
      var q := questions[cursor];
      DisplayMessage(AI, QuestionBanner(cursor, |questions|, q.topic));
      DisplayMessage(AI, phrasing);
      currentQuestion := Some(q);
      phase := AwaitAnswer;
    }

    /** `end_interview_streamlit`: the closing messages, then the finished phase. */
    method EndInterview(finalMessage: string, saveError: Option<string>)
      requires Logged(chat, transcript)
      modifies this`chat, this`transcript, this`phase
      ensures Logged(chat, transcript)
      ensures chat == old(chat) + EndEntries(finalMessage, saveError, feedbackFile, transcriptFile)
      ensures phase == Finished
    {
      AnnounceReport(finalMessage);
      DisplayMessage(AI, SaveNotice(saveError, feedbackFile));
      DisplayMessage(AI, EndBanner);
      phase := Finished;
      DisplayMessage(AI, "Transcript saved to: " + transcriptFile);
      AppendedOneByOne(old(chat), AIEntry(ThankYou), AIEntry(finalMessage), AIEntry(GeneratingBanner), AIEntry(FeedbackBanner),
                       AIEntry(SaveNotice(saveError, feedbackFile)), AIEntry(EndBanner), AIEntry("Transcript saved to: " + transcriptFile));
    }

    /** The first four closing messages: thanks, the model's farewell and the two report banners. */
    method AnnounceReport(finalMessage: string)
      requires Logged(chat, transcript)
      modifies this`chat, this`transcript
      ensures Logged(chat, transcript)
      ensures chat == old(chat) + [AIEntry(ThankYou)] + [AIEntry(finalMessage)] + [AIEntry(GeneratingBanner)] + [AIEntry(FeedbackBanner)]
    {
      DisplayMessage(AI, ThankYou);
      DisplayMessage(AI, finalMessage);
      DisplayMessage(AI, GeneratingBanner);
      DisplayMessage(AI, FeedbackBanner);
    }

    /** The acknowledgement of an answer, with the notice for an empty one; returns the answer to record. */
    method Acknowledge(answer: string, acknowledgement: string) returns (recorded: string)
      requires Logged(chat, transcript)
      modifies this`chat, this`transcript
      ensures Logged(chat, transcript)
      ensures recorded == RecordedAnswer(answer)
      ensures chat == old(chat) + [AIEntry(acknowledgement)] + NoticeEntries(answer)
    {
      DisplayMessage(AI, acknowledgement);
      recorded := answer;
      if answer == "" {
        DisplayMessage(AI, NoAnswerNotice);
        recorded := NoResponse;
      }
    }

    /** One history entry for the question at the cursor, and the cursor moved past it. */
    method RecordAnswer(recorded: string, evaluation: Evaluation)
      requires cursor == |history| && HistoryMatches(history, questions) && cursor < |questions|
      requires recorded != ""
      modifies this`history, this`cursor
      ensures cursor == old(cursor) + 1 && cursor == |history| && HistoryMatches(history, questions)
      ensures history == old(history) +
        [HistoryEntry(questions[old(cursor)].id, questions[old(cursor)].topic, questions[old(cursor)].question,
                      recorded, evaluation)]
    {
      var q := questions[cursor];
      HistoryMatchesAppend(history, questions, HistoryEntry(q.id, q.topic, q.question, recorded, evaluation));
      history := history + [HistoryEntry(q.id, q.topic, q.question, recorded, evaluation)];
      cursor := cursor + 1;
    }

    /**
     * `acknowledge_and_process_answer_streamlit` for the current question:
     * acknowledge, substitute the sentinel for an empty answer, evaluate,
     * record exactly one history entry, advance the cursor, then ask the
     * next question or end the interview. The question answered is
     * `current_question_data`, which the invariant keeps equal to the
     * bank question at the cursor.
     */
    method ProcessAnswer(answer: string, acknowledgement: string, evaluation: Evaluation,
                         nextPhrasing: string, finalMessage: string, saveError: Option<string>)
      requires Valid() && phase == AwaitAnswer
      modifies this`chat, this`transcript, this`phase, this`history, this`cursor, this`currentQuestion
      ensures Valid()
      ensures cursor == old(cursor) + 1
      ensures history == old(history) +
        [HistoryEntry(questions[old(cursor)].id, questions[old(cursor)].topic, questions[old(cursor)].question,
                      RecordedAnswer(answer), evaluation)]
      ensures phase == Finished <==> |history| == |questions|
      ensures cursor < |questions| ==>
        && phase == AwaitAnswer && currentQuestion == Some(questions[cursor])
        && chat == old(chat) + [AIEntry(acknowledgement)] + NoticeEntries(answer)
                   + QuestionEntries(cursor, |questions|, questions[cursor].topic, nextPhrasing)
      ensures cursor == |questions| ==>
        && phase == Finished && currentQuestion == old(currentQuestion)
        && chat == old(chat) + [AIEntry(acknowledgement)] + NoticeEntries(answer)
                   + EndEntries(finalMessage, saveError, feedbackFile, transcriptFile)
    {
      var recorded := Acknowledge(answer, acknowledgement);
      RecordAnswer(recorded, evaluation);
      AskNextOrEnd(nextPhrasing, finalMessage, saveError);
    }

    /** After an answer is recorded: ask the question at the cursor if there is one, else end the interview. */
    method AskNextOrEnd(nextPhrasing: string, finalMessage: string, saveError: Option<string>)
      requires Logged(chat, transcript) && cursor == |history| && HistoryMatches(history, questions)
      requires 0 < cursor <= |questions|
      modifies this`chat, this`transcript, this`phase, this`currentQuestion
      ensures Valid()
      ensures cursor < |questions| ==>
        && phase == AwaitAnswer && currentQuestion == Some(questions[cursor])
        && chat == old(chat) + QuestionEntries(cursor, |questions|, questions[cursor].topic, nextPhrasing)
      ensures cursor == |questions| ==>
        && phase == Finished && currentQuestion == old(currentQuestion)
        && chat == old(chat) + EndEntries(finalMessage, saveError, feedbackFile, transcriptFile)
    {
      if cursor < |questions| {
        AskQuestion(nextPhrasing);
      } else {
        EndInterview(finalMessage, saveError);
      }
    }

    // -------------------------------------------------------------------
    // The script's dispatch on the phase, one method per input event.
    // A method called in another phase, or with an empty submission (the
    // `if x:` guards), changes nothing.
    // -------------------------------------------------------------------

    /** A run of the script in the initial phase. */
    method Start(introduction: string)
      requires Valid()
      modifies this`chat, this`transcript, this`phase
      ensures Valid()
      ensures old(phase) != Initial ==> unchanged(this)
      ensures old(phase) == Initial ==> phase == AskReadiness && chat == StartEntries(introduction)
    {
      if phase == Initial {
        StartInterview(introduction);
      }
    }

    /** A submission to the readiness prompt. */
    method SubmitReadiness(input: string)
      requires Valid()
      modifies this`chat, this`transcript, this`phase
      ensures Valid()
      ensures old(phase) != AskReadiness || input == "" ==> unchanged(this)
      ensures old(phase) == AskReadiness && input != "" && Lower(input) == "yes" ==>
        phase == AskName && chat == old(chat) + [UserEntry(input)] + [CandidateEntry(input)]
      ensures old(phase) == AskReadiness && input != "" && Lower(input) != "yes" ==>
        phase == Finished && history == [] &&
        chat == old(chat) + [UserEntry(input)] + [CandidateEntry(input)] + [AIEntry(Goodbye)]
    {
      if phase == AskReadiness && input != "" {
        AnswerReadiness(input);
      }
    }

    /** The readiness branch for a non-empty submission: only a case-insensitive "yes" moves on. */
    method AnswerReadiness(input: string)
      requires Valid() && phase == AskReadiness
      modifies this`chat, this`transcript, this`phase
      ensures Valid()
      ensures Lower(input) == "yes" ==>
        phase == AskName && chat == old(chat) + [UserEntry(input)] + [CandidateEntry(input)]
      ensures Lower(input) != "yes" ==>
        phase == Finished && history == [] &&
        chat == old(chat) + [UserEntry(input)] + [CandidateEntry(input)] + [AIEntry(Goodbye)]
    {
      RecordSubmission(input);
      DisplayMessage(Candidate, input);
      if Lower(input) == "yes" {
        phase := AskName;
      } else {
        DisplayMessage(AI, Goodbye);
        phase := Finished;
      }
    }

    /** A submission to the name prompt; the interview stays here if the bank has no question. */
    method SubmitName(input: string, phrasing: string)
      requires Valid()
      modifies this`chat, this`transcript, this`phase, this`candidateName, this`currentQuestion
      ensures Valid()
      ensures old(phase) != AskName || input == "" ==> unchanged(this)
      ensures old(phase) == AskName && input != "" ==>
        && candidateName == input
        && (|questions| > 0 ==>
              phase == AwaitAnswer && currentQuestion == Some(questions[0]) &&
              chat == old(chat) + [UserEntry(input)] + [CandidateEntry(input)] + [AIEntry(Welcome(input))]
                      + QuestionEntries(0, |questions|, questions[0].topic, phrasing))
        && (|questions| == 0 ==>
              phase == AskName && currentQuestion == old(currentQuestion) &&
              chat == old(chat) + [UserEntry(input)] + [CandidateEntry(input)] + [AIEntry(Welcome(input))])
    {
      if phase == AskName && input != "" {
        AnswerName(input, phrasing);
      }
    }

    /** The name branch for a non-empty submission: welcome the candidate, then ask the first question if there is one. */
    method AnswerName(input: string, phrasing: string)
      requires Valid() && phase == AskName
      modifies this`chat, this`transcript, this`phase, this`candidateName, this`currentQuestion
      ensures Valid()
      ensures candidateName == input
      ensures |questions| > 0 ==>
        phase == AwaitAnswer && currentQuestion == Some(questions[0]) &&
        chat == old(chat) + [UserEntry(input)] + [CandidateEntry(input)] + [AIEntry(Welcome(input))]
                + QuestionEntries(0, |questions|, questions[0].topic, phrasing)
      ensures |questions| == 0 ==>
        phase == AskName && currentQuestion == old(currentQuestion) &&
        chat == old(chat) + [UserEntry(input)] + [CandidateEntry(input)] + [AIEntry(Welcome(input))]
    {
      WelcomeCandidate(input);
      if cursor < |questions| {
        AskQuestion(phrasing);
      }
    }

    /** The name is echoed, stored and welcomed. */
    method WelcomeCandidate(input: string)
      requires Logged(chat, transcript)
      modifies this`chat, this`transcript, this`candidateName
      ensures Logged(chat, transcript)
      ensures candidateName == input
      ensures chat == old(chat) + [UserEntry(input)] + [CandidateEntry(input)] + [AIEntry(Welcome(input))]
    {
      RecordSubmission(input);
      DisplayMessage(Candidate, input);
      candidateName := input;
      DisplayMessage(AI, Welcome(input));
    }

    /** A submission to the answer prompt: recorded, then processed as the answer to the current question. */
    method SubmitAnswer(input: string, acknowledgement: string, evaluation: Evaluation,
                        nextPhrasing: string, finalMessage: string, saveError: Option<string>)
      requires Valid()
      modifies this`chat, this`transcript, this`phase, this`history, this`cursor, this`currentQuestion
      ensures Valid()
      ensures old(phase) != AwaitAnswer || input == "" ==> unchanged(this)
      ensures old(phase) == AwaitAnswer && input != "" ==>
        && cursor == old(cursor) + 1
        && history == old(history) +
             [HistoryEntry(questions[old(cursor)].id, questions[old(cursor)].topic, questions[old(cursor)].question,
                           RecordedAnswer(input), evaluation)]
        && (phase == Finished <==> |history| == |questions|)
        && (cursor < |questions| ==>
              phase == AwaitAnswer && currentQuestion == Some(questions[cursor]) &&
              chat == old(chat) + [UserEntry(input)] + [AIEntry(acknowledgement)] + NoticeEntries(input)
                      + QuestionEntries(cursor, |questions|, questions[cursor].topic, nextPhrasing))
        && (cursor == |questions| ==>
              phase == Finished && currentQuestion == old(currentQuestion) &&
              chat == old(chat) + [UserEntry(input)] + [AIEntry(acknowledgement)] + NoticeEntries(input)
                      + EndEntries(finalMessage, saveError, feedbackFile, transcriptFile))
        // the answer itself is never written to the transcript; every later message is
        && |chat| > |old(chat)| && AllInterviewer(chat[|old(chat)| + 1..])
        && transcript == old(transcript) + TranscriptOf(chat[|old(chat)| + 1..])
    {
      if phase == AwaitAnswer && input != "" {
        ghost var before, logBefore := chat, transcript;
        RecordSubmission(input);
        ProcessAnswer(input, acknowledgement, evaluation, nextPhrasing, finalMessage, saveError);
        if cursor < |questions| {
          ghost var tail := QuestionEntries(cursor, |questions|, questions[cursor].topic, nextPhrasing);
          ScriptedRunsAreInterviewer("", cursor, |questions|, questions[cursor].topic, nextPhrasing,
                                     input, finalMessage, saveError, feedbackFile, transcriptFile);
          RepliesLogged(before, logBefore, chat, transcript, input, acknowledgement, tail);
        } else {
          ghost var tail := EndEntries(finalMessage, saveError, feedbackFile, transcriptFile);
          ScriptedRunsAreInterviewer("", 0, 0, "", nextPhrasing,
                                     input, finalMessage, saveError, feedbackFile, transcriptFile);
          RepliesLogged(before, logBefore, chat, transcript, input, acknowledgement, tail);
        }
      }
    }

    /** The restart button of the finished phase: the whole session is reset, with new output files. */
    method Restart(newTranscriptFile: string, newFeedbackFile: string)
      requires Valid()
      modifies this
      ensures Valid()
      ensures old(phase) != Finished ==> unchanged(this)
      ensures old(phase) == Finished ==>
        && phase == Initial && cursor == 0 && history == [] && candidateName == DefaultName
        && currentQuestion == None && chat == [] && transcript == []
        && transcriptFile == newTranscriptFile && feedbackFile == newFeedbackFile
    {
      if phase == Finished {
        phase := Initial;
        cursor := 0;
        history := [];
        candidateName := DefaultName;
        currentQuestion := None;
        chat := [];
        transcript := [];
        transcriptFile := newTranscriptFile;
        feedbackFile := newFeedbackFile;
      }
    }
  }
}
