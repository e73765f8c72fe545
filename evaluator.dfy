/**
 * The answer evaluator's reply handling (`ExcelEvaluator.evaluate_answer`):
 * pull the JSON text out of the model's reply, decode it, and accept it only
 * when it is an object with both keys and an integer score from 1 to 5.
 * Every other outcome becomes a score-0 sentinel whose justification names
 * the kind of failure.
 */
module Evaluator {
  import opened Wrappers
  import opened Text

  /** A value as Python's `json.loads` returns it (an object is a `dict` with string keys). */
  datatype Json =
    | JNull
    | JBool(b: bool)
    | JInt(n: int)
    | JFloat(literal: string)
    | JString(s: string)
    | JArray(items: seq<Json>)
    | JObject(fields: map<string, Json>)

  /** The outcome of `json.loads`: a value, or `JSONDecodeError` with its message. */
  datatype Decoded = Parsed(value: Json) | Malformed(message: string)

  /**
   * What the language-model call produced: reply text, or an exception
   * with its message. The call sits inside the same `try` as the parsing,
   * so its exception is handled by the branch its class selects.
   */
  datatype ModelReply = Replied(text: string) | CallFailed(kind: FailureKind, message: string)

  /** The three `except` branches of `evaluate_answer`. */
  datatype FailureKind =
    | NotJson        // json.JSONDecodeError
    | FormatInvalid  // any other ValueError, such as those raised by the key and score checks
    | Unexpected     // any other exception

  /** What `evaluate_answer` returns: the decoded object itself, or the score-0 sentinel. */
  datatype Evaluation =
    | Accepted(fields: map<string, Json>)
    | Rejected(kind: FailureKind, justification: string)

  const Opener := "```json\n"
  const Closer := "```"

  const NotJsonPrefix := "Evaluation error: LLM response not valid JSON. "
  const FormatInvalidPrefix := "Evaluation error: LLM response format invalid. "
  const UnexpectedPrefix := "Unexpected evaluation error: "
  const MissingKeyMessage := "LLM response missing 'score' or 'justification' key."
  const BadScoreMessage := "LLM score is not an integer between 1 and 5."

  // ---------------------------------------------------------------------
  // Fence extraction: re.search(r"```json\n(.*?)```", reply, re.DOTALL)
  // ---------------------------------------------------------------------

  /** The pattern matches with its opener at `i` and its closer at `k`. */
  predicate FenceMatch(reply: string, i: int, k: int) {
    OccursAt(reply, Opener, i) && i + |Opener| <= k && OccursAt(reply, Closer, k)
  }

  /**
   * The match `re.search` reports: the leftmost start at which the pattern
   * matches at all, and, the group being lazy, the nearest closer after it.
   */
  ghost predicate SearchMatch(reply: string, i: int, k: int) {
    && FenceMatch(reply, i, k)
    && (forall i', k' :: 0 <= i' < i ==> !FenceMatch(reply, i', k'))
    && (forall k' :: i + |Opener| <= k' < k ==> !OccursAt(reply, Closer, k'))
  }

  /** The text handed to `json.loads`: the fenced content if the fence matches, else the reply, stripped. */
  function ExtractJsonText(reply: string): string {
    match FindFrom(reply, Opener, 0)
    case None => Strip(reply)
    case Some(i) =>
      match FindFrom(reply, Closer, i + |Opener|)
      case None => Strip(reply)
      case Some(k) => Strip(reply[i + |Opener|..k])
  }

  /** When the pattern matches, the group between the opener and the nearest closer is decoded, stripped. */
  lemma ExtractFenced(reply: string, i: int, k: int)
    requires SearchMatch(reply, i, k)
    ensures ExtractJsonText(reply) == Strip(reply[i + |Opener|..k])
  {
    var o := FindFrom(reply, Opener, 0);
    assert o.Some? && o.value <= i;
    if o.value < i {
      var c := FindFrom(reply, Closer, o.value + |Opener|);
      assert c.Some?;
      assert FenceMatch(reply, o.value, c.value);
      assert false;
    }
    var c := FindFrom(reply, Closer, i + |Opener|);
    assert c.Some? && c.value == k;
  }

  /** When the pattern does not match anywhere, the whole reply is decoded, stripped. */
  lemma ExtractUnfenced(reply: string)
    requires forall i, k :: !FenceMatch(reply, i, k)
    ensures ExtractJsonText(reply) == Strip(reply)
  {
    ExtractCases(reply);
  }

  /** Exactly one of the two cases applies to every reply. */
  lemma ExtractCases(reply: string)
    ensures || (exists i, k :: SearchMatch(reply, i, k) && ExtractJsonText(reply) == Strip(reply[i + |Opener|..k]))
            || ((forall i, k :: !FenceMatch(reply, i, k)) && ExtractJsonText(reply) == Strip(reply))
  {
    var o := FindFrom(reply, Opener, 0);
    if o.Some? {
      var c := FindFrom(reply, Closer, o.value + |Opener|);
      if c.Some? {
        FirstFenceIsSearchMatch(reply, o.value, c.value);
        assert ExtractJsonText(reply) == Strip(reply[o.value + |Opener|..c.value]);
      } else {
        forall i, k ensures !FenceMatch(reply, i, k) {
          if OccursAt(reply, Opener, i) && i + |Opener| <= k {
            assert o.value <= i;
            assert !OccursAt(reply, Closer, k);
          }
        }
      }
    } else {
      forall i, k ensures !FenceMatch(reply, i, k) {
        assert !OccursAt(reply, Opener, i);
      }
    }
  }

  /** The first opener, with the first closer after it, is the match `re.search` reports. */
  lemma FirstFenceIsSearchMatch(reply: string, i: nat, k: nat)
    requires FindFrom(reply, Opener, 0) == Some(i) && FindFrom(reply, Closer, i + |Opener|) == Some(k)
    ensures SearchMatch(reply, i, k)
  {
    forall i', k' | 0 <= i' < i ensures !FenceMatch(reply, i', k') {
      assert !OccursAt(reply, Opener, i');
    }
  }

  // ---------------------------------------------------------------------
  // Validation of the decoded value
  // ---------------------------------------------------------------------

  /** Python's `isinstance(v, int)`: `bool` is a subclass of `int`. */
  predicate IsPythonInt(v: Json) {
    v.JInt? || v.JBool?
  }

  /** The integer an `int` (or `bool`) stands for. */
  function PythonIntValue(v: Json): int
    requires IsPythonInt(v)
  {
    match v
    case JInt(n) => n
    case JBool(b) => if b then 1 else 0
  }

  /** Values on which Python's `key in v` is defined (`dict`, `list`, `str`). */
  predicate SupportsIn(v: Json) {
    v.JObject? || v.JArray? || v.JString?
  }

  /** Python's `key in v` for a string key: a dict key, a list member or a substring. */
  predicate PythonIn(key: string, v: Json)
    requires SupportsIn(v)
  {
    match v
    case JObject(m) => key in m
    case JArray(items) => JString(key) in items
    case JString(s) => Contains(s, key)
  }

  /** Python's type name of a decoded value. */
  function TypeName(v: Json): string {
    match v
    case JNull => "NoneType"
    case JBool(_) => "bool"
    case JInt(_) => "int"
    case JFloat(_) => "float"
    case JString(_) => "str"
    case JArray(_) => "list"
    case JObject(_) => "dict"
  }

  /** The message of the `TypeError` raised by `"score" in v` (CPython 3.11 wording). */
  function NotIterableMessage(v: Json): string {
    "argument of type '" + TypeName(v) + "' is not iterable"
  }

  /** The message of the `TypeError` raised by `v["score"]` on a list or string (CPython 3.11 wording). */
  function StringIndexMessage(v: Json): string {
    if v.JArray? then "list indices must be integers or slices, not str"
    else "string indices must be integers, not 'str'"
  }

  /** An object the evaluator accepts: both keys present and an integer score from 1 to 5. */
  predicate WellFormed(v: Json) {
    && v.JObject?
    && "score" in v.fields
    && "justification" in v.fields
    && IsPythonInt(v.fields["score"])
    && 1 <= PythonIntValue(v.fields["score"]) <= 5
  }

  /** The score the returned dictionary carries: 0 for every sentinel. */
  function Score(e: Evaluation): int {
    match e
    case Rejected(_, _) => 0
    case Accepted(m) =>
      if "score" in m && IsPythonInt(m["score"]) then PythonIntValue(m["score"]) else 0
  }

  /**
   * What `evaluate_answer` can return: an accepted object is well formed,
   * and a sentinel's justification starts with the prefix of its handler.
   */
  predicate Sound(e: Evaluation) {
    match e
    case Accepted(m) => WellFormed(JObject(m))
    case Rejected(kind, j) => Prefix(kind) <= j
  }

  /**
   * The dictionary the source returns for an evaluation: its score is a
   * Python `int` from 0 to 5, and 0 exactly for a sentinel.
   */
  function AsDict(e: Evaluation): (d: map<string, Json>)
    requires Sound(e)
    ensures "score" in d && "justification" in d
    ensures IsPythonInt(d["score"]) && 0 <= PythonIntValue(d["score"]) <= 5
    ensures PythonIntValue(d["score"]) == 0 <==> e.Rejected?
    ensures PythonIntValue(d["score"]) == Score(e)
    ensures e.Accepted? ==> d == e.fields
    ensures e.Rejected? ==>
      d.Keys == {"score", "justification"} && d["justification"].JString? && Prefix(e.kind) <= d["justification"].s
  {
    match e
    case Accepted(m) => m
    case Rejected(_, j) => map["score" := JInt(0), "justification" := JString(j)]
  }

  /** The prefix every justification of a failure kind starts with. */
  function Prefix(kind: FailureKind): string {
    match kind
    case NotJson => NotJsonPrefix
    case FormatInvalid => FormatInvalidPrefix
    case Unexpected => UnexpectedPrefix
  }

  /** Validation of the outcome of `json.loads` (the key and score checks and the three handlers). */
  function Validate(d: Decoded): (r: Evaluation)
    ensures r.Accepted? <==> d.Parsed? && WellFormed(d.value)
    ensures r.Accepted? ==> d.value == JObject(r.fields)
    ensures Sound(r)
    ensures r.Rejected? ==> (r.kind == NotJson <==> d.Malformed?)
    ensures (r.Rejected? && r.kind == Unexpected) <==>
      d.Parsed? && !d.value.JObject? && (SupportsIn(d.value) ==> PythonIn("score", d.value) && PythonIn("justification", d.value))
    ensures r.Rejected? && d.Parsed? && d.value.JObject? ==> r.kind == FormatInvalid
    ensures 0 <= Score(r) <= 5
    ensures Score(r) == 0 <==> r.Rejected?
  {
    match d
    case Malformed(message) => Rejected(NotJson, NotJsonPrefix + message)
    case Parsed(v) =>
      if !SupportsIn(v) then
        Rejected(Unexpected, UnexpectedPrefix + NotIterableMessage(v))
      else if !PythonIn("score", v) || !PythonIn("justification", v) then
        Rejected(FormatInvalid, FormatInvalidPrefix + MissingKeyMessage)
      else if !v.JObject? then
        Rejected(Unexpected, UnexpectedPrefix + StringIndexMessage(v))
      else if !IsPythonInt(v.fields["score"]) || !(1 <= PythonIntValue(v.fields["score"]) <= 5) then
        Rejected(FormatInvalid, FormatInvalidPrefix + BadScoreMessage)
      else
        Accepted(v.fields)
  }

  /**
   * `evaluate_answer` after its model call: a failed call goes to the
   * handler of its exception's class, a reply is extracted, decoded and
   * validated (see `EvaluateReplyOutcome`).
   */
  function EvaluateReply(reply: ModelReply, decode: string -> Decoded): (r: Evaluation)
    ensures Sound(r)
    ensures 0 <= Score(r) <= 5
  {
    match reply
    case CallFailed(kind, message) => Rejected(kind, Prefix(kind) + message)
    case Replied(text) => Validate(decode(ExtractJsonText(text)))
  }

  /** An evaluation is accepted exactly when the reply's extracted text decodes to a well-formed object. */
  lemma EvaluateReplyOutcome(reply: ModelReply, decode: string -> Decoded)
    ensures EvaluateReply(reply, decode).Accepted? <==>
      reply.Replied? && decode(ExtractJsonText(reply.text)).Parsed? && WellFormed(decode(ExtractJsonText(reply.text)).value)
    ensures EvaluateReply(reply, decode).Accepted? ==>
      decode(ExtractJsonText(reply.text)) == Parsed(JObject(EvaluateReply(reply, decode).fields))
    ensures EvaluateReply(reply, decode).Rejected? ==>
      Prefix(EvaluateReply(reply, decode).kind) <= EvaluateReply(reply, decode).justification
    ensures reply.CallFailed? ==>
      EvaluateReply(reply, decode) == Rejected(reply.kind, Prefix(reply.kind) + reply.message)
    ensures Score(EvaluateReply(reply, decode)) == 0 <==> EvaluateReply(reply, decode).Rejected?
    ensures var d := AsDict(EvaluateReply(reply, decode));
      IsPythonInt(d["score"]) && 0 <= PythonIntValue(d["score"]) <= 5 &&
      (PythonIntValue(d["score"]) == 0 <==> EvaluateReply(reply, decode).Rejected?)
  {
  }

  /** A `true` score passes as 1 and the justification's type is never checked. */
  lemma BoolScoreAccepted(justification: Json)
    ensures Validate(Parsed(JObject(map["score" := JBool(true), "justification" := justification]))).Accepted?
    ensures Score(Validate(Parsed(JObject(map["score" := JBool(true), "justification" := justification])))) == 1
  {
  }

  /** `{"score": "five"}`: a format error with score 0 (the justification key is missing). */
  lemma WordScoreRejected(justification: Json)
    ensures Validate(Parsed(JObject(map["score" := JString("five")]))) ==
      Rejected(FormatInvalid, FormatInvalidPrefix + MissingKeyMessage)
    ensures Validate(Parsed(JObject(map["score" := JString("five"), "justification" := justification]))) ==
      Rejected(FormatInvalid, FormatInvalidPrefix + BadScoreMessage)
  {
  }
}
