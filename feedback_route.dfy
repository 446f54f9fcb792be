/**
 * The feedback endpoint (frontend/app/api/feedback/route.js): it reads the
 * single feedback file (or starts from an empty list), appends one entry and
 * writes the whole list back. The file is a field of `FeedbackStore`; the
 * clock and the outcome of the write are parameters.
 */
module FeedbackRoute {
  import opened Wrappers
  import opened Json

  /** The feedback file: absent, holding a parsed JSON value, or holding text `JSON.parse` rejects. */
  datatype FeedbackFile = Missing | Stored(content: Json) | Corrupt

  /** The request body: text `request.json()` rejects, or the parsed value. */
  datatype RequestBody = Malformed | Body(value: Json)

  datatype Response = Response(status: int, body: Json)

  const SuccessResponse := Response(200, JObj(map["success" := JBool(true)]))
  const FailureResponse := Response(500, JObj(map["error" := JStr("Failed to save feedback")]))

  /** The stored list, `[]` for a missing file, `None` when `push` cannot run (corrupt file or a non-array). */
  function Entries(file: FeedbackFile): Option<seq<Json>> {
    match file
    case Missing => Some([])
    case Stored(JArr(items)) => Some(items)
    case _ => None
  }

  /** `o.key` kept only when defined, as `JSON.stringify` drops `undefined` members. */
  function DefinedMembers(members: map<string, Option<Json>>): map<string, Json> {
    map k | k in members && members[k].Some? :: members[k].value
  }

  /** The members of `newEntry`, `None` where the value is `undefined`. */
  function EntryMembers(body: Json, timestamp: string): map<string, Option<Json>> {
    map[
      "timestamp" := Some(JStr(timestamp)),
      "session_id" := Some(JStr("session_id")),
      "form_data" := Some(JObj(map[])),
      "analysis_result" := Property(body, "analysisResult"),
      "feedback" := Property(body, "feedback"),
      "source" := Some(JStr("user_generated"))]
  }

  /** The new entry for a body the destructuring accepted (anything but `null`). */
  function NewEntry(body: Json, timestamp: string): Json {
    JObj(DefinedMembers(EntryMembers(body, timestamp)))
  }

  /** The members the entry always has: the fixed session id, an empty form, the fixed source and the timestamp. */
  lemma NewEntryFixedMembers(body: Json, timestamp: string)
    ensures var e := NewEntry(body, timestamp).fields;
      && e["session_id"] == JStr("session_id") && e["form_data"] == JObj(map[])
      && e["source"] == JStr("user_generated") && e["timestamp"] == JStr(timestamp)
  {
    DefinedMembersFacts(EntryMembers(body, timestamp));
  }

  /**
   * The entry carries the feedback and the analysis result exactly when the
   * body has them, and has no members besides the six listed.
   */
  lemma NewEntryFacts(body: Json, timestamp: string)
    ensures var e := NewEntry(body, timestamp).fields;
      && ("feedback" in e <==> Property(body, "feedback").Some?)
      && ("feedback" in e ==> e["feedback"] == Property(body, "feedback").value)
      && ("analysis_result" in e <==> Property(body, "analysisResult").Some?)
      && ("analysis_result" in e ==> e["analysis_result"] == Property(body, "analysisResult").value)
      && e.Keys <= {"timestamp", "session_id", "form_data", "analysis_result", "feedback", "source"}
  {
    DefinedMembersFacts(EntryMembers(body, timestamp));
  }

  /** A member is kept, with its value, exactly when it is defined. */
  lemma DefinedMembersFacts(members: map<string, Option<Json>>)
    ensures forall k :: k in DefinedMembers(members) <==> k in members && members[k].Some?
    ensures forall k | k in DefinedMembers(members) :: DefinedMembers(members)[k] == members[k].value
  {
  }

  /** The request is one the handler can save: it parsed, and it is not `null` (destructuring `null` throws). */
  predicate Saveable(request: RequestBody) {
    request.Body? && request.value != JNull
  }

  class FeedbackStore {
    var file: FeedbackFile

    constructor (initial: FeedbackFile)
      ensures file == initial
    {
      file := initial;
    }

    /**
     * `POST`: on success the file holds the earlier entries, in order, and
     * the new one at the end, and the answer is `{ success: true }`; any
     * failure (a bad body, an unreadable or non-array file, a failed write)
     * leaves the file as it was and answers 500.
     */
    method Post(request: RequestBody, timestamp: string, writeSucceeds: bool) returns (response: Response)
      modifies this
      ensures var ok := Saveable(request) && Entries(old(file)).Some? && writeSucceeds;
        && (ok ==> response == SuccessResponse
                   && file == Stored(JArr(Entries(old(file)).value + [NewEntry(request.value, timestamp)])))
        && (!ok ==> response == FailureResponse && file == old(file))
    {
      if !Saveable(request) {
        return FailureResponse;
      }
      var entry := NewEntry(request.value, timestamp);
      var feedbackData: seq<Json> := [];
      if file != Missing {
        if file.Corrupt? || !file.content.JArr? {
          return FailureResponse;
        }
        feedbackData := file.content.items;
      }
      feedbackData := feedbackData + [entry];
      if !writeSucceeds {
        return FailureResponse;
      }
      file := Stored(JArr(feedbackData));
      return SuccessResponse;
    }
  }

  /** Two posts into a missing file leave exactly the two entries, in posting order. */
  method TwoPosts(first: Json, second: Json)
    requires first != JNull && second != JNull
  {
    var store := new FeedbackStore(Missing);
    var r1 := store.Post(Body(first), "t1", true);
    var r2 := store.Post(Body(second), "t2", true);
    assert r1 == SuccessResponse && r2 == SuccessResponse;
    assert [] + [NewEntry(first, "t1")] + [NewEntry(second, "t2")] == [NewEntry(first, "t1"), NewEntry(second, "t2")];
    assert store.file == Stored(JArr([NewEntry(first, "t1"), NewEntry(second, "t2")]));
    var r3 := store.Post(Body(JNull), "t3", true);
    assert r3 == FailureResponse && store.file == Stored(JArr([NewEntry(first, "t1"), NewEntry(second, "t2")]));
  }
}
