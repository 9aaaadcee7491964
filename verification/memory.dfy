/**
 * Session persistence: where a session snapshot and a conclusion note are
 * stored, which fields a snapshot holds, when a note is written, and what a
 * reload reconstructs. The disk is a map from path to document.
 */
module Memory {
  import opened Wrappers
  import opened Models

  const MEMORY_DIR: string := "memory/sessions"
  const NOTES_DIR: string := "memory/notes"

  /** True when `s` starts with '/'. */
  predicate Absolute(s: string) {
    s != [] && s[0] == '/'
  }

  /**
   * POSIX path joining of two parts: an absolute second part replaces the
   * directory; otherwise a '/' is inserted unless the directory is empty or
   * already ends with one.
   */
  function Join(dir: string, name: string): (r: string)
    ensures Absolute(name) ==> r == name
    ensures !Absolute(name) && (dir == [] || dir[|dir| - 1] == '/') ==> r == dir + name
    ensures !Absolute(name) && dir != [] && dir[|dir| - 1] != '/' ==> r == dir + "/" + name
  {
    if Absolute(name) then name
    else if dir == [] || dir[|dir| - 1] == '/' then dir + name
    else dir + "/" + name
  }

  datatype PathError = EmptySessionId

  /** `_get_session_path`: refuses an empty id, otherwise `<id>.json` under the sessions directory. */
  function SessionPath(sessionId: string): (r: Result<string, PathError>)
    ensures r.Failure? <==> sessionId == ""
    ensures r.Success? && sessionId[0] != '/' ==> r.value == MEMORY_DIR + "/" + sessionId + ".json"
    ensures r.Success? && sessionId[0] == '/' ==> r.value == sessionId + ".json"
    ensures r.Success? ==> EndsWith(r.value, ".json") && EndsWith(r.value, sessionId + ".json")
  {
    if sessionId == "" then Failure(EmptySessionId)
    else Success(Join(MEMORY_DIR, sessionId + ".json"))
  }

  predicate EndsWith(s: string, suffix: string) {
    |suffix| <= |s| && s[|s| - |suffix|..] == suffix
  }

  lemma {:induction false} JoinEndsWith(dir: string, name: string)
    ensures EndsWith(Join(dir, name), name)
  {
    var r := Join(dir, name);
    if !Absolute(name) {
      var head := if dir == [] || dir[|dir| - 1] == '/' then dir else dir + "/";
      assert r == head + name;
      assert r[|r| - |name|..] == name;
    }
  }

  /** Characters a note file name may keep: alphanumerics, '-' and '_'. */
  predicate Allowed(c: char, isAlnum: char -> bool) {
    isAlnum(c) || c == '-' || c == '_'
  }

  /** The topic with every character that is not allowed replaced by '_'. */
  function SanitizeTopic(topic: string, isAlnum: char -> bool): (r: string)
    ensures |r| == |topic|
    ensures forall i | 0 <= i < |r| :: Allowed(r[i], isAlnum)
    ensures forall i | 0 <= i < |r| :: r[i] == if Allowed(topic[i], isAlnum) then topic[i] else '_'
  {
    if topic == [] then []
    else [if Allowed(topic[0], isAlnum) then topic[0] else '_'] + SanitizeTopic(topic[1..], isAlnum)
  }

  /** Sanitising twice changes nothing more. */
  lemma SanitizeIdempotent(topic: string, isAlnum: char -> bool)
    ensures SanitizeTopic(SanitizeTopic(topic, isAlnum), isAlnum) == SanitizeTopic(topic, isAlnum)
  {
    var once := SanitizeTopic(topic, isAlnum);
    var twice := SanitizeTopic(once, isAlnum);
    assert forall i | 0 <= i < |twice| :: twice[i] == once[i];
  }

  /**
   * `_get_note_path`: the file name is the id, then "_" and the sanitised
   * topic when the topic is non-empty, then ".md"; it lies in the notes
   * directory unless it is itself an absolute path.
   */
  function NotePath(sessionId: string, topic: Option<string>, isAlnum: char -> bool): (r: string)
    ensures var name := sessionId + (if Truthy(topic) then "_" + SanitizeTopic(topic.value, isAlnum) else "") + ".md";
      && (name[0] != '/' ==> r == NOTES_DIR + "/" + name)
      && (name[0] == '/' ==> r == name)
    ensures EndsWith(r, ".md")
  {
    var filename := sessionId + (if Truthy(topic) then "_" + SanitizeTopic(topic.value, isAlnum) else "");
    var name := filename + ".md";
    JoinEndsWith(NOTES_DIR, name);
    assert name[|name| - 3..] == ".md";
    Join(NOTES_DIR, name)
  }

  /** A snapshot and a note are never stored at the same path. */
  lemma {:induction false} SessionAndNotePathsDiffer(sessionId: string, topic: Option<string>, isAlnum: char -> bool)
    requires SessionPath(sessionId).Success?
    ensures SessionPath(sessionId).value != NotePath(sessionId, topic, isAlnum)
  {
    var p, q := SessionPath(sessionId).value, NotePath(sessionId, topic, isAlnum);
    assert p[|p| - 1] == ".json"[4] == 'n';
    assert q[|q| - 1] == ".md"[2] == 'd';
  }

  /** The stored snapshot: id, timestamp, topic, summary and the full transcript. */
  datatype SessionRecord = SessionRecord(
    sessionId: string,
    lastUpdated: string,
    topic: string,
    conversationSummary: Option<string>,
    messages: seq<Message>)

  datatype Document = Json(record: SessionRecord) | Text(body: string)

  /** `state.get("current_topic", "General")` */
  function TopicOrGeneral(state: AgentState): string {
    state.currentTopic.GetOr("General")
  }

  /** The snapshot built from a state; cursor, plan and scratch outputs have no field in it. */
  function Snapshot(state: AgentState, now: string): (r: SessionRecord)
    requires state.sessionId.Some?
    ensures r.sessionId == state.sessionId.value && r.lastUpdated == now
    ensures r.messages == state.messages && r.conversationSummary == state.conversationSummary
    ensures state.currentTopic.Some? ==> r.topic == state.currentTopic.value
    ensures state.currentTopic.None? ==> r.topic == "General"
  {
    SessionRecord(state.sessionId.value, now, TopicOrGeneral(state), state.conversationSummary, state.messages)
  }

  function NoteHeader(sessionId: string, today: string, topic: string): string {
    "---\nsource_session: " + sessionId + "\ndate: " + today + "\ntopic: " + topic + "\n---\n\n"
  }

  /** A note is due once the session is concluding and a note text exists. */
  predicate NoteDue(state: AgentState) {
    state.shouldExit && Truthy(state.summaryOutput)
  }

  /** The note: the metadata header (id, date, topic with its "General" default), then the note text. */
  function NoteDocument(state: AgentState, today: string): (r: string)
    requires state.sessionId.Some? && state.summaryOutput.Some?
    ensures EndsWith(r, state.summaryOutput.value)
    ensures r[..|r| - |state.summaryOutput.value|] == NoteHeader(state.sessionId.value, today, TopicOrGeneral(state))
  {
    var header := NoteHeader(state.sessionId.value, today, TopicOrGeneral(state));
    var r := header + state.summaryOutput.value;
    assert r[|r| - |state.summaryOutput.value|..] == state.summaryOutput.value;
    assert r[..|r| - |state.summaryOutput.value|] == header;
    r
  }

  /** The store after `save_session`. */
  function Saved(files: map<string, Document>, state: AgentState, now: string, today: string, isAlnum: char -> bool)
    : map<string, Document>
  {
    if !Truthy(state.sessionId) then files
    else
      var id := state.sessionId.value;
      var withSnapshot := files[SessionPath(id).value := Json(Snapshot(state, now))];
      if NoteDue(state) then withSnapshot[NotePath(id, state.currentTopic, isAlnum) := Text(NoteDocument(state, today))]
      else withSnapshot
  }

  /** The path `save_session` returns: the snapshot path, or "" when there is no id. */
  function SavedPath(state: AgentState): string {
    if !Truthy(state.sessionId) then "" else SessionPath(state.sessionId.value).value
  }

  /**
   * What `save_session` writes: nothing without an id; otherwise the snapshot
   * at the session path and, exactly when a note is due, the note at the note
   * path; every other entry of the store is kept.
   */
  lemma {:induction false} SavedWrites(files: map<string, Document>, state: AgentState, now: string, today: string, isAlnum: char -> bool)
    ensures var r := Saved(files, state, now, today, isAlnum);
      && (!Truthy(state.sessionId) ==> r == files && SavedPath(state) == "")
      && (Truthy(state.sessionId) ==>
            var id := state.sessionId.value;
            var p, q := SessionPath(id).value, NotePath(id, state.currentTopic, isAlnum);
            && SavedPath(state) == p
            && r.Keys == files.Keys + {p} + (if NoteDue(state) then {q} else {})
            && r[p] == Json(Snapshot(state, now))
            && (NoteDue(state) ==> r[q] == Text(NoteDocument(state, today)))
            && (forall k | k in files && k != p && (NoteDue(state) ==> k != q) :: r[k] == files[k]))
  {
    if Truthy(state.sessionId) {
      var id := state.sessionId.value;
      var p, q := SessionPath(id).value, NotePath(id, state.currentTopic, isAlnum);
      SessionAndNotePathsDiffer(id, state.currentTopic, isAlnum);
      var withSnapshot := files[p := Json(Snapshot(state, now))];
      var r := Saved(files, state, now, today, isAlnum);
      if NoteDue(state) {
        assert r == withSnapshot[q := Text(NoteDocument(state, today))];
      } else {
        assert r == withSnapshot;
      }
    }
  }

  datatype LoadError = LoadEmptySessionId | NotASnapshot

  /** The state a reload rebuilds from a snapshot: only transcript, id, topic and summary. */
  function Reconstruct(rec: SessionRecord): (r: AgentState)
    ensures r.messages == rec.messages && r.sessionId == Some(rec.sessionId)
    ensures r.currentTopic == Some(rec.topic) && r.conversationSummary == rec.conversationSummary
    ensures r.summarizedMsgCount.None? && r.plan.None? && !r.shouldExit
  {
    AgentState(rec.messages, Some(rec.topic), Some(rec.sessionId), rec.conversationSummary,
               None, None, false, None, None, None, None, None)
  }

  /** `load_session`: an empty id raises, a missing file gives None, a snapshot is reconstructed. */
  function Load(files: map<string, Document>, sessionId: string): Result<Option<AgentState>, LoadError> {
    match SessionPath(sessionId)
    case Failure(_) => Failure(LoadEmptySessionId)
    case Success(p) =>
      if p !in files then Success(None)
      else match files[p]
        case Json(rec) => Success(Some(Reconstruct(rec)))
        case Text(_) => Failure(NotASnapshot)
  }

  /**
   * Saving then loading the same id gives back the transcript, id and summary,
   * the topic with its "General" default, and nothing else: the cursor comes
   * back absent, so the compressor restarts counting from 0.
   */
  lemma {:induction false} SaveThenLoad(files: map<string, Document>, state: AgentState, now: string, today: string, isAlnum: char -> bool)
    requires Truthy(state.sessionId)
    ensures var loaded := Load(Saved(files, state, now, today, isAlnum), state.sessionId.value);
      && loaded.Success? && loaded.value.Some?
      && loaded.value.value.messages == state.messages
      && loaded.value.value.sessionId == state.sessionId
      && loaded.value.value.currentTopic == Some(TopicOrGeneral(state))
      && loaded.value.value.conversationSummary == state.conversationSummary
      && Cursor(loaded.value.value) == 0
      && loaded.value.value.plan.None? && loaded.value.value.tutorOutput.None?
  {
    SavedWrites(files, state, now, today, isAlnum);
  }

  /** The disk as seen by the persistence functions. */
  class SessionStore {
    var files: map<string, Document>

    constructor(initial: map<string, Document>)
      ensures files == initial
    {
      files := initial;
    }

    /** `save_session`: write the snapshot (overwriting) and, when due, the note. */
    method SaveSession(state: AgentState, now: string, today: string, isAlnum: char -> bool)
      returns (path: string)
      modifies this
      ensures path == SavedPath(state)
      ensures files == Saved(old(files), state, now, today, isAlnum)
    {
      var sessionId := state.sessionId;
      if !Truthy(sessionId) {
        return "";
      }
      var sessionData := SessionRecord(
        sessionId.value, now, state.currentTopic.GetOr("General"), state.conversationSummary, state.messages);
      var jsonPath := SessionPath(sessionId.value).value;
      files := files[jsonPath := Json(sessionData)];
      if state.shouldExit && Truthy(state.summaryOutput) {
        var noteContent := state.summaryOutput.value;
        var header := NoteHeader(sessionId.value, today, state.currentTopic.GetOr("General"));
        var fullNote := header + noteContent;
        var notePath := NotePath(sessionId.value, state.currentTopic, isAlnum);
        files := files[notePath := Text(fullNote)];
      }
      return jsonPath;
    }

    /** `load_session`: read the snapshot for an id and rebuild the persistent part of the state. */
    method LoadSession(sessionId: string) returns (r: Result<Option<AgentState>, LoadError>)
      ensures r == Load(files, sessionId)
    {
      var jsonPath := SessionPath(sessionId);
      if jsonPath.Failure? {
        return Failure(LoadEmptySessionId);
      }
      if jsonPath.value !in files {
        return Success(None);
      }
      var data := files[jsonPath.value];
      if data.Text? {
        return Failure(NotASnapshot);
      }
      var rec := data.record;
      r := Success(Some(AgentState(
        rec.messages, Some(rec.topic), Some(rec.sessionId), rec.conversationSummary,
        None, None, false, None, None, None, None, None)));
    }
  }
}
