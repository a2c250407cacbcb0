/** Fully-qualified resource names of the discovery engine and its sessions,
    and the trailing-segment rule that turns a session name back into an id. */
module ResourceNames {
  import opened Wrappers
  import Strings

  /** The path between the project id and the engine id. */
  const EngineInfix := "/locations/global/collections/default_collection/engines/"
  /** The separator between an engine path and a session id. */
  const SessionsInfix := "/sessions/"
  /** The session id that asks the backend for a fresh, unnamed session. */
  const NoSession := "-"

  /** `projects/{project}/locations/global/collections/default_collection/engines/{engineId}`.
      The project id is the process configuration value the source reads from the environment. */
  function EnginePath(project: string, engineId: string): (r: string)
    ensures |r| == |"projects/"| + |project| + |EngineInfix| + |engineId|
    ensures r[..|"projects/"|] == "projects/"
    ensures r[|"projects/"|..|"projects/"| + |project|] == project
    ensures r[|"projects/"| + |project|..|r| - |engineId|] == EngineInfix
    ensures r[|r| - |engineId|..] == engineId
  {
    "projects/" + project + EngineInfix + engineId
  }

  /** The last path segment a session name carries: the id itself, or the
      sentinel when no session id was given. */
  function SessionSegment(sessionId: Option<string>): string {
    sessionId.GetOr(NoSession)
  }

  /** The engine path followed by `/sessions/` and the session id, or by
      `/sessions/-` when the id is null or absent. */
  function SessionPath(project: string, engineId: string, sessionId: Option<string>): (r: string)
    ensures var e := EnginePath(project, engineId);
      && |r| == |e| + |SessionsInfix| + |SessionSegment(sessionId)|
      && r[..|e|] == e
      && r[|e|..|e| + |SessionsInfix|] == SessionsInfix
      && r[|e| + |SessionsInfix|..] == SessionSegment(sessionId)
    ensures sessionId.None? ==> r[|r| - |"/sessions/-"|..] == "/sessions/-"
  {
    var e := EnginePath(project, engineId);
    if sessionId.Some? then e + SessionsInfix + sessionId.value
    else e + SessionsInfix + NoSession
  }

  /** The text after the last `/` of a session name, or the whole name when it has no `/`. */
  function ExtractSessionId(sessionName: string): (r: string)
    ensures '/' !in r
    ensures |r| <= |sessionName| && r == sessionName[|sessionName| - |r|..]
    ensures '/' !in sessionName ==> r == sessionName
    ensures '/' in sessionName ==> |r| < |sessionName| && sessionName[|sessionName| - |r| - 1] == '/'
  {
    sessionName[Strings.LastIndexOf(sessionName, '/') + 1..]
  }

  /** Whatever precedes the last `/`, extraction sees only the text after it:
      a prefix ending in `/` is dropped and the id is extracted on its own. */
  lemma {:induction false} ExtractAfterSlash(prefix: string, id: string)
    ensures ExtractSessionId(prefix + "/" + id) == ExtractSessionId(id)
  {
    var s := prefix + "/" + id;
    var n := |prefix| + 1;
    assert s[n..] == id;
    var k := Strings.LastIndexOf(id, '/');
    var last := if k >= 0 then n + k else |prefix|;
    assert s[last] == '/';
    forall j | last < j < |s| ensures s[j] != '/' {
      assert s[j] == id[j - n];
    }
    Strings.LastIndexOfUnique(s, '/', last);
    assert s[last + 1..] == id[k + 1..];
  }

  /** Building a session name and extracting its last segment gives back the
      session id when it contains no `/`, and the sentinel `-` when there is none. */
  lemma {:induction false} SessionIdRoundTrip(project: string, engineId: string, sessionId: Option<string>)
    requires sessionId.Some? ==> '/' !in sessionId.value
    ensures ExtractSessionId(SessionPath(project, engineId, sessionId)) == SessionSegment(sessionId)
    ensures sessionId.Some? ==> ExtractSessionId(SessionPath(project, engineId, sessionId)) == sessionId.value
    ensures sessionId.None? ==> ExtractSessionId(SessionPath(project, engineId, sessionId)) == NoSession
  {
    var e := EnginePath(project, engineId);
    var seg := SessionSegment(sessionId);
    assert SessionPath(project, engineId, sessionId) == (e + "/sessions") + "/" + seg;
    ExtractAfterSlash(e + "/sessions", seg);
  }

  /** An id that does contain `/` does not survive the round trip: only its
      own last segment comes back. */
  lemma SessionIdWithSlashLosesPrefix(project: string, engineId: string)
    ensures ExtractSessionId(SessionPath(project, engineId, Some("a/b"))) == "b"
  {
    var e := EnginePath(project, engineId);
    assert SessionPath(project, engineId, Some("a/b")) == (e + "/sessions/a") + "/" + "b";
    ExtractAfterSlash(e + "/sessions/a", "b");
    assert ExtractSessionId("b") == "b";
  }

  /** Within one project, distinct engine ids give distinct engine paths. */
  lemma EnginePathInjective(project: string, e1: string, e2: string)
    requires EnginePath(project, e1) == EnginePath(project, e2)
    ensures e1 == e2
  {
    var n := |"projects/" + project + EngineInfix|;
    assert EnginePath(project, e1)[n..] == e1;
    assert EnginePath(project, e2)[n..] == e2;
  }

  /** Within one engine, distinct session ids give distinct session names,
      except that the sentinel for "no session" names the same resource as
      the literal session id `-`. */
  lemma SessionPathInjective(project: string, engineId: string, s1: Option<string>, s2: Option<string>)
    ensures SessionPath(project, engineId, s1) == SessionPath(project, engineId, s2)
        <==> SessionSegment(s1) == SessionSegment(s2)
  {
    var n := |EnginePath(project, engineId)| + |SessionsInfix|;
    if SessionPath(project, engineId, s1) == SessionPath(project, engineId, s2) {
      assert SessionPath(project, engineId, s1)[n..] == SessionSegment(s1);
      assert SessionPath(project, engineId, s2)[n..] == SessionSegment(s2);
    }
  }
}
