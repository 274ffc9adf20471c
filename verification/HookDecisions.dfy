/**
 The three hook decisions. Each reads its input, its transcript and the markers,
 and either stays silent or speaks once. A decision's effect is that of its job
 run alone, so every statement about interleaved jobs applies to it.
 */
module HookDecisions {
  import opened Common
  import opened Text
  import opened Transcript
  import opened HookMarkers

  const EDIT_TOOLS: set<string> := {"Edit", "Write", "MultiEdit", "NotebookEdit"}
  const MAX_SAFE_ID := 128
  const PACK_ID_LENGTH := 26

  /** A non-empty string field. */
  function TextField(payload: Fields, key: string): Option<string> {
    var v := Get(payload, key);
    if v.Str? && v.s != "" then Some(v.s) else None
  }

  predicate IsSafeChar(c: char) {
    'A' <= c <= 'Z' || 'a' <= c <= 'z' || '0' <= c <= '9' || c == '_' || c == '-'
  }

  predicate IsSafeId(s: string) {
    1 <= |s| <= MAX_SAFE_ID && forall i :: 0 <= i < |s| ==> IsSafeChar(s[i])
  }

  /** Which subagent the hook speaks for, if its id is one that may stand in a path. */
  function AgentId(payload: Fields): Option<string> {
    var v := TextField(payload, "agent_id");
    if v.Some? && IsSafeId(v.value) then v else None
  }

  /** Crockford base 32: no I, L, O or U. */
  predicate IsPackIdChar(c: char) {
    '0' <= c <= '9' || ('A' <= c <= 'Z' && c != 'I' && c != 'L' && c != 'O' && c != 'U')
  }

  predicate IsPackId(s: string) {
    |s| == PACK_ID_LENGTH && forall i :: 0 <= i < |s| ==> IsPackIdChar(s[i])
  }

  predicate StopHookActive(payload: Fields) {
    var v := Get(payload, "stop_hook_active");
    v == Bool(true) || (v.Str? && Lower(Strip(v.s)) == "true")
  }

  /** What a decision asks the transcript reader; the answer is unknown or facts. */
  datatype ScanRequest = ScanRequest(path: Option<string>, stopAtRetrieval: bool, includeSidechain: bool,
                                     missingIsEmpty: bool)
  type Reader = ScanRequest -> Option<Facts>

  /** Nothing was retrieved, and that is known. */
  predicate Unretrieved(facts: Option<Facts>) {
    facts.Some? && !facts.value.retrievalCalled
  }

  function PreworkScan(payload: Fields): ScanRequest {
    ScanRequest(TextField(payload, "transcript_path"), true, false, true)
  }

  function PreworkJob(payload: Fields): Option<Job> {
    var session, event, agent := TextField(payload, "session_id"), Get(payload, "hook_event_name"), AgentId(payload);
    if session.None? then None
    else if event == Str("SubagentStart") then
      if agent.None? then None
      else Some(Job(["prework", session.value, agent.value], false, [], Some(Nudge("SubagentStart"))))
    else if event != Str("UserPromptSubmit") || agent.Some? then None
    else Some(Job(["prework", session.value], true, [], Some(Nudge("UserPromptSubmit"))))
  }

  /** The reply to a prompt or a subagent's start, and the markers after it. */
  function NudgeResult(digest: Digest, broken: nat -> bool, at: nat, markers: set<string>, payload: Fields,
                       read: Reader):
    (Option<Reply>, set<string>)
  {
    var job := PreworkJob(payload);
    if job.None? then (None, markers)
    else Alone(digest, broken, at, markers, job.value, Unretrieved(read(PreworkScan(payload))))
  }

  method DecidePrework(payload: Fields, state: HookState, read: Reader) returns (reply: Option<Reply>)
    modifies state
    ensures (reply, state.markers)
         == NudgeResult(state.digest, state.broken, old(state.attempts), old(state.markers), payload, read)
  {
    var event := Get(payload, "hook_event_name");
    var session := TextField(payload, "session_id");
    if session.None? {
      return None;
    }
    if event == Str("SubagentStart") {
      var agent := AgentId(payload);
      if agent.None? || state.Seen(["prework", session.value, agent.value]) {
        return None;
      }
      var won := state.Claim(["prework", session.value, agent.value]);
      return if won then Some(Nudge("SubagentStart")) else None;
    }
    if event != Str("UserPromptSubmit") || AgentId(payload).Some? {
      return None;
    }
    if state.Seen(["prework", session.value]) {
      return None;
    }
    var facts := read(PreworkScan(payload));
    if facts.None? || facts.value.retrievalCalled {
      return None;
    }
    var won := state.Claim(["prework", session.value]);
    return if won then Some(Nudge("UserPromptSubmit")) else None;
  }

  // ------------------------------------------------------------------
  // The edit guard
  // ------------------------------------------------------------------

  /**
   The files a subagent may have written its own transcript to; `folder` maps a session
   transcript to its `subagents` folder.
   */
  function SubagentTranscripts(payload: Fields, agent: string, folder: string -> string): seq<string> {
    var named, session := TextField(payload, "agent_transcript_path"), TextField(payload, "transcript_path");
    if named.Some? then [named.value]
    else if session.None? then []
    else
      [folder(session.value) + "/agent-" + agent + ".jsonl"] +
      if "agent-" <= agent then [folder(session.value) + "/" + agent + ".jsonl"] else []
  }

  function EditGuardScans(payload: Fields, folder: string -> string): seq<ScanRequest> {
    var agent := AgentId(payload);
    if agent.Some? then
      var paths := SubagentTranscripts(payload, agent.value, folder);
      seq(|paths|, i requires 0 <= i < |paths| => ScanRequest(Some(paths[i]), true, true, false))
    else [ScanRequest(TextField(payload, "transcript_path"), true, false, false)]
  }

  /** The first known answer. */
  function FirstKnown(requests: seq<ScanRequest>, read: Reader): Option<Facts> {
    if requests == [] then None
    else if read(requests[0]).Some? then read(requests[0])
    else FirstKnown(requests[1..], read)
  }

  function EditGuardJob(payload: Fields, scopeAll: bool): Option<Job> {
    var session, tool, agent := TextField(payload, "session_id"), Get(payload, "tool_name"), AgentId(payload);
    if session.None? || Get(payload, "hook_event_name") != Str("PreToolUse")
       || !tool.Str? || tool.s !in EDIT_TOOLS then None
    else if agent.None? && !scopeAll then None
    else Some(Job(["edit-guard", session.value, if agent.Some? then agent.value else ""], true, [], Some(Deny)))
  }

  /** The reply to an edit, and the markers after it. */
  function GuardResult(digest: Digest, broken: nat -> bool, at: nat, markers: set<string>, payload: Fields,
                       scopeAll: bool, folder: string -> string, read: Reader): (Option<Reply>, set<string>)
  {
    var job := EditGuardJob(payload, scopeAll);
    if job.None? then (None, markers)
    else
      Alone(digest, broken, at, markers, job.value, Unretrieved(FirstKnown(EditGuardScans(payload, folder), read)))
  }

  method DecideEditGuard(payload: Fields, state: HookState, scopeAll: bool, folder: string -> string, read: Reader)
    returns (reply: Option<Reply>)
    modifies state
    ensures (reply, state.markers)
         == GuardResult(state.digest, state.broken, old(state.attempts), old(state.markers),
                        payload, scopeAll, folder, read)
  {
    var session := TextField(payload, "session_id");
    var tool := Get(payload, "tool_name");
    if session.None? || Get(payload, "hook_event_name") != Str("PreToolUse") || !tool.Str? || tool.s !in EDIT_TOOLS {
      return None;
    }
    var agent := AgentId(payload);
    if agent.None? && !scopeAll {
      return None;
    }
    var key := ["edit-guard", session.value, if agent.Some? then agent.value else ""];
    if state.Seen(key) {
      return None;
    }
    var requests := EditGuardScans(payload, folder);
    var facts: Option<Facts> := None;
    var i := 0;
    while i < |requests| && facts.None?
      invariant i <= |requests|
      invariant FirstKnown(requests, read) == if facts.Some? then facts else FirstKnown(requests[i..], read)
    {
      facts := read(requests[i]);
      i := i + 1;
    }
    if facts.None? || facts.value.retrievalCalled {
      return None;
    }
    var won := state.Claim(key);
    return if won then Some(Deny) else None;
  }

  /** The hook, session and agent a job is about; its key may go on to name a pack. */
  predicate SameSubject(a: Fields, b: Fields) {
    TextField(a, "session_id") == TextField(b, "session_id") && AgentId(a) == AgentId(b)
  }

  /**
   In every interleaving each session, or session and agent, is nudged at most
   once, and each session and agent is denied at most one edit, whatever markers
   there were before and whatever scope each guard runs under.
   */
  lemma OneNudgeOneDeny(digest: Digest, start: set<string>, actions: seq<Action>, i: nat, j: nat,
                        a: Fields, b: Fields, scopeA: bool, scopeB: bool)
    requires i < j < |Exec(digest, Idle(start), actions).procs|
    requires SameSubject(a, b) && Get(a, "hook_event_name") == Get(b, "hook_event_name")
    requires var sys := Exec(digest, Idle(start), actions);
             var pi, pj := sys.procs[i].job, sys.procs[j].job;
             || (PreworkJob(a) == Some(pi) && PreworkJob(b) == Some(pj))
             || (EditGuardJob(a, scopeA) == Some(pi) && EditGuardJob(b, scopeB) == Some(pj))
    ensures !(Spoke(Exec(digest, Idle(start), actions).procs[i]) && Spoke(Exec(digest, Idle(start), actions).procs[j]))
  {
    var sys := Exec(digest, Idle(start), actions);
    if Spoke(sys.procs[i]) && Spoke(sys.procs[j]) {
      SpokenOncePerKey(digest, start, actions, i, j);
    }
  }

  // ------------------------------------------------------------------
  // Which keys share a marker
  // ------------------------------------------------------------------

  lemma SafeIdIsClean(s: string)
    requires IsSafeId(s)
    ensures '\0' !in s
  {
    assert !IsSafeChar('\0');
  }

  /** The session id of this prompt spells the session and the agent of that subagent. */
  predicate SpellsAgent(prompt: Key, agent: Key) {
    |prompt| == 2 && |agent| == 3 && prompt[1] == agent[1] + NUL + agent[2]
  }

  lemma JoinOfTwoAndThree(hook: string, session: string, s: string, g: string)
    ensures Join([hook, session]) == Join([hook, s, g]) <==> session == s + NUL + g
  {
    var two, three, tail := [hook, session], [hook, s, g], s + NUL + g;
    assert two[1..] == [session] && three[1..] == [s, g] && [s, g][1..] == [g];
    assert Join(three[1..]) == tail;
    assert Join(two) == (hook + NUL) + session && Join(three) == (hook + NUL) + tail;
    var head := hook + NUL;
    assert session == (head + session)[|head|..] && tail == (head + tail)[|head|..];
  }

  lemma SameShapeAgrees(a: Key, b: Key)
    requires |a| == |b| >= 2 && a[0] == b[0] && NulFree([a[0]]) && NulFree(a[2..]) && NulFree(b[2..])
    ensures Join(a) == Join(b) <==> a == b
  {
    JoinsAgreeExactlyWhen(a, b);
    assert a == [a[0], a[1]] + a[2..] && b == [b[0], b[1]] + b[2..];
    OneUncleanPart(a[0], a[1], a[2..], b[1], b[2..]);
  }

  /** Two keys of the nudge. */
  lemma NudgeKeysAgree(a: Key, b: Key)
    requires |a| in {2, 3} && |b| in {2, 3} && a[0] == b[0] == "prework"
    requires (|a| == 3 ==> '\0' !in a[2]) && (|b| == 3 ==> '\0' !in b[2])
    ensures Join(a) == Join(b) <==> a == b || SpellsAgent(a, b) || SpellsAgent(b, a)
  {
    if |a| == |b| {
      SameShapeAgrees(a, b);
    } else if |a| == 2 {
      assert a == ["prework", a[1]] && b == ["prework", b[1], b[2]];
      JoinOfTwoAndThree("prework", a[1], b[1], b[2]);
    } else {
      assert b == ["prework", b[1]] && a == ["prework", a[1], a[2]];
      JoinOfTwoAndThree("prework", b[1], a[1], a[2]);
    }
  }

  /**
   A session id may hold a NUL. Two nudges with different keys share a marker exactly
   when one is for a prompt whose session id is the session of the other, a NUL and
   its agent.
   */
  lemma NudgesShareExactlyWhen(digest: Digest, a: Fields, b: Fields)
    requires Injective(digest) && PreworkJob(a).Some? && PreworkJob(b).Some?
    ensures var ka, kb := PreworkJob(a).value.key, PreworkJob(b).value.key;
            Marker(digest, ka) == Marker(digest, kb) <==> ka == kb || SpellsAgent(ka, kb) || SpellsAgent(kb, ka)
  {
    var ka, kb := PreworkJob(a).value.key, PreworkJob(b).value.key;
    if AgentId(a).Some? {
      SafeIdIsClean(AgentId(a).value);
    }
    if AgentId(b).Some? {
      SafeIdIsClean(AgentId(b).value);
    }
    NudgeKeysAgree(ka, kb);
    MarkersAgreeExactlyWhen(digest, ka, kb);
  }

  /** Two guards share a marker only on the same key: an agent's place is never left out. */
  lemma GuardsShareOnlyAKey(digest: Digest, a: Fields, b: Fields, scopeA: bool, scopeB: bool)
    requires Injective(digest) && EditGuardJob(a, scopeA).Some? && EditGuardJob(b, scopeB).Some?
    ensures var ka, kb := EditGuardJob(a, scopeA).value.key, EditGuardJob(b, scopeB).value.key;
            Marker(digest, ka) == Marker(digest, kb) <==> ka == kb
  {
    var ka, kb := EditGuardJob(a, scopeA).value.key, EditGuardJob(b, scopeB).value.key;
    if AgentId(a).Some? {
      SafeIdIsClean(AgentId(a).value);
    }
    if AgentId(b).Some? {
      SafeIdIsClean(AgentId(b).value);
    }
    SameShapeAgrees(ka, kb);
    MarkersAgreeExactlyWhen(digest, ka, kb);
  }

  const PROMPT_OF_S_NUL_A: Fields := map["session_id" := Str("s\0a"), "hook_event_name" := Str("UserPromptSubmit")]
  const START_OF_A_IN_S: Fields :=
    map["session_id" := Str("s"), "agent_id" := Str("a"), "hook_event_name" := Str("SubagentStart")]

  /** The nudge of a prompt silences that of a subagent in another session, whatever the digest. */
  lemma ANudgeSilencesAnother(digest: Digest, markers: set<string>)
    requires Marker(digest, ["prework", "s\0a"]) !in markers
    ensures var prompt, agent := PreworkJob(PROMPT_OF_S_NUL_A), PreworkJob(START_OF_A_IN_S);
            && prompt.Some? && agent.Some? && prompt.value.key != agent.value.key
            && var (reply, after) := Alone(digest, k => false, 0, markers, prompt.value, true);
               && reply == Some(Nudge("UserPromptSubmit"))
               && Alone(digest, k => false, 0, after, agent.value, true) == (None, after)
               && Alone(digest, k => false, 0, markers, agent.value, true).0 == Some(Nudge("SubagentStart"))
  {
    var prompt, agent := PROMPT_OF_S_NUL_A, START_OF_A_IN_S;
    assert TextField(prompt, "session_id") == Some("s\0a") && TextField(prompt, "agent_id") == None;
    assert TextField(agent, "session_id") == Some("s") && TextField(agent, "agent_id") == Some("a") && IsSafeId("a");
    assert PreworkJob(prompt) == Some(Job(["prework", "s\0a"], true, [], Some(Nudge("UserPromptSubmit"))));
    assert PreworkJob(agent) == Some(Job(["prework", "s", "a"], false, [], Some(Nudge("SubagentStart"))));
    assert "s\0a" == "s" + NUL + "a";
    JoinOfTwoAndThree("prework", "s\0a", "s", "a");
    assert |["prework", "s\0a"]| == 2 && |["prework", "s", "a"]| == 3;
  }

  // ------------------------------------------------------------------
  // The grading ask
  // ------------------------------------------------------------------

  /** The session and agent a stop event is about; the main session has the empty agent. */
  function StopSubject(payload: Fields): Option<(string, string)> {
    var session, event, agent := TextField(payload, "session_id"), Get(payload, "hook_event_name"), AgentId(payload);
    if session.None? then None
    else if event == Str("Stop") then Some((session.value, ""))
    else if event == Str("SubagentStop") && agent.Some? then Some((session.value, agent.value))
    else None
  }

  function GradeScan(payload: Fields): ScanRequest {
    if Get(payload, "hook_event_name") == Str("SubagentStop")
    then ScanRequest(TextField(payload, "agent_transcript_path"), false, true, false)
    else ScanRequest(TextField(payload, "transcript_path"), false, false, false)
  }

  function GradeKey(subject: (string, string), pack: string): Key {
    ["grade", subject.0, subject.1, pack]
  }

  function OlderKeys(subject: (string, string), older: seq<string>): (keys: seq<Key>)
    ensures |keys| == |older|
    ensures forall i :: 0 <= i < |older| ==> keys[i] == GradeKey(subject, older[i])
  {
    if older == [] then [] else [GradeKey(subject, older[0])] + OlderKeys(subject, older[1..])
  }

  function GradeJob(payload: Fields, facts: Option<Facts>, threshold: int): (job: Option<Job>)
    ensures job.Some? ==> WellKeyed(job.value)
  {
    var subject := StopSubject(payload);
    if StopHookActive(payload) || subject.None? || facts.None?
       || facts.value.toolUses < threshold || facts.value.ungraded == [] then None
    else
      var n := |facts.value.ungraded| - 1;
      var pack := facts.value.ungraded[n];
      Some(Job(GradeKey(subject.value, pack), false, OlderKeys(subject.value, facts.value.ungraded[..n]),
               if IsPackId(pack)
               then Some(Ask(pack, Get(payload, "hook_event_name") == Str("Stop") && !facts.value.savedTrace))
               else None))
  }

  /** Claims the markers of the older ungraded packs, one after the other, whether or not one fails. */
  method SweepUp(state: HookState, subject: (string, string), older: seq<string>)
    modifies state
    ensures state.markers
         == SweepAlone(state.digest, state.broken, old(state.attempts), old(state.markers),
                       OlderKeys(subject, older), 0)
  {
    ghost var keys := OlderKeys(subject, older);
    ghost var at := state.attempts;
    var i := 0;
    while i < |older|
      invariant i <= |older| && state.attempts == at + i
      invariant SweepAlone(state.digest, state.broken, state.attempts, state.markers, keys, i)
             == SweepAlone(state.digest, state.broken, at, old(state.markers), keys, 0)
    {
      ghost var before := state.markers;
      var won := state.Claim(GradeKey(subject, older[i]));
      assert !state.broken(at + i) ==> state.markers == before + {Marker(state.digest, keys[i])};
      i := i + 1;
    }
  }

  /** The reply to a stop, and the markers after it. */
  function GradeResult(digest: Digest, broken: nat -> bool, at: nat, markers: set<string>, payload: Fields,
                       threshold: int, read: Reader): (Option<Reply>, set<string>)
  {
    var job := GradeJob(payload, read(GradeScan(payload)), threshold);
    if job.None? then (None, markers) else Alone(digest, broken, at, markers, job.value, true)
  }

  method DecideGrade(payload: Fields, state: HookState, threshold: int, read: Reader) returns (reply: Option<Reply>)
    modifies state
    ensures (reply, state.markers)
         == GradeResult(state.digest, state.broken, old(state.attempts), old(state.markers), payload, threshold, read)
  {
    if StopHookActive(payload) {
      return None;
    }
    var session := TextField(payload, "session_id");
    var event := Get(payload, "hook_event_name");
    if session.None? || (event != Str("Stop") && event != Str("SubagentStop")) {
      return None;
    }
    var agent := "";
    if event == Str("SubagentStop") {
      var named := AgentId(payload);
      if named.None? {
        return None;
      }
      agent := named.value;
    }
    var found := read(GradeScan(payload));
    if found.None? || found.value.toolUses < threshold || found.value.ungraded == [] {
      return None;
    }
    var facts := found.value;
    var n := |facts.ungraded| - 1;
    var pack, older := facts.ungraded[n], facts.ungraded[..n];
    var subject := (session.value, agent);
    var key := GradeKey(subject, pack);
    if state.Seen(key) {
      return None;
    }
    var won := state.Claim(key);
    if !won {
      return None;
    }
    SweepUp(state, subject, older);
    return if IsPackId(pack) then Some(Ask(pack, event == Str("Stop") && !facts.savedTrace)) else None;
  }
}
