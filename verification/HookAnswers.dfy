/**
 What the three decisions say of their inputs and of the files they read, told from
 the fields of the input and the history of the file.
 */
module HookAnswers {
  import opened Common
  import opened Text
  import opened Transcript
  import opened TranscriptHistory
  import opened TranscriptLines
  import opened TranscriptReader
  import opened TranscriptMeaning
  import opened HookMarkers
  import opened HookDecisions

  // ------------------------------------------------------------------
  // The fields of an input
  // ------------------------------------------------------------------

  /** This field is the non-empty string `v`, or no such string. */
  ghost predicate TextIs(payload: Fields, key: string, v: Option<string>) {
    if v.Some? then key in payload && payload[key] == Str(v.value) && v.value != ""
    else key in payload && payload[key].Str? ==> payload[key].s == ""
  }

  predicate EventIs(payload: Fields, event: string) {
    "hook_event_name" in payload && payload["hook_event_name"] == Str(event)
  }

  const UPPER_LETTERS := "ABCDEFGHIJKLMNOPQRSTUVWXYZ"
  const LOWER_LETTERS := "abcdefghijklmnopqrstuvwxyz"
  const DIGITS := "0123456789"
  const SAFE_CHARS := UPPER_LETTERS + LOWER_LETTERS + DIGITS + "_-"

  /** The upper-case letters but I, L, O and U. */
  const PACK_ID_CHARS := DIGITS + "ABCDEFGH" + "JK" + "MN" + "PQRST" + "VWXYZ"

  ghost predicate MadeOf(s: string, chars: string) {
    forall i :: 0 <= i < |s| ==> s[i] in chars
  }

  /** The subagent's id is `agent`; it is none when it is absent, too long or not safe. */
  ghost predicate AgentIs(payload: Fields, agent: Option<string>) {
    if agent.Some? then TextIs(payload, "agent_id", agent) && |agent.value| <= 128 && MadeOf(agent.value, SAFE_CHARS)
    else forall text: string ::
           TextIs(payload, "agent_id", Some(text)) ==> |text| > 128 || !MadeOf(text, SAFE_CHARS)
  }

  ghost predicate PackIdIs(pack: string) {
    |pack| == 26 && MadeOf(pack, PACK_ID_CHARS)
  }

  predicate SpellsTrue(word: string) {
    |word| == 4 && word[0] in "tT" && word[1] in "rR" && word[2] in "uU" && word[3] in "eE"
  }

  /** The stop follows a block by a stop hook: true, or the word in any case with whitespace around it. */
  ghost predicate FollowsABlock(payload: Fields) {
    "stop_hook_active" in payload &&
    var v := payload["stop_hook_active"];
    v == Bool(true)
    || (v.Str? && exists before, word, after ::
          AllSpaces(before) && AllSpaces(after) && v.s == before + word + after && SpellsTrue(word))
  }

  lemma TextMeans(payload: Fields, key: string, v: Option<string>)
    ensures TextIs(payload, key, v) <==> TextField(payload, key) == v
  {
  }

  lemma Letters(chars: string, first: char, n: nat)
    requires n <= |chars| && forall k :: 0 <= k < n ==> chars[k] as int == first as int + k
    ensures forall c: char :: first as int <= c as int < first as int + n ==> c in chars
    ensures forall k :: 0 <= k < n ==> first as int <= chars[k] as int < first as int + n
  {
    forall c: char | first as int <= c as int < first as int + n ensures c in chars {
      assert chars[c as int - first as int] == c;
    }
  }

  lemma LettersMean(c: char)
    ensures c in UPPER_LETTERS <==> 'A' <= c <= 'Z'
    ensures c in LOWER_LETTERS <==> 'a' <= c <= 'z'
    ensures c in DIGITS <==> '0' <= c <= '9'
  {
    Letters(UPPER_LETTERS, 'A', 26);
    Letters(LOWER_LETTERS, 'a', 26);
    Letters(DIGITS, '0', 10);
  }

  lemma SafeCharMeans(c: char)
    ensures c in SAFE_CHARS <==> IsSafeChar(c)
  {
    LettersMean(c);
    assert c in "_-" <==> c == '_' || c == '-';
  }

  lemma PackCharMeans(c: char)
    ensures c in PACK_ID_CHARS <==> IsPackIdChar(c)
  {
    LettersMean(c);
    Letters("ABCDEFGH", 'A', 8);
    Letters("JK", 'J', 2);
    Letters("MN", 'M', 2);
    Letters("PQRST", 'P', 5);
    Letters("VWXYZ", 'V', 5);
  }

  lemma SafeIdMeans(text: string)
    ensures text != "" && |text| <= 128 && MadeOf(text, SAFE_CHARS) <==> IsSafeId(text)
  {
    forall i | 0 <= i < |text| ensures text[i] in SAFE_CHARS <==> IsSafeChar(text[i]) {
      SafeCharMeans(text[i]);
    }
  }

  lemma AgentMeans(payload: Fields, agent: Option<string>)
    ensures AgentIs(payload, agent) <==> AgentId(payload) == agent
  {
    var v := TextField(payload, "agent_id");
    TextMeans(payload, "agent_id", agent);
    if agent.Some? {
      SafeIdMeans(agent.value);
    } else if v.Some? {
      TextMeans(payload, "agent_id", v);
      SafeIdMeans(v.value);
    }
  }

  lemma PackIdMeans(pack: string)
    ensures PackIdIs(pack) <==> IsPackId(pack)
  {
    forall i | 0 <= i < |pack| ensures pack[i] in PACK_ID_CHARS <==> IsPackIdChar(pack[i]) {
      PackCharMeans(pack[i]);
    }
  }

  lemma TrueMeans(word: string)
    ensures SpellsTrue(word) <==> Lower(word) == "true"
  {
    if |word| == 4 {
      assert Lower(word) == [Lower(word)[0], Lower(word)[1], Lower(word)[2], Lower(word)[3]];
      assert word[1..][1..] == word[2..] && word[2..][1..] == word[3..] && word[3..][1..] == [];
      assert Lower(word[1..]) == Lower(word)[1..] && Lower(word[2..]) == Lower(word)[2..];
      assert Lower(word[3..]) == Lower(word)[3..];
    }
  }

  lemma TrueAround(s: string)
    ensures Lower(Strip(s)) == "true" <==>
            exists before, word, after ::
              AllSpaces(before) && AllSpaces(after) && s == before + word + after && SpellsTrue(word)
  {
    if Lower(Strip(s)) == "true" {
      var before, after := StripLeaves(s);
      TrueMeans(Strip(s));
    }
    if before, word, after :|
      AllSpaces(before) && AllSpaces(after) && s == before + word + after && SpellsTrue(word) {
      StripCuts(before, word, after);
      TrueMeans(word);
    }
  }

  lemma ActiveMeans(payload: Fields)
    ensures FollowsABlock(payload) <==> StopHookActive(payload)
  {
    var v := Get(payload, "stop_hook_active");
    if v.Str? {
      TrueAround(v.s);
    }
  }

  // ------------------------------------------------------------------
  // The file that is read
  // ------------------------------------------------------------------

  /** The configuration of a scan that was asked for. */
  function ConfigFor(cfg: Config, request: ScanRequest): Config {
    cfg.(includeSidechain := request.includeSidechain)
  }

  /** The request is answered from this file; one that is not there and may be missing reads as an empty one. */
  ghost predicate ReadsFile(read: Reader, request: ScanRequest, cfg: Config, data: Bytes) {
    read(request) == Some(FileFacts(ConfigFor(cfg, request), data, request.stopAtRetrieval, true))
  }

  /** Every line that fits shows what it holds to the scan asked for. */
  ghost predicate AllShown(request: ScanRequest, cfg: Config, data: Bytes) {
    forall line :: line in Lines(data) && Fits(line) ==> Shown(ConfigFor(cfg, request), line)
  }

  /** The events of the file, with the entries of subagents or without. */
  function History(cfg: Config, data: Bytes, withSidechain: bool): seq<Event> {
    AllEvents(cfg.(includeSidechain := withSidechain), Lines(data))
  }

  ghost predicate Retrieved(es: seq<Event>) {
    RetrievalBefore(es, |es|)
  }

  /** The answer, stopped at the first retrieval or not, is whether the file's history holds one. */
  lemma AnswerIsRetrieved(read: Reader, request: ScanRequest, cfg: Config, data: Bytes)
    requires ReadsFile(read, request, cfg, data) && AllShown(request, cfg, data)
    ensures Unretrieved(read(request)) <==> !Retrieved(History(cfg, data, request.includeSidechain))
  {
    var scanCfg := ConfigFor(cfg, request);
    AnswerMeansHistory(scanCfg, data);
    if request.stopAtRetrieval {
      StopAtRetrievalIsSound(scanCfg, data, true);
    }
  }

  lemma EmptyFileAnswers(cfg: Config, stop: bool)
    ensures FileFacts(cfg, [], stop, true) == NO_FACTS
  {
  }

  /** What a decision says when it claims one marker, and what it leaves. */
  function Spoken(digest: Digest, broken: nat -> bool, at: nat, markers: set<string>, key: Key, allowed: bool,
                  reply: Reply):
    (Option<Reply>, set<string>)
    requires key != []
  {
    if allowed && Marker(digest, key) !in markers && !broken(at) then (Some(reply), markers + {Marker(digest, key)})
    else (None, markers)
  }

  lemma AloneSpeaks(digest: Digest, broken: nat -> bool, at: nat, markers: set<string>, job: Job, go: bool)
    requires job.key != [] && job.sweep == [] && job.says.Some?
    ensures Alone(digest, broken, at, markers, job, go)
         == Spoken(digest, broken, at, markers, job.key, !job.scans || go, job.says.value)
  {
  }

  // ------------------------------------------------------------------
  // The nudge
  // ------------------------------------------------------------------

  lemma PromptJobFrom(payload: Fields, session: string)
    requires TextField(payload, "session_id") == Some(session) && AgentId(payload) == None
    requires Get(payload, "hook_event_name") == Str("UserPromptSubmit")
    ensures PreworkJob(payload) == Some(Job(["prework", session], true, [], Some(Nudge("UserPromptSubmit"))))
  {
  }

  lemma PromptJobIs(payload: Fields, session: string, path: Option<string>)
    requires EventIs(payload, "UserPromptSubmit") && TextIs(payload, "session_id", Some(session))
    requires AgentIs(payload, None) && TextIs(payload, "transcript_path", path)
    ensures PreworkJob(payload) == Some(Job(["prework", session], true, [], Some(Nudge("UserPromptSubmit"))))
    ensures PreworkScan(payload) == ScanRequest(path, true, false, true)
  {
    TextMeans(payload, "session_id", Some(session));
    TextMeans(payload, "transcript_path", path);
    AgentMeans(payload, None);
    PromptJobFrom(payload, session);
  }

  /**
   A prompt of the main session is nudged exactly when the session has not been, its
   claim works, and no block of its transcript, those of subagents left out, is a call
   to a retrieval. One that has no file yet reads as empty.
   */
  lemma NudgedExactlyWhen(digest: Digest, broken: nat -> bool, at: nat, markers: set<string>, payload: Fields,
                          read: Reader, session: string, path: Option<string>, cfg: Config, data: Bytes)
    requires EventIs(payload, "UserPromptSubmit") && TextIs(payload, "session_id", Some(session))
    requires AgentIs(payload, None) && TextIs(payload, "transcript_path", path)
    requires ReadsFile(read, ScanRequest(path, true, false, true), cfg, data)
    requires AllShown(ScanRequest(path, true, false, true), cfg, data)
    ensures NudgeResult(digest, broken, at, markers, payload, read)
         == Spoken(digest, broken, at, markers, ["prework", session], !Retrieved(History(cfg, data, false)),
                   Nudge("UserPromptSubmit"))
  {
    PromptJobIs(payload, session, path);
    var answer := Unretrieved(read(PreworkScan(payload)));
    AloneSpeaks(digest, broken, at, markers, PreworkJob(payload).value, answer);
    AnswerIsRetrieved(read, ScanRequest(path, true, false, true), cfg, data);
  }

  /** A subagent is nudged when it starts, once, and no file is asked for. */
  lemma StartIsNudged(digest: Digest, broken: nat -> bool, at: nat, markers: set<string>, payload: Fields,
                      read: Reader, session: string, agent: string)
    requires EventIs(payload, "SubagentStart") && TextIs(payload, "session_id", Some(session))
    requires AgentIs(payload, Some(agent))
    ensures NudgeResult(digest, broken, at, markers, payload, read)
         == Spoken(digest, broken, at, markers, ["prework", session, agent], true, Nudge("SubagentStart"))
  {
    TextMeans(payload, "session_id", Some(session));
    AgentMeans(payload, Some(agent));
  }

  lemma PreworkJobNeeds(payload: Fields)
    requires PreworkJob(payload).Some?
    ensures TextField(payload, "session_id").Some?
    ensures || (EventIs(payload, "UserPromptSubmit") && AgentId(payload).None?)
            || (EventIs(payload, "SubagentStart") && AgentId(payload).Some?)
  {
  }

  /** Any other input is met with silence and no claim. */
  lemma NoNudgeOtherwise(digest: Digest, broken: nat -> bool, at: nat, markers: set<string>, payload: Fields,
                         read: Reader, agent: Option<string>)
    requires AgentIs(payload, agent)
    requires || TextIs(payload, "session_id", None)
             || !(if agent.None? then EventIs(payload, "UserPromptSubmit") else EventIs(payload, "SubagentStart"))
    ensures NudgeResult(digest, broken, at, markers, payload, read) == (None, markers)
  {
    TextMeans(payload, "session_id", None);
    AgentMeans(payload, agent);
    if PreworkJob(payload).Some? {
      PreworkJobNeeds(payload);
    }
  }

  // ------------------------------------------------------------------
  // The edit guard
  // ------------------------------------------------------------------

  /** The first answer that is known decides. */
  lemma {:induction false} FirstKnownAt(requests: seq<ScanRequest>, read: Reader, i: nat)
    requires i < |requests| && read(requests[i]).Some? && forall k :: 0 <= k < i ==> read(requests[k]).None?
    ensures FirstKnown(requests, read) == read(requests[i])
    decreases i
  {
    if i > 0 {
      var rest := requests[1..];
      assert read(requests[0]).None?;
      assert forall k :: 0 <= k < i - 1 ==> rest[k] == requests[k + 1];
      FirstKnownAt(rest, read, i - 1);
    }
  }

  /** An edit by one of the four editing tools, in a session. */
  ghost predicate EditsIn(payload: Fields, session: string) {
    && EventIs(payload, "PreToolUse") && TextIs(payload, "session_id", Some(session))
    && "tool_name" in payload
    && (payload["tool_name"] == Str("Edit") || payload["tool_name"] == Str("Write")
        || payload["tool_name"] == Str("MultiEdit") || payload["tool_name"] == Str("NotebookEdit"))
  }

  /**
   The transcripts the guard tries. The main session's is its own; a subagent's is the
   one the input names, or else one or two files beside the session's.
   */
  ghost predicate Tries(payload: Fields, agent: Option<string>, folder: string -> string, requests: seq<ScanRequest>) {
    if agent.None? then
      exists path :: TextIs(payload, "transcript_path", path) && requests == [ScanRequest(path, true, false, false)]
    else
      exists named, path ::
        && TextIs(payload, "agent_transcript_path", named) && TextIs(payload, "transcript_path", path)
        && requests ==
           if named.Some? then [ScanRequest(named, true, true, false)]
           else if path.None? then []
           else if "agent-" <= agent.value
           then [ScanRequest(Some(folder(path.value) + "/agent-" + agent.value + ".jsonl"), true, true, false),
                 ScanRequest(Some(folder(path.value) + "/" + agent.value + ".jsonl"), true, true, false)]
           else [ScanRequest(Some(folder(path.value) + "/agent-" + agent.value + ".jsonl"), true, true, false)]
  }

  lemma TriesMeans(payload: Fields, agent: Option<string>, folder: string -> string, requests: seq<ScanRequest>)
    requires AgentIs(payload, agent) && Tries(payload, agent, folder, requests)
    ensures EditGuardScans(payload, folder) == requests
  {
    AgentMeans(payload, agent);
    forall v ensures TextIs(payload, "transcript_path", v) <==> TextField(payload, "transcript_path") == v {
      TextMeans(payload, "transcript_path", v);
    }
    forall v ensures TextIs(payload, "agent_transcript_path", v) <==> TextField(payload, "agent_transcript_path") == v {
      TextMeans(payload, "agent_transcript_path", v);
    }
  }

  /** The key of an edit: the main session has the empty agent. */
  function EditKey(session: string, agent: Option<string>): Key {
    ["edit-guard", session, if agent.Some? then agent.value else ""]
  }

  lemma EditJobIs(payload: Fields, session: string, agent: Option<string>, scopeAll: bool)
    requires EditsIn(payload, session) && AgentIs(payload, agent) && (agent.Some? || scopeAll)
    ensures EditGuardJob(payload, scopeAll) == Some(Job(EditKey(session, agent), true, [], Some(Deny)))
  {
    TextMeans(payload, "session_id", Some(session));
    AgentMeans(payload, agent);
  }

  /**
   An edit is denied exactly when none was before for this session and agent, the claim
   works, and no block of the first transcript that could be read is a call to a
   retrieval. A subagent's transcript is read with its own entries.
   */
  lemma DeniedExactlyWhen(digest: Digest, broken: nat -> bool, at: nat, markers: set<string>, payload: Fields,
                          scopeAll: bool, folder: string -> string, read: Reader, session: string,
                          agent: Option<string>, requests: seq<ScanRequest>, i: nat, cfg: Config, data: Bytes)
    requires EditsIn(payload, session) && AgentIs(payload, agent) && (agent.Some? || scopeAll)
    requires Tries(payload, agent, folder, requests) && i < |requests|
    requires forall k :: 0 <= k < i ==> read(requests[k]).None?
    requires ReadsFile(read, requests[i], cfg, data) && AllShown(requests[i], cfg, data)
    ensures GuardResult(digest, broken, at, markers, payload, scopeAll, folder, read)
         == Spoken(digest, broken, at, markers, EditKey(session, agent),
                   !Retrieved(History(cfg, data, agent.Some?)), Deny)
  {
    EditJobIs(payload, session, agent, scopeAll);
    var answer := Unretrieved(FirstKnown(EditGuardScans(payload, folder), read));
    AloneSpeaks(digest, broken, at, markers, EditGuardJob(payload, scopeAll).value, answer);
    TriesMeans(payload, agent, folder, requests);
    FirstKnownAt(requests, read, i);
    AnswerIsRetrieved(read, requests[i], cfg, data);
  }

  lemma EditJobNeeds(payload: Fields, scopeAll: bool)
    requires EditGuardJob(payload, scopeAll).Some?
    ensures (exists session :: EditsIn(payload, session)) && (scopeAll || AgentId(payload).Some?)
  {
    var session := TextField(payload, "session_id");
    TextMeans(payload, "session_id", session);
    assert EditsIn(payload, session.value);
  }

  /** Any other input is met with silence and no claim; so is an edit of the main session outside its scope. */
  lemma NoDenyOtherwise(digest: Digest, broken: nat -> bool, at: nat, markers: set<string>, payload: Fields,
                        scopeAll: bool, folder: string -> string, read: Reader)
    requires (forall session :: !EditsIn(payload, session)) || (!scopeAll && AgentIs(payload, None))
    ensures GuardResult(digest, broken, at, markers, payload, scopeAll, folder, read) == (None, markers)
  {
    if EditGuardJob(payload, scopeAll).Some? {
      EditJobNeeds(payload, scopeAll);
    }
    AgentMeans(payload, None);
  }

  lemma {:induction false} NoneKnown(requests: seq<ScanRequest>, read: Reader)
    requires forall k :: 0 <= k < |requests| ==> read(requests[k]).None?
    ensures FirstKnown(requests, read) == None
  {
    if requests != [] {
      var rest := requests[1..];
      assert forall k :: 0 <= k < |rest| ==> rest[k] == requests[k + 1];
      NoneKnown(rest, read);
    }
  }

  /** What is unknown never produces output: where no transcript can be read, a scan leads to silence and no claim. */
  lemma UnknownStaysSilent(digest: Digest, broken: nat -> bool, at: nat, markers: set<string>, payload: Fields,
                           scopeAll: bool, folder: string -> string, threshold: int, read: Reader)
    requires forall request :: read(request).None?
    ensures !EventIs(payload, "SubagentStart") ==>
            NudgeResult(digest, broken, at, markers, payload, read) == (None, markers)
    ensures GuardResult(digest, broken, at, markers, payload, scopeAll, folder, read) == (None, markers)
    ensures GradeResult(digest, broken, at, markers, payload, threshold, read) == (None, markers)
  {
    NoneKnown(EditGuardScans(payload, folder), read);
  }

  // ------------------------------------------------------------------
  // The grading ask
  // ------------------------------------------------------------------

  /** A stop of the main session, or of a subagent, and the transcript it is about. */
  ghost predicate Stops(payload: Fields, session: string, agent: Option<string>, path: Option<string>) {
    && TextIs(payload, "session_id", Some(session))
    && if agent.None? then EventIs(payload, "Stop") && TextIs(payload, "transcript_path", path)
       else && EventIs(payload, "SubagentStop") && AgentIs(payload, agent)
            && TextIs(payload, "agent_transcript_path", path)
  }

  /** The newest ungraded pack of a history in which enough tools were used. */
  ghost predicate Owes(es: seq<Event>, threshold: int, pack: string) {
    && UngradedAtEnd(es) != [] && UngradedAtEnd(es)[|UngradedAtEnd(es)| - 1] == pack
    && CountFirstUses(es, |es|) >= threshold
  }

  ghost predicate TraceSaved(es: seq<Event>) {
    TraceBefore(es, |es|) || TraceInFlight(es)
  }

  function AskKey(session: string, agent: Option<string>, pack: string): Key {
    ["grade", session, if agent.Some? then agent.value else "", pack]
  }

  lemma StopRequest(payload: Fields, session: string, agent: Option<string>, path: Option<string>)
    requires Stops(payload, session, agent, path)
    ensures GradeScan(payload) == ScanRequest(path, false, agent.Some?, false)
    ensures StopSubject(payload) == Some((session, if agent.Some? then agent.value else ""))
    ensures (Get(payload, "hook_event_name") == Str("Stop")) == agent.None?
  {
    TextMeans(payload, "session_id", Some(session));
    if agent.None? {
      TextMeans(payload, "transcript_path", path);
    } else {
      TextMeans(payload, "agent_transcript_path", path);
      AgentMeans(payload, agent);
    }
  }

  lemma StopJobFrom(payload: Fields, facts: Facts, threshold: int, session: string, agent: string, last: string)
    requires StopSubject(payload) == Some((session, agent)) && !StopHookActive(payload)
    requires facts.toolUses >= threshold && facts.ungraded != [] && facts.ungraded[|facts.ungraded| - 1] == last
    ensures var job := GradeJob(payload, Some(facts), threshold);
            && job.Some? && job.value.key == ["grade", session, agent, last] && !job.value.scans
            && job.value.says ==
               if IsPackId(last)
               then Some(Ask(last, Get(payload, "hook_event_name") == Str("Stop") && !facts.savedTrace)) else None
  {
  }

  /** The job of a stop, from what its transcript says. */
  lemma StopJobIs(payload: Fields, facts: Facts, threshold: int, session: string, agent: Option<string>,
                  path: Option<string>, last: string)
    requires Stops(payload, session, agent, path) && !FollowsABlock(payload) && facts.toolUses >= threshold
    requires facts.ungraded != [] && facts.ungraded[|facts.ungraded| - 1] == last
    ensures var job := GradeJob(payload, Some(facts), threshold);
            && job.Some? && job.value.key == AskKey(session, agent, last) && !job.value.scans
            && job.value.says == if PackIdIs(last) then Some(Ask(last, agent.None? && !facts.savedTrace)) else None
  {
    StopRequest(payload, session, agent, path);
    ActiveMeans(payload);
    PackIdMeans(last);
    StopJobFrom(payload, facts, threshold, session, if agent.Some? then agent.value else "", last);
  }

  lemma NoStopJob(payload: Fields, facts: Facts, threshold: int)
    requires FollowsABlock(payload) || facts.toolUses < threshold || facts.ungraded == []
    ensures GradeJob(payload, Some(facts), threshold) == None
  {
    ActiveMeans(payload);
  }

  lemma AloneReplies(digest: Digest, broken: nat -> bool, at: nat, markers: set<string>, job: Job)
    requires WellKeyed(job) && !job.scans
    ensures Alone(digest, broken, at, markers, job, true).0
         == if Marker(digest, job.key) in markers || broken(at) then None else job.says
  {
  }

  /** What is said to a stop whose transcript gives these facts. */
  lemma AskedOfFacts(digest: Digest, broken: nat -> bool, at: nat, markers: set<string>, payload: Fields,
                     threshold: int, read: Reader, session: string, agent: Option<string>, path: Option<string>,
                     facts: Facts, pack: string, trace: bool)
    requires Stops(payload, session, agent, path) && read(ScanRequest(path, false, agent.Some?, false)) == Some(facts)
    ensures GradeResult(digest, broken, at, markers, payload, threshold, read).0 == Some(Ask(pack, trace)) <==>
            && !FollowsABlock(payload) && facts.toolUses >= threshold
            && facts.ungraded != [] && facts.ungraded[|facts.ungraded| - 1] == pack && PackIdIs(pack)
            && Marker(digest, AskKey(session, agent, pack)) !in markers && !broken(at)
            && trace == (agent.None? && !facts.savedTrace)
  {
    StopRequest(payload, session, agent, path);
    if FollowsABlock(payload) || facts.toolUses < threshold || facts.ungraded == [] {
      NoStopJob(payload, facts, threshold);
    } else {
      StopJobIs(payload, facts, threshold, session, agent, path, facts.ungraded[|facts.ungraded| - 1]);
      AloneReplies(digest, broken, at, markers, GradeJob(payload, Some(facts), threshold).value);
    }
  }

  /**
   A stop asks for a grade of a pack exactly when it does not follow a block by a stop
   hook, it is the newest ungraded one of the whole transcript and is well formed,
   enough tools were used, its marker is absent and its claim works. The main session's
   transcript is read without the entries of subagents, a subagent's own with them; only
   the main session is asked for a trace, if it has saved none.
   */
  lemma AskedOfTheFile(digest: Digest, broken: nat -> bool, at: nat, markers: set<string>, payload: Fields,
                       threshold: int, read: Reader, session: string, agent: Option<string>, path: Option<string>,
                       cfg: Config, data: Bytes, pack: string, trace: bool)
    requires Stops(payload, session, agent, path)
    requires ReadsFile(read, ScanRequest(path, false, agent.Some?, false), cfg, data)
    requires AllShown(ScanRequest(path, false, agent.Some?, false), cfg, data)
    ensures var es := History(cfg, data, agent.Some?);
            GradeResult(digest, broken, at, markers, payload, threshold, read).0 == Some(Ask(pack, trace)) <==>
            && !FollowsABlock(payload) && Owes(es, threshold, pack) && PackIdIs(pack)
            && Marker(digest, AskKey(session, agent, pack)) !in markers && !broken(at)
            && trace == (agent.None? && !TraceSaved(es))
  {
    var scanCfg := ConfigFor(cfg, ScanRequest(path, false, agent.Some?, false));
    AnswerMeansHistory(scanCfg, data);
    AskedOfFacts(digest, broken, at, markers, payload, threshold, read, session, agent, path,
                 FileFacts(scanCfg, data, false, true), pack, trace);
  }

  lemma StopNeeds(payload: Fields)
    requires StopSubject(payload).Some?
    ensures exists session, agent, path :: Stops(payload, session, agent, path)
  {
    var session := TextField(payload, "session_id");
    TextMeans(payload, "session_id", session);
    if EventIs(payload, "Stop") {
      var path := TextField(payload, "transcript_path");
      TextMeans(payload, "transcript_path", path);
      assert Stops(payload, session.value, None, path);
    } else {
      var path := TextField(payload, "agent_transcript_path");
      TextMeans(payload, "agent_transcript_path", path);
      AgentMeans(payload, AgentId(payload));
      assert Stops(payload, session.value, AgentId(payload), path);
    }
  }

  /** Nothing but such an ask is ever said to a stop, and other inputs are met with silence and no claim. */
  lemma NoAskOtherwise(digest: Digest, broken: nat -> bool, at: nat, markers: set<string>, payload: Fields,
                       threshold: int, read: Reader)
    ensures var reply := GradeResult(digest, broken, at, markers, payload, threshold, read).0;
            reply.Some? ==> reply.value.Ask?
    ensures FollowsABlock(payload) || (forall session, agent, path :: !Stops(payload, session, agent, path)) ==>
            GradeResult(digest, broken, at, markers, payload, threshold, read) == (None, markers)
  {
    ActiveMeans(payload);
    if StopSubject(payload).Some? {
      StopNeeds(payload);
    }
  }
}
