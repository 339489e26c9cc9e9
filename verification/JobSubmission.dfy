/**
 The canonical scripts of the control station (control_station_lite/server/core/script_registry.py).
 */
module ScriptRegistry {
  import opened Wrappers
  import opened Approvals
  import opened ScriptSync

  datatype RegistryError = Duplicate | UnknownScript | BadMetadata

  datatype Edit = Saved(script: ScriptRow) | Failed(error: RegistryError)

  /** The tables `scripts` and `script_target_state`. */
  class Registry {
    const md5: Content -> Digest
    /** `parse_meta_yaml(...).persistent`, or None when the metadata does not parse. */
    const parse: Content -> Option<bool>
    var scripts: map<string, ScriptRow>
    var states: map<StateKey, TargetState>

    /** Every row carries its own name and the digest of its own content. */
    ghost predicate Valid()
      reads this
    {
      forall n :: n in scripts ==> scripts[n].name == n && scripts[n].md5 == md5(scripts[n].content)
    }

    constructor (md5: Content -> Digest, parse: Content -> Option<bool>)
      ensures Valid() && this.md5 == md5 && this.parse == parse && scripts == map[] && states == map[]
    {
      this.md5, this.parse, scripts, states := md5, parse, map[], map[];
    }

    function IsPersistent(meta: Option<Content>): bool {
      meta.Some? && meta.value != "" && parse(meta.value) == Some(true)
    }

    method Create(name: string, content: Content, meta: Option<Content>) returns (result: Edit)
      requires Valid()
      modifies this`scripts
      ensures Valid()
      ensures result ==
        if name in old(scripts) then Failed(Duplicate)
        else if meta.Some? && parse(meta.value).None? then Failed(BadMetadata)
        else Saved(ScriptRow(name, content, meta, md5(content), IsPersistent(meta)))
      ensures scripts == if result.Saved? then old(scripts)[name := result.script] else old(scripts)
      ensures result.Saved? ==>
        (result.script.persistent <==> exists text :: meta == Some(text) && text != "" && parse(text) == Some(true))
    {
      if name in scripts {
        return Failed(Duplicate);
      }
      if meta.Some? && parse(meta.value).None? {
        return Failed(BadMetadata);
      }
      var script := ScriptRow(name, content, meta, md5(content), IsPersistent(meta));
      scripts := scripts[name := script];
      return Saved(script);
    }

    method Update(name: string, content: Content, meta: Option<Content>) returns (result: Edit)
      requires Valid()
      modifies this`scripts
      ensures Valid()
      ensures result ==
        if name !in old(scripts) then Failed(UnknownScript)
        else if meta.Some? && parse(meta.value).None? then Failed(BadMetadata)
        else Saved(ScriptRow(name, content, meta, md5(content), IsPersistent(meta)))
      ensures scripts == if result.Saved? then old(scripts)[name := result.script] else old(scripts)
      ensures result.Saved? ==>
        (result.script.persistent <==> exists text :: meta == Some(text) && text != "" && parse(text) == Some(true))
    {
      if name !in scripts {
        return Failed(UnknownScript);
      }
      if meta.Some? && parse(meta.value).None? {
        return Failed(BadMetadata);
      }
      var script := scripts[name];
      script := script.(content := content);
      script := script.(meta := meta);
      script := script.(md5 := md5(content));
      script := script.(persistent := IsPersistent(meta));
      scripts := scripts[name := script];
      return Saved(script);
    }

    /** Deletes a script and everything cached about it, for every machine, and nothing else. */
    method Delete(name: string) returns (found: bool)
      requires Valid()
      modifies this
      ensures Valid()
      ensures found <==> name in old(scripts)
      ensures scripts == old(scripts) - {name}
      ensures found ==> forall k :: Known(states, k) == if k.1 == name then None else Known(old(states), k)
      ensures !found ==> states == old(states)
    {
      if name !in scripts {
        return false;
      }
      states := map k | k in states && k.1 != name :: states[k];
      scripts := scripts - {name};
      return true;
    }
  }

  function Known(states: map<StateKey, TargetState>, k: StateKey): Option<TargetState> {
    if k in states then Some(states[k]) else None
  }
}

/**
 Submitting a job: the control station synchronises, and asks the agent to run the script only
 if it is approved (control_station_lite/server/api/jobs.py); the agent compares digests again
 before its own gate (control_station_lite/agent/main.py).  Between the two the owner may run any
 number of commands.
 */
module JobSubmission {
  import opened Wrappers
  import opened Approvals
  import opened ExecutionGate
  import opened RecordsAndFiles
  import opened Sovereignty
  import opened ScriptSync
  import opened ScriptRegistry

  datatype JobRequest = JobRequest(scriptName: string, paramsOk: bool, expectedMd5: Option<Digest>)

  /** The agent's HTTP answers to POST /jobs; `Started` carries what ran. */
  datatype AgentReply =
    | Started(path: string, bytes: Content)
    | Md5Mismatch(state: ApprovalState)  // 409
    | Integrity                          // 409
    | Forbidden                          // 403
    | Unprocessable                      // 422
    | NoSuchScript

  function AgentSubmit(p: Policy, h: Host, r: JobRequest): AgentReply {
    var d := Describe(h.store, r.scriptName);
    if r.expectedMd5.Some? && d.approvedMd5 != r.expectedMd5 then Md5Mismatch(d.state)
    else match Gate(d, h.files.scripts, p.extensions, p.md5, r.paramsOk)
      case Ran(path, bytes) => Started(path, bytes)
      case NotApproved(_) => Forbidden
      case BadParams => Unprocessable
      case NoScriptFile => NoSuchScript
      case IntegrityViolation => Integrity
  }

  /** The JSON endpoint asks for a digest; the web page's form does not. */
  datatype Endpoint = Api | Web

  /** What the submitter gets; `JobRow` means that a row was added to the jobs table. */
  datatype Response =
    | JobRow(script: string)
    | ApprovalConflict(state: Resolved)
    | ValidationError
    | AgentError    // 502
    | ServerError   // 500: no answer, or one that nothing translates

  /**
   Where a submission stands between two requests.  `again` marks the synchronisation that follows
   a conflict; `seen` is the agent's state as it was read.
   */
  datatype Phase =
    | Looking(again: bool)
    | Pushing(again: bool, seen: Descriptor)
    | Asking
    | Over(response: Response)

  function Request(endpoint: Endpoint, script: ScriptRow, paramsOk: bool): JobRequest {
    JobRequest(script.name, paramsOk, if endpoint.Api? then Some(script.md5) else None)
  }

  function AfterSync(again: bool, resolved: Resolved): Phase {
    if again || resolved != FromAgent(Approved) then Over(ApprovalConflict(resolved)) else Asking
  }

  function AfterLook(script: ScriptRow, again: bool, d: Descriptor): Phase {
    if MustStage(d, script) then Pushing(again, d) else AfterSync(again, Assess(d, script))
  }

  function AfterStage(again: bool, outcome: Outcome): Phase {
    match outcome
    case Refused(_) => Over(ServerError)
    case Done(state) => AfterSync(again, FromAgent(state))
  }

  function AfterReply(endpoint: Endpoint, script: ScriptRow, reply: AgentReply): Phase {
    match reply
    case Started(_, _) => Over(JobRow(script.name))
    case Forbidden => Over(ServerError)
    case NoSuchScript => Over(ServerError)
    case Unprocessable => Over(if endpoint.Api? then ValidationError else AgentError)
    case _ => if endpoint.Api? then Looking(true) else Over(AgentError)
  }

  /** How a submission's requests go: its synchronisations, the owner's commands, the job's answer. */
  datatype Course = Course(first: Gap, between: seq<Operation>, answered: bool, second: Gap)

  /** The response, what the agent executed on the way, and the agent and cache row afterwards. */
  datatype Submission = Submission(response: Response, executed: Option<Content>, host: Host, row: Option<TargetState>)

  function ExecutedBy(reply: AgentReply): Option<Content> {
    if reply.Started? then Some(reply.bytes) else None
  }

  /** The second half: the synchronised station asks an agent that is by now in state `h`. */
  function Ask(p: Policy, h: Host, endpoint: Endpoint, script: ScriptRow, paramsOk: bool, course: Course,
               row: Option<TargetState>): Submission
  {
    var reply := AgentSubmit(p, h, Request(endpoint, script, paramsOk));
    if !course.answered then Submission(ServerError, ExecutedBy(reply), h, row)
    else
      var phase := AfterReply(endpoint, script, reply);
      if phase.Over? then Submission(phase.response, ExecutedBy(reply), h, row)
      else
        var again := Sync(h, course.second, script, p.auto);
        Submission(if again.resolved.Some? then AfterSync(true, again.resolved.value).response else ServerError,
                   None, again.host, if again.row.Some? then again.row else row)
  }

  function Submit(p: Policy, h: Host, endpoint: Endpoint, script: ScriptRow, paramsOk: bool, course: Course): Submission {
    var synced := Sync(h, course.first, script, p.auto);
    if synced.resolved.None? then
      Submission(ServerError, None, synced.host, None)
    else if AfterSync(false, synced.resolved.value).Over? then
      Submission(AfterSync(false, synced.resolved.value).response, None, synced.host, synced.row)
    else
      Ask(p, ApplyAll(synced.host, course.between, p.auto), endpoint, script, paramsOk, course, synced.row)
  }

  // ---------------------------------------------------------------------------------------
  // The handlers
  // ---------------------------------------------------------------------------------------

  /** The agent's handler for POST /jobs. */
  method HandleSubmit(p: Policy, agent: ApprovalsManager, r: JobRequest) returns (reply: AgentReply)
    requires agent.sig == agent.disk.stamp ==> agent.store == Load(agent.disk.json)
    modifies agent
    ensures reply == AgentSubmit(p, old(agent.Current()), r)
    ensures agent.Sees() == old(agent.Current())
    ensures agent.sig == agent.disk.stamp && agent.store == Load(agent.disk.json)
  {
    if r.expectedMd5.Some? {
      var descriptor := agent.GetState(r.scriptName);
      if descriptor.approvedMd5 != r.expectedMd5 {
        return Md5Mismatch(descriptor.state);
      }
    }
    var verdict := Admit(r.scriptName, r.paramsOk, agent, p.extensions, p.md5);
    match verdict
    case Ran(path, bytes) => return Started(path, bytes);
    case NotApproved(_) => return Forbidden;
    case BadParams => return Unprocessable;
    case NoScriptFile => return NoSuchScript;
    case IntegrityViolation => return Integrity;
  }

  method AskAgent(p: Policy, machine: int, endpoint: Endpoint, script: ScriptRow, paramsOk: bool, course: Course,
                  cache: StateCache, agent: ApprovalsManager, stamps: seq<Signature>, stamp: Signature)
    returns (response: Response, executed: Option<Content>)
    requires (machine, script.name) in cache.rows
    requires agent.autoApprove == p.auto
    requires agent.sig == agent.disk.stamp ==> agent.store == Load(agent.disk.json)
    requires |stamps| == |course.second.ops| && agent.disk.stamp !in stamps
    modifies cache, agent, agent.disk
    ensures
      var key := (machine, script.name);
      var s := Ask(p, old(agent.Current()), endpoint, script, paramsOk, course, Some(old(cache.rows)[key]));
      && response == s.response && executed == s.executed && agent.Sees() == s.host
      && s.row.Some? && cache.rows == old(cache.rows)[key := s.row.value]
  {
    var reply := HandleSubmit(p, agent, Request(endpoint, script, paramsOk));
    executed := ExecutedBy(reply);
    if !course.answered {
      return ServerError, executed;
    }
    var phase := AfterReply(endpoint, script, reply);
    if phase.Over? {
      return phase.response, executed;
    }
    var resolved := cache.SyncScript(machine, script, agent, course.second, stamps, stamp);
    if resolved.None? {
      return ServerError, None;
    }
    return ApprovalConflict(resolved.value), None;
  }

  /** The signatures approvals.json gets in the course of a submission; none comes back. */
  datatype Stamps = Stamps(first: seq<Signature>, sync: Signature, between: seq<Signature>,
                           second: seq<Signature>, resync: Signature)

  predicate NoneComesBack(stamps: Stamps, course: Course, before: Signature) {
    && |stamps.first| == |course.first.ops| && |stamps.between| == |course.between|
    && |stamps.second| == |course.second.ops|
    && before !in stamps.first && before !in stamps.between && before !in stamps.second
    && stamps.sync !in stamps.between && stamps.sync !in stamps.second
    && (forall i :: 0 <= i < |stamps.between| ==> stamps.between[i] !in stamps.second)
  }

  lemma WrittenTwice<K, V>(rows: map<K, V>, key: K, first: V, second: V)
    ensures rows[key := first][key := second] == rows[key := second]
  {
  }

  /** A submission that finds the script approved asks for the job. */
  lemma SubmitAsks(p: Policy, h: Host, endpoint: Endpoint, script: ScriptRow, paramsOk: bool, course: Course)
    requires Sync(h, course.first, script, p.auto).resolved == Some(FromAgent(Approved))
    ensures
      var synced := Sync(h, course.first, script, p.auto);
      Submit(p, h, endpoint, script, paramsOk, course)
      == Ask(p, ApplyAll(synced.host, course.between, p.auto), endpoint, script, paramsOk, course, synced.row)
  {
  }

  /**
   The handlers for POST /api/machines/{id}/jobs and for the web page's form, over live objects: the
   owner's commands run wherever the station waits for the agent.
   */
  method SubmitJob(p: Policy, machine: int, endpoint: Endpoint, script: ScriptRow, paramsOk: bool, course: Course,
                   cache: StateCache, agent: ApprovalsManager, stamps: Stamps)
    returns (response: Response, executed: Option<Content>)
    requires agent.autoApprove == p.auto
    requires agent.sig == agent.disk.stamp ==> agent.store == Load(agent.disk.json)
    requires NoneComesBack(stamps, course, agent.disk.stamp)
    modifies cache, agent, agent.disk
    ensures var s := Submit(p, old(agent.Current()), endpoint, script, paramsOk, course);
      && response == s.response && executed == s.executed && agent.Sees() == s.host
      && cache.rows == (if s.row.Some? then old(cache.rows)[(machine, script.name) := s.row.value]
                        else old(cache.rows))
  {
    ghost var start := agent.Current();
    ghost var synced := Sync(start, course.first, script, p.auto);
    var resolved := cache.SyncScript(machine, script, agent, course.first, stamps.first, stamps.sync);
    if resolved.None? {
      return ServerError, None;
    }
    if resolved.value != FromAgent(Approved) {
      return ApprovalConflict(resolved.value), None;
    }
    RunCommands(agent.disk, p.auto, course.between, stamps.between, agent.disk.stamp);
    assert agent.Current() == ApplyAll(synced.host, course.between, p.auto);
    ghost var key, rows := (machine, script.name), old(cache.rows);
    assert cache.rows == rows[key := synced.row.value] && Some(cache.rows[key]) == synced.row;
    SubmitAsks(p, start, endpoint, script, paramsOk, course);
    response, executed := AskAgent(p, machine, endpoint, script, paramsOk, course, cache, agent,
                                   stamps.second, stamps.resync);
    WrittenTwice(rows, key, synced.row.value, cache.rows[key]);
  }

  // ---------------------------------------------------------------------------------------
  // End to end
  // ---------------------------------------------------------------------------------------

  /** The agent starts only what was asked for by digest. */
  lemma AgentStartsWhatWasAskedFor(p: Policy, h: Host, r: JobRequest)
    requires r.expectedMd5.Some? && AgentSubmit(p, h, r).Started?
    ensures p.md5(AgentSubmit(p, h, r).bytes) == r.expectedMd5.value
  {
  }

  /** What the agent starts has the approved digest, whether or not one was asked for. */
  lemma AgentStartsWhatIsApproved(p: Policy, h: Host, r: JobRequest)
    requires AgentSubmit(p, h, r).Started?
    ensures
      var d := Describe(h.store, r.scriptName);
      && d.state == Approved
      && (d.approvedMd5.Some? ==> p.md5(AgentSubmit(p, h, r).bytes) == d.approvedMd5.value)
  {
  }

  /** What the agent holds for the script when the request for the job arrives. */
  function AtTheRequest(p: Policy, h: Host, script: ScriptRow, course: Course): Descriptor {
    Describe(ApplyAll(Sync(h, course.first, script, p.auto).host, course.between, p.auto).store, script.name)
  }

  /**
   The JSON endpoint.  Whatever state the agent is in, whatever its files hold and whatever the
   owner does at any moment: what was executed has the digest of the canonical content, and a job
   row exists exactly when something was executed and its answer arrived.
   */
  lemma EndToEnd(p: Policy, h: Host, script: ScriptRow, paramsOk: bool, course: Course)
    requires script.md5 == p.md5(script.content)
    ensures
      var s := Submit(p, h, Api, script, paramsOk, course);
      && (s.executed.Some? ==> p.md5(s.executed.value) == p.md5(script.content))
      && (s.response.JobRow? <==> s.executed.Some? && course.answered)
  {
    var asked := ApplyAll(Sync(h, course.first, script, p.auto).host, course.between, p.auto);
    var r := Request(Api, script, paramsOk);
    if AgentSubmit(p, asked, r).Started? { AgentStartsWhatWasAskedFor(p, asked, r); }
  }

  /** Without digest collisions it is the canonical content itself. */
  lemma EndToEndContent(p: Policy, h: Host, script: ScriptRow, paramsOk: bool, course: Course)
    requires script.md5 == p.md5(script.content)
    requires forall a, b :: p.md5(a) == p.md5(b) ==> a == b
    ensures
      var s := Submit(p, h, Api, script, paramsOk, course);
      && (s.executed.Some? ==> s.executed.value == script.content)
      && (s.response.JobRow? ==> s.executed.Some?)
  {
    EndToEnd(p, h, script, paramsOk, course);
  }

  /** The registry row the request read qualifies, whatever edits made it. */
  lemma EndToEndFromRegistry(registry: Registry, p: Policy, name: string, h: Host, paramsOk: bool, course: Course)
    requires registry.Valid() && registry.md5 == p.md5 && name in registry.scripts
    ensures
      var s := Submit(p, h, Api, registry.scripts[name], paramsOk, course);
      s.executed.Some? ==> p.md5(s.executed.value) == p.md5(registry.scripts[name].content)
  {
    EndToEnd(p, h, registry.scripts[name], paramsOk, course);
  }

  /**
   The web page sends no digest: what it executes is canonical exactly when the agent's approved
   digest, at the moment of the request, still is the script's.
   */
  lemma WebEndToEnd(p: Policy, h: Host, script: ScriptRow, paramsOk: bool, course: Course)
    requires script.md5 == p.md5(script.content)
    ensures
      var s := Submit(p, h, Web, script, paramsOk, course);
      var d := AtTheRequest(p, h, script, course);
      && (s.response.JobRow? <==> s.executed.Some? && course.answered)
      && (s.executed.Some? ==> d.state == Approved)
      && (s.executed.Some? && d.approvedMd5.Some? ==>
            (p.md5(s.executed.value) == p.md5(script.content) <==> d.approvedMd5 == Some(script.md5)))
  {
    var asked := ApplyAll(Sync(h, course.first, script, p.auto).host, course.between, p.auto);
    var r := Request(Web, script, paramsOk);
    if AgentSubmit(p, asked, r).Started? { AgentStartsWhatIsApproved(p, asked, r); }
  }

  /** The agent as the request for the job finds it. */
  function Asked(p: Policy, h: Host, script: ScriptRow, course: Course): Host {
    ApplyAll(Sync(h, course.first, script, p.auto).host, course.between, p.auto)
  }

  /** The first candidate file of the script has digest `md5`. */
  predicate FirstFileIs(p: Policy, h: Host, name: string, md5: Digest) {
    var file := Candidate(name, p.extensions, h.files.scripts);
    file.Some? && p.md5(h.files.scripts[file.value]) == md5
  }

  /** A submission that does not get as far as asking for the job, or does not hear of it. */
  lemma EarlyResponses(p: Policy, h: Host, endpoint: Endpoint, script: ScriptRow, paramsOk: bool, course: Course)
    ensures
      var synced, s := Sync(h, course.first, script, p.auto), Submit(p, h, endpoint, script, paramsOk, course);
      && (synced.resolved != Some(FromAgent(Approved)) ==>
            && s.executed.None? && s.host == synced.host && s.row == synced.row
            && s.response == (if synced.resolved.None? then ServerError else ApprovalConflict(synced.resolved.value)))
      && (synced.resolved == Some(FromAgent(Approved)) && !course.answered ==>
            s.host == Asked(p, h, script, course) && s.row == synced.row && s.response == ServerError)
  {
  }

  /**
   The responses of the JSON endpoint once the script was found approved and the agent has answered.
   With `d` what the agent holds at the request: bad parameters of a script that still is the approved
   version are a validation error; where the agent holds another version, or its file has another digest,
   the station synchronises again and reports the agent's state, which it also caches; a version under
   update, or without a file, is a server error; and all else is a job.
   */
  lemma ApiResponses(p: Policy, h: Host, script: ScriptRow, paramsOk: bool, course: Course)
    requires Sync(h, course.first, script, p.auto).resolved == Some(FromAgent(Approved)) && course.answered
    ensures
      var s, asked := Submit(p, h, Api, script, paramsOk, course), Asked(p, h, script, course);
      var d, file := Describe(asked.store, script.name), Candidate(script.name, p.extensions, asked.files.scripts);
      var current := d.state == Approved && d.approvedMd5 == Some(script.md5);
      var drifted := d.approvedMd5 != Some(script.md5)
                     || (current && paramsOk && file.Some? && !FirstFileIs(p, asked, script.name, script.md5));
      && (s.response == ValidationError <==> current && !paramsOk)
      && (s.response == JobRow(script.name) <==> current && paramsOk && FirstFileIs(p, asked, script.name, script.md5))
      && s.response != AgentError
      && (if drifted then
            var again := Sync(asked, course.second, script, p.auto);
            && s.host == again.host
            && s.response == (if again.resolved.None? then ServerError else ApprovalConflict(again.resolved.value))
            && s.row == (if again.resolved.None? then Sync(h, course.first, script, p.auto).row else again.row)
          else
            && s.host == asked && s.row == Sync(h, course.first, script, p.auto).row
            && (s.response == ServerError <==> !current || (paramsOk && file.None?)))
  {
    var asked := Asked(p, h, script, course);
    SubmitAsks(p, h, Api, script, paramsOk, course);
    ApiReplies(p, asked, script, paramsOk);
  }

  /** What the agent answers to the JSON endpoint's request. */
  lemma ApiReplies(p: Policy, h: Host, script: ScriptRow, paramsOk: bool)
    ensures
      var reply := AgentSubmit(p, h, Request(Api, script, paramsOk));
      var d, file := Describe(h.store, script.name), Candidate(script.name, p.extensions, h.files.scripts);
      if d.approvedMd5 != Some(script.md5) then reply == Md5Mismatch(d.state)
      else if d.state != Approved then reply == Forbidden
      else if !paramsOk then reply == Unprocessable
      else if file.None? then reply == NoSuchScript
      else if FirstFileIs(p, h, script.name, script.md5) then reply == AgentReply.Started(file.value, h.files.scripts[file.value])
      else reply == Integrity
  {
  }

  /** After a second synchronisation the submitter is told the agent's state, and the station has cached it. */
  lemma ConflictTellsState(p: Policy, h: Host, script: ScriptRow, paramsOk: bool, course: Course)
    requires Sync(h, course.first, script, p.auto).resolved == Some(FromAgent(Approved)) && course.answered
    requires Settled(Asked(p, h, script, course), script.name)
    ensures
      var s := Submit(p, h, Api, script, paramsOk, course);
      s.response.ApprovalConflict? ==>
        && s.response == ApprovalConflict(FromAgent(Describe(s.host.store, script.name).state))
        && s.row.Some? && s.row.value.state == FromAgent(Describe(s.host.store, script.name).state)
  {
    ApiResponses(p, h, script, paramsOk, course);
    SyncContract(Asked(p, h, script, course), course.second, script, p.auto);
  }

  /**
   The responses of the web page, which sends no digest: a job if the script is approved, its parameters
   are good and its file has the approved digest; an agent error for bad parameters or another digest; a
   server error for want of approval or of a file.  It never synchronises again.
   */
  lemma WebResponses(p: Policy, h: Host, script: ScriptRow, paramsOk: bool, course: Course)
    requires Sync(h, course.first, script, p.auto).resolved == Some(FromAgent(Approved)) && course.answered
    ensures
      var s, asked := Submit(p, h, Web, script, paramsOk, course), Asked(p, h, script, course);
      var d, file := Describe(asked.store, script.name), Candidate(script.name, p.extensions, asked.files.scripts);
      && s.host == asked && s.row == Sync(h, course.first, script, p.auto).row
      && s.response == (if d.state != Approved then ServerError
                        else if !paramsOk then AgentError
                        else if file.None? then ServerError
                        else if d.approvedMd5.None? || FirstFileIs(p, asked, script.name, d.approvedMd5.value)
                        then JobRow(script.name)
                        else AgentError)
  {
    SubmitAsks(p, h, Web, script, paramsOk, course);
    WebReplies(p, Asked(p, h, script, course), script, paramsOk);
  }

  /** What the agent answers to the web page's request. */
  lemma WebReplies(p: Policy, h: Host, script: ScriptRow, paramsOk: bool)
    ensures
      var reply := AgentSubmit(p, h, Request(Web, script, paramsOk));
      var d, file := Describe(h.store, script.name), Candidate(script.name, p.extensions, h.files.scripts);
      if d.state != Approved then reply == Forbidden
      else if !paramsOk then reply == Unprocessable
      else if file.None? then reply == NoSuchScript
      else if d.approvedMd5.None? || FirstFileIs(p, h, script.name, d.approvedMd5.value)
      then reply == AgentReply.Started(file.value, h.files.scripts[file.value])
      else reply == Integrity
  {
  }

  /**
   An answer that is lost (a one-shot script that outlasts the client's timeout, say) changes nothing
   on the agent: the script runs all the same, and there is no row.
   */
  lemma LostAnswerLeavesNoRow(p: Policy, h: Host, endpoint: Endpoint, script: ScriptRow, paramsOk: bool, course: Course)
    ensures
      var kept := Submit(p, h, endpoint, script, paramsOk, course.(answered := true));
      var lost := Submit(p, h, endpoint, script, paramsOk, course.(answered := false));
      kept.response.JobRow? ==>
        && lost.executed == kept.executed && lost.executed.Some? && lost.host == kept.host
        && lost.response == ServerError
  {
    var synced := Sync(h, course.first, script, p.auto);
    if synced.resolved == Some(FromAgent(Approved)) {
      SubmitAsks(p, h, endpoint, script, paramsOk, course.(answered := true));
      SubmitAsks(p, h, endpoint, script, paramsOk, course.(answered := false));
      var reply := AgentSubmit(p, Asked(p, h, script, course), Request(endpoint, script, paramsOk));
      assert AfterReply(endpoint, script, reply) == Over(JobRow(script.name)) <==> reply.Started?;
    }
  }

  /**
   With nobody in between, an agent that was just reported approved refuses neither for approval
   nor for a digest mismatch; a job row appears exactly when the parameters are valid, the first
   candidate file has the canonical digest and the answer arrives.
   */
  lemma UndisturbedSubmission(p: Policy, h: Host, script: ScriptRow, paramsOk: bool, answered: bool)
    requires Settled(h, script.name)
    requires Sync(h, UNDISTURBED, script, p.auto).resolved == Some(FromAgent(Approved))
    ensures
      var h' := Sync(h, UNDISTURBED, script, p.auto).host;
      var reply := AgentSubmit(p, h', Request(Api, script, paramsOk));
      var file := Candidate(script.name, p.extensions, h'.files.scripts);
      && !reply.Forbidden? && !reply.Md5Mismatch?
      && (Submit(p, h, Api, script, paramsOk, Course(UNDISTURBED, [], answered, UNDISTURBED)).response.JobRow?
          <==> answered && paramsOk && file.Some? && p.md5(h'.files.scripts[file.value]) == script.md5)
  {
    SyncContract(h, UNDISTURBED, script, p.auto);
  }

  /**
   The one approval refusal the control station does not translate (HTTP 403) is reached exactly
   when the asked-for version is the approved one but an update of it is on offer.
   */
  lemma UntranslatedRefusal(p: Policy, events: seq<Event>, script: ScriptRow, paramsOk: bool)
    ensures
      var h := Replay(p, events).host;
      var d := Describe(h.store, script.name);
      AgentSubmit(p, h, Request(Api, script, paramsOk)).Forbidden?
      <==> d.state == UpdatePending && d.approvedMd5 == Some(script.md5)
  {
    OnlyUpdatesKeepAnOldDigest(p, events, script.name);
  }

  /** A run that gets there: an update is offered after the first text was approved. */
  lemma RefusalIsReached(p: Policy, n: string, first: Content, update: Content, meta: Option<Content>, persistent: bool,
                         paramsOk: bool)
    requires n !in p.auto && p.md5(first) != p.md5(update)
    ensures
      var h := Replay(p, UpdateOffered(p, n, first, update)).host;
      var script := ScriptRow(n, first, meta, p.md5(first), persistent);
      AgentSubmit(p, h, Request(Api, script, paramsOk)) == Forbidden
  {
    UpdateIsOffered(p, n, first, update);
  }

  lemma {:induction false} OnlyUpdatesKeepAnOldDigest(p: Policy, events: seq<Event>, n: string)
    ensures
      var d := Describe(Replay(p, events).host.store, n);
      d.approvedMd5.Some? ==> d.state in {Approved, UpdatePending}
  {
    if events != [] {
      var m := |events| - 1;
      OnlyUpdatesKeepAnOldDigest(p, events[..m], n);
      var h, e := Replay(p, events[..m]).host, events[m];
      if e.Operate? && e.op.name == n {
        assert View(h, n).record == Lookup(h.store, n);
        assert Lookup(Replay(p, events).host.store, n) == Transit(View(h, n), e.op, p.auto).slot.record;
      }
    }
  }
}
