/**
 The checks in front of every execution (control_station_lite/agent/script_runner.py and the
 head of ProcessManager.start): approval state, parameters, script file, digest, in this order.
 */
module ExecutionGate {
  import opened Wrappers
  import opened Approvals

  const LINUX_EXTENSIONS := [".sh", ".bash", ""]

  datatype Verdict =
    | Ran(path: string, bytes: Content)
    | NotApproved(state: ApprovalState)
    | BadParams
    | NoScriptFile
    | IntegrityViolation

  /** `found` is the first candidate path that exists, or None when no candidate does. */
  ghost predicate FirstCandidate(name: string, extensions: seq<string>, scripts: map<string, Content>,
                                 found: Option<string>)
  {
    match found
    case None =>
      forall i :: 0 <= i < |extensions| ==> name + extensions[i] !in scripts
    case Some(path) =>
      exists i :: 0 <= i < |extensions| && path == name + extensions[i] && path in scripts
                  && forall j :: 0 <= j < i ==> name + extensions[j] !in scripts
  }

  function Candidate(name: string, extensions: seq<string>, scripts: map<string, Content>): (found: Option<string>)
    ensures FirstCandidate(name, extensions, scripts, found)
  {
    if extensions == [] then None
    else if name + extensions[0] in scripts then Some(name + extensions[0])
    else
      var rest := Candidate(name, extensions[1..], scripts);
      if rest.Some? then
        assert exists i :: 0 <= i < |extensions[1..]| && rest.value == name + extensions[1..][i]
                           && rest.value in scripts
                           && forall j :: 0 <= j < i ==> name + extensions[1..][j] !in scripts;
        assert FirstCandidate(name, extensions, scripts, rest) by {
          var i :| 0 <= i < |extensions[1..]| && rest.value == name + extensions[1..][i]
                   && rest.value in scripts
                   && forall j :: 0 <= j < i ==> name + extensions[1..][j] !in scripts;
          assert rest.value == name + extensions[i + 1];
          forall j | 0 <= j < i + 1 ensures name + extensions[j] !in scripts {
            if j > 0 { assert extensions[j] == extensions[1..][j - 1]; }
          }
        }
        rest
      else
        assert forall j :: 1 <= j < |extensions| ==> extensions[j] == extensions[1..][j - 1];
        rest
  }

  /** The decision, from the descriptor and the files at the time of the request. */
  function Gate(d: Descriptor, scripts: map<string, Content>, extensions: seq<string>,
                md5: Content -> Digest, paramsOk: bool): Verdict
  {
    if d.state != Approved then NotApproved(d.state)
    else if !paramsOk then BadParams
    else match Candidate(d.name, extensions, scripts)
      case None => NoScriptFile
      case Some(path) =>
        if d.approvedMd5.Some? && md5(scripts[path]) != d.approvedMd5.value
        then IntegrityViolation
        else Ran(path, scripts[path])
  }

  method FindScript(name: string, extensions: seq<string>, scripts: map<string, Content>)
    returns (found: Option<string>)
    ensures FirstCandidate(name, extensions, scripts, found)
    ensures found == Candidate(name, extensions, scripts)
  {
    for i := 0 to |extensions|
      invariant forall j :: 0 <= j < i ==> name + extensions[j] !in scripts
      invariant Candidate(name, extensions, scripts) == Candidate(name, extensions[i..], scripts)
    {
      assert extensions[i..][1..] == extensions[i + 1..];
      var candidate := name + extensions[i];
      if candidate in scripts {
        return Some(candidate);
      }
    }
    assert extensions[|extensions|..] == [];
    return None;
  }

  /** `verify_script_integrity`: accepts when nothing was approved by digest, or the digests agree. */
  predicate IntegrityOk(bytes: Content, approvedMd5: Option<Digest>, md5: Content -> Digest) {
    approvedMd5.None? || md5(bytes) == approvedMd5.value
  }

  /** The gate as both `run_script` and `ProcessManager.start` pass it, on a live manager. */
  method Admit(name: string, paramsOk: bool, approvals: ApprovalsManager, extensions: seq<string>,
               md5: Content -> Digest) returns (verdict: Verdict)
    modifies approvals
    ensures approvals.store ==
      if old(approvals.sig) != approvals.disk.stamp then Load(approvals.disk.json) else old(approvals.store)
    ensures approvals.sig == approvals.disk.stamp
    ensures verdict == Gate(Describe(approvals.store, name), approvals.disk.scripts, extensions, md5, paramsOk)
  {
    var descriptor := approvals.GetState(name);
    if descriptor.state != Approved {
      return NotApproved(descriptor.state);
    }
    if !paramsOk {
      return BadParams;
    }
    var path := FindScript(name, extensions, approvals.disk.scripts);
    if path.None? {
      return NoScriptFile;
    }
    var bytes := approvals.disk.scripts[path.value];
    if !IntegrityOk(bytes, descriptor.approvedMd5, md5) {
      return IntegrityViolation;
    }
    return Ran(path.value, bytes);
  }
}
