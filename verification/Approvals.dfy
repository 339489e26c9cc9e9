/** Options, used wherever the program has a value that may be None. */
module Wrappers {
  datatype Option<+T> = None | Some(value: T)

  /** The map that agrees with `m` except that `k` now holds `o` (None: `k` is unbound). */
  function Bind<V>(m: map<string, V>, k: string, o: Option<V>): (r: map<string, V>)
    ensures Lookup(r, k) == o
    ensures forall j :: j != k ==> Lookup(r, j) == Lookup(m, j)
  {
    if o.Some? then m[k := o.value] else m - {k}
  }

  /** Binding the same two keys again forgets what they held before. */
  lemma RebindBoth<V>(m: map<string, V>, a: string, b: string, x: Option<V>, y: Option<V>, z: Option<V>, w: Option<V>)
    requires a != b
    ensures Bind(Bind(Bind(Bind(m, a, x), b, y), a, z), b, w) == Bind(Bind(m, a, z), b, w)
  {
  }

  function Lookup<V>(m: map<string, V>, k: string): Option<V> {
    if k in m then Some(m[k]) else None
  }
}

/**
 The approval state machine of one agent installation
 (control_station_lite/agent/approvals.py).

 A script lives in two places: a record in approvals.json and up to four files, the script and
 its metadata in scripts/ and in scripts.pending/.  A `Slot` gathers what belongs to one name;
 the transitions are written on slots.  A `Host` holds all records and all files of the
 installation, where the slots of two names may overlap on a path.
 */
module Approvals {
  import opened Wrappers

  type Digest = string
  type Content = string
  type Store = map<string, Record>

  datatype ApprovalState = Absent | Pending | Approved | UpdatePending | Rejected

  datatype Via = Cli | Auto

  datatype Record = Record(
    state: ApprovalState,
    approvedMd5: Option<Digest>,
    approvedVia: Option<Via>,
    pendingMd5: Option<Digest>)

  datatype Descriptor = Descriptor(
    name: string, state: ApprovalState, approvedMd5: Option<Digest>, pendingMd5: Option<Digest>)

  datatype ApprovalError = IsRejected | NotFound | WrongState | PendingFileMissing

  datatype Outcome = Done(state: ApprovalState) | Refused(error: ApprovalError)

  const META := ".meta.yaml"

  function Describe(store: Store, name: string): Descriptor {
    match Lookup(store, name)
    case None => Descriptor(name, Absent, None, None)
    case Some(r) => Descriptor(name, r.state, r.approvedMd5, r.pendingMd5)
  }

  // ---------------------------------------------------------------------------------------
  // One name
  // ---------------------------------------------------------------------------------------

  /** Everything the installation holds for one name. */
  datatype Slot = Slot(
    record: Option<Record>,
    live: Option<Content>,
    liveMeta: Option<Content>,
    staged: Option<Content>,
    stagedMeta: Option<Content>)
  {
    function State(): ApprovalState {
      if record.Some? then record.value.state else Absent
    }
  }

  const EMPTY_SLOT := Slot(None, None, None, None, None)

  /** The slot after a transition, the answer to the caller, and whether approvals.json was rewritten. */
  datatype Transition = Transition(slot: Slot, outcome: Outcome, saved: bool)

  function StageSlot(s: Slot, content: Content, md5: Digest, meta: Option<Content>, auto: bool): Transition {
    var current := s.State();
    if current == Rejected then
      Transition(s, Refused(IsRejected), false)
    else if current == Approved && s.record.value.approvedMd5 == Some(md5) then
      Transition(s, Done(Approved), false)
    else if current in {Pending, UpdatePending} && s.record.value.pendingMd5 == Some(md5) then
      Transition(s, Done(current), false)
    else
      var stagedMeta := if meta.Some? then meta else s.stagedMeta;
      if auto then
        Transition(
          Slot(Some(Record(Approved, Some(md5), Some(Auto), None)),
               Some(content), if stagedMeta.Some? then stagedMeta else s.liveMeta, None, None),
          Done(Approved), true)
      else if current == Approved then
        var r := s.record.value;
        Transition(
          s.(record := Some(r.(state := UpdatePending, pendingMd5 := Some(md5))),
             staged := Some(content), stagedMeta := stagedMeta),
          Done(UpdatePending), true)
      else
        Transition(
          s.(record := Some(Record(Pending, None, None, Some(md5))),
             staged := Some(content), stagedMeta := stagedMeta),
          Done(Pending), true)
  }

  function ApproveSlot(s: Slot): Transition {
    if s.record.None? then
      Transition(s, Refused(NotFound), false)
    else if s.State() !in {Pending, UpdatePending} then
      Transition(s, Refused(WrongState), false)
    else if s.staged.None? then
      Transition(s, Refused(PendingFileMissing), false)
    else
      Transition(
        Slot(Some(Record(Approved, s.record.value.pendingMd5, Some(Cli), None)),
             s.staged, if s.stagedMeta.Some? then s.stagedMeta else s.liveMeta, None, None),
        Done(Approved), true)
  }

  function RejectSlot(s: Slot): Transition {
    if s.record.None? then
      Transition(s, Refused(NotFound), false)
    else if s.State() !in {Pending, UpdatePending} then
      Transition(s, Refused(WrongState), false)
    else
      Transition(EMPTY_SLOT.(record := Some(Record(Rejected, None, None, None))), Done(Rejected), true)
  }

  function ClearSlot(s: Slot): Transition {
    if s.record.None? then
      Transition(s, Refused(NotFound), false)
    else
      Transition(EMPTY_SLOT, Done(Absent), true)
  }

  // ---------------------------------------------------------------------------------------
  // All names
  // ---------------------------------------------------------------------------------------

  datatype Files = Files(scripts: map<string, Content>, pending: map<string, Content>)

  datatype Host = Host(store: Store, files: Files)

  const EMPTY_HOST := Host(map[], Files(map[], map[]))

  function View(h: Host, name: string): Slot {
    Slot(Lookup(h.store, name),
         Lookup(h.files.scripts, name), Lookup(h.files.scripts, name + META),
         Lookup(h.files.pending, name), Lookup(h.files.pending, name + META))
  }

  function Put(h: Host, name: string, s: Slot): Host {
    Host(Bind(h.store, name, s.record),
         Files(Bind(Bind(h.files.scripts, name, s.live), name + META, s.liveMeta),
               Bind(Bind(h.files.pending, name, s.staged), name + META, s.stagedMeta)))
  }

  /** One of the two names is the metadata path of the other. */
  predicate Alias(a: string, b: string) {
    a == b + META || b == a + META
  }

  datatype Operation =
    | Stage(name: string, content: Content, md5: Digest, meta: Option<Content>)
    | Approve(name: string)
    | Reject(name: string)
    | Clear(name: string)

  function Transit(s: Slot, op: Operation, auto: set<string>): Transition {
    match op
    case Stage(name, content, md5, meta) => StageSlot(s, content, md5, meta, name in auto)
    case Approve(_) => ApproveSlot(s)
    case Reject(_) => RejectSlot(s)
    case Clear(_) => ClearSlot(s)
  }

  /** What an operation does to the whole installation: it rewrites the slot of its name. */
  function Apply(h: Host, op: Operation, auto: set<string>): Host {
    Put(h, op.name, Transit(View(h, op.name), op, auto).slot)
  }

  function OutcomeOf(h: Host, op: Operation, auto: set<string>): Outcome {
    Transit(View(h, op.name), op, auto).outcome
  }

  /** Writing a slot back is read back exactly, and rewriting what is there changes nothing. */
  lemma PutView(h: Host, name: string, s: Slot)
    ensures View(Put(h, name, s), name) == s
    ensures Put(h, name, View(h, name)) == h
  {
    assert |name + META| != |name|;
    var g := Put(h, name, View(h, name));
    assert g.store == h.store;
    assert g.files.scripts == h.files.scripts;
    assert g.files.pending == h.files.pending;
  }

  lemma MetaInjective(a: string, b: string)
    requires a + META == b + META
    ensures a == b
  {
    assert a == (a + META)[..|a|] && b == (b + META)[..|b|];
  }

  /** The frame of every operation: a name sees no change made under another, unaliased name. */
  lemma PutFrame(h: Host, name: string, s: Slot, other: string)
    requires other != name && !Alias(name, other)
    ensures View(Put(h, name, s), other) == View(h, other)
  {
    if other + META == name + META { MetaInjective(other, name); }
  }

  /**
   The frame holds for two names exactly when they are different and neither is the metadata
   path of the other.
   */
  lemma FrameExactlyWhenUnaliased(name: string, other: string)
    ensures (forall h, s :: View(Put(h, name, s), other) == View(h, other))
       <==> other != name && other != name + ".meta.yaml" && name != other + ".meta.yaml"
  {
    if other != name && !Alias(name, other) {
      forall h, s ensures View(Put(h, name, s), other) == View(h, other) {
        PutFrame(h, name, s, other);
      }
    } else {
      var s := EMPTY_SLOT.(live := Some("a"), liveMeta := Some("a"));
      PutView(EMPTY_HOST, name, s);
      assert |name + META| != |name|;
      assert View(Put(EMPTY_HOST, name, s), other) != View(EMPTY_HOST, other);
    }
  }

  /** approvals.json is rewritten exactly when the record changes; whatever is refused saves nothing. */
  lemma SavedExactlyWhenRecordChanges(s: Slot, op: Operation, auto: set<string>)
    ensures
      var t := Transit(s, op, auto);
      && (t.saved <==> t.slot.record != s.record)
      && (!t.saved ==> t.slot == s) && (t.outcome.Refused? ==> !t.saved)
  {
  }

  /** A refused operation, and one that answers without saving, leave everything as it was. */
  lemma RefusalChangesNothing(h: Host, op: Operation, auto: set<string>)
    requires OutcomeOf(h, op, auto).Refused? || !Transit(View(h, op.name), op, auto).saved
    ensures Apply(h, op, auto) == h
  {
    PutView(h, op.name, View(h, op.name));
  }

  /** The answer to a successful operation is the state the next reader finds. */
  lemma AnswerIsNewState(h: Host, op: Operation, auto: set<string>)
    requires OutcomeOf(h, op, auto).Done?
    ensures Describe(Apply(h, op, auto).store, op.name).state == OutcomeOf(h, op, auto).state
  {
    PutView(h, op.name, Transit(View(h, op.name), op, auto).slot);
  }

  // ---------------------------------------------------------------------------------------
  // The manager object
  // ---------------------------------------------------------------------------------------

  /** What `(mtime_ns, size)` of approvals.json looks like; (0, 0) stands for a missing file. */
  type Signature = (int, int)

  const NO_FILE: Signature := (0, 0)

  /** approvals.json, or None when it is missing or does not parse. */
  function Load(json: Option<Store>): Store {
    if json.Some? then json.value else map[]
  }

  /** The part of the file system that several managers share. */
  class Disk {
    var scripts: map<string, Content>
    var pending: map<string, Content>
    var json: Option<Store>
    var stamp: Signature

    constructor ()
      ensures scripts == map[] && pending == map[] && json == None && stamp == NO_FILE
    {
      scripts, pending, json, stamp := map[], map[], None, NO_FILE;
    }
  }

  class ApprovalsManager {
    const autoApprove: set<string>
    const disk: Disk
    var store: Store
    var sig: Signature

    /** The installation as this manager sees it: its own records and the shared files. */
    function Sees(): Host
      reads this, disk
    {
      Host(store, Files(disk.scripts, disk.pending))
    }

    constructor (disk: Disk, autoApprove: set<string>)
      ensures this.disk == disk && this.autoApprove == autoApprove
      ensures store == Load(disk.json) && sig == disk.stamp
    {
      this.disk := disk;
      this.autoApprove := autoApprove;
      store := Load(disk.json);
      sig := disk.stamp;
    }

    /** The installation as a read through this manager finds it. */
    function Current(): Host
      reads this, disk
    {
      Host(if sig != disk.stamp then Load(disk.json) else store, Files(disk.scripts, disk.pending))
    }

    method SyncFromDisk()
      modifies this
      ensures store == if old(sig) != disk.stamp then Load(disk.json) else old(store)
      ensures sig == disk.stamp
    {
      if disk.stamp != sig {
        store := Load(disk.json);
        sig := disk.stamp;
      }
    }

    method GetState(name: string) returns (d: Descriptor)
      modifies this
      ensures store == if old(sig) != disk.stamp then Load(disk.json) else old(store)
      ensures sig == disk.stamp
      ensures d == Describe(store, name)
    {
      SyncFromDisk();
      if name !in store {
        return Descriptor(name, Absent, None, None);
      }
      var record := store[name];
      return Descriptor(name, record.state, record.approvedMd5, record.pendingMd5);
    }

    /** Rewrites approvals.json; `stamp` is the signature the file system gives the new file. */
    method Save(stamp: Signature)
      modifies this`sig, disk`json, disk`stamp
      ensures disk.json == Some(store) && disk.stamp == stamp && sig == stamp
    {
      disk.json := Some(store);
      disk.stamp := stamp;
      sig := disk.stamp;
    }

    /** What every mutating method leaves behind, besides its answer. */
    twostate predicate Performed(op: Operation, stamp: Signature)
      reads this, disk
    {
      var t := Transit(View(old(Sees()), op.name), op, autoApprove);
      && Sees() == Apply(old(Sees()), op, autoApprove)
      && (if t.saved
          then disk.json == Some(store) && disk.stamp == stamp && sig == stamp
          else disk.json == old(disk.json) && disk.stamp == old(disk.stamp) && sig == old(sig))
    }

    /** Writes the offered script, and its metadata if any came with it, into scripts.pending/. */
    method WritePending(name: string, content: Content, meta: Option<Content>)
      modifies disk`pending
      ensures disk.pending ==
        Bind(Bind(old(disk.pending), name, Some(content)), name + META,
             if meta.Some? then meta else Lookup(old(disk.pending), name + META))
    {
      MetaPathDiffers(name);
      disk.pending := disk.pending[name := content];
      if meta.Some? {
        disk.pending := disk.pending[name + META := meta.value];
      }
    }

    /** Moves the offered script and its metadata, if there is any, over the approved ones. */
    method PromoteFiles(name: string)
      requires name in disk.pending
      modifies disk`scripts, disk`pending
      ensures disk.pending == Bind(Bind(old(disk.pending), name, None), name + META, None)
      ensures disk.scripts ==
        Bind(Bind(old(disk.scripts), name, Some(old(disk.pending)[name])), name + META,
             if name + META in old(disk.pending)
             then Some(old(disk.pending)[name + META])
             else Lookup(old(disk.scripts), name + META))
    {
      MetaPathDiffers(name);
      disk.scripts := disk.scripts[name := disk.pending[name]];
      disk.pending := disk.pending - {name};
      if name + META in disk.pending {
        disk.scripts := disk.scripts[name + META := disk.pending[name + META]];
        disk.pending := disk.pending - {name + META};
      }
    }

    method Stage(name: string, content: Content, md5: Digest, meta: Option<Content>, stamp: Signature)
      returns (outcome: Outcome)
      modifies this, disk
      ensures outcome == OutcomeOf(old(Sees()), Operation.Stage(name, content, md5, meta), autoApprove)
      ensures Performed(Operation.Stage(name, content, md5, meta), stamp)
    {
      ghost var op := Operation.Stage(name, content, md5, meta);
      MetaPathDiffers(name);
      var current := if name in store then store[name].state else Absent;
      if current == Rejected {
        PutView(Sees(), name, View(Sees(), name));
        return Refused(IsRejected);
      }
      if current == Approved && store[name].approvedMd5 == Some(md5) {
        PutView(Sees(), name, View(Sees(), name));
        return Done(Approved);
      }
      if current in {Pending, UpdatePending} && store[name].pendingMd5 == Some(md5) {
        PutView(Sees(), name, View(Sees(), name));
        return Done(current);
      }
      ghost var before := Sees();
      WritePending(name, content, meta);
      var record;
      if name in autoApprove {
        PromoteFiles(name);
        record := Record(Approved, Some(md5), Some(Auto), None);
        assert disk.pending == Bind(Bind(before.files.pending, name, None), name + META, None) by {
          RebindBoth(before.files.pending, name, name + META, Some(content),
                     if meta.Some? then meta else Lookup(before.files.pending, name + META), None, None);
        }
      } else {
        assert disk.scripts == Put(before, name, View(before, name)).files.scripts by {
          PutView(before, name, View(before, name));
        }
        if current == Approved {
          record := Record(UpdatePending, store[name].approvedMd5, store[name].approvedVia, Some(md5));
        } else {
          record := Record(Pending, None, None, Some(md5));
        }
      }
      store := store[name := record];
      Save(stamp);
      return Done(record.state);
    }

    method Approve(name: string, stamp: Signature) returns (outcome: Outcome)
      modifies this, disk
      ensures outcome == OutcomeOf(old(Sees()), Operation.Approve(name), autoApprove)
      ensures Performed(Operation.Approve(name), stamp)
    {
      MetaPathDiffers(name);
      if name !in store {
        PutView(Sees(), name, View(Sees(), name));
        return Refused(NotFound);
      }
      var record := store[name];
      if record.state !in {Pending, UpdatePending} {
        PutView(Sees(), name, View(Sees(), name));
        return Refused(WrongState);
      }
      if name !in disk.pending {
        PutView(Sees(), name, View(Sees(), name));
        return Refused(PendingFileMissing);
      }
      PromoteFiles(name);
      store := store[name := Record(Approved, record.pendingMd5, Some(Cli), None)];
      Save(stamp);
      assert SameHost(Sees(), Apply(old(Sees()), Operation.Approve(name), autoApprove));
      return Done(Approved);
    }

    method RemoveFiles(name: string)
      modifies disk`scripts, disk`pending
      ensures disk.scripts == old(disk.scripts) - {name, name + META}
      ensures disk.pending == old(disk.pending) - {name, name + META}
    {
      disk.scripts := disk.scripts - {name} - {name + META};
      disk.pending := disk.pending - {name} - {name + META};
    }

    method Reject(name: string, stamp: Signature) returns (outcome: Outcome)
      modifies this, disk
      ensures outcome == OutcomeOf(old(Sees()), Operation.Reject(name), autoApprove)
      ensures Performed(Operation.Reject(name), stamp)
    {
      if name !in store {
        PutView(Sees(), name, View(Sees(), name));
        return Refused(NotFound);
      }
      if store[name].state !in {Pending, UpdatePending} {
        PutView(Sees(), name, View(Sees(), name));
        return Refused(WrongState);
      }
      RemoveFiles(name);
      store := store[name := Record(Rejected, None, None, None)];
      Save(stamp);
      assert SameHost(Sees(), Apply(old(Sees()), Operation.Reject(name), autoApprove));
      return Done(Rejected);
    }

    method Clear(name: string, stamp: Signature) returns (outcome: Outcome)
      modifies this, disk
      ensures outcome == OutcomeOf(old(Sees()), Operation.Clear(name), autoApprove)
      ensures Performed(Operation.Clear(name), stamp)
    {
      if name !in store {
        PutView(Sees(), name, View(Sees(), name));
        return Refused(NotFound);
      }
      RemoveFiles(name);
      store := store - {name};
      Save(stamp);
      assert SameHost(Sees(), Apply(old(Sees()), Operation.Clear(name), autoApprove));
      return Done(Absent);
    }

    /** Dispatch by operation, as the endpoints and the CLI commands do. */
    method Perform(op: Operation, stamp: Signature) returns (outcome: Outcome)
      modifies this, disk
      ensures outcome == OutcomeOf(old(Sees()), op, autoApprove)
      ensures Performed(op, stamp)
    {
      match op
      case Stage(name, content, md5, meta) => outcome := Stage(name, content, md5, meta, stamp);
      case Approve(name) => outcome := Approve(name, stamp);
      case Reject(name) => outcome := Reject(name, stamp);
      case Clear(name) => outcome := Clear(name, stamp);
    }
  }

  lemma MetaPathDiffers(name: string)
    ensures name + META != name
  {
    assert |name + META| != |name|;
  }

  /** Extensional equality of two hosts, map by map. */
  ghost predicate SameHost(a: Host, b: Host)
    ensures SameHost(a, b) ==> a == b
  {
    a.store == b.store && a.files.scripts == b.files.scripts && a.files.pending == b.files.pending
  }

  // ---------------------------------------------------------------------------------------
  // The owner's command line
  // ---------------------------------------------------------------------------------------

  /** What a list of commands does, one after the other. */
  function ApplyAll(h: Host, ops: seq<Operation>, auto: set<string>): Host
    decreases |ops|
  {
    if ops == [] then h
    else Apply(ApplyAll(h, ops[..|ops| - 1], auto), ops[|ops| - 1], auto)
  }

  /** The owner's commands, each with its own fresh manager; no signature comes back. */
  method RunCommands(disk: Disk, auto: set<string>, ops: seq<Operation>, stamps: seq<Signature>, avoid: Signature)
    requires |stamps| == |ops| && avoid !in stamps
    modifies disk
    ensures Host(Load(disk.json), Files(disk.scripts, disk.pending))
            == ApplyAll(old(Host(Load(disk.json), Files(disk.scripts, disk.pending))), ops, auto)
    ensures disk.stamp == avoid ==> disk.stamp == old(disk.stamp) && disk.json == old(disk.json)
    ensures disk.stamp == old(disk.stamp) || disk.stamp in stamps
  {
    ghost var start := Host(Load(disk.json), Files(disk.scripts, disk.pending));
    for i := 0 to |ops|
      invariant Host(Load(disk.json), Files(disk.scripts, disk.pending)) == ApplyAll(start, ops[..i], auto)
      invariant disk.stamp == avoid ==> disk.stamp == old(disk.stamp) && disk.json == old(disk.json)
      invariant disk.stamp == old(disk.stamp) || disk.stamp in stamps
    {
      var manager := new ApprovalsManager(disk, auto);
      ghost var before := manager.Sees();
      var _ := manager.Perform(ops[i], stamps[i]);
      assert ops[..i + 1][..i] == ops[..i];
      if disk.json == old(disk.json) && !Transit(View(before, ops[i].name), ops[i], auto).saved {
        RefusalChangesNothing(before, ops[i], auto);
      }
      assert manager.store == Load(disk.json) by {
        if !Transit(View(before, ops[i].name), ops[i], auto).saved {
          RefusalChangesNothing(before, ops[i], auto);
        }
      }
    }
    assert ops[..|ops|] == ops;
  }
}
