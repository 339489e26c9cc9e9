/**
 The orphan purge (control_station_lite/agent/cli/cmd_approvals.py): records whose script file is
 gone are cleared.
 */
module Purge {
  import opened Wrappers
  import opened Approvals
  import opened ExecutionGate

  /** The directory that backs the record's state has no file of that name. */
  predicate Orphaned(state: ApprovalState, name: string, files: Files) {
    match state
    case Approved => name !in files.scripts
    case Pending => name !in files.pending
    case UpdatePending => name !in files.pending
    case _ => false
  }

  predicate Orphan(h: Host, name: string) {
    name in h.store && Orphaned(h.store[name].state, name, h.files)
  }

  /**
   What being an orphan means.  A waiting version is one exactly when the owner could not approve it for
   want of its file; an approved script exactly when it is refused for want of a file under its own name;
   nothing else ever is.
   */
  lemma OrphanMeans(h: Host, name: string, md5: Content -> Digest)
    ensures
      var d, offer := Describe(h.store, name), OutcomeOf(h, Approve(name), {});
      Orphan(h, name) <==>
        || offer == Refused(PendingFileMissing)
        || (name in h.store && Gate(d, h.files.scripts, [""], md5, true) == NoScriptFile)
  {
    assert name + "" == name;
    var d := Describe(h.store, name);
    if d.state == Approved {
      var file := Candidate(name, [""], h.files.scripts);
      assert [""][1..] == [];
      assert file.Some? <==> name in h.files.scripts;
    }
  }

  /** The pass over the listed names, in their order. */
  function PurgeInOrder(h: Host, names: seq<string>): Host {
    if names == [] then h
    else
      var g, name := PurgeInOrder(h, names[..|names| - 1]), names[|names| - 1];
      if Orphan(g, name) then Apply(g, Operation.Clear(name), {}) else g
  }

  function Orphans(h: Host): set<string> {
    set n | n in h.store && Orphan(h, n)
  }

  function PathsOf(names: set<string>): set<string> {
    names + (set n | n in names :: n + META)
  }

  /** The installation without the records and files of some names. */
  function Without(h: Host, names: set<string>): Host {
    Host(h.store - names, Files(h.files.scripts - PathsOf(names), h.files.pending - PathsOf(names)))
  }

  predicate Distinct(names: seq<string>) {
    forall i, j :: 0 <= i < j < |names| ==> names[i] != names[j]
  }

  /** `list_all`: every recorded name once, in the order of the records. */
  ghost predicate Lists(names: seq<string>, h: Host) {
    && (forall n :: n in names <==> n in h.store)
    && Distinct(names)
  }

  lemma ClearIs(h: Host, n: string)
    requires n in h.store
    ensures Apply(h, Operation.Clear(n), {}) == Without(h, {n})
  {
    assert PathsOf({n}) == {n, n + META};
    assert SameHost(Apply(h, Operation.Clear(n), {}), Without(h, {n}));
  }

  lemma {:induction false} RecordsBeforeTurn(h: Host, names: seq<string>, n: string)
    requires n !in names
    ensures Lookup(PurgeInOrder(h, names).store, n) == Lookup(h.store, n)
  {
    if names != [] {
      RecordsBeforeTurn(h, names[..|names| - 1], n);
    }
  }

  method ClearOrphan(manager: ApprovalsManager, name: string, stamp: Signature) returns (cleared: bool)
    requires name in manager.store
    modifies manager, manager.disk
    ensures cleared && manager.Sees() == Apply(old(manager.Sees()), Operation.Clear(name), {})
    ensures manager.store.Keys <= old(manager.store).Keys && |manager.store| == |old(manager.store)| - 1
  {
    ghost var before := manager.Sees();
    var outcome := manager.Clear(name, stamp);
    ClearIs(before, name);
    assert manager.store == before.store - {name};
    assert manager.store.Keys == before.store.Keys - {name};
    return outcome.Done?;
  }

  /** How many of the listed names are no orphans. */
  function Kept(h: Host, names: seq<string>): nat {
    if names == [] then 0
    else Kept(h, names[..|names| - 1]) + if Orphan(h, names[|names| - 1]) then 0 else 1
  }

  lemma OneMoreOrphan(h: Host, before: seq<string>, name: string)
    requires name !in before
    ensures
      var some, all := (set n | n in before && Orphan(h, n)), (set n | n in before + [name] && Orphan(h, n));
      |all| == |some| + if Orphan(h, name) then 1 else 0
  {
    var some, all := (set n | n in before && Orphan(h, n)), (set n | n in before + [name] && Orphan(h, n));
    if Orphan(h, name) {
      assert all == some + {name};
    } else {
      assert all == some;
    }
  }

  lemma {:induction false} OrphansAmong(h: Host, names: seq<string>)
    requires Distinct(names)
    ensures Kept(h, names) + |set n | n in names && Orphan(h, n)| == |names|
  {
    if names == [] {
      assert (set n | n in names && Orphan(h, n)) == {};
    } else {
      var before, name := names[..|names| - 1], names[|names| - 1];
      OrphansAmong(h, before);
      assert names == before + [name] && name !in before;
      OneMoreOrphan(h, before, name);
    }
  }

  lemma KeptAreNoOrphans(h: Host, names: seq<string>)
    requires Lists(names, h)
    ensures Kept(h, names) == |names| - |Orphans(h)|
  {
    OrphansAmong(h, names);
    assert (set n | n in names && Orphan(h, n)) == Orphans(h);
  }

  /** What the pass finds under the next name. */
  lemma AtItsTurn(h: Host, names: seq<string>, i: nat)
    requires Distinct(names) && i < |names|
    ensures
      var g, name := PurgeInOrder(h, names[..i]), names[i];
      && Lookup(g.store, name) == Lookup(h.store, name)
      && PurgeInOrder(h, names[..i + 1]) == (if Orphan(g, name) then Apply(g, Operation.Clear(name), {}) else g)
      && Kept(h, names[..i + 1]) == Kept(h, names[..i]) + (if Orphan(h, name) then 0 else 1)
  {
    assert names[..i + 1][..i] == names[..i];
    assert names[i] !in names[..i];
    RecordsBeforeTurn(h, names[..i], names[i]);
  }

  /** `stamps[i]` is the signature of approvals.json after the i-th listed name was cleared. */
  method PurgeOrphans(manager: ApprovalsManager, names: seq<string>, dryRun: bool, stamps: seq<Signature>)
    returns (removed: nat, skipped: nat)
    requires Lists(names, manager.Current()) && |stamps| == |names|
    modifies manager, manager.disk
    ensures manager.Sees() == if dryRun then old(manager.Current()) else PurgeInOrder(old(manager.Current()), names)
    ensures !dryRun ==> removed == |old(manager.Current()).store| - |manager.store| && removed + skipped == |names|
    ensures dryRun ==> removed == 0 && skipped == |names| - |Orphans(old(manager.Current()))|
  {
    manager.SyncFromDisk();
    var listed := manager.store;
    ghost var h := manager.Sees();
    removed, skipped := 0, 0;
    for i := 0 to |names|
      invariant manager.Sees() == if dryRun then h else PurgeInOrder(h, names[..i])
      invariant manager.store.Keys <= listed.Keys
      invariant !dryRun ==> removed + skipped == i && removed + |manager.store| == |listed|
      invariant dryRun ==> removed == 0 && skipped == Kept(h, names[..i])
    {
      var name := names[i];
      AtItsTurn(h, names, i);
      if !Orphaned(listed[name].state, name, Files(manager.disk.scripts, manager.disk.pending)) {
        skipped := skipped + 1;
      } else if !dryRun {
        var cleared := ClearOrphan(manager, name, stamps[i]);
        if cleared {
          removed := removed + 1;
        }
      }
    }
    assert names[..|names|] == names;
    KeptAreNoOrphans(h, names);
  }

  // ---------------------------------------------------------------------------------------
  // Exactly the orphans
  // ---------------------------------------------------------------------------------------

  /** No orphan's metadata path is the file that another record needs and has. */
  predicate Separate(h: Host) {
    forall n :: n in h.store && Orphan(h, n) && n + META in h.store ==>
      h.store[n + META].state in {Approved, Pending, UpdatePending} ==> Orphan(h, n + META)
  }

  lemma OrphansStay(h: Host, done: set<string>, n: string)
    requires Separate(h) && done <= Orphans(h) && n !in done
    ensures Orphan(Without(h, done), n) <==> Orphan(h, n)
  {
    if n in PathsOf(done) {
      var o :| o in done && n == o + META;
      assert Orphan(h, o);
    }
  }

  lemma WithoutOneMore(h: Host, done: set<string>, n: string)
    ensures Without(Without(h, done), {n}) == Without(h, done + {n})
  {
    assert PathsOf(done + {n}) == PathsOf(done) + PathsOf({n});
    assert SameHost(Without(Without(h, done), {n}), Without(h, done + {n}));
  }

  lemma {:induction false} PurgedSoFar(h: Host, names: seq<string>)
    requires Separate(h) && (forall n :: n in names ==> n in h.store)
    requires Distinct(names)
    ensures PurgeInOrder(h, names) == Without(h, set n | n in names && Orphan(h, n))
  {
    if names == [] {
      assert SameHost(h, Without(h, {}));
    } else {
      var before, name := names[..|names| - 1], names[|names| - 1];
      assert names == before + [name] && name !in before;
      PurgedSoFar(h, before);
      var done := set n | n in before && Orphan(h, n);
      OrphansStay(h, done, name);
      var all := set n | n in names && Orphan(h, n);
      if Orphan(h, name) {
        ClearIs(Without(h, done), name);
        WithoutOneMore(h, done, name);
        assert all == done + {name};
      } else {
        assert all == done;
      }
    }
  }

  /** In any order the purge removes the orphans and nothing else, and a second one finds nothing. */
  lemma PurgeRemovesExactlyOrphans(h: Host, names: seq<string>)
    requires Lists(names, h) && Separate(h)
    ensures PurgeInOrder(h, names) == Without(h, Orphans(h))
    ensures Orphans(PurgeInOrder(h, names)) == {}
  {
    PurgedSoFar(h, names);
    assert (set n | n in names && Orphan(h, n)) == Orphans(h);
    forall n | n in Without(h, Orphans(h)).store ensures !Orphan(Without(h, Orphans(h)), n) {
      OrphansStay(h, Orphans(h), n);
    }
  }

  // ---------------------------------------------------------------------------------------
  // And only then
  // ---------------------------------------------------------------------------------------

  lemma {:induction false} PurgeSplits(h: Host, a: seq<string>, b: seq<string>)
    ensures PurgeInOrder(h, a + b) == PurgeInOrder(PurgeInOrder(h, a), b)
  {
    if b == [] {
      assert a + b == a;
    } else {
      assert (a + b)[..|a + b| - 1] == a + b[..|b| - 1];
      PurgeSplits(h, a, b[..|b| - 1]);
    }
  }

  /** Nothing comes into the directories. */
  lemma {:induction false} FilesOnlyGo(h: Host, names: seq<string>)
    ensures
      var g := PurgeInOrder(h, names);
      g.files.scripts.Keys <= h.files.scripts.Keys && g.files.pending.Keys <= h.files.pending.Keys
  {
    if names != [] {
      var g, name := PurgeInOrder(h, names[..|names| - 1]), names[|names| - 1];
      FilesOnlyGo(h, names[..|names| - 1]);
      if Orphan(g, name) { ClearIs(g, name); }
    }
  }

  /** An orphan is cleared at its turn at the latest, and with it its metadata path. */
  lemma {:induction false} OrphanGoes(h: Host, names: seq<string>, n: string)
    requires n in names && Distinct(names) && Orphan(h, n)
    ensures
      var g := PurgeInOrder(h, names);
      n + META !in g.files.scripts && n + META !in g.files.pending
  {
    var before, last := names[..|names| - 1], names[|names| - 1];
    var g := PurgeInOrder(h, before);
    FilesOnlyGo(h, before);
    if last == n {
      RecordsBeforeTurn(h, before, n);
      ClearIs(g, n);
    } else {
      assert n in before;
      OrphanGoes(h, before, n);
      if Orphan(g, last) { ClearIs(g, last); }
    }
  }

  lemma {:induction false} Listing(names: set<string>) returns (list: seq<string>)
    ensures Distinct(list) && forall n :: n in list <==> n in names
  {
    if names == {} {
      list := [];
    } else {
      var n :| n in names;
      var rest := Listing(names - {n});
      list := [n] + rest;
    }
  }

  /** An order in which the namesake of an orphan is left behind without its file. */
  lemma LeftBehind(h: Host, n: string) returns (names: seq<string>)
    requires Orphan(h, n) && n + META in h.store && !Orphan(h, n + META)
    requires h.store[n + META].state in {Approved, Pending, UpdatePending}
    ensures Lists(names, h) && n + META in Orphans(PurgeInOrder(h, names))
  {
    var y := n + META;
    var rest := Listing(h.store.Keys - {y});
    names := [y] + rest;
    PurgeSplits(h, [y], rest);
    PurgeOfOne(h, y);
    MetaPathDiffers(n);
    RecordsBeforeTurn(h, rest, y);
    OrphanGoes(h, rest, n);
    assert Lookup(PurgeInOrder(h, names).store, y) == Lookup(h.store, y);
  }

  /**
   In every order the purge removes exactly the orphans, and a second purge finds none, if and only
   if no orphan's metadata path is a file that another record needs and has.
   */
  lemma PurgeIsExactExactlyWhenSeparate(h: Host)
    ensures
      (forall names :: Lists(names, h) ==>
         PurgeInOrder(h, names) == Without(h, Orphans(h)) && Orphans(PurgeInOrder(h, names)) == {})
      <==> Separate(h)
  {
    if Separate(h) {
      forall names | Lists(names, h)
        ensures PurgeInOrder(h, names) == Without(h, Orphans(h)) && Orphans(PurgeInOrder(h, names)) == {}
      {
        PurgeRemovesExactlyOrphans(h, names);
      }
    } else {
      var n :| n in h.store && Orphan(h, n) && n + META in h.store
               && h.store[n + META].state in {Approved, Pending, UpdatePending} && !Orphan(h, n + META);
      var names := LeftBehind(h, n);
    }
  }

  lemma PurgeOfOne(h: Host, n: string)
    ensures PurgeInOrder(h, [n]) == if Orphan(h, n) then Apply(h, Operation.Clear(n), {}) else h
  {
    assert [n][..0] == [];
    assert PurgeInOrder(h, []) == h;
  }

  /**
   Without that hypothesis the outcome depends on the order of the records: an approved script
   named like an orphan's metadata loses its file, and is left behind as a new orphan when it is
   listed first and purged when it is listed second.
   */
  lemma PurgeMakesNewOrphan(x: string, gone: Record, namesake: Record)
    requires gone.state == Approved && namesake.state == Approved
    ensures
      var y := x + META;
      var h := Host(map[x := gone, y := namesake], Files(map[y := "a"], map[]));
      && Lists([y, x], h) && Lists([x, y], h) && Orphans(h) == {x}
      && Orphans(PurgeInOrder(h, [y, x])) == {y}
      && PurgeInOrder(h, [x, y]).store == map[]
  {
    var y := x + META;
    var h := Host(map[x := gone, y := namesake], Files(map[y := "a"], map[]));
    MetaPathDiffers(x);
    MetaPathDiffers(y);
    PurgeOfOne(h, x);
    PurgeOfOne(h, y);
    assert Orphan(h, x) && !Orphan(h, y);
    assert [y, x][..1] == [y];
    assert [x, y][..1] == [x];
    ClearIs(h, x);
    assert PathsOf({x}) == {x, y};
    var g := Without(h, {x});
    assert g.store == map[y := namesake];
    assert PurgeInOrder(h, [x, y]) == Apply(g, Operation.Clear(y), {});
    ClearIs(g, y);
  }
}
