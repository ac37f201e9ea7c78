// localgateway/endpoint_unix.go: removing a Unix socket by identity, while other processes change the directory.
// The removal is run step by step against one file system; between any two steps the others do what they like
// to every name except the removal's own random one.
module EndpointUnix {
  import opened Basics
  import opened Io
  import Hex

  type Path = string

  datatype Identity = Identity(device: nat, inode: nat)

  // Whether an object is a private socket of this user, and whether somebody listens on it.
  datatype Attr = Attr(private: bool, listening: bool)

  // What this process did to objects: moved them aside, put them back where there was nothing, unlinked them, or
  // overwrote them by renaming something else onto their name.
  datatype Op = Moved(id: Identity) | PutBack(id: Identity) | Unlinked(id: Identity) | Overwrote(id: Identity)

  datatype Sys = Done | NoEntry | Exists | OtherError

  // What dialling a path tells.
  datatype Dialled = Connected | Refused | DialFailed

  // A directory tree as its names and the objects' attributes, with the history of this process's own operations, of
  // those of its system calls that failed for no fault of the directory, and of what the others did in between.
  class FileSystem {
    var names: map<Path, Identity>
    var attrs: Identity -> Attr
    ghost var log: seq<Op>
    ghost var failures: nat
    ghost var disturbed: nat

    constructor (names: map<Path, Identity>, attrs: Identity -> Attr)
      ensures this.names == names && this.attrs == attrs && log == [] && failures == 0 && disturbed == 0
    {
      this.names, this.attrs, this.log, this.failures, this.disturbed := names, attrs, [], 0, 0;
    }

    // Other processes create, rename, unlink, listen and change modes at will, but not at the names in `mine`.
    method Others(mine: set<Path>)
      modifies this
      ensures log == old(log) && failures == old(failures) && disturbed >= old(disturbed)
      ensures disturbed == old(disturbed) ==> names == old(names) && attrs == old(attrs)
      ensures forall p :: p in mine ==> (p in names <==> p in old(names))
      ensures forall p :: p in mine && p in names ==> names[p] == old(names)[p]
    {
      var act: bool :| true;
      if act {
        var next: map<Path, Identity> :| forall p :: p in mine ==>
          (p in next <==> p in names) && (p in names ==> next[p] == names[p]);
        names, attrs := next, *;
        disturbed := disturbed + 1;
      }
    }

    // Any of the system calls may fail.
    method Fails() returns (fails: bool)
      modifies this`failures
      ensures failures == if fails then old(failures) + 1 else old(failures)
    {
      fails :| true;
      if fails {
        failures := failures + 1;
      }
    }

    method Lstat(path: Path) returns (r: Sys, id: Identity, attr: Attr)
      modifies this`failures
      ensures r == NoEntry <==> path !in names
      ensures r == Done ==> id == names[path] && attr == attrs(id)
      ensures r != Exists
      ensures failures == if r == OtherError then old(failures) + 1 else old(failures)
    {
      id, attr := Identity(0, 0), Attr(false, false);
      if path !in names {
        return NoEntry, id, attr;
      }
      var fails := Fails();
      if fails {
        return OtherError, id, attr;
      }
      return Done, names[path], attrs(names[path]);
    }

    // connect(2): refused by an object nobody listens on; anything may time out.
    method Dial(path: Path) returns (r: Dialled)
      modifies this`failures
      ensures r != DialFailed ==> path in names && (r == Connected <==> attrs(names[path]).listening)
      ensures failures == if r == DialFailed && path in names then old(failures) + 1 else old(failures)
    {
      if path !in names {
        return DialFailed;
      }
      var fails := Fails();
      if fails {
        return DialFailed;
      }
      r := if attrs(names[path]).listening then Connected else Refused;
    }

    // rename(2): replaces the target; does nothing when both names are the same object.
    method Rename(from: Path, to: Path) returns (r: Sys)
      modifies this
      ensures attrs == old(attrs) && disturbed == old(disturbed)
      ensures r == NoEntry <==> from !in old(names)
      ensures r != Exists
      ensures failures == if r == OtherError then old(failures) + 1 else old(failures)
      ensures r != Done ==> names == old(names) && log == old(log)
      ensures r == Done && to in old(names) && old(names)[to] == old(names)[from] ==>
              names == old(names) && log == old(log)
      ensures r == Done && !(to in old(names) && old(names)[to] == old(names)[from]) ==>
              && names == (old(names) - {from})[to := old(names)[from]]
              && log == old(log) + (if to in old(names) then [Overwrote(old(names)[to])] else [])
                                 + [Moved(old(names)[from])]
    {
      if from !in names {
        return NoEntry;
      }
      var fails := Fails();
      if fails {
        return OtherError;
      }
      if !(to in names && names[to] == names[from]) {
        log := log + (if to in names then [Overwrote(names[to])] else []) + [Moved(names[from])];
        names := (names - {from})[to := names[from]];
      }
      r := Done;
    }

    // renameat2 with RENAME_NOREPLACE, or renameatx_np with RENAME_EXCL.
    method RenameNoReplace(from: Path, to: Path) returns (r: Sys)
      modifies this
      ensures attrs == old(attrs) && disturbed == old(disturbed)
      ensures r == NoEntry <==> from !in old(names)
      ensures r == Exists <==> from in old(names) && to in old(names)
      ensures failures == if r == OtherError then old(failures) + 1 else old(failures)
      ensures r == Done ==>
              && names == (old(names) - {from})[to := old(names)[from]]
              && log == old(log) + [PutBack(old(names)[from])]
      ensures r != Done ==> names == old(names) && log == old(log)
    {
      if from !in names {
        return NoEntry;
      }
      if to in names {
        return Exists;
      }
      var fails := Fails();
      if fails {
        return OtherError;
      }
      log := log + [PutBack(names[from])];
      names := (names - {from})[to := names[from]];
      r := Done;
    }

    method Remove(path: Path) returns (r: Sys)
      modifies this
      ensures attrs == old(attrs) && disturbed == old(disturbed)
      ensures r == NoEntry <==> path !in old(names)
      ensures r != Exists
      ensures failures == if r == OtherError then old(failures) + 1 else old(failures)
      ensures r == Done ==>
              && names == old(names) - {path}
              && log == old(log) + [Unlinked(old(names)[path])]
      ensures r != Done ==> names == old(names) && log == old(log)
    {
      if path !in names {
        return NoEntry;
      }
      var fails := Fails();
      if fails {
        return OtherError;
      }
      log := log + [Unlinked(names[path])];
      names := names - {path};
      r := Done;
    }
  }

  // `suffix` is what the random source produced: eight bytes.
  function CleanupPath(endpoint: Path, suffix: seq<byte>): Path {
    endpoint + ".cleanup-" + Hex.Encode(suffix)
  }

  // The quarantine name is never the endpoint's, and different random suffixes give different names.
  lemma CleanupPathDistinct(endpoint: Path, a: seq<byte>, b: seq<byte>)
    ensures CleanupPath(endpoint, a) != endpoint
    ensures CleanupPath(endpoint, a) == CleanupPath(endpoint, b) ==> a == b
  {
    assert |CleanupPath(endpoint, a)| > |endpoint|;
    var prefix := endpoint + ".cleanup-";
    if CleanupPath(endpoint, a) == CleanupPath(endpoint, b) {
      assert (prefix + Hex.Encode(a))[|prefix|..] == Hex.Encode(a);
      assert (prefix + Hex.Encode(b))[|prefix|..] == Hex.Encode(b);
      Hex.EncodeInjective(a, b);
    }
  }

  // What became of an object that was moved aside and is not to be unlinked.
  datatype Restore = Restored | EndpointReplaced | RestoreFailed

  datatype Outcome =
    | Removed
    | AlreadyGone
    | NoSuffix
    | RenameFailed
    | InspectFailed(restore: Restore)
    | IdentityChanged(restore: Restore)
    | UnlinkFailed
  {
    // A nil error.
    predicate Ok() {
      Removed? || AlreadyGone?
    }
  }

  method RestoreQuarantinedSocket(fs: FileSystem, endpoint: Path, quarantine: Path) returns (r: Restore)
    requires quarantine in fs.names
    modifies fs
    ensures r == Restored ==> fs.log == old(fs.log) + [PutBack(old(fs.names[quarantine]))]
    ensures r != Restored ==>
            && fs.log == old(fs.log)
            && quarantine in fs.names && fs.names[quarantine] == old(fs.names[quarantine])
    ensures fs.failures >= old(fs.failures) && fs.disturbed >= old(fs.disturbed)
    // It gives up only for a call that failed or a name that is taken.
    ensures r == RestoreFailed && endpoint !in fs.names ==> fs.failures > old(fs.failures)
    ensures r == EndpointReplaced ==> endpoint in fs.names
    ensures fs.disturbed == old(fs.disturbed) ==>
            && (fs.failures == old(fs.failures) ==>
                  r == if endpoint in old(fs.names) then EndpointReplaced else Restored)
            && fs.names == if r != Restored then old(fs.names)
                           else (old(fs.names) - {quarantine})[endpoint := old(fs.names[quarantine])]
  {
    var seen, _, _ := fs.Lstat(endpoint);
    if seen == Done {
      return EndpointReplaced;
    }
    if seen != NoEntry {
      return RestoreFailed;
    }
    fs.Others({quarantine});
    var moved := fs.RenameNoReplace(quarantine, endpoint);
    return if moved == Done then Restored else RestoreFailed;
  }

  // What a removal did to the object it had moved aside.
  ghost predicate Settled(outcome: Outcome, aside: Identity, expected: Identity, tail: seq<Op>) {
    match outcome
    case Removed => aside == expected && tail == [Unlinked(aside)]
    case UnlinkFailed => aside == expected && tail == []
    case IdentityChanged(restore) => aside != expected && tail == PutBackLog(aside, restore)
    case InspectFailed(restore) => tail == PutBackLog(aside, restore)
    case _ => false
  }

  ghost function PutBackLog(aside: Identity, restore: Restore): seq<Op> {
    if restore == Restored then [PutBack(aside)] else []
  }

  // How the object got to the quarantine name: moved there, over whatever else stood there, or there all along as
  // another name of the same object.
  ghost function AsideLog(before: map<Path, Identity>, quarantine: Path, aside: Identity): seq<Op> {
    if quarantine !in before then [Moved(aside)]
    else if before[quarantine] == aside then []
    else [Overwrote(before[quarantine]), Moved(aside)]
  }

  predicate NothingMoved(outcome: Outcome) {
    outcome.NoSuffix? || outcome.AlreadyGone? || outcome.RenameFailed?
  }

  // A call has failed.
  predicate NeedsFailure(outcome: Outcome) {
    outcome.RenameFailed? || outcome.InspectFailed? || outcome.UnlinkFailed?
  }

  // All that a removal may have done, `before` being the directory at the moment of its rename, and `failed` whether
  // one of its system calls failed.
  ghost predicate RemovalOf(before: map<Path, Identity>, endpoint: Path, suffix: Option<seq<byte>>, expected: Identity,
                            outcome: Outcome, aside: Identity, head: seq<Op>, tail: seq<Op>, failed: bool) {
    && (suffix.None? <==> outcome.NoSuffix?)
    && (suffix.Some? ==> (outcome.AlreadyGone? <==> endpoint !in before))
    && (NeedsFailure(outcome) ==> failed)
    && if NothingMoved(outcome) then head == [] && tail == []
       else
         && endpoint in before && aside == before[endpoint]
         && head == AsideLog(before, CleanupPath(endpoint, suffix.value), aside)
         && Settled(outcome, aside, expected, tail)
  }

  // Without a failed call the answer is what the directory was at the rename: nothing at the endpoint, the expected
  // object, or another one.
  lemma RemovalAnswers(before: map<Path, Identity>, endpoint: Path, suffix: Option<seq<byte>>, expected: Identity,
                       outcome: Outcome, aside: Identity, head: seq<Op>, tail: seq<Op>)
    requires RemovalOf(before, endpoint, suffix, expected, outcome, aside, head, tail, false) && suffix.Some?
    ensures outcome == AlreadyGone <==> endpoint !in before
    ensures outcome == Removed <==> endpoint in before && before[endpoint] == expected
    ensures outcome.IdentityChanged? <==> endpoint in before && before[endpoint] != expected
  {
  }

  // The removal only ever unlinks an object with the expected identity. Any other object it moved is put back, or
  // nothing more is done to it; nothing is overwritten unless it stood at the random quarantine name.
  lemma RemovalSafe(before: map<Path, Identity>, endpoint: Path, suffix: Option<seq<byte>>, expected: Identity,
                    outcome: Outcome, aside: Identity, head: seq<Op>, tail: seq<Op>, failed: bool)
    requires RemovalOf(before, endpoint, suffix, expected, outcome, aside, head, tail, failed)
    ensures forall op :: op in head + tail && op.Unlinked? ==> op.id == expected == before[endpoint]
    ensures outcome == Removed <==> Unlinked(expected) in head + tail
    ensures outcome.Ok() ==> Unlinked(expected) in head + tail || endpoint !in before
    ensures forall op :: op in head + tail && op.Overwrote? ==>
                         && var quarantine := CleanupPath(endpoint, suffix.value);
                         quarantine in before && op.id == before[quarantine] != aside
    ensures forall op :: op in head + tail && (op.Moved? || op.PutBack?) ==> op.id == aside
    ensures !NothingMoved(outcome) && CleanupPath(endpoint, suffix.value) !in before && aside != expected ==>
              head + tail == [Moved(aside)] || head + tail == [Moved(aside), PutBack(aside)]
  {
    assert forall op :: op in head + tail <==> op in head || op in tail;
  }

  // From the inspection of the object set aside on.
  method SettleQuarantined(fs: FileSystem, endpoint: Path, quarantine: Path, expected: Identity)
    returns (outcome: Outcome, ghost tail: seq<Op>)
    requires quarantine in fs.names
    modifies fs
    ensures fs.log == old(fs.log) + tail
    ensures Settled(outcome, old(fs.names[quarantine]), expected, tail)
    ensures tail == [] ==> quarantine in fs.names && fs.names[quarantine] == old(fs.names[quarantine])
    ensures fs.failures >= old(fs.failures) && fs.disturbed >= old(fs.disturbed)
    ensures NeedsFailure(outcome) ==> fs.failures > old(fs.failures)
    ensures outcome.IdentityChanged? && outcome.restore != Restored && endpoint !in fs.names ==>
            fs.failures > old(fs.failures)
    // Undisturbed, and with no call failing.
    ensures fs.disturbed == old(fs.disturbed) && fs.failures == old(fs.failures) ==>
            if old(fs.names[quarantine]) == expected then
              outcome == Removed && fs.names == old(fs.names) - {quarantine}
            else if endpoint in old(fs.names) then
              outcome == IdentityChanged(EndpointReplaced) && fs.names == old(fs.names)
            else
              && outcome == IdentityChanged(Restored)
              && fs.names == (old(fs.names) - {quarantine})[endpoint := old(fs.names[quarantine])]
  {
    fs.Others({quarantine});
    var inspected, actual, _ := fs.Lstat(quarantine);
    fs.Others({quarantine});
    if inspected != Done {
      var restore := RestoreQuarantinedSocket(fs, endpoint, quarantine);
      return InspectFailed(restore), PutBackLog(old(fs.names[quarantine]), restore);
    }
    if actual != expected {
      var restore := RestoreQuarantinedSocket(fs, endpoint, quarantine);
      return IdentityChanged(restore), PutBackLog(old(fs.names[quarantine]), restore);
    }
    var unlinked := fs.Remove(quarantine);
    if unlinked != Done {
      return UnlinkFailed, [];
    }
    return Removed, [Unlinked(actual)];
  }

  // What a removal answers, and what it makes of the directory, when nothing comes in between.
  ghost predicate Undisturbed(was: map<Path, Identity>, endpoint: Path, expected: Identity,
                              outcome: Outcome, names: map<Path, Identity>) {
    if endpoint !in was then outcome == AlreadyGone && names == was
    else if was[endpoint] == expected then outcome == Removed && names == was - {endpoint}
    else outcome == IdentityChanged(Restored) && names == was
  }

  // The removal, under any interference: `before` is the directory at its rename, `aside` the object it moved to the
  // quarantine name, `head` and `tail` what it did to get it there and afterwards. With no tail the object is still
  // at the quarantine name.
  method RemoveOwnedSocket(fs: FileSystem, endpoint: Path, suffix: Option<seq<byte>>, expected: Identity)
    returns (outcome: Outcome, ghost before: map<Path, Identity>, ghost aside: Identity,
             ghost head: seq<Op>, ghost tail: seq<Op>)
    modifies fs
    ensures fs.log == old(fs.log) + head + tail
    ensures RemovalOf(before, endpoint, suffix, expected, outcome, aside, head, tail, fs.failures > old(fs.failures))
    ensures fs.failures >= old(fs.failures) && fs.disturbed >= old(fs.disturbed)
    ensures outcome.IdentityChanged? && outcome.restore != Restored && endpoint !in fs.names ==>
            fs.failures > old(fs.failures)
    // Undisturbed, with no call failing and the random name free, it removes the expected object and nothing else,
    // and leaves a directory with another object at the endpoint as it was.
    ensures suffix.Some? && CleanupPath(endpoint, suffix.value) !in old(fs.names) &&
            fs.disturbed == old(fs.disturbed) && fs.failures == old(fs.failures) ==>
              Undisturbed(old(fs.names), endpoint, expected, outcome, fs.names)
    ensures !NothingMoved(outcome) && tail == [] ==>
              var quarantine := CleanupPath(endpoint, suffix.value);
              quarantine in fs.names && fs.names[quarantine] == aside
  {
    before, aside, head, tail := fs.names, expected, [], [];
    if suffix.None? {
      outcome := NoSuffix;
      return;
    }
    var quarantine := CleanupPath(endpoint, suffix.value);
    fs.Others({quarantine});
    before := fs.names;
    var renamed := fs.Rename(endpoint, quarantine);
    if renamed == NoEntry {
      outcome := AlreadyGone;
      return;
    }
    if renamed != Done {
      outcome := RenameFailed;
      return;
    }
    aside := fs.names[quarantine];
    head := AsideLog(before, quarantine, aside);
    outcome, tail := SettleQuarantined(fs, endpoint, quarantine, expected);
  }
}

// The stale-socket check before listening. It looks the endpoint's path up three times, to validate, to identify
// and to dial, and then removes what it identified; between any two steps the others do what they like.
module StaleSocket {
  import opened Basics
  import opened Io
  import opened EndpointUnix
  import Runs

  datatype Stale = NothingThere | RefusedUnsafe | CannotIdentify | Active | Unproven | Cleared(outcome: Outcome)

  datatype Pc = Validating | Identifying | Dialling | Removing | Ended(stale: Stale)

  // An object as one lookup saw it.
  datatype Seen = Seen(id: Identity, attr: Attr)

  // The directory, the check's own history, where it is, and what the three lookups saw.
  datatype World = World(
    endpoint: Path, suffix: Option<seq<byte>>, names: map<Path, Identity>, attrs: Identity -> Attr, log: seq<Op>,
    failures: nat, pc: Pc, validated: Option<Seen>, identified: Option<Seen>, dialled: Option<Seen>)

  function Begun(
    endpoint: Path, suffix: Option<seq<byte>>, names: map<Path, Identity>, attrs: Identity -> Attr): World
  {
    World(endpoint, suffix, names, attrs, [], 0, Validating, None, None, None)
  }

  ghost predicate Init(w: World) {
    w == Begun(w.endpoint, w.suffix, w.names, w.attrs)
  }

  function Look(w: World): Seen
    requires w.endpoint in w.names
  {
    var id := w.names[w.endpoint];
    Seen(id, w.attrs(id))
  }

  ghost predicate Interferes(w: World, w': World) {
    w' == w.(names := w'.names, attrs := w'.attrs)
  }

  ghost predicate Validates(w: World, w': World, fails: bool) {
    && w.pc == Validating
    && w' == if w.endpoint !in w.names then w.(pc := Ended(NothingThere))
             else if fails then w.(pc := Ended(RefusedUnsafe), failures := w.failures + 1)
             else if !Look(w).attr.private then w.(pc := Ended(RefusedUnsafe))
             else w.(pc := Identifying, validated := Some(Look(w)))
  }

  ghost predicate Identifies(w: World, w': World, fails: bool) {
    && w.pc == Identifying
    && w' == if w.endpoint !in w.names then w.(pc := Ended(CannotIdentify))
             else if fails then w.(pc := Ended(CannotIdentify), failures := w.failures + 1)
             else w.(pc := Dialling, identified := Some(Look(w)))
  }

  ghost predicate Dials(w: World, w': World, fails: bool) {
    && w.pc == Dialling
    && w' == if w.endpoint !in w.names then w.(pc := Ended(Unproven))
             else if fails then w.(pc := Ended(Unproven), failures := w.failures + 1)
             else if Look(w).attr.listening then w.(pc := Ended(Active))
             else w.(pc := Removing, dialled := Some(Look(w)))
  }

  // A whole removal, from its rename on.
  ghost predicate Removes(w: World, w': World, outcome: Outcome, aside: Identity, head: seq<Op>, tail: seq<Op>) {
    && w.pc == Removing && w.identified.Some?
    && w'.failures >= w.failures
    && RemovalOf(w.names, w.endpoint, w.suffix, w.identified.value.id, outcome, aside, head, tail,
                 w'.failures > w.failures)
    && w' == w.(names := w'.names, attrs := w'.attrs, log := w.log + head + tail, failures := w'.failures,
                pc := Ended(Cleared(outcome)))
  }

  // Which step it is, and what decides it.
  datatype Step =
    | InterferesStep
    | ValidatesStep(fails: bool)
    | IdentifiesStep(fails: bool)
    | DialsStep(fails: bool)
    | RemovesStep(outcome: Outcome, aside: Identity, head: seq<Op>, tail: seq<Op>)

  ghost predicate Takes(w: World, w': World, step: Step) {
    match step
    case InterferesStep => Interferes(w, w')
    case ValidatesStep(fails) => Validates(w, w', fails)
    case IdentifiesStep(fails) => Identifies(w, w', fails)
    case DialsStep(fails) => Dials(w, w', fails)
    case RemovesStep(outcome, aside, head, tail) => Removes(w, w', outcome, aside, head, tail)
  }

  ghost predicate Next(w: World, w': World) {
    exists step :: Takes(w, w', step)
  }

  // Nobody changes an object's attributes.
  ghost predicate Steady(run: seq<World>) {
    forall i, j :: 0 <= i < |run| && 0 <= j < |run| ==> run[i].attrs == run[j].attrs
  }

  lemma Extend(run: seq<World>, w: World, step: Step) returns (longer: seq<World>)
    requires Runs.IsRun(Init, Next, run) && |run| > 0 && Takes(Last(run), w, step)
    ensures Runs.IsRun(Init, Next, longer) && |longer| > 0
    ensures longer[0] == run[0] && Last(longer) == w
    ensures Steady(run) && w.attrs == run[0].attrs ==> Steady(longer)
  {
    hide Takes, Init;
    assert Next(Last(run), w);
    Runs.Extended(Init, Next, run, w);
    longer := run + [w];
  }

  /* ---------- The invariant ---------- */

  // What has been seen by now, and what has been unlinked.
  ghost predicate Inv(w: World) {
    && (w.validated.Some? ==> w.validated.value.attr.private)
    && (w.dialled.Some? ==> !w.dialled.value.attr.listening)
    && (w.pc.Identifying? || w.pc.Dialling? ==> w.validated.Some?)
    && (w.pc.Dialling? ==> w.identified.Some?)
    && (w.pc.Removing? || (w.pc.Ended? && w.pc.stale.Cleared?) ==>
          w.validated.Some? && w.identified.Some? && w.dialled.Some?)
    && (w.log != [] ==> w.pc.Ended? && w.pc.stale.Cleared?)
    && (forall op :: op in w.log && op.Unlinked? ==> op.id == w.identified.value.id && w.pc == Ended(Cleared(Removed)))
    && (w.pc == Ended(Cleared(Removed)) ==> Unlinked(w.identified.value.id) in w.log)
  }

  lemma RemovesKeeps(w: World, w': World, outcome: Outcome, aside: Identity, head: seq<Op>, tail: seq<Op>)
    requires Inv(w) && Removes(w, w', outcome, aside, head, tail)
    ensures Inv(w')
  {
    assert w'.log == head + tail;
    RemovalSafe(w.names, w.endpoint, w.suffix, w.identified.value.id, outcome, aside, head, tail,
                w'.failures > w.failures);
    hide RemovalOf;
  }

  lemma Inductive()
    ensures forall w :: Init(w) ==> Inv(w)
    ensures forall w, w' :: Inv(w) && Next(w, w') ==> Inv(w')
  {
    forall w, w' | Inv(w) && Next(w, w')
      ensures Inv(w')
    {
      var step :| Takes(w, w', step);
      match step
      case RemovesStep(outcome, aside, head, tail) => RemovesKeeps(w, w', outcome, aside, head, tail);
      case _ =>
    }
  }

  /* ---------- Main results, over every run ---------- */

  // Nothing is unlinked but an object identified at the endpoint after a private socket had been seen there and
  // before something there refused a connection.
  lemma UnlinksIdentified(w: World, id: Identity)
    requires Runs.Reachable(Init, Next, w) && Unlinked(id) in w.log
    ensures w.pc == Ended(Cleared(Removed))
    ensures w.identified.Some? && w.identified.value.id == id
    ensures w.validated.Some? && w.validated.value.attr.private
    ensures w.dialled.Some? && !w.dialled.value.attr.listening
  {
    Inductive();
    Runs.InvariantReachable(Init, Next, Inv, w);
  }

  // The object was seen to be a private socket, and it refused the connection.
  ghost predicate ProvedStale(w: World, id: Identity) {
    && (exists attr: Attr :: w.validated == Some(Seen(id, attr)) && attr.private)
    && (exists attr: Attr :: w.dialled == Some(Seen(id, attr)) && !attr.listening)
  }

  // The endpoint was one and the same object at the three lookups.
  ghost predicate SameThroughout(w: World) {
    && w.validated.Some? && w.identified.Some? && w.dialled.Some?
    && w.validated.value.id == w.identified.value.id == w.dialled.value.id
  }

  // The object unlinked is the one that was validated and refused the connection exactly when the endpoint was the
  // same object at the three lookups.
  lemma ProvedStaleExactly(w: World, id: Identity)
    requires Runs.Reachable(Init, Next, w) && Unlinked(id) in w.log
    ensures ProvedStale(w, id) <==> SameThroughout(w)
  {
    UnlinksIdentified(w, id);
    if SameThroughout(w) {
      assert w.validated == Some(Seen(id, w.validated.value.attr));
      assert w.dialled == Some(Seen(id, w.dialled.value.attr));
    }
  }

  // A removal that nobody disturbs.
  lemma RemovesLone(w: World, w': World, suffix: seq<byte>, id: Identity)
    requires w.pc == Removing && w.identified.Some? && w.identified.value.id == id
    requires w.suffix == Some(suffix) && w.names == map[w.endpoint := id] && w.log == []
    requires w' == w.(names := map[], log := [Moved(id), Unlinked(id)], pc := Ended(Cleared(Removed)))
    ensures Takes(w, w', RemovesStep(Removed, id, [Moved(id)], [Unlinked(id)]))
  {
    CleanupPathDistinct(w.endpoint, suffix, suffix);
    hide CleanupPath;
    assert w.log + [Moved(id)] + [Unlinked(id)] == [Moved(id), Unlinked(id)];
  }

  // Which it need not be: with a private dead socket `a` at the endpoint when it validates and dials, and any other
  // object `b` there when it identifies and removes, `b` is unlinked, even if somebody listens on it.
  lemma SwappedUnlinked(endpoint: Path, suffix: seq<byte>, a: Identity, b: Identity, attrs: Identity -> Attr)
    returns (run: seq<World>)
    requires a != b && attrs(a) == Attr(true, false)
    ensures Runs.IsRun(Init, Next, run) && |run| > 0 && Steady(run)
    ensures run[0] == Begun(endpoint, Some(suffix), map[endpoint := a], attrs)
    ensures Last(run).pc == Ended(Cleared(Removed)) && Last(run).log == [Moved(b), Unlinked(b)]
    ensures Last(run).failures == 0
    ensures !ProvedStale(Last(run), b)
  {
    var theirs, ours := map[endpoint := b], map[endpoint := a];
    var w0 := Begun(endpoint, Some(suffix), ours, attrs);
    var w1 := w0.(pc := Identifying, validated := Some(Seen(a, attrs(a))));
    var w2 := w1.(names := theirs);
    var w3 := w2.(pc := Dialling, identified := Some(Seen(b, attrs(b))));
    var w4 := w3.(names := ours);
    var w5 := w4.(pc := Removing, dialled := Some(Seen(a, attrs(a))));
    var w6 := w5.(names := theirs);
    var w7 := w6.(names := map[], log := [Moved(b), Unlinked(b)], pc := Ended(Cleared(Removed)));
    assert Takes(w0, w1, ValidatesStep(false)) && Takes(w1, w2, InterferesStep);
    assert Takes(w2, w3, IdentifiesStep(false)) && Takes(w3, w4, InterferesStep);
    assert Takes(w4, w5, DialsStep(false)) && Takes(w5, w6, InterferesStep);
    RemovesLone(w6, w7, suffix, b);
    run := [w0];
    hide Takes;
    assert Runs.IsRun(Init, Next, run) && Steady(run);
    hide Runs.IsRun, Init, Steady;
    run := Extend(run, w1, ValidatesStep(false));
    run := Extend(run, w2, InterferesStep);
    run := Extend(run, w3, IdentifiesStep(false));
    run := Extend(run, w4, InterferesStep);
    run := Extend(run, w5, DialsStep(false));
    run := Extend(run, w6, InterferesStep);
    run := Extend(run, w7, RemovesStep(Removed, b, [Moved(b)], [Unlinked(b)]));
  }

  /* ---------- The method is a run ---------- */

  // The run so far has led to the directory as it is now.
  ghost predicate Follows(run: seq<World>, fs: FileSystem)
    reads fs
  {
    && Runs.IsRun(Init, Next, run) && |run| > 0
    && Last(run).names == fs.names && Last(run).attrs == fs.attrs
  }

  method ValidateSocket(fs: FileSystem, ghost run: seq<World>, endpoint: Path)
    returns (pc: Pc, ghost longer: seq<World>)
    requires Follows(run, fs) && Last(run).pc == Validating && Last(run).endpoint == endpoint
    modifies fs`failures
    ensures Follows(longer, fs) && longer[0] == run[0]
    ensures Last(longer) == Last(run).(pc := pc, validated := Last(longer).validated, failures := Last(longer).failures)
    ensures fs.failures - old(fs.failures) == Last(longer).failures - Last(run).failures >= 0
    ensures pc in {Identifying, Ended(NothingThere), Ended(RefusedUnsafe)}
    ensures pc == Ended(NothingThere) <==> endpoint !in fs.names
    ensures fs.failures == old(fs.failures) && endpoint in fs.names ==>
            (pc == Identifying <==> fs.attrs(fs.names[endpoint]).private)
  {
    hide Runs.IsRun;
    var seen, id, attr := fs.Lstat(endpoint);
    pc := if seen == NoEntry then Ended(NothingThere)
          else if seen == Done && attr.private then Identifying else Ended(RefusedUnsafe);
    ghost var w := Last(run).(pc := pc);
    w := if pc == Identifying then w.(validated := Some(Seen(id, attr)))
         else if seen == OtherError then w.(failures := w.failures + 1) else w;
    longer := Extend(run, w, ValidatesStep(seen == OtherError));
  }

  method SocketIdentity(fs: FileSystem, ghost run: seq<World>, endpoint: Path)
    returns (seen: Sys, id: Identity, ghost longer: seq<World>)
    requires Follows(run, fs) && Last(run).pc == Identifying && Last(run).endpoint == endpoint
    modifies fs
    ensures fs.log == old(fs.log) && fs.disturbed >= old(fs.disturbed)
    ensures Follows(longer, fs) && longer[0] == run[0]
    ensures var w := Last(longer);
            && w == Last(run).(names := w.names, attrs := w.attrs, pc := w.pc, identified := w.identified,
                               failures := w.failures)
            && w.pc == (if seen == Done then Dialling else Ended(CannotIdentify))
            && (seen == Done ==> w.identified.Some? && w.identified.value.id == id)
    ensures fs.failures - old(fs.failures) == Last(longer).failures - Last(run).failures >= 0
    ensures seen == Done ==> endpoint in fs.names && id == fs.names[endpoint]
    ensures seen != Done && endpoint in fs.names ==> fs.failures > old(fs.failures)
    ensures fs.disturbed == old(fs.disturbed) ==> fs.names == old(fs.names) && fs.attrs == old(fs.attrs)
  {
    hide Runs.IsRun;
    longer := Interfere(fs, run);
    var attr;
    seen, id, attr := fs.Lstat(endpoint);
    ghost var w := Last(longer);
    w := if seen == Done then w.(pc := Dialling, identified := Some(Seen(id, attr)))
         else w.(pc := Ended(CannotIdentify), failures := w.failures + if seen == OtherError then 1 else 0);
    longer := Extend(longer, w, IdentifiesStep(seen == OtherError));
  }

  method DialEndpoint(fs: FileSystem, ghost run: seq<World>, endpoint: Path)
    returns (dial: Dialled, ghost longer: seq<World>)
    requires Follows(run, fs) && Last(run).pc == Dialling && Last(run).endpoint == endpoint
    modifies fs
    ensures fs.log == old(fs.log) && fs.disturbed >= old(fs.disturbed)
    ensures Follows(longer, fs) && longer[0] == run[0]
    ensures var w := Last(longer);
            && w == Last(run).(names := w.names, attrs := w.attrs, pc := w.pc, dialled := w.dialled,
                               failures := w.failures)
            && w.pc == if dial == Refused then Removing else Ended(if dial == Connected then Active else Unproven)
    ensures fs.failures - old(fs.failures) == Last(longer).failures - Last(run).failures >= 0
    ensures endpoint in fs.names && fs.failures == old(fs.failures) ==>
            dial == if fs.attrs(fs.names[endpoint]).listening then Connected else Refused
    ensures fs.disturbed == old(fs.disturbed) ==> fs.names == old(fs.names) && fs.attrs == old(fs.attrs)
  {
    hide Runs.IsRun;
    longer := Interfere(fs, run);
    dial := fs.Dial(endpoint);
    ghost var w, fails := Last(longer), dial == DialFailed && endpoint in fs.names;
    w := match dial
      case Connected => w.(pc := Ended(Active))
      case Refused => w.(pc := Removing, dialled := Some(Look(w)))
      case DialFailed => w.(pc := Ended(Unproven), failures := w.failures + if fails then 1 else 0);
    longer := Extend(longer, w, DialsStep(fails));
  }

  method Interfere(fs: FileSystem, ghost run: seq<World>) returns (ghost longer: seq<World>)
    requires Follows(run, fs)
    modifies fs
    ensures fs.log == old(fs.log) && fs.failures == old(fs.failures) && fs.disturbed >= old(fs.disturbed)
    ensures Follows(longer, fs) && longer[0] == run[0]
    ensures Last(longer) == Last(run).(names := fs.names, attrs := fs.attrs)
    ensures fs.disturbed == old(fs.disturbed) ==> fs.names == old(fs.names) && fs.attrs == old(fs.attrs)
  {
    hide Runs.IsRun;
    fs.Others({});
    longer := Extend(run, Last(run).(names := fs.names, attrs := fs.attrs), InterferesStep);
  }

  // The removal as two steps of the run: what the others did before its rename, and the removal itself.
  method ClearStale(
    fs: FileSystem, ghost run: seq<World>, endpoint: Path, suffix: Option<seq<byte>>, expected: Identity)
    returns (outcome: Outcome, ghost longer: seq<World>)
    requires Follows(run, fs) && Last(run).endpoint == endpoint && Last(run).suffix == suffix && Last(run).log == []
    requires Last(run).pc == Removing && Last(run).identified.Some? && Last(run).identified.value.id == expected
    modifies fs
    ensures Follows(longer, fs) && longer[0] == run[0] && Last(longer).pc == Ended(Cleared(outcome))
    ensures fs.log == old(fs.log) + Last(longer).log && fs.disturbed >= old(fs.disturbed)
    ensures fs.failures - old(fs.failures) == Last(longer).failures - Last(run).failures >= 0
    ensures suffix.Some? && CleanupPath(endpoint, suffix.value) !in old(fs.names) &&
            fs.disturbed == old(fs.disturbed) && fs.failures == old(fs.failures) ==>
              Undisturbed(old(fs.names), endpoint, expected, outcome, fs.names)
  {
    hide Runs.IsRun, RemovalOf, Undisturbed, CleanupPath;
    ghost var before, aside, head, tail;
    outcome, before, aside, head, tail := RemoveOwnedSocket(fs, endpoint, suffix, expected);
    ghost var w := Last(run).(names := before);
    longer := Extend(run, w, InterferesStep);
    w := w.(names := fs.names, attrs := fs.attrs, log := w.log + head + tail, pc := Ended(Cleared(outcome)),
            failures := w.failures + (fs.failures - old(fs.failures)));
    longer := Extend(longer, w, RemovesStep(outcome, aside, head, tail));
    assert old(fs.log) + head + tail == old(fs.log) + ([] + head + tail);
  }

  // The check when nothing comes in between: what it answers, and what it makes of the directory.
  ghost predicate UndisturbedCheck(was: map<Path, Identity>, attrs: Identity -> Attr, endpoint: Path,
                                   stale: Stale, names: map<Path, Identity>) {
    if endpoint !in was then stale == NothingThere && names == was
    else if !attrs(was[endpoint]).private then stale == RefusedUnsafe && names == was
    else if attrs(was[endpoint]).listening then stale == Active && names == was
    else stale == Cleared(Removed) && names == was - {endpoint}
  }

  // The check, with the run it is: from the directory it was called in to its answer.
  method RemoveStaleSocket(fs: FileSystem, endpoint: Path, suffix: Option<seq<byte>>)
    returns (stale: Stale, ghost run: seq<World>)
    modifies fs
    ensures Follows(run, fs) && run[0] == Begun(endpoint, suffix, old(fs.names), old(fs.attrs))
    ensures Last(run).pc == Ended(stale) && fs.log == old(fs.log) + Last(run).log
    ensures fs.failures == old(fs.failures) + Last(run).failures
    ensures stale == NothingThere <==> endpoint !in old(fs.names)
    ensures suffix.Some? && CleanupPath(endpoint, suffix.value) !in old(fs.names) &&
            fs.disturbed == old(fs.disturbed) && fs.failures == old(fs.failures) ==>
              UndisturbedCheck(old(fs.names), old(fs.attrs), endpoint, stale, fs.names)
  {
    run := [Begun(endpoint, suffix, fs.names, fs.attrs)];
    assert Runs.IsRun(Init, Next, run);
    hide Runs.IsRun, CleanupPath;
    var pc;
    pc, run := ValidateSocket(fs, run, endpoint);
    if pc.Ended? {
      return pc.stale, run;
    }
    var seen, id;
    seen, id, run := SocketIdentity(fs, run, endpoint);
    if seen != Done {
      return CannotIdentify, run;
    }
    var dial;
    dial, run := DialEndpoint(fs, run, endpoint);
    if dial != Refused {
      return if dial == Connected then Active else Unproven, run;
    }
    var outcome;
    outcome, run := ClearStale(fs, run, endpoint, suffix, id);
    stale := Cleared(outcome);
  }
}
