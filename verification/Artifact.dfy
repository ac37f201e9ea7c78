// artifact/artifact.go: content-addressed publication by temp file, digest and hard link.
module ArtifactCopy {
  import opened Basics
  import opened Io
  import Hex

  const COPY_BUFFER_SIZE := 1024 * 64
  const DIGEST_BYTES := 32

  // Where an artifact is stored: <root>/<prefix>/<name>.
  datatype StorePath = StorePath(root: string, prefix: string, name: string)

  // Store.Path.
  function PathOf(root: string, sha: string): Option<StorePath> {
    if |sha| != DIGEST_BYTES * 2 then None
    else if exists i :: 0 <= i < |sha| && !Hex.IsHex(sha[i]) then None
    else Some(StorePath(root, sha[..2], sha))
  }

  lemma PathOfExactly(root: string, sha: string)
    ensures PathOf(root, sha).Some? <==> |sha| == 64 && forall i :: 0 <= i < |sha| ==> Hex.IsHex(sha[i])
    ensures PathOf(root, sha).Some? ==> PathOf(root, sha).value == StorePath(root, [sha[0], sha[1]], sha)
  {
  }

  // Every digest the store computes has a path, and different digests have different paths.
  lemma PathOfDigest(root: string, a: seq<byte>, b: seq<byte>)
    requires |a| == |b| == DIGEST_BYTES
    ensures PathOf(root, Hex.Encode(a)).Some?
    ensures PathOf(root, Hex.Encode(a)) == PathOf(root, Hex.Encode(b)) ==> a == b
  {
    hide Hex.IsHex, Hex.Encode;
    if Hex.Encode(a) == Hex.Encode(b) {
      Hex.EncodeInjective(a, b);
    }
  }

  // A context, which ends at any moment and has then ended for good.
  class Context {
    var ended: bool

    constructor ()
      ensures !ended
    {
      ended := false;
    }

    method Err() returns (err: bool)
      modifies this
      ensures err == ended && (old(ended) ==> ended)
    {
      var ends: bool :| true;
      ended := ended || ends;
      err := ended;
    }
  }

  // An io.Writer: it may fail at any point, and reports an error whenever it writes less than it was given.
  class Writer {
    var data: seq<byte>
    ghost var failed: bool

    constructor ()
      ensures data == [] && !failed
    {
      data, failed := [], false;
    }

    method Write(chunk: seq<byte>) returns (n: nat, ok: bool)
      modifies this
      ensures n <= |chunk| && data == old(data) + chunk[..n]
      ensures n < |chunk| ==> !ok
      ensures failed == (old(failed) || !ok)
    {
      n :| n <= |chunk|;
      ok :| n < |chunk| ==> !ok;
      data, failed := data + chunk[..n], failed || !ok;
    }
  }

  datatype Copy = Copied(sha: string, size: nat) | Canceled | WriteFailed | ReadFailed

  // The bytes written, the bytes hashed and the bytes of the source are the same sequence, whatever the sizes of
  // the reads; a failed copy has written a prefix of the source and returns no digest.
  method CopyAndDigest(ctx: Context, dst: Writer, src: Reader, hash: seq<byte> -> seq<byte>)
    returns (copy: Copy, ghost written: nat)
    modifies ctx, dst, src
    ensures written <= |old(src.rest)| && dst.data == old(dst.data) + old(src.rest)[..written]
    ensures copy.Copied? ==>
            && written == |old(src.rest)| && src.end == EndOfFile
            && copy == Copied(Hex.Encode(hash(old(src.rest))), written)
    ensures copy == ReadFailed ==> written == |old(src.rest)| && src.end == Broken
    // It stops early only for a context that has ended or a write that failed.
    ensures copy == Canceled ==> ctx.ended
    ensures !old(dst.failed) ==> (copy == WriteFailed <==> dst.failed)
  {
    ghost var source, before := src.rest, dst.data;
    hide Hex.Encode, Copying;
    var hashed: seq<byte> := [];
    var size := 0;
    Starts(source, before);
    while true
      invariant Copying(source, before, dst.data, hashed, src.rest) && size == |hashed|
      invariant dst.failed == old(dst.failed)
      decreases |src.rest|, src.stalls
    {
      var canceled := ctx.Err();
      if canceled {
        Stops(source, before, dst.data, hashed, src.rest);
        return Canceled, size;
      }
      var chunk, readErr := src.Read(COPY_BUFFER_SIZE);
      if |chunk| > 0 {
        ghost var data := dst.data;
        var n, ok := dst.Write(chunk);
        Takes(source, before, data, hashed, chunk, n, src.rest);
        size := size + n;
        hashed := hashed + chunk[..n];
        if !ok {
          Stops(source, before, dst.data, hashed, chunk[n..] + src.rest);
          return WriteFailed, size;
        }
      } else {
        assert chunk + src.rest == src.rest;
      }
      if readErr.Some? {
        Stops(source, before, dst.data, hashed, []);
        return if readErr == Some(EndOfFile) then Copied(Hex.Encode(hash(hashed)), size) else ReadFailed, size;
      }
    }
  }

  // What has been copied is the front of the source, and is what has been written; the rest is still to come.
  ghost predicate Copying(source: seq<byte>, before: seq<byte>, data: seq<byte>, copied: seq<byte>, rest: seq<byte>) {
    source == copied + rest && data == before + copied
  }

  lemma Starts(source: seq<byte>, before: seq<byte>)
    ensures Copying(source, before, before, [], source)
  {
  }

  lemma Stops(source: seq<byte>, before: seq<byte>, data: seq<byte>, copied: seq<byte>, rest: seq<byte>)
    requires Copying(source, before, data, copied, rest)
    ensures |copied| <= |source| && data == before + source[..|copied|]
    ensures rest == [] ==> copied == source
  {
  }

  // Taking the first n bytes of a chunk off the front of what is left.
  lemma Takes(source: seq<byte>, before: seq<byte>, data: seq<byte>, copied: seq<byte>,
              chunk: seq<byte>, n: nat, rest: seq<byte>)
    requires Copying(source, before, data, copied, chunk + rest) && n <= |chunk|
    ensures Copying(source, before, data + chunk[..n], copied + chunk[..n], chunk[n..] + rest)
    ensures n == |chunk| ==> chunk[n..] + rest == rest
  {
    assert chunk == chunk[..n] + chunk[n..];
  }
}

// Any number of Put calls on one store, interleaved step by step. The store's directory is changed by Puts only.
module ArtifactStore {
  import opened Basics
  import opened Io
  import Runs

  type Tid = nat

  // A file: one that was there before, or the temp file of a Put.
  datatype Inode = Old(n: nat) | Temp(t: Tid)

  // How far validateStoredArtifact has got: not begun, looked at the path, opened the file, read and hashed it.
  datatype Look = NotYet | Seen(before: Inode) | Opened(file: Inode) | Matched(file: Inode)

  datatype Reason = IoError | Changed | Mismatch

  datatype Result = Published | AlreadyExisted | Failed(why: Reason)

  // Where a Put is: copying into its temp file, validating before the loop, about to link, validating after
  // the link found the name taken, returned.
  datatype Pc = Copying | Checking(look: Look) | Linking | Rechecking(look: Look) | Returned(result: Result)

  // `failed` is whether a system call failed or the context ended.
  datatype Put = Put(pc: Pc, sha: string, size: nat, links: nat, failed: bool)

  // `store` maps a digest to the file at its path; `initial` is what the store held before; `digest` stands
  // for SHA-256 in hexadecimal, about which nothing is assumed.
  datatype State = State(
    digest: seq<byte> -> string, initial: map<string, Inode>,
    store: map<string, Inode>, content: map<Inode, seq<byte>>, puts: map<Tid, Put>)

  ghost predicate Init(s: State) {
    && s.store == s.initial && s.puts == map[]
    && (forall d :: d in s.initial ==> s.initial[d].Old? && s.initial[d] in s.content)
    && (forall f :: f in s.content ==> f.Old?)
  }

  ghost function SetPc(s: State, t: Tid, pc: Pc): State
    requires t in s.puts
  {
    s.(puts := s.puts[t := s.puts[t].(pc := pc)])
  }

  ghost predicate Begin(s: State, s': State, t: Tid) {
    && t !in s.puts
    && s' == s.(content := s.content[Temp(t) := []], puts := s.puts[t := Put(Copying, "", 0, 0, false)])
  }

  ghost predicate Write(s: State, s': State, t: Tid, chunk: seq<byte>) {
    && t in s.puts && s.puts[t].pc.Copying? && Temp(t) in s.content
    && s' == s.(content := s.content[Temp(t) := s.content[Temp(t)] + chunk])
  }

  // The copy succeeded: by CopyAndDigest, digest and size are those of the bytes in the temp file.
  ghost predicate CopyDone(s: State, s': State, t: Tid) {
    && t in s.puts && s.puts[t].pc.Copying? && Temp(t) in s.content
    && var bytes := s.content[Temp(t)];
       s' == s.(puts := s.puts[t := Put(Checking(NotYet), s.digest(bytes), |bytes|, 0, false)])
  }

  // Any system call may fail, and the context may be cancelled, before the link succeeds.
  ghost predicate Fails(s: State, s': State, t: Tid) {
    && t in s.puts && !s.puts[t].pc.Returned?
    && s' == s.(puts := s.puts[t := s.puts[t].(pc := Returned(Failed(IoError)), failed := true)])
  }

  // One step of validateStoredArtifact: the program counter it leads to. A missing file ends the validation
  // and leads to the link.
  ghost function LookStep(s: State, sha: string, size: nat, look: Look, at: Look -> Pc): Pc
  {
    match look
    case NotYet => if sha in s.store then at(Seen(s.store[sha])) else Linking
    case Seen(before) =>
      if sha in s.store && s.store[sha] == before then at(Opened(before)) else Returned(Failed(Changed))
    case Opened(file) =>
      if file in s.content && s.digest(s.content[file]) == sha && |s.content[file]| == size then at(Matched(file))
      else Returned(Failed(Mismatch))
    case Matched(file) =>
      if sha in s.store && s.store[sha] == file then Returned(AlreadyExisted) else Returned(Failed(Changed))
  }

  ghost predicate Looks(s: State, s': State, t: Tid) {
    && t in s.puts && (s.puts[t].pc.Checking? || s.puts[t].pc.Rechecking?)
    && var p := s.puts[t];
       s' == SetPc(s, t, LookStep(s, p.sha, p.size, p.pc.look,
                                  if p.pc.Checking? then (l: Look) => Checking(l) else (l: Look) => Rechecking(l)))
  }

  // os.Link: atomic, and fails when the name is taken.
  ghost predicate Links(s: State, s': State, t: Tid) {
    && t in s.puts && s.puts[t].pc.Linking?
    && var p := s.puts[t].(links := s.puts[t].links + 1);
       if p.sha in s.store then s' == s.(puts := s.puts[t := p.(pc := Rechecking(NotYet))])
       else s' == s.(store := s.store[p.sha := Temp(t)], puts := s.puts[t := p.(pc := Returned(Published))])
  }

  ghost predicate Copies(s: State, s': State, t: Tid) {
    Begin(s, s', t) || (exists chunk :: Write(s, s', t, chunk)) || CopyDone(s, s', t)
  }

  ghost predicate Next(s: State, s': State) {
    exists t: Tid :: Copies(s, s', t) || Fails(s, s', t) || Looks(s, s', t) || Links(s, s', t)
  }

  /* ---------- The invariant ---------- */

  // The file at digest d's path.
  ghost predicate Holds(s: State, d: string, f: Inode) {
    d in s.store && s.store[d] == f && f in s.content
  }

  ghost predicate Good(s: State, f: Inode, sha: string, size: nat) {
    f in s.content && s.digest(s.content[f]) == sha && |s.content[f]| == size
  }

  ghost predicate LookInv(s: State, p: Put, look: Look) {
    match look
    case NotYet => true
    case Seen(before) => Holds(s, p.sha, before)
    case Opened(file) => Holds(s, p.sha, file)
    case Matched(file) => Holds(s, p.sha, file) && Good(s, file, p.sha, p.size)
  }

  ghost predicate PutInv(s: State, t: Tid)
    requires t in s.puts
  {
    var p := s.puts[t];
    && Temp(t) in s.content
    && (p.failed <==> p.pc == Returned(Failed(IoError)))
    && (!p.pc.Copying? && !p.failed ==> Good(s, Temp(t), p.sha, p.size))
    && match p.pc
       case Copying => p.links == 0
       case Checking(look) => LookInv(s, p, look) && p.links == 0
       case Linking => p.links == 0
       case Rechecking(look) => LookInv(s, p, look) && p.links == 1 && p.sha in s.store
       case Returned(Published) => p.sha !in s.initial && Holds(s, p.sha, Temp(t)) && p.links == 1
       case Returned(AlreadyExisted) => p.sha in s.store && Good(s, s.store[p.sha], p.sha, p.size) && p.links <= 1
       case Returned(Failed(Mismatch)) => p.sha in s.store && !Good(s, s.store[p.sha], p.sha, p.size) && p.links <= 1
       case Returned(Failed(Changed)) => false
       case Returned(Failed(IoError)) => p.links <= 1
  }

  ghost predicate EntryInv(s: State, d: string)
    requires d in s.store
  {
    && s.store[d] in s.content
    && if d in s.initial then s.store[d] == s.initial[d] && s.store[d].Old?
       else
         && s.store[d].Temp?
         && var t := s.store[d].t;
            t in s.puts && s.puts[t].pc == Returned(Published) && s.puts[t].sha == d
  }

  ghost predicate Inv(s: State) {
    && (forall d :: d in s.initial ==> d in s.store)
    && (forall d :: d in s.store ==> EntryInv(s, d))
    && (forall t :: t in s.puts ==> PutInv(s, t))
    && (forall t :: Temp(t) in s.content ==> t in s.puts)
  }

  // What a step of one Put may do: change that Put, its unpublished temp file, and add store entries.
  ghost predicate StepOf(s: State, s': State, t: Tid) {
    && s'.digest == s.digest && s'.initial == s.initial
    && t in s'.puts && s'.puts == s.puts[t := s'.puts[t]]
    && (t in s.puts ==> !s.puts[t].pc.Returned?)
    && (forall d :: d in s.store ==> d in s'.store && s'.store[d] == s.store[d])
    && (forall f :: f in s.content && f != Temp(t) ==> f in s'.content && s'.content[f] == s.content[f])
    && (forall f :: f in s'.content ==> f in s.content || f == Temp(t))
    && Temp(t) in s'.content
    && (t in s.puts && !s.puts[t].pc.Copying? ==> s'.content == s.content)
  }

  // So the entries there were, and the other Puts, keep their part of the invariant.
  lemma OthersKeep(s: State, s': State, t: Tid)
    requires Inv(s) && StepOf(s, s', t)
    ensures forall d :: d in s.store ==> EntryInv(s', d) && s.store[d] != Temp(t) && Holds(s', d, s.store[d])
    ensures forall d :: d in s.store ==> s'.content[s.store[d]] == s.content[s.store[d]]
    ensures forall u :: u in s'.puts && u != t ==> PutInv(s', u)
    ensures forall d :: d in s'.initial ==> d in s'.store
    ensures forall u :: Temp(u) in s'.content ==> u in s'.puts
  {
    forall d | d in s.store
      ensures EntryInv(s', d) && s.store[d] != Temp(t) && Holds(s', d, s.store[d])
      ensures s'.content[s.store[d]] == s.content[s.store[d]]
    {
      assert EntryInv(s, d);
    }
    forall u | u in s'.puts && u != t
      ensures PutInv(s', u)
    {
      assert PutInv(s, u);
    }
  }

  lemma CopyKeeps(s: State, s': State, t: Tid)
    requires Inv(s) && Copies(s, s', t)
    ensures StepOf(s, s', t) && Inv(s')
  {
    if t in s.puts {
      assert PutInv(s, t);
    }
    OthersKeep(s, s', t);
    assert PutInv(s', t);
  }

  lemma FailsKeeps(s: State, s': State, t: Tid)
    requires Inv(s) && Fails(s, s', t)
    ensures StepOf(s, s', t) && Inv(s')
  {
    assert PutInv(s, t);
    OthersKeep(s, s', t);
    assert PutInv(s', t);
  }

  // A validation step: a validation after a lost link never leads back to the link.
  lemma LookKeeps(s: State, t: Tid)
    requires Inv(s) && t in s.puts && (s.puts[t].pc.Checking? || s.puts[t].pc.Rechecking?)
    ensures var p := s.puts[t];
            var at := if p.pc.Checking? then (l: Look) => Checking(l) else (l: Look) => Rechecking(l);
            var pc := LookStep(s, p.sha, p.size, p.pc.look, at);
            PutInv(SetPc(s, t, pc), t) && (p.pc.Rechecking? ==> !pc.Linking?)
  {
    assert PutInv(s, t);
    if s.puts[t].sha in s.store {
      assert EntryInv(s, s.puts[t].sha);
    }
  }

  lemma LooksKeeps(s: State, s': State, t: Tid)
    requires Inv(s) && Looks(s, s', t)
    ensures StepOf(s, s', t) && Inv(s')
  {
    LookKeeps(s, t);
    hide LookStep;
    OthersKeep(s, s', t);
  }

  lemma LinksKeeps(s: State, s': State, t: Tid)
    requires Inv(s) && Links(s, s', t)
    ensures StepOf(s, s', t) && Inv(s')
  {
    assert PutInv(s, t);
    var sha := s.puts[t].sha;
    OthersKeep(s, s', t);
    assert PutInv(s', t);
    if sha !in s.store {
      assert EntryInv(s', sha);
    }
  }

  lemma NextKeeps(s: State, s': State)
    requires Inv(s) && Next(s, s')
    ensures Inv(s') && exists t :: StepOf(s, s', t)
  {
    hide Inv, StepOf, Copies, Fails, Looks, Links;
    var t: Tid :| Copies(s, s', t) || Fails(s, s', t) || Looks(s, s', t) || Links(s, s', t);
    if Looks(s, s', t) {
      LooksKeeps(s, s', t);
    } else if Fails(s, s', t) {
      FailsKeeps(s, s', t);
    } else if Links(s, s', t) {
      LinksKeeps(s, s', t);
    } else {
      CopyKeeps(s, s', t);
    }
  }

  lemma Inductive()
    ensures forall s :: Init(s) ==> Inv(s)
    ensures forall s, s' :: Inv(s) && Next(s, s') ==> Inv(s')
  {
    forall s, s' | Inv(s) && Next(s, s')
      ensures Inv(s')
    {
      NextKeeps(s, s');
    }
  }

  /* ---------- Main results, over every interleaving ---------- */

  // What is at a path stays there: neither the name nor the bytes behind it ever change.
  lemma NeverOverwritten(run: seq<State>, i: nat, j: nat, d: string, f: Inode, bytes: seq<byte>)
    requires Runs.IsRun(Init, Next, run) && i <= j < |run|
    requires Holds(run[i], d, f) && run[i].content[f] == bytes
    ensures Holds(run[j], d, f) && run[j].content[f] == bytes
  {
    Inductive();
    var kept := (u: State) => Holds(u, d, f) && u.content[f] == bytes;
    assert forall u, v :: Inv(u) && kept(u) && Next(u, v) ==> kept(v) by {
      forall u, v | Inv(u) && kept(u) && Next(u, v)
        ensures kept(v)
      {
        NextKeeps(u, v);
        var t :| StepOf(u, v, t);
        OthersKeep(u, v, t);
      }
    }
    hide Inv, Next;
    Runs.StableOverRun(Init, Next, Inv, kept, run, i, j);
  }

  // A path the store began without only ever holds bytes with that digest, and every Put that succeeded with that
  // digest reports their size.
  lemma PublishedRight(s: State, d: string)
    requires Runs.Reachable(Init, Next, s) && d in s.store && d !in s.initial
    ensures s.store[d] in s.content && s.digest(s.content[s.store[d]]) == d
    ensures forall t :: t in s.puts && Succeeded(s.puts[t]) && s.puts[t].sha == d ==>
                        s.puts[t].size == |s.content[s.store[d]]|
  {
    Inductive();
    Runs.InvariantReachable(Init, Next, Inv, s);
    assert EntryInv(s, d);
    assert PutInv(s, s.store[d].t);
    forall t | t in s.puts && Succeeded(s.puts[t]) && s.puts[t].sha == d
      ensures s.puts[t].size == |s.content[s.store[d]]|
    {
      assert PutInv(s, t);
    }
  }

  predicate Succeeded(p: Put) {
    p.pc == Returned(Published) || p.pc == Returned(AlreadyExisted)
  }

  // A Put fails only for a call that failed, a context that ended, or a stored file that is bad: one that met no
  // failure succeeds exactly when the file now at its path has the digest and the size.
  lemma PutAnswers(s: State, t: Tid)
    requires Runs.Reachable(Init, Next, s) && t in s.puts && s.puts[t].pc.Returned?
    ensures s.puts[t].failed <==> s.puts[t].pc == Returned(Failed(IoError))
    ensures !s.puts[t].failed ==>
            var sha := s.puts[t].sha;
            && sha in s.store
            && (Succeeded(s.puts[t]) <==> Good(s, s.store[sha], sha, s.puts[t].size))
            && (Succeeded(s.puts[t]) || s.puts[t].pc == Returned(Failed(Mismatch)))
  {
    Inductive();
    Runs.InvariantReachable(Init, Next, Inv, s);
    assert PutInv(s, t);
    hide Inv, Next, Init, Runs.Reachable;
  }

  // How many steps a Put has left once it has copied, at most.
  function Left(pc: Pc): nat {
    match pc
    case Copying => 12
    case Checking(look) => 6 + LooksLeft(look)
    case Linking => 6
    case Rechecking(look) => 1 + LooksLeft(look)
    case Returned(_) => 0
  }

  function LooksLeft(look: Look): nat {
    match look
    case NotYet => 4
    case Seen(_) => 3
    case Opened(_) => 2
    case Matched(_) => 1
  }

  // So every Put returns: the bound goes down with each step it takes after copying, whatever the others do ...
  lemma PutAdvances(s: State, s': State, t: Tid)
    requires Runs.Reachable(Init, Next, s) && t in s.puts
    requires Looks(s, s', t) || Links(s, s', t) || Fails(s, s', t)
    ensures t in s'.puts && Left(s'.puts[t].pc) < Left(s.puts[t].pc)
  {
    if Looks(s, s', t) {
      LinksOnce(s, t);
      LookAdvances(s, s', t);
    }
  }

  lemma LookAdvances(s: State, s': State, t: Tid)
    requires Looks(s, s', t) && (s.puts[t].pc.Rechecking? ==> s.puts[t].sha in s.store)
    ensures t in s'.puts && Left(s'.puts[t].pc) < Left(s.puts[t].pc)
  {
  }

  // ... and until it returns there is such a step that is no failure.
  lemma PutProceeds(s: State, t: Tid)
    requires t in s.puts && !s.puts[t].pc.Returned? && !s.puts[t].pc.Copying?
    ensures (exists s' :: Looks(s, s', t)) || (exists s' :: Links(s, s', t))
  {
    var p := s.puts[t];
    if p.pc.Linking? {
      var q := p.(links := p.links + 1);
      var s' := if p.sha in s.store then s.(puts := s.puts[t := q.(pc := Rechecking(NotYet))])
                else s.(store := s.store[p.sha := Temp(t)], puts := s.puts[t := q.(pc := Returned(Published))]);
      assert Links(s, s', t);
    } else {
      hide LookStep;
      var at := if p.pc.Checking? then (l: Look) => Checking(l) else (l: Look) => Rechecking(l);
      var s' := SetPc(s, t, LookStep(s, p.sha, p.size, p.pc.look, at));
      assert Looks(s, s', t);
    }
  }

  // What a caller may rely on, whatever the store began with: after a Put that succeeded, its path holds bytes with
  // the digest and the size it reports.
  lemma SucceededHolds(s: State, t: Tid)
    requires Runs.Reachable(Init, Next, s) && t in s.puts && Succeeded(s.puts[t])
    ensures s.puts[t].sha in s.store && Good(s, s.store[s.puts[t].sha], s.puts[t].sha, s.puts[t].size)
  {
    Inductive();
    Runs.InvariantReachable(Init, Next, Inv, s);
    assert PutInv(s, t);
  }

  // If any Put of a digest the store began without succeeds, exactly one Put published it, and that one
  // alone does not report that it already existed.
  lemma OnePublisher(s: State, t: Tid) returns (publisher: Tid)
    requires Runs.Reachable(Init, Next, s)
    requires t in s.puts && Succeeded(s.puts[t]) && s.puts[t].sha !in s.initial
    ensures publisher in s.puts && s.puts[publisher].pc == Returned(Published)
    ensures s.puts[publisher].sha == s.puts[t].sha
    ensures s.puts[t].sha in s.store && s.store[s.puts[t].sha] == Temp(publisher)
    ensures forall u :: u in s.puts && Succeeded(s.puts[u]) && s.puts[u].sha == s.puts[t].sha ==>
                        (u == publisher <==> s.puts[u].pc != Returned(AlreadyExisted))
  {
    Inductive();
    Runs.InvariantReachable(Init, Next, Inv, s);
    assert PutInv(s, t);
    var d := s.puts[t].sha;
    assert EntryInv(s, d);
    publisher := s.store[d].t;
    forall u | u in s.puts && Succeeded(s.puts[u]) && s.puts[u].sha == d
      ensures u == publisher <==> s.puts[u].pc != Returned(AlreadyExisted)
    {
      assert PutInv(s, u);
    }
  }

  // The publish loop goes round at most once: every Put tries the link at most once, and a validation after a
  // lost link never finds the path empty.
  lemma LinksOnce(s: State, t: Tid)
    requires Runs.Reachable(Init, Next, s) && t in s.puts
    ensures s.puts[t].links <= 1
    ensures s.puts[t].pc.Rechecking? ==> s.puts[t].sha in s.store
  {
    Inductive();
    Runs.InvariantReachable(Init, Next, Inv, s);
    assert PutInv(s, t);
  }

  // A Put never sees the stored file change while it validates it, and finds a mismatch only when the store began
  // with a bad file or two byte sequences of different lengths share a digest.
  lemma NoFalseAlarm(s: State, t: Tid)
    requires Runs.Reachable(Init, Next, s) && t in s.puts
    ensures s.puts[t].pc != Returned(Failed(Changed))
    ensures s.puts[t].pc == Returned(Failed(Mismatch)) ==>
            s.puts[t].sha in s.initial || exists a, b :: s.digest(a) == s.digest(b) == s.puts[t].sha && |a| != |b|
  {
    Inductive();
    Runs.InvariantReachable(Init, Next, Inv, s);
    assert PutInv(s, t);
    var p := s.puts[t];
    if p.pc == Returned(Failed(Mismatch)) && p.sha !in s.initial {
      PublishedRight(s, p.sha);
      var a, b := s.content[Temp(t)], s.content[s.store[p.sha]];
      assert s.digest(a) == s.digest(b) == p.sha && |a| != |b|;
    }
  }
}
