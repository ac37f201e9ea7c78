// strictjson/strictjson.go: the iterative duplicate-name validator, against the language of JSON trees.
module StrictJson {
  import opened Basics
  import opened JsonTree

  datatype Error = InvalidJSON | DuplicateName

  datatype Frame = Frame(delimiter: char, seen: set<string>, wantKey: bool)

  // The loop's variables.
  datatype State = State(frames: seq<Frame>, rootComplete: bool)

  datatype Outcome = Running(st: State) | Rejected(err: Error)

  const START := State([], false)

  predicate DelimitersMatch(open: char, close: char) {
    (open == '{' && close == '}') || (open == '[' && close == ']')
  }

  function Pop(st: State): State
    requires |st.frames| > 0
  {
    State(DropLast(st.frames), st.rootComplete || |st.frames| == 1)
  }

  function MarkKeyWanted(frames: seq<Frame>): seq<Frame> {
    if |frames| > 0 && Last(frames).delimiter == '{'
    then DropLast(frames) + [Last(frames).(wantKey := true)]
    else frames
  }

  // A token where the innermost object wants a key.
  function ConsumeKey(st: State, tok: Token): Outcome
    requires |st.frames| > 0
  {
    var frames := st.frames;
    if tok == Delim('}') then Running(Pop(st))
    else if !(tok.Value? && tok.v.Str?) then Rejected(InvalidJSON)
    else if tok.v.s in Last(frames).seen then Rejected(DuplicateName)
    else Running(State(DropLast(frames) + [Frame('{', Last(frames).seen + {tok.v.s}, false)], st.rootComplete))
  }

  // A token anywhere else.
  function ConsumeValue(st: State, tok: Token): Outcome {
    if tok.Delim? && (tok.c == '}' || tok.c == ']') then
      if |st.frames| == 0 || !DelimitersMatch(Last(st.frames).delimiter, tok.c) then Rejected(InvalidJSON)
      else Running(Pop(st))
    else
      var marked := MarkKeyWanted(st.frames);
      if tok.Value? then Running(State(marked, st.rootComplete || |marked| == 0))
      else if |marked| == MAX_DEPTH then Rejected(InvalidJSON)
      else if tok.c == '{' then Running(State(marked + [Frame('{', {}, true)], st.rootComplete))
      else if tok.c == '[' then Running(State(marked + [Frame('[', {}, false)], st.rootComplete))
      else Rejected(InvalidJSON)
  }

  predicate WantsKey(frames: seq<Frame>) {
    |frames| > 0 && Last(frames).delimiter == '{' && Last(frames).wantKey
  }

  // What one token does to the loop's variables.
  function Consume(st: State, tok: Token): Outcome {
    if st.rootComplete && |st.frames| == 0 then Rejected(InvalidJSON)
    else if WantsKey(st.frames) then ConsumeKey(st, tok)
    else ConsumeValue(st, tok)
  }

  function Run(tokens: seq<Token>): Outcome {
    if |tokens| == 0 then Running(START)
    else match Run(DropLast(tokens))
      case Rejected(e) => Rejected(e)
      case Running(st) => Consume(st, Last(tokens))
  }

  // The loop's answer on a stream that ends in EOF (clean) or in a token error.
  function Verdict(tokens: seq<Token>, clean: bool): Option<Error> {
    match Run(tokens)
    case Rejected(e) => Some(e)
    case Running(st) => if clean && st.rootComplete && |st.frames| == 0 then None else Some(InvalidJSON)
  }

  /* ---------- The loop's variables mirror the partial tree built so far ---------- */

  // A frame below the top already has its key marked as wanted; its `seen` set holds every name read so far.
  ghost function AbsFrame(p: Partial, top: bool): Frame {
    match p
    case OpenArray(_) => Frame('[', {}, false)
    case OpenObject(members, None) => Frame('{', Names(members), true)
    case OpenObject(members, Some(k)) => Frame('{', Names(members) + {k}, !top)
  }

  ghost function AbsFrames(path: seq<Partial>): seq<Frame> {
    seq(|path|, i requires 0 <= i < |path| => AbsFrame(path[i], i == |path| - 1))
  }

  ghost function Abs(g: Progress): State {
    match g
    case Building(path) => State(AbsFrames(path), false)
    case Complete(_) => State([], true)
  }

  ghost predicate PartialFits(p: Partial, room: int) {
    match p
    case OpenArray(items) => ItemsUnique(items) && ItemsDepth(items) <= room
    case OpenObject(members, key) =>
      MembersUnique(members) && MembersDepth(members) <= room && (key.Some? ==> key.value !in Names(members))
  }

  // No repeated name and no excess depth so far.
  ghost predicate Fits(g: Progress) {
    match g
    case Building(path) =>
      |path| <= MAX_DEPTH && forall i :: 0 <= i < |path| ==> PartialFits(path[i], MAX_DEPTH - 1 - i)
    case Complete(root) => UniqueNames(root) && Depth(root) <= MAX_DEPTH
  }

  lemma NamesGrow(members: seq<Member>, m: Member)
    ensures Names(members + [m]) == Names(members) + {m.name}
  {
    var more := members + [m];
    assert more[|members|] == m;
    forall n | n in Names(members)
      ensures n in Names(more)
    {
      var i :| 0 <= i < |members| && members[i].name == n;
      assert more[i].name == n;
    }
  }

  lemma PartialFitsGrows(p: Partial, v: Tree, room: int)
    requires p.OpenObject? ==> p.key.Some?
    ensures PartialFits(if p.OpenArray? then OpenArray(p.items + [v])
                        else OpenObject(p.members + [Member(p.key.value, v)], None), room)
      <==> PartialFits(p, room) && UniqueNames(v) && Depth(v) <= room
  {
    match p
    case OpenArray(items) =>
      assert DropLast(items + [v]) == items;
    case OpenObject(members, key) =>
      assert DropLast(members + [Member(key.value, v)]) == members;
  }

  lemma FitsOuter(path: seq<Partial>)
    requires |path| > 0
    ensures Fits(Building(path)) <==>
            Fits(Building(DropLast(path))) && |path| <= MAX_DEPTH && PartialFits(Last(path), MAX_DEPTH - |path|)
  {
    var outer := DropLast(path);
    assert forall i :: 0 <= i < |outer| ==> outer[i] == path[i];
    if Fits(Building(path)) {
      assert forall i :: 0 <= i < |outer| ==> PartialFits(path[i], MAX_DEPTH - 1 - i);
    }
  }

  // Absorbing a value keeps the bounds exactly when the value itself keeps them, and leaves the
  // frames as the loop leaves them: the parent's key marked as wanted.
  lemma AbsorbFits(path: seq<Partial>, v: Tree)
    requires ExpectsValue(path)
    ensures Fits(Absorb(path, v)) <==> Fits(Building(path)) && UniqueNames(v) && Depth(v) <= MAX_DEPTH - |path|
  {
    if |path| > 0 {
      var after := Absorb(path, v).path;
      assert DropLast(after) == DropLast(path);
      PartialFitsGrows(Last(path), v, MAX_DEPTH - |path|);
      FitsOuter(path);
      FitsOuter(after);
    }
  }

  lemma AbsorbMirrors(path: seq<Partial>, v: Tree)
    requires Shaped(path) && ExpectsValue(path)
    ensures Fits(Absorb(path, v)) <==> Fits(Building(path)) && UniqueNames(v) && Depth(v) <= MAX_DEPTH - |path|
    ensures Abs(Absorb(path, v)) == State(MarkKeyWanted(AbsFrames(path)), |path| == 0)
  {
    AbsorbFits(path, v);
    if |path| > 0 {
      var n, p := |path| - 1, Last(path);
      var after := Absorb(path, v).path;
      assert forall i :: 0 <= i < n ==> after[i] == path[i];
      if p.OpenObject? {
        NamesGrow(p.members, Member(p.key.value, v));
      }
      assert AbsFrame(after[n], true) == Last(MarkKeyWanted(AbsFrames(path)));
      assert AbsFrames(after) == MarkKeyWanted(AbsFrames(path));
    }
  }

  lemma OuterFrames(path: seq<Partial>)
    requires Shaped(path) && |path| > 0
    ensures ExpectsValue(DropLast(path))
    ensures MarkKeyWanted(AbsFrames(DropLast(path))) == DropLast(AbsFrames(path))
  {
    var outer := DropLast(path);
    if |outer| > 0 {
      assert Last(outer) == path[|path| - 2];
    }
  }

  // One step of the loop: it goes on exactly when the token extends the partial tree within the
  // bounds, mirroring the extended tree, and otherwise says which bound the token broke.
  ghost predicate StepMirrors(g: Progress, tok: Token)
    requires ShapedProgress(g)
  {
    var next := Advance(g, tok);
    Consume(Abs(g), tok) ==
    if next.None? then Rejected(InvalidJSON)
    else if Fits(next.value) then Running(Abs(next.value))
    else Rejected(if KeyRepeats(g, tok) then DuplicateName else InvalidJSON)
  }

  // The next token is a name the innermost open object already has.
  ghost predicate KeyRepeats(g: Progress, tok: Token) {
    && g.Building? && |g.path| > 0 && Last(g.path).OpenObject? && Last(g.path).key.None?
    && tok.Value? && tok.v.Str? && tok.v.s in Names(Last(g.path).members)
  }

  // The tree that closing a container makes of it.
  ghost function Closed(p: Partial): Tree {
    match p
    case OpenArray(items) => Array(items)
    case OpenObject(members, key) => Object(members, key)
  }

  lemma ClosedFits(p: Partial, room: int)
    ensures PartialFits(p, room) <==> UniqueNames(Closed(p)) && Depth(Closed(p)) <= room + 1
  {
  }

  lemma CloseMirrors(path: seq<Partial>)
    requires Shaped(path) && |path| > 0 && Fits(Building(path))
    ensures ExpectsValue(DropLast(path))
    ensures Fits(Absorb(DropLast(path), Closed(Last(path))))
    ensures Abs(Absorb(DropLast(path), Closed(Last(path)))) == Pop(Abs(Building(path)))
  {
    hide PartialFits, Closed, Absorb;
    OuterFrames(path);
    FitsOuter(path);
    ClosedFits(Last(path), MAX_DEPTH - |path|);
    AbsorbMirrors(DropLast(path), Closed(Last(path)));
  }

  lemma PushMirrors(path: seq<Partial>, p: Partial)
    requires Shaped(path) && ExpectsValue(path) && Fits(Building(path))
    requires p == OpenArray([]) || p == OpenObject([], None)
    ensures |path| <= MAX_DEPTH
    ensures Fits(Building(path + [p])) <==> |path| < MAX_DEPTH
    ensures AbsFrames(path + [p]) ==
            MarkKeyWanted(AbsFrames(path)) + [Frame(if p.OpenArray? then '[' else '{', {}, p.OpenObject?)]
  {
    assert DropLast(path + [p]) == path;
    FitsOuter(path + [p]);
    EmptyFits(p, MAX_DEPTH - 1 - |path|);
    hide Fits, PartialFits;
    OuterFrames(path + [p]);
  }

  lemma EmptyFits(p: Partial, room: int)
    requires p == OpenArray([]) || p == OpenObject([], None)
    ensures PartialFits(p, room) <==> room >= 0
    ensures AbsFrame(p, true) == Frame(if p.OpenArray? then '[' else '{', {}, p.OpenObject?)
  {
    assert Names([]) == {};
  }

  lemma KeyStepMirrors(path: seq<Partial>, tok: Token)
    requires Shaped(path) && |path| > 0 && Last(path).OpenObject? && Last(path).key.None?
    requires Fits(Building(path))
    ensures StepMirrors(Building(path), tok)
  {
    hide Absorb;
    var members, outer := Last(path).members, DropLast(path);
    FitsOuter(path);
    if tok == Delim('}') {
      CloseMirrors(path);
    } else if tok.Value? && tok.v.Str? {
      var next := outer + [OpenObject(members, Some(tok.v.s))];
      assert DropLast(next) == outer;
      FitsOuter(next);
      if tok.v.s !in Names(members) {
        assert AbsFrames(next) ==
               DropLast(AbsFrames(path)) + [Frame('{', Last(AbsFrames(path)).seen + {tok.v.s}, false)];
      }
    }
  }

  lemma ValueStepMirrors(path: seq<Partial>, tok: Token)
    requires Shaped(path) && ExpectsValue(path) && Fits(Building(path))
    ensures StepMirrors(Building(path), tok)
  {
    hide Absorb, PartialFits, Fits;
    if tok.Value? {
      LeafFits(path, tok.v);
      AbsorbMirrors(path, Leaf(tok.v));
    } else if tok.c == '{' {
      PushMirrors(path, OpenObject([], None));
    } else if tok.c == '[' {
      PushMirrors(path, OpenArray([]));
    } else if (tok.c == ']' || tok.c == '}') && |path| > 0 {
      CloseMirrors(path);
    }
  }

  lemma LeafFits(path: seq<Partial>, v: Prim)
    requires Fits(Building(path))
    ensures UniqueNames(Leaf(v)) && Depth(Leaf(v)) <= MAX_DEPTH - |path|
  {
  }

  lemma StepMirrorsAlways(g: Progress, tok: Token)
    requires ShapedProgress(g) && Fits(g)
    ensures StepMirrors(g, tok)
  {
    match g
    case Complete(_) =>
    case Building(path) =>
      if |path| > 0 && Last(path).OpenObject? && Last(path).key.None? {
        KeyStepMirrors(path, tok);
      } else {
        ValueStepMirrors(path, tok);
      }
  }

  // A container that closes within the bounds was within them while open.
  lemma CloseFitsBackwards(path: seq<Partial>)
    requires Shaped(path) && |path| > 0 && ExpectsValue(DropLast(path))
    requires Fits(Absorb(DropLast(path), Closed(Last(path))))
    ensures Fits(Building(path))
  {
    hide Absorb, PartialFits, Closed;
    FitsOuter(path);
    ClosedFits(Last(path), MAX_DEPTH - |path|);
    ContainerDeep(Last(path));
    AbsorbFits(DropLast(path), Closed(Last(path)));
  }

  lemma KeyFitsBackwards(path: seq<Partial>, k: string)
    requires |path| > 0 && Last(path).OpenObject? && Last(path).key.None?
    requires Fits(Building(DropLast(path) + [OpenObject(Last(path).members, Some(k))]))
    ensures Fits(Building(path))
  {
    hide Fits, PartialFits;
    var next := DropLast(path) + [OpenObject(Last(path).members, Some(k))];
    assert DropLast(next) == DropLast(path);
    FitsOuter(path);
    FitsOuter(next);
    KeyFits(Last(path).members, k, MAX_DEPTH - |path|);
  }

  // The bounds are only ever lost: if the extended tree keeps them, so did the tree it extends.
  lemma FitsBackwards(g: Progress, tok: Token)
    requires ShapedProgress(g) && Advance(g, tok).Some? && Fits(Advance(g, tok).value)
    ensures Fits(g)
  {
    hide Absorb, PartialFits, Fits;
    var path := g.path;
    if |path| > 0 && tok.Delim? && tok.c in {'}', ']'} {
      OuterFrames(path);
      CloseFitsBackwards(path);
    } else if |path| > 0 && Last(path).OpenObject? && Last(path).key.None? {
      KeyFitsBackwards(path, tok.v.s);
    } else if tok.Value? {
      AbsorbFits(path, Leaf(tok.v));
    } else {
      var next := Advance(g, tok).value;
      assert DropLast(next.path) == path;
      FitsOuter(next.path);
    }
  }

  lemma ContainerDeep(p: Partial)
    ensures Depth(Closed(p)) >= 1
  {
  }

  lemma KeyFits(members: seq<Member>, k: string, room: int)
    requires PartialFits(OpenObject(members, Some(k)), room)
    ensures PartialFits(OpenObject(members, None), room)
  {
  }

  ghost function Parsed(tokens: seq<Token>): Option<Progress> {
    Parse(Building([]), tokens)
  }

  // The loop survives a token stream exactly when the stream builds a partial tree within the
  // bounds, and its variables then mirror that tree.
  lemma {:induction false} RunMirrors(tokens: seq<Token>)
    ensures Run(tokens).Running? <==> Parsed(tokens).Some? && Fits(Parsed(tokens).value)
    ensures Run(tokens).Running? ==> Run(tokens).st == Abs(Parsed(tokens).value)
    decreases |tokens|
  {
    if |tokens| == 0 {
      assert AbsFrames([]) == [];
    } else {
      RunMirrors(DropLast(tokens));
      var before := Parsed(DropLast(tokens));
      if before.Some? && Fits(before.value) {
        StepMirrorsAlways(before.value, Last(tokens));
      } else if Parsed(tokens).Some? && Fits(Parsed(tokens).value) {
        FitsBackwards(before.value, Last(tokens));
      }
    }
  }

  // The stream of a tree is the stream that builds it.
  lemma TextParsed(tokens: seq<Token>, t: Tree)
    ensures Flatten(t) == tokens <==> Parsed(tokens) == Some(Complete(t))
  {
    hide Flatten;
    if Flatten(t) == tokens {
      ParseTree([], t);
    }
    if Parsed(tokens).Some? {
      ParseFlattens(tokens);
    }
  }

  // The exact language of the loop, with no assumption on the decoder: the flattenings of trees, dangling
  // keys allowed, with unique names and bounded depth.
  lemma LoopLanguage(tokens: seq<Token>)
    ensures Verdict(tokens, true).None? <==>
            exists t :: UniqueNames(t) && Depth(t) <= MAX_DEPTH && Flatten(t) == tokens
  {
    RunMirrors(tokens);
    hide Run, Parsed, Flatten, UniqueNames, Depth;
    forall t
      ensures Flatten(t) == tokens <==> Parsed(tokens) == Some(Complete(t))
    {
      TextParsed(tokens, t);
    }
    if Verdict(tokens, true).None? {
      var root := Parsed(tokens).value.root;
      assert UniqueNames(root) && Depth(root) <= MAX_DEPTH && Flatten(root) == tokens;
    }
  }

  /* ---------- Dangling keys: what the decoder rules out ---------- */

  ghost predicate KeyPending(g: Progress) {
    g.Building? && |g.path| > 0 && Last(g.path).OpenObject? && Last(g.path).key.Some?
  }

  ghost predicate ProperPartial(p: Partial) {
    match p
    case OpenArray(items) => ItemsProper(items)
    case OpenObject(members, _) => MembersProper(members)
  }

  ghost predicate ProperProgress(g: Progress) {
    match g
    case Building(path) => forall i :: 0 <= i < |path| ==> ProperPartial(path[i])
    case Complete(root) => Proper(root)
  }

  lemma ProperOuter(path: seq<Partial>)
    requires |path| > 0
    ensures ProperProgress(Building(path)) <==>
            ProperProgress(Building(DropLast(path))) && ProperPartial(Last(path))
  {
    var outer := DropLast(path);
    assert forall i :: 0 <= i < |outer| ==> outer[i] == path[i];
    if ProperProgress(Building(path)) {
      assert forall i :: 0 <= i < |outer| ==> ProperPartial(path[i]);
    }
  }

  lemma AbsorbProper(path: seq<Partial>, v: Tree)
    requires ExpectsValue(path)
    ensures ProperProgress(Absorb(path, v)) <==> ProperProgress(Building(path)) && Proper(v)
  {
    if |path| > 0 {
      var outer := DropLast(path);
      var after := Absorb(path, v).path;
      assert DropLast(after) == outer;
      ProperOuter(path);
      ProperOuter(after);
      match Last(path)
      case OpenArray(items) =>
        assert DropLast(items + [v]) == items;
      case OpenObject(members, key) =>
        assert DropLast(members + [Member(key.value, v)]) == members;
    }
  }

  // A step brings in a dangling key exactly when it closes an object that is waiting for a value.
  lemma AdvanceProper(g: Progress, tok: Token)
    requires ShapedProgress(g) && Advance(g, tok).Some?
    ensures ProperProgress(Advance(g, tok).value) <==>
            ProperProgress(g) && !(tok == Delim('}') && KeyPending(g))
  {
    hide Absorb;
    var path := g.path;
    var next := Advance(g, tok).value;
    if |path| > 0 {
      ProperOuter(path);
    }
    if |path| > 0 && Last(path).OpenObject? && Last(path).key.None? {
      if tok == Delim('}') {
        AbsorbProper(DropLast(path), Object(Last(path).members, None));
      } else {
        assert DropLast(next.path) == DropLast(path);
        ProperOuter(next.path);
      }
    } else if tok.Value? {
      AbsorbProper(path, Leaf(tok.v));
    } else if tok.c == '{' || tok.c == '[' {
      assert DropLast(next.path) == path;
      ProperOuter(next.path);
    } else if Last(path).OpenArray? {
      AbsorbProper(DropLast(path), Array(Last(path).items));
    } else {
      AbsorbProper(DropLast(path), Object(Last(path).members, Last(path).key));
    }
  }

  lemma EndsInKeyParsed(tokens: seq<Token>)
    ensures EndsInKey(tokens) <==> Parsed(tokens).Some? && KeyPending(Parsed(tokens).value)
  {
    forall path | Shaped(path) && |path| > 0 && FlattenPath(path) == tokens
      ensures Parsed(tokens) == Some(Building(path))
    {
      ParsePath(path);
    }
    if Parsed(tokens).Some? {
      ParseFlattens(tokens);
    }
  }

  lemma NoDanglingCloseStep(tokens: seq<Token>)
    requires |tokens| > 0
    ensures NoDanglingClose(tokens) <==>
            NoDanglingClose(DropLast(tokens)) && !(Last(tokens) == Delim('}') && EndsInKey(DropLast(tokens)))
  {
    hide EndsInKey;
    var before, n := DropLast(tokens), |tokens| - 1;
    assert before == tokens[..n];
    if NoDanglingClose(before) && !(Last(tokens) == Delim('}') && EndsInKey(before)) {
      forall i | 0 <= i < |tokens| && tokens[i] == Delim('}')
        ensures !EndsInKey(tokens[..i])
      {
        if i < n {
          assert before[..i] == tokens[..i];
        }
      }
    }
    if NoDanglingClose(tokens) {
      forall i | 0 <= i < n && before[i] == Delim('}')
        ensures !EndsInKey(before[..i])
      {
        assert before[..i] == tokens[..i];
      }
    }
  }

  lemma {:induction false} ProperParsed(tokens: seq<Token>)
    requires Parsed(tokens).Some?
    ensures NoDanglingClose(tokens) <==> ProperProgress(Parsed(tokens).value)
    decreases |tokens|
  {
    if |tokens| > 0 {
      var before := DropLast(tokens);
      ProperParsed(before);
      AdvanceProper(Parsed(before).value, Last(tokens));
      EndsInKeyParsed(before);
      NoDanglingCloseStep(tokens);
    }
  }

  // Every JSON text meets the decoder's guarantee, so the guarantee excludes no valid input.
  lemma JsonTextParsed(tokens: seq<Token>)
    ensures JsonText(tokens) <==>
            && Parsed(tokens).Some? && Parsed(tokens).value.Complete?
            && Fits(Parsed(tokens).value) && ProperProgress(Parsed(tokens).value)
    ensures JsonText(tokens) ==> NoDanglingClose(tokens)
  {
    hide Parsed, Flatten, UniqueNames, Depth, Proper;
    forall t
      ensures Flatten(t) == tokens <==> Parsed(tokens) == Some(Complete(t))
    {
      TextParsed(tokens, t);
    }
    if Parsed(tokens).Some? {
      ProperParsed(tokens);
    }
  }

  /* ---------- Main results ---------- */

  // On every stream json.Decoder can produce, the validator accepts exactly the JSON texts with unique names
  // and nesting at most MAX_DEPTH.
  lemma ValidatesJson(tokens: seq<Token>, clean: bool)
    requires NoDanglingClose(tokens)
    ensures Verdict(tokens, clean).None? <==> clean && JsonText(tokens)
  {
    RunMirrors(tokens);
    JsonTextParsed(tokens);
    if Parsed(tokens).Some? {
      ProperParsed(tokens);
    }
  }

  // The stream of one value that keeps the bounds but has, somewhere, an object that ends in a key.
  ghost predicate DanglingText(tokens: seq<Token>) {
    exists t :: UniqueNames(t) && Depth(t) <= MAX_DEPTH && !Proper(t) && Flatten(t) == tokens
  }

  lemma DanglingTextParsed(tokens: seq<Token>)
    ensures DanglingText(tokens) <==>
            && Parsed(tokens).Some? && Parsed(tokens).value.Complete?
            && Fits(Parsed(tokens).value) && !ProperProgress(Parsed(tokens).value)
  {
    hide Parsed, Flatten, UniqueNames, Depth, Proper;
    forall t
      ensures Flatten(t) == tokens <==> Parsed(tokens) == Some(Complete(t))
    {
      TextParsed(tokens, t);
    }
  }

  // Without the decoder's guarantee the loop is right exactly on the streams that are no such text.
  lemma ExactlyWhenRight(tokens: seq<Token>)
    ensures (Verdict(tokens, true).None? <==> JsonText(tokens)) <==> !DanglingText(tokens)
    ensures DanglingText(tokens) ==> !NoDanglingClose(tokens)
  {
    RunMirrors(tokens);
    JsonTextParsed(tokens);
    DanglingTextParsed(tokens);
    if Parsed(tokens).Some? {
      ProperParsed(tokens);
    }
  }

  // ... and there are streams on which it is wrong: {"k"} is accepted.
  lemma DanglingKeyAccepted(k: string)
    ensures var tokens := [Delim('{'), Value(Str(k)), Delim('}')];
            Verdict(tokens, true).None? && !JsonText(tokens) && DanglingText(tokens) && !NoDanglingClose(tokens)
  {
    assert Flatten(Object([], Some(k))) == [Delim('{'), Value(Str(k)), Delim('}')] by {
      assert FlattenMembers([]) == [];
    }
    hide Verdict, JsonText, DanglingText, NoDanglingClose, Flatten;
    DanglingObjectAccepted([], k);
  }

  lemma DanglingObjectAccepted(members: seq<Member>, k: string)
    requires MembersUnique(members) && MembersDepth(members) < MAX_DEPTH && k !in Names(members)
    ensures var tokens := Flatten(Object(members, Some(k)));
            Verdict(tokens, true).None? && !JsonText(tokens) && DanglingText(tokens) && !NoDanglingClose(tokens)
  {
    hide Verdict, NoDanglingClose;
    var t := Object(members, Some(k));
    var tokens := Flatten(t);
    assert UniqueNames(t) && Depth(t) == 1 + MembersDepth(members);
    LoopLanguage(tokens);
    forall u | Flatten(u) == tokens
      ensures !Proper(u)
    {
      FlattenInjective(t, u);
    }
    ExactlyWhenRight(tokens);
  }

  ghost function Weight(g: Progress): nat {
    if g.Complete? then 0 else 1 + |g.path|
  }

  // Whatever is open can be closed: every partial tree within the bounds is a prefix of a JSON text.
  lemma {:induction false} Completable(g: Progress) returns (rest: seq<Token>)
    requires ShapedProgress(g) && Fits(g) && ProperProgress(g)
    ensures JsonText(FlattenProgress(g) + rest)
    decreases Weight(g), KeyPending(g)
  {
    if g.Complete? {
      rest := [];
      assert FlattenProgress(g) + [] == Flatten(g.root);
    } else {
      hide ShapedProgress, Fits, ProperProgress, FlattenProgress, Weight, KeyPending, JsonText;
      var tok, next := CompletionStep(g);
      rest := Completable(next);
      Reassociate(FlattenProgress(g), tok, rest);
      rest := [tok] + rest;
    }
  }

  lemma Reassociate(before: seq<Token>, tok: Token, rest: seq<Token>)
    ensures (before + [tok]) + rest == before + ([tok] + rest)
  {
  }

  lemma CompletionStep(g: Progress) returns (tok: Token, next: Progress)
    requires ShapedProgress(g) && Fits(g) && ProperProgress(g) && g.Building?
    ensures ShapedProgress(next) && Fits(next) && ProperProgress(next)
    ensures FlattenProgress(next) == FlattenProgress(g) + [tok]
    ensures Weight(next) < Weight(g) || (Weight(next) == Weight(g) && KeyPending(g) && !KeyPending(next))
  {
    if |g.path| == 0 || KeyPending(g) {
      tok := Value(Null);
      next := NullCompletes(g.path);
    } else {
      tok, next := ClosingCompletes(g.path);
    }
    hide Advance, ShapedProgress, ProperProgress, FlattenProgress, Fits, Weight, KeyPending;
    AdvanceShaped(g, tok);
    AdvanceFlattens(g, tok);
    AdvanceProper(g, tok);
  }

  // A value that is due can be null.
  lemma NullCompletes(path: seq<Partial>) returns (next: Progress)
    requires Shaped(path) && Fits(Building(path)) && (|path| == 0 || KeyPending(Building(path)))
    ensures Advance(Building(path), Value(Null)) == Some(next) && Fits(next)
    ensures var w := Weight(Building(path)); Weight(next) < w || (Weight(next) == w && !KeyPending(next))
  {
    hide Fits;
    next := Absorb(path, Leaf(Null));
    LeafFits(path, Null);
    AbsorbFits(path, Leaf(Null));
  }

  // A container with no value due can be closed.
  lemma ClosingCompletes(path: seq<Partial>) returns (tok: Token, next: Progress)
    requires Shaped(path) && Fits(Building(path)) && |path| > 0 && !KeyPending(Building(path))
    ensures Advance(Building(path), tok) == Some(next) && Fits(next) && Weight(next) < Weight(Building(path))
    ensures tok == Delim('}') ==> !KeyPending(Building(path))
  {
    hide Fits;
    tok := if Last(path).OpenArray? then Delim(']') else Delim('}');
    next := Absorb(DropLast(path), Closed(Last(path)));
    CloseMirrors(path);
  }

  lemma {:induction false} RunPrefix(a: seq<Token>, b: seq<Token>)
    requires Run(a + b).Running?
    ensures Run(a).Running?
    decreases |b|
  {
    if |b| == 0 {
      assert a + b == a;
    } else {
      assert DropLast(a + b) == a + DropLast(b);
      RunPrefix(a, DropLast(b));
    }
  }

  // The loop is still running exactly when what it has read can be continued to a JSON text: it rejects at
  // the first token after which no continuation would do.
  lemma ViablePrefix(tokens: seq<Token>)
    requires NoDanglingClose(tokens)
    ensures Run(tokens).Running? <==> exists rest :: JsonText(tokens + rest)
  {
    RunMirrors(tokens);
    if Run(tokens).Running? {
      var g := Parsed(tokens).value;
      ProperParsed(tokens);
      ParseFlattens(tokens);
      var rest := Completable(g);
    }
    forall rest | JsonText(tokens + rest)
      ensures Run(tokens).Running?
    {
      RunMirrors(tokens + rest);
      JsonTextParsed(tokens + rest);
      RunPrefix(tokens, rest);
    }
  }

  // The first bad token is reported as a duplicate name exactly when it is a name the innermost open object
  // already has, and as invalid JSON otherwise.
  lemma FirstBadToken(prefix: seq<Token>, tok: Token)
    requires Run(prefix).Running?
    ensures Run(prefix + [tok]) == Rejected(DuplicateName) <==> RepeatsName(prefix, tok)
    ensures NoDanglingClose(prefix + [tok]) ==>
            (Run(prefix + [tok]) == Rejected(InvalidJSON) <==>
             !RepeatsName(prefix, tok) && !exists rest :: JsonText(prefix + [tok] + rest))
  {
    RunMirrors(prefix);
    var g := Parsed(prefix).value;
    ParseFlattens(prefix);
    forall path | Shaped(path) && FlattenPath(path) == prefix
      ensures g == Building(path)
    {
      ParsePath(path);
    }
    assert RepeatsName(prefix, tok) <==> KeyRepeats(g, tok);
    var more := prefix + [tok];
    assert DropLast(more) == prefix;
    StepMirrorsAlways(g, tok);
    if KeyRepeats(g, tok) {
      var path := Advance(g, tok).value.path;
      assert Last(path) == OpenObject(Last(g.path).members, Some(tok.v.s));
      assert Run(more) == Rejected(DuplicateName) by {
        FitsOuter(path);
      }
    }
    if NoDanglingClose(more) {
      ViablePrefix(more);
    }
  }

  /* ---------- The loop itself ---------- */

  datatype Reply = Got(tok: Token) | Eof | Failed

  // The token contract of json.Decoder: a sequence of tokens, then EOF or an error, for ever.
  class Decoder {
    const tokens: seq<Token>
    const clean: bool
    var pos: nat

    ghost predicate Valid()
      reads this
    {
      pos <= |tokens|
    }

    constructor (tokens: seq<Token>, clean: bool)
      ensures Valid() && pos == 0 && this.tokens == tokens && this.clean == clean
    {
      this.tokens, this.clean, this.pos := tokens, clean, 0;
    }

    method Token() returns (r: Reply)
      requires Valid()
      modifies this
      ensures Valid()
      ensures if old(pos) < |tokens| then r == Got(tokens[old(pos)]) && pos == old(pos) + 1
              else r == (if clean then Eof else Failed) && pos == old(pos)
    {
      if pos < |tokens| {
        r := Got(tokens[pos]);
        pos := pos + 1;
      } else {
        r := if clean then Eof else Failed;
      }
    }
  }

  // The part of the loop that reads a token where a key is due; the error is its return, if any.
  method TakeKey(st: State, token: Token) returns (frames: seq<Frame>, rootComplete: bool, err: Option<Error>)
    requires |st.frames| > 0
    ensures ConsumeKey(st, token) == if err.Some? then Rejected(err.value) else Running(State(frames, rootComplete))
  {
    frames, rootComplete, err := st.frames, st.rootComplete, None;
    var frame := frames[|frames| - 1];
    if token == Delim('}') {
      frames := frames[..|frames| - 1];
      if |frames| == 0 {
        rootComplete := true;
      }
      return;
    }
    if !(token.Value? && token.v.Str?) {
      err := Some(InvalidJSON);
      return;
    }
    var key := token.v.s;
    if key in frame.seen {
      err := Some(DuplicateName);
      return;
    }
    frames := frames[..|frames| - 1] + [Frame('{', frame.seen + {key}, false)];
  }

  // The part of the loop that reads any other token.
  method TakeValue(st: State, token: Token) returns (frames: seq<Frame>, rootComplete: bool, err: Option<Error>)
    ensures ConsumeValue(st, token) == if err.Some? then Rejected(err.value) else Running(State(frames, rootComplete))
  {
    frames, rootComplete, err := st.frames, st.rootComplete, None;
    if token.Delim? && (token.c == '}' || token.c == ']') {
      if |frames| == 0 || !DelimitersMatch(frames[|frames| - 1].delimiter, token.c) {
        err := Some(InvalidJSON);
        return;
      }
      frames := frames[..|frames| - 1];
      if |frames| == 0 {
        rootComplete := true;
      }
      return;
    }
    if |frames| > 0 && frames[|frames| - 1].delimiter == '{' {
      frames := frames[..|frames| - 1] + [frames[|frames| - 1].(wantKey := true)];
    }
    if token.Delim? {
      if |frames| == MAX_DEPTH {
        err := Some(InvalidJSON);
        return;
      }
      if token.c == '{' {
        frames := frames + [Frame('{', {}, true)];
      } else if token.c == '[' {
        frames := frames + [Frame('[', {}, false)];
      } else {
        err := Some(InvalidJSON);
      }
      return;
    }
    if |frames| == 0 {
      rootComplete := true;
    }
  }

  // The loop after the first n tokens.
  ghost function RunTo(tokens: seq<Token>, n: nat): Outcome
    requires n <= |tokens|
  {
    Run(tokens[..n])
  }

  method ValidateTokens(decoder: Decoder) returns (err: Option<Error>)
    requires decoder.Valid() && decoder.pos == 0
    modifies decoder
    ensures err == Verdict(decoder.tokens, decoder.clean)
    ensures NoDanglingClose(decoder.tokens) ==> (err.None? <==> decoder.clean && JsonText(decoder.tokens))
  {
    ghost var tokens := decoder.tokens;
    if NoDanglingClose(tokens) {
      ValidatesJson(tokens, decoder.clean);
    }
    RunStarts(tokens);
    hide RunTo, Verdict, ConsumeKey, ConsumeValue, NoDanglingClose, JsonText;
    var frames: seq<Frame> := [];
    var rootComplete := false;
    while true
      invariant decoder.Valid()
      invariant RunTo(tokens, decoder.pos) == Running(State(frames, rootComplete))
      decreases |tokens| - decoder.pos
    {
      ghost var at, st := decoder.pos, State(frames, rootComplete);
      var reply := decoder.Token();
      if reply.Eof? || reply.Failed? {
        VerdictAtEnd(tokens, decoder.clean, st);
        return if reply.Eof? && rootComplete && |frames| == 0 then None else Some(InvalidJSON);
      }
      RunGoesOn(tokens, at, decoder.clean, st);
      if rootComplete && |frames| == 0 {
        return Some(InvalidJSON);
      }
      if WantsKey(frames) {
        frames, rootComplete, err := TakeKey(State(frames, rootComplete), reply.tok);
      } else {
        frames, rootComplete, err := TakeValue(State(frames, rootComplete), reply.tok);
      }
      if err.Some? {
        return;
      }
    }
  }

  lemma RunStarts(tokens: seq<Token>)
    ensures RunTo(tokens, 0) == Running(START)
  {
  }

  lemma VerdictAtEnd(tokens: seq<Token>, clean: bool, st: State)
    requires RunTo(tokens, |tokens|) == Running(st)
    ensures Verdict(tokens, clean) == if clean && st.rootComplete && |st.frames| == 0 then None else Some(InvalidJSON)
  {
    assert tokens[..|tokens|] == tokens;
  }

  // One more token: the step it causes, and the verdict if that is a rejection.
  lemma RunGoesOn(tokens: seq<Token>, at: nat, clean: bool, st: State)
    requires at < |tokens| && RunTo(tokens, at) == Running(st)
    ensures RunTo(tokens, at + 1) == Consume(st, tokens[at])
    ensures Consume(st, tokens[at]).Rejected? ==> Verdict(tokens, clean) == Some(Consume(st, tokens[at]).err)
  {
    hide Consume;
    assert DropLast(tokens[..at + 1]) == tokens[..at];
    if RunTo(tokens, at + 1).Rejected? {
      RejectionSticks(tokens, at + 1);
    }
  }

  lemma {:induction false} RejectionSticks(tokens: seq<Token>, n: nat)
    requires n <= |tokens| && Run(tokens[..n]).Rejected?
    ensures Run(tokens) == Run(tokens[..n])
    decreases |tokens| - n
  {
    if n == |tokens| {
      assert tokens[..n] == tokens;
    } else {
      assert DropLast(tokens[..n + 1]) == tokens[..n];
      RejectionSticks(tokens, n + 1);
    }
  }
}
