// The JSON language as trees, and the partial trees that stand for a prefix of a token stream.
// A tree may carry a "dangling" object key (a name with no value): no JSON text has one, but the
// validator's loop can be fed one, so the trees that describe the loop's language must allow it.
module JsonTree {
  import opened Basics

  datatype Prim = Str(s: string) | Number(text: string) | Bool(b: bool) | Null

  // What json.Decoder.Token returns: a delimiter rune or a scalar.
  datatype Token = Delim(c: char) | Value(v: Prim)

  datatype Member = Member(name: string, value: Tree)

  datatype Tree =
    | Leaf(v: Prim)
    | Array(items: seq<Tree>)
    | Object(members: seq<Member>, dangling: Option<string>)

  // The section-9 depth limit of RFC 8259, as the decoder's scanner sets it.
  const MAX_DEPTH := 10000

  function KeyTokens(key: Option<string>): seq<Token> {
    match key
    case None => []
    case Some(k) => [Value(Str(k))]
  }

  function Flatten(t: Tree): seq<Token>
    decreases t, 1
  {
    match t
    case Leaf(v) => [Value(v)]
    case Array(items) => [Delim('[')] + FlattenItems(items) + [Delim(']')]
    case Object(members, dangling) => [Delim('{')] + FlattenMembers(members) + KeyTokens(dangling) + [Delim('}')]
  }

  function FlattenItems(items: seq<Tree>): seq<Token>
    decreases items, 0
  {
    if |items| == 0 then [] else FlattenItems(DropLast(items)) + Flatten(Last(items))
  }

  function FlattenMembers(members: seq<Member>): seq<Token>
    decreases members, 0
  {
    if |members| == 0 then [] else FlattenMembers(DropLast(members)) + MemberTokens(Last(members))
  }

  function MemberTokens(m: Member): seq<Token>
    decreases m, 2
  {
    [Value(Str(m.name))] + Flatten(m.value)
  }

  function Max(a: nat, b: nat): nat { if a < b then b else a }

  // Nesting depth: the number of containers open at once.
  function Depth(t: Tree): nat
    decreases t, 1
  {
    match t
    case Leaf(_) => 0
    case Array(items) => 1 + ItemsDepth(items)
    case Object(members, _) => 1 + MembersDepth(members)
  }

  function ItemsDepth(items: seq<Tree>): nat
    decreases items, 0
  {
    if |items| == 0 then 0 else Max(ItemsDepth(DropLast(items)), Depth(Last(items)))
  }

  function MembersDepth(members: seq<Member>): nat
    decreases members, 0
  {
    if |members| == 0 then 0 else Max(MembersDepth(DropLast(members)), Depth(Last(members).value))
  }

  function Names(members: seq<Member>): set<string> {
    set i | 0 <= i < |members| :: members[i].name
  }

  // No object, at any depth, repeats a name (section 2.3 of RFC 7493).
  predicate UniqueNames(t: Tree)
    decreases t, 1
  {
    match t
    case Leaf(_) => true
    case Array(items) => ItemsUnique(items)
    case Object(members, dangling) => MembersUnique(members) && (dangling.Some? ==> dangling.value !in Names(members))
  }

  predicate ItemsUnique(items: seq<Tree>)
    decreases items, 0
  {
    |items| == 0 || (ItemsUnique(DropLast(items)) && UniqueNames(Last(items)))
  }

  predicate MembersUnique(members: seq<Member>)
    decreases members, 0
  {
    |members| == 0 ||
    (&& MembersUnique(DropLast(members))
     && Last(members).name !in Names(DropLast(members))
     && UniqueNames(Last(members).value))
  }

  // No dangling key anywhere: the trees of section 2 of RFC 8259.
  predicate Proper(t: Tree)
    decreases t, 1
  {
    match t
    case Leaf(_) => true
    case Array(items) => ItemsProper(items)
    case Object(members, dangling) => MembersProper(members) && dangling.None?
  }

  predicate ItemsProper(items: seq<Tree>)
    decreases items, 0
  {
    |items| == 0 || (ItemsProper(DropLast(items)) && Proper(Last(items)))
  }

  predicate MembersProper(members: seq<Member>)
    decreases members, 0
  {
    |members| == 0 || (MembersProper(DropLast(members)) && Proper(Last(members).value))
  }

  // The token stream of one JSON value with unique names and bounded depth.
  ghost predicate JsonText(tokens: seq<Token>) {
    exists t :: Proper(t) && UniqueNames(t) && Depth(t) <= MAX_DEPTH && Flatten(t) == tokens
  }

  // A container that has been opened and not yet closed.
  datatype Partial = OpenArray(items: seq<Tree>) | OpenObject(members: seq<Member>, key: Option<string>)

  // What a prefix of a token stream has built: open containers, outermost first, or a whole value.
  datatype Progress = Building(path: seq<Partial>) | Complete(root: Tree)

  // Only an object whose key has been read can have a container open inside it.
  ghost predicate Shaped(path: seq<Partial>) {
    forall i :: 0 <= i < |path| - 1 && path[i].OpenObject? ==> path[i].key.Some?
  }

  ghost predicate ShapedProgress(g: Progress) {
    g.Building? ==> Shaped(g.path)
  }

  function FlattenPartial(p: Partial): seq<Token> {
    match p
    case OpenArray(items) => [Delim('[')] + FlattenItems(items)
    case OpenObject(members, key) => [Delim('{')] + FlattenMembers(members) + KeyTokens(key)
  }

  function FlattenPath(path: seq<Partial>): seq<Token> {
    if |path| == 0 then [] else FlattenPath(DropLast(path)) + FlattenPartial(Last(path))
  }

  function FlattenProgress(g: Progress): seq<Token> {
    match g
    case Building(path) => FlattenPath(path)
    case Complete(root) => Flatten(root)
  }

  // The prefix ends in an object key whose value has not begun.
  ghost predicate EndsInKey(tokens: seq<Token>) {
    exists path :: Shaped(path) && |path| > 0 && FlattenPath(path) == tokens
                   && Last(path).OpenObject? && Last(path).key.Some?
  }

  // What json.Decoder guarantees of its tokens: '}' never directly follows an object key.
  ghost predicate NoDanglingClose(tokens: seq<Token>) {
    forall i :: 0 <= i < |tokens| && tokens[i] == Delim('}') ==> !EndsInKey(tokens[..i])
  }

  // The innermost open object is about to read a name, and already has this one.
  ghost predicate RepeatsName(prefix: seq<Token>, tok: Token) {
    exists path :: Shaped(path) && |path| > 0 && FlattenPath(path) == prefix
                   && Last(path).OpenObject? && Last(path).key.None?
                   && tok.Value? && tok.v.Str? && tok.v.s in Names(Last(path).members)
  }

  /* ---------- Reading a token stream into a partial tree ---------- */

  ghost predicate ExpectsValue(path: seq<Partial>) {
    |path| > 0 && Last(path).OpenObject? ==> Last(path).key.Some?
  }

  // A value completed inside the innermost open container.
  ghost function Absorb(path: seq<Partial>, v: Tree): Progress
    requires ExpectsValue(path)
  {
    if |path| == 0 then Complete(v)
    else match Last(path)
      case OpenArray(items) => Building(DropLast(path) + [OpenArray(items + [v])])
      case OpenObject(members, key) => Building(DropLast(path) + [OpenObject(members + [Member(key.value, v)], None)])
  }

  ghost function Advance(g: Progress, tok: Token): Option<Progress>
    requires ShapedProgress(g)
  {
    if g.Complete? then None
    else if |g.path| > 0 && Last(g.path).OpenObject? && Last(g.path).key.None? then
      var o := Last(g.path);
      if tok == Delim('}') then Some(Absorb(DropLast(g.path), Object(o.members, None)))
      else if tok.Value? && tok.v.Str? then
        Some(Building(DropLast(g.path) + [OpenObject(o.members, Some(tok.v.s))]))
      else None
    else if tok.Value? then Some(Absorb(g.path, Leaf(tok.v)))
    else if tok.c == '{' then Some(Building(g.path + [OpenObject([], None)]))
    else if tok.c == '[' then Some(Building(g.path + [OpenArray([])]))
    else if tok.c == ']' && |g.path| > 0 && Last(g.path).OpenArray? then
      Some(Absorb(DropLast(g.path), Array(Last(g.path).items)))
    else if tok.c == '}' && |g.path| > 0 && Last(g.path).OpenObject? then
      Some(Absorb(DropLast(g.path), Object(Last(g.path).members, Last(g.path).key)))
    else None
  }

  lemma AdvanceShaped(g: Progress, tok: Token)
    requires ShapedProgress(g) && Advance(g, tok).Some?
    ensures ShapedProgress(Advance(g, tok).value)
  {
  }

  ghost function Parse(g: Progress, tokens: seq<Token>): (r: Option<Progress>)
    requires ShapedProgress(g)
    ensures r.Some? ==> ShapedProgress(r.value)
  {
    if |tokens| == 0 then Some(g)
    else
      var before := Parse(g, DropLast(tokens));
      if before.None? then None
      else
        var after := Advance(before.value, Last(tokens));
        if after.Some? then AdvanceShaped(before.value, Last(tokens)); after else None
  }

  // Reading a concatenation is reading one part and then the other.
  lemma {:induction false} ParseConcat(g: Progress, a: seq<Token>, b: seq<Token>)
    requires ShapedProgress(g)
    ensures Parse(g, a + b) == (if Parse(g, a).None? then None else Parse(Parse(g, a).value, b))
    decreases |b|
  {
    if |b| == 0 {
      assert a + b == a;
    } else {
      assert DropLast(a + b) == a + DropLast(b);
      ParseConcat(g, a, DropLast(b));
    }
  }

  lemma ParseOne(g: Progress, tok: Token)
    requires ShapedProgress(g)
    ensures Parse(g, [tok]) == Advance(g, tok)
  {
    assert DropLast([tok]) == [];
    assert Parse(g, DropLast([tok])) == Some(g);
  }

  // Reading the tokens of a tree absorbs exactly that tree.
  lemma {:induction false} ParseTree(path: seq<Partial>, t: Tree)
    requires Shaped(path) && ExpectsValue(path)
    ensures Parse(Building(path), Flatten(t)) == Some(Absorb(path, t))
    decreases t, 1
  {
    match t
    case Leaf(v) => ParseOne(Building(path), Value(v));
    case Array(items) => ParseArray(path, items);
    case Object(members, dangling) => ParseObject(path, members, dangling);
  }

  lemma {:induction false} ParseArray(path: seq<Partial>, items: seq<Tree>)
    requires Shaped(path) && ExpectsValue(path)
    ensures Parse(Building(path), Flatten(Array(items))) == Some(Absorb(path, Array(items)))
    decreases items, 2
  {
    hide Advance, Parse, FlattenPartial, Absorb;
    OpenedArray(path, items);
    ParseClose(path, OpenArray(items), Array(items), Delim(']'));
    ClosedArray(items);
    ParseConcat(Building(path), FlattenPartial(OpenArray(items)), [Delim(']')]);
  }

  lemma {:induction false} ParseObject(path: seq<Partial>, members: seq<Member>, dangling: Option<string>)
    requires Shaped(path) && ExpectsValue(path)
    ensures Parse(Building(path), Flatten(Object(members, dangling))) == Some(Absorb(path, Object(members, dangling)))
    decreases members, 2
  {
    hide Advance, Parse, FlattenPartial, Absorb;
    OpenedObject(path, members, dangling);
    ParseClose(path, OpenObject(members, dangling), Object(members, dangling), Delim('}'));
    ClosedObject(members, dangling);
    ParseConcat(Building(path), FlattenPartial(OpenObject(members, dangling)), [Delim('}')]);
  }

  lemma ClosedArray(items: seq<Tree>)
    ensures Flatten(Array(items)) == FlattenPartial(OpenArray(items)) + [Delim(']')]
  {
  }

  lemma ClosedObject(members: seq<Member>, dangling: Option<string>)
    ensures Flatten(Object(members, dangling)) == FlattenPartial(OpenObject(members, dangling)) + [Delim('}')]
  {
  }

  lemma ParseClose(path: seq<Partial>, p: Partial, v: Tree, tok: Token)
    requires Shaped(path) && ExpectsValue(path)
    requires p.OpenArray? ==> v == Array(p.items) && tok == Delim(']')
    requires p.OpenObject? ==> v == Object(p.members, p.key) && tok == Delim('}')
    ensures Parse(Building(path + [p]), [tok]) == Some(Absorb(path, v))
  {
    assert DropLast(path + [p]) == path;
    ParseOne(Building(path + [p]), tok);
  }

  // Reading the tokens of an unclosed container opens it.
  lemma {:induction false} OpenedArray(path: seq<Partial>, items: seq<Tree>)
    requires Shaped(path) && ExpectsValue(path)
    ensures Parse(Building(path), FlattenPartial(OpenArray(items))) == Some(Building(path + [OpenArray(items)]))
    decreases items, 1
  {
    ParseOne(Building(path), Delim('['));
    ParseConcat(Building(path), [Delim('[')], FlattenItems(items));
    ParseItems(path, items);
  }

  lemma {:induction false} OpenedObject(path: seq<Partial>, members: seq<Member>, key: Option<string>)
    requires Shaped(path) && ExpectsValue(path)
    ensures Parse(Building(path), FlattenPartial(OpenObject(members, key)))
         == Some(Building(path + [OpenObject(members, key)]))
    decreases members, 1
  {
    ParseOne(Building(path), Delim('{'));
    ParseConcat(Building(path), [Delim('{')], FlattenMembers(members));
    ParseMembers(path, members);
    ParseConcat(Building(path), [Delim('{')] + FlattenMembers(members), KeyTokens(key));
    ParseKey(path, members, key);
  }

  lemma ParseKey(path: seq<Partial>, members: seq<Member>, key: Option<string>)
    requires Shaped(path) && ExpectsValue(path)
    ensures Parse(Building(path + [OpenObject(members, None)]), KeyTokens(key))
         == Some(Building(path + [OpenObject(members, key)]))
  {
    if key.Some? {
      var g := Building(path + [OpenObject(members, None)]);
      ParseOne(g, Value(Str(key.value)));
      assert DropLast(g.path) == path;
    }
  }

  lemma OpenedShaped(path: seq<Partial>, p: Partial)
    requires Shaped(path) && ExpectsValue(path)
    ensures ShapedProgress(Building(path + [p]))
  {
  }

  // Reading one part and then the other, when what the first part builds is known.
  lemma ParseThen(g: Progress, a: seq<Token>, mid: Progress, b: seq<Token>)
    requires ShapedProgress(g) && ShapedProgress(mid) && Parse(g, a) == Some(mid)
    ensures Parse(g, a + b) == Parse(mid, b)
  {
    hide Parse, ShapedProgress;
    ParseConcat(g, a, b);
  }

  lemma {:induction false} ParseItem(path: seq<Partial>, before: seq<Tree>, t: Tree)
    requires Shaped(path) && ExpectsValue(path)
    ensures ShapedProgress(Building(path + [OpenArray(before)]))
    ensures Parse(Building(path + [OpenArray(before)]), Flatten(t)) == Some(Building(path + [OpenArray(before + [t])]))
    decreases t, 2
  {
    hide Advance, Parse, Flatten;
    var mid := path + [OpenArray(before)];
    ParseTree(mid, t);
    assert DropLast(mid) == path;
  }

  lemma {:induction false} ParseItems(path: seq<Partial>, items: seq<Tree>)
    requires Shaped(path) && ExpectsValue(path)
    ensures Parse(Building(path + [OpenArray([])]), FlattenItems(items)) == Some(Building(path + [OpenArray(items)]))
    decreases items, 0
  {
    OpenedShaped(path, OpenArray([]));
    if |items| > 0 {
      var before, t := DropLast(items), Last(items);
      assert FlattenItems(items) == FlattenItems(before) + Flatten(t) && before + [t] == items;
      hide Advance, Parse, Flatten, FlattenItems, Shaped, ShapedProgress, ExpectsValue;
      ParseItems(path, before);
      ParseItem(path, before, t);
      ParseThen(Building(path + [OpenArray([])]), FlattenItems(before),
                Building(path + [OpenArray(before)]), Flatten(t));
    } else {
      assert FlattenItems(items) == [];
    }
  }

  lemma {:induction false} ParseMembers(path: seq<Partial>, members: seq<Member>)
    requires Shaped(path) && ExpectsValue(path)
    ensures Parse(Building(path + [OpenObject([], None)]), FlattenMembers(members))
         == Some(Building(path + [OpenObject(members, None)]))
    decreases members, 0
  {
    OpenedShaped(path, OpenObject([], None));
    if |members| > 0 {
      var before, m := DropLast(members), Last(members);
      assert FlattenMembers(members) == FlattenMembers(before) + MemberTokens(m) && before + [m] == members;
      hide Advance, Parse, MemberTokens, FlattenMembers, Shaped, ShapedProgress, ExpectsValue;
      ParseMembers(path, before);
      ParseMember(path, before, m);
      ParseThen(Building(path + [OpenObject([], None)]), FlattenMembers(before),
                Building(path + [OpenObject(before, None)]), MemberTokens(m));
    } else {
      assert FlattenMembers(members) == [];
    }
  }

  lemma {:induction false} ParseMember(path: seq<Partial>, before: seq<Member>, m: Member)
    requires Shaped(path) && ExpectsValue(path)
    ensures ShapedProgress(Building(path + [OpenObject(before, None)]))
    ensures Parse(Building(path + [OpenObject(before, None)]), MemberTokens(m))
         == Some(Building(path + [OpenObject(before + [m], None)]))
    decreases m, 2
  {
    hide Advance, Parse, Flatten;
    var mid := path + [OpenObject(before, Some(m.name))];
    ParseKey(path, before, Some(m.name));
    ParseThen(Building(path + [OpenObject(before, None)]), [Value(Str(m.name))], Building(mid), Flatten(m.value));
    ParseTree(mid, m.value);
    assert DropLast(mid) == path && Member(m.name, m.value) == m;
  }

  // Reading the tokens of a partial tree rebuilds it: a prefix determines its partial tree.
  lemma {:induction false} ParsePath(path: seq<Partial>)
    requires Shaped(path)
    ensures Parse(Building([]), FlattenPath(path)) == Some(Building(path))
    decreases |path|
  {
    if |path| > 0 {
      var outer, p := DropLast(path), Last(path);
      ParsePath(outer);
      assert outer + [p] == path;
      ParseConcat(Building([]), FlattenPath(outer), FlattenPartial(p));
      match p
      case OpenArray(items) => OpenedArray(outer, items);
      case OpenObject(members, key) => OpenedObject(outer, members, key);
    }
  }

  lemma ParseProgress(g: Progress)
    requires ShapedProgress(g)
    ensures Parse(Building([]), FlattenProgress(g)) == Some(g)
  {
    match g
    case Building(path) => ParsePath(path);
    case Complete(root) => ParseTree([], root);
  }

  lemma FlattenPush(path: seq<Partial>, p: Partial)
    ensures FlattenPath(path + [p]) == FlattenPath(path) + FlattenPartial(p)
  {
    assert DropLast(path + [p]) == path;
  }

  lemma Assoc<T>(a: seq<T>, b: seq<T>, c: seq<T>)
    ensures a + (b + c) == (a + b) + c
  {
  }

  lemma PartialGrows(p: Partial, v: Tree)
    requires p.OpenObject? ==> p.key.Some?
    ensures FlattenPartial(if p.OpenArray? then OpenArray(p.items + [v])
                           else OpenObject(p.members + [Member(p.key.value, v)], None))
         == FlattenPartial(p) + Flatten(v)
  {
    match p
    case OpenArray(items) =>
      assert DropLast(items + [v]) == items;
    case OpenObject(members, key) =>
      var m := Member(key.value, v);
      assert DropLast(members + [m]) == members;
      assert FlattenMembers(members + [m]) == FlattenMembers(members) + MemberTokens(m);
      assert KeyTokens(key) == [Value(Str(m.name))];
      Assoc([Delim('{')] + FlattenMembers(members), KeyTokens(key), Flatten(v));
  }

  lemma AbsorbFlattens(path: seq<Partial>, v: Tree)
    requires ExpectsValue(path)
    ensures FlattenProgress(Absorb(path, v)) == FlattenPath(path) + Flatten(v)
  {
    hide Flatten, FlattenPartial;
    if |path| == 0 {
      assert FlattenPath(path) + Flatten(v) == Flatten(v);
    } else {
      var outer, p := DropLast(path), Last(path);
      var grown := if p.OpenArray? then OpenArray(p.items + [v])
                   else OpenObject(p.members + [Member(p.key.value, v)], None);
      PartialGrows(p, v);
      FlattenPush(outer, grown);
      Assoc(FlattenPath(outer), FlattenPartial(p), Flatten(v));
    }
  }

  // Every token read is kept: the partial tree flattens back to the tokens that built it.
  lemma AdvanceFlattens(g: Progress, tok: Token)
    requires ShapedProgress(g) && Advance(g, tok).Some?
    ensures FlattenProgress(Advance(g, tok).value) == FlattenProgress(g) + [tok]
  {
    var path := g.path;
    if |path| > 0 && Last(path).OpenObject? && Last(path).key.None? {
      var outer, members := DropLast(path), Last(path).members;
      if tok == Delim('}') {
        AbsorbFlattens(outer, Object(members, None));
      } else {
        FlattenPush(outer, OpenObject(members, Some(tok.v.s)));
      }
    } else {
      AdvanceValueFlattens(path, tok);
    }
  }

  lemma CloseFlattens(path: seq<Partial>, v: Tree, tok: Token)
    requires Shaped(path) && |path| > 0
    requires Flatten(v) == FlattenPartial(Last(path)) + [tok]
    ensures FlattenProgress(Absorb(DropLast(path), v)) == FlattenPath(path) + [tok]
  {
    AbsorbFlattens(DropLast(path), v);
  }

  lemma OpenFlattens(path: seq<Partial>)
    ensures FlattenPath(path + [OpenArray([])]) == FlattenPath(path) + [Delim('[')]
    ensures FlattenPath(path + [OpenObject([], None)]) == FlattenPath(path) + [Delim('{')]
  {
    FlattenPush(path, OpenArray([]));
    FlattenPush(path, OpenObject([], None));
    assert FlattenPartial(OpenArray([])) == [Delim('[')];
    assert FlattenPartial(OpenObject([], None)) == [Delim('{')];
  }

  lemma AdvanceValueFlattens(path: seq<Partial>, tok: Token)
    requires Shaped(path) && ExpectsValue(path) && Advance(Building(path), tok).Some?
    ensures FlattenProgress(Advance(Building(path), tok).value) == FlattenPath(path) + [tok]
  {
    hide Absorb, FlattenPath, FlattenPartial, FlattenItems, FlattenMembers;
    if tok.Value? {
      AbsorbFlattens(path, Leaf(tok.v));
    } else if tok.c == '{' || tok.c == '[' {
      OpenFlattens(path);
    } else if tok.c == ']' {
      ClosedArray(Last(path).items);
      CloseFlattens(path, Array(Last(path).items), tok);
    } else {
      ClosedObject(Last(path).members, Last(path).key);
      CloseFlattens(path, Object(Last(path).members, Last(path).key), tok);
    }
  }

  lemma ParseLast(tokens: seq<Token>)
    requires |tokens| > 0 && Parse(Building([]), tokens).Some?
    ensures Parse(Building([]), DropLast(tokens)).Some?
    ensures Advance(Parse(Building([]), DropLast(tokens)).value, Last(tokens)) == Parse(Building([]), tokens)
    ensures DropLast(tokens) + [Last(tokens)] == tokens && |DropLast(tokens)| < |tokens|
  {
    hide Advance;
  }

  lemma {:induction false} ParseFlattens(tokens: seq<Token>)
    requires Parse(Building([]), tokens).Some?
    ensures FlattenProgress(Parse(Building([]), tokens).value) == tokens
    decreases |tokens|
  {
    if |tokens| > 0 {
      hide Advance, FlattenProgress, Parse, DropLast, Last;
      ParseLast(tokens);
      ParseFlattens(DropLast(tokens));
      AdvanceFlattens(Parse(Building([]), DropLast(tokens)).value, Last(tokens));
    }
  }

  // A token stream is the flattening of at most one tree.
  lemma FlattenInjective(a: Tree, b: Tree)
    requires Flatten(a) == Flatten(b)
    ensures a == b
  {
    ParseTree([], a);
    ParseTree([], b);
  }
}
