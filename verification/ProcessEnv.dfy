// process/process.go: merging an environment, and the bounded scrollback of a process's output.
module ProcessEnv {
  import opened Basics
  import opened Counting

  // splitEnv: the key and value around the first '='.
  function Split(item: string): (r: Option<(string, string)>)
    ensures r.Some? ==> item == r.value.0 + "=" + r.value.1 && '=' !in r.value.0
    ensures r.None? <==> '=' !in item
  {
    if |item| == 0 then None
    else if item[0] == '=' then Some(("", item[1..]))
    else match Split(item[1..])
      case None => None
      case Some((k, v)) =>
        assert item == [item[0]] + item[1..];
        Some(([item[0]] + k, v))
  }

  // The split is the only one with no '=' in the key.
  lemma {:induction false} SplitUnique(k: string, v: string)
    requires '=' !in k
    ensures Split(k + "=" + v) == Some((k, v))
    decreases |k|
  {
    var item := k + "=" + v;
    if |k| == 0 {
      assert item[1..] == v;
    } else {
      assert item[1..] == k[1..] + "=" + v;
      SplitUnique(k[1..], v);
      assert k == [k[0]] + k[1..];
    }
  }

  method SplitEnv(item: string) returns (key: string, value: string, ok: bool)
    ensures ok <==> Split(item).Some?
    ensures ok ==> Split(item).value == (key, value)
    ensures !ok ==> key == "" && value == ""
  {
    for i := 0 to |item|
      invariant '=' !in item[..i]
    {
      if item[i] == '=' {
        assert item == item[..i] + "=" + item[i + 1..];
        SplitUnique(item[..i], item[i + 1..]);
        return item[..i], item[i + 1..], true;
      }
      assert item[..i + 1] == item[..i] + [item[i]];
    }
    assert item[..|item|] == item;
    return "", "", false;
  }

  // What a process finds in its environment: the last item with the key wins.
  function Lookup(env: seq<string>, key: string): Option<string> {
    if |env| == 0 then None
    else
      var s := Split(Last(env));
      if s.Some? && s.value.0 == key then Some(s.value.1) else Lookup(DropLast(env), key)
  }

  predicate Replaced(item: string, keys: set<string>) {
    Split(item).Some? && Split(item).value.0 in keys
  }

  // The base items that stay, in their order.
  function Kept(base: seq<string>, keys: set<string>): seq<string> {
    if |base| == 0 then []
    else Kept(DropLast(base), keys) + if Replaced(Last(base), keys) then [] else [Last(base)]
  }

  function Item(extra: map<string, string>, key: string): string
    requires key in extra
  {
    key + "=" + extra[key]
  }

  function Items(order: seq<string>, extra: map<string, string>): seq<string>
    requires forall k :: k in order ==> k in extra
  {
    seq(|order|, i requires 0 <= i < |order| => Item(extra, order[i]))
  }

  // An order in which Go may range over a map with these keys.
  ghost predicate IsOrder(order: seq<string>, keys: set<string>) {
    && (forall k :: k in order <==> k in keys)
    && (forall i, j :: 0 <= i < j < |order| ==> order[i] != order[j])
  }

  ghost function Merged(base: seq<string>, extra: map<string, string>, order: seq<string>): seq<string>
    requires IsOrder(order, extra.Keys)
  {
    if |extra| == 0 then base else Kept(base, extra.Keys) + Items(order, extra)
  }

  method MergeEnv(base: seq<string>, extra: map<string, string>)
    returns (merged: seq<string>, ghost order: seq<string>)
    ensures IsOrder(order, extra.Keys)
    ensures merged == Merged(base, extra, order)
    ensures Coherent(extra) ==>
            forall key :: '=' !in key ==> Lookup(merged, key) == Expected(base, extra, key)
  {
    if |extra| == 0 {
      MergeLookups(base, extra, []);
      return base, [];
    }
    merged := [];
    var seen := {};
    var left := extra.Keys;
    while left != {}
      invariant seen + left == extra.Keys
      decreases left
    {
      var key := Pick(left);
      seen, left := seen + {key}, left - {key};
    }
    for i := 0 to |base|
      invariant merged == Kept(base[..i], extra.Keys)
    {
      var key, _, ok := SplitEnv(base[i]);
      assert DropLast(base[..i + 1]) == base[..i];
      if ok && key in seen {
        continue;
      }
      merged := merged + [base[i]];
    }
    assert base[..|base|] == base;
    order := [];
    left := extra.Keys;
    while left != {}
      invariant left <= extra.Keys && IsOrder(order, extra.Keys - left)
      invariant merged == Kept(base, extra.Keys) + Items(order, extra)
      decreases left
    {
      var key := Pick(left);
      ghost var before := Items(order, extra);
      merged := merged + [key + "=" + extra[key]];
      order := order + [key];
      left := left - {key};
      assert Items(order, extra) == before + [Item(extra, key)];
    }
    assert extra.Keys - left == extra.Keys;
    MergeLookups(base, extra, order);
  }

  // Filtering keeps the order: it goes through a concatenation piece by piece.
  lemma {:induction false} KeptConcat(a: seq<string>, b: seq<string>, keys: set<string>)
    ensures Kept(a + b, keys) == Kept(a, keys) + Kept(b, keys)
    decreases |b|
  {
    if |b| == 0 {
      assert a + b == a;
    } else {
      assert DropLast(a + b) == a + DropLast(b);
      KeptConcat(a, DropLast(b), keys);
    }
  }

  // Items with no '=', and items whose key is not replaced, all stay, in their order; only replaced ones go.
  lemma KeptOrder(a: seq<string>, item: string, b: seq<string>, keys: set<string>)
    ensures Kept(a + [item] + b, keys) ==
            Kept(a, keys) + (if '=' in item && Split(item).value.0 in keys then [] else [item]) + Kept(b, keys)
  {
    KeptConcat(a + [item], b, keys);
    assert DropLast(a + [item]) == a;
  }

  lemma {:induction false} LookupKept(base: seq<string>, keys: set<string>, key: string)
    ensures Lookup(Kept(base, keys), key) == if key in keys then None else Lookup(base, key)
  {
    if |base| > 0 {
      LookupKept(DropLast(base), keys, key);
      var rest := Kept(DropLast(base), keys);
      if !Replaced(Last(base), keys) {
        assert DropLast(rest + [Last(base)]) == rest;
      } else {
        assert rest + [] == rest;
      }
    }
  }

  // The condition on `extra` under which the merge means what it should: reading each "key=value" item back gives an
  // entry of `extra`. It holds when no key contains '=', and a caller can check it.
  predicate Coherent(extra: map<string, string>) {
    forall k :: k in extra ==>
      var s := Split(Item(extra, k)).value; s.0 in extra && extra[s.0] == s.1
  }

  lemma PlainKeysCoherent(extra: map<string, string>)
    requires forall k :: k in extra ==> '=' !in k
    ensures Coherent(extra)
  {
    forall k | k in extra
      ensures Split(Item(extra, k)).value == (k, extra[k])
    {
      SplitUnique(k, extra[k]);
    }
  }

  // The items appended for `extra` decide the lookup of its keys, and leave the other keys to what was there.
  lemma {:induction false} LookupItems(env: seq<string>, extra: map<string, string>, order: seq<string>, key: string)
    requires Coherent(extra) && '=' !in key && forall k :: k in order ==> k in extra
    ensures key in order ==> Lookup(env + Items(order, extra), key) == Some(extra[key])
    ensures key !in extra ==> Lookup(env + Items(order, extra), key) == Lookup(env, key)
    decreases |order|
  {
    var all := env + Items(order, extra);
    if |order| == 0 {
      assert all == env;
    } else {
      var before, k := DropLast(order), Last(order);
      assert before + [k] == order;
      LookupItems(env, extra, before, key);
      assert DropLast(all) == env + Items(before, extra) && Last(all) == Item(extra, k);
      if k == key {
        SplitUnique(k, extra[k]);
      }
      hide Split, Items, Item;
    }
  }

  // Last-wins lookup in the merged environment: `extra` where it has the key, the base otherwise.
  ghost function Expected(base: seq<string>, extra: map<string, string>, key: string): Option<string> {
    if key in extra then Some(extra[key]) else Lookup(base, key)
  }

  lemma MergeLookup(base: seq<string>, extra: map<string, string>, order: seq<string>, key: string)
    requires Coherent(extra) && IsOrder(order, extra.Keys) && '=' !in key
    ensures Lookup(Merged(base, extra, order), key) == Expected(base, extra, key)
  {
    LookupKept(base, extra.Keys, key);
    LookupItems(Kept(base, extra.Keys), extra, order, key);
  }

  lemma MergeLookups(base: seq<string>, extra: map<string, string>, order: seq<string>)
    requires IsOrder(order, extra.Keys)
    ensures Coherent(extra) ==>
            forall key :: '=' !in key ==> Lookup(Merged(base, extra, order), key) == Expected(base, extra, key)
  {
    hide Coherent, IsOrder, Merged, Expected, Lookup;
    forall key | Coherent(extra) && '=' !in key
      ensures Lookup(Merged(base, extra, order), key) == Expected(base, extra, key)
    {
      MergeLookup(base, extra, order, key);
    }
  }

  lemma {:induction false} OrderExists(keys: set<string>) returns (order: seq<string>)
    ensures IsOrder(order, keys)
    decreases keys
  {
    if keys == {} {
      order := [];
    } else {
      var k :| k in keys;
      order := OrderExists(keys - {k});
      order := order + [k];
    }
  }

  ghost predicate MergesRight(extra: map<string, string>) {
    forall base, order, key | IsOrder(order, extra.Keys) && '=' !in key ::
      Lookup(Merged(base, extra, order), key) == Expected(base, extra, key)
  }

  lemma LastItemWins(env: seq<string>, extra: map<string, string>, k: string)
    requires k in extra && |env| > 0 && Last(env) == Item(extra, k)
    ensures var s := Split(Item(extra, k)).value; Lookup(env, s.0) == Some(s.1)
  {
  }

  // An incoherent `extra` has a key whose item, merged last, shadows what should be found.
  lemma IncoherentFails(extra: map<string, string>) returns (order: seq<string>, key: string)
    requires !Coherent(extra)
    ensures IsOrder(order, extra.Keys) && '=' !in key
    ensures Lookup(Merged([], extra, order), key) != Expected([], extra, key)
  {
    var k :| k in extra && var s := Split(Item(extra, k)).value; !(s.0 in extra && extra[s.0] == s.1);
    key := Split(Item(extra, k)).value.0;
    order := OrderExists(extra.Keys - {k});
    order := order + [k];
    hide Split, Item;
    LastItemWins(Merged([], extra, order), extra, k);
  }

  // The merge is right for every base, every map order and every key exactly when `extra` is coherent.
  lemma MergesRightExactly(extra: map<string, string>)
    ensures MergesRight(extra) <==> Coherent(extra)
  {
    hide Coherent, IsOrder, Merged, Expected, Lookup;
    if Coherent(extra) {
      forall base, order, key | IsOrder(order, extra.Keys) && '=' !in key
        ensures Lookup(Merged(base, extra, order), key) == Expected(base, extra, key)
      {
        MergeLookup(base, extra, order, key);
      }
    } else {
      var order, key := IncoherentFails(extra);
    }
  }

  // Which it is not for {"A=B": "c"}: a later lookup of A finds "B=c".
  lemma EqualsInKey()
    ensures !MergesRight(map["A=B" := "c"])
  {
    var extra := map["A=B" := "c"];
    assert Item(extra, "A=B") == "A" + "=" + "B=c";
    SplitUnique("A", "B=c");
    assert "A=B" in extra && "A" !in extra;
    MergesRightExactly(extra);
  }
}

module Scrollback {
  import opened Basics
  import opened Io
  import opened ProcessEvents

  // The last `limit` bytes, or all of them; none when the limit is not positive.
  function Tail(log: seq<byte>, limit: int): seq<byte> {
    if limit <= 0 then [] else if |log| <= limit then log else log[|log| - limit..]
  }

  // All chunk data of a sequence of events, of either stream.
  function Log(events: seq<Event>): seq<byte> {
    if |events| == 0 then []
    else Log(DropLast(events)) + if Last(events).Chunk? then Last(events).data else []
  }

  class Buffer {
    const limit: int
    var buf: seq<byte>
    ghost var events: seq<Event>

    // The buffer is the tail of everything it has been shown.
    ghost predicate Valid()
      reads this
    {
      buf == Tail(Log(events), limit)
    }

    constructor (limit: int)
      ensures Valid() && this.limit == limit && events == []
    {
      this.limit, buf, events := limit, [], [];
    }

    method HandleProcessEvent(event: Event)
      requires Valid()
      modifies this
      ensures Valid() && events == old(events) + [event]
    {
      ghost var log := Log(events);
      events := events + [event];
      assert DropLast(events) == old(events);
      if limit <= 0 {
        return;
      }
      if !event.Chunk? || |event.data| == 0 {
        assert Log(events) == log;
        return;
      }
      TailOfTail(log, event.data, limit);
      hide Log;
      buf := buf + event.data;
      if |buf| <= limit {
        return;
      }
      var data := buf[|buf| - limit..];
      buf := data;
    }

    method String() returns (s: seq<byte>)
      requires Valid()
      ensures s == Tail(Log(events), limit)
    {
      s := buf;
    }
  }

  lemma SuffixOfSuffix(s: seq<byte>, a: nat, b: nat)
    requires a + b <= |s|
    ensures s[a..][b..] == s[a + b..]
  {
  }

  lemma SuffixOfConcat(a: seq<byte>, b: seq<byte>, n: nat)
    requires n <= |a|
    ensures (a + b)[n..] == a[n..] + b
  {
  }

  lemma LongTail(log: seq<byte>, limit: int)
    requires 0 < limit <= |log|
    ensures Tail(log, limit) == log[|log| - limit..]
  {
  }

  // Trimming early loses nothing: the tail of a tail with more bytes is the tail of the whole.
  lemma TailOfTail(log: seq<byte>, more: seq<byte>, limit: int)
    requires limit > 0
    ensures Tail(Tail(log, limit) + more, limit) == Tail(log + more, limit)
  {
    if |log| > limit {
      hide Tail;
      var all, cut := log + more, |log| - limit;
      LongTail(log, limit);
      SuffixOfConcat(log, more, cut);
      LongTail(all[cut..], limit);
      SuffixOfSuffix(all, cut, |more|);
      LongTail(all, limit);
    }
  }
}
