/**
  The proxy: it reveals the tokens of a payload in place through the tokenizer, then sends the payload on. Map keys are
  taken in no particular order.
 */
module Proxy {
  import opened Options
  import opened Identifiers
  import opened Stores
  import opened Requests
  import opened Service
  import opened Json
  import opened Walks
  import opened Reveal
  import opened Payloads

  ghost function Listing(keys: set<string>): (order: seq<string>)
    ensures Distinct(order) && forall k :: k in order <==> k in keys
  {
    if keys == {} then [] else var k :| k in keys; [k] + Listing(keys - {k})
  }

  /** Every payload can be walked in some order. */
  ghost function SomeVisit(j: Json): (o: Visit)
    ensures Visits(o, j)
    decreases j
  {
    match j
    case Arr(items) => List(seq(|items|, i requires 0 <= i < |items| => SomeVisit(items[i])))
    case Obj(fields) =>
      var keys := Listing(fields.Keys);
      Fields(keys, seq(|keys|, i requires 0 <= i < |keys| => SomeVisit(fields[keys[i]])))
    case _ => Leaf(j)
  }

  /** `ask` is the tokenizer for tenant `t`. */
  ghost predicate AsksTokenizer(ask: Oracle<Remote>, env: Env, t: string, weather: Weather) {
    forall s: Remote, token: string {:trigger Asked(env, s, t, token, weather(s.calls))} ::
      ask(s, token) == Asked(env, s, t, token, weather(s.calls))
  }

  /** The walk so far went well, from `s` to `s'`, and produced `values`. */
  ghost predicate WentWell<S>(ask: Oracle<S>, s: S, os: seq<Visit>, s': S, values: seq<Json>) {
    WalkAllBy(ask, s, os).state == s' && WalkAllBy(ask, s, os).result == Some(values)
  }

  /** One more visit that goes well. */
  lemma {:induction false} GoesWell<S>(ask: Oracle<S>, s: S, os: seq<Visit>, s': S, values: seq<Json>, o: Visit)
    requires WentWell(ask, s, os, s', values)
    ensures var w := WalkBy(ask, s', o);
      w.result.Some? ==> WentWell(ask, s, os + [o], w.state, values + [w.result.value])
    decreases |os|
  {
    var w := WalkBy(ask, s', o);
    if os == [] {
      assert ([o])[0] == o && ([o])[1..] == [];
      assert os + [o] == [o];
      if w.result.Some? {
        assert WalkAllBy(ask, w.state, []) == Outcome(w.state, 0, Some([]));
        assert [w.result.value] + [] == [] + [w.result.value];
      }
    } else {
      assert (os + [o])[0] == os[0] && (os + [o])[1..] == os[1..] + [o];
      var first := WalkBy(ask, s, os[0]);
      assert values == [first.result.value] + values[1..];
      GoesWell(ask, first.state, os[1..], s', values[1..], o);
      if w.result.Some? {
        assert [first.result.value] + (values[1..] + [w.result.value]) == values + [w.result.value];
      }
    }
  }

  /** One more visit that is refused stops the walk, whatever would come after it. */
  lemma {:induction false} Stops<S>(
    ask: Oracle<S>, s: S, os: seq<Visit>, s': S, values: seq<Json>, o: Visit, more: seq<Visit>)
    requires WentWell(ask, s, os, s', values) && WalkBy(ask, s', o).result.None?
    ensures var all := WalkAllBy(ask, s, os + [o] + more);
      all.state == WalkBy(ask, s', o).state && all.result.None?
    decreases |os|
  {
    var all := os + [o] + more;
    if os != [] {
      assert all[0] == os[0] && all[1..] == os[1..] + [o] + more;
      var first := WalkBy(ask, s, os[0]);
      Stops(ask, first.state, os[1..], s', values[1..], o, more);
    } else {
      assert all[0] == o;
    }
  }

  ghost function MoreItems(js: seq<Json>): (more: seq<Visit>)
    ensures |more| == |js| && forall k :: 0 <= k < |js| ==> Visits(more[k], js[k])
  {
    seq(|js|, k requires 0 <= k < |js| => SomeVisit(js[k]))
  }

  lemma VisitsSlice(js: seq<Json>, visits: seq<Visit>, visit: Visit)
    requires |visits| < |js| && Visits(visit, js[|visits|])
    requires forall k :: 0 <= k < |visits| ==> Visits(visits[k], js[k])
    ensures Visits(List(visits + [visit] + MoreItems(js[|visits| + 1..])), Arr(js))
  {
    var more := MoreItems(js[|visits| + 1..]);
    var all := visits + [visit] + more;
    forall k | 0 <= k < |all|
      ensures Visits(all[k], js[k])
    {
      if k > |visits| {
        assert all[k] == more[k - (|visits| + 1)];
        assert js[k] == js[|visits| + 1..][k - (|visits| + 1)];
      }
    }
  }

  /** The items before `i` were taken; the others are as they were. */
  ghost predicate Walking(js: seq<Json>, visits: seq<Visit>, now: seq<Json>, i: nat) {
    && |visits| == i <= |js| == |now| && now[i..] == js[i..]
    && forall k :: 0 <= k < i ==> Visits(visits[k], js[k])
  }

  lemma SliceGoesOn<S>(
    ask: Oracle<S>, s0: S, js: seq<Json>, visits: seq<Visit>, s: S, now: seq<Json>, i: nat, visit: Visit)
    requires Walking(js, visits, now, i) && i < |js| && WentWell(ask, s0, visits, s, now[..i])
    requires Visits(visit, now[i]) && WalkBy(ask, s, visit).result.Some?
    ensures var w := WalkBy(ask, s, visit); var now' := now[i := w.result.value];
      Walking(js, visits + [visit], now', i + 1) && WentWell(ask, s0, visits + [visit], w.state, now'[..i + 1])
  {
    var value := WalkBy(ask, s, visit).result.value;
    GoesWell(ask, s0, visits, s, now[..i], visit);
    assert now[i := value][..i + 1] == now[..i] + [value];
    assert now[i] == now[i..][0] == js[i..][0];
    assert now[i := value][i + 1..] == now[i..][1..] == js[i..][1..] == js[i + 1..];
  }

  lemma SliceStops<S>(
    ask: Oracle<S>, s0: S, js: seq<Json>, visits: seq<Visit>, s: S, now: seq<Json>, i: nat, visit: Visit)
    returns (o: Visit)
    requires Walking(js, visits, now, i) && i < |js| && WentWell(ask, s0, visits, s, now[..i])
    requires Visits(visit, now[i]) && WalkBy(ask, s, visit).result.None?
    ensures Visits(o, Arr(js))
    ensures WalkBy(ask, s0, o).state == WalkBy(ask, s, visit).state && WalkBy(ask, s0, o).result.None?
  {
    assert now[i] == now[i..][0] == js[i..][0];
    var more := MoreItems(js[i + 1..]);
    VisitsSlice(js, visits, visit);
    Stops(ask, s0, visits, s, now[..i], visit, more);
    o := List(visits + [visit] + more);
  }

  ghost function MoreEntries(j: Json, rest: seq<string>): (more: seq<Visit>)
    requires j.Obj? && forall k :: k in rest ==> k in j.fields
    ensures |more| == |rest| && forall i :: 0 <= i < |rest| ==> Visits(more[i], j.fields[rest[i]])
  {
    seq(|rest|, i requires 0 <= i < |rest| => SomeVisit(j.fields[rest[i]]))
  }

  /** The keys taken so far and how, out of `fields`. */
  ghost predicate Taken(fields: map<string, Json>, keys: seq<string>, visits: seq<Visit>, remaining: set<string>) {
    && remaining <= fields.Keys && |keys| == |visits| && Distinct(keys)
    && (forall k :: k in keys <==> k in fields && k !in remaining)
    && forall i :: 0 <= i < |keys| ==> keys[i] in fields && Visits(visits[i], fields[keys[i]])
  }

  datatype Progress = Progress(keys: seq<string>, visits: seq<Visit>, values: seq<Json>, now: map<string, Json>)

  /** `now` holds the value produced for each key taken, and the original under each key that remains. */
  ghost predicate Produced(
    fields: map<string, Json>, keys: seq<string>, values: seq<Json>, now: map<string, Json>, remaining: set<string>)
  {
    && |values| == |keys| && now.Keys == fields.Keys && remaining <= fields.Keys
    && (forall i :: 0 <= i < |keys| ==> keys[i] in now && now[keys[i]] == values[i])
    && (forall k :: k in remaining ==> now[k] == fields[k])
  }

  lemma TakesKey(
    fields: map<string, Json>, keys: seq<string>, visits: seq<Visit>, remaining: set<string>, key: string, visit: Visit)
    requires Taken(fields, keys, visits, remaining) && key in remaining && Visits(visit, fields[key])
    ensures Taken(fields, keys + [key], visits + [visit], remaining - {key})
  {
    forall k
      ensures k in keys + [key] <==> k in fields && k !in remaining - {key}
    {
      assert k in keys + [key] <==> k in keys || k == key;
    }
  }

  lemma VisitsDict(fields: map<string, Json>, keys: seq<string>, visits: seq<Visit>, remaining: set<string>)
    requires Taken(fields, keys, visits, remaining)
    ensures var rest := Listing(remaining);
      Visits(Fields(keys + rest, visits + MoreEntries(Obj(fields), rest)), Obj(fields))
  {
    var rest := Listing(remaining);
    var allKeys, all := keys + rest, visits + MoreEntries(Obj(fields), rest);
    forall k
      ensures k in allKeys <==> k in fields
    {
      assert k in allKeys <==> k in keys || k in rest;
    }
    forall i | 0 <= i < |all|
      ensures allKeys[i] in fields && Visits(all[i], fields[allKeys[i]])
    {
      if i >= |keys| {
        assert allKeys[i] == rest[i - |keys|];
      }
    }
    forall i, k | 0 <= i < k < |allKeys|
      ensures allKeys[i] != allKeys[k]
    {
      if i < |keys| <= k {
        assert allKeys[i] == keys[i] && allKeys[k] == rest[k - |keys|];
        assert keys[i] in keys && rest[k - |keys|] in rest;
      }
    }
  }

  /** How far a walk over a map that started on `s0` came: on `s`, with `remaining` to do. */
  ghost predicate Came<S>(ask: Oracle<S>, s0: S, fields: map<string, Json>, g: Progress, remaining: set<string>, s: S) {
    && Taken(fields, g.keys, g.visits, remaining) && Produced(fields, g.keys, g.values, g.now, remaining)
    && WentWell(ask, s0, g.visits, s, g.values)
  }

  lemma DictStarts<S>(ask: Oracle<S>, s: S, fields: map<string, Json>) returns (g: Progress)
    ensures Came(ask, s, fields, g, fields.Keys, s) && g.now == fields
  {
    g := Progress([], [], [], fields);
  }

  lemma DictStops<S>(
    ask: Oracle<S>, s0: S, fields: map<string, Json>, g: Progress, remaining: set<string>, s: S, key: string, visit: Visit)
    returns (o: Visit)
    requires Came(ask, s0, fields, g, remaining, s) && key in remaining && Visits(visit, g.now[key])
    requires WalkBy(ask, s, visit).result.None?
    ensures Visits(o, Obj(fields))
    ensures WalkBy(ask, s0, o).state == WalkBy(ask, s, visit).state && WalkBy(ask, s0, o).result.None?
  {
    TakesKey(fields, g.keys, g.visits, remaining, key, visit);
    var rest := Listing(remaining - {key});
    var more := MoreEntries(Obj(fields), rest);
    VisitsDict(fields, g.keys + [key], g.visits + [visit], remaining - {key});
    Stops(ask, s0, g.visits, s, g.values, visit, more);
    o := Fields(g.keys + [key] + rest, g.visits + [visit] + more);
  }

  lemma ProducesOne(
    fields: map<string, Json>, keys: seq<string>, values: seq<Json>, now: map<string, Json>, remaining: set<string>,
    key: string, value: Json)
    requires Produced(fields, keys, values, now, remaining) && key in remaining && key !in keys
    ensures Produced(fields, keys + [key], values + [value], now[key := value], remaining - {key})
  {
    assert forall i :: 0 <= i < |keys| ==> keys[i] in keys;
  }

  lemma DictGoesOn<S>(
    ask: Oracle<S>, s0: S, fields: map<string, Json>, g: Progress, remaining: set<string>, s: S, key: string, visit: Visit)
    returns (g': Progress)
    requires Came(ask, s0, fields, g, remaining, s) && key in remaining && Visits(visit, g.now[key])
    requires WalkBy(ask, s, visit).result.Some?
    ensures var w := WalkBy(ask, s, visit);
      Came(ask, s0, fields, g', remaining - {key}, w.state) && g'.now == g.now[key := w.result.value]
  {
    var value := WalkBy(ask, s, visit).result.value;
    TakesKey(fields, g.keys, g.visits, remaining, key, visit);
    GoesWell(ask, s0, g.visits, s, g.values, visit);
    ProducesOne(fields, g.keys, g.values, g.now, remaining, key, value);
    g' := Progress(g.keys + [key], g.visits + [visit], g.values + [value], g.now[key := value]);
  }

  lemma DictEnds<S>(ask: Oracle<S>, s0: S, fields: map<string, Json>, g: Progress, s: S) returns (o: Visit)
    requires Came(ask, s0, fields, g, {}, s)
    ensures Visits(o, Obj(fields)) && WalkBy(ask, s0, o).state == s && WalkBy(ask, s0, o).result == Some(Obj(g.now))
  {
    o := Fields(g.keys, g.visits);
    AssignOriginal(g.keys, g.values, g.now);
  }

  /** The HTTP client of the revealer; `calls` counts the detokenize requests it was asked for. */
  class Client {
    const tokenizer: Tokenizer
    var calls: nat

    constructor (tokenizer: Tokenizer)
      ensures this.tokenizer == tokenizer && calls == 0
    {
      this.tokenizer, calls := tokenizer, 0;
    }

    function State(): Remote
      reads this, tokenizer.db, tokenizer.redis
    {
      Remote(tokenizer.View(), calls)
    }

    method Detokenize(tenant: string, token: string, fate: Fate) returns (value: Option<string>)
      requires tokenizer.Valid()
      modifies this, tokenizer.db, tokenizer.redis`keys
      ensures (State(), value) == Asked(tokenizer.env, old(State()), tenant, token, fate)
    {
      value := None;
      if !fate.net.Unsent? {
        value := Post(tenant, token, fate);
      }
      calls := calls + 1;
    }

    /** The request reaches the tokenizer. */
    method Post(tenant: string, token: string, fate: Fate) returns (value: Option<string>)
      requires tokenizer.Valid() && !fate.net.Unsent?
      modifies tokenizer.db, tokenizer.redis`keys
      ensures var (s', value') := Asked(tokenizer.env, old(State()), tenant, token, fate);
        s'.store == tokenizer.View() && value' == value
    {
      var reply := tokenizer.ServeHTTP(Request.Detokenize(tenant, token), fate.script);
      return if fate.net.Delivered? && reply.Revealed? then Some(reply.value) else None;
    }
  }

  class Revealer {
    const client: Client

    constructor (client: Client)
      ensures this.client == client
    {
      this.client := client;
    }

    /** The payload is a tree that shares nothing with the tokenizer. */
    ghost predicate Fits(v: Value, j: Json, f: Foot)
      reads Objects(f)
    {
      Spells(v, j, f) && Apart(f)
    }

    ghost predicate Apart(f: Foot) {
      && Separate(f)
      && client !in Objects(f) && client.tokenizer.db !in Objects(f) && client.tokenizer.redis !in Objects(f)
    }

    ghost predicate Ready(ask: Oracle<Remote>, tenant: string, weather: Weather) {
      client.tokenizer.Valid() && AsksTokenizer(ask, client.tokenizer.env, tenant, weather)
    }

    /** The store and the number of calls are those the walk `w` ends with, and `ok` says whether it got through. */
    ghost predicate Went(w: Outcome<Remote, Json>, ok: bool)
      reads client, client.tokenizer.db, client.tokenizer.redis
    {
      client.State() == w.state && (ok <==> w.result.Some?)
    }

    /** The store, the number of calls and the payload in memory are those the walk `w` ends with. */
    ghost predicate Ends(w: Outcome<Remote, Json>, result: Option<Value>, f: Foot)
      reads client, client.tokenizer.db, client.tokenizer.redis, Objects(f)
    {
      Went(w, result.Some?) && (result.Some? ==> Spells(result.value, w.result.value, f))
    }

    method ScanAndReveal(
      tenant: string, payload: Value, weather: Weather, ghost ask: Oracle<Remote>, ghost j: Json, ghost f: Foot)
      returns (result: Option<Value>, ghost o: Visit)
      requires Ready(ask, tenant, weather) && Fits(payload, j, f)
      modifies Objects(f), client, client.tokenizer.db, client.tokenizer.redis`keys
      ensures Visits(o, j) && Ends(WalkBy(ask, old(client.State()), o), result, f)
      decreases j, 2
    {
      match payload
      case Dict(node) =>
        result, o := ScanDict(tenant, node, weather, ask, j, f);
      case Slice(items) =>
        result, o := ScanSlice(tenant, items, weather, ask, j, f);
      case Scalar(Str(text)) =>
        o := Leaf(j);
        if IsTokenShaped(text) {
          var value := client.Detokenize(tenant, text, weather(client.calls));
          result := if value.Some? then Some(Scalar(Str(value.value))) else None;
        } else {
          result := Some(payload);
        }
      case Scalar(_) =>
        o := Leaf(j);
        result := Some(payload);
    }

    /** One round of the loop over a slice. */
    method RevealItem(
      tenant: string, items: array<Value>, i: nat, weather: Weather,
      ghost ask: Oracle<Remote>, ghost js: seq<Json>, ghost f: Foot)
      returns (ok: bool, ghost o: Visit)
      requires Ready(ask, tenant, weather) && i < |js| && Fits(Slice(items), Arr(js), f)
      modifies Objects(f), client, client.tokenizer.db, client.tokenizer.redis`keys
      ensures Visits(o, js[i])
      ensures Went(WalkBy(ask, old(client.State()), o), ok)
      ensures ok ==> Spells(Slice(items), Arr(js[i := WalkBy(ask, old(client.State()), o).result.value]), f)
      decreases js[i], 3
    {
      PartWithin(f, i);
      AllAllocated(Objects(f));
      var revealed;
      revealed, o := ScanAndReveal(tenant, items[i], weather, ask, js[i], f.parts[i]);
      OthersStay(SliceSpot(items, js, f, i));
      ok := revealed.Some?;
      if ok {
        PutItem(items, i, revealed.value, js, WalkBy(ask, old(client.State()), o).result.value, f);
      }
    }

    /** How far the loop over a slice came: `now` is what the slice reads as. */
    ghost predicate SliceSoFar(
      s0: Remote, items: array<Value>, i: nat, ask: Oracle<Remote>, js: seq<Json>, f: Foot, visits: seq<Visit>,
      now: seq<Json>)
      reads client, client.tokenizer.db, client.tokenizer.redis, Objects(f)
    {
      && Walking(js, visits, now, i) && Spells(Slice(items), Arr(now), f)
      && WentWell(ask, s0, visits, client.State(), now[..i])
    }

    /** Reveals item `i`; `o` completes the walk when that stops it. */
    method TakeItem(
      tenant: string, items: array<Value>, i: nat, weather: Weather,
      ghost ask: Oracle<Remote>, ghost js: seq<Json>, ghost f: Foot,
      ghost s0: Remote, ghost visits: seq<Visit>, ghost now: seq<Json>)
      returns (ok: bool, ghost o: Visit, ghost visits': seq<Visit>, ghost now': seq<Json>)
      requires Ready(ask, tenant, weather) && Apart(f) && i < |js| && SliceSoFar(s0, items, i, ask, js, f, visits, now)
      modifies Objects(f), client, client.tokenizer.db, client.tokenizer.redis`keys
      ensures ok ==> SliceSoFar(s0, items, i + 1, ask, js, f, visits', now')
      ensures !ok ==> Visits(o, Arr(js)) && Ends(WalkBy(ask, s0, o), None, f)
      decreases Arr(js), 0
    {
      ghost var s := client.State();
      visits', now' := visits, now;
      ok, o := RevealItem(tenant, items, i, weather, ask, now, f);
      if ok {
        SliceGoesOn(ask, s0, js, visits, s, now, i, o);
        visits', now' := visits + [o], now[i := WalkBy(ask, s, o).result.value];
      } else {
        o := SliceStops(ask, s0, js, visits, s, now, i, o);
      }
    }

    method ScanSlice(
      tenant: string, items: array<Value>, weather: Weather, ghost ask: Oracle<Remote>, ghost j: Json, ghost f: Foot)
      returns (result: Option<Value>, ghost o: Visit)
      requires Ready(ask, tenant, weather) && Fits(Slice(items), j, f)
      modifies Objects(f), client, client.tokenizer.db, client.tokenizer.redis`keys
      ensures Visits(o, j) && Ends(WalkBy(ask, old(client.State()), o), result, f)
      decreases j, 1
    {
      ghost var s0 := client.State();
      ghost var visits: seq<Visit>, now := [], j.items;
      for i := 0 to items.Length
        invariant SliceSoFar(s0, items, i, ask, j.items, f, visits, now)
      {
        var ok;
        ok, o, visits, now := TakeItem(tenant, items, i, weather, ask, j.items, f, s0, visits, now);
        if !ok {
          return None, o;
        }
      }
      assert now[..items.Length] == now;
      o := List(visits);
      return Some(Slice(items)), o;
    }

    /** One round of the loop over a map. */
    method RevealEntry(
      tenant: string, node: DictNode, key: string, weather: Weather,
      ghost ask: Oracle<Remote>, ghost js: map<string, Json>, ghost f: Foot)
      returns (ok: bool, ghost o: Visit)
      requires Ready(ask, tenant, weather) && key in js && Fits(Dict(node), Obj(js), f)
      modifies Objects(f), client, client.tokenizer.db, client.tokenizer.redis`keys
      ensures Visits(o, js[key])
      ensures Went(WalkBy(ask, old(client.State()), o), ok)
      ensures ok ==> Spells(Dict(node), Obj(js[key := WalkBy(ask, old(client.State()), o).result.value]), f)
      ensures node.fields.Keys == js.Keys
      decreases js[key], 3
    {
      EntryWithin(f, key);
      AllAllocated(Objects(f));
      var revealed;
      revealed, o := ScanAndReveal(tenant, node.fields[key], weather, ask, js[key], f.entries[key]);
      OtherEntriesStay(DictSpot(node, js, f, key));
      ok := revealed.Some?;
      if ok {
        PutEntry(node, key, revealed.value, js, WalkBy(ask, old(client.State()), o).result.value, f);
      }
    }

    /** How far the loop over a map came. */
    ghost predicate DictSoFar(
      s0: Remote, node: DictNode, remaining: set<string>, ask: Oracle<Remote>, fields: map<string, Json>, f: Foot, g: Progress)
      reads client, client.tokenizer.db, client.tokenizer.redis, Objects(f)
    {
      Spells(Dict(node), Obj(g.now), f) && Came(ask, s0, fields, g, remaining, client.State())
    }

    /** Reveals the entry of a key that remains; `o` completes the walk when that stops it. */
    method TakeEntry(
      tenant: string, node: DictNode, key: string, weather: Weather, ghost remaining: set<string>,
      ghost ask: Oracle<Remote>, ghost fields: map<string, Json>, ghost f: Foot, ghost s0: Remote, ghost g: Progress)
      returns (ok: bool, ghost o: Visit, ghost g': Progress)
      requires Ready(ask, tenant, weather) && Apart(f) && key in remaining
      requires DictSoFar(s0, node, remaining, ask, fields, f, g)
      modifies Objects(f), client, client.tokenizer.db, client.tokenizer.redis`keys
      ensures ok ==> DictSoFar(s0, node, remaining - {key}, ask, fields, f, g')
      ensures !ok ==> Visits(o, Obj(fields)) && Ends(WalkBy(ask, s0, o), None, f)
      decreases Obj(fields), 0
    {
      ghost var s := client.State();
      g' := g;
      ok, o := RevealEntry(tenant, node, key, weather, ask, g.now, f);
      if ok {
        g' := DictGoesOn(ask, s0, fields, g, remaining, s, key, o);
      } else {
        o := DictStops(ask, s0, fields, g, remaining, s, key, o);
      }
    }

    /** Each key is taken once, in any order. */
    method ScanDict(
      tenant: string, node: DictNode, weather: Weather, ghost ask: Oracle<Remote>, ghost j: Json, ghost f: Foot)
      returns (result: Option<Value>, ghost o: Visit)
      requires Ready(ask, tenant, weather) && Fits(Dict(node), j, f)
      modifies Objects(f), client, client.tokenizer.db, client.tokenizer.redis`keys
      ensures Visits(o, j) && Ends(WalkBy(ask, old(client.State()), o), result, f)
      decreases j, 1
    {
      ghost var s0 := client.State();
      ghost var g := DictStarts(ask, s0, j.fields);
      var remaining := node.fields.Keys;
      while remaining != {}
        invariant DictSoFar(s0, node, remaining, ask, j.fields, f, g)
        decreases remaining
      {
        var key :| key in remaining;
        var ok;
        ok, o, g := TakeEntry(tenant, node, key, weather, remaining, ask, j.fields, f, s0, g);
        if !ok {
          return None, o;
        }
        remaining := remaining - {key};
      }
      o := DictEnds(ask, s0, j.fields, g, client.State());
      return Some(Dict(node)), o;
    }
  }
}
