/**
  A walk over a JSON payload that replaces each token-shaped string by what an oracle answers for it and stops at the
  first refusal. Go visits the keys of a map in any order; a `Visit` is a payload with the order made explicit. Asking
  can change the oracle's state, and nothing else is said about the oracle: it can be the tokenizer, alone or with other
  requests in between, over a network that loses messages.
 */
module Walks {
  import opened Options
  import opened Identifiers
  import opened Json

  datatype Visit =
    | Leaf(value: Json)
    | List(items: seq<Visit>)
    | Fields(keys: seq<string>, items: seq<Visit>)

  ghost predicate Distinct(keys: seq<string>) {
    forall i, j :: 0 <= i < j < |keys| ==> keys[i] != keys[j]
  }

  /** `o` is one way to walk `j`. */
  ghost predicate Visits(o: Visit, j: Json)
    decreases o
  {
    match o
    case Leaf(value) => j == value && !j.Arr? && !j.Obj?
    case List(items) => j.Arr? && |items| == |j.items| && forall i :: 0 <= i < |items| ==> Visits(items[i], j.items[i])
    case Fields(keys, items) =>
      && j.Obj? && |items| == |keys| && Distinct(keys)
      && (forall k :: k in keys <==> k in j.fields)
      && forall i :: 0 <= i < |items| ==> keys[i] in j.fields && Visits(items[i], j.fields[keys[i]])
  }

  // The walk

  /** How a walk ended: the state it left, the calls it made, and the result if every call was answered. */
  datatype Outcome<S, T> = Outcome(state: S, calls: nat, result: Option<T>)

  type Oracle<!S> = (S, string) -> (S, Option<string>)

  function WalkBy<S>(ask: Oracle<S>, s: S, o: Visit): Outcome<S, Json>
    decreases o
  {
    match o
    case Leaf(Str(text)) =>
      if IsTokenShaped(text) then
        var (s', value) := ask(s, text);
        Outcome(s', 1, if value.Some? then Some(Str(value.value)) else None)
      else Outcome(s, 0, Some(Str(text)))
    case Leaf(value) => Outcome(s, 0, Some(value))
    case List(items) =>
      var r := WalkAllBy(ask, s, items);
      Outcome(r.state, r.calls, if r.result.Some? then Some(Arr(r.result.value)) else None)
    case Fields(keys, items) =>
      var r := WalkAllBy(ask, s, items);
      Outcome(r.state, r.calls, if r.result.Some? then Some(Obj(Assign(keys, r.result.value))) else None)
  }

  function WalkAllBy<S>(ask: Oracle<S>, s: S, os: seq<Visit>): Outcome<S, seq<Json>>
    decreases os
  {
    if os == [] then Outcome(s, 0, Some([]))
    else
      var first := WalkBy(ask, s, os[0]);
      if first.result.None? then Outcome(first.state, first.calls, None)
      else
        var rest := WalkAllBy(ask, first.state, os[1..]);
        Outcome(rest.state, first.calls + rest.calls,
                if rest.result.Some? then Some([first.result.value] + rest.result.value) else None)
  }

  /** The values put under their keys. */
  function Assign(keys: seq<string>, values: seq<Json>): map<string, Json> {
    if keys == [] || values == [] then map[] else Assign(keys[1..], values[1..])[keys[0] := values[0]]
  }

  // The tokens met on the way

  function TokensOf(o: Visit): seq<string>
    decreases o
  {
    match o
    case Leaf(Str(text)) => if IsTokenShaped(text) then [text] else []
    case Leaf(_) => []
    case List(items) => TokensOfAll(items)
    case Fields(_, items) => TokensOfAll(items)
  }

  function TokensOfAll(os: seq<Visit>): seq<string>
    decreases os
  {
    if os == [] then [] else TokensOf(os[0]) + TokensOfAll(os[1..])
  }

  // A walk asks for the token leaves one after the other

  /** Asks for the tokens in order up to the first refusal; the number is how many were answered. */
  function AskAll<S>(ask: Oracle<S>, s: S, toks: seq<string>): (r: (S, nat))
    ensures r.1 <= |toks|
    decreases |toks|
  {
    if toks == [] then (s, 0)
    else
      var (s', value) := ask(s, toks[0]);
      if value.None? then (s', 0)
      else var (s'', n) := AskAll(ask, s', toks[1..]); (s'', n + 1)
  }

  lemma AskAllStep<S>(ask: Oracle<S>, s: S, toks: seq<string>)
    requires toks != []
    ensures var (s', value) := ask(s, toks[0]);
      AskAll(ask, s, toks)
        == if value.None? then (s', 0) else (AskAll(ask, s', toks[1..]).0, AskAll(ask, s', toks[1..]).1 + 1)
  {
  }

  lemma {:induction false} AskAllAppend<S>(ask: Oracle<S>, s: S, a: seq<string>, b: seq<string>)
    ensures var (s', n) := AskAll(ask, s, a);
      AskAll(ask, s, a + b) == if n < |a| then (s', n) else (AskAll(ask, s', b).0, n + AskAll(ask, s', b).1)
    decreases |a|
  {
    if a == [] {
      assert a + b == b;
    } else {
      assert (a + b)[0] == a[0] && (a + b)[1..] == a[1..] + b;
      var (s', value) := ask(s, a[0]);
      if value.Some? {
        AskAllAppend(ask, s', a[1..], b);
      }
    }
  }

  /** The walk that ended as `r` asked for `toks` in this order, and for nothing after the first refusal. */
  ghost predicate Follows<S, T>(r: Outcome<S, T>, ask: Oracle<S>, s: S, toks: seq<string>) {
    var (s', n) := AskAll(ask, s, toks);
    && r.state == s' && (r.result.Some? <==> n == |toks|)
    && r.calls == if n == |toks| then n else n + 1
  }

  lemma {:induction false} WalkAsksLeaves<S>(ask: Oracle<S>, s: S, o: Visit)
    ensures Follows(WalkBy(ask, s, o), ask, s, TokensOf(o))
    decreases o
  {
    match o
    case Leaf(Str(text)) =>
      if IsTokenShaped(text) {
        assert AskAll(ask, ask(s, text).0, []) == (ask(s, text).0, 0);
      }
    case Leaf(_) =>
    case List(items) => WalkAllAsksLeaves(ask, s, items);
    case Fields(_, items) => WalkAllAsksLeaves(ask, s, items);
  }

  lemma {:induction false} WalkAllAsksLeaves<S>(ask: Oracle<S>, s: S, os: seq<Visit>)
    ensures Follows(WalkAllBy(ask, s, os), ask, s, TokensOfAll(os))
    decreases os
  {
    if os != [] {
      WalkAsksLeaves(ask, s, os[0]);
      AskAllAppend(ask, s, TokensOf(os[0]), TokensOfAll(os[1..]));
      WalkAllAsksLeaves(ask, AskAll(ask, s, TokensOf(os[0])).0, os[1..]);
    }
  }

  // The token leaves of a payload

  ghost function LeafBag(j: Json): multiset<string>
    decreases j
  {
    match j
    case Str(text) => if IsTokenShaped(text) then multiset{text} else multiset{}
    case Arr(items) => ItemsBag(j, |items|)
    case Obj(fields) => FieldsBag(j, fields.Keys)
    case _ => multiset{}
  }

  ghost function ItemsBag(j: Json, n: nat): multiset<string>
    requires j.Arr? && n <= |j.items|
    decreases j, n
  {
    if n == 0 then multiset{} else ItemsBag(j, n - 1) + LeafBag(j.items[n - 1])
  }

  ghost function FieldsBag(j: Json, keys: set<string>): multiset<string>
    requires j.Obj? && keys <= j.fields.Keys
    decreases j, |keys|
  {
    if keys == {} then multiset{}
    else var k :| k in keys; FieldsBag(j, keys - {k}) + LeafBag(j.fields[k])
  }

  /** Any key can be counted first. */
  lemma {:induction false} FieldsBagRemove(j: Json, keys: set<string>, k: string)
    requires j.Obj? && keys <= j.fields.Keys && k in keys
    ensures FieldsBag(j, keys) == FieldsBag(j, keys - {k}) + LeafBag(j.fields[k])
    decreases |keys|
  {
    var first :| first in keys && FieldsBag(j, keys) == FieldsBag(j, keys - {first}) + LeafBag(j.fields[first]);
    if first != k {
      FieldsBagRemove(j, keys - {first}, k);
      FieldsBagRemove(j, keys - {k}, first);
      assert keys - {first} - {k} == keys - {k} - {first};
    }
  }

  /** Whatever the order, the walk meets each token leaf once. */
  lemma {:induction false} VisitMeetsLeaves(o: Visit, j: Json)
    requires Visits(o, j)
    ensures multiset(TokensOf(o)) == LeafBag(j)
    decreases o
  {
    match o
    case Leaf(_) =>
    case List(items) =>
      VisitMeetsItems(items, j);
    case Fields(keys, items) =>
      VisitMeetsFields(keys, items, j, j.fields.Keys);
  }

  lemma {:induction false} TokensOfAppend(os: seq<Visit>, last: Visit)
    ensures TokensOfAll(os + [last]) == TokensOfAll(os) + TokensOf(last)
    decreases |os|
  {
    var all := os + [last];
    if os == [] {
      assert all[0] == last && all[1..] == [];
    } else {
      assert all[0] == os[0] && all[1..] == os[1..] + [last];
      TokensOfAppend(os[1..], last);
    }
  }

  lemma {:induction false} VisitMeetsItems(os: seq<Visit>, j: Json)
    requires j.Arr? && |os| <= |j.items| && forall i :: 0 <= i < |os| ==> Visits(os[i], j.items[i])
    ensures multiset(TokensOfAll(os)) == ItemsBag(j, |os|)
    decreases os
  {
    if os != [] {
      var n := |os| - 1;
      assert os[..n] + [os[n]] == os;
      TokensOfAppend(os[..n], os[n]);
      VisitMeetsItems(os[..n], j);
      VisitMeetsLeaves(os[n], j.items[n]);
    }
  }

  lemma {:induction false} VisitMeetsFields(keys: seq<string>, os: seq<Visit>, j: Json, rest: set<string>)
    requires j.Obj? && |keys| == |os| && Distinct(keys) && rest <= j.fields.Keys
    requires forall k :: k in keys <==> k in rest
    requires forall i :: 0 <= i < |os| ==> keys[i] in j.fields && Visits(os[i], j.fields[keys[i]])
    ensures multiset(TokensOfAll(os)) == FieldsBag(j, rest)
    decreases os
  {
    if keys == [] {
      assert rest == {};
    } else {
      var rest' := rest - {keys[0]};
      forall k
        ensures k in keys[1..] <==> k in rest'
      {
        assert k in keys <==> k == keys[0] || k in keys[1..];
      }
      VisitMeetsLeaves(os[0], j.fields[keys[0]]);
      VisitMeetsFields(keys[1..], os[1..], j, rest');
      FieldsBagRemove(j, rest, keys[0]);
    }
  }

  lemma {:induction false} AssignAt(keys: seq<string>, values: seq<Json>)
    requires |keys| == |values| && Distinct(keys)
    ensures forall k :: k in Assign(keys, values) <==> k in keys
    ensures forall i :: 0 <= i < |keys| ==> keys[i] in Assign(keys, values) && Assign(keys, values)[keys[i]] == values[i]
    decreases |keys|
  {
    if keys != [] {
      AssignAt(keys[1..], values[1..]);
      var rest := Assign(keys[1..], values[1..]);
      forall i | 0 <= i < |keys|
        ensures keys[i] in Assign(keys, values) && Assign(keys, values)[keys[i]] == values[i]
      {
        if i > 0 {
          assert keys[1..][i - 1] == keys[i] && values[1..][i - 1] == values[i];
          assert rest[keys[1..][i - 1]] == values[1..][i - 1];
        }
      }
      forall k
        ensures k in Assign(keys, values) <==> k in keys
      {
        assert k in keys <==> k == keys[0] || k in keys[1..];
      }
    }
  }

  lemma AssignOriginal(keys: seq<string>, parts: seq<Json>, fields: map<string, Json>)
    requires |keys| == |parts| && Distinct(keys) && forall k :: k in keys <==> k in fields
    requires forall i :: 0 <= i < |keys| ==> keys[i] in fields && parts[i] == fields[keys[i]]
    ensures Assign(keys, parts) == fields
  {
    AssignAt(keys, parts);
    forall k | k in fields
      ensures k in Assign(keys, parts) && Assign(keys, parts)[k] == fields[k]
    {
      var i :| 0 <= i < |keys| && keys[i] == k;
    }
  }

  // What the walk makes of a payload

  /** `r` is `j` with each token leaf replaced by a string that `ok` allows for it, and nothing else changed. */
  ghost predicate Replaced(ok: (string, string) -> bool, j: Json, r: Json)
    decreases j
  {
    match j
    case Str(text) => if IsTokenShaped(text) then r.Str? && ok(text, r.text) else r == j
    case Arr(items) => r.Arr? && |r.items| == |items| && forall i :: 0 <= i < |items| ==> Replaced(ok, items[i], r.items[i])
    case Obj(fields) =>
      r.Obj? && r.fields.Keys == fields.Keys && forall k :: k in fields ==> Replaced(ok, fields[k], r.fields[k])
    case _ => r == j
  }

  lemma {:induction false} ReplacedWeaker(ok: (string, string) -> bool, ok': (string, string) -> bool, j: Json, r: Json)
    requires Replaced(ok, j, r) && forall x, y :: ok(x, y) ==> ok'(x, y)
    ensures Replaced(ok', j, r)
    decreases j
  {
    match j
    case Arr(items) =>
      forall i | 0 <= i < |items|
        ensures Replaced(ok', items[i], r.items[i])
      {
        ReplacedWeaker(ok, ok', items[i], r.items[i]);
      }
    case Obj(fields) =>
      forall k | k in fields
        ensures Replaced(ok', fields[k], r.fields[k])
      {
        ReplacedWeaker(ok, ok', fields[k], r.fields[k]);
      }
    case _ =>
  }

  /** Which answers are right for a token, as of a state of the oracle. */
  type Judge<!S> = (S, string, string) -> bool

  function AsOf<S>(ok: Judge<S>, s: S): (string, string) -> bool {
    (token, value) => ok(s, token, value)
  }

  /** What is right in `s` is right in `s'`. */
  ghost predicate StaysRight<S(!new)>(ok: Judge<S>, s: S, s': S) {
    forall x, y :: ok(s, x, y) ==> ok(s', x, y)
  }

  /** `inv` holds of every state the oracle gets to, in such a state it only answers what is right, and that stays right. */
  ghost predicate AnswersRight<S(!new)>(ask: Oracle<S>, inv: S -> bool, ok: Judge<S>) {
    forall s, tok {:trigger ask(s, tok)} :: inv(s) ==>
      && inv(ask(s, tok).0) && StaysRight(ok, s, ask(s, tok).0)
      && (ask(s, tok).1.Some? ==> ok(ask(s, tok).0, tok, ask(s, tok).1.value))
  }

  lemma {:induction false} WalkIsRight<S(!new)>(ask: Oracle<S>, inv: S -> bool, ok: Judge<S>, s: S, o: Visit, j: Json)
    requires AnswersRight(ask, inv, ok) && inv(s) && Visits(o, j)
    ensures var r := WalkBy(ask, s, o);
      && inv(r.state) && StaysRight(ok, s, r.state)
      && (r.result.Some? ==> Replaced(AsOf(ok, r.state), j, r.result.value))
    decreases o
  {
    match o
    case Leaf(Str(text)) =>
      if IsTokenShaped(text) {
        var _ := ask(s, text);
      }
    case Leaf(_) =>
    case List(items) =>
      WalkAllIsRight(ask, inv, ok, s, items, j.items);
    case Fields(keys, items) =>
      var parts := seq(|keys|, i requires 0 <= i < |keys| => j.fields[keys[i]]);
      WalkAllIsRight(ask, inv, ok, s, items, parts);
      var r := WalkAllBy(ask, s, items);
      if r.result.Some? {
        AssignReplaces(AsOf(ok, r.state), keys, parts, r.result.value, j);
      }
  }

  lemma {:induction false} WalkAllIsRight<S(!new)>(
    ask: Oracle<S>, inv: S -> bool, ok: Judge<S>, s: S, os: seq<Visit>, js: seq<Json>)
    requires AnswersRight(ask, inv, ok) && inv(s)
    requires |os| == |js| && forall i :: 0 <= i < |os| ==> Visits(os[i], js[i])
    ensures var r := WalkAllBy(ask, s, os);
      && inv(r.state) && StaysRight(ok, s, r.state)
      && (r.result.Some? ==>
            |r.result.value| == |js| && forall i :: 0 <= i < |js| ==> Replaced(AsOf(ok, r.state), js[i], r.result.value[i]))
    decreases os
  {
    if os != [] {
      var first := WalkBy(ask, s, os[0]);
      WalkIsRight(ask, inv, ok, s, os[0], js[0]);
      if first.result.Some? {
        WalkAllIsRight(ask, inv, ok, first.state, os[1..], js[1..]);
        var rest := WalkAllBy(ask, first.state, os[1..]);
        ReplacedWeaker(AsOf(ok, first.state), AsOf(ok, rest.state), js[0], first.result.value);
      }
    }
  }

  /** `inv` holds of every state the oracle gets to, and in such a state it only answers what `ok` allows. */
  ghost predicate Answers<S(!new)>(ask: Oracle<S>, inv: S -> bool, ok: (string, string) -> bool) {
    forall s, tok {:trigger ask(s, tok)} :: inv(s) ==>
      inv(ask(s, tok).0) && (ask(s, tok).1.Some? ==> ok(tok, ask(s, tok).1.value))
  }

  lemma WalkReplaces<S(!new)>(ask: Oracle<S>, inv: S -> bool, ok: (string, string) -> bool, s: S, o: Visit, j: Json)
    requires Answers(ask, inv, ok) && inv(s) && Visits(o, j)
    ensures inv(WalkBy(ask, s, o).state)
    ensures WalkBy(ask, s, o).result.Some? ==> Replaced(ok, j, WalkBy(ask, s, o).result.value)
  {
    var always: Judge<S> := (s, token, value) => ok(token, value);
    WalkIsRight(ask, inv, always, s, o, j);
    var r := WalkBy(ask, s, o);
    if r.result.Some? {
      ReplacedWeaker(AsOf(always, r.state), ok, j, r.result.value);
    }
  }

  lemma AssignReplaces(ok: (string, string) -> bool, keys: seq<string>, parts: seq<Json>, values: seq<Json>, j: Json)
    requires j.Obj? && Distinct(keys) && |keys| == |values| == |parts|
    requires forall k :: k in keys <==> k in j.fields
    requires forall i :: 0 <= i < |keys| ==>
      keys[i] in j.fields && parts[i] == j.fields[keys[i]] && Replaced(ok, parts[i], values[i])
    ensures Replaced(ok, j, Obj(Assign(keys, values)))
  {
    AssignAt(keys, values);
    forall k | k in j.fields
      ensures k in Assign(keys, values) && Replaced(ok, j.fields[k], Assign(keys, values)[k])
    {
      var i :| 0 <= i < |keys| && keys[i] == k;
    }
  }

  function NoToken(): (string, string) -> bool {
    (_, value) => !IsTokenShaped(value)
  }

  /** The same keys and lengths, the same leaves except that token leaves became strings that are no tokens. */
  ghost predicate SameShape(j: Json, r: Json) {
    Replaced(NoToken(), j, r)
  }

  ghost predicate TokenFree(j: Json)
    decreases j
  {
    match j
    case Str(text) => !IsTokenShaped(text)
    case Arr(items) => forall i :: 0 <= i < |items| ==> TokenFree(items[i])
    case Obj(fields) => forall k :: k in fields ==> TokenFree(fields[k])
    case _ => true
  }

  lemma {:induction false} ShapedIsTokenFree(j: Json, r: Json)
    requires SameShape(j, r)
    ensures TokenFree(r)
    decreases j
  {
    match j
    case Arr(items) =>
      forall i | 0 <= i < |items|
        ensures TokenFree(r.items[i])
      {
        ShapedIsTokenFree(items[i], r.items[i]);
      }
    case Obj(fields) =>
      forall k | k in fields
        ensures TokenFree(r.fields[k])
      {
        ShapedIsTokenFree(fields[k], r.fields[k]);
      }
    case _ =>
  }

  /**
    Whatever the oracle is, as long as it never answers with a token: a walk that succeeds leaves keys, lengths and all
    other leaves as they were and no token-shaped string, and made one call for each token leaf; a walk that fails made at
    most that many.
   */
  lemma WalkKeepsShape<S(!new)>(ask: Oracle<S>, inv: S -> bool, s: S, o: Visit, j: Json)
    requires Answers(ask, inv, NoToken()) && inv(s) && Visits(o, j)
    ensures var r := WalkBy(ask, s, o);
      && inv(r.state) && r.calls <= |LeafBag(j)|
      && (r.result.Some? ==> SameShape(j, r.result.value) && TokenFree(r.result.value) && r.calls == |LeafBag(j)|)
  {
    WalkReplaces(ask, inv, NoToken(), s, o, j);
    WalkAsksLeaves(ask, s, o);
    VisitMeetsLeaves(o, j);
    assert |multiset(TokensOf(o))| == |TokensOf(o)|;
    var r := WalkBy(ask, s, o);
    if r.result.Some? {
      ShapedIsTokenFree(j, r.result.value);
    }
  }

  /** A payload without tokens comes back as it is, with no call made, whatever the oracle is. */
  lemma {:induction false} TokenFreeIsUntouched<S>(ask: Oracle<S>, s: S, j: Json, o: Visit)
    requires TokenFree(j) && Visits(o, j)
    ensures WalkBy(ask, s, o) == Outcome(s, 0, Some(j))
    decreases o
  {
    match o
    case Leaf(_) =>
    case List(items) => TokenFreeAllUntouched(ask, s, j.items, items);
    case Fields(keys, items) =>
      var parts := seq(|keys|, i requires 0 <= i < |keys| => j.fields[keys[i]]);
      TokenFreeAllUntouched(ask, s, parts, items);
      AssignOriginal(keys, parts, j.fields);
  }

  lemma {:induction false} TokenFreeAllUntouched<S>(ask: Oracle<S>, s: S, js: seq<Json>, os: seq<Visit>)
    requires |os| == |js| && forall i :: 0 <= i < |os| ==> Visits(os[i], js[i]) && TokenFree(js[i])
    ensures WalkAllBy(ask, s, os) == Outcome(s, 0, Some(js))
    decreases os
  {
    if os != [] {
      TokenFreeIsUntouched(ask, s, js[0], os[0]);
      TokenFreeAllUntouched(ask, s, js[1..], os[1..]);
      assert [js[0]] + js[1..] == js;
    } else {
      assert js == [];
    }
  }
}
