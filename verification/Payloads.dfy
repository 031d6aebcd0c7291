/**
  A decoded payload as it lies in memory: maps and slices are objects that are updated in place. A `Foot` names the
  objects of one payload as a tree, which is what decoding JSON text produces.
 */
module Payloads {
  import opened Json

  datatype Value = Scalar(json: Json) | Slice(items: array<Value>) | Dict(node: DictNode)

  class DictNode {
    var fields: map<string, Value>
  }

  datatype Foot = Flat | SliceAt(items: array<Value>, parts: seq<Foot>) | DictAt(node: DictNode, entries: map<string, Foot>)

  ghost function Objects(f: Foot): set<object>
    decreases f
  {
    match f
    case Flat => {}
    case SliceAt(items, parts) => {items as object} + set i, x | 0 <= i < |parts| && x in Objects(parts[i]) :: x
    case DictAt(node, entries) => {node as object} + set k, x | k in entries && x in Objects(entries[k]) :: x
  }

  lemma PartHas(f: Foot, i: nat, x: object)
    requires f.SliceAt? && i < |f.parts| && x in Objects(f.parts[i])
    ensures x in Objects(f)
  {
    var inner := set i, x | 0 <= i < |f.parts| && x in Objects(f.parts[i]) :: x;
    assert x in inner;
    assert Objects(f) == {f.items as object} + inner;
  }

  lemma PartWithin(f: Foot, i: nat)
    requires f.SliceAt? && i < |f.parts|
    ensures Objects(f.parts[i]) <= Objects(f)
  {
    forall x | x in Objects(f.parts[i])
      ensures x in Objects(f)
    {
      PartHas(f, i, x);
    }
  }

  lemma EntryHas(f: Foot, k: string, x: object)
    requires f.DictAt? && k in f.entries && x in Objects(f.entries[k])
    ensures x in Objects(f)
  {
    var inner := set k, x | k in f.entries && x in Objects(f.entries[k]) :: x;
    assert x in inner;
    assert Objects(f) == {f.node as object} + inner;
  }

  lemma EntryWithin(f: Foot, k: string)
    requires f.DictAt? && k in f.entries
    ensures Objects(f.entries[k]) <= Objects(f)
  {
    forall x | x in Objects(f.entries[k])
      ensures x in Objects(f)
    {
      EntryHas(f, k, x);
    }
  }

  /** No object occurs twice in the tree. */
  ghost predicate Separate(f: Foot)
    decreases f
  {
    match f
    case Flat => true
    case SliceAt(items, parts) =>
      && (forall i :: 0 <= i < |parts| ==> Separate(parts[i]) && items !in Objects(parts[i]))
      && (forall i, k :: 0 <= i < k < |parts| ==> Objects(parts[i]) !! Objects(parts[k]))
    case DictAt(node, entries) =>
      && (forall k :: k in entries ==> Separate(entries[k]) && node !in Objects(entries[k]))
      && (forall k, l :: k in entries && l in entries && k != l ==> Objects(entries[k]) !! Objects(entries[l]))
  }

  /** The payload at `v`, lying in the objects of `f`, reads as `j`. */
  ghost predicate Spells(v: Value, j: Json, f: Foot)
    reads Objects(f)
    decreases j
  {
    match j
    case Arr(items) =>
      && v.Slice? && f.SliceAt? && f.items == v.items && v.items.Length == |items| == |f.parts|
      && forall i :: 0 <= i < |items| ==> (PartWithin(f, i); Spells(v.items[i], items[i], f.parts[i]))
    case Obj(fields) =>
      && v.Dict? && f.DictAt? && f.node == v.node && v.node.fields.Keys == fields.Keys == f.entries.Keys
      && forall k :: k in fields ==> (EntryWithin(f, k); Spells(v.node.fields[k], fields[k], f.entries[k]))
    case _ => v == Scalar(j) && f.Flat?
  }

  /** A payload in memory reads as one JSON value. */
  lemma {:induction false} SpellsOne(v: Value, j: Json, j': Json, f: Foot)
    requires Spells(v, j, f) && Spells(v, j', f)
    ensures j == j'
    decreases j
  {
    match j
    case Arr(items) =>
      if j'.Arr? {
        forall i | 0 <= i < |items|
          ensures items[i] == j'.items[i]
        {
          SpellsOne(v.items[i], items[i], j'.items[i], f.parts[i]);
        }
      }
    case Obj(fields) =>
      if j'.Obj? {
        forall k | k in fields
          ensures fields[k] == j'.fields[k]
        {
          SpellsOne(v.node.fields[k], fields[k], j'.fields[k], f.entries[k]);
        }
      }
    case _ =>
  }

  lemma AllAllocated(objects: set<object>)
    ensures forall x :: x in objects ==> allocated(x)
  {
  }

  /** A place in a slice, or in a map, that reads as `js`. */
  datatype SliceSpot = SliceSpot(items: array<Value>, js: seq<Json>, f: Foot, i: nat)
  datatype DictSpot = DictSpot(node: DictNode, js: map<string, Json>, f: Foot, key: string)

  /** The other items read as before when only the objects of this one changed. */
  twostate lemma OthersStay(at: SliceSpot)
    requires at.i < |at.js| && old(Spells(Slice(at.items), Arr(at.js), at.f)) && Separate(at.f)
    requires forall x :: x in Objects(at.f) ==> old(allocated(x))
    requires forall x :: x in Objects(at.f) && x !in Objects(at.f.parts[at.i]) ==> unchanged(x)
    ensures forall k :: 0 <= k < |at.js| && k != at.i ==> Spells(at.items[k], at.js[k], at.f.parts[k])
  {
    assert at.items in Objects(at.f);
    forall k | 0 <= k < |at.js| && k != at.i
      ensures Spells(at.items[k], at.js[k], at.f.parts[k])
    {
      PartWithin(at.f, k);
      assert Objects(at.f.parts[k]) !! Objects(at.f.parts[at.i]);
      assert old(Spells(at.items[k], at.js[k], at.f.parts[k]));
    }
  }

  twostate lemma OtherEntriesStay(at: DictSpot)
    requires at.key in at.js && old(Spells(Dict(at.node), Obj(at.js), at.f)) && Separate(at.f)
    requires forall x :: x in Objects(at.f) ==> old(allocated(x))
    requires forall x :: x in Objects(at.f) && x !in Objects(at.f.entries[at.key]) ==> unchanged(x)
    ensures at.node.fields.Keys == at.js.Keys
    ensures forall k :: k in at.js && k != at.key ==> Spells(at.node.fields[k], at.js[k], at.f.entries[k])
  {
    assert at.node in Objects(at.f);
    forall k | k in at.js && k != at.key
      ensures Spells(at.node.fields[k], at.js[k], at.f.entries[k])
    {
      EntryWithin(at.f, k);
      assert Objects(at.f.entries[k]) !! Objects(at.f.entries[at.key]);
      assert old(Spells(at.node.fields[k], at.js[k], at.f.entries[k]));
    }
  }

  /** Assigning a slice element. */
  method PutItem(items: array<Value>, i: nat, v: Value, ghost js: seq<Json>, ghost j: Json, ghost f: Foot)
    requires f.SliceAt? && f.items == items && |f.parts| == |js| == items.Length && i < |js| && Separate(f)
    requires forall k :: 0 <= k < |js| && k != i ==> Spells(items[k], js[k], f.parts[k])
    requires Spells(v, j, f.parts[i])
    modifies items
    ensures items[..] == old(items[..])[i := v]
    ensures Spells(Slice(items), Arr(js[i := j]), f)
  {
    items[i] := v;
    forall k | 0 <= k < |js|
      ensures Spells(items[k], js[i := j][k], f.parts[k])
    {
      assert items !in Objects(f.parts[k]);
    }
  }

  /** Assigning a map entry. */
  method PutEntry(node: DictNode, key: string, v: Value, ghost js: map<string, Json>, ghost j: Json, ghost f: Foot)
    requires f.DictAt? && f.node == node && f.entries.Keys == js.Keys == node.fields.Keys && key in js && Separate(f)
    requires forall k :: k in js && k != key ==> Spells(node.fields[k], js[k], f.entries[k])
    requires Spells(v, j, f.entries[key])
    modifies node
    ensures node.fields == old(node.fields)[key := v]
    ensures Spells(Dict(node), Obj(js[key := j]), f)
  {
    forall k | k in js
      ensures node !in Objects(f.entries[k])
    {
    }
    node.fields := node.fields[key := v];
    forall k | k in js
      ensures Spells(node.fields[k], js[key := j][k], f.entries[k])
    {
      if k == key {
        assert Spells(v, j, f.entries[k]);
      }
    }
  }
}
