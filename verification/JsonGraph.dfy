/** Serializing values that live in a heap and may share or contain themselves (src/domain/canonical-json.js). */
module JsonGraph {
  import opened Common
  import opened CanonicalJson

  /** A JavaScript value: a scalar, a reference to an array or object, or something JSON cannot hold. */
  datatype Value = Scalar(json: Json) | Ref(id: nat) | Unsupported

  datatype Field = Field(key: Text, value: Value)
  datatype Node = Items(items: seq<Value>) | Fields(fields: seq<Field>) | NotPlain

  type Heap = map<nat, Node>

  /** Scalars are scalars, references are bound and objects have one field a key. */
  predicate Sane(h: Heap, v: Value) {
    match v
    case Scalar(j) => !j.Arr? && !j.Obj? && WellFormed(j)
    case Ref(id) => id in h
    case Unsupported => true
  }

  predicate SaneHeap(h: Heap) {
    forall id <- h ::
      match h[id]
      case Items(items) => forall i :: 0 <= i < |items| ==> Sane(h, items[i])
      case Fields(fields) =>
        (forall i :: 0 <= i < |fields| ==> Sane(h, fields[i].value))
        && forall i, j :: 0 <= i < j < |fields| ==> fields[i].key != fields[j].key
      case NotPlain => true
  }

  // ------------------------------------------------------------------ the value a reference stands for

  function Values(fields: seq<Field>): seq<Value> { seq(|fields|, i requires 0 <= i < |fields| => fields[i].value) }

  function Children(node: Node): seq<Value> {
    match node
    case Items(items) => items
    case Fields(fields) => Values(fields)
    case NotPlain => []
  }

  function Rebuilt(node: Node, parts: seq<Json>): Json
    requires |parts| == |Children(node)|
  {
    match node
    case Fields(fields) => Obj(seq(|fields|, i requires 0 <= i < |fields| => Member(fields[i].key, parts[i])))
    case _ => Arr(parts)
  }

  /** The tree below a value, if no object on the way down contains itself and everything is JSON. */
  function Tree(h: Heap, v: Value, ancestors: set<nat>): Option<Json>
    decreases |h.Keys - ancestors|, 0
  {
    match v
    case Scalar(j) => Some(j)
    case Unsupported => None
    case Ref(id) =>
      if id in ancestors || id !in h || h[id].NotPlain? then None
      else
        Deeper(h, ancestors, id);
        var parts := Trees(h, Children(h[id]), ancestors + {id});
        if parts.None? then None else Some(Rebuilt(h[id], parts.value))
  }

  function Trees(h: Heap, vs: seq<Value>, ancestors: set<nat>): (r: Option<seq<Json>>)
    ensures r.Some? ==> |r.value| == |vs|
    decreases |h.Keys - ancestors|, 1 + |vs|
  {
    if vs == [] then Some([])
    else
      var front, last := Trees(h, vs[..|vs| - 1], ancestors), Tree(h, vs[|vs| - 1], ancestors);
      if front.None? || last.None? then None else Some(front.value + [last.value])
  }

  lemma Deeper(h: Heap, ancestors: set<nat>, id: nat)
    requires id in h && id !in ancestors
    ensures |h.Keys - (ancestors + {id})| < |h.Keys - ancestors|
  {
    assert h.Keys - (ancestors + {id}) == (h.Keys - ancestors) - {id};
  }

  // ------------------------------------------------------------------ serialize, with its shared set of ancestors

  class Serializer {
    const heap: Heap
    var ancestors: set<nat>

    constructor (heap: Heap)
      ensures this.heap == heap && ancestors == {}
    {
      this.heap := heap;
      ancestors := {};
    }

    /** Text or a thrown error; the set is restored either way. */
    method Serialize(v: Value) returns (text: Option<Text>)
      modifies this`ancestors
      ensures ancestors == old(ancestors)
      ensures text == match Tree(heap, v, old(ancestors)) case None => None case Some(j) => Some(CanonicalJson.Serialize(j))
      decreases |heap.Keys - ancestors|, 0
    {
      match v {
        case Scalar(j) => return Some(CanonicalJson.Serialize(j));
        case Unsupported => return None;
        case Ref(id) =>
          if id in ancestors || id !in heap || heap[id].NotPlain? { return None; }
          Deeper(heap, ancestors, id);
          ghost var before := ancestors;
          ancestors := ancestors + {id};
          var node := heap[id];
          var parts := SerializeAll(Children(node));
          ancestors := ancestors - {id};
          assert ancestors == before;
          if parts.None? { return None; }
          match node {
            case Items(items) => text := Some([91] + Join(parts.value) + [93]);
            case Fields(fields) =>
              text := Some(ObjectText(FieldEntries(fields, parts.value)));
              FieldsText(fields, parts.value, Trees(heap, Children(node), before + {id}).value);
          }
      }
    }

    method SerializeAll(vs: seq<Value>) returns (texts: Option<seq<Text>>)
      modifies this`ancestors
      ensures ancestors == old(ancestors)
      ensures texts.Some? <==> Trees(heap, vs, old(ancestors)).Some?
      ensures texts.Some? ==> texts.value == Texts(Trees(heap, vs, old(ancestors)).value)
      decreases |heap.Keys - ancestors|, 1 + |vs|
    {
      var done: seq<Text> := [];
      ghost var all := ancestors;
      for i := 0 to |vs|
        invariant ancestors == all == old(ancestors)
        invariant Trees(heap, vs[..i], all).Some? && done == Texts(Trees(heap, vs[..i], all).value)
      {
        TreesMore(heap, vs, i, all);
        var text := Serialize(vs[i]);
        if text.None? {
          TreesPrefix(heap, vs, all, i + 1);
          return None;
        }
        TextsMore(Trees(heap, vs[..i], all).value, Tree(heap, vs[i], all).value);
        done := done + [text.value];
      }
      assert vs[..|vs|] == vs;
      texts := Some(done);
    }
  }

  lemma TreesMore(h: Heap, vs: seq<Value>, i: nat, ancestors: set<nat>)
    requires i < |vs|
    ensures var front, last := Trees(h, vs[..i], ancestors), Tree(h, vs[i], ancestors);
            Trees(h, vs[..i + 1], ancestors) == if front.None? || last.None? then None else Some(front.value + [last.value])
  {
    assert vs[..i + 1][..i] == vs[..i];
  }

  lemma TextsMore(js: seq<Json>, j: Json)
    ensures Texts(js + [j]) == Texts(js) + [CanonicalJson.Serialize(j)]
  {
  }

  function Texts(js: seq<Json>): seq<Text> {
    seq(|js|, i requires 0 <= i < |js| => CanonicalJson.Serialize(js[i]))
  }

  function FieldEntries(fields: seq<Field>, texts: seq<Text>): (r: seq<Entry>)
    requires |texts| == |fields|
    ensures |r| == |fields| && forall i :: 0 <= i < |r| ==> r[i] == Entry(fields[i].key, texts[i])
  {
    seq(|fields|, i requires 0 <= i < |fields| => Entry(fields[i].key, texts[i]))
  }

  lemma FieldsText(fields: seq<Field>, texts: seq<Text>, js: seq<Json>)
    requires |js| == |fields| && texts == Texts(js)
    ensures ObjectText(FieldEntries(fields, texts)) == CanonicalJson.Serialize(Rebuilt(Fields(fields), js))
  {
    var ms := Rebuilt(Fields(fields), js).members;
    assert FieldEntries(fields, texts)
        == seq(|ms|, i requires 0 <= i < |ms| => Entry(ms[i].key, CanonicalJson.Serialize(ms[i].value)));
  }

  lemma {:induction false} TreesPrefix(h: Heap, vs: seq<Value>, ancestors: set<nat>, n: nat)
    requires n <= |vs| && Trees(h, vs[..n], ancestors).None?
    ensures Trees(h, vs, ancestors).None?
    decreases |vs|
  {
    if n < |vs| {
      assert vs[..|vs| - 1][..n] == vs[..n];
      TreesPrefix(h, vs[..|vs| - 1], ancestors, n);
    } else {
      assert vs[..n] == vs;
    }
  }

  // ------------------------------------------------------------------ exactly which graphs are refused

  /** A way down from v: each reference is a child of the one before. */
  predicate Path(h: Heap, v: Value, p: seq<nat>) {
    && p != [] && v == Ref(p[0])
    && forall i :: 0 <= i < |p| - 1 ==> p[i] in h && Ref(p[i + 1]) in Children(h[p[i]])
  }

  /** The way ends where it has been, at an ancestor or on its own nodes. */
  predicate Returns(p: seq<nat>, ancestors: set<nat>) {
    p != [] && (p[|p| - 1] in ancestors || p[|p| - 1] in p[..|p| - 1])
  }

  ghost predicate Cyclic(h: Heap, v: Value, ancestors: set<nat>) {
    exists p :: Path(h, v, p) && Returns(p, ancestors)
  }

  /** Nothing on the heap but scalars, arrays and plain objects. */
  predicate AllJson(h: Heap) {
    forall id <- h :: !h[id].NotPlain? && Unsupported !in Children(h[id])
  }

  lemma {:induction false} TreesFailAt(h: Heap, vs: seq<Value>, ancestors: set<nat>) returns (k: nat)
    requires Trees(h, vs, ancestors).None?
    ensures k < |vs| && Tree(h, vs[k], ancestors).None?
    decreases |vs|
  {
    var n := |vs| - 1;
    if Tree(h, vs[n], ancestors).None? { k := n; } else { k := TreesFailAt(h, vs[..n], ancestors); }
  }

  lemma {:induction false} TreesFail(h: Heap, vs: seq<Value>, ancestors: set<nat>, k: nat)
    requires k < |vs| && Tree(h, vs[k], ancestors).None?
    ensures Trees(h, vs, ancestors).None?
    decreases |vs|
  {
    if k < |vs| - 1 { TreesFail(h, vs[..|vs| - 1], ancestors, k); }
  }

  lemma SaneChildren(h: Heap, id: nat)
    requires SaneHeap(h) && id in h
    ensures forall c <- Children(h[id]) :: Sane(h, c)
  {
  }

  lemma PathGrows(h: Heap, id: nat, child: Value, p: seq<nat>, ancestors: set<nat>)
    requires id in h && child in Children(h[id]) && Path(h, child, p) && Returns(p, ancestors + {id})
    ensures Path(h, Ref(id), [id] + p) && Returns([id] + p, ancestors)
  {
    var q := [id] + p;
    forall i | 0 <= i < |q| - 1 ensures q[i] in h && Ref(q[i + 1]) in Children(h[q[i]]) {
      if i > 0 { assert q[i] == p[i - 1] && q[i + 1] == p[i]; }
    }
    assert q[|q| - 1] == p[|p| - 1] && q[..|q| - 1] == [id] + p[..|p| - 1];
  }

  /** A refused value of a JSON heap leads back to itself or to an ancestor. */
  lemma {:induction false} RefusedIsCyclic(h: Heap, v: Value, ancestors: set<nat>)
    requires SaneHeap(h) && AllJson(h) && Sane(h, v) && v != Unsupported && Tree(h, v, ancestors).None?
    ensures Cyclic(h, v, ancestors)
    decreases |h.Keys - ancestors|
  {
    if v.id in ancestors {
      assert Path(h, v, [v.id]) && Returns([v.id], ancestors);
    } else {
      var children := Children(h[v.id]);
      Deeper(h, ancestors, v.id);
      var k := TreesFailAt(h, children, ancestors + {v.id});
      SaneChildren(h, v.id);
      assert children[k] in children;
      RefusedIsCyclic(h, children[k], ancestors + {v.id});
      var p :| Path(h, children[k], p) && Returns(p, ancestors + {v.id});
      PathGrows(h, v.id, children[k], p, ancestors);
    }
  }

  /** And whatever leads back is refused, on any heap. */
  lemma {:induction false} CyclicIsRefused(h: Heap, v: Value, ancestors: set<nat>, p: seq<nat>)
    requires Path(h, v, p) && Returns(p, ancestors)
    ensures Tree(h, v, ancestors).None?
    decreases |p|
  {
    var id := p[0];
    if id !in ancestors && id in h && !h[id].NotPlain? && |p| > 1 {
      var rest := p[1..];
      var child := Ref(p[1]);
      assert child in Children(h[id]);
      var k :| 0 <= k < |Children(h[id])| && Children(h[id])[k] == child;
      assert Path(h, child, rest) by {
        forall i | 0 <= i < |rest| - 1 ensures rest[i] in h && Ref(rest[i + 1]) in Children(h[rest[i]]) {
          assert rest[i] == p[i + 1] && rest[i + 1] == p[i + 2];
        }
      }
      assert p[..|p| - 1] == [id] + rest[..|rest| - 1];
      assert Returns(rest, ancestors + {id});
      CyclicIsRefused(h, child, ancestors + {id}, rest);
      TreesFail(h, Children(h[id]), ancestors + {id}, k);
    }
  }

  /** On a heap of JSON values a value is refused exactly when it is cyclic; sharing without a cycle is accepted. */
  lemma RefusedIffCyclic(h: Heap, v: Value)
    requires SaneHeap(h) && AllJson(h) && Sane(h, v) && v != Unsupported
    ensures Tree(h, v, {}).None? <==> Cyclic(h, v, {})
  {
    if Tree(h, v, {}).None? { RefusedIsCyclic(h, v, {}); }
    if p :| Path(h, v, p) && Returns(p, {}) { CyclicIsRefused(h, v, {}, p); }
  }

  lemma {:induction false} TreesAreWellFormed(h: Heap, vs: seq<Value>, ancestors: set<nat>)
    requires SaneHeap(h) && (forall c <- vs :: Sane(h, c)) && Trees(h, vs, ancestors).Some?
    ensures var js := Trees(h, vs, ancestors).value; forall i :: 0 <= i < |js| ==> WellFormed(js[i])
    decreases |h.Keys - ancestors|, 1 + |vs|
  {
    if vs != [] {
      TreesAreWellFormed(h, vs[..|vs| - 1], ancestors);
      assert vs[|vs| - 1] in vs;
      TreeIsWellFormed(h, vs[|vs| - 1], ancestors);
    }
  }

  /** So everything proved about serializing well-formed values holds of what the heap stands for. */
  lemma {:induction false} TreeIsWellFormed(h: Heap, v: Value, ancestors: set<nat>)
    requires SaneHeap(h) && Sane(h, v) && Tree(h, v, ancestors).Some?
    ensures WellFormed(Tree(h, v, ancestors).value)
    decreases |h.Keys - ancestors|, 0
  {
    if v.Ref? {
      Deeper(h, ancestors, v.id);
      SaneChildren(h, v.id);
      TreesAreWellFormed(h, Children(h[v.id]), ancestors + {v.id});
    }
  }

  // ------------------------------------------------------------------ what the accepted tree is

  /** The JSON value j is what v stands for: a scalar itself, an array item by item, an object field by field under
      the same keys in the same order. */
  ghost predicate Denotes(h: Heap, v: Value, j: Json)
    decreases j
  {
    match v
    case Scalar(s) => j == s
    case Unsupported => false
    case Ref(id) =>
      && id in h
      && match h[id]
         case NotPlain => false
         case Items(items) => j.Arr? && |j.items| == |items| && forall i :: 0 <= i < |items| ==> Denotes(h, items[i], j.items[i])
         case Fields(fields) =>
           && j.Obj? && |j.members| == |fields|
           && forall i :: 0 <= i < |fields| ==> j.members[i].key == fields[i].key && Denotes(h, fields[i].value, j.members[i].value)
  }

  lemma {:induction false} TreesDenote(h: Heap, vs: seq<Value>, ancestors: set<nat>)
    requires Trees(h, vs, ancestors).Some?
    ensures var js := Trees(h, vs, ancestors).value; forall i :: 0 <= i < |vs| ==> Denotes(h, vs[i], js[i])
    decreases |h.Keys - ancestors|, 1 + |vs|
  {
    if vs != [] {
      TreesDenote(h, vs[..|vs| - 1], ancestors);
      TreeDenotes(h, vs[|vs| - 1], ancestors);
    }
  }

  /** What is serialized is what the value stands for, and nothing else is. */
  lemma {:induction false} TreeDenotes(h: Heap, v: Value, ancestors: set<nat>)
    requires Tree(h, v, ancestors).Some?
    ensures Denotes(h, v, Tree(h, v, ancestors).value)
    decreases |h.Keys - ancestors|, 0
  {
    if v.Ref? {
      Deeper(h, ancestors, v.id);
      TreesDenote(h, Children(h[v.id]), ancestors + {v.id});
    }
  }

  lemma {:induction false} OneDenoted(h: Heap, v: Value, j: Json, k: Json)
    requires Denotes(h, v, j) && Denotes(h, v, k)
    ensures j == k
    decreases j
  {
    if v.Ref? {
      match h[v.id]
      case Items(items) =>
        forall i | 0 <= i < |items| ensures j.items[i] == k.items[i] { OneDenoted(h, items[i], j.items[i], k.items[i]); }
      case Fields(fields) =>
        forall i | 0 <= i < |fields| ensures j.members[i] == k.members[i] {
          OneDenoted(h, fields[i].value, j.members[i].value, k.members[i].value);
        }
    }
  }
}
