/**
 * JavaScript objects and arrays as heap nodes, for the financial store
 * (src/context/DataContext.jsx), whose updates write into nested objects in
 * place and so share them between trees.
 *
 * Every node carries a ghost rank and every child ranks above its parent,
 * which keeps the object graph acyclic; `Snap` is the JSON tree a value
 * denotes (what `JSON.stringify` would serialise) and `Materialize` builds
 * fresh nodes for a parsed tree (what `JSON.parse` allocates).
 */
module Heap {
  import opened Optional
  import opened Text
  import opened JsValues

  /** A plain object (own properties in `fields`) or an array (elements in
      `elems`); only the part matching `isArray` is ever read. */
  class Node {
    const isArray: bool
    var fields: map<string, Val>
    var elems: seq<Val>
    ghost const rank: int

    constructor Object(m: map<string, Val>, ghost r: int)
      ensures !isArray && fields == m && elems == [] && rank == r
    {
      isArray := false;
      fields := m;
      elems := [];
      rank := r;
    }

    constructor Array(s: seq<Val>, ghost r: int)
      ensures isArray && elems == s && fields == map[] && rank == r
    {
      isArray := true;
      fields := map[];
      elems := s;
      rank := r;
    }
  }

  /** A value: a primitive, or a reference to a node. */
  datatype Val = Prim(p: Primitive) | Ref(node: Node)

  /** The outcome of reading a property: `undefined`, or a value. */
  datatype Slot = Absent | Holds(v: Val)

  /** `v[k]`; None when it throws, which it does exactly on `null`.
      Primitives read as in JsValues.MemberOf. */
  function ReadMember(v: Val, k: string): (r: Option<Slot>)
    reads if v.Ref? then {v.node} else {}
    ensures r.None? <==> v == Prim(JNull)
    ensures v.Prim? && r.Some? && r.value.Holds? ==> r.value.v.Prim?
  {
    match v
    case Prim(p) =>
      (match MemberOf(p, k)
       case None => None
       case Some(Undefined) => Some(Absent)
       case Some(Defined(x)) => Some(Holds(Prim(x))))
    case Ref(n) =>
      if n.isArray then
        var i := IndexOf(k);
        if i.Some? && i.value < |n.elems| then Some(Holds(n.elems[i.value]))
        else if k == "length" then Some(Holds(Prim(JNum(|n.elems| as real))))
        else Some(Absent)
      else if k in n.fields then Some(Holds(n.fields[k]))
      else Some(Absent)
  }

  /** Reading `keys` one after the other, as getData does: None when a read
      throws (on `null`, or below `undefined`). Nodes outside R are not
      followed. */
  ghost function Walk(v: Val, keys: seq<string>, R: set<Node>): Option<Slot>
    reads R
    decreases |keys|
  {
    if keys == [] then Some(Holds(v))
    else if v.Ref? && v.node !in R then None
    else
      match ReadMember(v, keys[0])
      case None => None
      case Some(Absent) => if |keys| == 1 then Some(Absent) else None
      case Some(Holds(c)) => Walk(c, keys[1..], R)
  }

  // ------------------------------------------------------------ acyclicity

  ghost predicate Inside(v: Val, R: set<Node>) {
    v.Ref? ==> v.node in R
  }

  /** R is closed under children, children rank above parents, and no rank
      exceeds `hi`. */
  ghost predicate Closed(R: set<Node>, hi: int)
    reads R
  {
    forall n | n in R ::
      && n.rank <= hi
      && (forall k | k in n.fields ::
            n.fields[k].Ref? ==> n.fields[k].node in R && n.fields[k].node.rank > n.rank)
      && (forall i | 0 <= i < |n.elems| ::
            n.elems[i].Ref? ==> n.elems[i].node in R && n.elems[i].node.rank > n.rank)
  }

  /** A set of nodes `R` with the rank bound `hi`. */
  datatype Bounded = Bounded(R: set<Node>, hi: int)

  /** A closed set stays closed while none of its nodes changes. */
  twostate lemma ClosedKept(b: Bounded)
    requires old(Closed(b.R, b.hi))
    requires forall n | n in b.R :: n.fields == old(n.fields) && n.elems == old(n.elems)
    ensures Closed(b.R, b.hi)
  {
  }

  ghost function Height(v: Val, hi: int): int {
    if v.Ref? then hi - v.node.rank + 1 else 0
  }

  // -------------------------------------------------------------- snapshot

  /** The JSON tree `v` denotes: what `JSON.stringify(v)` describes. */
  function Snap(v: Val, ghost R: set<Node>, ghost hi: int): Json
    requires Closed(R, hi) && Inside(v, R)
    reads R
    decreases Height(v, hi), 1
  {
    match v
    case Prim(p) => p
    case Ref(n) =>
      if n.isArray then JArr(SnapAll(n.elems, n, R, hi))
      else JObj(map k | k in n.fields :: Snap(n.fields[k], R, hi))
  }

  /** The snapshots of the elements of `n`. */
  function SnapAll(vs: seq<Val>, ghost n: Node, ghost R: set<Node>, ghost hi: int): (r: seq<Json>)
    requires Closed(R, hi) && n in R
    requires forall i | 0 <= i < |vs| :: vs[i].Ref? ==> vs[i].node in R && vs[i].node.rank > n.rank
    reads R
    ensures |r| == |vs|
    ensures forall i | 0 <= i < |vs| :: r[i] == Snap(vs[i], R, hi)
    decreases hi - n.rank + 1, 0, |vs|
  {
    if vs == [] then [] else [Snap(vs[0], R, hi)] + SnapAll(vs[1..], n, R, hi)
  }

  /** A snapshot does not depend on which closed superset of the nodes it is
      taken over. */
  lemma {:induction false} SnapGrow(v: Val, R1: set<Node>, h1: int, R2: set<Node>, h2: int)
    requires Closed(R1, h1) && Closed(R2, h2) && R1 <= R2 && Inside(v, R1)
    ensures Snap(v, R1, h1) == Snap(v, R2, h2)
    decreases Height(v, h1)
  {
    if v.Ref? {
      var n := v.node;
      if n.isArray {
        var a1, a2 := SnapAll(n.elems, n, R1, h1), SnapAll(n.elems, n, R2, h2);
        forall i | 0 <= i < |n.elems|
          ensures a1[i] == a2[i]
        {
          SnapGrow(n.elems[i], R1, h1, R2, h2);
        }
      } else {
        forall k | k in n.fields
          ensures Snap(n.fields[k], R1, h1) == Snap(n.fields[k], R2, h2)
        {
          SnapGrow(n.fields[k], R1, h1, R2, h2);
        }
      }
    }
  }

  /** What a snapshot shows of a node's own properties. */
  lemma SnapOfObject(v: Val, R: set<Node>, hi: int, m: map<string, Json>)
    requires Closed(R, hi) && Inside(v, R)
    requires Snap(v, R, hi) == JObj(m)
    ensures v.Ref? && !v.node.isArray && v.node.fields.Keys == m.Keys
    ensures forall k | k in m :: Inside(v.node.fields[k], R) && Snap(v.node.fields[k], R, hi) == m[k]
  {
  }

  /** Reading a property on the heap reads the same property of the tree
      the value denotes: both throw, both give `undefined`, or the child's
      tree is the property's value. */
  lemma ReadMemberSnap(v: Val, k: string, R: set<Node>, hi: int)
    requires Closed(R, hi) && Inside(v, R)
    ensures ReadMember(v, k).None? <==> MemberOf(Snap(v, R, hi), k).None?
    ensures ReadMember(v, k) == Some(Absent) <==> MemberOf(Snap(v, R, hi), k) == Some(Undefined)
    ensures ReadMember(v, k).Some? && ReadMember(v, k).value.Holds? ==> Inside(ReadMember(v, k).value.v, R)
    ensures ReadMember(v, k).Some? && ReadMember(v, k).value.Holds? ==>
      MemberOf(Snap(v, R, hi), k) == Some(Defined(Snap(ReadMember(v, k).value.v, R, hi)))
  {
    if v.Ref? && v.node.isArray {
      var a := SnapAll(v.node.elems, v.node, R, hi);
      assert Snap(v, R, hi) == JArr(a);
    }
  }

  /** The tree-level outcome of a heap read: what `Resolve` gives on the
      snapshot. */
  ghost function SnapSlot(s: Option<Slot>, R: set<Node>, hi: int): Option<Js>
    requires Closed(R, hi)
    requires s.Some? && s.value.Holds? ==> Inside(s.value.v, R)
    reads R
  {
    match s
    case None => None
    case Some(Absent) => Some(Undefined)
    case Some(Holds(x)) => Some(Defined(Snap(x, R, hi)))
  }

  /** Walking a path on the heap and reading it in the snapshot agree. */
  lemma {:induction false} WalkSnap(v: Val, keys: seq<string>, R: set<Node>, hi: int)
    requires Closed(R, hi) && Inside(v, R)
    ensures Walk(v, keys, R).Some? && Walk(v, keys, R).value.Holds? ==> Inside(Walk(v, keys, R).value.v, R)
    ensures Resolve(Defined(Snap(v, R, hi)), keys) == SnapSlot(Walk(v, keys, R), R, hi)
    decreases |keys|
  {
    if keys != [] {
      ReadMemberSnap(v, keys[0], R, hi);
      match ReadMember(v, keys[0]) {
        case None =>
        case Some(Absent) =>
          if |keys| > 1 {
            assert Resolve(Undefined, keys[1..]) == None;
          }
        case Some(Holds(c)) =>
          WalkSnap(c, keys[1..], R, hi);
      }
    }
  }

  // ---------------------------------------------------------- allocation

  /** `JSON.parse` building the objects and arrays of a parsed tree: fresh
      nodes, ranked from `r` upwards, whose snapshot is the tree. */
  method Materialize(j: Json, ghost r: int) returns (v: Val, ghost made: set<Node>, ghost top: int)
    ensures fresh(made) && r <= top
    ensures Closed(made, top) && Inside(v, made)
    ensures forall n | n in made :: r <= n.rank
    ensures v.Ref? ==> v.node.rank == r
    ensures Snap(v, made, top) == j
    decreases j, 2
  {
    if j.JArr? {
      v, made, top := MaterializeArray(j, r);
    } else if j.JObj? {
      v, made, top := MaterializeObject(j, r);
    } else {
      v, made, top := Prim(j), {}, r;
    }
  }

  method MaterializeArray(j: Json, ghost r: int) returns (v: Val, ghost made: set<Node>, ghost top: int)
    requires j.JArr?
    ensures fresh(made) && r <= top
    ensures Closed(made, top) && Inside(v, made)
    ensures forall n | n in made :: r <= n.rank
    ensures v.Ref? && v.node.rank == r
    ensures Snap(v, made, top) == j
    decreases j, 1
  {
    var elems;
    elems, made, top := MaterializeItems(j, r);
    var n := new Node.Array(elems, r);
    AdoptNode(made, top, n);
    SnapGrowAll(elems, made, top, made + {n}, top);
    made := made + {n};
    v := Ref(n);
    assert SnapAll(n.elems, n, made, top) == j.items;
  }

  /** The elements of an array, materialized one after the other, each
      ranked `r + 1`. */
  method MaterializeItems(j: Json, ghost r: int) returns (elems: seq<Val>, ghost made: set<Node>, ghost top: int)
    requires j.JArr?
    ensures |elems| == |j.items|
    ensures fresh(made) && Closed(made, top) && r <= top
    ensures forall n | n in made :: r + 1 <= n.rank
    ensures forall i | 0 <= i < |elems| ::
      Inside(elems[i], made) && (elems[i].Ref? ==> elems[i].node.rank == r + 1)
    ensures forall i | 0 <= i < |elems| :: Snap(elems[i], made, top) == j.items[i]
    decreases j, 0
  {
    var items := j.items;
    elems := [];
    made, top := {}, r;
    while |elems| < |items|
      invariant |elems| <= |items|
      invariant fresh(made) && Closed(made, top) && r <= top
      invariant forall n | n in made :: r + 1 <= n.rank
      invariant forall i | 0 <= i < |elems| ::
        Inside(elems[i], made) && (elems[i].Ref? ==> elems[i].node.rank == r + 1)
      invariant forall i | 0 <= i < |elems| :: Snap(elems[i], made, top) == items[i]
    {
      var c, cm, ct := Materialize(items[|elems|], r + 1);
      ItemAdded(elems, made, top, c, cm, ct, items, r);
      elems, made, top := elems + [c], made + cm, if ct > top then ct else top;
    }
  }

  /** One more materialised element keeps what MaterializeItems promises of
      the elements made so far. */
  lemma ItemAdded(elems: seq<Val>, made: set<Node>, top: int,
                  c: Val, cm: set<Node>, ct: int, items: seq<Json>, r: int)
    requires |elems| < |items|
    requires Closed(made, top) && r <= top && forall n | n in made :: r + 1 <= n.rank
    requires forall i | 0 <= i < |elems| ::
      Inside(elems[i], made) && (elems[i].Ref? ==> elems[i].node.rank == r + 1)
    requires forall i | 0 <= i < |elems| :: Snap(elems[i], made, top) == items[i]
    requires Closed(cm, ct) && Inside(c, cm) && r + 1 <= ct && forall n | n in cm :: r + 1 <= n.rank
    requires (c.Ref? ==> c.node.rank == r + 1) && Snap(c, cm, ct) == items[|elems|]
    ensures var top', e' := (if ct > top then ct else top), elems + [c];
      && Closed(made + cm, top') && r <= top' && (forall n | n in made + cm :: r + 1 <= n.rank)
      && (forall i | 0 <= i < |e'| :: Inside(e'[i], made + cm) && (e'[i].Ref? ==> e'[i].node.rank == r + 1))
      && (forall i | 0 <= i < |e'| :: Snap(e'[i], made + cm, top') == items[i])
  {
    var top' := if ct > top then ct else top;
    if ct > top {
      ClosedUnion(made, top, cm, ct);
    } else {
      ClosedUnion(cm, ct, made, top);
    }
    SnapGrowAll(elems, made, top, made + cm, top');
    SnapGrow(c, cm, ct, made + cm, top');
  }

  method MaterializeObject(j: Json, ghost r: int) returns (v: Val, ghost made: set<Node>, ghost top: int)
    requires j.JObj?
    ensures fresh(made) && r <= top
    ensures Closed(made, top) && Inside(v, made)
    ensures forall n | n in made :: r <= n.rank
    ensures v.Ref? && v.node.rank == r
    ensures Snap(v, made, top) == j
    decreases j, 1
  {
    var fields;
    fields, made, top := MaterializeFields(j, r);
    var n := new Node.Object(fields, r);
    AdoptNode(made, top, n);
    SnapGrowFields(fields, made, top, made + {n}, top);
    made := made + {n};
    SnapOfFields(n, made, top, j.fields);
    v := Ref(n);
  }

  /** The members of an object, materialized key by key, each ranked
      `r + 1`. */
  method MaterializeFields(j: Json, ghost r: int) returns (fields: map<string, Val>, ghost made: set<Node>, ghost top: int)
    requires j.JObj?
    ensures fields.Keys == j.fields.Keys
    ensures fresh(made) && Closed(made, top) && r <= top
    ensures forall n | n in made :: r + 1 <= n.rank
    ensures forall k | k in fields ::
      Inside(fields[k], made) && (fields[k].Ref? ==> fields[k].node.rank == r + 1)
    ensures forall k | k in fields :: Snap(fields[k], made, top) == j.fields[k]
    decreases j, 0
  {
    var m := j.fields;
    fields := map[];
    var todo := m.Keys;
    made, top := {}, r;
    while todo != {}
      invariant todo <= m.Keys && fields.Keys == m.Keys - todo
      invariant fresh(made) && Closed(made, top) && r <= top
      invariant forall n | n in made :: r + 1 <= n.rank
      invariant forall k | k in fields ::
        Inside(fields[k], made) && (fields[k].Ref? ==> fields[k].node.rank == r + 1)
      invariant forall k | k in fields :: Snap(fields[k], made, top) == m[k]
      decreases todo
    {
      var k :| k in todo;
      var c, cm, ct := Materialize(m[k], r + 1);
      FieldAdded(fields, made, top, k, c, cm, ct, m, r);
      fields, made, top, todo := fields[k := c], made + cm, if ct > top then ct else top, todo - {k};
    }
  }

  /** One more materialised field keeps what MaterializeFields promises of
      the fields made so far. */
  lemma FieldAdded(fields: map<string, Val>, made: set<Node>, top: int, k: string,
                   c: Val, cm: set<Node>, ct: int, m: map<string, Json>, r: int)
    requires k in m && fields.Keys <= m.Keys
    requires Closed(made, top) && r <= top && forall n | n in made :: r + 1 <= n.rank
    requires forall k | k in fields ::
      Inside(fields[k], made) && (fields[k].Ref? ==> fields[k].node.rank == r + 1)
    requires forall k | k in fields :: Snap(fields[k], made, top) == m[k]
    requires Closed(cm, ct) && Inside(c, cm) && r + 1 <= ct && forall n | n in cm :: r + 1 <= n.rank
    requires (c.Ref? ==> c.node.rank == r + 1) && Snap(c, cm, ct) == m[k]
    ensures var top', f' := (if ct > top then ct else top), fields[k := c];
      && Closed(made + cm, top') && r <= top' && (forall n | n in made + cm :: r + 1 <= n.rank)
      && (forall k | k in f' :: Inside(f'[k], made + cm) && (f'[k].Ref? ==> f'[k].node.rank == r + 1))
      && (forall k | k in f' :: Snap(f'[k], made + cm, top') == m[k])
  {
    var top' := if ct > top then ct else top;
    if ct > top {
      ClosedUnion(made, top, cm, ct);
    } else {
      ClosedUnion(cm, ct, made, top);
    }
    SnapGrowFields(fields, made, top, made + cm, top');
    SnapGrow(c, cm, ct, made + cm, top');
  }

  lemma SnapGrowAll(vs: seq<Val>, R1: set<Node>, h1: int, R2: set<Node>, h2: int)
    requires Closed(R1, h1) && Closed(R2, h2) && R1 <= R2
    requires forall i | 0 <= i < |vs| :: Inside(vs[i], R1)
    ensures forall i | 0 <= i < |vs| :: Snap(vs[i], R1, h1) == Snap(vs[i], R2, h2)
  {
    forall i | 0 <= i < |vs|
      ensures Snap(vs[i], R1, h1) == Snap(vs[i], R2, h2)
    {
      SnapGrow(vs[i], R1, h1, R2, h2);
    }
  }

  lemma SnapGrowFields(fs: map<string, Val>, R1: set<Node>, h1: int, R2: set<Node>, h2: int)
    requires Closed(R1, h1) && Closed(R2, h2) && R1 <= R2
    requires forall k | k in fs :: Inside(fs[k], R1)
    ensures forall k | k in fs :: Snap(fs[k], R1, h1) == Snap(fs[k], R2, h2)
  {
    forall k | k in fs
      ensures Snap(fs[k], R1, h1) == Snap(fs[k], R2, h2)
    {
      SnapGrow(fs[k], R1, h1, R2, h2);
    }
  }

  /** A new node whose children are in a closed set extends it. */
  lemma AdoptNode(R: set<Node>, hi: int, n: Node)
    requires Closed(R, hi) && n.rank <= hi
    requires forall k | k in n.fields ::
      n.fields[k].Ref? ==> n.fields[k].node in R && n.fields[k].node.rank > n.rank
    requires forall i | 0 <= i < |n.elems| ::
      n.elems[i].Ref? ==> n.elems[i].node in R && n.elems[i].node.rank > n.rank
    ensures Closed(R + {n}, hi)
  {
  }

  lemma SnapOfFields(n: Node, R: set<Node>, hi: int, m: map<string, Json>)
    requires Closed(R, hi) && n in R && !n.isArray && n.fields.Keys == m.Keys
    requires forall k | k in m :: Snap(n.fields[k], R, hi) == m[k]
    ensures Snap(Ref(n), R, hi) == JObj(m)
  {
  }

  /** Two closed sets, the second ranked above the first, make a closed set. */
  lemma ClosedUnion(R1: set<Node>, h1: int, R2: set<Node>, h2: int)
    requires Closed(R1, h1) && Closed(R2, h2) && h1 <= h2
    ensures Closed(R1 + R2, h2)
  {
  }
}
