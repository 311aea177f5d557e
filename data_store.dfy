/**
 * The financial store (src/context/DataContext.jsx): a JavaScript object
 * graph addressed by dot-separated paths, kept in local storage under
 * "financial-dashboard-data".
 *
 * `updateField` copies only the top-level object (`{ ...prevData }`); every
 * nested object along the path is written in place, so it stays shared with
 * the tree held before the update, and, since the first tree is the
 * `defaultData` object itself, with the tree that `resetData` reinstalls.
 * The model keeps that sharing: values live on the heap (module Heap).
 */
module FinancialData {
  import opened Optional
  import opened Text
  import opened JsValues
  import opened Storage
  import opened Heap

  const StorageKey := "financial-dashboard-data"

  // ---------------------------------------------------------- the defaults

  function Quarter(revenue: real, cogs: real, operatingExpenses: real, netIncome: real): Json {
    JObj(map["revenue" := JNum(revenue), "cogs" := JNum(cogs),
             "operatingExpenses" := JNum(operatingExpenses), "netIncome" := JNum(netIncome)])
  }

  function Office(name: string, revenue: real, margin: real): Json {
    JObj(map["name" := JStr(name), "revenue" := JNum(revenue), "margin" := JNum(margin)])
  }

  /** The tree `defaultData` denotes. */
  function FinancialDefaults(): Json {
    JObj(map[
      "grossRevenue" := JNum(46000000.0),
      "avgCommission" := JNum(8500.0),
      "netProfit" := JNum(12500000.0),
      "netProfitMargin" := JNum(27.17),
      "currentQuarter" := Quarter(46000000.0, 21000000.0, 12500000.0, 12500000.0),
      "previousQuarter" := Quarter(42000000.0, 19500000.0, 11800000.0, 10700000.0),
      "topOffices" := JArr([
        Office("Northside Office", 8000000.0, 28.0), Office("Downtown Office", 7500000.0, 26.0),
        Office("Westside Office", 6200000.0, 24.0), Office("Southside Office", 5800000.0, 23.0)]),
      "marketAnalysis" := JObj(map[
        "averagePrice" := JNum(850000.0), "totalListings" := JNum(1247.0),
        "pricePerSqFt" := JNum(420.0), "medianDaysOnMarket" := JNum(35.0),
        "inventoryMonths" := JNum(3.2), "soldProperties" := JNum(892.0),
        "totalVolume" := JNum(758000000.0), "avgDaysOnMarket" := JNum(42.0)]),
      "propertyDistribution" := JObj(map[
        "active" := JNum(45.0), "pending" := JNum(25.0), "sold" := JNum(20.0), "expired" := JNum(10.0)]),
      "kpi" := JObj(map[
        "agentRetention" := JNum(94.0), "clientSatisfaction" := JNum(4.8),
        "marketShare" := JNum(18.0), "referralRate" := JNum(35.0)]),
      "awards" := JObj(map["count" := JNum(18.0), "description" := JStr("Industry Awards Won This Year")])])
  }

  // ----------------------------------------------------- the shallow copy

  /** `{ ...v }`: the own enumerable properties of `v` as a new object's
      fields. Arrays and strings give their elements under index keys;
      `null`, numbers and booleans give nothing. */
  function SpreadOf(v: Val): map<string, Val>
    reads if v.Ref? then {v.node} else {}
  {
    match v
    case Ref(n) => if n.isArray then Indexed(n.elems) else n.fields
    case Prim(JStr(s)) => Indexed(seq(|s|, i requires 0 <= i < |s| => Prim(JStr([s[i]]))))
    case Prim(_) => map[]
  }

  /** Elements under their decimal index keys. */
  function Indexed(vs: seq<Val>): map<string, Val> {
    if vs == [] then map[] else Indexed(vs[..|vs| - 1])[IndexKey(|vs| - 1) := vs[|vs| - 1]]
  }

  /** Each key of `Indexed(vs)` is the index key of one element, which it
      holds. */
  lemma {:induction false} IndexedKeys(vs: seq<Val>)
    ensures forall i | 0 <= i < |vs| :: IndexKey(i) in Indexed(vs) && Indexed(vs)[IndexKey(i)] == vs[i]
    ensures forall k | k in Indexed(vs) :: exists i | 0 <= i < |vs| :: k == IndexKey(i)
  {
    if vs != [] {
      var n := |vs| - 1;
      var p := vs[..n];
      IndexedKeys(p);
      var m := Indexed(p);
      assert Indexed(vs) == m[IndexKey(n) := vs[n]];
      forall i | 0 <= i < |vs|
        ensures IndexKey(i) in Indexed(vs) && Indexed(vs)[IndexKey(i)] == vs[i]
      {
        if i < n {
          if IndexKey(i) == IndexKey(n) {
            IndexKeyInjective(i, n);
          }
          assert p[i] == vs[i];
        }
      }
      forall k | k in Indexed(vs)
        ensures exists i | 0 <= i < |vs| :: k == IndexKey(i)
      {
        if k != IndexKey(n) {
          var i :| 0 <= i < n && k == IndexKey(i);
        }
      }
    }
  }

  /** Every value of `Indexed(vs)` is one of the elements. */
  lemma IndexedValues(vs: seq<Val>)
    ensures forall k | k in Indexed(vs) :: exists i | 0 <= i < |vs| :: Indexed(vs)[k] == vs[i]
  {
    IndexedKeys(vs);
    forall k | k in Indexed(vs)
      ensures exists i | 0 <= i < |vs| :: Indexed(vs)[k] == vs[i]
    {
      var i :| 0 <= i < |vs| && k == IndexKey(i);
    }
  }

  /** The children a copy takes over are the original's children. */
  lemma SpreadChildren(v: Val, R: set<Node>, hi: int)
    requires Closed(R, hi) && Inside(v, R)
    ensures forall k | k in SpreadOf(v) :: SpreadOf(v)[k].Ref? ==>
      v.Ref? && SpreadOf(v)[k].node in R && SpreadOf(v)[k].node.rank > v.node.rank
  {
    var m := SpreadOf(v);
    if v.Ref? && v.node.isArray {
      IndexedValues(v.node.elems);
    } else if v.Prim? && v.p.JStr? {
      var s := v.p.s;
      var cs := seq(|s|, i requires 0 <= i < |s| => Prim(JStr([s[i]])));
      IndexedValues(cs);
    }
  }

  // ----------------------------------------------------------- writing

  /** The contents of a node at some earlier point. */
  datatype Contents = Contents(fields: map<string, Val>, elems: seq<Val>)

  /** `n` holds what `c` records, but for what it holds under the key `k`:
      an object may have gained or changed the field `k`, an array the
      element at index `k`, which lengthens it by one when `k` is the next
      index. */
  ghost predicate OnlyKeyChanged(n: Node, k: string, c: Contents)
    reads n
  {
    && n.fields - {k} == c.fields - {k}
    && |c.elems| <= |n.elems| <= |c.elems| + 1
    && (|n.elems| > |c.elems| ==> IndexOf(k) == Some(|c.elems|))
    && (forall i | 0 <= i < |c.elems| && IndexOf(k) != Some(i) :: n.elems[i] == c.elems[i])
  }


  /** Whether `v[k] = x` succeeds: on objects always; on arrays at an
      existing index or the next one (an append). On primitives the
      assignment throws in strict mode. */
  predicate Assignable(v: Val, k: string)
    reads if v.Ref? then {v.node} else {}
  {
    v.Ref? && (!v.node.isArray || (IndexOf(k).Some? && IndexOf(k).value <= |v.node.elems|))
  }

  /** `v[k] = x`, on a node of the closed set R; a child it links in ranks
      above the node, so R stays closed. */
  method Assign(v: Val, k: string, x: Val, ghost R: set<Node>, ghost hi: int) returns (ok: bool)
    requires Closed(R, hi) && Inside(v, R)
    requires x.Ref? && v.Ref? ==> x.node in R && x.node.rank > v.node.rank
    modifies if v.Ref? then {v.node} else {}
    ensures Closed(R, hi)
    ensures ok == old(Assignable(v, k))
    ensures ok ==> ReadMember(v, k) == Some(Holds(x))
    ensures ok && !v.node.isArray ==>
      v.node.fields == old(v.node.fields)[k := x] && v.node.elems == old(v.node.elems)
    ensures ok && v.node.isArray ==>
      && v.node.fields == old(v.node.fields)
      && v.node.elems == (if IndexOf(k).value < |old(v.node.elems)| then old(v.node.elems)[IndexOf(k).value := x]
                          else old(v.node.elems) + [x])
    ensures !ok && v.Ref? ==> v.node.fields == old(v.node.fields) && v.node.elems == old(v.node.elems)
    ensures ok ==> OnlyKeyChanged(v.node, k, old(Contents(v.node.fields, v.node.elems)))
  {
    ok := Assignable(v, k);
    if ok {
      var n := v.node;
      if !n.isArray {
        n.fields := n.fields[k := x];
      } else if IndexOf(k).value < |n.elems| {
        n.elems := n.elems[IndexOf(k).value := x];
      } else {
        n.elems := n.elems + [x];
      }
    }
  }

  /** Whether the walk below the top-level copy gets through: every read
      along `keys` from `v` succeeds, a segment that reads `undefined` can be
      created, and the leaf can be assigned. Below a created `{}` every later
      step succeeds. */
  ghost predicate CanWrite(v: Val, keys: seq<string>, R: set<Node>)
    requires |keys| >= 1
    reads R
    decreases |keys|
  {
    if v.Ref? && v.node !in R then false
    else if |keys| == 1 then Assignable(v, keys[0])
    else
      match ReadMember(v, keys[0])
      case None => false
      case Some(Absent) => Assignable(v, keys[0])
      case Some(Holds(c)) => CanWrite(c, keys[1..], R)
  }

  /** Whether `updateField` gets through, given the copy's fields `spread`:
      the copy is a plain object, so its own step always succeeds. */
  ghost predicate UpdateSucceeds(spread: map<string, Val>, keys: seq<string>, R: set<Node>)
    requires |keys| >= 1
    reads R
  {
    |keys| == 1 || keys[0] !in spread || CanWrite(spread[keys[0]], keys[1..], R)
  }

  /** A chain of nodes linked by `keys` whose last node holds `x` under the
      last key is a path that reads `x`. */
  lemma {:induction false} ChainWalk(chain: seq<Node>, keys: seq<string>, x: Val, R: set<Node>)
    requires |chain| == |keys| >= 1
    requires forall j | 0 <= j < |chain| :: chain[j] in R
    requires forall j | 0 <= j < |chain| - 1 ::
      ReadMember(Ref(chain[j]), keys[j]) == Some(Holds(Ref(chain[j + 1])))
    requires ReadMember(Ref(chain[|chain| - 1]), keys[|keys| - 1]) == Some(Holds(x))
    ensures Walk(Ref(chain[0]), keys, R) == Some(Holds(x))
    decreases |keys|
  {
    if |keys| > 1 {
      assert ReadMember(Ref(chain[0]), keys[0]) == Some(Holds(Ref(chain[1])));
      ChainWalk(chain[1..], keys[1..], x, R);
    } else {
      assert keys[1..] == [];
    }
  }

  /** The nodes of a chain but its last one: those a walk has left behind. */
  ghost function Passed(chain: seq<Node>): set<Node> {
    set j | 0 <= j < |chain| - 1 :: chain[j]
  }

  /** Each node of the chain holds the next one under its key. */
  ghost predicate Linked(chain: seq<Node>, keys: seq<string>)
    requires |chain| <= |keys|
    reads Passed(chain)
  {
    forall j | 0 <= j < |chain| - 1 :: ReadMember(Ref(chain[j]), keys[j]) == Some(Holds(Ref(chain[j + 1])))
  }

  /** Ranks strictly increase along the chain, so its nodes are distinct. */
  ghost predicate Ascending(chain: seq<Node>) {
    forall j, l | 0 <= j < l < |chain| :: chain[j].rank < chain[l].rank
  }

  /** Each node the walk has left behind, after the copy, either existed
      before or is a created plain object holding just the next key. */
  ghost predicate CreatedHoldNext(chain: seq<Node>, keys: seq<string>, R0: set<Node>)
    requires |chain| <= |keys|
    reads Passed(chain)
  {
    forall j | 1 <= j < |chain| - 1 ::
      chain[j] in R0 || (!chain[j].isArray && chain[j].fields.Keys == {keys[j]})
  }

  /** The same chain entered from another node that links to its second
      node under the first key. */
  lemma ChainWalkFrom(start: Node, chain: seq<Node>, keys: seq<string>, x: Val, R: set<Node>)
    requires |chain| == |keys| >= 2 && start in R
    requires ReadMember(Ref(start), keys[0]) == Some(Holds(Ref(chain[1])))
    requires forall j | 0 <= j < |chain| :: chain[j] in R
    requires forall j | 0 <= j < |chain| - 1 ::
      ReadMember(Ref(chain[j]), keys[j]) == Some(Holds(Ref(chain[j + 1])))
    requires ReadMember(Ref(chain[|chain| - 1]), keys[|keys| - 1]) == Some(Holds(x))
    ensures Walk(Ref(start), keys, R) == Some(Holds(x))
  {
    ChainWalk(chain[1..], keys[1..], x, R);
  }

  /** A node whose contents are those recorded for it in `snap`. */
  ghost predicate Kept(n: Node, snap: map<Node, Contents>)
    requires n in snap
    reads n
  {
    n.fields == snap[n].fields && n.elems == snap[n].elems
  }

  /** Where the walk of `updateField` starts: the tree `top0` it updates; the
      copy `root` of its top-level object, made with the fields `spread`; the nodes `R0` of the tree as it
      was, with their contents `snap` then; whether the update can get
      through (`goal`); the rank bound `hi` of `R0 + {root}`. */
  datatype Start = Start(
    top0: Val, root: Node, keys: seq<string>, R0: set<Node>, snap: map<Node, Contents>,
    spread: map<string, Val>, goal: bool, hi: int)

  /** Where the walk is after `i` steps: the value `current` it reached, the
      nodes `chain` it went through, the `{}` objects `made` so far, their
      rank bound `top`, and whether any was made. */
  datatype Progress = Progress(i: int, current: Val, chain: seq<Node>, made: set<Node>, top: int, created: bool)

  /** A point of the walk. */
  datatype At = At(s: Start, p: Progress)

  /** The end of the walk, where the leaf is assigned `x`. */
  datatype Leaf = Leaf(s: Start, p: Progress, x: Val)

  /** What the walk has changed: every old node outside `gone` is as it was,
      and the node `gone[j]` differs at most under `keys[j]`. */
  ghost predicate ChangedOnly(s: Start, gone: seq<Node>)
    reads s.R0
  {
    && s.R0 <= s.snap.Keys && |gone| <= |s.keys|
    && (forall n | n in s.R0 && n !in gone :: Kept(n, s.snap))
    && (forall j | 0 <= j < |gone| && gone[j] in s.R0 :: OnlyKeyChanged(gone[j], s.keys[j], s.snap[gone[j]]))
  }

  /** While no old node has changed, any nodes may be counted as gone. */
  lemma AllKeptChangedOnly(s: Start, gone: seq<Node>)
    requires s.R0 <= s.snap.Keys && |gone| <= |s.keys|
    requires forall n | n in s.R0 :: Kept(n, s.snap)
    ensures ChangedOnly(s, gone)
  {
  }

  /** The node the walk stands on is not among those it has left behind. */
  lemma LastNotPassed(chain: seq<Node>)
    requires |chain| >= 1 && Ascending(chain)
    ensures chain[|chain| - 1] !in chain[..|chain| - 1]
  {
  }

  /** The chain of a walk whose last node has just been changed. */
  datatype Touch = Touch(s: Start, chain: seq<Node>, n: Node)

  /** Changing the node the walk stands on, the last of its chain, under its
      key only, extends what the walk has changed by that node. */
  twostate lemma TouchKeeps(t: Touch)
    requires 1 <= |t.chain| <= |t.s.keys| && Ascending(t.chain) && t.chain[|t.chain| - 1] == t.n
    requires old(ChangedOnly(t.s, t.chain[..|t.chain| - 1]))
    requires t.n in t.s.R0 ==> OnlyKeyChanged(t.n, t.s.keys[|t.chain| - 1], Contents(old(t.n.fields), old(t.n.elems)))
    requires forall m | m in t.s.R0 && m != t.n :: m.fields == old(m.fields) && m.elems == old(m.elems)
    ensures ChangedOnly(t.s, t.chain)
  {
    var n := t.n;
    LastNotPassed(t.chain);
    assert t.chain == t.chain[..|t.chain| - 1] + [n];
    if n in t.s.R0 {
      assert old(Kept(n, t.s.snap));
      assert t.s.snap[n] == Contents(old(n.fields), old(n.elems));
    }
  }

  /** The loop invariant of the walk. Until a `{}` is made nothing has
      changed; after that the walk only goes through made objects. */
  ghost predicate Walking(s: Start, p: Progress)
    reads s.R0, s.root, p.made
  {
    WalkFrame(s, p) && WalkChain(s, p) && WalkGoal(s, p)
  }

  /** The part of Walking about the nodes and their ranks. */
  ghost predicate WalkFrame(s: Start, p: Progress)
    reads s.R0, s.root, p.made
  {
    && |s.keys| >= 1 && 0 <= p.i <= |s.keys| - 1
    && s.root !in s.R0 && s.root !in p.made && s.R0 !! p.made && !s.root.isArray
    && s.R0 <= s.snap.Keys
    && (!p.created ==> p.made == {}) && s.hi <= p.top
    && Closed(s.R0 + {s.root} + p.made, p.top)
    && Inside(p.current, s.R0 + {s.root} + p.made)
    && s.root.fields - {s.keys[0]} == s.spread - {s.keys[0]}
    && (p.i == 0 ==> p.current == Ref(s.root) && s.root.fields == s.spread && !p.created)
  }

  /** The part of Walking about the chain of nodes gone through. */
  ghost predicate WalkChain(s: Start, p: Progress)
    reads s.R0, s.root, p.made
  {
    && |s.keys| >= 1 && 0 <= p.i <= |s.keys| - 1
    && 1 <= |p.chain| <= p.i + 1 && p.chain[0] == s.root
    && (p.current.Ref? ==> |p.chain| == p.i + 1 && p.chain[p.i] == p.current.node)
    && (p.current.Prim? ==> !p.created && p.i >= 1)
    && (p.created ==>
          p.current.Ref? && p.current.node in p.made && p.current.node.fields == map[] && !p.current.node.isArray)
    && (p.i >= 1 && s.keys[0] in s.spread && s.spread[s.keys[0]].Ref? ==>
          |p.chain| >= 2 && p.chain[1] == s.spread[s.keys[0]].node)
    && (forall j | 1 <= j < |p.chain| :: p.chain[j] in s.R0 || p.chain[j] in p.made)
    && Linked(p.chain, s.keys) && Ascending(p.chain) && CreatedHoldNext(p.chain, s.keys, s.R0)
  }

  /** The part of Walking about what is kept and whether the update gets
      through. */
  ghost predicate WalkGoal(s: Start, p: Progress)
    reads s.R0, s.root, p.made
  {
    && |s.keys| >= 1 && 0 <= p.i <= |s.keys| - 1 && s.R0 <= s.snap.Keys
    && (forall n | n in s.R0 && n.rank <= s.root.rank :: Kept(n, s.snap))
    && (!p.created ==> s.root.fields == s.spread && forall n | n in s.R0 :: Kept(n, s.snap))
    && (p.created ==> s.goal)
    && (p.i == 0 ==> (s.goal <==> UpdateSucceeds(s.spread, s.keys, s.R0)))
    && (!p.created && p.i >= 1 && p.current.Ref? ==> p.current.node in s.R0)
    && (!p.created && p.i >= 1 ==> (s.goal <==> CanWrite(p.current, s.keys[p.i..], s.R0)))
  }

  /** The walk after a step onto the existing value `v`. */
  ghost function ReadOn(p: Progress, v: Val): Progress {
    Progress(p.i + 1, v, if v.Ref? then p.chain + [v.node] else p.chain, p.made, p.top, p.created)
  }

  /** A step onto an existing value keeps the invariant. */
  lemma ReadKeeps(s: Start, p: Progress, v: Val)
    requires Walking(s, p) && p.i < |s.keys| - 1
    requires ReadMember(p.current, s.keys[p.i]) == Some(Holds(v))
    ensures Walking(s, ReadOn(p, v))
  {
    var keys := s.keys;
    var i := p.i;
    assert !p.created;
    assert keys[i..][0] == keys[i] && keys[i..][1..] == keys[i + 1..];
    if v.Ref? {
      assert p.current.Ref?;
      assert v.node.rank > p.current.node.rank;
    }
  }

  /** A step onto an existing value changes nothing: it happens only before
      any `{}` is made, while every old node is as it was. */
  lemma ReadChangesNothing(s: Start, p: Progress, v: Val)
    requires Walking(s, p) && p.i < |s.keys| - 1
    requires ReadMember(p.current, s.keys[p.i]) == Some(Holds(v))
    ensures ChangedOnly(s, ReadOn(p, v).chain[..|ReadOn(p, v).chain| - 1])
  {
    assert !p.created;
    AllKeptChangedOnly(s, ReadOn(p, v).chain[..|ReadOn(p, v).chain| - 1]);
  }

  /** A step that links a new `{}` in keeps the invariant; `Before` is the
      state just before the link. */
  twostate lemma CreateKeeps(t: At, new child: Node)
    requires old(Walking(t.s, t.p)) && t.p.i < |t.s.keys| - 1
    requires old(ReadMember(t.p.current, t.s.keys[t.p.i])) == Some(Absent)
    requires old(Assignable(t.p.current, t.s.keys[t.p.i])) && t.p.current.Ref?
    requires child.rank == t.p.top + 1 && !child.isArray && child.fields == map[]
    requires Closed(t.s.R0 + {t.s.root} + t.p.made + {child}, t.p.top + 1)
    requires ReadMember(t.p.current, t.s.keys[t.p.i]) == Some(Holds(Ref(child)))
    requires !t.p.current.node.isArray ==>
      t.p.current.node.fields == old(t.p.current.node.fields)[t.s.keys[t.p.i] := Ref(child)]
    requires forall n | n in t.s.R0 + {t.s.root} + t.p.made && n != t.p.current.node ::
      n.fields == old(n.fields) && n.elems == old(n.elems)
    ensures Walking(t.s, Progress(t.p.i + 1, Ref(child), t.p.chain + [child], t.p.made + {child}, t.p.top + 1, true))
  {
    CreateKeepsFrame(t, child);
    CreateKeepsChain(t, child);
    CreateKeepsGoal(t, child);
  }

  twostate lemma CreateKeepsFrame(t: At, new child: Node)
    requires old(Walking(t.s, t.p)) && t.p.i < |t.s.keys| - 1
    requires old(ReadMember(t.p.current, t.s.keys[t.p.i])) == Some(Absent)
    requires old(Assignable(t.p.current, t.s.keys[t.p.i])) && t.p.current.Ref?
    requires child.rank == t.p.top + 1 && !child.isArray && child.fields == map[]
    requires Closed(t.s.R0 + {t.s.root} + t.p.made + {child}, t.p.top + 1)
    requires ReadMember(t.p.current, t.s.keys[t.p.i]) == Some(Holds(Ref(child)))
    requires !t.p.current.node.isArray ==>
      t.p.current.node.fields == old(t.p.current.node.fields)[t.s.keys[t.p.i] := Ref(child)]
    requires forall n | n in t.s.R0 + {t.s.root} + t.p.made && n != t.p.current.node ::
      n.fields == old(n.fields) && n.elems == old(n.elems)
    ensures WalkFrame(t.s, Progress(t.p.i + 1, Ref(child), t.p.chain + [child], t.p.made + {child}, t.p.top + 1, true))
  {
    assert child !in t.s.R0 + {t.s.root} + t.p.made;
  }

  twostate lemma CreateKeepsChain(t: At, new child: Node)
    requires old(Walking(t.s, t.p)) && t.p.i < |t.s.keys| - 1
    requires old(ReadMember(t.p.current, t.s.keys[t.p.i])) == Some(Absent)
    requires old(Assignable(t.p.current, t.s.keys[t.p.i])) && t.p.current.Ref?
    requires child.rank == t.p.top + 1 && !child.isArray && child.fields == map[]
    requires Closed(t.s.R0 + {t.s.root} + t.p.made + {child}, t.p.top + 1)
    requires ReadMember(t.p.current, t.s.keys[t.p.i]) == Some(Holds(Ref(child)))
    requires !t.p.current.node.isArray ==>
      t.p.current.node.fields == old(t.p.current.node.fields)[t.s.keys[t.p.i] := Ref(child)]
    requires forall n | n in t.s.R0 + {t.s.root} + t.p.made && n != t.p.current.node ::
      n.fields == old(n.fields) && n.elems == old(n.elems)
    ensures WalkChain(t.s, Progress(t.p.i + 1, Ref(child), t.p.chain + [child], t.p.made + {child}, t.p.top + 1, true))
  {
    assert child !in t.s.R0 + {t.s.root} + t.p.made;
    CreateLinked(t, child);
    CreateHolds(t, child);
  }

  twostate lemma CreateLinked(t: At, new child: Node)
    requires old(Walking(t.s, t.p)) && t.p.i < |t.s.keys| - 1
    requires old(ReadMember(t.p.current, t.s.keys[t.p.i])) == Some(Absent)
    requires old(Assignable(t.p.current, t.s.keys[t.p.i])) && t.p.current.Ref?
    requires child.rank == t.p.top + 1 && !child.isArray && child.fields == map[]
    requires Closed(t.s.R0 + {t.s.root} + t.p.made + {child}, t.p.top + 1)
    requires ReadMember(t.p.current, t.s.keys[t.p.i]) == Some(Holds(Ref(child)))
    requires !t.p.current.node.isArray ==>
      t.p.current.node.fields == old(t.p.current.node.fields)[t.s.keys[t.p.i] := Ref(child)]
    requires forall n | n in t.s.R0 + {t.s.root} + t.p.made && n != t.p.current.node ::
      n.fields == old(n.fields) && n.elems == old(n.elems)
    ensures Linked(t.p.chain + [child], t.s.keys)
  {
    var c := t.p.chain + [child];
    forall j | 0 <= j < |c| - 1
      ensures ReadMember(Ref(c[j]), t.s.keys[j]) == Some(Holds(Ref(c[j + 1])))
    {
      if j < |t.p.chain| - 1 {
        assert c[j].rank < t.p.current.node.rank;
        assert c[j].fields == old(c[j].fields) && c[j].elems == old(c[j].elems);
      }
    }
  }

  twostate lemma CreateHolds(t: At, new child: Node)
    requires old(Walking(t.s, t.p)) && t.p.i < |t.s.keys| - 1
    requires old(ReadMember(t.p.current, t.s.keys[t.p.i])) == Some(Absent)
    requires old(Assignable(t.p.current, t.s.keys[t.p.i])) && t.p.current.Ref?
    requires child.rank == t.p.top + 1 && !child.isArray && child.fields == map[]
    requires Closed(t.s.R0 + {t.s.root} + t.p.made + {child}, t.p.top + 1)
    requires ReadMember(t.p.current, t.s.keys[t.p.i]) == Some(Holds(Ref(child)))
    requires !t.p.current.node.isArray ==>
      t.p.current.node.fields == old(t.p.current.node.fields)[t.s.keys[t.p.i] := Ref(child)]
    requires forall n | n in t.s.R0 + {t.s.root} + t.p.made && n != t.p.current.node ::
      n.fields == old(n.fields) && n.elems == old(n.elems)
    ensures CreatedHoldNext(t.p.chain + [child], t.s.keys, t.s.R0)
  {
  }

  twostate lemma CreateKeepsGoal(t: At, new child: Node)
    requires old(Walking(t.s, t.p)) && t.p.i < |t.s.keys| - 1
    requires old(ReadMember(t.p.current, t.s.keys[t.p.i])) == Some(Absent)
    requires old(Assignable(t.p.current, t.s.keys[t.p.i])) && t.p.current.Ref?
    requires child.rank == t.p.top + 1 && !child.isArray && child.fields == map[]
    requires Closed(t.s.R0 + {t.s.root} + t.p.made + {child}, t.p.top + 1)
    requires ReadMember(t.p.current, t.s.keys[t.p.i]) == Some(Holds(Ref(child)))
    requires !t.p.current.node.isArray ==>
      t.p.current.node.fields == old(t.p.current.node.fields)[t.s.keys[t.p.i] := Ref(child)]
    requires forall n | n in t.s.R0 + {t.s.root} + t.p.made && n != t.p.current.node ::
      n.fields == old(n.fields) && n.elems == old(n.elems)
    ensures WalkGoal(t.s, Progress(t.p.i + 1, Ref(child), t.p.chain + [child], t.p.made + {child}, t.p.top + 1, true))
  {
    var keys := t.s.keys;
    var i := t.p.i;
    assert keys[i..][0] == keys[i] && keys[i..][1..] == keys[i + 1..];
    assert child !in t.s.R0 + {t.s.root} + t.p.made;
  }

  /** A read that throws means the update cannot get through. */
  lemma NoReadNoGoal(s: Start, p: Progress)
    requires Walking(s, p) && p.i < |s.keys| - 1
    requires ReadMember(p.current, s.keys[p.i]).None?
    ensures !p.created && !s.goal
  {
    assert s.keys[p.i..][0] == s.keys[p.i];
  }

  /** A segment that reads `undefined` on a value that cannot take it means
      the update cannot get through. */
  lemma NoLinkNoGoal(s: Start, p: Progress)
    requires Walking(s, p) && p.i < |s.keys| - 1
    requires ReadMember(p.current, s.keys[p.i]) == Some(Absent)
    requires !Assignable(p.current, s.keys[p.i])
    ensures !p.created && !s.goal
  {
    assert s.keys[p.i..][0] == s.keys[p.i];
  }

  /** The leaf cannot be assigned: the update cannot get through. */
  lemma NoLeafNoGoal(s: Start, p: Progress)
    requires Walking(s, p) && p.i == |s.keys| - 1
    requires !Assignable(p.current, s.keys[p.i])
    ensures !p.created && !s.goal
  {
    assert s.keys[p.i..] == [s.keys[p.i]];
  }

  /** After the leaf is assigned `x`: the chain runs from the copy along all
      of `keys` to `x`; each object after the copy is an old one, or a made
      `{}` now holding just the next key; the copy keeps the other top-level
      keys; the old objects ranked no deeper than the copy are as they were;
      and the update was one that gets through. */
  ghost predicate Placed(s: Start, p: Progress, x: Val)
    reads s.R0, s.root, p.made
  {
    PlacedChain(s, p, x) && PlacedRest(s, p)
  }

  /** The part of Placed about the chain from the copy to `x`. */
  ghost predicate PlacedChain(s: Start, p: Progress, x: Val)
    reads s.R0, s.root, p.made
  {
    && |s.keys| >= 1
    && |p.chain| == |s.keys| && p.chain[0] == s.root
    && (forall j | 1 <= j < |p.chain| :: p.chain[j] in s.R0 || p.chain[j] in p.made)
    && (forall j | 0 <= j < |p.chain| - 1 ::
          ReadMember(Ref(p.chain[j]), s.keys[j]) == Some(Holds(Ref(p.chain[j + 1]))))
    && ReadMember(Ref(p.chain[|p.chain| - 1]), s.keys[|s.keys| - 1]) == Some(Holds(x))
    && (forall j | 1 <= j < |p.chain| ::
          || p.chain[j] in s.R0
          || (!p.chain[j].isArray && p.chain[j].fields.Keys == {s.keys[j]}))
    && (|s.keys| >= 2 && s.keys[0] in s.spread && s.spread[s.keys[0]].Ref? ==>
          p.chain[1] == s.spread[s.keys[0]].node)
  }

  /** The part of Placed about the rest of the tree. */
  ghost predicate PlacedRest(s: Start, p: Progress)
    reads s.R0, s.root, p.made
  {
    && s.goal && |s.keys| >= 1 && s.R0 <= s.snap.Keys
    && Closed(s.R0 + {s.root} + p.made, p.top)
    && s.root.fields - {s.keys[0]} == s.spread - {s.keys[0]}
    && (forall n | n in s.R0 && n.rank <= s.root.rank :: Kept(n, s.snap))
  }

  /** Assigning the leaf at the end of the walk establishes Placed. */
  twostate lemma LeafKeeps(t: Leaf)
    requires old(Walking(t.s, t.p)) && t.p.i == |t.s.keys| - 1 && t.x.Prim?
    requires old(Assignable(t.p.current, t.s.keys[t.p.i])) && t.p.current.Ref?
    requires Closed(t.s.R0 + {t.s.root} + t.p.made, t.p.top)
    requires ReadMember(t.p.current, t.s.keys[t.p.i]) == Some(Holds(t.x))
    requires !t.p.current.node.isArray ==>
      t.p.current.node.fields == old(t.p.current.node.fields)[t.s.keys[t.p.i] := t.x]
    requires forall n | n in t.s.R0 + {t.s.root} + t.p.made && n != t.p.current.node ::
      n.fields == old(n.fields) && n.elems == old(n.elems)
    ensures Placed(t.s, t.p, t.x)
  {
    assert t.s.keys[t.p.i..] == [t.s.keys[t.p.i]];
    LeafKeepsChain(t);
    LeafKeepsLinks(t);
  }

  /** The chain part of Placed but its links. */
  twostate lemma LeafKeepsChain(t: Leaf)
    requires old(Walking(t.s, t.p)) && t.p.i == |t.s.keys| - 1 && t.x.Prim?
    requires old(Assignable(t.p.current, t.s.keys[t.p.i])) && t.p.current.Ref?
    requires Closed(t.s.R0 + {t.s.root} + t.p.made, t.p.top)
    requires ReadMember(t.p.current, t.s.keys[t.p.i]) == Some(Holds(t.x))
    requires !t.p.current.node.isArray ==>
      t.p.current.node.fields == old(t.p.current.node.fields)[t.s.keys[t.p.i] := t.x]
    requires forall n | n in t.s.R0 + {t.s.root} + t.p.made && n != t.p.current.node ::
      n.fields == old(n.fields) && n.elems == old(n.elems)
    ensures |t.p.chain| == |t.s.keys| && t.p.chain[0] == t.s.root
    ensures forall j | 1 <= j < |t.p.chain| ::
      || t.p.chain[j] in t.s.R0
      || (!t.p.chain[j].isArray && t.p.chain[j].fields.Keys == {t.s.keys[j]})
  {
  }

  /** The links of the chain after the leaf is assigned. */
  twostate lemma LeafKeepsLinks(t: Leaf)
    requires old(Walking(t.s, t.p)) && t.p.i == |t.s.keys| - 1 && t.x.Prim?
    requires old(Assignable(t.p.current, t.s.keys[t.p.i])) && t.p.current.Ref?
    requires Closed(t.s.R0 + {t.s.root} + t.p.made, t.p.top)
    requires ReadMember(t.p.current, t.s.keys[t.p.i]) == Some(Holds(t.x))
    requires !t.p.current.node.isArray ==>
      t.p.current.node.fields == old(t.p.current.node.fields)[t.s.keys[t.p.i] := t.x]
    requires forall n | n in t.s.R0 + {t.s.root} + t.p.made && n != t.p.current.node ::
      n.fields == old(n.fields) && n.elems == old(n.elems)
    ensures |t.p.chain| == |t.s.keys|
    ensures forall j | 0 <= j < |t.p.chain| - 1 ::
      ReadMember(Ref(t.p.chain[j]), t.s.keys[j]) == Some(Holds(Ref(t.p.chain[j + 1])))
  {
  }

  /** `current[keys[keys.length - 1]] = x` at the end of the walk; `written`
      is false, with nothing changed, where the assignment throws. */
  method SetLeaf(current: Val, key: string, x: Val, ghost s: Start, ghost p: Progress) returns (written: bool)
    requires Walking(s, p) && p.i == |s.keys| - 1 && current == p.current && key == s.keys[p.i] && x.Prim?
    requires ChangedOnly(s, p.chain[..|p.chain| - 1])
    modifies if current.Ref? then {current.node} else {}
    ensures written ==> Placed(s, p, x) && ChangedOnly(s, p.chain)
    ensures !written ==> !s.goal && !p.created && Walking(s, p)
  {
    if !Assignable(current, key) {
      NoLeafNoGoal(s, p);
      return false;
    }
    label Walked:
    written := Assign(current, key, x, s.R0 + {s.root} + p.made, p.top);
    LeafKeeps@Walked(Leaf(s, p, x));
    TouchKeeps@Walked(Touch(s, p.chain, current.node));
  }

  /** `current[key] = {}`: a new empty plain object, ranked below every
      node of the closed set `R`, linked in under `key`. `current` is the
      last node of the walk's chain `t.chain`, so the walk has changed only
      the nodes of that chain. */
  method Create(current: Val, key: string, ghost R: set<Node>, ghost top: int, ghost t: Touch) returns (child: Node)
    requires Closed(R, top) && Inside(current, R) && current.Ref? && Assignable(current, key)
    requires 1 <= |t.chain| <= |t.s.keys| && Ascending(t.chain) && t.chain[|t.chain| - 1] == t.n == current.node
    requires t.s.keys[|t.chain| - 1] == key && ChangedOnly(t.s, t.chain[..|t.chain| - 1])
    modifies current.node
    ensures fresh(child) && child.rank == top + 1 && !child.isArray && child.fields == map[]
    ensures Closed(R + {child}, top + 1)
    ensures ReadMember(current, key) == Some(Holds(Ref(child)))
    ensures !current.node.isArray ==>
      current.node.fields == old(current.node.fields)[key := Ref(child)] && current.node.elems == old(current.node.elems)
    ensures current.node.isArray ==>
      && current.node.fields == old(current.node.fields)
      && current.node.elems == (if IndexOf(key).value < |old(current.node.elems)|
                                then old(current.node.elems)[IndexOf(key).value := Ref(child)]
                                else old(current.node.elems) + [Ref(child)])
    ensures OnlyKeyChanged(current.node, key, Contents(old(current.node.fields), old(current.node.elems)))
    ensures ChangedOnly(t.s, t.chain)
  {
    child := new Node.Object(map[], top + 1);
    AdoptNode(R, top + 1, child);
    var linked := Assign(current, key, Ref(child), R + {child}, top + 1);
    TouchKeeps(t);
  }

  /** One turn of the walk: `current[key]` read, `{}` linked in where it
      reads `undefined`, and the walk moved on; `go` is false, with nothing
      changed, where the read throws or the link cannot be made. */
  method Step(current: Val, keys: seq<string>, i: int, ghost s: Start, ghost p: Progress)
    returns (go: bool, next: Val, ghost q: Progress)
    requires Walking(s, p) && keys == s.keys && i == p.i < |keys| - 1 && current == p.current
    requires ChangedOnly(s, p.chain[..|p.chain| - 1])
    modifies if current.Ref? then {current.node} else {}
    ensures go ==> Walking(s, q) && q.i == i + 1 && q.current == next
    ensures go ==> p.made <= q.made && fresh(q.made - p.made)
    ensures go ==> ChangedOnly(s, q.chain[..|q.chain| - 1])
    ensures !go ==> !s.goal && !p.created && Walking(s, p)
  {
    var read := ReadMember(current, keys[i]);
    if read.None? {
      NoReadNoGoal(s, p);
      return false, current, p;
    }
    if read.value.Absent? {
      if !Assignable(current, keys[i]) {
        NoLinkNoGoal(s, p);
        return false, current, p;
      }
      next, q := Link(current, keys, i, s, p);
    } else {
      next := read.value.v;
      ReadKeeps(s, p, next);
      ReadChangesNothing(s, p, next);
      q := ReadOn(p, next);
    }
    go := true;
  }

  /** A segment that reads `undefined` on an object or array: a new `{}` is
      assigned there and the walk moves into it. */
  method Link(current: Val, keys: seq<string>, i: int, ghost s: Start, ghost p: Progress)
    returns (next: Val, ghost q: Progress)
    requires Walking(s, p) && keys == s.keys && i == p.i < |keys| - 1 && current == p.current
    requires ReadMember(current, keys[i]) == Some(Absent) && Assignable(current, keys[i]) && current.Ref?
    requires ChangedOnly(s, p.chain[..|p.chain| - 1])
    modifies current.node
    ensures Walking(s, q) && q.i == i + 1 && q.current == next
    ensures p.made <= q.made && fresh(q.made - p.made)
    ensures ChangedOnly(s, q.chain[..|q.chain| - 1])
  {
    var child := Create(current, keys[i], s.R0 + {s.root} + p.made, p.top, Touch(s, p.chain, current.node));
    CreateKeeps(At(s, p), child);
    next := Ref(child);
    q := Progress(i + 1, next, p.chain + [child], p.made + {child}, p.top + 1, true);
    assert q.chain[..|q.chain| - 1] == p.chain;
  }

  /** Before the first step the invariant holds and nothing has changed. */
  lemma WalkStarts(s: Start)
    requires |s.keys| >= 1
    requires s.root !in s.R0 && !s.root.isArray && s.root.fields == s.spread
    requires Closed(s.R0 + {s.root}, s.hi) && s.R0 <= s.snap.Keys
    requires forall n | n in s.R0 :: Kept(n, s.snap)
    requires s.goal == UpdateSucceeds(s.spread, s.keys, s.R0)
    ensures Walking(s, Progress(0, Ref(s.root), [s.root], {}, s.hi, false))
    ensures ChangedOnly(s, [s.root][..0])
  {
  }

  /** The walk of `updateField` below the top-level copy `root`: read each
      segment but the last, creating `{}` wherever one reads `undefined`.
      Stops with `ok` false, having changed nothing, where a read throws or
      a `{}` cannot be linked in; otherwise `current` is the parent of the
      leaf. */
  method Descend(root: Node, keys: seq<string>, ghost s: Start) returns (ok: bool, current: Val, ghost p: Progress)
    requires s.root == root && s.keys == keys && |keys| >= 1
    requires root !in s.R0 && !root.isArray && root.fields == s.spread
    requires Closed(s.R0 + {root}, s.hi) && s.R0 <= s.snap.Keys
    requires forall n | n in s.R0 :: Kept(n, s.snap)
    requires s.goal == UpdateSucceeds(s.spread, keys, s.R0)
    modifies s.R0, root
    ensures fresh(p.made) && current == p.current
    ensures ok ==> Walking(s, p) && p.i == |keys| - 1 && ChangedOnly(s, p.chain[..|p.chain| - 1])
    ensures !ok ==> !s.goal && p.made == {} && root.fields == s.spread && forall n | n in s.R0 :: Kept(n, s.snap)
  {
    current := Ref(root);
    p := Progress(0, current, [root], {}, s.hi, false);
    WalkStarts(s);
    var i := 0;
    while i < |keys| - 1
      invariant fresh(p.made) && p.i == i && p.current == current
      invariant Walking(s, p)
      invariant ChangedOnly(s, p.chain[..|p.chain| - 1])
    {
      var go, next, q := Step(current, keys, i, s, p);
      if !go {
        return false, current, p;
      }
      current, p := next, q;
      i := i + 1;
    }
    ok := true;
  }

  /** The walk and the leaf assignment of `updateField` on the copy `root`:
      `ok` exactly when the update gets through, and then Placed; otherwise
      nothing has changed. */
  method WritePath(root: Node, keys: seq<string>, x: Val, ghost s: Start) returns (ok: bool, ghost p: Progress)
    requires s.root == root && s.keys == keys && |keys| >= 1 && x.Prim?
    requires root !in s.R0 && !root.isArray && root.fields == s.spread
    requires Closed(s.R0 + {root}, s.hi) && s.R0 <= s.snap.Keys
    requires forall n | n in s.R0 :: Kept(n, s.snap)
    requires s.goal == UpdateSucceeds(s.spread, keys, s.R0)
    modifies s.R0, root
    ensures fresh(p.made) && ok == s.goal
    ensures ok ==> Placed(s, p, x) && ChangedOnly(s, p.chain)
    ensures !ok ==> p.made == {} && root.fields == s.spread && forall n | n in s.R0 :: Kept(n, s.snap)
  {
    var walked, current;
    walked, current, p := Descend(root, keys, s);
    if !walked {
      return false, p;
    }
    ok := SetLeaf(current, keys[|keys| - 1], x, s, p);
  }

  /** Under Placed the copy reads `x` along the keys. */
  lemma PlacedWalk(s: Start, p: Progress, x: Val)
    requires Placed(s, p, x)
    ensures Walk(Ref(s.root), s.keys, s.R0 + {s.root} + p.made) == Some(Holds(x))
  {
    ChainWalk(p.chain, s.keys, x, s.R0 + {s.root} + p.made);
  }

  /** Under Placed, an old plain object `m` ranked no deeper than the copy,
      whose fields were those the copy was made with, reads `x` along the
      keys too, through the same second object. */
  lemma PlacedWalkShared(s: Start, p: Progress, x: Val, m: Node)
    requires Placed(s, p, x) && m in s.R0 && m.rank <= s.root.rank && !m.isArray && s.snap[m].fields == s.spread
    requires |s.keys| >= 2 && s.keys[0] in s.spread && s.spread[s.keys[0]].Ref?
    ensures p.chain[1] == s.spread[s.keys[0]].node
    ensures Walk(Ref(m), s.keys, s.R0 + {s.root} + p.made) == Some(Holds(x))
  {
    assert Kept(m, s.snap);
    ChainWalkFrom(m, p.chain, s.keys, x, s.R0 + {s.root} + p.made);
  }

  /** Whether the old tree shares the object under the first segment with
      the copy: it is a plain object whose first segment holds an object,
      and the path goes below it. */
  predicate Shares(s: Start) {
    && |s.keys| >= 2 && s.top0.Ref? && !s.top0.node.isArray
    && s.keys[0] in s.spread && s.spread[s.keys[0]].Ref?
  }

  /** Placed, and what it means for reading: the copy reads `x` along the
      keys, and so does the old tree when it shares the path with the copy. */
  ghost predicate Reached(s: Start, p: Progress, x: Val)
    reads s.R0, s.root, p.made
  {
    && Placed(s, p, x)
    && Walk(Ref(s.root), s.keys, s.R0 + {s.root} + p.made) == Some(Holds(x))
    && (Shares(s) ==> Walk(s.top0, s.keys, s.R0 + {s.root} + p.made) == Some(Holds(x)))
  }

  lemma PlacedReached(s: Start, p: Progress, x: Val)
    requires Placed(s, p, x)
    requires s.top0.Ref? ==> s.top0.node in s.R0 && s.top0.node.rank <= s.root.rank
    requires s.top0.Ref? && !s.top0.node.isArray ==> s.snap[s.top0.node].fields == s.spread
    ensures Reached(s, p, x)
  {
    PlacedWalk(s, p, x);
    if Shares(s) {
      PlacedWalkShared(s, p, x, s.top0.node);
    }
  }

  /** Reached depends only on the nodes it is about. */
  twostate lemma ReachedKept(t: Leaf)
    requires old(Reached(t.s, t.p, t.x))
    requires unchanged(t.s.R0 + {t.s.root} + t.p.made)
    ensures Reached(t.s, t.p, t.x)
  {
  }

  /** The work of `updateField` on the tree `v`: copy its top level into the
      new object `root`, then walk and assign the leaf. `ok` exactly when the
      update gets through, and then Reached; otherwise no old node changed. */
  method UpdateTree(v: Val, keys: seq<string>, x: Val, ghost R: set<Node>, ghost hi: int)
    returns (ok: bool, root: Node, ghost s: Start, ghost p: Progress)
    requires Closed(R, hi) && Inside(v, R) && |keys| >= 1 && x.Prim?
    modifies R
    ensures fresh(root) && fresh(p.made) && !root.isArray
    ensures s.top0 == v && s.root == root && s.keys == keys && s.R0 == R && s.hi == hi
    ensures s.spread == old(SpreadOf(v)) && s.goal == old(UpdateSucceeds(SpreadOf(v), keys, R))
    ensures ok == s.goal
    ensures ok ==> Reached(s, p, x)
    ensures ok ==> forall n | n in R && n !in p.chain :: n.fields == old(n.fields) && n.elems == old(n.elems)
    ensures ok ==> forall n, j | n in R && 0 <= j < |p.chain| && p.chain[j] == n ::
      OnlyKeyChanged(n, keys[j], old(Contents(n.fields, n.elems)))
    ensures !ok ==> forall n | n in R :: n.fields == old(n.fields) && n.elems == old(n.elems)
  {
    var spread := SpreadOf(v);
    SpreadChildren(v, R, hi);
    ghost var r0 := if v.Ref? then v.node.rank else hi;
    root := new Node.Object(spread, r0);
    AdoptNode(R, hi, root);
    ghost var snap := map n | n in R :: Contents(n.fields, n.elems);
    s := Start(v, root, keys, R, snap, spread, UpdateSucceeds(spread, keys, R), hi);
    ok, p := WritePath(root, keys, x, s);
    if ok {
      PlacedReached(s, p, x);
      assert forall n | n in R :: s.snap[n] == old(Contents(n.fields, n.elems));
    }
  }

  // ------------------------------------------------------------ the store

  /** The outcome of reading an import file: the read failed, or the text was
      read and `JSON.parse` gave a tree (None when it threw). */
  datatype FileRead = ReadFailed | Loaded(parsed: Option<Json>)

  class DataStore {
    var data: Val
    /** The `defaultData` object: the first tree, and the one reset installs. */
    const defaultData: Val
    const storage: LocalStorage
    ghost var Repr: set<Node>
    ghost var hi: int

    ghost predicate Valid()
      reads this, Repr
    {
      Closed(Repr, hi) && Inside(data, Repr) && Inside(defaultData, Repr)
    }

    /** The tree the store currently shows. */
    function Tree(): Json
      requires Valid()
      reads this, Repr
    {
      Snap(data, Repr, hi)
    }

    /** The provider mounting: `useState(defaultData)`, then the load
        effect. */
    constructor Mount(ls: LocalStorage)
      ensures Valid() && fresh(Repr) && storage == ls
      ensures Snap(defaultData, Repr, hi) == FinancialDefaults()
      ensures ls.Saved(StorageKey).None? ==> data == defaultData
      ensures ls.Saved(StorageKey).Some? ==> Tree() == ls.Saved(StorageKey).value
    {
      var d, dm, dt := Materialize(FinancialDefaults(), 0);
      defaultData := d;
      data := d;
      storage := ls;
      Repr := dm;
      hi := dt;
      new;
      LoadSaved();
    }

    /** The load effect: a snapshot that parses replaces the tree; an
        unparsable one, or none, leaves it as it is. */
    method LoadSaved()
      requires Valid()
      modifies this
      ensures Valid() && old(Repr) <= Repr && fresh(Repr - old(Repr))
      ensures storage.Saved(StorageKey).None? ==> data == old(data) && Repr == old(Repr) && hi == old(hi)
      ensures storage.Saved(StorageKey).Some? ==> Tree() == storage.Saved(StorageKey).value
      ensures Snap(defaultData, Repr, hi) == old(Snap(defaultData, Repr, hi))
    {
      var saved := storage.Saved(StorageKey);
      if saved.Some? {
        Install(saved.value);
      }
    }

    /** `setData(parsed)` with a freshly parsed tree: new objects for every
        object and array in `j`, none shared with the old tree. */
    method Install(j: Json)
      requires Valid()
      modifies this
      ensures Valid() && old(Repr) <= Repr && fresh(Repr - old(Repr))
      ensures Tree() == j
      ensures Snap(defaultData, Repr, hi) == old(Snap(defaultData, Repr, hi))
    {
      var v, vm, vt := Materialize(j, hi + 1);
      ClosedUnion(Repr, hi, vm, vt);
      SnapGrow(defaultData, Repr, hi, Repr + vm, vt);
      SnapGrow(v, vm, vt, Repr + vm, vt);
      data := v;
      Repr := Repr + vm;
      hi := vt;
    }

    /** `saveData`: the current tree goes to local storage. */
    method SaveData()
      requires Valid()
      modifies storage
      ensures storage.items == old(storage.items)[StorageKey := Snapshot(Tree())]
    {
      storage.SetItem(StorageKey, Snap(data, Repr, hi));
    }

    /** `importData(file)`: whatever the file parses to becomes the tree, with
        no shape check and no write to storage; a read or parse error rejects
        and leaves the tree as it was. */
    method ImportData(read: FileRead) returns (resolved: bool)
      requires Valid()
      modifies this
      ensures Valid() && old(Repr) <= Repr
      ensures resolved <==> read.Loaded? && read.parsed.Some?
      ensures resolved ==> Tree() == read.parsed.value
      ensures !resolved ==> data == old(data) && Repr == old(Repr) && hi == old(hi)
      ensures Snap(defaultData, Repr, hi) == old(Snap(defaultData, Repr, hi))
    {
      if read.Loaded? && read.parsed.Some? {
        Install(read.parsed.value);
        resolved := true;
      } else {
        resolved := false;
      }
    }

    /** `resetData`: the `defaultData` object is the tree again, whatever was
        written into it, and the snapshot is gone. */
    method ResetData()
      requires Valid()
      modifies this, storage
      ensures Valid() && Repr == old(Repr) && hi == old(hi)
      ensures data == defaultData
      ensures storage.items == old(storage.items) - {StorageKey}
    {
      data := defaultData;
      storage.RemoveItem(StorageKey);
    }

    /** `updateField(path, value)`: copy the top-level object, walk to the
        parent of the last segment creating `{}` wherever a segment reads
        `undefined`, and assign the leaf in place. `chain` is the ghost list
        of the objects the walk went through, the copy first. */
    method UpdateField(path: string, value: Primitive) returns (ok: bool, ghost chain: seq<Node>)
      requires Valid()
      modifies this, Repr
      ensures Valid() && old(Repr) <= Repr && fresh(Repr - old(Repr))
      ensures ok == old(UpdateSucceeds(SpreadOf(data), Split(path, '.'), Repr))
      ensures !ok ==> data == old(data) && Repr == old(Repr) && hi == old(hi)
      ensures !ok ==> forall n | n in Repr :: n.fields == old(n.fields) && n.elems == old(n.elems)
      ensures ok ==> Walk(data, Split(path, '.'), Repr) == Some(Holds(Prim(value)))
      // the copy: a new plain object with the old top-level keys except the first segment
      ensures ok ==> data.Ref? && fresh(data.node) && !data.node.isArray
      ensures ok ==> data.node.fields - {Split(path, '.')[0]} == old(SpreadOf(data)) - {Split(path, '.')[0]}
      // the objects on the path: existing ones kept, missing ones created holding just the next key
      ensures ok ==> |chain| == |Split(path, '.')| && chain[0] == data.node
      ensures ok ==> forall j | 0 <= j < |chain| - 1 ::
        ReadMember(Ref(chain[j]), Split(path, '.')[j]) == Some(Holds(Ref(chain[j + 1])))
      ensures ok ==> forall j | 1 <= j < |chain| ::
        || chain[j] in old(Repr)
        || (fresh(chain[j]) && !chain[j].isArray && chain[j].fields.Keys == {Split(path, '.')[j]})
      // nothing else changes: an old object off the path is as it was, and an old
      // object on it differs at most under the segment the path takes from it
      ensures ok ==> forall n | n in old(Repr) && n !in chain :: n.fields == old(n.fields) && n.elems == old(n.elems)
      ensures ok ==> forall j | 1 <= j < |chain| && chain[j] in old(Repr) ::
        OnlyKeyChanged(chain[j], Split(path, '.')[j], old(Contents(chain[j].fields, chain[j].elems)))
      // sharing: the nested object under the first segment is the old one, so the
      // tree held before the update reads the new value too
      ensures ok && |Split(path, '.')| >= 2 && old(data).Ref? && !old(data).node.isArray
              && Split(path, '.')[0] in old(data.node.fields) && old(data.node.fields[Split(path, '.')[0]]).Ref? ==>
        chain[1] == old(data.node.fields[Split(path, '.')[0]]).node
        && Walk(old(data), Split(path, '.'), Repr) == Some(Holds(Prim(value)))
    {
      var keys := Split(path, '.');
      var written, root;
      ghost var s, p;
      written, root, s, p := UpdateTree(data, keys, Prim(value), Repr, hi);
      if !written {
        ClosedKept(Bounded(Repr, hi));
        return false, p.chain;
      }
      label Written:
      data := Ref(root);
      Repr := Repr + {root} + p.made;
      hi := p.top;
      ok := true;
      chain := p.chain;
      ReachedKept@Written(Leaf(s, p, Prim(value)));
    }
  }

  /** Saving and mounting again shows the tree that was saved. */
  method SaveThenRemount(s: DataStore) returns (next: DataStore)
    requires s.Valid()
    modifies s.storage
    ensures next.Valid() && next.storage == s.storage
    ensures next.Tree() == s.Tree()
  {
    s.SaveData();
    next := new DataStore.Mount(s.storage);
  }

  /** A two-segment path through two objects of the tree `v` denotes can be
      written by `updateField`, and the copy shares the object under its
      first segment with `v`. */
  lemma TwoLevelWritable(v: Val, R: set<Node>, hi: int, a: string, b: string)
    requires Closed(R, hi) && Inside(v, R) && Names2(Snap(v, R, hi), a, b) && '.' !in a && '.' !in b
    ensures Split(a + "." + b, '.') == [a, b]
    ensures v.Ref? && !v.node.isArray && a in v.node.fields && v.node.fields[a].Ref?
    ensures UpdateSucceeds(SpreadOf(v), Split(a + "." + b, '.'), R)
  {
    SplitPrefix(a, b, '.');
    SplitNoSeparator(b, '.');
    var t := Snap(v, R, hi);
    SnapOfObject(v, R, hi, t.fields);
    SnapOfObject(v.node.fields[a], R, hi, t.fields[a].fields);
  }

  /** A mount with nothing saved, an edit of a nested field `a.b` of the
      defaults, then a reset: the reinstalled `defaultData` object shows the
      edit, because the edit was written into the nested object the first
      tree shares with it; so reset does not restore the original defaults. */
  method EditThenReset(ls: LocalStorage, a: string, b: string, x: Primitive) returns (s: DataStore)
    requires ls.Saved(StorageKey).None?
    requires Names2(FinancialDefaults(), a, b) && '.' !in a && '.' !in b
    modifies ls
    ensures s.Valid() && s.storage == ls && s.data == s.defaultData
    ensures StorageKey !in ls.items
    ensures Resolve(Defined(s.Tree()), Split(a + "." + b, '.')) == Some(Defined(x))
    ensures x != FinancialDefaults().fields[a].fields[b] ==> s.Tree() != FinancialDefaults()
  {
    s := new DataStore.Mount(ls);
    TwoLevelWritable(s.data, s.Repr, s.hi, a, b);
    var ok, chain := s.UpdateField(a + "." + b, x);
    s.ResetData();
    WalkSnap(s.data, Split(a + "." + b, '.'), s.Repr, s.hi);
    Names2Resolves(FinancialDefaults(), a, b);
  }
}
