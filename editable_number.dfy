/**
 * The inline number editor of the financial store
 * (src/components/EditableNumber.jsx): a span showing the number at `path`,
 * read with optional chaining and `|| 0`; a click opens an input, and
 * leaving it (or Enter) writes the parsed number through `updateField`.
 */
module EditableNumberWidget {
  import opened Optional
  import opened Text
  import opened JsValues
  import opened Heap
  import opened FinancialData

  /** `v?.[k]`: `undefined` instead of a throw on `undefined` or `null`. */
  function OptionalMember(v: Js, k: string): (r: Js)
    ensures v == Undefined || v == Defined(JNull) ==> r == Undefined
    ensures Member(v, k).Some? ==> r == Member(v, k).value
  {
    match Member(v, k)
    case None => Undefined
    case Some(c) => c
  }

  /** The `value = value?.[key]` loop over every key. */
  function OptionalChain(v: Js, keys: seq<string>): Js
    decreases |keys|
  {
    if keys == [] then v else OptionalChain(OptionalMember(v, keys[0]), keys[1..])
  }

  /** `value || 0`. */
  function OrZero(v: Js): (r: Json)
    ensures Truthy(v) ==> Defined(r) == v
    ensures !Truthy(v) ==> r == JNum(0.0)
  {
    if Truthy(v) then v.value else JNum(0.0)
  }

  /** What `getValue()` gives for the tree `t`. */
  function Shown(t: Json, path: string): Json {
    OrZero(OptionalChain(Defined(t), Split(path, '.')))
  }

  /** Once the chain reaches `undefined` it stays there. */
  lemma {:induction false} ChainOfUndefined(keys: seq<string>)
    ensures OptionalChain(Undefined, keys) == Undefined
    decreases |keys|
  {
    if keys != [] {
      ChainOfUndefined(keys[1..]);
    }
  }

  /** Optional chaining reads what the plain reads read, and `undefined`
      wherever a plain read would throw. */
  lemma {:induction false} ChainMatchesResolve(v: Js, keys: seq<string>)
    ensures Resolve(v, keys).Some? ==> OptionalChain(v, keys) == Resolve(v, keys).value
    ensures Resolve(v, keys).None? ==> OptionalChain(v, keys) == Undefined
    decreases |keys|
  {
    if keys != [] {
      match Member(v, keys[0]) {
        case None =>
          ChainOfUndefined(keys[1..]);
        case Some(c) =>
          ChainMatchesResolve(c, keys[1..]);
      }
    }
  }

  /** A stored number is shown as it is, 0 included; anything else that is
      truthy is shown as it is; a falsy value, a missing field or a path
      that runs through `undefined` or `null` shows 0. */
  lemma ShownValue(t: Json, path: string)
    ensures var read := Resolve(Defined(t), Split(path, '.'));
      Shown(t, path) == if read.Some? && Truthy(read.value) then read.value.value else JNum(0.0)
    ensures forall n: real :: Resolve(Defined(t), Split(path, '.')) == Some(Defined(JNum(n))) ==> Shown(t, path) == JNum(n)
  {
    ChainMatchesResolve(Defined(t), Split(path, '.'));
  }

  /** A heap slot as the value it reads as. */
  ghost function SlotValue(s: Slot, R: set<Node>, hi: int): Js
    requires Closed(R, hi) && (s.Holds? ==> Inside(s.v, R))
    reads R
  {
    match s
    case Absent => Undefined
    case Holds(v) => Defined(Snap(v, R, hi))
  }

  class EditableNumber {
    const path: string
    /** `parseFloat`; None stands for NaN. */
    const parse: string -> Option<real>
    /** `Number.prototype.toString`. */
    const numText: real -> string
    var editing: bool
    var temp: string

    constructor (path: string, parse: string -> Option<real>, numText: real -> string)
      ensures this.path == path && this.parse == parse && this.numText == numText
      ensures !editing && temp == ""
    {
      this.path := path;
      this.parse := parse;
      this.numText := numText;
      editing := false;
      temp := "";
    }

    /** `getValue()` on the store's current tree: the value found (shared,
        not copied) or the number 0. */
    method GetValue(store: DataStore) returns (r: Val)
      requires store.Valid()
      ensures Inside(r, store.Repr)
      ensures Snap(r, store.Repr, store.hi) == Shown(store.Tree(), path)
    {
      var keys := Split(path, '.');
      var cur := Holds(store.data);
      var i := 0;
      while i < |keys|
        invariant 0 <= i <= |keys|
        invariant cur.Holds? ==> Inside(cur.v, store.Repr)
        invariant OptionalChain(SlotValue(cur, store.Repr, store.hi), keys[i..]) ==
                  OptionalChain(Defined(store.Tree()), keys)
      {
        ghost var before := SlotValue(cur, store.Repr, store.hi);
        assert keys[i..][1..] == keys[i + 1..];
        if cur.Holds? {
          ReadMemberSnap(cur.v, keys[i], store.Repr, store.hi);
          var read := ReadMember(cur.v, keys[i]);
          cur := if read.None? then Absent else read.value;
        }
        assert SlotValue(cur, store.Repr, store.hi) == OptionalMember(before, keys[i]);
        i := i + 1;
      }
      assert keys[i..] == [];
      if cur.Holds? && (cur.v.Ref? || Truthy(Defined(cur.v.p))) {
        r := cur.v;
      } else {
        r := Prim(JNum(0.0));
      }
    }

    /** `handleClick`: the input opens holding the text of the shown value
        (never `undefined` or `null`, so `toString` does not throw). */
    method Click(store: DataStore)
      requires store.Valid()
      modifies this
      ensures editing && temp == ToText(Shown(store.Tree(), path), numText)
    {
      var value := GetValue(store);
      temp := ToText(Snap(value, store.Repr, store.hi), numText);
      editing := true;
    }

    /** The input's `onChange`. */
    method Change(text: string)
      modifies this
      ensures temp == text && editing == old(editing)
    {
      temp := text;
    }

    /** `handleBlur`: a non-empty text that parses is written with one
        `updateField(path, number)`; editing ends either way. When the write
        gets through, the span shows exactly that number, and of the objects
        held before only those on the path (`chain`) changed, each under the
        segment the path takes from it. */
    method Blur(store: DataStore) returns (called: bool, stored: bool, ghost chain: seq<Node>)
      requires store.Valid()
      modifies this, store, store.Repr
      ensures !editing && temp == old(temp)
      ensures called <==> old(temp) != "" && parse(old(temp)).Some?
      ensures store.Valid() && old(store.Repr) <= store.Repr
      ensures stored ==> called
      ensures called ==> stored == old(UpdateSucceeds(SpreadOf(store.data), Split(path, '.'), store.Repr))
      ensures stored ==> Shown(store.Tree(), path) == JNum(parse(old(temp)).value)
      ensures stored ==> |chain| == |Split(path, '.')|
      ensures stored ==> forall n | n in old(store.Repr) && n !in chain :: n.fields == old(n.fields) && n.elems == old(n.elems)
      ensures stored ==> forall j | 1 <= j < |chain| && chain[j] in old(store.Repr) ::
        OnlyKeyChanged(chain[j], Split(path, '.')[j], old(Contents(chain[j].fields, chain[j].elems)))
      ensures !stored ==> store.data == old(store.data) && store.Repr == old(store.Repr) && store.hi == old(store.hi)
      ensures !stored ==> forall n | n in store.Repr :: n.fields == old(n.fields) && n.elems == old(n.elems)
    {
      called, stored, chain := false, false, [];
      if temp != "" {
        var number := parse(temp);
        if number.Some? {
          called := true;
          stored, chain := store.UpdateField(path, JNum(number.value));
          if stored {
            WalkSnap(store.data, Split(path, '.'), store.Repr, store.hi);
            ShownValue(store.Tree(), path);
          }
        }
      }
      editing := false;
    }

    /** `handleKeyDown`: Enter does what leaving the input does; Escape
        closes the input without writing. */
    method KeyDown(key: string, store: DataStore) returns (called: bool, stored: bool, ghost chain: seq<Node>)
      requires store.Valid()
      modifies this, store, store.Repr
      ensures key == "Enter" || key == "Escape" ==> !editing
      ensures key != "Enter" && key != "Escape" ==> editing == old(editing)
      ensures temp == old(temp)
      ensures called <==> key == "Enter" && old(temp) != "" && parse(old(temp)).Some?
      ensures store.Valid() && old(store.Repr) <= store.Repr
      ensures stored ==> called
      ensures called ==> stored == old(UpdateSucceeds(SpreadOf(store.data), Split(path, '.'), store.Repr))
      ensures stored ==> Shown(store.Tree(), path) == JNum(parse(old(temp)).value)
      ensures stored ==> |chain| == |Split(path, '.')|
      ensures stored ==> forall n | n in old(store.Repr) && n !in chain :: n.fields == old(n.fields) && n.elems == old(n.elems)
      ensures stored ==> forall j | 1 <= j < |chain| && chain[j] in old(store.Repr) ::
        OnlyKeyChanged(chain[j], Split(path, '.')[j], old(Contents(chain[j].fields, chain[j].elems)))
      ensures !stored ==> store.data == old(store.data) && store.Repr == old(store.Repr) && store.hi == old(store.hi)
      ensures !stored ==> forall n | n in store.Repr :: n.fields == old(n.fields) && n.elems == old(n.elems)
    {
      called, stored, chain := false, false, [];
      if key == "Enter" {
        called, stored, chain := Blur(store);
      } else if key == "Escape" {
        editing := false;
      }
    }
  }
}
