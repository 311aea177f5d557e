/**
 * The brokerage dashboard's store (src/context/DashboardDataContext.jsx):
 * one JSON tree addressed by dot-separated paths, a busy flag around file
 * import, and a local-storage snapshot under "dashboardData".
 *
 * `updateData` deep-clones the tree (`JSON.parse(JSON.stringify(data))`)
 * before writing into the clone, so on JSON trees it behaves as a pure
 * function from the old tree to the new one: the model states it as
 * SetPath, and the store's method walks the path the way the source does,
 * keeping the enclosing containers as a zipper to rebuild the clone.
 */
module DashboardData {
  import opened Optional
  import opened Text
  import opened JsValues
  import opened Storage

  const StorageKey := "dashboardData"

  /** A user-visible message: fixed text, or a fixed prefix followed by the
      message of a caught exception (engine text, not modelled). */
  datatype Message = Fixed(text: string) | WithError(prefix: string)

  /** The `{ success, message }` objects the store's operations return. */
  datatype Outcome = Outcome(success: bool, message: Message)

  const SavedMessage := "Data saved successfully!"
  const ExportedMessage := "Data exported successfully!"
  const ImportedMessage := "Data imported successfully!"
  const InvalidFormatMessage := "Invalid data format. Please check your JSON file."
  const ParseErrorPrefix := "Error parsing JSON file: "
  const ResetMessage := "Data reset to default values!"
  const UpdatedMessage := "Data updated successfully!"
  const UpdateErrorPrefix := "Error updating data: "

  // ---------------------------------------------------------------- reading

  /** `getData` on already-split keys: the value reached, or `null` when a
      read threw (the catch branch). */
  function ReadKeys(t: Json, keys: seq<string>): Js {
    match Resolve(Defined(t), keys)
    case None => Defined(JNull)
    case Some(x) => x
  }

  /** `getData(path)`. */
  function Lookup(t: Json, path: string): Js {
    ReadKeys(t, Split(path, '.'))
  }

  /** Plain navigation into a JSON tree through object fields and array
      elements only: where a path "exists" in the tree. */
  function At(t: Json, keys: seq<string>): Option<Json>
    decreases |keys|
  {
    if keys == [] then Some(t)
    else
      match t
      case JObj(m) => if keys[0] in m then At(m[keys[0]], keys[1..]) else None
      case JArr(a) =>
        var i := IndexOf(keys[0]);
        if i.Some? && i.value < |a| then At(a[i.value], keys[1..]) else None
      case _ => None
  }

  /** getData returns the leaf when every segment of the path exists. */
  lemma {:induction false} ReadFindsExistingLeaf(t: Json, keys: seq<string>, leaf: Json)
    requires At(t, keys) == Some(leaf)
    ensures ReadKeys(t, keys) == Defined(leaf)
  {
    ResolveFindsExistingLeaf(t, keys, leaf);
  }

  lemma {:induction false} ResolveFindsExistingLeaf(t: Json, keys: seq<string>, leaf: Json)
    requires At(t, keys) == Some(leaf)
    ensures Resolve(Defined(t), keys) == Some(Defined(leaf))
    decreases |keys|
  {
    if keys != [] {
      match t {
        case JObj(m) => ResolveFindsExistingLeaf(m[keys[0]], keys[1..], leaf);
        case JArr(a) => ResolveFindsExistingLeaf(a[IndexOf(keys[0]).value], keys[1..], leaf);
      }
    }
  }

  /** getData yields `undefined` when everything but the last segment exists
      and the last names no field of the object reached. */
  lemma MissingLastReadsUndefined(t: Json, pre: seq<string>, k: string, m: map<string, Json>)
    requires At(t, pre) == Some(JObj(m))
    requires k !in m
    ensures ReadKeys(t, pre + [k]) == Undefined
  {
    ResolveFindsExistingLeaf(t, pre, JObj(m));
    ResolveAppend(Defined(t), pre, k);
  }

  /** getData yields `null`, without throwing, when a segment before the last
      is absent: reading below `undefined` throws and the catch returns null. */
  lemma MissingEarlierReadsNull(t: Json, pre: seq<string>, k: string, rest: seq<string>)
    requires Resolve(Defined(t), pre) == Some(Undefined)
    ensures ReadKeys(t, pre + [k] + rest) == Defined(JNull)
  {
    ResolveAppend(Defined(t), pre, k);
    ResolveThrowsOnward(Defined(t), pre + [k], rest);
  }

  // ---------------------------------------------------------------- writing

  /** `base[key] = v` in strict mode, giving the updated container, or None
      when the assignment throws: on `undefined`, `null` and every
      primitive. An array takes a write at an existing index, or at the next
      index, which appends. */
  function SetMember(base: Js, key: string, v: Json): Option<Json> {
    match base
    case Defined(JObj(m)) => Some(JObj(m[key := v]))
    case Defined(JArr(a)) =>
      var i := IndexOf(key);
      if i.Some? && i.value < |a| then Some(JArr(a[i.value := v]))
      else if i.Some? && i.value == |a| then Some(JArr(a + [v]))
      else None
    case _ => None
  }

  predicate IsContainer(v: Js) {
    v.Defined? && (v.value.JObj? || v.value.JArr?)
  }

  /** `updateData` on split keys: walk to the parent of the last key, assign
      there, and have the change show in every enclosing container of the
      clone. None when a read or the assignment throws. */
  function SetPath(t: Js, keys: seq<string>, v: Json): Option<Json>
    requires |keys| >= 1
    decreases |keys|
  {
    if |keys| == 1 then SetMember(t, keys[0], v)
    else
      match Member(t, keys[0])
      case None => None
      case Some(child) =>
        match SetPath(child, keys[1..], v)
        case None => None
        case Some(c) => SetMember(t, keys[0], c)
  }

  /** What a property read of a non-container gives is again a non-container. */
  lemma MemberOfNonContainer(t: Js, k: string)
    requires !IsContainer(t) && Member(t, k).Some?
    ensures !IsContainer(Member(t, k).value)
  {
  }

  /** No write lands below a primitive or `undefined`. */
  lemma {:induction false} SetPathBelowNonContainer(t: Js, keys: seq<string>, v: Json)
    requires |keys| >= 1
    requires !IsContainer(t)
    ensures SetPath(t, keys, v) == None
    decreases |keys|
  {
    if |keys| > 1 {
      match Member(t, keys[0]) {
        case None =>
        case Some(child) =>
          MemberOfNonContainer(t, keys[0]);
          SetPathBelowNonContainer(child, keys[1..], v);
      }
    }
  }

  /** The write through `k` descends into an own field or element of the
      container `t` and puts the rewritten child back in its place. */
  lemma DescentIsOwnChild(t: Js, k: string, rest: seq<string>, v: Json)
    requires |rest| >= 1 && SetPath(t, [k] + rest, v).Some?
    ensures Member(t, k).Some? && IsContainer(Member(t, k).value)
    ensures IsContainer(t)
    ensures t.value.JObj? ==> k in t.value.fields
    ensures t.value.JArr? ==> IndexOf(k).Some? && IndexOf(k).value < |t.value.items|
  {
    assert ([k] + rest)[0] == k && ([k] + rest)[1..] == rest;
    var child := Member(t, k).value;
    if !IsContainer(child) {
      SetPathBelowNonContainer(child, rest, v);
    }
    if !IsContainer(t) {
      SetPathBelowNonContainer(t, [k] + rest, v);
    }
  }

  /** After a successful `updateData(path, v)`, `getData(path)` is `v`. */
  lemma {:induction false} ReadAfterWrite(t: Js, keys: seq<string>, v: Json)
    requires |keys| >= 1 && SetPath(t, keys, v).Some?
    ensures Resolve(Defined(SetPath(t, keys, v).value), keys) == Some(Defined(v))
    decreases |keys|
  {
    var t' := SetPath(t, keys, v).value;
    if |keys| == 1 {
      assert keys[1..] == [];
    } else {
      assert keys == [keys[0]] + keys[1..];
      DescentIsOwnChild(t, keys[0], keys[1..], v);
      var child := Member(t, keys[0]).value;
      ReadAfterWrite(child, keys[1..], v);
      if t.value.JArr? {
        var i := IndexOf(keys[0]).value;
        assert t'.items[i] == SetPath(child, keys[1..], v).value;
      }
    }
  }

  /** Writing `k` changes no other key of the container, except that an
      append lengthens an array. */
  lemma OtherMemberUnchanged(base: Js, k: string, x: Json, k2: string)
    requires SetMember(base, k, x).Some?
    requires k2 != k && (k2 == "length" ==> !IsArray(base))
    ensures Member(Defined(SetMember(base, k, x).value), k2) == Member(base, k2)
  {
    var i2 := IndexOf(k2);
    if base.value.JArr? && i2.Some? {
      IndexKeyOfIndex(k);
      IndexKeyOfIndex(k2);
    }
  }

  predicate IsArray(v: Js) {
    v.Defined? && v.value.JArr?
  }

  /** `q` leaves the written path at position j, and not by the key "length"
      of an array of `t`. */
  predicate DivergesAt(t: Js, keys: seq<string>, q: seq<string>, j: nat) {
    && j < |keys| && j < |q| && keys[..j] == q[..j] && keys[j] != q[j]
    && (q[j] == "length" ==> Resolve(t, q[..j]).Some? && !IsArray(Resolve(t, q[..j]).value))
  }

  /** After a successful `updateData(path, v)`, every path that branches off
      `path` reads as before (the read of "length" at a branch point that is
      an array excepted, since a write at the next index appends). */
  lemma {:induction false} WriteLeavesOtherPaths(t: Js, keys: seq<string>, v: Json, q: seq<string>, j: nat)
    requires |keys| >= 1 && SetPath(t, keys, v).Some?
    requires DivergesAt(t, keys, q, j)
    ensures Resolve(Defined(SetPath(t, keys, v).value), q) == Resolve(t, q)
    decreases j
  {
    var t' := SetPath(t, keys, v).value;
    if j == 0 {
      if |keys| == 1 {
        OtherMemberUnchanged(t, keys[0], v, q[0]);
      } else {
        var child := Member(t, keys[0]).value;
        OtherMemberUnchanged(t, keys[0], SetPath(child, keys[1..], v).value, q[0]);
      }
    } else {
      assert keys[0] == keys[..j][0] == q[..j][0] == q[0];
      assert |keys| > 1;
      assert keys == [keys[0]] + keys[1..];
      DescentIsOwnChild(t, keys[0], keys[1..], v);
      var child := Member(t, keys[0]).value;
      var c' := SetPath(child, keys[1..], v).value;
      assert keys[1..][..j - 1] == keys[..j][1..] == q[..j][1..] == q[1..][..j - 1];
      WriteLeavesOtherPaths(child, keys[1..], v, q[1..], j - 1);
      if t.value.JArr? {
        var i := IndexOf(keys[0]).value;
        assert t'.items[i] == c';
      }
    }
  }

  /** `updateData` through a segment that is absent, or that holds a
      primitive, throws: it reports failure and the tree stays as it was. */
  lemma {:induction false} WriteThroughNonContainerFails(t: Js, keys: seq<string>, v: Json, j: nat)
    requires j < |keys|
    requires Resolve(t, keys[..j]).None? || !IsContainer(Resolve(t, keys[..j]).value)
    ensures SetPath(t, keys, v) == None
    decreases j
  {
    if j == 0 {
      SetPathBelowNonContainer(t, keys, v);
    } else {
      assert keys[..j][0] == keys[0] && keys[..j][1..] == keys[1..][..j - 1];
      match Member(t, keys[0]) {
        case None =>
        case Some(c) => WriteThroughNonContainerFails(c, keys[1..], v, j - 1);
      }
    }
  }

  /** In particular through a missing intermediate segment. */
  lemma WriteThroughMissingFails(t: Json, keys: seq<string>, v: Json, j: nat)
    requires 1 <= j < |keys|
    requires Resolve(Defined(t), keys[..j]) == Some(Undefined)
    ensures SetPath(Defined(t), keys, v) == None
  {
    WriteThroughNonContainerFails(Defined(t), keys, v, j);
  }

  // ---------------------------------------------- rebuilding the clone

  /** A container of the clone with the slot on the path left open. */
  datatype Frame =
    | InObject(fields: map<string, Json>, key: string)
    | InArray(before: seq<Json>, after: seq<Json>)

  function Fill(f: Frame, child: Json): Json {
    match f
    case InObject(m, k) => JObj(m[k := child])
    case InArray(before, after) => JArr(before + [child] + after)
  }

  /** The whole tree around `hole`, frames listed from the root down. */
  function Plug(ctx: seq<Frame>, hole: Json): Json
    decreases |ctx|
  {
    if ctx == [] then hole else Plug(ctx[..|ctx| - 1], Fill(ctx[|ctx| - 1], hole))
  }

  function PlugAll(ctx: seq<Frame>, r: Option<Json>): Option<Json> {
    match r
    case None => None
    case Some(x) => Some(Plug(ctx, x))
  }

  /** The frame a step through `k` leaves behind: the container `t` with the
      slot of `k` open, when `k` names an own field or element of `t`. */
  function Enter(t: Js, k: string): Option<Frame> {
    match t
    case Defined(JObj(m)) => if k in m then Some(InObject(m, k)) else None
    case Defined(JArr(a)) =>
      var i := IndexOf(k);
      if i.Some? && i.value < |a| then Some(InArray(a[..i.value], a[i.value + 1..])) else None
    case _ => None
  }

  /** The frames below `ctx` after a step through `k`. */
  function Deeper(ctx: seq<Frame>, t: Js, k: string): seq<Frame> {
    match Enter(t, k)
    case None => ctx
    case Some(f) => ctx + [f]
  }

  /** One step down the path keeps the clone's rebuild in agreement with the
      write: an own child leaves its frame behind; any other read leads to a
      write that cannot succeed. */
  lemma {:induction false} SetPathStep(ctx: seq<Frame>, t: Js, k: string, rest: seq<string>, v: Json)
    requires |rest| >= 1 && Member(t, k).Some?
    ensures PlugAll(ctx, SetPath(t, [k] + rest, v)) ==
      PlugAll(Deeper(ctx, t, k), SetPath(Member(t, k).value, rest, v))
  {
    assert ([k] + rest)[0] == k && ([k] + rest)[1..] == rest;
    var child := Member(t, k).value;
    match Enter(t, k) {
      case Some(f) =>
        match SetPath(child, rest, v) {
          case None =>
          case Some(c) =>
            if f.InArray? {
              var a, i := t.value.items, IndexOf(k).value;
              assert a[i := c] == a[..i] + [c] + a[i + 1..];
            }
            assert SetPath(t, [k] + rest, v) == Some(Fill(f, c));
            PlugExtend(ctx, f, c);
        }
      case None =>
        if SetPath(t, [k] + rest, v).Some? {
          DescentIsOwnChild(t, k, rest, v);
        }
        if IsContainer(child) {
          // only own fields and elements are containers
          assert false;
        }
        SetPathBelowNonContainer(child, rest, v);
    }
  }


  lemma PlugExtend(ctx: seq<Frame>, f: Frame, hole: Json)
    ensures Plug(ctx + [f], hole) == Plug(ctx, Fill(f, hole))
  {
    assert (ctx + [f])[..|ctx|] == ctx;
  }

  // ------------------------------------------------------------ the tree

  function Metric(n: real): Json { JNum(n) }

  /** A chart segment `{ name, value, percentage }`. */
  function Segment(name: string, value: real, percentage: real): Json {
    JObj(map["name" := JStr(name), "value" := JNum(value), "percentage" := JNum(percentage)])
  }

  /** A top-agent entry `{ name, value, dollarValue }`. */
  function Agent(name: string, value: real, dollarValue: string): Json {
    JObj(map["name" := JStr(name), "value" := JNum(value), "dollarValue" := JStr(dollarValue)])
  }

  function DefaultPage1(): Json {
    JObj(map[
      "closedDeal" := JObj(map["value" := JStr("69M"), "allocation" := JStr("100% allocated to Primary Agent")]),
      "metrics" := JObj(map["sellSide" := JNum(67.0), "dualSide" := JNum(38.0), "buySide" := JNum(37.0), "closedDeals" := JNum(142.0)]),
      "pending" := JObj(map["value" := JStr("103M"), "sellSide" := JNum(78.0), "dual" := JNum(28.0), "buySide" := JNum(19.0)]),
      "active" := JObj(map["value" := JStr("46M"), "total" := JNum(71.0)]),
      "priceRange" := JObj(map["range" := JStr("$1.7M - $100K"), "avgSoldPrice" := JStr("$517K")]),
      "totalClosedDeals" := JNum(142.0),
      "chartData" := JObj(map[
        "volumeByDealType" := JArr([
          Segment("Buy Side", 37.0, 26.0), Segment("Sell Side", 67.0, 47.0),
          Segment("Dual Side", 38.0, 27.0), Segment("Other", 0.0, 0.0)]),
        "topAgents" := JArr([
          Agent("Jenny Wilson", 35.0, "$12.5M"), Agent("Devon Lane", 28.0, "$9.8M"),
          Agent("Courtney Henry", 21.0, "$7.3M"), Agent("Other Agents", 58.0, "$20.2M")])])])
  }

  function DefaultPage2(): Json {
    JObj(map[
      "agentsOffices" := JObj(map["totalAgents" := JNum(32.0), "activeAgents" := JNum(32.0), "inactiveAgents" := JNum(0.0), "offices" := JNum(1.0)]),
      "priceRatios" := JObj(map["allSides" := JNum(5.6), "buyPrevCurrent" := JNum(4.9), "buyTargetActual" := JNum(6.0)]),
      "daysOnMarket" := JObj(map["allSides" := JNum(175.0), "buyPrevCurrent" := JNum(134.0), "buyTargetActual" := JNum(200.0)]),
      "revenue" := JObj(map[
        "total" := JStr("213K"), "overhead" := JStr("5%"), "brokerage" := JStr("2.5%"),
        "monthlySales" := JNum(18.0), "weeklySales" := JNum(4.0), "dailySales" := JStr("~1"), "dealsPerAgent" := JNum(5.0)]),
      "marketRank" := JNum(18.0)])
  }

  function DefaultPage3(): Json {
    JObj(map[
      "averageListingPrice" := JNum(379.0),
      "activeAgents" := JNum(2504.0),
      "marketStatus" := JObj(map[
        "closed" := JNum(6573.0), "pending" := JNum(3215.0), "active" := JNum(3606.0),
        "median" := JStr("138K"), "grossCommission" := JStr("245M")]),
      "dealTypes" := JObj(map[
        "multiAgentSeller" := JNum(14.0), "multiAgentBuyer" := JNum(6.0), "dual" := JNum(14.0),
        "singleAgentSeller" := JNum(86.0), "singleAgentBuyer" := JNum(94.0)]),
      "listingStatus" := JArr([
        Segment("Closed", 43.0, 43.0), Segment("Active", 24.0, 24.0), Segment("Pending", 17.0, 17.0),
        Segment("Expire", 10.0, 10.0), Segment("Cancelled", 5.0, 5.0), Segment("Other", 1.0, 1.0)])])
  }

  /** `defaultData`: the tree every mount starts from and reset restores. */
  function DefaultData(): Json {
    JObj(map["page1" := DefaultPage1(), "page2" := DefaultPage2(), "page3" := DefaultPage3()])
  }

  /** The shape check of `importData`:
      `importedData.page1 && importedData.page2 && importedData.page3`.
      None when it throws (on `null`). */
  function HasPages(t: Json): Option<bool> {
    if t == JNull then None
    else Some(Truthy(MemberOf(t, "page1").value) && Truthy(MemberOf(t, "page2").value)
              && Truthy(MemberOf(t, "page3").value))
  }

  /** The check passes exactly for an object whose three page fields are
      present and truthy; it throws only on `null`. */
  lemma HasPagesMeansObject(t: Json)
    ensures HasPages(t).None? <==> t == JNull
    ensures HasPages(t) == Some(true) <==>
      t.JObj? && "page1" in t.fields && "page2" in t.fields && "page3" in t.fields
      && Truthy(Defined(t.fields["page1"])) && Truthy(Defined(t.fields["page2"]))
      && Truthy(Defined(t.fields["page3"]))
  {
    if t.JArr? || t.JStr? {
      assert IndexOf("page1").None? by { assert !IsDigit('p'); }
      assert "page1" != "length";
    }
  }

  /** The default tree passes the import check, so an exported default can
      be imported back. */
  lemma DefaultDataHasPages()
    ensures HasPages(DefaultData()) == Some(true)
  {
    HasPagesMeansObject(DefaultData());
  }

  // ------------------------------------------------------------ the store

  class DashboardStore {
    var data: Json
    var isLoading: bool
    const storage: LocalStorage

    /** The provider mounting: `useState(defaultData)`, then the load effect
        adopts the snapshot under "dashboardData" when its text parses. */
    constructor Mount(ls: LocalStorage)
      ensures storage == ls && !isLoading
      ensures data == (if ls.Saved(StorageKey).Some? then ls.Saved(StorageKey).value else DefaultData())
    {
      storage := ls;
      data := DefaultData();
      isLoading := false;
      new;
      var saved := ls.Saved(StorageKey);
      if saved.Some? {
        data := saved.value;
      }
    }

    /** `saveData`: the current tree goes to local storage. */
    method SaveData() returns (r: Outcome)
      modifies storage
      ensures storage.items == old(storage.items)[StorageKey := Snapshot(data)]
      ensures r == Outcome(true, Fixed(SavedMessage))
    {
      storage.SetItem(StorageKey, data);
      r := Outcome(true, Fixed(SavedMessage));
    }

    /** `exportData`: the download itself is browser plumbing; what the
        store reports is success. */
    method ExportData() returns (r: Outcome)
      ensures r == Outcome(true, Fixed(ExportedMessage))
    {
      r := Outcome(true, Fixed(ExportedMessage));
    }

    /** `importData(file)` up to the file read: the busy flag goes up. */
    method StartImport()
      modifies this
      ensures isLoading && data == old(data)
    {
      isLoading := true;
    }

    /** The reader's `onload`: `content` is what `JSON.parse` made of the file,
        None when it threw. The promise always resolves, and the busy flag
        is down afterwards on every branch. */
    method CompleteImport(content: Option<Json>) returns (r: Outcome)
      modifies this, storage
      ensures !isLoading
      ensures content.Some? && HasPages(content.value) == Some(true) ==>
        data == content.value && r == Outcome(true, Fixed(ImportedMessage))
        && storage.items == old(storage.items)[StorageKey := Snapshot(content.value)]
      ensures !(content.Some? && HasPages(content.value) == Some(true)) ==>
        data == old(data) && storage.items == old(storage.items) && !r.success
      ensures content.None? || content == Some(JNull) ==> r.message == WithError(ParseErrorPrefix)
      ensures content.Some? && HasPages(content.value) == Some(false) ==>
        r.message == Fixed(InvalidFormatMessage)
    {
      if content.None? {
        r := Outcome(false, WithError(ParseErrorPrefix));
      } else {
        var check := HasPages(content.value);
        if check.None? {
          r := Outcome(false, WithError(ParseErrorPrefix));
        } else if check.value {
          data := content.value;
          storage.SetItem(StorageKey, content.value);
          r := Outcome(true, Fixed(ImportedMessage));
        } else {
          r := Outcome(false, Fixed(InvalidFormatMessage));
        }
      }
      isLoading := false;
    }

    /** `resetData`: the default tree is back and the snapshot is gone. */
    method ResetData() returns (r: Outcome)
      modifies this, storage
      ensures data == DefaultData() && isLoading == old(isLoading)
      ensures storage.items == old(storage.items) - {StorageKey}
      ensures StorageKey !in storage.items
      ensures r == Outcome(true, Fixed(ResetMessage))
    {
      data := DefaultData();
      storage.RemoveItem(StorageKey);
      r := Outcome(true, Fixed(ResetMessage));
    }

    /** `getData(path)`: walk the segments; a read that throws gives null. */
    method GetData(path: string) returns (r: Js)
      ensures r == Lookup(data, path)
    {
      var keys := Split(path, '.');
      var current := Defined(data);
      var i := 0;
      while i < |keys|
        invariant 0 <= i <= |keys|
        invariant Resolve(Defined(data), keys) == Resolve(current, keys[i..])
      {
        assert keys[i..][1..] == keys[i + 1..];
        var next := Member(current, keys[i]);
        if next.None? {
          return Defined(JNull);
        }
        current := next.value;
        i := i + 1;
      }
      r := current;
    }

    /** `updateData(path, value)`: deep-clone, walk to the parent of the last
        segment, assign there and install the clone; any throw is caught and
        leaves the tree as it was. Storage is not touched. */
    method UpdateData(path: string, value: Json) returns (r: Outcome)
      modifies this
      ensures var w := SetPath(Defined(old(data)), Split(path, '.'), value);
        && (r.success <==> w.Some?)
        && data == (if w.Some? then w.value else old(data))
        && r == (if w.Some? then Outcome(true, Fixed(UpdatedMessage))
                 else Outcome(false, WithError(UpdateErrorPrefix)))
      ensures isLoading == old(isLoading)
    {
      // The clone of a JSON tree is that same tree.
      var keys := Split(path, '.');
      var current: Js := Defined(data);
      var ctx: seq<Frame> := [];
      var i := 0;
      while i < |keys| - 1
        invariant 0 <= i <= |keys| - 1
        invariant data == old(data) && isLoading == old(isLoading)
        invariant SetPath(Defined(data), keys, value) == PlugAll(ctx, SetPath(current, keys[i..], value))
      {
        assert keys[i..] == [keys[i]] + keys[i + 1..];
        var next := Member(current, keys[i]);
        if next.None? {
          return Outcome(false, WithError(UpdateErrorPrefix));
        }
        SetPathStep(ctx, current, keys[i], keys[i + 1..], value);
        ctx := Deeper(ctx, current, keys[i]);
        current := next.value;
        i := i + 1;
      }
      assert keys[i..] == [keys[i]];
      var written := SetMember(current, keys[i], value);
      if written.None? {
        return Outcome(false, WithError(UpdateErrorPrefix));
      }
      data := Plug(ctx, written.value);
      r := Outcome(true, Fixed(UpdatedMessage));
    }
  }

  /** Saving and mounting again gives back the tree that was saved. */
  method SaveThenRemount(s: DashboardStore) returns (next: DashboardStore)
    modifies s.storage
    ensures next.data == s.data && next.storage == s.storage
  {
    var _ := s.SaveData();
    next := new DashboardStore.Mount(s.storage);
  }

  /** After a reset, a new mount starts from the defaults. */
  method ResetThenRemount(s: DashboardStore) returns (next: DashboardStore)
    modifies s, s.storage
    ensures next.data == DefaultData() && s.data == DefaultData()
  {
    var _ := s.ResetData();
    next := new DashboardStore.Mount(s.storage);
  }
}
