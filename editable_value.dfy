/**
 * The inline editor of the dashboard store (src/components/EditableValue.jsx):
 * a span showing the value at `path` that a click turns into an input; Enter
 * or leaving the input commits the draft through `updateData`, Escape
 * discards it.
 */
module EditableValueWidget {
  import opened Optional
  import opened Text
  import opened JsValues
  import opened DashboardData

  /** `getData(path) || defaultValue`: what the span shows. */
  function Displayed(t: Json, path: string, defaultValue: Js): Js {
    var stored := Lookup(t, path);
    if Truthy(stored) then stored else defaultValue
  }

  /** The tree after `updateData(path, v)`: the written tree, or the old one
      when the write threw and was caught. */
  function AfterUpdate(t: Json, path: string, v: Json): Json {
    var w := SetPath(Defined(t), Split(path, '.'), v);
    if w.Some? then w.value else t
  }

  /** A truthy leaf is shown as it is. */
  lemma ShowsTruthyLeaf(t: Json, path: string, leaf: Json, defaultValue: Js)
    requires At(t, Split(path, '.')) == Some(leaf) && Truthy(Defined(leaf))
    ensures Displayed(t, path, defaultValue) == Defined(leaf)
  {
    ReadFindsExistingLeaf(t, Split(path, '.'), leaf);
  }

  /** A falsy leaf (a stored 0, "", false or null) shows the default. */
  lemma ShowsDefaultForFalsyLeaf(t: Json, path: string, leaf: Json, defaultValue: Js)
    requires At(t, Split(path, '.')) == Some(leaf) && !Truthy(Defined(leaf))
    ensures Displayed(t, path, defaultValue) == defaultValue
  {
    ReadFindsExistingLeaf(t, Split(path, '.'), leaf);
  }

  /** A missing last segment shows the default. */
  lemma ShowsDefaultForMissingLeaf(t: Json, path: string, pre: seq<string>, k: string, m: map<string, Json>, defaultValue: Js)
    requires Split(path, '.') == pre + [k]
    requires At(t, pre) == Some(JObj(m)) && k !in m
    ensures Displayed(t, path, defaultValue) == defaultValue
  {
    MissingLastReadsUndefined(t, pre, k, m);
  }

  /** A missing earlier segment makes getData give null, so the default
      shows too. */
  lemma ShowsDefaultForMissingParent(t: Json, path: string, pre: seq<string>, k: string, rest: seq<string>, defaultValue: Js)
    requires Split(path, '.') == pre + [k] + rest
    requires Resolve(Defined(t), pre) == Some(Undefined)
    ensures Displayed(t, path, defaultValue) == defaultValue
  {
    MissingEarlierReadsNull(t, pre, k, rest);
  }

  /** After an update that went through, the span shows the value written,
      unless that value is falsy, in which case it shows the default. */
  lemma ShowsWrittenValue(t: Json, path: string, v: Json, defaultValue: Js)
    requires SetPath(Defined(t), Split(path, '.'), v).Some?
    ensures Lookup(AfterUpdate(t, path, v), path) == Defined(v)
    ensures Displayed(AfterUpdate(t, path, v), path, defaultValue) == if Truthy(Defined(v)) then Defined(v) else defaultValue
  {
    ReadAfterWrite(Defined(t), Split(path, '.'), v);
  }

  class EditableValue {
    const path: string
    const defaultValue: Js
    /** `type === 'number'`; any other type edits text. */
    const numeric: bool
    /** The optional `validation` prop. */
    const validation: Option<Json -> bool>
    /** `parseFloat`; None stands for NaN. */
    const parse: string -> Option<real>
    /** `Number.prototype.toString`. */
    const numText: real -> string
    var editing: bool
    var draft: string
    /** The values handed to `updateData`, oldest first. */
    ghost var updates: seq<Json>

    constructor (path: string, defaultValue: Js, numeric: bool, validation: Option<Json -> bool>,
                 parse: string -> Option<real>, numText: real -> string)
      ensures this.path == path && this.defaultValue == defaultValue && this.numeric == numeric
      ensures this.validation == validation && this.parse == parse && this.numText == numText
      ensures !editing && draft == "" && updates == []
    {
      this.path := path;
      this.defaultValue := defaultValue;
      this.numeric := numeric;
      this.validation := validation;
      this.parse := parse;
      this.numText := numText;
      editing := false;
      draft := "";
      updates := [];
    }

    /** The value a save commits from `text`, if any: the parsed number for a
        numeric editor, the raw text (even empty) otherwise, and only when
        the validator, if there is one, accepts it. */
    function Commit(text: string): (r: Option<Json>)
      ensures numeric && parse(text).None? ==> r.None?
      ensures r.Some? && numeric ==> r.value == JNum(parse(text).value)
      ensures r.Some? && !numeric ==> r.value == JStr(text)
      ensures r.Some? ==> validation.None? || validation.value(r.value)
      ensures !numeric && validation.None? ==> r == Some(JStr(text))
      ensures r.None? && (!numeric || parse(text).Some?) ==> validation.Some?
    {
      var converted := if !numeric then Some(JStr(text))
                       else if parse(text).Some? then Some(JNum(parse(text).value))
                       else None;
      if converted.Some? && validation.Some? && !validation.value(converted.value) then None
      else converted
    }

    /** `handleClick`: the draft becomes the text of the shown value and the
        input opens. `toString` throws on a shown `undefined` or `null` (a
        missing default), and then nothing changes. */
    method Click(store: DashboardStore) returns (threw: bool)
      modifies this
      ensures var shown := Displayed(store.data, path, defaultValue);
        && (threw <==> shown == Undefined || shown == Defined(JNull))
        && (!threw ==> editing && draft == ToText(shown.value, numText))
      ensures threw ==> editing == old(editing) && draft == old(draft)
      ensures updates == old(updates)
    {
      var stored := store.GetData(path);
      var shown := if Truthy(stored) then stored else defaultValue;
      if shown == Undefined || shown == Defined(JNull) {
        return true;
      }
      draft := ToText(shown.value, numText);
      editing := true;
      threw := false;
    }

    /** The input's `onChange`. */
    method Change(text: string)
      modifies this
      ensures draft == text && editing == old(editing) && updates == old(updates)
    {
      draft := text;
    }

    /** `handleSave`: a draft that converts and passes validation is written
        with exactly one `updateData(path, value)`; any other draft is
        dropped. Editing ends either way and the draft is kept. */
    method Save(store: DashboardStore) returns (committed: bool)
      modifies this, store
      ensures !editing && draft == old(draft)
      ensures committed <==> Commit(old(draft)).Some?
      ensures committed ==>
        && updates == old(updates) + [Commit(old(draft)).value]
        && store.data == AfterUpdate(old(store.data), path, Commit(old(draft)).value)
      ensures !committed ==> updates == old(updates) && store.data == old(store.data)
      ensures store.isLoading == old(store.isLoading)
    {
      var value := Commit(draft);
      if value.None? {
        editing := false;
        return false;
      }
      var _ := store.UpdateData(path, value.value);
      updates := updates + [value.value];
      editing := false;
      committed := true;
    }

    /** `handleCancel`: editing ends and the draft is cleared; the store is
        not touched. */
    method Cancel()
      modifies this
      ensures !editing && draft == "" && updates == old(updates)
    {
      editing := false;
      draft := "";
    }

    /** `handleKeyDown`: Enter saves, Escape cancels, other keys do nothing. */
    method KeyDown(key: string, store: DashboardStore) returns (committed: bool)
      modifies this, store
      ensures key == "Enter" ==> !editing && draft == old(draft) && (committed <==> Commit(old(draft)).Some?)
      ensures key == "Escape" ==> !editing && draft == "" && !committed && store.data == old(store.data)
      ensures key != "Enter" ==> !committed && updates == old(updates) && store.data == old(store.data)
      ensures key != "Enter" && key != "Escape" ==> editing == old(editing) && draft == old(draft)
      ensures committed ==>
        && updates == old(updates) + [Commit(old(draft)).value]
        && store.data == AfterUpdate(old(store.data), path, Commit(old(draft)).value)
      ensures key == "Enter" && !committed ==> updates == old(updates) && store.data == old(store.data)
      ensures store.isLoading == old(store.isLoading)
    {
      committed := false;
      if key == "Enter" {
        committed := Save(store);
      } else if key == "Escape" {
        Cancel();
      }
    }

    /** `handleBlur`: leaving the input saves, as Enter does. */
    method Blur(store: DashboardStore) returns (committed: bool)
      modifies this, store
      ensures !editing && draft == old(draft)
      ensures committed <==> Commit(old(draft)).Some?
      ensures committed ==>
        && updates == old(updates) + [Commit(old(draft)).value]
        && store.data == AfterUpdate(old(store.data), path, Commit(old(draft)).value)
      ensures !committed ==> store.data == old(store.data) && updates == old(updates)
      ensures store.isLoading == old(store.isLoading)
    {
      committed := Save(store);
    }
  }
}
