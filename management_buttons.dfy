/**
 * The data management buttons of the financial dashboard
 * (src/components/DataManagementButtons.jsx): save, export, import and reset
 * over the financial store, with an importing flag and a message line.
 */
module ManagementButtons {
  import opened Optional
  import opened Text
  import opened Storage
  import opened Heap
  import opened FinancialData
  import opened ManagementPanel

  const SavedText := "Data saved to localStorage successfully!"
  const ExportedText := "Data exported as JSON file!"
  const InvalidFileText := "Please select a valid JSON file."
  const ImportedText := "Data imported successfully!"
  const ImportFailedText := "Error importing data. Please check the file format."
  const ResetText := "Data reset to default values."
  const ImportLabel := "Import JSON"
  const ImportingLabel := "Importing..."

  /** The message line: empty, or `{ text, type }`. */
  datatype Notice = NoNotice | Notice(text: string, kind: Kind)

  /** The gate in front of `importData`: the name alone decides; the MIME
      type is not looked at. */
  predicate NamedJson(f: ChosenFile) {
    EndsWith(f.name, JsonSuffix)
  }

  /** This gate is narrower than the brokerage panel's: it takes exactly the
      files that one takes by name, and refuses a JSON-typed file without
      the suffix, which that one takes. */
  lemma NameGateNarrower(f: ChosenFile)
    ensures NamedJson(f) ==> Acceptable(f)
    ensures Acceptable(f) && !NamedJson(f) <==> f.mime == JsonMime && !NamedJson(f)
    ensures NamedJson(f) <==> exists stem: string :: f.name == stem + JsonSuffix
  {
    EndsWithMeansSuffix(f.name, JsonSuffix);
  }

  class DataManagementButtons {
    const store: DataStore
    var notice: Notice
    /** The hidden file input's selection; cleared by `event.target.value = ''`. */
    var input: Option<ChosenFile>
    var isImporting: bool

    constructor (store: DataStore)
      ensures this.store == store && notice == NoNotice && input == None && !isImporting
    {
      this.store := store;
      notice := NoNotice;
      input := None;
      isImporting := false;
    }

    /** Only the import button is ever disabled, and only while importing. */
    predicate Disabled(b: Button)
      reads this
    {
      b == ImportButton && isImporting
    }

    /** The import button's label. */
    function ImportButtonLabel(): (caption: string)
      reads this
      ensures caption == ImportingLabel <==> isImporting
      ensures caption == ImportLabel <==> !isImporting
    {
      if isImporting then ImportingLabel else ImportLabel
    }

    /** `handleSave`: the tree goes to storage and success is reported. */
    method Save()
      requires store.Valid()
      modifies this, store.storage
      ensures store.storage.items == old(store.storage.items)[StorageKey := Snapshot(store.Tree())]
      ensures notice == Notice(SavedText, Success)
      ensures input == old(input) && isImporting == old(isImporting)
    {
      store.SaveData();
      notice := Notice(SavedText, Success);
    }

    /** `handleExport`: the download is browser plumbing; success is
        reported and nothing else changes. */
    method Export()
      modifies this
      ensures notice == Notice(ExportedText, Success)
      ensures input == old(input) && isImporting == old(isImporting)
    {
      notice := Notice(ExportedText, Success);
    }

    /** `handleFileChange` up to the `await`: no file, nothing happens; a
        name without ".json" gets the error and stays in the input, as the
        handler returns before its `finally`; otherwise importing starts. */
    method ChooseFile(picked: Option<ChosenFile>) returns (importing: bool)
      modifies this
      ensures importing <==> picked.Some? && NamedJson(picked.value)
      ensures picked.None? ==> notice == old(notice) && input == old(input) && isImporting == old(isImporting)
      ensures importing ==> isImporting && input == picked && notice == old(notice)
      ensures picked.Some? && !importing ==>
        notice == Notice(InvalidFileText, Error) && input == picked && isImporting == old(isImporting)
    {
      importing := false;
      if picked.None? {
        return;
      }
      input := picked;
      if !NamedJson(picked.value) {
        notice := Notice(InvalidFileText, Error);
        return;
      }
      isImporting := true;
      importing := true;
    }

    /** The `try`/`catch`/`finally` after `await importData(file)`: the
        message follows whether the import resolved; importing ends and the
        input is cleared either way. */
    method ImportSettled(read: FileRead)
      requires isImporting && store.Valid()
      modifies this, store
      ensures !isImporting && input == None
      ensures store.Valid() && old(store.Repr) <= store.Repr
      ensures var resolved := read.Loaded? && read.parsed.Some?;
        && (resolved ==> notice == Notice(ImportedText, Success) && store.Tree() == read.parsed.value)
        && (!resolved ==> notice == Notice(ImportFailedText, Error)
                          && store.data == old(store.data) && store.Repr == old(store.Repr) && store.hi == old(store.hi))
    {
      var resolved := store.ImportData(read);
      if resolved {
        notice := Notice(ImportedText, Success);
      } else {
        notice := Notice(ImportFailedText, Error);
      }
      isImporting := false;
      input := None;
    }

    /** The whole of `handleFileChange` once the read settles: the importing
        flag is down again, the storage is never written, and the tree
        changes only for a ".json" name whose content parses. */
    method HandleFileChange(picked: Option<ChosenFile>, read: FileRead)
      requires !isImporting && store.Valid()
      modifies this, store
      ensures !isImporting && store.Valid()
      ensures store.storage.items == old(store.storage.items)
      ensures picked.Some? && NamedJson(picked.value) ==> input == None
      ensures picked.Some? && !NamedJson(picked.value) ==> input == picked
      ensures picked.Some? ==> notice.Notice? && (notice.kind == Success <==>
        NamedJson(picked.value) && read.Loaded? && read.parsed.Some?)
      ensures store.data != old(store.data) ==>
        picked.Some? && NamedJson(picked.value) && read.Loaded? && read.parsed.Some? && store.Tree() == read.parsed.value
      ensures picked.None? ==> notice == old(notice) && input == old(input)
    {
      var importing := ChooseFile(picked);
      if importing {
        ImportSettled(read);
      }
    }

    /** `handleReset`: only a confirmed reset runs; it reinstalls the
        `defaultData` object (with whatever was written into it) and drops
        the snapshot. */
    method Reset(confirmed: bool)
      requires store.Valid()
      modifies this, store, store.storage
      ensures store.Valid()
      ensures !confirmed ==>
        notice == old(notice) && store.data == old(store.data) && store.storage.items == old(store.storage.items)
      ensures confirmed ==>
        && store.data == store.defaultData
        && store.storage.items == old(store.storage.items) - {StorageKey}
        && notice == Notice(ResetText, Success)
      ensures input == old(input) && isImporting == old(isImporting)
    {
      if confirmed {
        store.ResetData();
        notice := Notice(ResetText, Success);
      }
    }

    /** A press on a button: only a disabled import button ignores it; the
        import button opens the file dialog, which changes no state. */
    method Press(b: Button, confirmed: bool) returns (ran: bool)
      requires store.Valid()
      modifies this, store, store.storage
      ensures ran <==> !old(Disabled(b))
      ensures ran <==> b != ImportButton || !old(isImporting)
      ensures store.Valid()
      ensures b == ImportButton ==> notice == old(notice) && store.data == old(store.data)
      ensures b == SaveButton ==>
        notice == Notice(SavedText, Success)
        && store.storage.items == old(store.storage.items)[StorageKey := Snapshot(store.Tree())]
      ensures b == ExportButton ==> notice == Notice(ExportedText, Success)
      ensures b == ResetButton && confirmed ==> store.data == store.defaultData && notice == Notice(ResetText, Success)
      ensures b == ResetButton && !confirmed ==> notice == old(notice) && store.data == old(store.data)
      ensures input == old(input) && isImporting == old(isImporting)
    {
      ran := !Disabled(b);
      match b {
        case SaveButton => Save();
        case ExportButton => Export();
        case ImportButton =>
        case ResetButton => Reset(confirmed);
      }
    }
  }
}
