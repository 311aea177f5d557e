/**
 * The data management panel of the brokerage dashboard
 * (src/components/DataManagementPanel.jsx): four buttons over the dashboard
 * store, a hidden file input, and a banner reporting each result.
 */
module ManagementPanel {
  import opened Optional
  import opened Text
  import opened JsValues
  import opened Storage
  import opened DashboardData

  const InvalidFileMessage := "Please select a valid JSON file."
  const JsonMime := "application/json"
  const JsonSuffix := ".json"

  /** The banner's `messageType`. */
  datatype Kind = Success | Error

  /** The banner: nothing, or a message of a kind. */
  datatype Banner = Hidden | Showing(message: Message, kind: Kind)

  /** A file the input can hold: its name and its MIME type. */
  datatype ChosenFile = ChosenFile(name: string, mime: string)

  datatype Button = SaveButton | ExportButton | ImportButton | ResetButton

  /** `showMessage(result.message, result.success ? 'success' : 'error')`. */
  function BannerFor(r: Outcome): Banner {
    Showing(r.message, if r.success then Success else Error)
  }

  /** The gate in front of `importData`: a JSON MIME type or a `.json` name. */
  predicate Acceptable(f: ChosenFile) {
    f.mime == JsonMime || EndsWith(f.name, JsonSuffix)
  }

  /** A file passes the gate exactly when its type says JSON or its name
      ends in ".json", whatever the other says. */
  lemma AcceptableCases(f: ChosenFile)
    ensures f.mime == JsonMime ==> Acceptable(f)
    ensures (exists stem: string :: f.name == stem + JsonSuffix) ==> Acceptable(f)
    ensures !Acceptable(f) <==> f.mime != JsonMime && forall stem: string :: f.name != stem + JsonSuffix
  {
    EndsWithMeansSuffix(f.name, JsonSuffix);
  }

  class DataManagementPanel {
    const store: DashboardStore
    var banner: Banner
    /** The hidden file input's selection; cleared by `e.target.value = ''`. */
    var input: Option<ChosenFile>
    /** An accepted file's `importData` is being awaited. */
    var awaiting: bool

    constructor (store: DashboardStore)
      ensures this.store == store && banner == Hidden && input == None && !awaiting
    {
      this.store := store;
      banner := Hidden;
      input := None;
      awaiting := false;
    }

    /** `disabled={isLoading}`: every one of the four buttons. */
    predicate Disabled(b: Button)
      reads this, store
    {
      store.isLoading
    }

    /** `handleSave`: the tree is saved and the banner reports success. */
    method Save()
      modifies this, store.storage
      ensures store.storage.items == old(store.storage.items)[StorageKey := Snapshot(store.data)]
      ensures banner == Showing(Fixed(SavedMessage), Success)
      ensures input == old(input) && awaiting == old(awaiting)
    {
      var r := store.SaveData();
      banner := BannerFor(r);
    }

    /** `handleExport`: the banner reports the export's success. */
    method Export()
      modifies this
      ensures banner == Showing(Fixed(ExportedMessage), Success)
      ensures input == old(input) && awaiting == old(awaiting)
    {
      var r := store.ExportData();
      banner := BannerFor(r);
    }

    /** `handleFileChange` up to the `await`: no file, nothing happens; a file
        that fails the gate gets the error banner and is cleared from the
        input; an accepted one starts the import and stays in the input
        until the import settles. */
    method ChooseFile(picked: Option<ChosenFile>) returns (importing: bool)
      modifies this, store
      ensures importing <==> picked.Some? && Acceptable(picked.value)
      ensures store.data == old(store.data)
      ensures picked.None? ==>
        banner == old(banner) && input == old(input) && awaiting == old(awaiting) && store.isLoading == old(store.isLoading)
      ensures importing ==>
        awaiting && store.isLoading && input == picked && banner == old(banner)
      ensures picked.Some? && !importing ==>
        && banner == Showing(Fixed(InvalidFileMessage), Error) && input == None
        && awaiting == old(awaiting) && store.isLoading == old(store.isLoading)
    {
      importing := false;
      if picked.None? {
        return;
      }
      input := picked;
      if Acceptable(picked.value) {
        store.StartImport();
        awaiting := true;
        importing := true;
      } else {
        banner := Showing(Fixed(InvalidFileMessage), Error);
        input := None;
      }
    }

    /** The continuation after `await importData(file)`: `content` is what
        the file parsed to (None when it did not). The banner shows the
        result's message: the import message, the parse error for unreadable
        JSON or `null`, or the format message for a tree without its pages.
        The input is cleared. */
    method FileLoaded(content: Option<Json>)
      requires awaiting
      modifies this, store, store.storage
      ensures !awaiting && !store.isLoading && input == None
      ensures var valid := content.Some? && HasPages(content.value) == Some(true);
        && (banner.Showing? && (banner.kind == Success <==> valid))
        && (valid ==> store.data == content.value && banner.message == Fixed(ImportedMessage)
                      && store.storage.items == old(store.storage.items)[StorageKey := Snapshot(content.value)])
        && (!valid ==> store.data == old(store.data) && store.storage.items == old(store.storage.items))
      ensures content.None? || content == Some(JNull) ==> banner == Showing(WithError(ParseErrorPrefix), Error)
      ensures content.Some? && HasPages(content.value) == Some(false) ==>
        banner == Showing(Fixed(InvalidFormatMessage), Error)
    {
      var r := store.CompleteImport(content);
      banner := BannerFor(r);
      input := None;
      awaiting := false;
    }

    /** The whole of `handleFileChange` when the read settles: a selected
        file always ends up cleared from the input, the busy flag is down,
        and the tree changes only for an accepted file whose content passes
        the store's check. */
    method HandleFileChange(picked: Option<ChosenFile>, content: Option<Json>)
      requires !awaiting
      modifies this, store, store.storage
      ensures picked.Some? ==> input == None && !awaiting
      ensures picked.Some? ==> banner.Showing? && (banner.kind == Success <==>
        Acceptable(picked.value) && content.Some? && HasPages(content.value) == Some(true))
      ensures !old(store.isLoading) ==> !store.isLoading
      ensures store.data != old(store.data) ==>
        picked.Some? && Acceptable(picked.value) && content.Some? && store.data == content.value
      ensures picked.None? ==> banner == old(banner) && input == old(input) && store.storage.items == old(store.storage.items)
    {
      var importing := ChooseFile(picked);
      if importing {
        FileLoaded(content);
      }
    }

    /** `handleReset`: only a confirmed reset runs, and then the banner
        reports it; declining changes nothing. */
    method Reset(confirmed: bool)
      modifies this, store, store.storage
      ensures !confirmed ==>
        banner == old(banner) && store.data == old(store.data) && store.storage.items == old(store.storage.items)
      ensures confirmed ==>
        && store.data == DefaultData() && StorageKey !in store.storage.items
        && store.storage.items == old(store.storage.items) - {StorageKey}
        && banner == Showing(Fixed(ResetMessage), Success)
      ensures input == old(input) && awaiting == old(awaiting) && store.isLoading == old(store.isLoading)
    {
      if confirmed {
        var r := store.ResetData();
        banner := BannerFor(r);
      }
    }

    /** A press on a button: a disabled button does nothing; the import
        button opens the file dialog, which changes no state. */
    method Press(b: Button, confirmed: bool) returns (ran: bool)
      modifies this, store, store.storage
      ensures ran <==> !old(Disabled(b))
      ensures !ran || b == ImportButton ==>
        banner == old(banner) && store.data == old(store.data) && store.storage.items == old(store.storage.items)
      ensures ran && b == SaveButton ==> banner == Showing(Fixed(SavedMessage), Success)
      ensures ran && b == ExportButton ==> banner == Showing(Fixed(ExportedMessage), Success)
      ensures ran && b == ResetButton && confirmed ==>
        store.data == DefaultData() && StorageKey !in store.storage.items && banner == Showing(Fixed(ResetMessage), Success)
      ensures ran && b == ResetButton && !confirmed ==>
        banner == old(banner) && store.data == old(store.data) && store.storage.items == old(store.storage.items)
      ensures input == old(input) && awaiting == old(awaiting) && store.isLoading == old(store.isLoading)
    {
      ran := !Disabled(b);
      if !ran {
        return;
      }
      match b {
        case SaveButton => Save();
        case ExportButton => Export();
        case ImportButton =>
        case ResetButton => Reset(confirmed);
      }
    }
  }
}
