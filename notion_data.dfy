/**
 * The client store holding the database list and the selected database,
 * whose selection is mirrored into browser storage under
 * `selectedDatabase` so that it survives a reload.
 */
module NotionData {
  import opened Wrappers
  import opened ClientModel
  import opened NotionApi

  const SelectedKey: string := "selectedDatabase"

  /**
   * What reading `selectedDatabase` back yields: the stored selection, or
   * nothing when the key is absent, empty or does not parse as one.
   */
  function SavedSelection(items: map<string, StoredValue>): (r: Option<Selection>)
    ensures r.Some? ==> HasItem(items, SelectedKey)
    ensures !HasItem(items, SelectedKey) ==> r.None?
    ensures r.Some? <==> SelectedKey in items && items[SelectedKey].SelectionJson?
  {
    if !HasItem(items, SelectedKey) then None
    else match items[SelectedKey]
      case SelectionJson(selection) => Some(selection)
      case _ => None
  }

  /** The selection a fresh store starts with: the saved one, else the empty one. */
  function InitialSelection(items: map<string, StoredValue>): (s: Selection)
    ensures SavedSelection(items).Some? ==> s == SavedSelection(items).value
    ensures SavedSelection(items).None? ==> s == EmptySelection
  {
    match SavedSelection(items)
    case Some(selection) => selection
    case None => EmptySelection
  }

  /** Storing a selection and reading it back gives that selection. */
  lemma SaveThenRead(items: map<string, StoredValue>, selection: Selection)
    ensures SavedSelection(items[SelectedKey := SelectionJson(selection)]) == Some(selection)
    ensures InitialSelection(items[SelectedKey := SelectionJson(selection)]) == selection
  {
    assert HasItem(items[SelectedKey := SelectionJson(selection)], SelectedKey);
  }

  /** After removal there is nothing to read back. */
  lemma RemoveThenRead(items: map<string, StoredValue>)
    ensures SavedSelection(items - {SelectedKey}) == None
    ensures InitialSelection(items - {SelectedKey}) == EmptySelection
  {
    assert SelectedKey !in items - {SelectedKey};
  }

  class NotionDataStore {
    var databases: seq<DatabaseSummary>
    var selectedDatabase: Selection
    /** The browser storage the selection is mirrored into. */
    const storage: Storage

    /** A store built at page load: no databases, the saved selection if any. */
    constructor(storage: Storage)
      ensures databases == []
      ensures selectedDatabase == InitialSelection(storage.items)
      ensures this.storage == storage
    {
      databases := [];
      var saved := EmptySelection;
      if HasItem(storage.items, SelectedKey) && storage.items[SelectedKey].SelectionJson? {
        saved := storage.items[SelectedKey].selection;
      }
      selectedDatabase := saved;
      this.storage := storage;
    }

    method SetDatabases(databases: seq<DatabaseSummary>)
      modifies this
      ensures this.databases == databases
      ensures selectedDatabase == old(selectedDatabase)
    {
      this.databases := databases;
    }

    /** The selection becomes the given triple, and the same value is saved. */
    method SetSelectedDatabase(id: string, title: string, fields: seq<(string, FieldSpec)>)
      modifies this, storage
      ensures selectedDatabase == Selection(id, title, fields)
      ensures storage.items == old(storage.items)[SelectedKey := SelectionJson(Selection(id, title, fields))]
      ensures SavedSelection(storage.items) == Some(selectedDatabase)
      ensures databases == old(databases)
    {
      selectedDatabase := Selection(id, title, fields);
      storage.SetItem(SelectedKey, SelectionJson(selectedDatabase));
      SaveThenRead(old(storage.items), selectedDatabase);
    }

    /** The selection is emptied and the saved one removed. */
    method ClearSelectedDatabase()
      modifies this, storage
      ensures selectedDatabase == EmptySelection
      ensures storage.items == old(storage.items) - {SelectedKey}
      ensures SavedSelection(storage.items) == None
      ensures databases == old(databases)
    {
      selectedDatabase := EmptySelection;
      storage.RemoveItem(SelectedKey);
      RemoveThenRead(old(storage.items));
    }

    method ClearAll()
      modifies this, storage
      ensures databases == []
      ensures selectedDatabase == EmptySelection
      ensures storage.items == old(storage.items) - {SelectedKey}
    {
      databases := [];
      ClearSelectedDatabase();
    }

    /** Reads the saved selection back; without one, nothing changes. */
    method LoadFromLocalStorage() returns (loaded: bool)
      modifies this
      ensures loaded <==> SavedSelection(storage.items).Some?
      ensures loaded ==> selectedDatabase == SavedSelection(storage.items).value
      ensures !loaded ==> selectedDatabase == old(selectedDatabase)
      ensures databases == old(databases)
    {
      loaded := false;
      if HasItem(storage.items, SelectedKey) {
        match storage.items[SelectedKey]
        case SelectionJson(selection) =>
          selectedDatabase := selection;
          loaded := true;
        case _ =>
      }
    }
  }

  /**
   * The selection survives: once set, loading it back succeeds and yields
   * it, and a store built on the same storage (a reload) starts with it.
   */
  method SelectionSurvivesReload(store: NotionDataStore, id: string, title: string, fields: seq<(string, FieldSpec)>)
    returns (loaded: bool, reloaded: NotionDataStore)
    modifies store, store.storage
    ensures loaded && store.selectedDatabase == Selection(id, title, fields)
    ensures reloaded.selectedDatabase == Selection(id, title, fields) && reloaded.databases == []
  {
    store.SetSelectedDatabase(id, title, fields);
    loaded := store.LoadFromLocalStorage();
    reloaded := new NotionDataStore(store.storage);
    SaveThenRead(old(store.storage.items), Selection(id, title, fields));
  }

  /** Clearing is final: nothing loads back, and a reload starts empty. */
  method ClearedStaysCleared(store: NotionDataStore) returns (loaded: bool, reloaded: NotionDataStore)
    modifies store, store.storage
    ensures !loaded && store.selectedDatabase == EmptySelection
    ensures reloaded.selectedDatabase == EmptySelection
  {
    store.ClearSelectedDatabase();
    loaded := store.LoadFromLocalStorage();
    reloaded := new NotionDataStore(store.storage);
  }
}
