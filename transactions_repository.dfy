/**
 * The transaction store (`TransactionsRepository`): the list of transactions
 * kept in the `'transactions'` slot of the key-value store. Reading gives the
 * list; saving reads it, appends at the end and writes the whole list back.
 */
module TransactionsRepository {
  import opened Wrappers
  import opened Models
  import opened LocalStorage

  const StorageKey: string := "transactions"

  /** `JSON.parse` failed on the text found in the slot. */
  datatype LoadError = Malformed(text: string)

  /**
   * `getAll` as a function of the slot's content: a missing slot or the empty
   * string (both falsy) give the empty list; other text is handed to
   * `JSON.parse`, which throws.
   */
  function Decode(slot: Option<StoredValue>): (r: Result<seq<Transaction>, LoadError>)
    ensures slot == None ==> r == Ok([])
    ensures slot == Some(Text("")) ==> r == Ok([])
    ensures slot.Some? && slot.value.Serialized? ==> r == Ok(slot.value.items)
    ensures r.Err? <==> slot.Some? && slot.value.Text? && slot.value.text != ""
  {
    match slot
    case None => Ok([])
    case Some(Text(s)) => if s == "" then Ok([]) else Err(Malformed(s))
    case Some(Serialized(items)) => Ok(items)
  }

  /** `getAll` on a whole storage map. */
  function Load(entries: map<string, StoredValue>): Result<seq<Transaction>, LoadError>
  {
    Decode(if StorageKey in entries then Some(entries[StorageKey]) else None)
  }

  /**
   * The storage after `save(t)`: the list read by `getAll` with `t` pushed on
   * its end, written back under the slot's key. When `getAll` throws, `save`
   * throws before writing anything.
   */
  function AfterSave(entries: map<string, StoredValue>, t: Transaction): (r: Result<map<string, StoredValue>, LoadError>)
    ensures r.Err? <==> Load(entries).Err?
    ensures r.Err? ==> r.error == Load(entries).error
    ensures r.Ok? ==> r.value.Keys == entries.Keys + {StorageKey}
    ensures r.Ok? ==> r.value[StorageKey] == Serialized(Load(entries).value + [t])
  {
    match Load(entries)
    case Err(e) => Err(e)
    case Ok(transactions) => Ok(entries[StorageKey := Serialized(transactions + [t])])
  }

  /** Reading back after a save gives the previous list with `t` appended; a failed read makes `save` fail. */
  lemma SaveThenLoad(entries: map<string, StoredValue>, t: Transaction)
    ensures AfterSave(entries, t).Ok? <==> Load(entries).Ok?
    ensures Load(entries).Ok? ==>
      AfterSave(entries, t).Ok? && Load(AfterSave(entries, t).value) == Ok(Load(entries).value + [t])
  {
  }

  /** A save adds exactly one entry at the end and leaves the earlier ones where they were. */
  lemma SaveGrowsByOne(entries: map<string, StoredValue>, t: Transaction)
    requires Load(entries).Ok?
    ensures var before := Load(entries).value;
      && AfterSave(entries, t).Ok?
      && Load(AfterSave(entries, t).value).Ok?
      && var after := Load(AfterSave(entries, t).value).value;
      && |after| == |before| + 1
      && after[..|before|] == before
      && after[|before|] == t
  {
    var before := Load(entries).value;
    assert (before + [t])[..|before|] == before;
  }

  /** A save writes the `'transactions'` key and no other. */
  lemma SaveKeepsOtherKeys(entries: map<string, StoredValue>, t: Transaction, key: string)
    requires AfterSave(entries, t).Ok? && key != StorageKey
    ensures key in AfterSave(entries, t).value <==> key in entries
    ensures key in entries ==> AfterSave(entries, t).value[key] == entries[key]
    ensures StorageKey in AfterSave(entries, t).value
  {
  }

  /** Two saves of transactions with the same id keep both, in save order. */
  lemma SaveKeepsDuplicates(entries: map<string, StoredValue>, t1: Transaction, t2: Transaction)
    requires Load(entries).Ok? && t1.id == t2.id
    ensures AfterSave(entries, t1).Ok?
    ensures AfterSave(AfterSave(entries, t1).value, t2).Ok?
    ensures var final := AfterSave(AfterSave(entries, t1).value, t2).value;
      Load(final) == Ok(Load(entries).value + [t1, t2])
  {
    var before := Load(entries).value;
    assert before + [t1] + [t2] == before + [t1, t2];
  }

  class TransactionsRepository {
    const storage: KeyValueStore

    constructor(storage: KeyValueStore)
      ensures this.storage == storage
    {
      this.storage := storage;
    }

    /** `getAll()`: reads the slot and changes nothing. */
    function GetAll(): (r: Result<seq<Transaction>, LoadError>)
      reads storage
      ensures r == Decode(storage.GetItem(StorageKey))
    {
      Load(storage.entries)
    }

    /** `save(t)`: read, push, write back; a failing read propagates and nothing is written. */
    method Save(t: Transaction) returns (outcome: Outcome<LoadError>)
      modifies storage
      ensures outcome.Pass? <==> old(GetAll()).Ok?
      ensures outcome.Pass? ==> AfterSave(old(storage.entries), t) == Ok(storage.entries)
      ensures outcome.Fail? ==> storage.entries == old(storage.entries)
                                && outcome == Fail(old(GetAll()).error)
    {
      var stored := GetAll();
      match stored
      case Err(e) =>
        outcome := Fail(e);
      case Ok(transactions) =>
        transactions := transactions + [t];
        storage.SetItem(StorageKey, Serialized(transactions));
        outcome := Pass;
    }
  }
}
