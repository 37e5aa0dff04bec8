/** The disk-persisted map from client order ids to broker state (execution/order_store.py). */
module OrderStoring {
  import opened Prelude
  import opened OrderedDict
  import opened Models

  /** How client ids become broker tags; the source takes a prefix of a SHA-256 digest. */
  type TagScheme = OrderId -> string

  datatype Stage = Attempting | Submitted | Terminal

  datatype Entry = Entry(id: OrderId, tag: string, stage: Stage, brokerId: Option<string>)

  /** The file's content. */
  type Entries = Dict<OrderId, Entry>

  function AfterBegin(entries: Entries, tagOf: TagScheme, id: OrderId): Entries {
    entries.Put(id, Entry(id, tagOf(id), Attempting, None))
  }

  function AfterSubmitted(entries: Entries, id: OrderId, brokerId: string): Result<Entries, Error> {
    if id !in entries.data then Err(KeyError)
    else Ok(entries.Put(id, entries.data[id].(stage := Submitted, brokerId := Some(brokerId))))
  }

  function AfterTerminal(entries: Entries, id: OrderId): Result<Entries, Error> {
    if id !in entries.data then Err(KeyError)
    else Ok(entries.Put(id, entries.data[id].(stage := Terminal)))
  }

  class OrderStore {
    const tagOf: TagScheme
    var entries: Entries
    var file: Entries

    /** Memory and file agree between calls. */
    ghost predicate Valid()
      reads this
    {
      entries == file && entries.Valid()
    }

    /** Open a store on a file that survived a restart. */
    constructor (tagOf: TagScheme, file: Entries)
      requires file.Valid()
      ensures Valid() && this.file == file && this.tagOf == tagOf
    {
      this.tagOf, this.file, this.entries := tagOf, file, file;
    }

    function Get(id: OrderId): Option<Entry>
      reads this
    {
      if id in entries.data then Some(entries.data[id]) else None
    }

    /** Write a temporary file and move it into place: all or nothing. */
    method Save()
      modifies `file
      ensures file == entries
    {
      file := entries;
    }

    method BeginAttempt(id: OrderId) returns (entry: Entry)
      requires Valid()
      modifies this
      ensures Valid() && file == AfterBegin(old(file), tagOf, id)
      ensures entry == Entry(id, tagOf(id), Attempting, None)
    {
      entry := Entry(id, tagOf(id), Attempting, None);
      entries := entries.Put(id, entry);
      Save();
    }

    method MarkSubmitted(id: OrderId, brokerId: string) returns (r: Result<(), Error>)
      requires Valid()
      modifies this
      ensures Valid()
      ensures r.Err? ==> AfterSubmitted(old(file), id, brokerId) == Err(r.error) && file == old(file)
      ensures r.Ok? ==> AfterSubmitted(old(file), id, brokerId) == Ok(file)
    {
      if id !in entries.data {
        return Err(KeyError);
      }
      entries := entries.Put(id, entries.data[id].(stage := Submitted, brokerId := Some(brokerId)));
      Save();
      return Ok(());
    }

    method MarkTerminal(id: OrderId) returns (r: Result<(), Error>)
      requires Valid()
      modifies this
      ensures Valid()
      ensures r.Err? ==> AfterTerminal(old(file), id) == Err(r.error) && file == old(file)
      ensures r.Ok? ==> AfterTerminal(old(file), id) == Ok(file)
    {
      if id !in entries.data {
        return Err(KeyError);
      }
      entries := entries.Put(id, entries.data[id].(stage := Terminal));
      Save();
      return Ok(());
    }
  }
}
