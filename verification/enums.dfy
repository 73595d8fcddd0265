/** A protobuf enum descriptor (`constants_pb2.Region`, `QueueType`, `Season`)
    as a table of (name, number) entries. Its contents are not part of this
    model: every table is a parameter. `Name` and `Value` are the descriptor's
    lookups; `None` stands for the `ValueError` they raise on an unknown key. */
module Enums {
  import opened Wrappers
  import Lookup

  datatype Entry = Entry(name: string, number: int)

  datatype EnumTable = EnumTable(entries: seq<Entry>)

  /** No alias: names and numbers are each declared once. */
  ghost predicate Unique(t: EnumTable)
  {
    forall i, j :: 0 <= i < j < |t.entries| ==>
      t.entries[i].name != t.entries[j].name && t.entries[i].number != t.entries[j].number
  }

  /** `Enum.Name(number)`. */
  function Name(t: EnumTable, number: int): (r: Option<string>)
    ensures r.Some? <==> exists i :: 0 <= i < |t.entries| && t.entries[i].number == number
    ensures r.Some? ==> Entry(r.value, number) in t.entries
  {
    match Lookup.First(t.entries, (e: Entry) => e.number == number)
    case None => None
    case Some(i) => Some(t.entries[i].name)
  }

  /** `Enum.Value(name)`. */
  function Value(t: EnumTable, name: string): (r: Option<int>)
    ensures r.Some? <==> exists i :: 0 <= i < |t.entries| && t.entries[i].name == name
    ensures r.Some? ==> Entry(name, r.value) in t.entries
  {
    match Lookup.First(t.entries, (e: Entry) => e.name == name)
    case None => None
    case Some(i) => Some(t.entries[i].number)
  }

  /** In an alias-free table every entry is found by both lookups. */
  lemma EntryFound(t: EnumTable, i: int)
    requires Unique(t)
    requires 0 <= i < |t.entries|
    ensures Name(t, t.entries[i].number) == Some(t.entries[i].name)
    ensures Value(t, t.entries[i].name) == Some(t.entries[i].number)
  {
  }

  /** `Value(Name(n)) == n`: the name the server sends upstream converts back
      to the request's enum number. */
  lemma NameThenValue(t: EnumTable, number: int, name: string)
    requires Unique(t)
    requires Name(t, number) == Some(name)
    ensures Value(t, name) == Some(number)
  {
  }

  /** `Name(Value(s)) == s`. */
  lemma ValueThenName(t: EnumTable, name: string, number: int)
    requires Unique(t)
    requires Value(t, name) == Some(number)
    ensures Name(t, number) == Some(name)
  {
  }
}
