/** The change and input-required records and the insertion-ordered
    dictionaries that collect them, keyed by section and attribute. */
module Reports {
  import opened Conductors

  /** The dictionary key "<section>, <attribute>". */
  datatype Key = Key(section: SectionId, attr: Attr)

  /** A row of the "Changed" report: SECTION, OLD, NEW, LINEID. */
  datatype ChangeRecord = ChangeRecord(section: SectionId, oldId: string, newId: string, attr: Attr)

  /** A row of the "Input Required" report: SECTION, UPSTREAM, DOWNSTREAM,
      LINEID, and the device (COND) so that it can be retried. */
  datatype IrRecord = IrRecord(section: SectionId, upstream: string, downstream: string, attr: Attr, cond: Device)

  /** A dictionary that remembers the order in which keys were first inserted. */
  datatype Report<V> = Report(keys: seq<Key>, entries: map<Key, V>)
  {
    ghost predicate Valid()
    {
      (forall i, j :: 0 <= i < j < |keys| ==> keys[i] != keys[j]) &&
      (forall k :: k in entries <==> k in keys)
    }

    /** Assignment `d[k] = v`: a new key goes to the end, an existing key
        keeps its place and gets the new value. */
    function Put(k: Key, v: V): (r: Report<V>)
      ensures Valid() ==> r.Valid()
      ensures r.entries == entries[k := v]
      ensures k in keys ==> r.keys == keys
      ensures k !in keys ==> r.keys == keys + [k]
    {
      if k in keys then Report(keys, entries[k := v]) else Report(keys + [k], entries[k := v])
    }
  }

  function Empty<V>(): (r: Report<V>)
    ensures r.Valid() && r.keys == [] && r.entries == map[]
  {
    Report([], map[])
  }
}
