/** The pod's container registry (pkg/hostman/guestman/pod.go): the map
    from container id to its record, kept in memory and persisted as a
    whole to the pod's containers file after every change. */
module ContainerRegistry {
  import opened Wrappers

  /** `sContainer`: the container id, its index (never assigned by the pod,
      so always the zero value) and the id the CRI runtime gave it. */
  datatype Entry = Entry(id: string, index: int, criId: string)

  /** `entries` is the in-memory map; `saved` is what the containers file
      holds. */
  datatype Registry = Registry(entries: map<string, Entry>, saved: map<string, Entry>)

  /** The file holds exactly the in-memory map. */
  predicate Persisted(reg: Registry)
  {
    reg.saved == reg.entries
  }

  /** Every record is filed under its own id. */
  predicate WellKeyed(reg: Registry)
  {
    forall id :: id in reg.entries ==> reg.entries[id].id == id
  }

  /** `saveContainer`: a record under a new id is added and the whole map is
      written out; an id already present is refused and nothing changes. */
  function Save(reg: Registry, id: string, criId: string): (r: (Registry, Result<()>))
    ensures id in reg.entries <==> r.1.Err?
    ensures r.1.Err? ==> r.1.error == AlreadyExists && r.0 == reg
    ensures r.1.Ok? ==>
              Persisted(r.0) &&
              r.0.entries.Keys == reg.entries.Keys + {id} &&
              r.0.entries[id] == Entry(id, 0, criId) &&
              forall other :: other in reg.entries ==> r.0.entries[other] == reg.entries[other]
    ensures WellKeyed(reg) ==> WellKeyed(r.0)
  {
    if id in reg.entries then (reg, Err(AlreadyExists))
    else
      var entries := reg.entries[id := Entry(id, 0, criId)];
      (Registry(entries, entries), Ok(()))
  }

  /** `getContainerCRIId`: the CRI id recorded for `id`, or not-found. */
  function Lookup(reg: Registry, id: string): (r: Result<string>)
    ensures r.Err? <==> id !in reg.entries
    ensures r.Err? ==> r.error == NotFound
    ensures r.Ok? ==> r.value == reg.entries[id].criId
  {
    if id in reg.entries then Ok(reg.entries[id].criId) else Err(NotFound)
  }

  /** The removal in `DeleteContainer`: the record goes (if present) and the
      map is written out. */
  function Remove(reg: Registry, id: string): (r: Registry)
    ensures Persisted(r)
    ensures r.entries.Keys == reg.entries.Keys - {id}
    ensures forall other :: other in r.entries ==> r.entries[other] == reg.entries[other]
    ensures WellKeyed(reg) ==> WellKeyed(r)
  {
    var entries := reg.entries - {id};
    Registry(entries, entries)
  }

  /** A saved container is found again under its id, with its CRI id. */
  lemma LookupAfterSave(reg: Registry, id: string, criId: string, other: string)
    requires id !in reg.entries
    ensures Lookup(Save(reg, id, criId).0, id) == Ok(criId)
    ensures other != id ==> Lookup(Save(reg, id, criId).0, other) == Lookup(reg, other)
  {
  }

  /** After a removal the id is unknown and every other id answers as before. */
  lemma LookupAfterRemove(reg: Registry, id: string, other: string)
    ensures Lookup(Remove(reg, id), id) == Err(NotFound)
    ensures other != id ==> Lookup(Remove(reg, id), other) == Lookup(reg, other)
  {
  }

  /** Removing twice is removing once. */
  lemma RemoveIdempotent(reg: Registry, id: string)
    ensures Remove(Remove(reg, id), id) == Remove(reg, id)
  {
    assert Remove(Remove(reg, id), id).entries == Remove(reg, id).entries;
  }

  /** Saving then removing a fresh id restores the in-memory map. */
  lemma RemoveUndoesSave(reg: Registry, id: string, criId: string)
    requires id !in reg.entries
    ensures Remove(Save(reg, id, criId).0, id).entries == reg.entries
  {
    assert Save(reg, id, criId).0.entries - {id} == reg.entries;
  }
}
