/** The chama creation panel. */
module CreateChama {
  import opened Wrappers
  import opened Records
  import opened Chamas
  import Text
  import Store

  class CreateChamaForm {
    const store: Store.Store
    var newChamaName: string
    var newChamaNote: string

    constructor (s: Store.Store)
      ensures store == s && newChamaName == "" && newChamaNote == ""
    {
      store := s;
      newChamaName, newChamaNote := "", "";
    }

    /** `handleCreateChama`: an empty or whitespace-only name is refused with no write;
        otherwise one chama (trimmed name, status active, trimmed note) is appended and
        both inputs are cleared. */
    method HandleCreateChama(now: int) returns (created: Option<Chama>)
      modifies this`newChamaName, this`newChamaNote, store`chamas, store`nextId
      ensures created.None? <==> Text.AllSpace(old(newChamaName))
      ensures created == NewChama(old(newChamaName), old(newChamaNote), Text.AutoId(old(store.nextId)), now)
      ensures created.None? ==>
        store.chamas == old(store.chamas) && store.nextId == old(store.nextId)
        && newChamaName == old(newChamaName) && newChamaNote == old(newChamaNote)
      ensures created.Some? ==>
        store.chamas == old(store.chamas) + [created.value] && store.nextId == old(store.nextId) + 1
        && newChamaName == "" && newChamaNote == ""
    {
      created := NewChama(newChamaName, newChamaNote, Text.AutoId(store.nextId), now);
      if created.None? {
        return;
      }
      var id := store.NewId();
      store.AddChama(created.value);
      newChamaName, newChamaNote := "", "";
    }
  }
}
