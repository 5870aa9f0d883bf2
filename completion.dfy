/**
  The completion store: the `checks` dictionary of app.js, which maps an item id
  to `true` while its box is ticked. Only ids ever map to `true`, so the model
  keeps the set of its keys. `saved` is the snapshot last written to storage.
 */
module Completion {

  /** The completion set after a checkbox for `id` reports state `on`. */
  function Toggled(checks: set<string>, id: string, on: bool): (r: set<string>)
    ensures id in r <==> on
    ensures forall x :: x != id ==> (x in r <==> x in checks)
  {
    if on then checks + {id} else checks - {id}
  }

  /** Ticking an id that was not ticked and then unticking it restores the set. */
  lemma CheckThenUncheckRestores(checks: set<string>, id: string)
    requires id !in checks
    ensures Toggled(Toggled(checks, id, true), id, false) == checks
  {
  }

  /** Reporting the same state twice is the same as reporting it once. */
  lemma ToggleIdempotent(checks: set<string>, id: string, on: bool)
    ensures Toggled(Toggled(checks, id, on), id, on) == Toggled(checks, id, on)
  {
  }

  class CompletionStore {
    var checks: set<string>
    var saved: set<string>

    /** The stored snapshot is the current set: every operation of the store leaves it so. */
    predicate Synced()
      reads this
    {
      saved == checks
    }

    /** The store as loaded at start-up from the persisted snapshot. */
    constructor (persisted: set<string>)
      ensures checks == persisted && saved == persisted
      ensures Synced()
    {
      checks := persisted;
      saved := persisted;
    }

    /** The checkbox change handler: set or delete the key, then persist the whole map. */
    method SetDone(id: string, on: bool)
      modifies this
      ensures checks == Toggled(old(checks), id, on)
      ensures Synced()
    {
      if on {
        checks := checks + {id};
      } else {
        checks := checks - {id};
      }
      Save();
    }

    method Check(id: string)
      modifies this
      ensures id in checks
      ensures forall x :: x != id ==> (x in checks <==> x in old(checks))
      ensures Synced()
    {
      SetDone(id, true);
    }

    method Uncheck(id: string)
      modifies this
      ensures id !in checks
      ensures forall x :: x != id ==> (x in checks <==> x in old(checks))
      ensures Synced()
    {
      SetDone(id, false);
    }

    /** Writes the full set; the previous snapshot is overwritten. */
    method Save()
      modifies this`saved
      ensures Synced()
    {
      saved := checks;
    }
  }

  /** Checking then unchecking an absent id leaves the store, and its snapshot, as they were. */
  method CheckThenUncheck(store: CompletionStore, id: string)
    requires id !in store.checks
    requires store.Synced()
    modifies store
    ensures store.checks == old(store.checks)
    ensures store.saved == old(store.saved)
  {
    store.Check(id);
    store.Uncheck(id);
  }
}
