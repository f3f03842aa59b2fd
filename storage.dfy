/**
 * The browser's `localStorage` as the wizards use it: named slots that hold a serialised
 * snapshot of an application in progress. A slot holds what `JSON.parse` gives back from the
 * text that was written (the snapshot as JSON carries it), or text that no longer parses.
 */
module Storage {
  import opened Json
  import opened Wrappers

  /** What `JSON.parse` of a slot gives: the saved snapshot, or a parse failure. */
  datatype Stored =
    | Snapshot(formData: Value, currentStep: Option<int>, lastSaved: int)
    | Unparseable

  class LocalStorage {
    var items: map<string, Stored>

    constructor()
      ensures items == map[]
    {
      items := map[];
    }

    /** `localStorage.getItem(k)`; an absent slot reads as `None`. */
    function GetItem(k: string): (r: Option<Stored>)
      reads this
      ensures r.Some? <==> k in items
      ensures r.Some? ==> r.value == items[k]
    {
      if k in items then Some(items[k]) else None
    }

    /** `localStorage.setItem(k, v)` */
    method SetItem(k: string, v: Stored)
      modifies this
      ensures items == old(items)[k := v]
    {
      items := items[k := v];
    }

    /** `localStorage.removeItem(k)`: only that slot goes. */
    method RemoveItem(k: string)
      modifies this
      ensures k !in items
      ensures forall j :: j != k ==> GetItem(j) == old(GetItem(j))
    {
      items := items - {k};
    }
  }
}
