/**
 * The local-storage slot both persistent stores use: the value held under a
 * store's key is `None` when nothing is stored and `Some(list)` otherwise,
 * with JSON encoding the identity. Outside a browser (server-side rendering)
 * nothing is read or written.
 */
module Storage {
  import opened Wrappers

  /** What local storage holds under a store's key. */
  type Slot<T> = Option<seq<T>>

  /** The list a store starts with (`loadWorkouts`, `loadFromLocalStorage`). */
  function Load<T>(browser: bool, slot: Slot<T>): (r: seq<T>)
    ensures !browser || slot.None? ==> r == []
    ensures browser && slot.Some? ==> r == slot.value
  {
    if !browser then []
    else match slot
      case Some(stored) => stored
      case None => []
  }

  /** What local storage holds after a store saves `xs` (`saveWorkouts`, `saveToLocalStorage`). */
  function Save<T>(browser: bool, xs: seq<T>, slot: Slot<T>): (r: Slot<T>)
    ensures !browser ==> r == slot
    ensures browser ==> r == Some(xs)
  {
    if browser then Some(xs) else slot
  }

  /** Loading after saving returns the saved list in a browser, and the empty list elsewhere. */
  lemma LoadAfterSave<T>(browser: bool, xs: seq<T>, slot: Slot<T>)
    ensures Load(browser, Save(browser, xs, slot)) == (if browser then xs else [])
  {
  }
}
