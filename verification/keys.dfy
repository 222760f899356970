/**
 The keyboard state table of the flight simulator: the key-down and key-up
 handlers write it, the frame loop only reads it.
 */
module Keys {

  /** Key identifier (the DOM `KeyboardEvent.key` string) to "currently held". */
  type KeyState = map<string, bool>

  const ArrowUp: string := "ArrowUp"
  const ArrowDown: string := "ArrowDown"
  const ArrowLeft: string := "ArrowLeft"
  const ArrowRight: string := "ArrowRight"

  /** The only identifiers the frame loop ever looks up. */
  const Recognised: set<string> :=
    {ArrowUp, ArrowDown, ArrowLeft, ArrowRight, "w", "W", "s", "S"}

  /** The table starts out with no entries at all. */
  const Empty: KeyState := map[]

  /** A lookup of a missing entry yields `undefined`, which is falsy, so a key
      counts as held only when the table maps it to `true`. */
  predicate Held(keys: KeyState, k: string) {
    k in keys && keys[k]
  }

  /** The key-down handler: records the key as held. */
  function KeyDown(keys: KeyState, k: string): (r: KeyState)
    ensures Held(r, k)
    ensures forall k' :: k' != k ==> Held(r, k') == Held(keys, k')
    ensures r.Keys == keys.Keys + {k}
  {
    keys[k := true]
  }

  /** The key-up handler: records the key as released (the entry stays). */
  function KeyUp(keys: KeyState, k: string): (r: KeyState)
    ensures !Held(r, k)
    ensures forall k' :: k' != k ==> Held(r, k') == Held(keys, k')
    ensures r.Keys == keys.Keys + {k}
  {
    keys[k := false]
  }

  /** Pressing and releasing a key that was not held gives back a table that
      reads exactly like the one before the press. */
  lemma PressReleaseRestores(keys: KeyState, k: string)
    requires !Held(keys, k)
    ensures forall k' :: Held(KeyUp(KeyDown(keys, k), k), k') == Held(keys, k')
  {
  }

  /** An entry mapped to `false` and a missing entry read the same. */
  lemma AbsentReadsAsReleased(keys: KeyState, k: string)
    requires k !in keys
    ensures forall k' :: Held(keys[k := false], k') == Held(keys, k')
  {
  }
}
