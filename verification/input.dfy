/** The directional input the frame consumes.

    The page keeps an object from key names to booleans, written by the
    keyboard, button and focus listeners. A name that was never written
    reads as `undefined`, which is falsy; a name written `false` on key
    release stays in the object.
 */
module Input {

  /** The key object: names that have been written, each with its last value. */
  type KeyMap = map<string, bool>

  /** `keys[name]` is truthy: present and set to true. */
  predicate Pressed(keys: KeyMap, name: string)
  {
    name in keys && keys[name]
  }

  /** A direction is held when its arrow key or its on-screen button is
      pressed. A held direction needs a written entry, so it opens the rock
      gate. */
  function Held(keys: KeyMap, arrow: string, button: string): (r: bool)
    ensures r ==> arrow in keys || button in keys
    ensures r ==> HasEntries(keys)
    ensures (arrow in keys && keys[arrow]) || (button in keys && keys[button]) ==> r
    ensures (arrow !in keys || !keys[arrow]) && (button !in keys || !keys[button]) ==> !r
  {
    Pressed(keys, arrow) || Pressed(keys, button)
  }

  predicate UpHeld(keys: KeyMap)
  {
    Held(keys, "ArrowUp", "up")
  }

  predicate DownHeld(keys: KeyMap)
  {
    Held(keys, "ArrowDown", "down")
  }

  predicate LeftHeld(keys: KeyMap)
  {
    Held(keys, "ArrowLeft", "left")
  }

  predicate RightHeld(keys: KeyMap)
  {
    Held(keys, "ArrowRight", "right")
  }

  /** The object has at least one own key, whatever its value. */
  function HasEntries(keys: KeyMap): (r: bool)
    ensures r <==> exists name :: name in keys
  {
    |keys| > 0
  }
}
