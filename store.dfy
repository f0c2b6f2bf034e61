/** The custom-property store through which the game publishes every position
    (`--left`, `--bottom`), modelled as a map from (element, property) to a value. */
module PropertyStore {
  import opened Common

  /** The elements whose custom properties the engine reads and writes. */
  datatype Elem = Ground1 | Ground2 | DinoSprite | Cactus(id: nat)

  /** What the engine passes in: a bare element, or a React ref whose `current` may be unset. */
  datatype Handle = Element(elem: Elem) | Ref(current: Option<Elem>)

  /** A stored property value: a number, or text `parseFloat` cannot read. */
  datatype CssValue = Num(v: real) | Unparsable

  type Style = map<(Elem, string), CssValue>

  const LEFT: string := "--left"
  const BOTTOM: string := "--bottom"

  /** `elem.current || elem`: a ref with a current element resolves to it, anything else to itself. */
  function GetElement(h: Handle): (r: Handle)
    ensures r.Element? <==> h.Element? || h.current.Some?
    ensures h.Ref? && h.current.Some? ==> r == Element(h.current.value)
    ensures !(h.Ref? && h.current.Some?) ==> r == h
  {
    if h.Ref? && h.current.Some? then Element(h.current.value) else h
  }

  /** The handle designates an element whose style can be read and written. */
  predicate Resolves(h: Handle) {
    GetElement(h).Element?
  }

  function Target(h: Handle): Elem
    requires Resolves(h)
  {
    GetElement(h).elem
  }

  /** `parseFloat(value) || 0`: an unset or unreadable property reads as 0. */
  function Read(st: Style, e: Elem, p: string): real {
    if (e, p) in st && st[(e, p)].Num? then st[(e, p)].v else 0.0
  }

  /** `style.setProperty(p, v)` with a number `v`. */
  function Write(st: Style, e: Elem, p: string, v: real): (r: Style)
    ensures Read(r, e, p) == v
    ensures forall e', p' :: (e', p') != (e, p) ==> Read(r, e', p') == Read(st, e', p')
    ensures r.Keys == st.Keys + {(e, p)}
  {
    st[(e, p) := Num(v)]
  }

  lemma GetElementIdempotent(h: Handle)
    ensures GetElement(GetElement(h)) == GetElement(h)
  {
  }

  lemma ReadUnsetIsZero(st: Style, e: Elem, p: string)
    requires (e, p) !in st || st[(e, p)] == Unparsable
    ensures Read(st, e, p) == 0.0
  {
  }

  /** Incrementing an unset property gives exactly the increment. */
  lemma IncrementUnset(st: Style, e: Elem, p: string, inc: real)
    requires (e, p) !in st
    ensures Read(Write(st, e, p, Read(st, e, p) + inc), e, p) == inc
  {
  }

  /** Inline style of the page's elements; `sheet` is what the stylesheet provides before any write. */
  class Store {
    var style: Style

    constructor (sheet: Style)
      ensures style == sheet
    {
      style := sheet;
    }

    /** `getCustomProperty(elem, prop)`. */
    function GetCustomProperty(h: Handle, p: string): real
      reads this
      requires Resolves(h)
    {
      Read(style, Target(h), p)
    }

    /** `setCustomProperty(elem, prop, value)`. */
    method SetCustomProperty(h: Handle, p: string, v: real)
      requires Resolves(h)
      modifies this
      ensures style == Write(old(style), Target(h), p, v)
    {
      style := style[(Target(h), p) := Num(v)];
    }

    /** `incrementCustomProperty(elem, prop, inc)`: read, add, write back. */
    method IncrementCustomProperty(h: Handle, p: string, inc: real)
      requires Resolves(h)
      modifies this
      ensures style == Write(old(style), Target(h), p, Read(old(style), Target(h), p) + inc)
      ensures GetCustomProperty(h, p) == old(GetCustomProperty(h, p)) + inc
    {
      SetCustomProperty(h, p, GetCustomProperty(h, p) + inc);
    }
  }
}
