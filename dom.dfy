/** The DOM Builder: an element with a list of children and an attribute
    map, and the curried helpers of the widget that update elements in place
    and hand back the element they were given. `conveyorBelt` is the left
    fold that chains such helpers. */
module Dom {

  /** A node of the page: a text node or an element. */
  datatype Node = Text(text: string) | Elem(el: Element)

  /** The part of an element that the helpers change, at one moment. */
  datatype ElementState = ElementState(children: seq<Node>, attrs: map<string, string>)

  /** A page element: its tag is fixed at creation; its children and its
      attributes are updated in place. */
  class Element {
    const tag: string
    var children: seq<Node>
    var attrs: map<string, string>

    /** `document.createElement(tag)`: no children, no attributes. */
    constructor (tag: string)
      ensures this.tag == tag && children == [] && attrs == map[]
    {
      this.tag := tag;
      children := [];
      attrs := map[];
    }

    function State(): ElementState
      reads this
    {
      ElementState(children, attrs)
    }
  }

  /** The effect of `setAttrs(obj)` on an element's state. */
  function WithAttrs(obj: map<string, string>): ElementState -> ElementState {
    (s: ElementState) => s.(attrs := s.attrs + obj)
  }

  /** The effect of `append(child)` on an element's state. */
  function WithChild(child: Node): ElementState -> ElementState {
    (s: ElementState) => s.(children := s.children + [child])
  }

  /** `append(el)` for each element of `arr`, in order. */
  function WithChildren(arr: seq<Node>): (fns: seq<ElementState -> ElementState>)
    ensures |fns| == |arr|
  {
    if arr == [] then [] else [WithChild(arr[0])] + WithChildren(arr[1..])
  }

  /** `conveyorBelt(...fns)(val)`: `fns.reduce((acc, fn) => fn(acc), val)`,
      each function applied to the result of the one before it. */
  function ConveyorBelt<T>(fns: seq<T -> T>, val: T): T {
    if fns == [] then val else ConveyorBelt(fns[1..], fns[0](val))
  }

  /** With no functions the belt hands back its input. */
  lemma ConveyorBeltEmpty<T>(val: T)
    ensures ConveyorBelt([], val) == val
  {
  }

  /** `conveyorBelt(f, g)(x) == g(f(x))`: left to right, in argument order. */
  lemma ConveyorBeltPair<T>(f: T -> T, g: T -> T, val: T)
    ensures ConveyorBelt([f, g], val) == g(f(val))
  {
    assert [f, g][1..] == [g];
    assert ConveyorBelt([f, g], val) == ConveyorBelt([g], f(val));
    assert [g][1..] == [];
    assert ConveyorBelt([g], f(val)) == ConveyorBelt([], g(f(val)));
  }

  /** Running two belts one after the other is running the belt of both
      lists. */
  lemma {:induction false} ConveyorBeltConcat<T>(fs: seq<T -> T>, gs: seq<T -> T>, val: T)
    ensures ConveyorBelt(fs + gs, val) == ConveyorBelt(gs, ConveyorBelt(fs, val))
  {
    if fs != [] {
      assert (fs + gs)[1..] == fs[1..] + gs;
      ConveyorBeltConcat(fs[1..], gs, fs[0](val));
    } else {
      assert fs + gs == gs;
    }
  }

  /** The last function is applied last, to the result of all the others:
      the step of `reduce`. */
  lemma ConveyorBeltLast<T>(fs: seq<T -> T>, g: T -> T, val: T)
    ensures ConveyorBelt(fs + [g], val) == g(ConveyorBelt(fs, val))
  {
    ConveyorBeltConcat(fs, [g], val);
    assert [g][1..] == [];
  }

  /** Appending a list of children in order is the belt of single appends. */
  lemma {:induction false} WithChildrenAppends(arr: seq<Node>, s: ElementState)
    ensures ConveyorBelt(WithChildren(arr), s) == s.(children := s.children + arr)
  {
    if arr == [] {
      assert s.children + arr == s.children;
    } else {
      assert WithChildren(arr)[1..] == WithChildren(arr[1..]);
      var s' := WithChild(arr[0])(s);
      WithChildrenAppends(arr[1..], s');
      assert s.children + [arr[0]] + arr[1..] == s.children + arr;
    }
  }

  /** The transpiled `conveyorBelt` first copies its `arguments` into an
      array, one index at a time. */
  method CollectArguments<T>(arguments: seq<T>) returns (fns: seq<T>)
    ensures fns == arguments
  {
    fns := [];
    var key := 0;
    while key < |arguments|
      invariant 0 <= key <= |arguments|
      invariant fns == arguments[..key]
    {
      fns := fns + [arguments[key]];
      key := key + 1;
    }
  }

  /** The transpiled `conveyorBelt(...)`: the copied functions, closed over
      by the returned belt. */
  method MakeConveyorBelt<T>(arguments: seq<T -> T>) returns (belt: T -> T)
    ensures forall val :: belt(val) == ConveyorBelt(arguments, val)
  {
    var fns := CollectArguments(arguments);
    belt := val => ConveyorBelt(fns, val);
  }

  /** `setAttrs(obj)(element)`: every key of `obj` is set on the element,
      one `setAttribute` per key; the element itself is returned. */
  method SetAttrs(obj: map<string, string>, element: Element) returns (r: Element)
    modifies element
    ensures r == element
    ensures forall key :: key in obj ==> key in element.attrs && element.attrs[key] == obj[key]
    ensures forall key :: key !in obj ==>
      (key in element.attrs <==> key in old(element.attrs)) &&
      (key in element.attrs ==> element.attrs[key] == old(element.attrs)[key])
    ensures element.children == old(element.children)
    ensures element.State() == WithAttrs(obj)(old(element.State()))
  {
    var keys := obj.Keys;
    while keys != {}
      invariant keys <= obj.Keys
      invariant element.attrs == old(element.attrs) + map key | key in obj.Keys - keys :: obj[key]
      invariant element.children == old(element.children)
      decreases keys
    {
      var key :| key in keys;
      element.attrs := element.attrs[key := obj[key]];
      keys := keys - {key};
    }
    assert (map key | key in obj.Keys - keys :: obj[key]) == obj;
    r := element;
  }

  /** `append(child)(parent)`: `child` becomes the last child of `parent`,
      and `parent` is returned. */
  method Append(child: Node, parent: Element) returns (r: Element)
    modifies parent
    ensures r == parent
    ensures parent.children == old(parent.children) + [child]
    ensures parent.attrs == old(parent.attrs)
    ensures parent.State() == WithChild(child)(old(parent.State()))
  {
    parent.children := parent.children + [child];
    r := parent;
  }

  /** `populateAndReturnContainer(arr)(container)`: `append` of each node of
      `arr` in order; the container is returned. */
  method PopulateAndReturnContainer(arr: seq<Node>, container: Element) returns (r: Element)
    modifies container
    ensures r == container
    ensures container.children == old(container.children) + arr
    ensures container.attrs == old(container.attrs)
    ensures container.State() == ConveyorBelt(WithChildren(arr), old(container.State()))
  {
    var i := 0;
    while i < |arr|
      invariant 0 <= i <= |arr|
      invariant container.children == old(container.children) + arr[..i]
      invariant container.attrs == old(container.attrs)
    {
      var _ := Append(arr[i], container);
      i := i + 1;
    }
    WithChildrenAppends(arr, old(container.State()));
    r := container;
  }

  /** `makeTextNodeAndAppendToHeaderTag(str)(element)`: a text node holding
      `str` becomes the last child of `element`. */
  method MakeTextNodeAndAppendToHeaderTag(str: string, element: Element) returns (r: Element)
    modifies element
    ensures r == element
    ensures element.children == old(element.children) + [Text(str)]
    ensures element.attrs == old(element.attrs)
  {
    r := Append(Text(str), element);
  }
}
