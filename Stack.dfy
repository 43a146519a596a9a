/**
  The two stacks of src/stack.ts. Each factory (`getLIFO`, `getFIFO`) closes
  over a private array `_stack`; the returned object changes it in place with
  `push` and `pop` (`shift` for FIFO), reads it through the live `length` and
  `current` properties and writes one element through the `current` setter.
  The model gives each factory a class whose field `items` is that array,
  oldest element first. JavaScript's `undefined` and `null` results are `None`.
*/
module Stack {
  import opened Wrappers

  /** `getLIFO()`: push and pop at the end; `current` is the last element. */
  class LifoStack<T> {
    var items: seq<T>

    constructor ()
      ensures items == []
      ensures Length() == 0 && Current() == None
    {
      items := [];
    }

    /** The `length` getter. */
    function Length(): (n: nat)
      reads this
      ensures n == 0 <==> items == []
      ensures n == |items|
    {
      |items|
    }

    /** The `current` getter: the top element, `null` when the stack is empty. */
    function Current(): (c: Option<T>)
      reads this
      ensures c.None? <==> items == []
      ensures c.Some? ==> c.value == items[|items| - 1]
    {
      if |items| > 0 then Some(items[|items| - 1]) else None
    }

    /** `push(item)`: append; the result is the new length, as `Array.push` returns. */
    method Push(item: T) returns (n: nat)
      modifies this
      ensures items == old(items) + [item]
      ensures n == Length() == old(Length()) + 1
      ensures Current() == Some(item)
    {
      items := items + [item];
      n := |items|;
    }

    /** `pop()`: remove and return the last element; `undefined` on an empty stack. */
    method Pop() returns (r: Option<T>)
      modifies this
      ensures r == old(Current())
      ensures old(items) == [] ==> items == []
      ensures old(items) != [] ==> items == old(items)[..|old(items)| - 1]
    {
      if |items| > 0 {
        r := Some(items[|items| - 1]);
        items := items[..|items| - 1];
      } else {
        r := None;
      }
    }

    /** The `current` setter: replace the top element; nothing happens on an empty stack. */
    method SetCurrent(value: T)
      modifies this
      ensures old(items) == [] ==> items == []
      ensures old(items) != [] ==> items == old(items)[|old(items)| - 1 := value]
      ensures Length() == old(Length())
      ensures old(items) != [] ==> Current() == Some(value)
    {
      if |items| > 0 {
        items := items[|items| - 1 := value];
      }
    }
  }

  /** `getFIFO()`: push at the end, pop (`shift`) at the front; `current` is the first element. */
  class FifoStack<T> {
    var items: seq<T>

    constructor ()
      ensures items == []
      ensures Length() == 0 && Current() == None
    {
      items := [];
    }

    /** The `length` getter. */
    function Length(): (n: nat)
      reads this
      ensures n == 0 <==> items == []
      ensures n == |items|
    {
      |items|
    }

    /** The `current` getter: the front element, `null` when the stack is empty. */
    function Current(): (c: Option<T>)
      reads this
      ensures c.None? <==> items == []
      ensures c.Some? ==> c.value == items[0]
    {
      if |items| > 0 then Some(items[0]) else None
    }

    /** `push(item)`: append; the front, and so `current`, stays unless the stack was empty. */
    method Push(item: T) returns (n: nat)
      modifies this
      ensures items == old(items) + [item]
      ensures n == Length() == old(Length()) + 1
      ensures Current() == if old(items) == [] then Some(item) else old(Current())
    {
      items := items + [item];
      n := |items|;
    }

    /** `pop()`, that is `_stack.shift()`: remove and return the first element; `undefined` when empty. */
    method Pop() returns (r: Option<T>)
      modifies this
      ensures r == old(Current())
      ensures old(items) == [] ==> items == []
      ensures old(items) != [] ==> items == old(items)[1..]
    {
      if |items| > 0 {
        r := Some(items[0]);
        items := items[1..];
      } else {
        r := None;
      }
    }

    /** The `current` setter: replace the front element; nothing happens on an empty stack. */
    method SetCurrent(value: T)
      modifies this
      ensures old(items) == [] ==> items == []
      ensures old(items) != [] ==> items == old(items)[0 := value]
      ensures Length() == old(Length())
      ensures old(items) != [] ==> Current() == Some(value)
    {
      if |items| > 0 {
        items := items[0 := value];
      }
    }
  }

  // ---------------------------------------------------------------------------
  // Laws relating several calls
  // ---------------------------------------------------------------------------

  /** On a LIFO stack `pop` undoes `push`. */
  method LifoPopUndoesPush<T>(s: LifoStack<T>, x: T) returns (r: Option<T>)
    modifies s
    ensures r == Some(x) && s.items == old(s.items)
  {
    var n := s.Push(x);
    r := s.Pop();
  }

  /** On a FIFO stack a `pop` after a `push` returns the old front and keeps the pushed element last. */
  method FifoPopAfterPush<T>(s: FifoStack<T>, x: T) returns (r: Option<T>)
    modifies s
    ensures old(s.items) == [] ==> r == Some(x) && s.items == []
    ensures old(s.items) != [] ==> r == Some(old(s.items[0])) && s.items == old(s.items)[1..] + [x]
  {
    var n := s.Push(x);
    r := s.Pop();
  }

  /** A new LIFO stack is empty: length 0 and `current` null; popping it returns `undefined`. */
  method NewLifoIsEmpty<T>() returns (len: nat, cur: Option<T>, popped: Option<T>)
    ensures len == 0 && cur == None && popped == None
  {
    var s := new LifoStack<T>();
    len, cur := s.Length(), s.Current();
    popped := s.Pop();
  }

  /** A new FIFO stack is empty: length 0 and `current` null; popping it returns `undefined`. */
  method NewFifoIsEmpty<T>() returns (len: nat, cur: Option<T>, popped: Option<T>)
    ensures len == 0 && cur == None && popped == None
  {
    var s := new FifoStack<T>();
    len, cur := s.Length(), s.Current();
    popped := s.Pop();
  }

  /** Push x, y, z onto a LIFO stack: `current` is z, and pops return z, y, x and leave it empty. */
  method LifoPopsInReverse<T>(x: T, y: T, z: T)
    returns (top: Option<T>, a: Option<T>, b: Option<T>, c: Option<T>, len: nat, cur: Option<T>)
    ensures top == Some(z)
    ensures a == Some(z) && b == Some(y) && c == Some(x)
    ensures len == 0 && cur == None
  {
    var s := new LifoStack<T>();
    var n := s.Push(x);
    n := s.Push(y);
    n := s.Push(z);
    top := s.Current();
    a := s.Pop();
    b := s.Pop();
    c := s.Pop();
    len, cur := s.Length(), s.Current();
  }

  /** Push x, y, z onto a FIFO stack: `current` stays x, and pops return x, y, z and leave it empty. */
  method FifoPopsInOrder<T>(x: T, y: T, z: T)
    returns (fronts: seq<Option<T>>, a: Option<T>, b: Option<T>, c: Option<T>, len: nat, cur: Option<T>)
    ensures fronts == [Some(x), Some(x), Some(x)]
    ensures a == Some(x) && b == Some(y) && c == Some(z)
    ensures len == 0 && cur == None
  {
    var s := new FifoStack<T>();
    var n := s.Push(x);
    fronts := [s.Current()];
    n := s.Push(y);
    fronts := fronts + [s.Current()];
    n := s.Push(z);
    fronts := fronts + [s.Current()];
    a := s.Pop();
    b := s.Pop();
    c := s.Pop();
    len, cur := s.Length(), s.Current();
  }

  /**
    Push x and y onto a LIFO stack and set `current` to z: the length stays 2,
    `current` reads z, and only the top was replaced (pops return z, then x).
  */
  method LifoSetCurrentReplacesTop<T>(x: T, y: T, z: T)
    returns (len: nat, cur: Option<T>, a: Option<T>, b: Option<T>)
    ensures len == 2 && cur == Some(z)
    ensures a == Some(z) && b == Some(x)
  {
    var s := new LifoStack<T>();
    var n := s.Push(x);
    n := s.Push(y);
    s.SetCurrent(z);
    len, cur := s.Length(), s.Current();
    a := s.Pop();
    b := s.Pop();
  }

  /**
    Push x and y onto a FIFO stack and set `current` to z: the length stays 2,
    `current` reads z, and only the front was replaced (pops return z, then y).
  */
  method FifoSetCurrentReplacesFront<T>(x: T, y: T, z: T)
    returns (len: nat, cur: Option<T>, a: Option<T>, b: Option<T>)
    ensures len == 2 && cur == Some(z)
    ensures a == Some(z) && b == Some(y)
  {
    var s := new FifoStack<T>();
    var n := s.Push(x);
    n := s.Push(y);
    s.SetCurrent(z);
    len, cur := s.Length(), s.Current();
    a := s.Pop();
    b := s.Pop();
  }

  /** Setting `current` on an empty stack of either kind changes nothing. */
  method SetCurrentOnEmpty<T>(z: T) returns (lifoLen: nat, lifoCur: Option<T>, fifoLen: nat, fifoCur: Option<T>)
    ensures lifoLen == 0 && lifoCur == None
    ensures fifoLen == 0 && fifoCur == None
  {
    var l := new LifoStack<T>();
    l.SetCurrent(z);
    lifoLen, lifoCur := l.Length(), l.Current();
    var f := new FifoStack<T>();
    f.SetCurrent(z);
    fifoLen, fifoCur := f.Length(), f.Current();
  }
}
