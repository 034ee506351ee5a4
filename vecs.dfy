/** Rust's growable `Vec<T>`, as far as the engine uses it: a heap object whose
    contents the borrowing code changes in place. */
module Vecs {

  class Vec<T> {
    var elems: seq<T>

    constructor ()
      ensures elems == []
    {
      elems := [];
    }

    function Len(): nat
      reads this
    {
      |elems|
    }

    /** `Vec::push`. */
    method Push(x: T)
      modifies this
      ensures elems == old(elems) + [x]
    {
      elems := elems + [x];
    }

    /** `Vec::extend` with an array of items. */
    method Extend(xs: seq<T>)
      modifies this
      ensures elems == old(elems) + xs
    {
      elems := elems + xs;
    }

    /** `Vec::clear`. */
    method Clear()
      modifies this
      ensures elems == []
    {
      elems := [];
    }

    /** `Vec::append`: moves every element of `other` to the end of this vector, leaving `other` empty. */
    method Append(other: Vec<T>)
      requires other != this
      modifies this, other
      ensures elems == old(elems) + old(other.elems)
      ensures other.elems == []
    {
      elems := elems + other.elems;
      other.elems := [];
    }
  }
}
