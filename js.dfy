/**
 * The JavaScript semantics the frontend's reducers and response interceptor rely on: the
 * truthiness of a string property, `||` between two of them, and the two array methods the
 * reducers call, specialised to the `x.id === id` tests they are always given.
 */
module Js {
  import opened Wrappers
  import opened Panache

  /** A string-valued property; `None` stands for both `undefined` and `null`. */
  type JsString = Option<string>

  /** A string property is truthy when it is present and not the empty string. */
  predicate Truthy(s: JsString) {
    s.Some? && s.value != ""
  }

  /** `a || b` on string properties: `a` when it is truthy, otherwise `b` as it is. */
  function Or(a: JsString, b: JsString): (r: JsString)
    ensures Truthy(r) <==> Truthy(a) || Truthy(b)
    ensures Truthy(a) ==> r == a
    ensures !Truthy(a) ==> r == b
  {
    if Truthy(a) then a else b
  }

  /** `a || b || c` reads as `(a || b) || c`; grouping the other way gives the same value. */
  lemma {:induction false} OrAssociative(a: JsString, b: JsString, c: JsString)
    ensures Or(Or(a, b), c) == Or(a, Or(b, c))
  {
  }

  /** `items.findIndex(x => x.id === id)`: the first position holding that id, or -1. */
  function FindIndexById<T>(items: seq<T>, idOf: T -> Option<Id>, id: Option<Id>): (r: int)
    ensures -1 <= r < |items|
    ensures r == -1 <==> forall i :: 0 <= i < |items| ==> idOf(items[i]) != id
    ensures r != -1 ==> idOf(items[r]) == id && forall i :: 0 <= i < r ==> idOf(items[i]) != id
  {
    if items == [] then -1
    else if idOf(items[0]) == id then 0
    else
      var r := FindIndexById(items[1..], idOf, id);
      assert forall i :: 1 <= i < |items| ==> items[1..][i - 1] == items[i];
      if r == -1 then -1 else r + 1
  }

  /** `items.filter(x => x.id !== id)`: every item with another id, in the same order. */
  function FilterOutId<T>(items: seq<T>, idOf: T -> Option<Id>, id: Option<Id>): (r: seq<T>)
    ensures |r| <= |items|
    ensures forall i :: 0 <= i < |r| ==> idOf(r[i]) != id
  {
    if items == [] then []
    else (if idOf(items[0]) == id then [] else [items[0]]) + FilterOutId(items[1..], idOf, id)
  }

  /** The filter keeps every item with another id and adds none. */
  lemma {:induction false} FilterOutIdMembers<T>(items: seq<T>, idOf: T -> Option<Id>, id: Option<Id>)
    ensures forall i :: 0 <= i < |FilterOutId(items, idOf, id)| ==> FilterOutId(items, idOf, id)[i] in items
    ensures forall i :: 0 <= i < |items| && idOf(items[i]) != id ==> items[i] in FilterOutId(items, idOf, id)
  {
    if items != [] {
      var rest := FilterOutId(items[1..], idOf, id);
      FilterOutIdMembers(items[1..], idOf, id);
      assert forall i :: 1 <= i < |items| ==> items[1..][i - 1] == items[i];
      assert forall x :: x in rest ==> x in items;
    }
  }

  /** The filter keeps each item with another id as often as the array held it, and none with the id. */
  lemma {:induction false} FilterOutIdCounts<T>(items: seq<T>, idOf: T -> Option<Id>, id: Option<Id>)
    ensures forall x :: multiset(FilterOutId(items, idOf, id))[x] == if idOf(x) == id then 0 else multiset(items)[x]
  {
    if items != [] {
      FilterOutIdCounts(items[1..], idOf, id);
      assert items == [items[0]] + items[1..];
    }
  }

  /** Filtering works piecewise, so it keeps the surviving items in their order. */
  lemma {:induction false} FilterOutIdAppend<T>(a: seq<T>, b: seq<T>, idOf: T -> Option<Id>, id: Option<Id>)
    ensures FilterOutId(a + b, idOf, id) == FilterOutId(a, idOf, id) + FilterOutId(b, idOf, id)
  {
    if a == [] {
      assert a + b == b;
    } else {
      var head := if idOf(a[0]) == id then [] else [a[0]];
      calc {
        FilterOutId(a + b, idOf, id);
        { assert (a + b)[0] == a[0] && (a + b)[1..] == a[1..] + b; }
        head + FilterOutId(a[1..] + b, idOf, id);
        { FilterOutIdAppend(a[1..], b, idOf, id); }
        head + (FilterOutId(a[1..], idOf, id) + FilterOutId(b, idOf, id));
        (head + FilterOutId(a[1..], idOf, id)) + FilterOutId(b, idOf, id);
        FilterOutId(a, idOf, id) + FilterOutId(b, idOf, id);
      }
    }
  }

  /** Filtering out an id no item carries leaves the array as it was. */
  lemma {:induction false} FilterOutAbsentId<T>(items: seq<T>, idOf: T -> Option<Id>, id: Option<Id>)
    requires forall i :: 0 <= i < |items| ==> idOf(items[i]) != id
    ensures FilterOutId(items, idOf, id) == items
  {
    if items != [] {
      assert forall i :: 1 <= i < |items| ==> items[1..][i - 1] == items[i];
      FilterOutAbsentId(items[1..], idOf, id);
    }
  }

  /** Filtering out the same id twice is filtering it out once. */
  lemma {:induction false} FilterOutIdIdempotent<T>(items: seq<T>, idOf: T -> Option<Id>, id: Option<Id>)
    ensures FilterOutId(FilterOutId(items, idOf, id), idOf, id) == FilterOutId(items, idOf, id)
  {
    var r := FilterOutId(items, idOf, id);
    FilterOutAbsentId(r, idOf, id);
  }
}
