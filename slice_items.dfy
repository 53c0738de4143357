/**
 * What the three catalog slices (products, raw materials, associations) share: the item
 * list updates their `fulfilled` reducers make, and the error text their `rejected`
 * reducers store.
 */
module SliceItems {
  import opened Wrappers
  import opened Panache
  import opened Js
  import Api

  /** The `action.error` of a rejected thunk, as the reducers read it. */
  datatype SerializedError = SerializedError(message: JsString, userMessage: JsString)

  /**
   * `miniSerializeError`, which `createAsyncThunk` applies to what a thunk throws when the
   * thunk has no `serializeError` option, as none of the slices' thunks has. Of an object
   * it keeps only the string properties `name`, `message`, `stack` and `code`, so the
   * `userMessage` the interceptor set is not among them.
   */
  function Serialize(e: Api.RequestError): (s: SerializedError)
    reads e
    ensures s.message == e.message
    ensures s.userMessage.None?
  {
    SerializedError(e.message, None)
  }

  /**
   * The `action.error` the rejected reducers are written for: the thrown error's `message`
   * together with its `userMessage`. A `serializeError` option copying that property
   * would produce it.
   */
  function SerializeKeepingUserMessage(e: Api.RequestError): (s: SerializedError)
    reads e
    ensures s.message == e.message
    ensures s.userMessage == e.userMessage
  {
    SerializedError(e.message, e.userMessage)
  }

  /** `action.error?.userMessage || action.error?.message`. */
  function RejectionMessage(e: SerializedError): (r: JsString)
    ensures Truthy(e.userMessage) ==> r == e.userMessage
    ensures !Truthy(e.userMessage) ==> r == e.message
  {
    Or(e.userMessage, e.message)
  }

  /** Position `i` holds the first item carrying `id`. */
  predicate FirstWithId<T>(items: seq<T>, idOf: T -> Option<Id>, id: Option<Id>, i: int) {
    0 <= i < |items| && idOf(items[i]) == id && forall j :: 0 <= j < i ==> idOf(items[j]) != id
  }

  /**
   * The `update.fulfilled` reducers: the first item with the payload's id becomes the
   * payload and every other item stays; with no such item nothing changes.
   */
  function Replaced<T>(items: seq<T>, idOf: T -> Option<Id>, x: T): (r: seq<T>)
    ensures |r| == |items|
    ensures forall i :: 0 <= i < |items| ==> r[i] == (if FirstWithId(items, idOf, idOf(x), i) then x else items[i])
    ensures forall i :: 0 <= i < |items| ==> idOf(r[i]) == idOf(items[i])
    ensures (forall i :: 0 <= i < |items| ==> idOf(items[i]) != idOf(x)) ==> r == items
  {
    var index := FindIndexById(items, idOf, idOf(x));
    if index == -1 then items else items[index := x]
  }

  /** Only one item ever takes the payload: a later item with the same id keeps its value. */
  lemma {:induction false} ReplacedOnlyFirst<T>(items: seq<T>, idOf: T -> Option<Id>, x: T, i: int, j: int)
    requires 0 <= i < j < |items| && idOf(items[i]) == idOf(x) && idOf(items[j]) == idOf(x)
    ensures Replaced(items, idOf, x)[j] == items[j]
  {
    assert !FirstWithId(items, idOf, idOf(x), j);
  }

  /** Delivering the same update twice leaves the list as one delivery does. */
  lemma {:induction false} ReplacedIdempotent<T>(items: seq<T>, idOf: T -> Option<Id>, x: T)
    ensures Replaced(Replaced(items, idOf, x), idOf, x) == Replaced(items, idOf, x)
  {
    var once := Replaced(items, idOf, x);
    var twice := Replaced(once, idOf, x);
    forall i | 0 <= i < |items| ensures twice[i] == once[i] {
      assert FirstWithId(once, idOf, idOf(x), i) <==> FirstWithId(items, idOf, idOf(x), i);
    }
  }

  /** The `delete.fulfilled` reducers: `items.filter(x => x.id !== id)`. */
  function Removed<T>(items: seq<T>, idOf: T -> Option<Id>, id: Id): (r: seq<T>)
    ensures forall i :: 0 <= i < |r| ==> idOf(r[i]) != Some(id)
    ensures forall i :: 0 <= i < |items| && idOf(items[i]) != Some(id) ==> items[i] in r
    ensures forall i :: 0 <= i < |r| ==> r[i] in items
    ensures forall i :: 0 <= i < |items| ==>
              multiset(r)[items[i]] == if idOf(items[i]) == Some(id) then 0 else multiset(items)[items[i]]
  {
    FilterOutIdMembers(items, idOf, Some(id));
    FilterOutIdCounts(items, idOf, Some(id));
    FilterOutId(items, idOf, Some(id))
  }

  /** An item the `create` reducer appended goes away with a delete of its id, and nothing else changes. */
  lemma {:induction false} RemovedUndoesCreate<T>(items: seq<T>, idOf: T -> Option<Id>, x: T, id: Id)
    requires idOf(x) == Some(id)
    ensures Removed(items + [x], idOf, id) == Removed(items, idOf, id)
  {
    FilterOutIdAppend(items, [x], idOf, Some(id));
    assert [x][1..] == [];
  }

  /** An update arriving after the delete of its id finds nothing to replace. */
  lemma {:induction false} ReplacedAfterRemoved<T>(items: seq<T>, idOf: T -> Option<Id>, x: T, id: Id)
    requires idOf(x) == Some(id)
    ensures Replaced(Removed(items, idOf, id), idOf, x) == Removed(items, idOf, id)
  {
    var r := Removed(items, idOf, id);
    assert forall i :: 0 <= i < |r| ==> idOf(r[i]) != idOf(x);
  }

  /** Deleting an id undoes any update to it: the other items are kept as they were. */
  lemma {:induction false} RemovedAfterReplaced<T>(items: seq<T>, idOf: T -> Option<Id>, x: T, id: Id)
    requires idOf(x) == Some(id)
    ensures Removed(Replaced(items, idOf, x), idOf, id) == Removed(items, idOf, id)
  {
    var index := FindIndexById(items, idOf, idOf(x));
    if index != -1 {
      var r := items[index := x];
      assert items == items[..index] + [items[index]] + items[index + 1..];
      assert r == items[..index] + [x] + items[index + 1..];
      FilterOutIdAppend(items[..index] + [items[index]], items[index + 1..], idOf, Some(id));
      FilterOutIdAppend(items[..index], [items[index]], idOf, Some(id));
      FilterOutIdAppend(items[..index] + [x], items[index + 1..], idOf, Some(id));
      FilterOutIdAppend(items[..index], [x], idOf, Some(id));
      assert [x][1..] == [] && [items[index]][1..] == [];
    }
  }
}
