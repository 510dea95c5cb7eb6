/** Shared result types and the identifier types of the gateway. Identifiers that the
    gateway only ever compares for equality are integers. */
module Prelude {

  datatype Option<+T> = None | Some(value: T)

  datatype Result<+T, +E> = Ok(value: T) | Err(error: E)

  type SessionId = int
  type EndpointId = int
  type ConnectionId = int
  type BackendId = int
  type CallId = string

  type Byte = x: int | 0 <= x < 256

  /** The operation that an asynchronous method call is. */
  type OpId = int

  /** Why a digit gather ended. */
  datatype Reason = Digits | Terminator | Timeout | Cancelled

  /** The next element of an iteration whose order does not matter. */
  method AnyOf<T(==)>(s: set<T>) returns (x: T)
    requires s != {}
    ensures x in s
  {
    x :| x in s;
  }

  /** The same choice in a proof. */
  ghost function Member<T>(s: set<T>): (x: T)
    requires s != {}
    ensures x in s
  {
    var x :| x in s; x
  }

  lemma SubsetSize<T>(a: set<T>, b: set<T>)
    requires a <= b
    ensures |a| <= |b|
  {
    assert b == a + (b - a);
  }

  /** A number that has not been used yet; there always is one. */
  ghost function Unused(s: set<int>): (m: int)
    ensures forall x :: x in s ==> x < m
    ensures m !in s
    decreases |s|
  {
    if s == {} then 0
    else
      var x := Member(s);
      var m := Unused(s - {x});
      assert forall y :: y in s ==> y == x || y in s - {x};
      if m > x then m else x + 1
  }
}
