/** Definitions shared by the services: optional values, the Express
    middleware verdict, duplicate-free lists, `indexOf`/`splice` and the
    bearer-secret guard that both `validateSystem` routines implement. */
module Common {

  datatype Option<T> = None | Some(value: T)

  /** A live connection (a Colyseus `Client`), identified by its session id;
      equality of ids stands for identity of the client objects. */
  type ConnId = string

  /** What an Express middleware does with a request: hand it on to `next`,
      or answer it with a status code. */
  datatype Gate = Next | Reject(status: int)

  /** The result of an `async` handler's promise. */
  datatype Completion = Resolved | Rejected

  predicate NoDup<T(==)>(s: seq<T>) {
    forall i, j :: 0 <= i < j < |s| ==> s[i] != s[j]
  }

  /** `Array.prototype.indexOf`: the first position holding `x`, or -1. */
  function IndexOf<T(==)>(s: seq<T>, x: T): (i: int)
    ensures -1 <= i < |s|
    ensures 0 <= i ==> s[i] == x && x !in s[..i]
    ensures i < 0 <==> x !in s
  {
    if s == [] then -1
    else if s[0] == x then 0
    else
      var j := IndexOf(s[1..], x);
      assert s[1..][..(if j < 0 then 0 else j)] == s[1..(if j < 0 then 1 else j + 1)];
      assert s == [s[0]] + s[1..];
      if j < 0 then -1 else j + 1
  }

  /** `Array.prototype.splice(i, 1)`. */
  function RemoveAt<T>(s: seq<T>, i: nat): seq<T>
    requires i < |s|
  {
    s[..i] + s[i + 1..]
  }

  /** In a duplicate-free list, `indexOf` finds the one position of an element. */
  lemma IndexOfUnique<T>(s: seq<T>, j: nat)
    requires NoDup(s) && j < |s|
    ensures IndexOf(s, s[j]) == j
  {
    assert s[j] !in s[..j];
  }

  /** Splicing out the first occurrence of an element of a duplicate-free
      list removes it, keeps every other element and the order. */
  lemma RemoveFirstOccurrence<T>(s: seq<T>, x: T)
    requires NoDup(s) && x in s
    ensures var r := RemoveAt(s, IndexOf(s, x));
      && x !in r && NoDup(r) && |r| == |s| - 1
      && forall y :: y != x ==> (y in r <==> y in s)
  {
    var i := IndexOf(s, x);
    var r := RemoveAt(s, i);
    assert forall k :: 0 <= k < |r| ==> r[k] == (if k < i then s[k] else s[k + 1]);
    forall y | y != x
      ensures y in r <==> y in s
    {
      if y in s {
        var k :| 0 <= k < |s| && s[k] == y;
        assert k != i;
        assert r[if k < i then k else k - 1] == y;
      }
    }
  }

  /** `header.substring(7)`: the header with its first seven characters (the
      `Bearer ` prefix, which is not itself checked) cut off. */
  function BearerToken(header: string): string {
    if |header| <= 7 then "" else header[7..]
  }

  /** A header is truthy in JavaScript when it is present and not empty. */
  predicate Present(header: Option<string>) {
    header.Some? && header.value != ""
  }

  /** The bearer guard run before a protected route: a missing or empty
      `authorization` header, or one whose token is not in `allowed`, is
      answered with 400; otherwise the request goes on to `next`. */
  function BearerGate(header: Option<string>, allowed: seq<string>): (g: Gate)
    ensures g == Next <==> Present(header) && BearerToken(header.value) in allowed
    ensures g != Next ==> g == Reject(400)
  {
    if !Present(header) then Reject(400)
    else if IndexOf(allowed, BearerToken(header.value)) < 0 then Reject(400)
    else Next
  }

  /** A request carrying `authorization: <7-character prefix><token>` passes the
      guard exactly when `token` is allowed. */
  lemma {:induction false} BearerGateDecidesOnToken(prefix: string, token: string, allowed: seq<string>)
    requires |prefix| == 7
    ensures BearerGate(Some(prefix + token), allowed) == if token in allowed then Next else Reject(400)
  {
    var h := prefix + token;
    assert h != "";
    if |h| > 7 {
      assert h[7..] == token;
    } else {
      assert token == "";
    }
  }
}
