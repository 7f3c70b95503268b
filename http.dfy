/**
 * The shapes requests and responses take between the client and the API
 * routes: query strings as ordered key/value lists, and a response as a
 * status code with either a JSON value or an `{ error }` body.
 */
module Http {
  import opened Wrappers

  /** A `URLSearchParams`, in the order its entries were added. */
  type Query = seq<(string, string)>

  predicate HasKey(q: Query, key: string) {
    exists i :: 0 <= i < |q| && q[i].0 == key
  }

  /** `searchParams.get(key)`: the value of the first entry with that key. */
  function Get(q: Query, key: string): (r: Option<string>)
    ensures r.Some? <==> HasKey(q, key)
    ensures r.Some? ==> (key, r.value) in q
    ensures q != [] && q[0].0 == key ==> r == Some(q[0].1)
    decreases |q|
  {
    if q == [] then None
    else if q[0].0 == key then Some(q[0].1)
    else
      var r := Get(q[1..], key);
      assert forall i :: 0 <= i < |q| - 1 ==> q[1..][i] == q[i + 1];
      r
  }

  /** The value a lookup sees is not disturbed by entries for other keys. */
  lemma {:induction false} GetOtherKey(q: Query, k: string, v: string, key: string)
    requires k != key
    ensures Get(q + [(k, v)], key) == Get(q, key)
    ensures Get([(k, v)] + q, key) == Get(q, key)
    decreases |q|
  {
    if q != [] {
      assert (q + [(k, v)])[1..] == q[1..] + [(k, v)];
      GetOtherKey(q[1..], k, v, key);
    }
    assert ([(k, v)] + q)[1..] == q;
  }

  datatype Body<+T> = Json(value: T) | Failure(error: string)

  /** `NextResponse.json(body, { status })`. */
  datatype Response<+T> = Response(status: int, body: Body<T>)

  function Ok200<T>(value: T): Response<T> { Response(200, Json(value)) }
  function Created<T>(value: T): Response<T> { Response(201, Json(value)) }
  function BadRequest<T>(message: string): Response<T> { Response(400, Failure(message)) }
  function ServerError<T>(message: string): Response<T> { Response(500, Failure(message)) }
}
