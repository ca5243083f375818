/**
 * Request property maps and the `Object.assign({}, s1, ..., sn)` merge that
 * every installed handler performs before it renders the call arguments.
 */
module Props {

  /** The JavaScript values a property map, a factory argument or a response body can hold (integral numbers only). */
  datatype Value = Text(s: string) | Number(n: int) | Flag(b: bool) | Null

  /**
   * The own enumerable properties of a JavaScript object, as `Object.assign` copies them:
   * `ctx.query`, `ctx.params`, and Koa's request object `ctx.request`, whose own
   * properties include the `body` the body parser sets.
   */
  type Props = map<string, Value>

  /** Some source in `sources` defines `key`. */
  predicate DefinedIn(sources: seq<Props>, key: string)
  {
    exists i :: 0 <= i < |sources| && key in sources[i]
  }

  /** Source `i` is the last one in `sources` that defines `key`. */
  predicate LastDefining(sources: seq<Props>, i: int, key: string)
  {
    0 <= i < |sources| && key in sources[i] &&
    forall j :: i < j < |sources| ==> key !in sources[j]
  }

  /**
   * `Object.assign(target, ...sources)`: the sources are copied onto the target
   * from left to right, so for a key that several define the last one wins, and a
   * key no source defines keeps the target's value.
   */
  function Assign(target: Props, sources: seq<Props>): (r: Props)
    ensures forall key :: key in r <==> key in target || DefinedIn(sources, key)
    ensures forall i, key :: LastDefining(sources, i, key) ==> key in r && r[key] == sources[i][key]
    ensures forall key :: key in target && !DefinedIn(sources, key) ==> r[key] == target[key]
    decreases |sources|
  {
    if sources == [] then target
    else
      var r := Assign(target + sources[0], sources[1..]);
      assert forall key :: DefinedIn(sources, key) <==> key in sources[0] || DefinedIn(sources[1..], key) by {
        forall key | DefinedIn(sources, key) ensures key in sources[0] || DefinedIn(sources[1..], key) {
          var i :| 0 <= i < |sources| && key in sources[i];
          if i > 0 { assert key in sources[1..][i - 1]; }
        }
        forall key | DefinedIn(sources[1..], key) ensures DefinedIn(sources, key) {
          var i :| 0 <= i < |sources[1..]| && key in sources[1..][i];
          assert key in sources[i + 1];
        }
      }
      forall i, key | LastDefining(sources, i, key) ensures key in r && r[key] == sources[i][key] {
        if i > 0 {
          assert LastDefining(sources[1..], i - 1, key);
        } else {
          assert !DefinedIn(sources[1..], key);
        }
      }
      r
  }

  /**
   * The merged property map of one request: `ctx.query`, then `ctx.params`, then,
   * when `withRequest` holds, `ctx.request`, each later source overriding an earlier
   * one on a shared key.
   */
  function Merged(query: Props, params: Props, request: Props, withRequest: bool): (r: Props)
    ensures r.Keys == query.Keys + params.Keys + (if withRequest then request.Keys else {})
    ensures withRequest ==> forall key :: key in request ==> r[key] == request[key]
    ensures forall key :: key in params && !(withRequest && key in request) ==> r[key] == params[key]
    ensures forall key :: key in query && key !in params && !(withRequest && key in request) ==> r[key] == query[key]
  {
    if withRequest then
      AssignOfThree(query, params, request);
      Assign(map[], [query, params, request])
    else
      AssignOfTwo(query, params);
      Assign(map[], [query, params])
  }

  /** Assigning two sources onto an empty object is the map union with the second winning. */
  lemma AssignOfTwo(a: Props, b: Props)
    ensures Assign(map[], [a, b]) == a + b
  {
  }

  /** Assigning three sources onto an empty object is the map union with the later ones winning. */
  lemma AssignOfThree(a: Props, b: Props, c: Props)
    ensures Assign(map[], [a, b, c]) == a + b + c
  {
    assert [a, b, c][1..] == [b, c];
    assert [b, c][1..] == [c];
    assert [c][1..] == [];
    assert map[] + a == a;
    assert Assign(map[], [a, b, c]) == Assign(a, [b, c]);
    assert Assign(a, [b, c]) == Assign(a + b, [c]);
    assert Assign(a + b, [c]) == Assign(a + b + c, []);
  }
}
