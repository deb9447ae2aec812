/**
 * Decoded JSON documents as Python's `json` module hands them to the client,
 * and the handful of Python operations the client applies to them:
 * subscripting, `dict.get`, truthiness, iteration inside a comprehension and
 * building a dict from a comprehension.
 */
module PyJson {
  import opened Wrappers

  /**
   * A decoded JSON value. An object is a map from keys to values, so a key that
   * is absent (not in `fields`) is told apart from a key whose value is an
   * explicit `null` (`fields[key] == JNull`).
   */
  datatype Json =
    | JNull
    | JBool(b: bool)
    | JInt(i: int)
    | JStr(s: string)
    | JArr(items: seq<Json>)
    | JObj(fields: map<string, Json>)

  /** The Python exceptions that reading a malformed document can raise. */
  datatype PyError = KeyError | TypeError | AttributeError | IndexError

  /** `j[key]` for a string key: only a dict can be subscripted by a string. */
  function Subscript(j: Json, key: string): Result<Json, PyError>
  {
    match j
    case JObj(fields) => if key in fields then Success(fields[key]) else Failure(KeyError)
    case _ => Failure(TypeError)
  }

  /** `j[0]`: the first item of a list or the first character of a string. */
  function Index0(j: Json): Result<Json, PyError>
  {
    match j
    case JArr(items) => if items == [] then Failure(IndexError) else Success(items[0])
    case JStr(s) => if s == [] then Failure(IndexError) else Success(JStr([s[0]]))
    // keys of a decoded object are strings, so the integer key 0 is never one of them
    case JObj(_) => Failure(KeyError)
    case _ => Failure(TypeError)
  }

  /** `j.get(key, default)`: only a dict has a `get` method. */
  function GetOr(j: Json, key: string, default: Json): Result<Json, PyError>
  {
    match j
    case JObj(fields) => Success(if key in fields then fields[key] else default)
    case _ => Failure(AttributeError)
  }

  /** Python's `not j`. */
  predicate Falsy(j: Json)
  {
    match j
    case JNull => true
    case JBool(b) => !b
    case JInt(i) => i == 0
    case JStr(s) => s == []
    case JArr(items) => items == []
    case JObj(fields) => fields == map[]
  }

  /** A value that can be a dict key: lists and dicts are unhashable. */
  predicate Hashable(j: Json)
  {
    !j.JArr? && !j.JObj?
  }

  /**
   * The elements a comprehension `for x in j` meets when its first step is to
   * subscript `x` with a string key. A list yields its items. A dict yields its
   * keys and a string its characters: both are strings, and subscripting a
   * string with a string raises TypeError, so a non-empty dict or string fails
   * at its first element and an empty one yields nothing. Anything else is not
   * iterable.
   */
  function IterateSubscripted(j: Json): Result<seq<Json>, PyError>
  {
    match j
    case JArr(items) => Success(items)
    case JObj(fields) => if fields == map[] then Success([]) else Failure(TypeError)
    case JStr(s) => if s == [] then Success([]) else Failure(TypeError)
    case _ => Failure(TypeError)
  }

  /**
   * A list comprehension `[f(x) for x in xs]`: the elements are evaluated from
   * left to right and the first exception ends the whole comprehension.
   */
  function Collect<T>(f: Json -> Result<T, PyError>, xs: seq<Json>): (r: Result<seq<T>, PyError>)
    ensures r.Success? <==> forall i :: 0 <= i < |xs| ==> f(xs[i]).Success?
    ensures r.Success? ==> |r.value| == |xs| && forall i :: 0 <= i < |xs| ==> f(xs[i]) == Success(r.value[i])
    ensures r.Failure? ==>
              exists i :: 0 <= i < |xs| && f(xs[i]) == Failure(r.error) && forall j :: 0 <= j < i ==> f(xs[j]).Success?
  {
    if xs == [] then Success([])
    else
      var head :- f(xs[0]);
      var tail :- Collect(f, xs[1..]);
      Success([head] + tail)
  }

  /** No pair after position `i` has the key of pair `i`. */
  ghost predicate LastWithKey(pairs: seq<(Json, Json)>, i: int)
  {
    0 <= i < |pairs| && forall j :: i < j < |pairs| ==> pairs[j].0 != pairs[i].0
  }

  /**
   * `m` is the dict that inserting `pairs` in order produces: its keys are
   * exactly the keys of the pairs, and each key holds the value of the last
   * pair with that key.
   */
  ghost predicate IsLastWinsDict(m: map<Json, Json>, pairs: seq<(Json, Json)>)
  {
    && (forall k :: k in m <==> exists i :: 0 <= i < |pairs| && pairs[i].0 == k)
    && (forall i :: LastWithKey(pairs, i) ==> pairs[i].0 in m && m[pairs[i].0] == pairs[i].1)
  }

  /** Inserting one more pair into a last-wins dict gives the last-wins dict of the longer list. */
  lemma LastWinsInsert(m: map<Json, Json>, pairs: seq<(Json, Json)>, key: Json, value: Json)
    requires IsLastWinsDict(m, pairs)
    ensures IsLastWinsDict(m[key := value], pairs + [(key, value)])
  {
    var pairs' := pairs + [(key, value)];
    var m' := m[key := value];
    forall k
      ensures k in m' <==> exists i :: 0 <= i < |pairs'| && pairs'[i].0 == k
    {
      if k == key {
        assert pairs'[|pairs|].0 == k;
      } else if k in m {
        var i :| 0 <= i < |pairs| && pairs[i].0 == k;
        assert pairs'[i].0 == k;
      }
    }
    forall i | LastWithKey(pairs', i)
      ensures pairs'[i].0 in m' && m'[pairs'[i].0] == pairs'[i].1
    {
      if i < |pairs| {
        assert pairs'[|pairs|].0 != pairs'[i].0;
        assert LastWithKey(pairs, i) by {
          forall j | i < j < |pairs| ensures pairs[j].0 != pairs[i].0 {
            assert pairs'[j] == pairs[j];
          }
        }
      }
    }
  }

  /** The dict a dict comprehension builds from its key/value pairs, inserted in order. */
  function FromPairs(pairs: seq<(Json, Json)>): map<Json, Json>
  {
    if pairs == [] then map[]
    else
      var last := pairs[|pairs| - 1];
      FromPairs(pairs[..|pairs| - 1])[last.0 := last.1]
  }

  /** A dict comprehension keeps every key it meets, each with the value of its last occurrence. */
  lemma {:induction false} FromPairsIsLastWins(pairs: seq<(Json, Json)>)
    ensures IsLastWinsDict(FromPairs(pairs), pairs)
  {
    if pairs != [] {
      var init, last := pairs[..|pairs| - 1], pairs[|pairs| - 1];
      FromPairsIsLastWins(init);
      LastWinsInsert(FromPairs(init), init, last.0, last.1);
      assert init + [(last.0, last.1)] == pairs;
    }
  }
}
