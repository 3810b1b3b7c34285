/** RoutesHelper: the request-body check every route runs first, and the
    lookup that turns a service error code into an HTTP status. */
module RoutesHelper {
  import opened Wrappers
  import opened JsValues

  // ---------------------------------------------------------------------
  // JoiValidator
  // ---------------------------------------------------------------------

  /** The part of an Express response the helper sets: its status and the JSON it sends. */
  class Response {
    var statusCode: int
    var json: Option<JsVal>

    constructor ()
      ensures statusCode == 200 && json == None
    {
      statusCode := 200;
      json := None;
    }
  }

  /** `{ success: false, error: "not_validated" }` */
  const DefaultValidationResponse: JsVal :=
    Obj(map["success" := Bool(false), "error" := Str("not_validated")])

  /** The status sent when a body does not validate and the caller names none. */
  const DefaultValidationStatus: int := 404

  /** RoutesHelper.JoiValidator. `schema` stands for `schema.validate`, which is
      not part of this model: it gives the validation error, if any. */
  method JoiValidator(res: Response, schema: JsVal -> Option<string>, data: JsVal,
                      responseJson: JsVal := DefaultValidationResponse,
                      responseStatus: int := DefaultValidationStatus)
    returns (valid: bool)
    modifies res
    ensures valid <==> schema(data).None?
    ensures valid ==> res.statusCode == old(res.statusCode) && res.json == old(res.json)
    ensures !valid ==> res.statusCode == responseStatus && res.json == Some(responseJson)
  {
    var validate := schema(data);
    if validate.Some? {
      res.statusCode := responseStatus;
      res.json := Some(responseJson);
      return false;
    }
    return true;
  }

  // ---------------------------------------------------------------------
  // getStatus
  // ---------------------------------------------------------------------

  predicate StrictlyIncreasing(s: seq<nat>)
  {
    forall i, j :: 0 <= i < j < |s| ==> s[i] < s[j]
  }

  /** A set of naturals holding some element no greater than `n` has a least element. */
  lemma {:induction false} HasLeastBelow(s: set<nat>, n: nat)
    requires exists x :: x in s && x <= n
    ensures exists m :: m in s && forall y :: y in s ==> m <= y
    decreases n
  {
    if exists x :: x in s && x < n {
      HasLeastBelow(s, n - 1);
    } else {
      assert n in s && forall y :: y in s ==> n <= y;
    }
  }

  /** Every non-empty set of naturals has a least element. */
  lemma HasLeast(s: set<nat>)
    requires s != {}
    ensures exists m :: m in s && forall y :: y in s ==> m <= y
  {
    var x :| x in s;
    HasLeastBelow(s, x);
  }

  /** The least element of a non-empty set of naturals. */
  method Least(s: set<nat>) returns (m: nat)
    requires s != {}
    ensures m in s && forall y :: y in s ==> m <= y
  {
    HasLeast(s);
    m :| m in s && forall y :: y in s ==> m <= y;
  }

  /** `Object.keys(schema)` for integer keys: every key once, in ascending order. */
  method ObjectKeys(schema: map<nat, seq<string>>) returns (keys: seq<nat>)
    ensures StrictlyIncreasing(keys)
    ensures forall k :: k in keys <==> k in schema
  {
    keys := [];
    var remaining := schema.Keys;
    while remaining != {}
      invariant StrictlyIncreasing(keys)
      invariant remaining <= schema.Keys
      invariant forall k :: k in keys <==> k in schema && k !in remaining
      invariant forall i, y :: 0 <= i < |keys| && y in remaining ==> keys[i] < y
      decreases |remaining|
    {
      var m := Least(remaining);
      assert forall i :: 0 <= i < |keys| ==> keys[i] < m;
      ghost var old_keys := keys;
      keys := keys + [m];
      assert forall i :: 0 <= i < |old_keys| ==> keys[i] == old_keys[i];
      remaining := remaining - {m};
    }
  }

  /** RoutesHelper.getStatus: the first key, in `Object.keys` order, whose list
      holds the error; the default when no list does. */
  method GetStatus(schema: map<nat, seq<string>>, error: string, def: int := 500) returns (status: int)
    ensures (exists k :: k in schema && error in schema[k]) ==>
              && status >= 0
              && status in schema && error in schema[status]
              && forall k :: k in schema && k < status ==> error !in schema[k]
    ensures (forall k :: k in schema ==> error !in schema[k]) ==> status == def
  {
    var keys := ObjectKeys(schema);
    for i := 0 to |keys|
      invariant forall j :: 0 <= j < i ==> error !in schema[keys[j]]
    {
      if error in schema[keys[i]] {
        forall k | k in schema && k < keys[i]
          ensures error !in schema[k]
        {
          var j :| 0 <= j < |keys| && keys[j] == k;
          assert j < i;
        }
        return keys[i];
      }
    }
    forall k | k in schema
      ensures error !in schema[k]
    {
      var j :| 0 <= j < |keys| && keys[j] == k;
    }
    return def;
  }
}
