/**
 * A search URL as a base address and an ordered list of query parameters,
 * the content `URLSearchParams` holds before it is percent-encoded.
 */
module Urls {
  import opened Wrappers

  datatype Url = Url(base: string, params: seq<(string, string)>)

  /** `params.get(key)`: the value of the first parameter with that key. */
  function Param(params: seq<(string, string)>, key: string): Option<string> {
    if params == [] then None
    else if params[0].0 == key then Some(params[0].1)
    else Param(params[1..], key)
  }

  /** A lookup in `a + b` finds `a`'s parameter first. */
  lemma {:induction false} ParamConcat(a: seq<(string, string)>, b: seq<(string, string)>, key: string)
    ensures Param(a + b, key) == if Param(a, key).Some? then Param(a, key) else Param(b, key)
  {
    if a != [] {
      assert (a + b)[0] == a[0];
      if a[0].0 == key {
        assert Param(a + b, key) == Some(a[0].1);
      } else {
        assert Param(a + b, key) == Param((a + b)[1..], key);
        assert Param(a, key) == Param(a[1..], key);
        assert (a + b)[1..] == a[1..] + b;
        ParamConcat(a[1..], b, key);
      }
    } else {
      assert a + b == b;
    }
  }

  /** One parameter when `present` holds, none otherwise. */
  function Optional(present: bool, key: string, value: string): seq<(string, string)> {
    if present then [(key, value)] else []
  }

  lemma ParamOptional(present: bool, k: string, v: string, key: string)
    ensures Param(Optional(present, k, v), key) == if present && k == key then Some(v) else None
  {
  }
}
