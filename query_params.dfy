// `URLSearchParams` as the views use it: an ordered list of name/value
// pairs built by `set` and read by `get`.
module QueryParams {
  import opened Outcomes
  import opened Seqs
  import opened Text

  /** `params.get(name)`: the value of the first pair with that name. */
  function Lookup(es: seq<(string, string)>, name: string): Option<string>
  {
    if es == [] then None
    else if es[0].0 == name then Some(es[0].1)
    else Lookup(es[1..], name)
  }

  /** The pairs whose name is not `name`. */
  function Without(es: seq<(string, string)>, name: string): seq<(string, string)>
  {
    Filter(es, (e: (string, string)) => e.0 != name)
  }

  /** `params.set(name, value)`: the first pair with that name takes the new
      value and the others with that name are removed; with no such pair,
      the pair is appended. */
  function SetParam(es: seq<(string, string)>, name: string, value: string): seq<(string, string)>
  {
    if es == [] then [(name, value)]
    else if es[0].0 == name then [(name, value)] + Without(es[1..], name)
    else [es[0]] + SetParam(es[1..], name, value)
  }

  lemma {:induction false} LookupWithout(es: seq<(string, string)>, name: string, other: string)
    ensures Lookup(Without(es, name), name) == None
    ensures other != name ==> Lookup(Without(es, name), other) == Lookup(es, other)
    decreases |es|
  {
    if es != [] {
      LookupWithout(es[1..], name, other);
      if es[0].0 != name {
        assert Without(es, name) == [es[0]] + Without(es[1..], name);
        assert Lookup(Without(es, name), name) == Lookup(Without(es[1..], name), name);
      } else {
        assert Without(es, name) == Without(es[1..], name);
      }
    }
  }

  /** After `set(name, value)`, `get(name)` is `value` and every other name
      reads as before. */
  lemma {:induction false} SetParamSpec(es: seq<(string, string)>, name: string, value: string, other: string)
    ensures Lookup(SetParam(es, name, value), name) == Some(value)
    ensures other != name ==> Lookup(SetParam(es, name, value), other) == Lookup(es, other)
    decreases |es|
  {
    if es != [] {
      if es[0].0 == name {
        LookupWithout(es[1..], name, other);
      } else {
        SetParamSpec(es[1..], name, value, other);
      }
    }
  }

  /** Setting a name not yet present appends one pair. */
  lemma {:induction false} SetParamAppends(es: seq<(string, string)>, name: string, value: string)
    requires Lookup(es, name) == None
    ensures SetParam(es, name, value) == es + [(name, value)]
    decreases |es|
  {
    if es != [] {
      SetParamAppends(es[1..], name, value);
      assert [es[0]] + (es[1..] + [(name, value)]) == es + [(name, value)];
    }
  }

  /** Looking up in `a + b` finds `a`'s pair first. */
  lemma {:induction false} LookupAppend(a: seq<(string, string)>, b: seq<(string, string)>, name: string)
    ensures Lookup(a + b, name) == if Lookup(a, name).Some? then Lookup(a, name) else Lookup(b, name)
    decreases |a|
  {
    if a == [] {
      assert a + b == b;
    } else {
      LookupAppend(a[1..], b, name);
      assert (a + b)[1..] == a[1..] + b;
    }
  }

  /** The pair at index `k` is found when no earlier pair has its name. */
  lemma {:induction false} LookupAt(es: seq<(string, string)>, k: nat)
    requires k < |es|
    requires forall j :: 0 <= j < k ==> es[j].0 != es[k].0
    ensures Lookup(es, es[k].0) == Some(es[k].1)
    decreases k
  {
    if k > 0 {
      LookupAt(es[1..], k - 1);
    }
  }

  /** A name no pair carries reads as absent. */
  lemma {:induction false} LookupAbsent(es: seq<(string, string)>, name: string)
    requires forall k :: 0 <= k < |es| ==> es[k].0 != name
    ensures Lookup(es, name) == None
    decreases |es|
  {
    if es != [] {
      LookupAbsent(es[1..], name);
    }
  }

  /** A query parameter made of one or more decimal digits, read as that
      number; anything else (absent, empty, a sign, a non-digit) is `None`.
      This agrees with `parseInt` on the digit strings the views send and
      does not model `parseInt`'s leading-whitespace, sign or trailing-junk
      rules. */
  function ParseIntParam(v: Option<string>): Option<int> {
    if v.Some? && v.value != "" && AllDigits(v.value) then Some(DigitsValue(v.value)) else None
  }

  /** `page.toString()` for a page number reads back as that page, and
      `"10"` as 10. */
  lemma ParsePageParam(page: nat)
    ensures ParseIntParam(Some(IntToString(page))) == Some(page)
    ensures ParseIntParam(Some("10")) == Some(10)
  {
    NatToStringRoundTrip(page);
    NatToStringRoundTrip(10);
    assert NatToString(10) == "10";
  }

  /** A `URLSearchParams` object that is built up in place. */
  class SearchParams {
    var entries: seq<(string, string)>

    /** `new URLSearchParams()`. */
    constructor()
      ensures entries == []
    {
      entries := [];
    }

    function Get(name: string): Option<string>
      reads this
    {
      Lookup(entries, name)
    }

    method Set(name: string, value: string)
      modifies this
      ensures entries == SetParam(old(entries), name, value)
    {
      entries := SetParam(entries, name, value);
    }
  }
}
