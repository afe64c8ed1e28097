/** `URLSearchParams` as the front end uses it: an ordered list of name-value
    pairs edited with `set` and `delete` (the URLSearchParams class, section
    6.2 of the WHATWG URL Standard), and read with `get`. */
module UrlSearchParams {
  import opened Common

  type Pair = (string, string)

  /** A navigation target: a path and the name-value pairs of its query
      string, before they are serialised. */
  datatype Location = Location(path: string, query: seq<Pair>)

  /** How many pairs are called `name`. */
  function Count(s: seq<Pair>, name: string): nat {
    if s == [] then 0
    else Count(s[..|s| - 1], name) + (if s[|s| - 1].0 == name then 1 else 0)
  }

  /** `get(name)`: the value of the first pair called `name`. */
  function GetFirst(s: seq<Pair>, name: string): (r: Option<string>)
    ensures r.None? <==> Count(s, name) == 0
  {
    if s == [] then None
    else
      var before := GetFirst(s[..|s| - 1], name);
      if before.Some? then before
      else if s[|s| - 1].0 == name then Some(s[|s| - 1].1)
      else None
  }

  /** `delete(name)`: every pair called `name` removed, the rest kept in
      order. */
  function Deleted(s: seq<Pair>, name: string): seq<Pair> {
    if s == [] then []
    else
      var kept := Deleted(s[..|s| - 1], name);
      if s[|s| - 1].0 == name then kept else kept + [s[|s| - 1]]
  }

  /** The first pair called `name` given `value`, the later ones dropped. */
  function Replaced(s: seq<Pair>, name: string, value: string): seq<Pair> {
    if s == [] then []
    else
      var init := s[..|s| - 1];
      var kept := Replaced(init, name, value);
      if s[|s| - 1].0 != name then kept + [s[|s| - 1]]
      else if Count(init, name) > 0 then kept
      else kept + [(name, value)]
  }

  /** `set(name, value)`: if some pair is called `name`, the first such pair
      takes `value` and the others are removed; otherwise `(name, value)` is
      appended. */
  function SetTo(s: seq<Pair>, name: string, value: string): seq<Pair> {
    if Count(s, name) > 0 then Replaced(s, name, value) else s + [(name, value)]
  }

  lemma InitOfSnoc(s: seq<Pair>, p: Pair)
    ensures (s + [p])[..|s|] == s && (s + [p])[|s|] == p
  {
  }

  // ---------------------------------------------------------------------------
  // What delete and set do
  // ---------------------------------------------------------------------------

  lemma {:induction false} CountSnoc(s: seq<Pair>, p: Pair, name: string)
    ensures Count(s + [p], name) == Count(s, name) + (if p.0 == name then 1 else 0)
  {
    InitOfSnoc(s, p);
  }

  lemma {:induction false} DeletedSnoc(s: seq<Pair>, p: Pair, name: string)
    ensures Deleted(s + [p], name) == Deleted(s, name) + (if p.0 == name then [] else [p])
  {
    InitOfSnoc(s, p);
  }

  lemma {:induction false} GetFirstSnoc(s: seq<Pair>, p: Pair, name: string)
    ensures GetFirst(s + [p], name)
            == if GetFirst(s, name).Some? then GetFirst(s, name)
               else if p.0 == name then Some(p.1) else None
  {
    InitOfSnoc(s, p);
  }

  /** `get(name)` finds nothing exactly when no pair is called `name`, and
      otherwise the value of the first pair that is. */
  lemma {:induction false} GetFirstSpec(s: seq<Pair>, name: string)
    ensures GetFirst(s, name).None? <==> forall i :: 0 <= i < |s| ==> s[i].0 != name
    ensures forall i :: 0 <= i < |s| && s[i].0 == name && (forall j :: 0 <= j < i ==> s[j].0 != name) ==>
              GetFirst(s, name) == Some(s[i].1)
    decreases |s|
  {
    if s != [] {
      var init := s[..|s| - 1];
      GetFirstSpec(init, name);
      assert forall i :: 0 <= i < |init| ==> init[i] == s[i];
    }
  }

  /** After `delete(name)` no pair is called `name`, and every other name
      reads as it did. */
  lemma {:induction false} DeletedSpec(s: seq<Pair>, name: string, other: string)
    requires other != name
    ensures Count(Deleted(s, name), name) == 0
    ensures Count(Deleted(s, name), other) == Count(s, other)
    ensures GetFirst(Deleted(s, name), other) == GetFirst(s, other)
    decreases |s|
  {
    if s != [] {
      var init, last := s[..|s| - 1], s[|s| - 1];
      DeletedSpec(init, name, other);
      assert s == init + [last];
      if last.0 != name {
        CountSnoc(Deleted(init, name), last, name);
        CountSnoc(Deleted(init, name), last, other);
        GetFirstSnoc(Deleted(init, name), last, other);
      }
    }
  }

  /** Deleting a name that is absent changes nothing. */
  lemma {:induction false} DeletedAbsent(s: seq<Pair>, name: string)
    requires Count(s, name) == 0
    ensures Deleted(s, name) == s
    decreases |s|
  {
    if s != [] {
      DeletedAbsent(s[..|s| - 1], name);
    }
  }

  /** `delete` is idempotent. */
  lemma DeletedIdempotent(s: seq<Pair>, name: string)
    ensures Deleted(Deleted(s, name), name) == Deleted(s, name)
  {
    DeletedCount(s, name);
    DeletedAbsent(Deleted(s, name), name);
  }

  lemma {:induction false} DeletedCount(s: seq<Pair>, name: string)
    ensures Count(Deleted(s, name), name) == 0
    decreases |s|
  {
    if s != [] {
      var init, last := s[..|s| - 1], s[|s| - 1];
      DeletedCount(init, name);
      if last.0 != name {
        CountSnoc(Deleted(init, name), last, name);
      }
    }
  }

  /** Deleting two names in either order gives the same list. */
  lemma {:induction false} DeletedCommutes(s: seq<Pair>, a: string, b: string)
    ensures Deleted(Deleted(s, a), b) == Deleted(Deleted(s, b), a)
    decreases |s|
  {
    if s != [] {
      var init, last := s[..|s| - 1], s[|s| - 1];
      DeletedCommutes(init, a, b);
      if last.0 != a {
        DeletedSnoc(Deleted(init, a), last, b);
      }
      if last.0 != b {
        DeletedSnoc(Deleted(init, b), last, a);
      }
    }
  }

  /** What `Replaced` does, measured by count, first value and the pairs
      under other names. */
  lemma {:induction false} ReplacedSpec(s: seq<Pair>, name: string, value: string)
    ensures Count(Replaced(s, name, value), name) == if Count(s, name) > 0 then 1 else 0
    ensures Count(s, name) > 0 ==> GetFirst(Replaced(s, name, value), name) == Some(value)
    ensures Deleted(Replaced(s, name, value), name) == Deleted(s, name)
    decreases |s|
  {
    if s != [] {
      var init, last := s[..|s| - 1], s[|s| - 1];
      var kept := Replaced(init, name, value);
      ReplacedSpec(init, name, value);
      if last.0 != name {
        CountSnoc(kept, last, name);
        GetFirstSnoc(kept, last, name);
        DeletedSnoc(kept, last, name);
      } else if Count(init, name) == 0 {
        CountSnoc(kept, (name, value), name);
        GetFirstSnoc(kept, (name, value), name);
        DeletedSnoc(kept, (name, value), name);
      }
    }
  }

  /** After `set(name, value)` exactly one pair is called `name`, `get(name)`
      reads `value`, and the pairs under every other name are the ones that
      were there, in the same order. */
  lemma SetToSpec(s: seq<Pair>, name: string, value: string)
    ensures Count(SetTo(s, name, value), name) == 1
    ensures GetFirst(SetTo(s, name, value), name) == Some(value)
    ensures Deleted(SetTo(s, name, value), name) == Deleted(s, name)
  {
    if Count(s, name) > 0 {
      ReplacedSpec(s, name, value);
    } else {
      CountSnoc(s, (name, value), name);
      GetFirstSnoc(s, (name, value), name);
      DeletedSnoc(s, (name, value), name);
    }
  }

  /** `Replaced` writes the new value at the first pair called `name` and
      drops the later ones. */
  lemma {:induction false} ReplacedAt(s: seq<Pair>, name: string, value: string, i: nat)
    requires i < |s| && s[i].0 == name && forall j :: 0 <= j < i ==> s[j].0 != name
    ensures Replaced(s, name, value) == s[..i] + [(name, value)] + Deleted(s[i + 1..], name)
    decreases |s|
  {
    var init, last := s[..|s| - 1], s[|s| - 1];
    if i == |s| - 1 {
      CountZero(init, name);
      ReplacedAbsent(init, name, value);
      assert s[i + 1..] == [];
    } else {
      ReplacedAt(init, name, value, i);
      assert init[..i] == s[..i];
      assert s[i + 1..] == init[i + 1..] + [last];
      DeletedSnoc(init[i + 1..], last, name);
      if last.0 == name {
        GetFirstSpec(init, name);
        assert GetFirst(init, name).Some?;
      }
    }
  }

  /** `set(name, value)` keeps the position of the pair it rewrites, as
      section 6.2 of the WHATWG URL Standard asks: the first pair called
      `name` takes the value in place and the later ones go; with none, the
      pair is appended at the end. */
  lemma SetToInPlace(s: seq<Pair>, name: string, value: string)
    ensures (forall i :: 0 <= i < |s| ==> s[i].0 != name) ==> SetTo(s, name, value) == s + [(name, value)]
    ensures forall i :: 0 <= i < |s| && s[i].0 == name && (forall j :: 0 <= j < i ==> s[j].0 != name) ==>
              SetTo(s, name, value) == s[..i] + [(name, value)] + Deleted(s[i + 1..], name)
  {
    GetFirstSpec(s, name);
    forall i | 0 <= i < |s| && s[i].0 == name && (forall j :: 0 <= j < i ==> s[j].0 != name)
      ensures SetTo(s, name, value) == s[..i] + [(name, value)] + Deleted(s[i + 1..], name)
    {
      ReplacedAt(s, name, value, i);
    }
  }

  /** A list that already holds at most one `name`, with `value`, is left as
      it is by `Replaced`. */
  lemma {:induction false} ReplacedFixed(s: seq<Pair>, name: string, value: string)
    requires Count(s, name) <= 1
    requires Count(s, name) == 1 ==> GetFirst(s, name) == Some(value)
    ensures Replaced(s, name, value) == s
    decreases |s|
  {
    if s != [] {
      var init, last := s[..|s| - 1], s[|s| - 1];
      if last.0 == name && Count(init, name) == 0 {
        DeletedAbsent(init, name);
        ReplacedAbsent(init, name, value);
      } else {
        ReplacedFixed(init, name, value);
      }
    }
  }

  lemma {:induction false} ReplacedAbsent(s: seq<Pair>, name: string, value: string)
    requires Count(s, name) == 0
    ensures Replaced(s, name, value) == s
    decreases |s|
  {
    if s != [] {
      ReplacedAbsent(s[..|s| - 1], name, value);
    }
  }

  /** `set` is idempotent. */
  lemma SetToIdempotent(s: seq<Pair>, name: string, value: string)
    ensures SetTo(SetTo(s, name, value), name, value) == SetTo(s, name, value)
  {
    SetToSpec(s, name, value);
    ReplacedFixed(SetTo(s, name, value), name, value);
  }

  /** Deleting some other name after `set(name, value)` leaves the pair
      that `set` wrote in place. */
  lemma SetToThenDeleted(s: seq<Pair>, name: string, value: string, other: string)
    requires other != name
    ensures Count(Deleted(SetTo(s, name, value), other), other) == 0
    ensures GetFirst(Deleted(SetTo(s, name, value), other), name) == Some(value)
    ensures Count(Deleted(SetTo(s, name, value), other), name) == 1
  {
    SetToSpec(s, name, value);
    DeletedSpec(SetTo(s, name, value), other, name);
  }

  /** No two pairs share a name. */
  predicate DistinctNames(s: seq<Pair>) {
    forall i, j :: 0 <= i < j < |s| ==> s[i].0 != s[j].0
  }

  lemma {:induction false} CountZero(s: seq<Pair>, name: string)
    requires forall i :: 0 <= i < |s| ==> s[i].0 != name
    ensures Count(s, name) == 0
    decreases |s|
  {
    if s != [] {
      CountZero(s[..|s| - 1], name);
    }
  }

  /** In a list whose names are distinct, each name occurs once and reads
      back its own value. */
  lemma {:induction false} DistinctLookup(s: seq<Pair>, k: nat)
    requires DistinctNames(s) && k < |s|
    ensures Count(s, s[k].0) == 1 && GetFirst(s, s[k].0) == Some(s[k].1)
    decreases |s|
  {
    var init := s[..|s| - 1];
    if k == |s| - 1 {
      CountZero(init, s[k].0);
    } else {
      DistinctLookup(init, k);
    }
  }

  // ---------------------------------------------------------------------------
  // The URLSearchParams object
  // ---------------------------------------------------------------------------

  /** A `URLSearchParams` object; its list is edited in place. */
  class SearchParams {
    var pairs: seq<Pair>

    /** `new URLSearchParams(other.toString())`: a copy of the pair list. */
    constructor (init: seq<Pair>)
      ensures pairs == init
    {
      pairs := init;
    }

    /** `get(name)`, scanning from the front. */
    method Get(name: string) returns (r: Option<string>)
      ensures r == GetFirst(pairs, name)
      ensures r.Some? <==> Count(pairs, name) > 0
    {
      var i := 0;
      while i < |pairs|
        invariant 0 <= i <= |pairs|
        invariant GetFirst(pairs[..i], name) == None
      {
        GetFirstSnoc(pairs[..i], pairs[i], name);
        assert pairs[..i + 1] == pairs[..i] + [pairs[i]];
        if pairs[i].0 == name {
          GetFirstPrefix(pairs, i + 1, name);
          return Some(pairs[i].1);
        }
        i := i + 1;
      }
      assert pairs[..i] == pairs;
      r := None;
    }

    /** `delete(name)`. */
    method Delete(name: string)
      modifies this
      ensures pairs == Deleted(old(pairs), name)
    {
      var ps := pairs;
      var kept: seq<Pair> := [];
      var i := 0;
      while i < |ps|
        invariant 0 <= i <= |ps|
        invariant kept == Deleted(ps[..i], name)
      {
        DeletedSnoc(ps[..i], ps[i], name);
        assert ps[..i + 1] == ps[..i] + [ps[i]];
        if ps[i].0 != name {
          kept := kept + [ps[i]];
        }
        i := i + 1;
      }
      assert ps[..i] == ps;
      pairs := kept;
    }

    /** `set(name, value)`. */
    method Set(name: string, value: string)
      modifies this
      ensures pairs == SetTo(old(pairs), name, value)
    {
      var ps := pairs;
      var out: seq<Pair> := [];
      var found := false;
      var i := 0;
      while i < |ps|
        invariant 0 <= i <= |ps|
        invariant found <==> Count(ps[..i], name) > 0
        invariant out == Replaced(ps[..i], name, value)
      {
        assert ps[..i + 1] == ps[..i] + [ps[i]];
        InitOfSnoc(ps[..i], ps[i]);
        if ps[i].0 == name {
          if !found {
            out := out + [(name, value)];
            found := true;
          }
        } else {
          out := out + [ps[i]];
        }
        i := i + 1;
      }
      assert ps[..i] == ps;
      if !found {
        ReplacedAbsent(ps, name, value);
        out := out + [(name, value)];
      }
      pairs := out;
    }
  }

  /** The first pair of a prefix that holds `name` is the first of the
      whole list. */
  lemma {:induction false} GetFirstPrefix(s: seq<Pair>, k: nat, name: string)
    requires k <= |s| && GetFirst(s[..k], name).Some?
    ensures GetFirst(s, name) == GetFirst(s[..k], name)
    decreases |s| - k
  {
    if k < |s| {
      assert s[..k + 1] == s[..k] + [s[k]];
      GetFirstSnoc(s[..k], s[k], name);
      GetFirstPrefix(s, k + 1, name);
    } else {
      assert s[..k] == s;
    }
  }
}
