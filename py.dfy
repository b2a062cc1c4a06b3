/** The slice of Python semantics that the Droptime client relies on: JSON/YAML
    values as `json` and `yaml` load them, the exceptions the client can raise,
    the `in` operator, truthiness, `str()`, `str.strip` and `str.join`. */
module Py {

  /** A decoded JSON (or YAML) value. Numbers are kept exact, as reals. */
  datatype Value =
    | JNull
    | JBool(b: bool)
    | JNum(n: real)
    | JStr(s: string)
    | JArray(items: seq<Value>)
    | JObject(obj: map<string, Value>)

  /** The exceptions the modelled code raises or lets through. */
  datatype PyError =
    | TypeError
    | AttributeError
    | ValueError
    | RequestError   // requests.RequestException: no reply, an HTTP error status, a body that is not JSON
    | NonStringKey   // a number, boolean or None used as a dictionary key (see README, "Left out")
    | Unordered      // an outcome that depends on the insertion order of a dict, which `Value` does not keep

  datatype Result<T> = Ok(value: T) | Err(error: PyError) {
    predicate IsFailure() { Err? }
    function PropagateFailure<U>(): Result<U> requires Err? { Err(error) }
    function Extract(): T requires Ok? { value }
  }

  datatype Option<T> = None | Some(value: T)

  /** What the client takes from the interpreter without modelling it: `str()` of a
      number, list or dict, and the float parsing and summing of the joined
      quantities into the "Material Tonnage" total. */
  datatype Builtins = Builtins(show: Value -> string, tonnage: string -> real)

  /** Python truthiness of a JSON value. */
  predicate Truthy(v: Value) {
    match v
    case JNull => false
    case JBool(b) => b
    case JNum(n) => n != 0.0
    case JStr(s) => s != []
    case JArray(xs) => xs != []
    case JObject(m) => m != map[]
  }

  /** `dict.get(key)`: the value, or None when the key is absent. */
  function Get(m: map<string, Value>, key: string): (v: Value)
    ensures key in m ==> v == m[key]
    ensures key !in m ==> v == JNull
  {
    if key in m then m[key] else JNull
  }

  /** `dict.get(key, default)`. */
  function GetOr(m: map<string, Value>, key: string, default: Value): (v: Value)
    ensures key in m ==> v == m[key]
    ensures key !in m ==> v == default
  {
    if key in m then m[key] else default
  }

  /** Whether `needle` occurs in `hay` as a contiguous piece. */
  predicate IsInfix(needle: string, hay: string)
  {
    needle <= hay || (hay != [] && IsInfix(needle, hay[1..]))
  }

  /** Python's `key in container` for a string key: a key test on a dict, a
      substring test on a string, an element test on a list, and a TypeError
      ("argument is not iterable") on None, a boolean or a number. */
  function Contains(container: Value, key: string): (r: Result<bool>)
    ensures r.Err? <==> container.JNull? || container.JBool? || container.JNum?
    ensures r.Err? ==> r.error == TypeError
    ensures container.JObject? ==> r == Ok(key in container.obj)
    ensures container.JStr? ==> r == Ok(IsInfix(key, container.s))
    ensures container.JArray? ==> r == Ok(JStr(key) in container.items)
  {
    match container
    case JObject(m) => Ok(key in m)
    case JStr(s) => Ok(IsInfix(key, s))
    case JArray(xs) => Ok(JStr(key) in xs)
    case _ => Err(TypeError)
  }

  /** Python's `str()` (and f-string formatting) of a value. */
  function Str(v: Value, b: Builtins): (r: string)
    ensures v.JStr? ==> r == v.s
    ensures v.JNull? ==> r == "None"
    ensures v.JBool? ==> r == if v.b then "True" else "False"
    ensures !(v.JStr? || v.JNull? || v.JBool?) ==> r == b.show(v)
  {
    match v
    case JStr(s) => s
    case JNull => "None"
    case JBool(t) => if t then "True" else "False"
    case _ => b.show(v)
  }

  /** The characters Python's `str.strip()` removes when given no argument. */
  predicate IsSpace(c: char) {
    ('\t' <= c <= '\r') || ('\U{1C}' <= c <= ' ') || c == '\U{85}' || c == '\U{A0}'
    || c == '\U{1680}' || ('\U{2000}' <= c <= '\U{200A}') || c == '\U{2028}' || c == '\U{2029}'
    || c == '\U{202F}' || c == '\U{205F}' || c == '\U{3000}'
  }

  /** The characters removed by `str.strip("; ")`. */
  predicate IsSemicolonOrSpace(c: char) {
    c == ';' || c == ' '
  }

  /** `str.lstrip(chars)`: the longest suffix that does not start with a dropped character. */
  function LStrip(s: string, drop: char -> bool): (r: string)
    ensures |r| <= |s| && r == s[|s| - |r|..]
    ensures r == [] || !drop(r[0])
    ensures forall i :: 0 <= i < |s| - |r| ==> drop(s[i])
  {
    if s != [] && drop(s[0]) then
      var r := LStrip(s[1..], drop);
      assert s[1..][|s| - 1 - |r|..] == s[|s| - |r|..];
      r
    else s
  }

  /** `str.rstrip(chars)`: the longest prefix that does not end with a dropped character. */
  function RStrip(s: string, drop: char -> bool): (r: string)
    ensures |r| <= |s| && r == s[..|r|]
    ensures r == [] || !drop(r[|r| - 1])
    ensures forall i :: |r| <= i < |s| ==> drop(s[i])
  {
    if s != [] && drop(s[|s| - 1]) then RStrip(s[..|s| - 1], drop) else s
  }

  /** `str.strip(chars)`: the input with only dropped characters removed from
      its two ends, and none left at either end. */
  function Strip(s: string, drop: char -> bool): (r: string)
    ensures |r| <= |s|
    ensures r == [] || (!drop(r[0]) && !drop(r[|r| - 1]))
    ensures exists i, j :: StrippedFrom(s, r, drop, i, j)
  {
    var t := LStrip(s, drop);
    var r := RStrip(t, drop);
    assert r != [] ==> r[0] == t[0];
    StripSlice(s, drop, t, r);
    r
  }

  /** `r` is `s[i..j]`, and every character of `s` outside that slice is dropped. */
  predicate StrippedFrom(s: string, r: string, drop: char -> bool, i: int, j: int) {
    && 0 <= i <= j <= |s| && r == s[i..j]
    && (forall k :: 0 <= k < i ==> drop(s[k]))
    && (forall k :: j <= k < |s| ==> drop(s[k]))
  }

  /** A suffix of `s` past dropped characters, cut before dropped characters, is
      a slice of `s` with only dropped characters outside it. */
  lemma StripSlice(s: string, drop: char -> bool, t: string, r: string)
    requires |t| <= |s| && t == s[|s| - |t|..] && forall k :: 0 <= k < |s| - |t| ==> drop(s[k])
    requires |r| <= |t| && r == t[..|r|] && forall k :: |r| <= k < |t| ==> drop(t[k])
    ensures StrippedFrom(s, r, drop, |s| - |t|, |s| - |t| + |r|)
  {
    var i := |s| - |t|;
    assert r == s[i..i + |r|];
    forall k | i + |r| <= k < |s|
      ensures drop(s[k])
    {
      assert s[k] == t[k - i];
    }
  }

  /** `sep.join(parts)`. */
  function Join(parts: seq<string>, sep: string): (r: string)
  {
    if |parts| == 0 then ""
    else if |parts| == 1 then parts[0]
    else Join(parts[..|parts| - 1], sep) + sep + parts[|parts| - 1]
  }

  predicate NoDuplicates(s: seq<string>) {
    forall i, j :: 0 <= i < j < |s| ==> s[i] != s[j]
  }

  /** The position of the first occurrence of `x` in `s`. */
  function FirstIndex(s: seq<string>, x: string): (i: nat)
    requires x in s
    ensures i < |s| && s[i] == x && x !in s[..i]
  {
    if s[0] == x then 0 else 1 + FirstIndex(s[1..], x)
  }

  /** The list built by appending each element of `s` that is not yet in the list. */
  function Dedup(s: seq<string>): (r: seq<string>)
    ensures NoDuplicates(r)
    ensures forall x :: x in r <==> x in s
    ensures |r| <= |s|
  {
    if s == [] then []
    else
      var p := Dedup(s[..|s| - 1]);
      if s[|s| - 1] in p then p else p + [s[|s| - 1]]
  }

  lemma {:induction false} FirstIndexOfPrefix(s: seq<string>, n: nat, x: string)
    requires n <= |s| && x in s[..n]
    ensures x in s && FirstIndex(s, x) == FirstIndex(s[..n], x)
  {
    if s[0] != x {
      assert s[..n][1..] == s[1..][..n - 1];
      FirstIndexOfPrefix(s[1..], n - 1, x);
    }
  }

  /** Dedup keeps first occurrences: its elements appear in the order in which
      they first occur in `s`. */
  lemma {:induction false} DedupKeepsFirstOccurrences(s: seq<string>)
    ensures forall i, j :: 0 <= i < j < |Dedup(s)| ==>
      FirstIndex(s, Dedup(s)[i]) < FirstIndex(s, Dedup(s)[j])
  {
    if s != [] {
      var n := |s| - 1;
      var init := s[..n];
      var p := Dedup(init);
      var d := Dedup(s);
      DedupKeepsFirstOccurrences(init);
      assert d == if s[n] in p then p else p + [s[n]];
      forall i, j | 0 <= i < j < |d|
        ensures FirstIndex(s, d[i]) < FirstIndex(s, d[j])
      {
        assert d[i] == p[i] && p[i] in init;
        FirstIndexOfPrefix(s, n, p[i]);
        if j < |p| {
          assert d[j] == p[j] && p[j] in init;
          FirstIndexOfPrefix(s, n, p[j]);
        } else {
          assert d[j] == s[n] && s[n] !in init;
        }
      }
    }
  }

  /** `Dedup` appends a new element and skips one it already holds. */
  lemma DedupSnoc(s: seq<string>, x: string)
    ensures Dedup(s + [x]) == if x in Dedup(s) then Dedup(s) else Dedup(s) + [x]
  {
    assert (s + [x])[..|s|] == s;
  }

  /** `[f(x) for x in xs]`, evaluated left to right: the first call that raises
      makes the whole list raise. */
  function MapResults<T, U>(xs: seq<T>, f: T -> Result<U>): (r: Result<seq<U>>)
  {
    if xs == [] then Ok([])
    else
      var init :- MapResults(xs[..|xs| - 1], f);
      var last :- f(xs[|xs| - 1]);
      Ok(init + [last])
  }

  /** The list holds, in order, one result per element; it fails exactly when
      one call fails, with the error of the first that does. */
  lemma {:induction false} MapResultsPointwise<T, U>(xs: seq<T>, f: T -> Result<U>)
    ensures MapResults(xs, f).Ok? <==> forall i :: 0 <= i < |xs| ==> f(xs[i]).Ok?
    ensures MapResults(xs, f).Ok? ==>
      && |MapResults(xs, f).value| == |xs|
      && forall i :: 0 <= i < |xs| ==> f(xs[i]) == Ok(MapResults(xs, f).value[i])
    ensures MapResults(xs, f).Err? ==>
      exists i :: 0 <= i < |xs| && f(xs[i]) == Err(MapResults(xs, f).error)
        && forall j :: 0 <= j < i ==> f(xs[j]).Ok?
  {
    if xs != [] {
      var init := xs[..|xs| - 1];
      MapResultsPointwise(init, f);
      assert forall i :: 0 <= i < |init| ==> xs[i] == init[i];
    }
  }

  /** Once a call fails, every longer prefix fails with its error. */
  lemma {:induction false} MapResultsStops<T, U>(xs: seq<T>, f: T -> Result<U>, i: nat, n: nat)
    requires i < n <= |xs|
    requires MapResults(xs[..i], f).Ok? && f(xs[i]).Err?
    ensures MapResults(xs[..n], f) == Err(f(xs[i]).error)
  {
    if n == i + 1 {
      assert xs[..n][..i] == xs[..i];
    } else {
      MapResultsStops(xs, f, i, n - 1);
      assert xs[..n][..n - 1] == xs[..n - 1];
    }
  }

  /** One element of the sequence given to `dict.update`: it must be iterable
      with exactly two elements, the first a hashable key. A string of length two
      is such a pair of characters; iterating a dict yields its keys. */
  function UpdatePair(x: Value): (r: Result<(string, Value)>)
  {
    match x
    case JStr(t) => if |t| == 2 then Ok(([t[0]], JStr([t[1]]))) else Err(ValueError)
    case JArray(ys) =>
      if |ys| != 2 then Err(ValueError)
      else (
        match ys[0]
        case JStr(k) => Ok((k, ys[1]))
        case JArray(_) => Err(TypeError)
        case JObject(_) => Err(TypeError)
        case _ => Err(NonStringKey))
    case JObject(o) => if |o| != 2 then Err(ValueError) else Err(Unordered)
    case _ => Err(TypeError)
  }

  /** The dictionary the pairs build, a later pair winning over an earlier one. */
  function PairsToMap(ps: seq<(string, Value)>): (r: map<string, Value>)
  {
    if ps == [] then map[]
    else PairsToMap(ps[..|ps| - 1])[ps[|ps| - 1].0 := ps[|ps| - 1].1]
  }

  /** A key is in the dictionary exactly when some pair has it. */
  lemma {:induction false} PairsToMapKeys(ps: seq<(string, Value)>, k: string)
    ensures k in PairsToMap(ps) <==> exists i :: 0 <= i < |ps| && ps[i].0 == k
  {
    if ps != [] {
      var init := ps[..|ps| - 1];
      PairsToMapKeys(init, k);
      if exists i :: 0 <= i < |init| && init[i].0 == k {
        var i :| 0 <= i < |init| && init[i].0 == k;
        assert ps[i].0 == k;
      }
      if exists i :: 0 <= i < |ps| && ps[i].0 == k {
        var i :| 0 <= i < |ps| && ps[i].0 == k;
        if i < |init| {
          assert init[i].0 == k;
        }
      }
    }
  }

  /** A pair that no later pair overrides gives its key its value. */
  lemma {:induction false} PairsToMapLastWins(ps: seq<(string, Value)>, i: nat)
    requires i < |ps| && forall j :: i < j < |ps| ==> ps[j].0 != ps[i].0
    ensures ps[i].0 in PairsToMap(ps) && PairsToMap(ps)[ps[i].0] == ps[i].1
  {
    var init := ps[..|ps| - 1];
    if i < |init| {
      PairsToMapLastWins(init, i);
      assert init[i] == ps[i];
    }
  }

  /** What `d.update(v)` adds to `d`: the entries of a dict; nothing from an
      empty string or list; the pairs of a list, the first bad element raising;
      ValueError for a non-empty string, whose characters are no pairs; TypeError
      for None, a boolean or a number, which cannot be iterated. */
  function UpdateEntries(v: Value): (r: Result<map<string, Value>>)
    ensures v.JObject? ==> r == Ok(v.obj)
    ensures v.JStr? ==> r == if v.s == [] then Ok(map[]) else Err(ValueError)
    ensures v.JNull? || v.JBool? || v.JNum? ==> r == Err(TypeError)
  {
    match v
    case JObject(o) => Ok(o)
    case JStr(t) => if t == [] then Ok(map[]) else Err(ValueError)
    case JArray(xs) =>
      var ps :- MapResults(xs, UpdatePair);
      Ok(PairsToMap(ps))
    case _ => Err(TypeError)
  }

  /** A list updates a dict exactly when every element is a pair, and otherwise
      raises the error of its first element that is not; it adds the key of
      every pair, with the value of the last pair holding that key. */
  lemma UpdateEntriesOfList(xs: seq<Value>)
    ensures var r := UpdateEntries(JArray(xs));
      && (r.Ok? <==> forall i :: 0 <= i < |xs| ==> UpdatePair(xs[i]).Ok?)
      && (r.Err? ==>
            exists i :: 0 <= i < |xs| && UpdatePair(xs[i]) == Err(r.error)
              && forall j :: 0 <= j < i ==> UpdatePair(xs[j]).Ok?)
      && (r.Ok? ==>
            && (forall k :: k in r.value <==> exists i :: 0 <= i < |xs| && UpdatePair(xs[i]).value.0 == k)
            && (forall i :: 0 <= i < |xs| && (forall j :: i < j < |xs| ==> UpdatePair(xs[j]).value.0 != UpdatePair(xs[i]).value.0) ==>
                  r.value[UpdatePair(xs[i]).value.0] == UpdatePair(xs[i]).value.1))
  {
    MapResultsPointwise(xs, UpdatePair);
    var ps := MapResults(xs, UpdatePair);
    if ps.Ok? {
      forall k
        ensures k in PairsToMap(ps.value) <==> exists i :: 0 <= i < |xs| && UpdatePair(xs[i]).value.0 == k
      {
        PairsToMapKeys(ps.value, k);
        if exists i :: 0 <= i < |xs| && UpdatePair(xs[i]).value.0 == k {
          var i :| 0 <= i < |xs| && UpdatePair(xs[i]).value.0 == k;
          assert ps.value[i].0 == k;
        }
      }
      forall i | 0 <= i < |xs| && (forall j :: i < j < |xs| ==> UpdatePair(xs[j]).value.0 != UpdatePair(xs[i]).value.0)
        ensures PairsToMap(ps.value)[UpdatePair(xs[i]).value.0] == UpdatePair(xs[i]).value.1
      {
        assert forall j :: i < j < |xs| ==> ps.value[j] == UpdatePair(xs[j]).value;
        PairsToMapLastWins(ps.value, i);
      }
    }
  }

  /** One more element extends the list by its result. */
  lemma MapResultsSnoc<T, U>(xs: seq<T>, f: T -> Result<U>, i: nat)
    requires i < |xs|
    requires MapResults(xs[..i], f).Ok? && f(xs[i]).Ok?
    ensures MapResults(xs[..i + 1], f) == Ok(MapResults(xs[..i], f).value + [f(xs[i]).value])
  {
    assert xs[..i + 1][..i] == xs[..i];
  }
}
