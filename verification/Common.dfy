/** Values shared by the whole model: bytes, optional values and decoded JSON. */
module Common {

  newtype Byte = x: int | 0 <= x < 256
  type Bytes = seq<Byte>

  datatype Option<+T> = None | Some(value: T)

  /** A decoded JSON value. Numbers are exact: no property here turns on rounding. */
  datatype Json =
    | Null
    | Bool(b: bool)
    | Num(n: real)
    | Str(s: string)
    | Arr(items: seq<Json>)
    | Obj(fields: map<string, Json>)

  type Fields = map<string, Json>

  /** `dict.get(key)`: an absent key reads as null. */
  function Get(fields: Fields, key: string): Json {
    if key in fields then fields[key] else Null
  }

  /** `needle in hay` for strings and byte strings. */
  predicate Contains<T(==)>(hay: seq<T>, needle: seq<T>) {
    exists i {:trigger hay[i..]} :: 0 <= i <= |hay| && needle <= hay[i..]
  }

  lemma ContainsMeans<T>(hay: seq<T>, needle: seq<T>)
    ensures Contains(hay, needle) <==> exists before, after :: hay == before + needle + after
  {
    if i {:trigger hay[i..]} :| 0 <= i <= |hay| && needle <= hay[i..] {
      assert hay == hay[..i] + needle + hay[i + |needle|..];
    }
    if before, after :| hay == before + needle + after {
      assert hay[|before|..] == needle + after;
    }
  }

  /** The elements of `u` that satisfy `keep`, in order. */
  ghost function Keep<T>(u: seq<T>, keep: T -> bool): seq<T> {
    if u == [] then []
    else (if keep(u[0]) then [u[0]] else []) + Keep(u[1..], keep)
  }

  /** The parts one after the other. */
  function Joined<T>(parts: seq<seq<T>>): seq<T> {
    if parts == [] then [] else parts[0] + Joined(parts[1..])
  }

  lemma Regroup<T>(a: seq<T>, b: seq<T>, c: seq<T>)
    ensures a + (b + c) == (a + b) + c
  {
  }

  ghost predicate Distinct<T>(u: seq<T>) {
    forall i, j :: 0 <= i < j < |u| ==> u[i] != u[j]
  }

  lemma {:induction false} KeepAppend<T>(u: seq<T>, v: seq<T>, keep: T -> bool)
    ensures Keep(u + v, keep) == Keep(u, keep) + Keep(v, keep)
  {
    if u == [] {
      assert u + v == v;
    } else {
      var w, head := u + v, if keep(u[0]) then [u[0]] else [];
      assert w[0] == u[0] && w[1..] == u[1..] + v;
      KeepAppend(u[1..], v, keep);
      assert head + (Keep(u[1..], keep) + Keep(v, keep)) == (head + Keep(u[1..], keep)) + Keep(v, keep);
    }
  }

  lemma {:induction false} KeepMember<T>(u: seq<T>, keep: T -> bool, x: T)
    ensures x in Keep(u, keep) <==> x in u && keep(x)
  {
    if u != [] {
      KeepMember(u[1..], keep, x);
      assert x in u <==> x == u[0] || x in u[1..];
    }
  }

  lemma {:induction false} KeepDistinct<T>(u: seq<T>, keep: T -> bool)
    requires Distinct(u)
    ensures Distinct(Keep(u, keep))
  {
    if u != [] {
      KeepDistinct(u[1..], keep);
      KeepMember(u[1..], keep, u[0]);
    }
  }

  /** Filtering depends only on the verdicts for the elements present. */
  lemma {:induction false} KeepCongruent<T>(u: seq<T>, f: T -> bool, g: T -> bool)
    requires forall x :: x in u ==> f(x) == g(x)
    ensures Keep(u, f) == Keep(u, g)
  {
    if u != [] {
      KeepCongruent(u[1..], f, g);
    }
  }

  lemma {:induction false} KeepTwice<T>(u: seq<T>, f: T -> bool, g: T -> bool, both: T -> bool)
    requires forall x :: x in u ==> both(x) == (f(x) && g(x))
    ensures Keep(Keep(u, f), g) == Keep(u, both)
  {
    if u != [] {
      KeepTwice(u[1..], f, g, both);
      KeepAppend(if f(u[0]) then [u[0]] else [], Keep(u[1..], f), g);
    }
  }

  lemma {:induction false} KeepAll<T>(u: seq<T>, f: T -> bool)
    requires forall x :: x in u ==> f(x)
    ensures Keep(u, f) == u
  {
    if u != [] {
      KeepAll(u[1..], f);
    }
  }
}
