/**
 * The staged values of a NutritionFacts builder, and what a fluent chain
 * `new Builder(a).b(..).c(..)...` does to them, as values.
 *
 * Both NutritionFacts3.Builder and NutritionFacts4.Builder stage the same
 * three fields: the required `a`, fixed by the constructor, and the optional
 * `b` and `c`, which start at the Java default 0 and are overwritten by their
 * setters. The builder classes tie their heap state to `Facts` and each setter
 * to `Step`; the lemmas here then say what any chain of setter calls yields.
 */
module NutritionChain {
  import opened JavaInt

  /** The three fields a builder stages and a built object carries. */
  datatype Facts = Facts(a: int32, b: int32, c: int32)

  /** The optional fields, the ones that have a setter. */
  datatype Field = B | C

  /** One setter call of a fluent chain: `.b(value)` or `.c(value)`. */
  datatype Setter = Set(field: Field, value: int32)

  /** What `new Builder(a)` stages: `b` and `c` keep Java's default 0. */
  function Init(a: int32): Facts {
    Facts(a, 0, 0)
  }

  /** The value of an optional field. */
  function Get(s: Facts, f: Field): int32 {
    match f
    case B => s.b
    case C => s.c
  }

  /** The effect of one setter call on the staged values. */
  function Step(s: Facts, call: Setter): (r: Facts)
    ensures r.a == s.a
    ensures Get(r, call.field) == call.value
    ensures forall f :: f != call.field ==> Get(r, f) == Get(s, f)
  {
    match call.field
    case B => s.(b := call.value)
    case C => s.(c := call.value)
  }

  /** The staged values after the calls of a chain, applied left to right. */
  function Chain(s: Facts, calls: seq<Setter>): (r: Facts)
    ensures r.a == s.a
    decreases |calls|
  {
    if calls == [] then s else Chain(Step(s, calls[0]), calls[1..])
  }

  /**
   * Reference definition of "last write wins": the value of the last call in
   * `calls` that sets `f`, or `default` when no call sets it. It reads the
   * chain from its end, independently of how `Chain` runs it.
   */
  function Last(calls: seq<Setter>, f: Field, default: int32): int32 {
    if calls == [] then default
    else if calls[|calls| - 1].field == f then calls[|calls| - 1].value
    else Last(calls[..|calls| - 1], f, default)
  }

  /** Reading the first call of a chain off the front of `Last`. */
  lemma {:induction false} LastCons(call: Setter, rest: seq<Setter>, f: Field, default: int32)
    ensures Last([call] + rest, f, default)
         == Last(rest, f, if call.field == f then call.value else default)
    decreases |rest|
  {
    var calls := [call] + rest;
    if rest != [] {
      var n := |rest| - 1;
      assert calls[|calls| - 1] == rest[n];
      assert calls[..|calls| - 1] == [call] + rest[..n];
      if rest[n].field != f {
        LastCons(call, rest[..n], f, default);
      }
    }
  }

  /**
   * Last write wins: after any chain of setter calls each optional field
   * holds the value of the last call that set it, or its earlier value.
   */
  lemma {:induction false} ChainLastWriteWins(s: Facts, calls: seq<Setter>, f: Field)
    ensures Get(Chain(s, calls), f) == Last(calls, f, Get(s, f))
    decreases |calls|
  {
    if calls != [] {
      var s' := Step(s, calls[0]);
      ChainLastWriteWins(s', calls[1..], f);
      assert calls == [calls[0]] + calls[1..];
      LastCons(calls[0], calls[1..], f, Get(s, f));
    }
  }

  /**
   * What a fresh builder holds after any chain: the required `a` as given,
   * each optional field at its last written value, else at 0.
   */
  lemma {:induction false} BuilderAfterChain(a: int32, calls: seq<Setter>)
    ensures Chain(Init(a), calls) == Facts(a, Last(calls, B, 0), Last(calls, C, 0))
  {
    ChainLastWriteWins(Init(a), calls, B);
    ChainLastWriteWins(Init(a), calls, C);
  }

  /** A chain that never sets `f` leaves it at its earlier value. */
  lemma {:induction false} LastUnset(calls: seq<Setter>, f: Field, default: int32)
    requires forall i :: 0 <= i < |calls| ==> calls[i].field != f
    ensures Last(calls, f, default) == default
    decreases |calls|
  {
    if calls != [] {
      LastUnset(calls[..|calls| - 1], f, default);
    }
  }

  /** Omitting an optional setter leaves that field at Java's default 0. */
  lemma {:induction false} OmittedSetterKeepsDefault(a: int32, calls: seq<Setter>, f: Field)
    requires forall i :: 0 <= i < |calls| ==> calls[i].field != f
    ensures Get(Chain(Init(a), calls), f) == 0
  {
    ChainLastWriteWins(Init(a), calls, f);
    LastUnset(calls, f, 0);
  }

  /** Setting the same field twice in a row keeps only the second value. */
  lemma SetTwice(s: Facts, f: Field, x: int32, y: int32)
    ensures Chain(s, [Set(f, x), Set(f, y)]) == Step(s, Set(f, y))
  {
    var calls := [Set(f, x), Set(f, y)];
    var s1 := Step(s, Set(f, x));
    assert calls[1..] == [Set(f, y)] && [Set(f, y)][1..] == [];
    assert Chain(s, calls) == Chain(s1, [Set(f, y)]);
    assert Chain(s1, [Set(f, y)]) == Step(s1, Set(f, y));
  }
}
