/**
 * NutritionFacts3: an immutable value object built through a flat builder.
 * `Builder` stages the required `a` (final, set by its constructor) and the
 * optional `b` and `c`; `build()` copies the three staged values into a new
 * `NutritionFacts3` whose fields are final.
 */
module NutritionFacts3 {
  import opened JavaInt
  import opened NutritionChain

  class Builder {
    const a: int32
    var b: int32
    var c: int32

    /** The values this builder has staged. */
    function State(): Facts
      reads this
    {
      Facts(a, b, c)
    }

    /** `new Builder(a)`: `b` and `c` are left at Java's default 0. */
    constructor (a: int32)
      ensures State() == Init(a)
    {
      this.a := a;
      b, c := 0, 0;
    }

    /** `b(value)`: overwrites the staged `b` and returns this same builder. */
    method B(value: int32) returns (r: Builder)
      modifies this
      ensures r == this
      ensures b == value && c == old(c)
      ensures State() == Step(old(State()), Set(Field.B, value))
    {
      b := value;
      r := this;
    }

    /** `c(value)`: overwrites the staged `c` and returns this same builder. */
    method C(value: int32) returns (r: Builder)
      modifies this
      ensures r == this
      ensures c == value && b == old(b)
      ensures State() == Step(old(State()), Set(Field.C, value))
    {
      c := value;
      r := this;
    }

    /**
     * `build()`: a new object carrying the staged values. It modifies
     * nothing, so the builder keeps its state and may build again.
     */
    method Build() returns (facts: NutritionFacts3)
      ensures fresh(facts)
      ensures facts.Fields() == State()
    {
      facts := new NutritionFacts3(this);
    }
  }

  class NutritionFacts3 {
    const a: int32
    const b: int32
    const c: int32

    /** The values this object carries; they are final. */
    function Fields(): Facts {
      Facts(a, b, c)
    }

    /** The private constructor `NutritionFacts3(Builder)`: copies the staged values. */
    constructor (builder: Builder)
      ensures Fields() == builder.State()
    {
      a, b, c := builder.a, builder.b, builder.c;
    }
  }

  /**
   * Two consecutive builds from one builder give two distinct objects with
   * the same values, both equal to what the builder staged.
   */
  method BuildTwice(builder: Builder) returns (first: NutritionFacts3, second: NutritionFacts3)
    ensures first != second
    ensures first.Fields() == builder.State() && second.Fields() == builder.State()
  {
    first := builder.Build();
    second := builder.Build();
  }

  /**
   * `new Builder(a).c(c).build()`: a chain that omits `b` builds an object
   * whose `b` is Java's default 0.
   */
  method BuildWithoutB(a: int32, c: int32) returns (facts: NutritionFacts3)
    ensures facts.Fields() == Facts(a, 0, c)
  {
    var builder := new Builder(a);
    builder := builder.C(c);
    facts := builder.Build();
  }
}
