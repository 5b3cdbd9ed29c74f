/**
 * NutritionFacts4: the flat builder of NutritionFacts3 plus a static factory
 * `builder(a)` that stands for `new Builder(a)`.
 */
module NutritionFacts4 {
  import opened JavaInt
  import opened NutritionChain

  class Builder {
    const a: int32
    var b: int32
    var c: int32

    /** The values this builder has staged. */
    function State(): Facts
      reads this
    {
      Facts(a, b, c)
    }

    /** `new Builder(a)`: `b` and `c` are left at Java's default 0. */
    constructor (a: int32)
      ensures State() == Init(a)
    {
      this.a := a;
      b, c := 0, 0;
    }

    /** `b(value)`: overwrites the staged `b` and returns this same builder. */
    method B(value: int32) returns (r: Builder)
      modifies this
      ensures r == this
      ensures b == value && c == old(c)
      ensures State() == Step(old(State()), Set(Field.B, value))
    {
      b := value;
      r := this;
    }

    /** `c(value)`: overwrites the staged `c` and returns this same builder. */
    method C(value: int32) returns (r: Builder)
      modifies this
      ensures r == this
      ensures c == value && b == old(b)
      ensures State() == Step(old(State()), Set(Field.C, value))
    {
      c := value;
      r := this;
    }

    /** `build()`: a new object carrying the staged values; the builder is not modified. */
    method Build() returns (facts: NutritionFacts4)
      ensures fresh(facts)
      ensures facts.Fields() == State()
    {
      facts := new NutritionFacts4(this);
    }
  }

  class NutritionFacts4 {
    const a: int32
    const b: int32
    const c: int32

    /** The values this object carries; they are final. */
    function Fields(): Facts {
      Facts(a, b, c)
    }

    /** The static factory `builder(a)`: a new builder, as `new Builder(a)` gives. */
    static method NewBuilder(a: int32) returns (builder: Builder)
      ensures fresh(builder)
      ensures builder.State() == Init(a)
    {
      builder := new Builder(a);
    }

    /** The private constructor `NutritionFacts4(Builder)`: copies the staged values. */
    constructor (builder: Builder)
      ensures Fields() == builder.State()
    {
      a, b, c := builder.a, builder.b, builder.c;
    }
  }

  /**
   * `NutritionFacts4.builder(a).b(b).c(c).build()`: the full fluent chain
   * builds an object carrying exactly the three given values.
   */
  method BuildChain(a: int32, b: int32, c: int32) returns (facts: NutritionFacts4)
    ensures facts.Fields() == Facts(a, b, c)
  {
    var builder := NutritionFacts4.NewBuilder(a);
    builder := builder.B(b);
    builder := builder.C(c);
    facts := builder.Build();
  }

  /**
   * `builder(a).b(x).b(y).build()`: when a setter is called twice the built
   * object carries the second value.
   */
  method BuildSetBTwice(a: int32, x: int32, y: int32) returns (facts: NutritionFacts4)
    ensures facts.Fields() == Facts(a, y, 0)
  {
    var builder := NutritionFacts4.NewBuilder(a);
    builder := builder.B(x);
    builder := builder.B(y);
    facts := builder.Build();
  }
}
