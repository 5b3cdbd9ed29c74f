/**
 * SpeedPhone: the concrete leaf of the hierarchical builder. Its `Builder`
 * takes the required `speed` in its constructor, inherits the optional
 * `size` setter from `Phone.Builder`, answers `self()` with itself, and
 * builds a `SpeedPhone` whose `size` comes from the `Phone` part and whose
 * `speed` comes from its own.
 */
module SpeedPhone {
  import opened JavaInt
  import Phone

  class Builder {
    /** The state inherited from `Phone.Builder<Builder>`. */
    const base: Phone.Builder
    const speed: int32

    /** `new Builder(speed)`: the inherited `size` starts at 0. */
    constructor (speed: int32)
      ensures fresh(base)
      ensures base.size == 0 && this.speed == speed
    {
      base := new Phone.Builder();
      this.speed := speed;
    }

    /** `self()`: the receiver itself, with the concrete builder's type. */
    function Self(): (r: Builder)
      ensures r == this
    {
      this
    }

    /**
     * The inherited `size(value)`: overwrites the staged size and returns
     * `self()`, so the chain goes on with this same `SpeedPhone.Builder`.
     * Only the inherited state may change; `speed` is final.
     */
    method Size(value: int32) returns (r: Builder)
      modifies base
      ensures r == this
      ensures base.size == value
    {
      base.SetSize(value);
      r := Self();
    }

    /** `build()`: a new phone from the staged size and speed; the builder is not modified. */
    method Build() returns (phone: SpeedPhone)
      ensures fresh(phone)
      ensures phone.Size() == base.size && phone.speed == speed
    {
      phone := new SpeedPhone(this);
    }
  }

  class SpeedPhone {
    /** The `Phone` part of this phone. */
    const base: Phone.Phone
    const speed: int32

    /** The final `size` this phone carries through its `Phone` part. */
    function Size(): int32 {
      base.size
    }

    /** `SpeedPhone(Builder)`: `super(builder)` for the size, then its own speed. */
    constructor (builder: Builder)
      ensures fresh(base)
      ensures Size() == builder.base.size && speed == builder.speed
    {
      base := new Phone.Phone(builder.base);
      speed := builder.speed;
    }
  }

  /**
   * `new SpeedPhone.Builder(speed).size(size).build()`: the chain of an
   * inherited setter on the concrete builder builds a phone carrying both
   * given values.
   */
  method BuildWithSize(speed: int32, size: int32) returns (phone: SpeedPhone)
    ensures phone.Size() == size && phone.speed == speed
  {
    var builder := new Builder(speed);
    builder := builder.Size(size);
    phone := builder.Build();
  }

  /** A chain that never calls `size(int)` builds a phone whose size is 0. */
  method BuildWithoutSize(speed: int32) returns (phone: SpeedPhone)
    ensures phone.Size() == 0 && phone.speed == speed
  {
    var builder := new Builder(speed);
    phone := builder.Build();
  }

  /** `new SpeedPhone.Builder(10).size(10).build()`, as the generics example writes it. */
  method GenericExampleBuild() returns (phone: SpeedPhone)
    ensures phone.Size() == 10 && phone.speed == 10
  {
    var builder := new Builder(10);
    builder := builder.Size(10);
    phone := builder.Build();
  }
}
