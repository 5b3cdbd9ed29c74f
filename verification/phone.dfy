/**
 * Phone: the base of the hierarchical builder. The abstract
 * `Phone.Builder<T extends Builder<T>>` stages `size`; its `size(int)`
 * setter assigns the field and returns `self()`, which each concrete builder
 * implements. A `Phone` takes its final `size` from the builder it is built
 * from.
 *
 * Dafny has no F-bounded type parameters here, so this `Builder` is the state
 * and the assignment that the base builder contributes; the concrete builder
 * (SpeedPhone.Builder) owns one and supplies `self()` and the return of
 * `size(int)` with its own type.
 */
module Phone {
  import opened JavaInt

  /** The part of every phone builder that `Phone.Builder<T>` declares. */
  class Builder {
    var size: int32

    /** The implicit constructor: `size` starts at Java's default 0. */
    constructor ()
      ensures size == 0
    {
      size := 0;
    }

    /** The assignment `this.size = size` that `size(int)` performs. */
    method SetSize(value: int32)
      modifies this
      ensures size == value
    {
      size := value;
    }
  }

  /** The part of every phone that `Phone` declares: the final `size`. */
  class Phone {
    const size: int32

    /** `Phone(Builder<?>)`: copies the staged size. */
    constructor (builder: Builder)
      ensures size == builder.size
    {
      size := builder.size;
    }
  }
}
