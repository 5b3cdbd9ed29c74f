# Builder pattern (Effective Java, item 2) in Dafny

This project models the builders of `chapter2/item2` in the Effective Java
example repository, and proves what they guarantee:

- **Flat builders.** `NutritionFacts3.Builder` and `NutritionFacts4.Builder`
  take the required field `a` in their constructor. `a` is final. The
  optional fields `b` and `c` start at Java's default 0. Each setter
  overwrites one field and returns the same builder. `build()` copies the
  three staged values into a new object whose fields are final.
  `NutritionFacts4` also has the static factory `builder(a)`.
- **Hierarchical builder.** `Phone.Builder<T extends Builder<T>>` stages
  `size`. Its setter returns `self()`. `SpeedPhone.Builder` takes the
  required `speed`, answers `self()` with itself, and builds a `SpeedPhone`.
  The `Phone` constructor gives that phone its `size`; the `SpeedPhone`
  constructor gives it its `speed`.

Java classes become Dafny classes. A `final` field becomes a `const`, so it
cannot change after construction. A mutable builder field becomes a `var`.
A setter is a `modifies` method that says which field it sets, what it
leaves alone, and that it returns `this`. `build()` modifies nothing, and it
returns a `fresh` object whose fields equal the staged values. Java `int` is
the newtype `JavaInt.int32`. The code does no arithmetic, so only the range
of `int32` matters.

Module `NutritionChain` models the staged values of a flat builder as the
datatype `Facts`. It models a fluent chain of setter calls as a sequence of
`Setter` values:

- `Step` is one call. Each builder setter's postcondition ties the builder's
  state to `Step`.
- `Chain` applies a sequence of calls from left to right.
- `Last` is an independent reference definition of "last write wins". It
  reads the chain from its end.

The lemmas prove that `Chain` and `Last` agree for every chain. So in any
chain, the last call that sets a field decides that field, and a field that
no call sets keeps its default 0.

The modules follow the source files: `NutritionFacts3`, `NutritionFacts4`,
`Phone` and `SpeedPhone`, plus `JavaInt` and `NutritionChain`.

## Model

| member | source | states |
|---|---|---|
| `NutritionChain.Step` | effective-java-example/src/chapter2/item2/NutritionFacts3.java:18-26 | one setter call sets exactly its own field to the given value; `a` and the other optional field keep their values |
| `NutritionChain.Chain` | effective-java-example/src/chapter2/item2/NutritionFacts3.java:10-26 | no chain of setter calls changes the final `a` |
| `NutritionChain.ChainLastWriteWins` | effective-java-example/src/chapter2/item2/NutritionFacts3.java:18-26 | after any chain, each optional field holds the value of the last call that set it, or its earlier value if no call did (last write wins) |
| `NutritionChain.BuilderAfterChain` | effective-java-example/src/chapter2/item2/NutritionFacts3.java:14-26 | a new builder after any chain holds the given `a`, and each of `b` and `c` holds the last value written to it, else 0 |
| `NutritionChain.OmittedSetterKeepsDefault` | effective-java-example/src/chapter2/item2/NutritionFacts3.java:11-16 | a chain that never calls a field's setter leaves that field at Java's default 0 |
| `NutritionChain.SetTwice` | effective-java-example/src/chapter2/item2/NutritionFacts3.java:18-26 | calling the same setter twice in a row leaves the same state as calling it once with the second value |
| `NutritionFacts3.Builder.constructor` | effective-java-example/src/chapter2/item2/NutritionFacts3.java:14-16 | `new Builder(a)` stages the given `a`, and `b` and `c` are 0 |
| `NutritionFacts3.Builder.B` | effective-java-example/src/chapter2/item2/NutritionFacts3.java:18-21 | `b(x)` sets `b` to `x`, leaves `c` and the const `a` unchanged, and returns the same builder |
| `NutritionFacts3.Builder.C` | effective-java-example/src/chapter2/item2/NutritionFacts3.java:23-26 | `c(x)` sets `c` to `x`, leaves `b` and the const `a` unchanged, and returns the same builder |
| `NutritionFacts3.Builder.Build` | effective-java-example/src/chapter2/item2/NutritionFacts3.java:28-30 | returns a fresh object whose `a`, `b` and `c` equal the staged values; modifies nothing |
| `NutritionFacts3.NutritionFacts3.constructor` | effective-java-example/src/chapter2/item2/NutritionFacts3.java:33-37 | copies the builder's three staged values into final fields |
| `NutritionFacts3.BuildTwice` | effective-java-example/src/chapter2/item2/NutritionFacts3.java:28-37 | two consecutive builds from one builder give two distinct objects with the same values, both equal to the staged values |
| `NutritionFacts3.BuildWithoutB` | effective-java-example/src/chapter2/item2/NutritionFacts3.java:14-30 | `new Builder(a).c(c).build()` carries `a`, 0 and `c` |
| `NutritionFacts4.NutritionFacts4.NewBuilder` | effective-java-example/src/chapter2/item2/NutritionFacts4.java:9-11 | `builder(a)` returns a fresh builder staging `a`, with `b` and `c` at 0, as `new Builder(a)` does |
| `NutritionFacts4.Builder.constructor` | effective-java-example/src/chapter2/item2/NutritionFacts4.java:18-20 | `new Builder(a)` stages the given `a`, and `b` and `c` are 0 |
| `NutritionFacts4.Builder.B` | effective-java-example/src/chapter2/item2/NutritionFacts4.java:22-25 | `b(x)` sets `b` to `x`, leaves `c` and the const `a` unchanged, and returns `this` |
| `NutritionFacts4.Builder.C` | effective-java-example/src/chapter2/item2/NutritionFacts4.java:27-30 | `c(x)` sets `c` to `x`, leaves `b` and the const `a` unchanged, and returns `this` |
| `NutritionFacts4.Builder.Build` | effective-java-example/src/chapter2/item2/NutritionFacts4.java:32-34 | returns a fresh object whose fields equal the staged values; modifies nothing |
| `NutritionFacts4.NutritionFacts4.constructor` | effective-java-example/src/chapter2/item2/NutritionFacts4.java:37-41 | copies the builder's three staged values into final fields |
| `NutritionFacts4.BuildChain` | effective-java-example/src/chapter2/item2/NutritionFacts4.java:9-34 | `builder(a).b(b).c(c).build()` carries exactly `a`, `b` and `c` |
| `NutritionFacts4.BuildSetBTwice` | effective-java-example/src/chapter2/item2/NutritionFacts4.java:22-25 | `builder(a).b(x).b(y).build()` carries `y` (the last write), and `c` is 0 |
| `Phone.Builder.constructor` | effective-java-example/src/chapter2/item2/Phone.java:13 | before any call to `size`, the staged `size` is 0 |
| `Phone.Builder.SetSize` | effective-java-example/src/chapter2/item2/Phone.java:14-15 | the assignment in `size(x)` sets the staged `size` to `x` and changes nothing outside the base builder |
| `Phone.Phone.constructor` | effective-java-example/src/chapter2/item2/Phone.java:24-26 | `Phone(builder)` copies the staged `size` into its final `size` |
| `SpeedPhone.Builder.constructor` | effective-java-example/src/chapter2/item2/SpeedPhone.java:12-14 | `new Builder(s)` stages `speed = s`, and the inherited `size` is 0 |
| `SpeedPhone.Builder.Self` | effective-java-example/src/chapter2/item2/SpeedPhone.java:21-24 | `self()` is the receiver itself |
| `SpeedPhone.Builder.Size` | effective-java-example/src/chapter2/item2/Phone.java:14-17 | `size(x)` on a `SpeedPhone.Builder` sets the inherited `size` to `x` and returns that same builder; only the inherited state may change, and the final `speed` does not |
| `SpeedPhone.Builder.Build` | effective-java-example/src/chapter2/item2/SpeedPhone.java:16-19 | returns a fresh `SpeedPhone` with the staged `size` and `speed`; modifies nothing |
| `SpeedPhone.SpeedPhone.constructor` | effective-java-example/src/chapter2/item2/SpeedPhone.java:27-30 | takes `size` through the `Phone` constructor and `speed` from the builder, both final |
| `SpeedPhone.BuildWithSize` | effective-java-example/src/chapter2/item2/SpeedPhone.java:12-19 | `new Builder(speed).size(size).build()` gives a phone with exactly that `size` and `speed` |
| `SpeedPhone.BuildWithoutSize` | effective-java-example/src/chapter2/item2/SpeedPhone.java:12-19 | `new Builder(speed).build()` gives a phone with `size` 0 and the given `speed` |
| `SpeedPhone.GenericExampleBuild` | effective-java-example/src/chapter2/item2/GenericExample.java:32 | `new SpeedPhone.Builder(10).size(10).build()` gives a phone with `size == 10` and `speed == 10` |

## Left out

- Subclassing and the bound `T extends Builder<T>`. Dafny, as used here, has
  neither inheritance nor F-bounded type parameters. So `Phone.Builder` is the
  class that holds the base state and its assignment. `SpeedPhone.Builder`
  owns one as its const `base` field. It supplies `self()` and the `return
  self()` of `size(int)` with its own type. A `SpeedPhone` likewise owns its
  `Phone` part as a separate object.
- The abstract declarations `Phone.Builder.build()` and `Phone.Builder.self()`
  have no body in the source. They are modelled only by their one
  implementation, in `SpeedPhone.Builder`.
- `SpeedPhone.Builder.Size`: the source returns `self()` with the static type
  `T`. The model returns the concrete `SpeedPhone.Builder` and states that
  the result is `this`.
- Java access modifiers (`private` constructors, package-private `build()`)
  are not modelled. Dafny members are all visible within a module.
- The chain of setter calls is modelled as values (`NutritionChain.Chain`),
  not as a loop over builder objects; the source has no such loop. Each setter
  method's postcondition ties the object to `NutritionChain.Step`.
- The rest of `chapter2`: the singleton classes (identity by static
  initialisation and `readResolve`), the serialization driver (file I/O and
  console output), `Parent.clone()` (it depends on `Object.clone` and on a
  `Car` class that is not part of this model), and the other methods of
  `GenericExample.java` (empty bodies that show compile-time generic bounds).
