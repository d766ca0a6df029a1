# KotlinTut core, modelled in Dafny

KotlinTut is a Kotlin syntax tutorial whose functions mostly print examples. The part of it that
carries behaviour is modelled here:

- the validated class hierarchy `Animal` / `Dog`, where construction runs `require` checks in a fixed
  order and throws the message of the first one that fails;
- the `Flyable` interface and its implementation `Bird`, whose `fly` reports either the distance or
  the refusal, depending on the mutable `flies` flag;
- the small local functions of the demos: `divide` (an exception turned into a message), `add`,
  `subtract`, `nextTwo`, `getSum`, the tail-recursive factorial `fact` / `factTail`, and the
  age-to-school classification written once as an `if` chain and once as a `when`.

Files and modules:

| file | module | models |
|---|---|---|
| `wrappers.dfy` | `Wrappers` | `Option` and `Result` (a construction that throws is an `Err` with the exception's message) |
| `int32.dfy` | `Int32` | Kotlin `Int`: the type `int32` and `Wrap`, its 32-bit wrap-around |
| `reports.dfy` | `Reports` | what `println` would show: a sequence of text and number pieces |
| `digit_pattern.dfy` | `DigitPattern` | the name rule `name.matches(Regex(".*\\d+.*."))` |
| `animals.dfy` | `Animals` | `Animal` and `Dog`: the checks, construction, `getInfo`, the property setters |
| `birds.dfy` | `Birds` | `Flyable` / `Bird` and `fly` |
| `functions.dfy` | `Functions` | `add`, `subtract`, `nextTwo`, `getSum`, `fact` / `factTail` |
| `exceptions.dfy` | `Exceptions` | `divide` and Kotlin's truncating `/` |
| `conditionals.dfy` | `Conditionals` | the two age classifications |

Modelling choices:

- Kotlin's `Dog` subclasses `Animal`. The model has one class, `Animals.Animal`, whose constant
  `runtimeClass` records which of the two Kotlin classes an object was created as. `GetInfo`
  dispatches on it as the JVM dispatches the overridden `getInfo`, so a Dog seen through an `Animal`
  reference still gives the owner report. A plain Animal keeps `""` in the `owner` field, which it
  never reads.
- A Dafny constructor cannot throw. The constructors therefore require that the checks pass.
  `Animal.Create` and `Animal.CreateDog` stand for the Kotlin constructor calls. They return
  `Err(message)` for the first failing `require`, without allocating anything, or `Ok(object)`
  otherwise.
- The regex is matched against the WHOLE name (`String.matches`). `DigitPattern.FullMatch` states
  what the pattern means, as an existential split of the name into `.*`, `\d+`, `.*` and a final `.`.
  `DigitPattern.Matches` is the decision used by the checks: no line terminator, and a digit that is
  not the last character. The two are proved equal. `\d` is an ASCII digit. `.` excludes the JVM's
  line terminators `\n`, `\r`, U+0085, U+2028 and U+2029.
- The message of the name check ("Animal name can't contain numbers") says that a name must not
  contain numbers. The code
  rejects only names in which a digit is followed by at least one more character. `"Rex9"` and `"9"`
  are accepted, and so is any name that holds a line terminator. The model follows the code.
  `DigitPattern.MatchOnlyWithDigit` and `DigitPattern.SampleNames` pin this gap down.
- The code prints `"$name can not fly ;("`, with the trailing `;(`. The model keeps it.
- `height`, `weight` and `distMiles` are Kotlin `Double` values that are only compared with `0` or
  interpolated. They are modelled as `real`.
- Kotlin `Int` is `Int32.int32`. `+`, `-` and `*` wrap modulo 2^32 through `Int32.Wrap`. Kotlin's `/`
  truncates toward zero, and Dafny's own `/` is Euclidean. `Exceptions.TruncDiv` is the truncating
  division on unbounded integers. It is used only with the dividend 5, where no quotient can overflow.
- `factTail(y - 1, ...)` wraps from `Int.MIN_VALUE` to `Int.MAX_VALUE`, so the tail recursion ends for
  every `y`, negative ones included. `Functions.FactTail` terminates by `y` counted modulo 2^32.

## Model

| member | source | states |
|---|---|---|
| `DigitPattern.FullMatch` | src/main/kotlin/KotlinTut.kt:162-163 | the full match of `.*\d+.*.`, read off the pattern as a split into `.*`, `\d+`, `.*`, `.`; a match needs at least two characters |
| `DigitPattern.Matches` | src/main/kotlin/KotlinTut.kt:162-163 | the decision used by the checks holds iff the name has no line terminator and a digit before its last character |
| `DigitPattern.DigitBeforeLast` | src/main/kotlin/KotlinTut.kt:162 | true exactly when some digit of the name has at least one character after it |
| `DigitPattern.MatchesIffFullMatch` | src/main/kotlin/KotlinTut.kt:162-163 | the decision used by the checks agrees with a full match of `.*\d+.*.` on every string |
| `DigitPattern.RejectsIffDigitNotLast` | src/main/kotlin/KotlinTut.kt:162-163 | for a name without line terminators, the regex matches iff a digit is followed by another character |
| `DigitPattern.LineTerminatorNeverMatches` | src/main/kotlin/KotlinTut.kt:162-163 | a name containing a line terminator never matches, so the digit rule never rejects it |
| `DigitPattern.MatchOnlyWithDigit` | src/main/kotlin/KotlinTut.kt:162-163 | every name the rule rejects contains a digit; "Rex9" contains one and is accepted |
| `DigitPattern.SampleNames` | src/main/kotlin/KotlinTut.kt:162-163 | "Rex9", "9", "Fido", "Spot" and "R2\nD" are accepted; "R2D" and "99" are rejected |
| `Animals.Message` | src/main/kotlin/KotlinTut.kt:141-166 | the message each failing `require` throws; none is empty |
| `Animals.MessageIdentifiesRule` | src/main/kotlin/KotlinTut.kt:141-166 | the five `require` messages are distinct, so a message identifies the failed rule |
| `Animals.FirstBroken` | src/main/kotlin/KotlinTut.kt:161-167 | a sequence of `require` checks (each rule's condition is `Animals.Holds`, one per `require`) fails with the first rule that does not hold, all earlier ones holding; it passes iff all hold |
| `Animals.FirstBrokenAppend` | src/main/kotlin/KotlinTut.kt:124-142 | running the superclass checks and then the subclass's fails where the first of the two fails |
| `Animals.CheckAnimal` | src/main/kotlin/KotlinTut.kt:161-167 | Animal's `init` reports the first failing rule in the order digit rule, empty name, height, weight; it passes iff the name does not fully match the regex, is non-empty and height and weight are positive |
| `Animals.CheckDog` | src/main/kotlin/KotlinTut.kt:124-142 | Dog's construction runs Animal's rules then the owner rule; it passes iff Animal's checks pass and the owner is non-empty; a base failure is reported instead of a missing owner |
| `Animals.ReportedRuleIsFirstFailure` | src/main/kotlin/KotlinTut.kt:162-166 | each rule is reported exactly when it fails and every earlier rule holds |
| `Animals.SampleChecks` | src/test/kotlin/AnimalTest.kt:7-13 | ("Fido", 12.1, 3.5), ("Bowser", 20.0, 13.5), ("Rex9", 1.0, 1.0) pass; Dog "Spot" with "Paul Smith" passes and with "" fails on the owner |
| `Animals.DigitRuleReportedFirst` | src/main/kotlin/KotlinTut.kt:124-167 | a Dog named "R2D" with a bad height, weight and owner reports the digit rule |
| `Animals.AnimalInfo` | src/main/kotlin/KotlinTut.kt:169-171 | the Animal report has five pieces: the name, the height and the weight in that order, separated by literal text |
| `Animals.DogInfo` | src/main/kotlin/KotlinTut.kt:135-136 | the Dog report is the Animal report followed by " and is owned by " and the owner |
| `Animals.Animal.constructor` | src/main/kotlin/KotlinTut.kt:155-167 | an Animal built from arguments that pass the checks stores them unchanged and is valid |
| `Animals.Animal.Dog` | src/main/kotlin/KotlinTut.kt:124-143 | a Dog built from arguments that pass the checks stores all four unchanged and is valid |
| `Animals.Animal.Create` | src/main/kotlin/KotlinTut.kt:155-167 | the construction succeeds iff the checks pass, with a fresh valid object holding the arguments; otherwise it yields the first failing rule's message and no object |
| `Animals.Animal.CreateDog` | src/main/kotlin/KotlinTut.kt:124-143 | the same for Dog, with the owner rule after Animal's |
| `Animals.Animal.GetInfo` | src/main/kotlin/KotlinTut.kt:169-171 | every report starts with "name is height tall and weighs weight"; it is exactly that for a plain Animal, and for a Dog, even through an Animal reference, it goes on with the owner |
| `Animals.Animal.SetHeight` | src/main/kotlin/KotlinTut.kt:157 | the setter stores any height without a check; a valid object stays valid iff the new height is positive |
| `Animals.Animal.SetWeight` | src/main/kotlin/KotlinTut.kt:158 | the setter stores any weight without a check; a valid object stays valid iff the new weight is positive |
| `Animals.Animal.SetOwner` | src/main/kotlin/KotlinTut.kt:128 | the setter stores any owner, the empty one included; a valid Dog stays valid iff the owner is non-empty |
| `Animals.FidoScenario` | src/test/kotlin/AnimalTest.kt:7-13 | Animal("Fido", 12.1, 3.5) is built and reads back "Fido", 12.1, 3.5 |
| `Animals.BowserScenario` | src/main/kotlin/KotlinTut.kt:148-151 | Animal("Bowser", 20.0, 13.5) is built and its `getInfo` gives exactly "Bowser is 20.0 tall and weighs 13.5" as pieces |
| `Animals.SpotScenario` | src/main/kotlin/KotlinTut.kt:117-119 | Dog("Spot", 20.0, 14.5, "Paul Smith") is built and its `getInfo` gives the owner report |
| `Animals.SpotWithoutOwner` | src/main/kotlin/KotlinTut.kt:139-142 | the same Dog with an empty owner is not built and throws "Owner is required" |
| `Animals.MutationSkipsValidation` | src/main/kotlin/KotlinTut.kt:155-167 | a valid Animal whose height is set to -1.0 no longer passes its own checks |
| `Birds.FlightReport` | src/main/kotlin/KotlinTut.kt:104-108 | both reports start with the name, and the distance appears in the report iff the bird flies |
| `Birds.FlightReportShowsDistanceIffFlies` | src/main/kotlin/KotlinTut.kt:104-108 | a bird that cannot fly reports no distance at all, and one that can reports only the distance asked |
| `Birds.Bird.constructor` | src/main/kotlin/KotlinTut.kt:99-102 | stores the name and the flag; the flag defaults to true |
| `Birds.Bird.Fly` | src/main/kotlin/KotlinTut.kt:103-109 | defined for every distance; "name flies d" when `flies`, "name can not fly ;(" otherwise; changes nothing |
| `Birds.Bird.SetFlies` | src/main/kotlin/KotlinTut.kt:101 | the setter of the overridden `flies` property stores the new flag |
| `Birds.InterfaceScenario` | src/main/kotlin/KotlinTut.kt:84-90 | Tweety flying 10.0 reports the distance, Polly built with `false` reports that it can not fly, and a Bird built without the flag flies |
| `Functions.Add` | src/main/kotlin/KotlinTut.kt:362 | the sum of two `Int`s, exact when it fits |
| `Functions.Subtract` | src/main/kotlin/KotlinTut.kt:367 | the difference of two `Int`s (both defaulting to 1), exact when it fits |
| `Functions.AddUndoesSubtract` | src/main/kotlin/KotlinTut.kt:362-367 | `add(subtract(a, b), b) == a` for all `Int`s, overflow included |
| `Functions.SubtractSamples` | src/main/kotlin/KotlinTut.kt:363-371 | subtract(5, 4) == 1, subtract(num2 = 5, num1 = 4) == -1, subtract() == 0, add(5, 4) == 9 |
| `Functions.NextTwo` | src/main/kotlin/KotlinTut.kt:378-380 | each component is one more than the previous (modulo wrap-around), and the pair is (n+1, n+2) when no overflow occurs |
| `Functions.SumAppend` | src/main/kotlin/KotlinTut.kt:385-391 | the sum of concatenated arguments is the sum of the sums |
| `Functions.GetSum` | src/main/kotlin/KotlinTut.kt:385-391 | the loop's accumulator ends as the sum of the arguments wrapped to an `Int`, and equals that sum when it fits |
| `Functions.GetSumSample` | src/main/kotlin/KotlinTut.kt:392 | getSum(1, 2, 3, 4, 5) == 15 |
| `Functions.FactTail` | src/main/kotlin/KotlinTut.kt:401-404 | defined for every `Int` (the count-down wraps); for y >= 0, factTail(y, z) is y! * z wrapped to an `Int` |
| `Functions.Fact` | src/main/kotlin/KotlinTut.kt:400-406 | for x >= 0, fact(x) is x! wrapped to an `Int`, and exactly x! for 0 <= x <= 12 |
| `Functions.FactSample` | src/main/kotlin/KotlinTut.kt:408 | fact(5) == 120 |
| `Functions.FactOverflowsAt13` | src/main/kotlin/KotlinTut.kt:400-406 | fact(13) is 1932053504, 13! less 2^32 |
| `Exceptions.TruncDiv` | src/main/kotlin/KotlinTut.kt:283 | the quotient of `5 / divisor`: it is zero or, otherwise, negative iff exactly one operand is; its magnitude is at most the dividend's |
| `Exceptions.TruncDivRemainder` | src/main/kotlin/KotlinTut.kt:283 | Kotlin's `/` leaves a remainder smaller than the divisor in magnitude that is zero or has the dividend's sign |
| `Exceptions.DivideOrThrow` | src/main/kotlin/KotlinTut.kt:279-284 | the body of the `try` throws exactly when the divisor is 0, with the message "Can't Divide by Zero" |
| `Exceptions.Divide` | src/main/kotlin/KotlinTut.kt:278-288 | the result is the "Can't Divide by Zero" message iff the divisor is 0; otherwise it is the line "5 / d = q" with a quotient q such that 0 <= 5 - q*d < abs(d) |
| `Exceptions.DivideSamples` | src/main/kotlin/KotlinTut.kt:290-291 | divide(5) shows quotient 1, divide(0) gives the message, divide(-2) shows -2 |
| `Conditionals.SchoolingByIf` | src/main/kotlin/KotlinTut.kt:470-479 | a grade is always 1 to 12 and is age - 5; a negative age goes to preschool |
| `Conditionals.SchoolingByWhen` | src/main/kotlin/KotlinTut.kt:482-498 | a grade is always 1 to 12 and is age - 5; a negative age goes to college |
| `Conditionals.ChainsAgreeIffNonNegative` | src/main/kotlin/KotlinTut.kt:470-498 | the two classifications agree exactly on the ages >= 0 |
| `Conditionals.DemoAge` | src/main/kotlin/KotlinTut.kt:468-498 | age 8 goes to grade 3 both ways |

## Left out

- `main` and every `println`: console output is modelled as the returned `Reports.Report`, not printed.
- How Kotlin renders numbers in string templates (`20.0`, `-5`): the numbers in a report stay numbers.
- Double semantics of `height`, `weight` and `distMiles` (NaN, infinities, rounding): they are `real`.
  A NaN height or weight would fail `> 0` in Kotlin, just as a non-positive `real` does here.
- The `Flyable` interface as a separate type: it has one implementation, and Dafny traits are not used
  here, so `Birds.Bird` carries the interface's `flies` property and `fly` operation directly.
- `fact` of a negative argument: `Functions.FactTail` defines it (after about 2^32 wrapped steps), but no
  lemma states its value.
- The random guessing loop of the looping demo, which depends on `java.util.Random`.
- The variables demo (floating-point limits, Double sums, casts), and the string, array, range,
  list, map, collection-operator, higher-order-function and null-safety demos. They exercise the
  standard library, not logic of the repository.
- Concurrent mutation of the `var` fields: the code gives no guarantee for it.
