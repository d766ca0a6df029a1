/**
 * The validated class hierarchy: `open class Animal(name, height, weight)` whose `init` block runs
 * four `require` checks, and `class Dog(..., owner) : Animal(...)` that adds a fifth. Kotlin's
 * subclass is represented by one Dafny class whose `runtimeClass` records which of the two Kotlin
 * classes the object was built as; `GetInfo` dispatches on it as the JVM dispatches `getInfo`.
 */
module Animals {
  import opened Wrappers
  import opened Reports
  import DigitPattern

  /** The `require` checks, one per rule. */
  datatype Rule = NameWithoutNumbers | NameRequired | HeightPositive | WeightPositive | OwnerRequired

  /** The message of the `IllegalArgumentException` that a failing `require` throws. */
  function Message(rule: Rule): (m: string)
    ensures m != ""
  {
    match rule
    case NameWithoutNumbers => "Animal name can't contain numbers"
    case NameRequired => "Name is required"
    case HeightPositive => "Height must be greater than 0"
    case WeightPositive => "Weight must be greater than 0"
    case OwnerRequired => "Owner is required"
  }

  /** Different rules throw different messages, so a message tells which rule failed. */
  lemma MessageIdentifiesRule(a: Rule, b: Rule)
    ensures Message(a) == Message(b) <==> a == b
  {
  }

  /** The constructor arguments the checks look at (`owner` is only looked at for a `Dog`). */
  datatype Arguments = Arguments(name: string, height: real, weight: real, owner: string)

  /** Whether the argument passes the `require` of `rule`. */
  predicate Holds(rule: Rule, args: Arguments) {
    match rule
    case NameWithoutNumbers => !DigitPattern.Matches(args.name)
    case NameRequired => args.name != ""
    case HeightPositive => args.height > 0.0
    case WeightPositive => args.weight > 0.0
    case OwnerRequired => args.owner != ""
  }

  /** The order in which the `init` blocks run the checks: Animal's four, then Dog's. */
  const AnimalRules: seq<Rule> := [NameWithoutNumbers, NameRequired, HeightPositive, WeightPositive]
  const DogRules: seq<Rule> := AnimalRules + [OwnerRequired]

  /**
   * The first rule in `rules` that `args` breaks, if any: the exception a sequence of `require`
   * calls ends with.
   */
  function FirstBroken(rules: seq<Rule>, args: Arguments): (r: Option<Rule>)
    ensures r == None <==> forall k :: 0 <= k < |rules| ==> Holds(rules[k], args)
    ensures r != None ==> exists k :: 0 <= k < |rules| && rules[k] == r.value && !Holds(r.value, args)
                                      && forall j :: 0 <= j < k ==> Holds(rules[j], args)
  {
    if rules == [] then None
    else if !Holds(rules[0], args) then Some(rules[0])
    else
      var r := FirstBroken(rules[1..], args);
      assert r != None ==> exists k :: 0 <= k < |rules| && rules[k] == r.value && !Holds(r.value, args)
                                       && forall j :: 0 <= j < k ==> Holds(rules[j], args) by {
        if r != None {
          var k :| 0 <= k < |rules[1..]| && rules[1..][k] == r.value && !Holds(r.value, args)
                   && forall j :: 0 <= j < k ==> Holds(rules[1..][j], args);
          assert forall j :: 0 <= j < k + 1 ==> Holds(rules[j], args) by {
            forall j | 0 <= j < k + 1 ensures Holds(rules[j], args) {
              if j > 0 { assert rules[j] == rules[1..][j - 1]; }
            }
          }
        }
      }
      assert r == None ==> forall k :: 0 <= k < |rules| ==> Holds(rules[k], args) by {
        if r == None {
          forall k | 0 <= k < |rules| ensures Holds(rules[k], args) {
            if k > 0 { assert rules[k] == rules[1..][k - 1]; }
          }
        }
      }
      r
  }

  /** Running the checks of `first` and then those of `second` fails where the first of the two fails. */
  lemma {:induction false} FirstBrokenAppend(first: seq<Rule>, second: seq<Rule>, args: Arguments)
    ensures FirstBroken(first + second, args)
            == if FirstBroken(first, args) != None then FirstBroken(first, args) else FirstBroken(second, args)
  {
    if first != [] {
      assert (first + second)[1..] == first[1..] + second;
      FirstBrokenAppend(first[1..], second, args);
    } else {
      assert first + second == second;
    }
  }

  /**
   * Animal's `init` block: the regex rule, the empty name, the height, the weight, in that order.
   * The result is the rule whose `require` throws, or `None` when the object is built.
   */
  function CheckAnimal(name: string, height: real, weight: real): (r: Option<Rule>)
    ensures r == FirstBroken(AnimalRules, Arguments(name, height, weight, ""))
    ensures r == None <==> !DigitPattern.FullMatch(name) && name != "" && height > 0.0 && weight > 0.0
  {
    DigitPattern.MatchesIffFullMatch(name);
    var args := Arguments(name, height, weight, "");
    assert FirstBroken(AnimalRules[3..], args) == if weight > 0.0 then None else Some(WeightPositive) by {
      assert AnimalRules[3..][1..] == [];
    }
    assert FirstBroken(AnimalRules[2..], args)
           == if height > 0.0 then FirstBroken(AnimalRules[3..], args) else Some(HeightPositive) by {
      assert AnimalRules[2..][1..] == AnimalRules[3..];
    }
    assert FirstBroken(AnimalRules[1..], args)
           == if name != "" then FirstBroken(AnimalRules[2..], args) else Some(NameRequired) by {
      assert AnimalRules[1..][1..] == AnimalRules[2..];
    }
    if DigitPattern.Matches(name) then Some(NameWithoutNumbers)
    else if name == "" then Some(NameRequired)
    else if !(height > 0.0) then Some(HeightPositive)
    else if !(weight > 0.0) then Some(WeightPositive)
    else None
  }

  /** Dog's construction: the superclass `init` first, then Dog's own `require` on the owner. */
  function CheckDog(name: string, height: real, weight: real, owner: string): (r: Option<Rule>)
    ensures r == FirstBroken(DogRules, Arguments(name, height, weight, owner))
    ensures r == None <==> CheckAnimal(name, height, weight) == None && owner != ""
    ensures CheckAnimal(name, height, weight) != None ==> r == CheckAnimal(name, height, weight)
  {
    var args := Arguments(name, height, weight, owner);
    FirstBrokenAppend(AnimalRules, [OwnerRequired], args);
    assert FirstBroken(AnimalRules, args) == CheckAnimal(name, height, weight);
    assert FirstBroken([OwnerRequired], args) == if owner == "" then Some(OwnerRequired) else None by {
      assert [OwnerRequired][1..] == [];
    }
    match CheckAnimal(name, height, weight)
    case Some(rule) => Some(rule)
    case None => if owner == "" then Some(OwnerRequired) else None
  }

  /** The rule that a failed construction reports does break, and every rule checked before it holds. */
  lemma ReportedRuleIsFirstFailure(name: string, height: real, weight: real)
    ensures CheckAnimal(name, height, weight) == Some(NameWithoutNumbers) <==> DigitPattern.FullMatch(name)
    ensures CheckAnimal(name, height, weight) == Some(NameRequired) <==> name == ""
    ensures CheckAnimal(name, height, weight) == Some(HeightPositive)
            <==> !DigitPattern.FullMatch(name) && name != "" && !(height > 0.0)
    ensures CheckAnimal(name, height, weight) == Some(WeightPositive)
            <==> !DigitPattern.FullMatch(name) && name != "" && height > 0.0 && !(weight > 0.0)
  {
    DigitPattern.MatchesIffFullMatch(name);
  }

  /** The checks as they stand in the tests and the demo: the arguments there pass, an empty owner does not. */
  lemma SampleChecks()
    ensures CheckAnimal("Fido", 12.1, 3.5) == None
    ensures CheckAnimal("Bowser", 20.0, 13.5) == None
    ensures CheckDog("Spot", 20.0, 14.5, "Paul Smith") == None
    ensures CheckDog("Spot", 20.0, 14.5, "") == Some(OwnerRequired)
    ensures CheckAnimal("Rex9", 1.0, 1.0) == None
  {
    DigitPattern.SampleNames();
    assert !DigitPattern.FullMatch("Bowser") by { DigitPattern.MatchesIffFullMatch("Bowser"); }
  }

  /** A name the regex rejects is reported before every other broken rule. */
  lemma DigitRuleReportedFirst()
    ensures CheckDog("R2D", -1.0, 0.0, "") == Some(NameWithoutNumbers)
  {
    DigitPattern.SampleNames();
    ReportedRuleIsFirstFailure("R2D", -1.0, 0.0);
  }

  /** `getInfo` of an Animal: "`name` is `height` tall and weighs `weight`". */
  function AnimalInfo(name: string, height: real, weight: real): (r: Report)
    ensures |r| == 5 && r[0] == Text(name) && r[2] == Real(height) && r[4] == Real(weight)
    ensures forall k :: 0 <= k < |r| && k % 2 == 1 ==> r[k].Text?
  {
    [Text(name), Text(" is "), Real(height), Text(" tall and weighs "), Real(weight)]
  }

  /** Dog's override of `getInfo`: the Animal report followed by " and is owned by `owner`". */
  function DogInfo(name: string, height: real, weight: real, owner: string): (r: Report)
    ensures r == AnimalInfo(name, height, weight) + [Text(" and is owned by "), Text(owner)]
  {
    [Text(name), Text(" is "), Real(height), Text(" tall and weighs "), Real(weight),
     Text(" and is owned by "), Text(owner)]
  }

  /** The JVM class an object was created as. */
  datatype RuntimeClass = AnimalClass | DogClass

  class Animal {
    const name: string
    var height: real
    var weight: real
    const runtimeClass: RuntimeClass
    /**
     * Dog's `var owner`. Kotlin's plain Animal has no such field: for an `AnimalClass` object this field
     * is an artefact of folding the two classes into one, holds "" and is never read.
     */
    var owner: string

    /** What construction established. Kotlin's setters do not re-check it afterwards. */
    ghost predicate Valid()
      reads this
    {
      CheckAnimal(name, height, weight) == None && (runtimeClass == DogClass ==> owner != "")
    }

    /** `Animal(name, height, weight)` once its `init` block has passed. */
    constructor (name: string, height: real, weight: real)
      requires CheckAnimal(name, height, weight) == None
      ensures this.name == name && this.height == height && this.weight == weight
      ensures runtimeClass == AnimalClass && owner == ""
      ensures Valid()
    {
      this.name := name;
      this.height := height;
      this.weight := weight;
      this.runtimeClass := AnimalClass;
      this.owner := "";
    }

    /** `Dog(name, height, weight, owner)` once both `init` blocks have passed. */
    constructor Dog(name: string, height: real, weight: real, owner: string)
      requires CheckDog(name, height, weight, owner) == None
      ensures this.name == name && this.height == height && this.weight == weight && this.owner == owner
      ensures runtimeClass == DogClass
      ensures Valid()
    {
      this.name := name;
      this.height := height;
      this.weight := weight;
      this.runtimeClass := DogClass;
      this.owner := owner;
    }

    /**
     * Calling `Animal(name, height, weight)`: the object with the arguments stored unchanged, or the
     * message of the first `require` that throws, in which case no object exists.
     */
    static method Create(name: string, height: real, weight: real) returns (r: Result<Animal, string>)
      ensures r.Ok? <==> CheckAnimal(name, height, weight) == None
      ensures r.Err? ==> r.error == Message(CheckAnimal(name, height, weight).value)
      ensures r.Ok? ==> fresh(r.value) && r.value.Valid() && r.value.runtimeClass == AnimalClass
                        && r.value.name == name && r.value.height == height && r.value.weight == weight
    {
      var broken := CheckAnimal(name, height, weight);
      if broken.Some? {
        r := Err(Message(broken.value));
      } else {
        var a := new Animal(name, height, weight);
        r := Ok(a);
      }
    }

    /** Calling `Dog(name, height, weight, owner)`: the Animal checks first, then the owner check. */
    static method CreateDog(name: string, height: real, weight: real, owner: string) returns (r: Result<Animal, string>)
      ensures r.Ok? <==> CheckDog(name, height, weight, owner) == None
      ensures r.Err? ==> r.error == Message(CheckDog(name, height, weight, owner).value)
      ensures r.Ok? ==> fresh(r.value) && r.value.Valid() && r.value.runtimeClass == DogClass
                        && r.value.name == name && r.value.height == height && r.value.weight == weight
                        && r.value.owner == owner
    {
      var broken := CheckDog(name, height, weight, owner);
      if broken.Some? {
        r := Err(Message(broken.value));
      } else {
        var d := new Animal.Dog(name, height, weight, owner);
        r := Ok(d);
      }
    }

    /**
     * `getInfo()`, dispatched on the runtime class: every report starts with the Animal report, and
     * only a Dog's goes on to name the owner.
     */
    function GetInfo(): (r: Report)
      reads this
      ensures AnimalInfo(name, height, weight) <= r
      ensures r == AnimalInfo(name, height, weight) <==> runtimeClass == AnimalClass
      ensures runtimeClass == DogClass ==> r == AnimalInfo(name, height, weight) + [Text(" and is owned by "), Text(owner)]
    {
      match runtimeClass
      case AnimalClass => AnimalInfo(name, height, weight)
      case DogClass => DogInfo(name, height, weight, owner)
    }

    /** The setter of `var height`: it stores any value and runs no check. */
    method SetHeight(h: real)
      modifies this`height
      ensures height == h
      ensures old(Valid()) ==> (Valid() <==> h > 0.0)
    {
      height := h;
    }

    /** The setter of `var weight`: it stores any value and runs no check. */
    method SetWeight(w: real)
      modifies this`weight
      ensures weight == w
      ensures old(Valid()) ==> (Valid() <==> w > 0.0)
    {
      weight := w;
    }

    /** The setter of Dog's `var owner`: it stores any string, the empty one included. */
    method SetOwner(o: string)
      requires runtimeClass == DogClass
      modifies this`owner
      ensures owner == o
      ensures old(Valid()) ==> (Valid() <==> o != "")
    {
      owner := o;
    }
  }

  /** The test of `Animal`: "Fido", 12.1, 3.5 is built and its fields read back as given. */
  method FidoScenario() returns (name: string, height: real, weight: real)
    ensures name == "Fido" && height == 12.1 && weight == 3.5
  {
    SampleChecks();
    var r := Animal.Create("Fido", 12.1, 3.5);
    var fido := r.value;
    name, height, weight := fido.name, fido.height, fido.weight;
  }

  /** The class demo: an Animal built as "Bowser", 20.0, 13.5 gives the plain report. */
  method BowserScenario() returns (info: Report)
    ensures info == [Text("Bowser"), Text(" is "), Real(20.0), Text(" tall and weighs "), Real(13.5)]
  {
    SampleChecks();
    var r := Animal.Create("Bowser", 20.0, 13.5);
    var bowser := r.value;
    info := bowser.GetInfo();
  }

  /** The inheritance demo: a Dog built as "Spot", 20.0, 14.5, "Paul Smith" gives the owner report. */
  method SpotScenario() returns (info: Report)
    ensures info == [Text("Spot"), Text(" is "), Real(20.0), Text(" tall and weighs "), Real(14.5),
                     Text(" and is owned by "), Text("Paul Smith")]
  {
    SampleChecks();
    var r := Animal.CreateDog("Spot", 20.0, 14.5, "Paul Smith");
    var spot := r.value;
    info := spot.GetInfo();
  }

  /** Dog's own `require`: the same Dog without an owner is not built and throws "Owner is required". */
  method SpotWithoutOwner() returns (r: Result<Animal, string>)
    ensures r == Err("Owner is required")
  {
    SampleChecks();
    r := Animal.CreateDog("Spot", 20.0, 14.5, "");
  }

  /** Kotlin's setters do not re-validate: a valid Animal can be given a negative height. */
  method MutationSkipsValidation() returns (valid: bool)
    ensures !valid
  {
    SampleChecks();
    var bowser := new Animal("Bowser", 20.0, 13.5);
    bowser.SetHeight(-1.0);
    valid := CheckAnimal(bowser.name, bowser.height, bowser.weight) == None;
  }
}
