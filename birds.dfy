/**
 * `interface Flyable { var flies: Boolean; fun fly(distMiles: Double) }` and its one implementation,
 * `class Bird(val name: String, override var flies: Boolean = true)`.
 */
module Birds {
  import opened Reports

  /** What `fly` prints: the distance when the bird can fly, the refusal otherwise. */
  function FlightReport(name: string, flies: bool, distMiles: real): (r: Report)
    ensures |r| > 0 && r[0] == Text(name)
    ensures Real(distMiles) in r <==> flies
  {
    if flies then [Text(name), Text(" flies "), Real(distMiles)]
    else [Text(name), Text(" can not fly ;(")]
  }

  /** A bird that cannot fly reports no distance at all; one that can reports exactly the distance asked. */
  lemma FlightReportShowsDistanceIffFlies(name: string, flies: bool, distMiles: real)
    ensures (exists d :: Real(d) in FlightReport(name, flies, distMiles)) <==> flies
    ensures forall d :: Real(d) in FlightReport(name, flies, distMiles) ==> d == distMiles
  {
  }

  class Bird {
    const name: string
    var flies: bool

    /** `Bird(name)` flies; `Bird(name, false)` does not. No argument is checked. */
    constructor (name: string, flies: bool := true)
      ensures this.name == name && this.flies == flies
    {
      this.name := name;
      this.flies := flies;
    }

    /**
     * `fly(distMiles)`: defined for every distance (zero and negative ones included) and changes
     * neither `name` nor `flies` (it modifies nothing).
     */
    method Fly(distMiles: real) returns (report: Report)
      ensures report == FlightReport(name, flies, distMiles)
      ensures report[0] == Text(name)
      ensures Real(distMiles) in report <==> flies
    {
      FlightReportShowsDistanceIffFlies(name, flies, distMiles);
      report := FlightReport(name, flies, distMiles);
    }

    /** The setter of `override var flies`. */
    method SetFlies(f: bool)
      modifies this`flies
      ensures flies == f
    {
      flies := f;
    }
  }

  /**
   * The interface demo and the Bird test: "Tweety" flies 10.0, "Polly" built with `false` can not
   * fly 0.1, and a Bird built without the flag flies.
   */
  method InterfaceScenario() returns (tweety: Report, polly: Report, byDefault: bool)
    ensures tweety == [Text("Tweety"), Text(" flies "), Real(10.0)]
    ensures polly == [Text("Polly"), Text(" can not fly ;(")]
    ensures byDefault
  {
    var t := new Bird("Tweety", true);
    tweety := t.Fly(10.0);
    var p := new Bird("Polly", false);
    polly := p.Fly(0.1);
    var b := new Bird("Tweety");
    byDefault := b.flies;
  }
}
