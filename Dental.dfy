/** The ten dental conditions of the intake form and the per-condition tooth
    lists (`affectedTeeth` in the patient form, `allSelectedTeeth` in the
    tooth component). */
module Dental {
  import opened Wrappers

  /** A tooth number in the FDI two-digit notation of ISO 3950. */
  type Tooth = int

  datatype Condition =
    | Cavity | RootCanal | Implant | Extraction | Missing
    | Treated | ExistingImplant | Amalgam | Broken | Crown

  /** The property name of a condition in the form's `affectedTeeth` object. */
  function Key(c: Condition): string {
    match c
    case Cavity => "cavity"
    case RootCanal => "rootCanal"
    case Implant => "implant"
    case Extraction => "extraction"
    case Missing => "missing"
    case Treated => "treated"
    case ExistingImplant => "existingImplant"
    case Amalgam => "amalgam"
    case Broken => "broken"
    case Crown => "crown"
  }

  /** The condition whose key is `s`, if any. */
  function ParseKey(s: string): (r: Option<Condition>)
    ensures r.Some? ==> Key(r.value) == s
  {
    if s == "cavity" then Some(Cavity)
    else if s == "rootCanal" then Some(RootCanal)
    else if s == "implant" then Some(Implant)
    else if s == "extraction" then Some(Extraction)
    else if s == "missing" then Some(Missing)
    else if s == "treated" then Some(Treated)
    else if s == "existingImplant" then Some(ExistingImplant)
    else if s == "amalgam" then Some(Amalgam)
    else if s == "broken" then Some(Broken)
    else if s == "crown" then Some(Crown)
    else None
  }

  /** Every key parses back to its condition, so keys are distinct. */
  lemma ParseKeyRoundTrip(c: Condition)
    ensures ParseKey(Key(c)) == Some(c)
  {
  }

  /** A string is a key exactly when it parses. */
  lemma ParseKeyComplete(s: string)
    ensures ParseKey(s).Some? <==> exists c: Condition :: Key(c) == s
  {
    if exists c: Condition :: Key(c) == s {
      var c: Condition :| Key(c) == s;
      ParseKeyRoundTrip(c);
    }
  }

  /** The ten tooth lists, one per condition, as one record. */
  datatype AffectedTeeth = AffectedTeeth(
    cavity: seq<Tooth>, rootCanal: seq<Tooth>, implant: seq<Tooth>,
    extraction: seq<Tooth>, missing: seq<Tooth>, treated: seq<Tooth>,
    existingImplant: seq<Tooth>, amalgam: seq<Tooth>, broken: seq<Tooth>,
    crown: seq<Tooth>)
  {
    /** `affectedTeeth[condition]`. */
    function Get(c: Condition): seq<Tooth> {
      match c
      case Cavity => cavity
      case RootCanal => rootCanal
      case Implant => implant
      case Extraction => extraction
      case Missing => missing
      case Treated => treated
      case ExistingImplant => existingImplant
      case Amalgam => amalgam
      case Broken => broken
      case Crown => crown
    }

    /** `{ ...affectedTeeth, [condition]: teeth }`: only that list changes. */
    function With(c: Condition, teeth: seq<Tooth>): (r: AffectedTeeth)
      ensures r.Get(c) == teeth
      ensures forall d :: d != c ==> r.Get(d) == Get(d)
    {
      match c
      case Cavity => this.(cavity := teeth)
      case RootCanal => this.(rootCanal := teeth)
      case Implant => this.(implant := teeth)
      case Extraction => this.(extraction := teeth)
      case Missing => this.(missing := teeth)
      case Treated => this.(treated := teeth)
      case ExistingImplant => this.(existingImplant := teeth)
      case Amalgam => this.(amalgam := teeth)
      case Broken => this.(broken := teeth)
      case Crown => this.(crown := teeth)
    }
  }

  /** The ten lists, all empty. */
  const NoTeeth := AffectedTeeth([], [], [], [], [], [], [], [], [], [])
}
