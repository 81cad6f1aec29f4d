/**
 * The package classification rule of the robotic package sorter.
 *
 * A package is described by its width, height and length (centimetres) and
 * its mass (kilograms). It is "bulky" when its volume is at least
 * 1,000,000 cm3 or any one of its dimensions is at least 150 cm, and "heavy"
 * when its mass is at least 20 kg. Both thresholds are inclusive. The stack
 * it goes to is STANDARD (neither), SPECIAL (exactly one) or REJECTED (both).
 * A negative measurement is an error, never a stack.
 *
 * Measurements are exact reals: the host's floating-point rounding is not
 * modelled.
 */
module PackageSorter {

  /** The three stacks a package can be sent to. */
  datatype Category = STANDARD | SPECIAL | REJECTED

  /** The outcome of a classification: a stack, or the validation error. */
  datatype Outcome = Ok(category: Category) | InvalidMeasurement

  const VolumeLimit: real := 1000000.0
  const DimensionLimit: real := 150.0
  const MassLimit: real := 20.0

  /** The label the sorter hands back for each stack. */
  function Label(c: Category): (s: string)
    ensures s == "STANDARD" || s == "SPECIAL" || s == "REJECTED"
  {
    match c
    case STANDARD => "STANDARD"
    case SPECIAL => "SPECIAL"
    case REJECTED => "REJECTED"
  }

  /** Distinct stacks have distinct labels, so the label identifies the stack. */
  lemma LabelInjective(a: Category, b: Category)
    ensures Label(a) == Label(b) <==> a == b
  {
  }

  /** How restrictive a stack is: STANDARD < SPECIAL < REJECTED. */
  function Rank(c: Category): nat
  {
    match c
    case STANDARD => 0
    case SPECIAL => 1
    case REJECTED => 2
  }

  /** 1 when a condition is triggered, 0 otherwise. */
  function Triggered(b: bool): nat
  {
    if b then 1 else 0
  }

  predicate NonNegative(width: real, height: real, length: real, mass: real)
  {
    0.0 <= width && 0.0 <= height && 0.0 <= length && 0.0 <= mass
  }

  function Volume(width: real, height: real, length: real): (v: real)
    ensures 0.0 <= width && 0.0 <= height && 0.0 <= length ==> 0.0 <= v
    ensures width == 0.0 || height == 0.0 || length == 0.0 ==> v == 0.0
  {
    width * height * length
  }

  /**
   * Bulky: the volume reaches the limit, or some single dimension does.
   * The source starts from "not bulky" and sets the flag by two guarded
   * assignments; here the two guards are one disjunction.
   */
  function IsBulky(width: real, height: real, length: real): (b: bool)
    ensures Volume(width, height, length) >= 1000000.0 ==> b
    ensures width >= 150.0 || height >= 150.0 || length >= 150.0 ==> b
    ensures !b ==> Volume(width, height, length) < 1000000.0 && width < 150.0 && height < 150.0 && length < 150.0
  {
    || Volume(width, height, length) >= VolumeLimit
    || width >= DimensionLimit
    || height >= DimensionLimit
    || length >= DimensionLimit
  }

  /** Heavy: the mass reaches the limit; the source starts from "not heavy" and sets the flag by one guarded assignment. */
  function IsHeavy(mass: real): (b: bool)
    ensures mass >= 20.0 ==> b
    ensures !b ==> mass < 20.0
  {
    mass >= MassLimit
  }

  /**
   * The classification. It fails exactly when some measurement is negative;
   * otherwise the stack's rank is the number of conditions (heavy, bulky)
   * the package triggers.
   */
  function Sort(width: real, height: real, length: real, mass: real): (r: Outcome)
    ensures r.InvalidMeasurement? <==> width < 0.0 || height < 0.0 || length < 0.0 || mass < 0.0
    ensures r.Ok? ==> Rank(r.category) == Triggered(IsHeavy(mass)) + Triggered(IsBulky(width, height, length))
  {
    if width < 0.0 || height < 0.0 || length < 0.0 || mass < 0.0 then
      InvalidMeasurement
    else
      var isBulky := IsBulky(width, height, length);
      var isHeavy := IsHeavy(mass);
      if isHeavy && isBulky then Ok(REJECTED)
      else if isHeavy || isBulky then Ok(SPECIAL)
      else Ok(STANDARD)
  }

  /**
   * The decision table, in terms of the raw measurements: REJECTED iff heavy
   * and bulky, SPECIAL iff exactly one of the two, STANDARD iff neither.
   */
  lemma SortDecisionTable(width: real, height: real, length: real, mass: real)
    requires NonNegative(width, height, length, mass)
    ensures Sort(width, height, length, mass) == Ok(REJECTED) <==>
              mass >= 20.0 &&
              (width * height * length >= 1000000.0 || width >= 150.0 || height >= 150.0 || length >= 150.0)
    ensures Sort(width, height, length, mass) == Ok(SPECIAL) <==>
              IsHeavy(mass) != IsBulky(width, height, length)
    ensures Sort(width, height, length, mass) == Ok(STANDARD) <==>
              !IsHeavy(mass) && !IsBulky(width, height, length)
  {
  }

  /** The three dimensions play interchangeable roles: any permutation of them sorts alike. */
  lemma SortPermutationInvariant(width: real, height: real, length: real, mass: real)
    ensures Sort(width, height, length, mass) == Sort(width, length, height, mass)
    ensures Sort(width, height, length, mass) == Sort(height, width, length, mass)
    ensures Sort(width, height, length, mass) == Sort(height, length, width, mass)
    ensures Sort(width, height, length, mass) == Sort(length, width, height, mass)
    ensures Sort(width, height, length, mass) == Sort(length, height, width, mass)
  {
  }

  /**
   * A dimension of exactly 150, in any position, makes a package bulky
   * whatever the other dimensions: SPECIAL below 20 kg, REJECTED from 20 kg.
   */
  lemma DimensionThresholdInclusive(a: real, b: real, mass: real)
    requires 0.0 <= a && 0.0 <= b && 0.0 <= mass
    ensures Sort(150.0, a, b, mass) == Ok(if mass >= 20.0 then REJECTED else SPECIAL)
    ensures Sort(a, 150.0, b, mass) == Ok(if mass >= 20.0 then REJECTED else SPECIAL)
    ensures Sort(a, b, 150.0, mass) == Ok(if mass >= 20.0 then REJECTED else SPECIAL)
  {
  }

  /**
   * When the width is the only measurement that can trigger anything, the
   * package leaves STANDARD exactly when the width reaches 150.
   */
  lemma DimensionThresholdSharp(width: real, height: real, length: real, mass: real)
    requires NonNegative(width, height, length, mass)
    requires height < 150.0 && length < 150.0 && mass < 20.0
    requires Volume(width, height, length) < 1000000.0
    ensures Sort(width, height, length, mass) == Ok(if width >= 150.0 then SPECIAL else STANDARD)
  {
  }

  /** A volume of exactly 1,000,000 makes a package bulky, whatever its single dimensions. */
  lemma VolumeThresholdInclusive(width: real, height: real, length: real, mass: real)
    requires NonNegative(width, height, length, mass)
    requires width * height * length == 1000000.0
    ensures IsBulky(width, height, length)
    ensures mass < 20.0 ==> Sort(width, height, length, mass) == Ok(SPECIAL)
    ensures mass >= 20.0 ==> Sort(width, height, length, mass) == Ok(REJECTED)
  {
  }

  /**
   * When no dimension reaches 150, the volume alone decides bulkiness, and
   * a light package leaves STANDARD exactly when the volume reaches 1,000,000.
   */
  lemma VolumeThresholdSharp(width: real, height: real, length: real, mass: real)
    requires NonNegative(width, height, length, mass)
    requires width < 150.0 && height < 150.0 && length < 150.0 && mass < 20.0
    ensures Sort(width, height, length, mass) ==
              Ok(if width * height * length >= 1000000.0 then SPECIAL else STANDARD)
  {
  }

  /**
   * A mass of exactly 20 makes a package heavy; below 20 it is not heavy,
   * and the stack is then decided by bulkiness alone.
   */
  lemma MassThresholdInclusive(width: real, height: real, length: real, mass: real)
    requires NonNegative(width, height, length, mass)
    ensures Sort(width, height, length, 20.0) ==
              Ok(if IsBulky(width, height, length) then REJECTED else SPECIAL)
    ensures mass < 20.0 ==>
              Sort(width, height, length, mass) ==
              Ok(if IsBulky(width, height, length) then SPECIAL else STANDARD)
  {
  }

  /** A zero dimension gives a zero volume: a package that triggers nothing else is STANDARD. */
  lemma ZeroDimensionIsStandard(width: real, height: real, length: real, mass: real)
    requires NonNegative(width, height, length, mass)
    requires width == 0.0 || height == 0.0 || length == 0.0
    requires width < 150.0 && height < 150.0 && length < 150.0 && mass < 20.0
    ensures Volume(width, height, length) == 0.0
    ensures Sort(width, height, length, mass) == Ok(STANDARD)
  {
  }

  /** Over non-negative dimensions, the volume grows with each dimension. */
  lemma VolumeMonotone(width: real, height: real, length: real, width': real, height': real, length': real)
    requires 0.0 <= width <= width' && 0.0 <= height <= height' && 0.0 <= length <= length'
    ensures Volume(width, height, length) <= Volume(width', height', length')
  {
  }

  /**
   * Growing any measurements never sends a package to a less restrictive
   * stack: ranks only go up along STANDARD, SPECIAL, REJECTED.
   */
  lemma SortMonotone(width: real, height: real, length: real, mass: real,
                     width': real, height': real, length': real, mass': real)
    requires NonNegative(width, height, length, mass)
    requires width <= width' && height <= height' && length <= length' && mass <= mass'
    ensures Sort(width, height, length, mass).Ok? && Sort(width', height', length', mass').Ok?
    ensures Rank(Sort(width, height, length, mass).category) <= Rank(Sort(width', height', length', mass').category)
  {
    VolumeMonotone(width, height, length, width', height', length');
  }

  /** A REJECTED package stays REJECTED, and a grown STANDARD package was STANDARD before. */
  lemma SortMonotoneStacks(width: real, height: real, length: real, mass: real,
                           width': real, height': real, length': real, mass': real)
    requires NonNegative(width, height, length, mass)
    requires width <= width' && height <= height' && length <= length' && mass <= mass'
    ensures Sort(width, height, length, mass) == Ok(REJECTED) ==>
              Sort(width', height', length', mass') == Ok(REJECTED)
    ensures Sort(width', height', length', mass') == Ok(STANDARD) ==>
              Sort(width, height, length, mass) == Ok(STANDARD)
  {
    SortMonotone(width, height, length, mass, width', height', length', mass');
  }
}
