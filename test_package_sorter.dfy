/**
 * The concrete cases of the package sorter's unit tests, stated as facts
 * about the model. Each lemma gathers the cases of one test method.
 */
module PackageSorterExamples {
  import opened PackageSorter

  /** Small, light packages go to STANDARD, including the all-zero package. */
  lemma StandardPackages()
    ensures Sort(10.0, 10.0, 10.0, 5.0) == Ok(STANDARD)
    ensures Sort(50.0, 50.0, 50.0, 10.0) == Ok(STANDARD)
    ensures Sort(99.0, 99.0, 99.0, 19.9) == Ok(STANDARD)
    ensures Sort(0.0, 0.0, 0.0, 0.0) == Ok(STANDARD)
  {
  }

  /** A volume of at least 1,000,000 alone makes a light package SPECIAL. */
  lemma BulkyByVolume()
    ensures Sort(100.0, 100.0, 100.0, 10.0) == Ok(SPECIAL)
    ensures Sort(150.0, 150.0, 150.0, 15.0) == Ok(SPECIAL)
    ensures Sort(200.0, 200.0, 25.0, 5.0) == Ok(SPECIAL)
  {
  }

  /** A single dimension of at least 150, in any position, makes a light package SPECIAL. */
  lemma BulkyByDimension()
    ensures Sort(150.0, 50.0, 50.0, 10.0) == Ok(SPECIAL)
    ensures Sort(200.0, 10.0, 10.0, 5.0) == Ok(SPECIAL)
    ensures Sort(50.0, 150.0, 50.0, 10.0) == Ok(SPECIAL)
    ensures Sort(10.0, 200.0, 10.0, 5.0) == Ok(SPECIAL)
    ensures Sort(50.0, 50.0, 150.0, 10.0) == Ok(SPECIAL)
    ensures Sort(10.0, 10.0, 200.0, 5.0) == Ok(SPECIAL)
    ensures Sort(150.0, 150.0, 50.0, 10.0) == Ok(SPECIAL)
    ensures Sort(200.0, 200.0, 200.0, 15.0) == Ok(SPECIAL)
  {
  }

  /** A mass of at least 20 alone makes a small package SPECIAL. */
  lemma HeavyPackages()
    ensures Sort(50.0, 50.0, 50.0, 20.0) == Ok(SPECIAL)
    ensures Sort(30.0, 30.0, 30.0, 25.0) == Ok(SPECIAL)
    ensures Sort(10.0, 10.0, 10.0, 100.0) == Ok(SPECIAL)
  {
  }

  /** Heavy and bulky packages are REJECTED. */
  lemma RejectedPackages()
    ensures Sort(100.0, 100.0, 100.0, 25.0) == Ok(REJECTED)
    ensures Sort(150.0, 50.0, 50.0, 20.0) == Ok(REJECTED)
    ensures Sort(50.0, 150.0, 50.0, 30.0) == Ok(REJECTED)
    ensures Sort(50.0, 50.0, 150.0, 40.0) == Ok(REJECTED)
    ensures Sort(200.0, 200.0, 200.0, 50.0) == Ok(REJECTED)
  {
  }

  /** Cases at and just below the thresholds, tiny packages and zero dimensions. */
  lemma EdgeCases()
    ensures Sort(100.0, 100.0, 100.0, 19.9) == Ok(SPECIAL)
    ensures Sort(99.0, 99.0, 99.0, 20.0) == Ok(SPECIAL)
    ensures Sort(100.0, 100.0, 100.0, 20.0) == Ok(REJECTED)
    ensures Sort(150.0, 50.0, 50.0, 20.0) == Ok(REJECTED)
    ensures Sort(0.1, 0.1, 0.1, 0.1) == Ok(STANDARD)
    ensures Sort(0.0, 100.0, 100.0, 10.0) == Ok(STANDARD)
    ensures Sort(100.0, 0.0, 100.0, 10.0) == Ok(STANDARD)
    ensures Sort(100.0, 100.0, 0.0, 10.0) == Ok(STANDARD)
  {
  }

  /** A negative value in any position, or in all of them, is the validation error. */
  lemma InputValidation()
    ensures Sort(-1.0, 10.0, 10.0, 10.0) == InvalidMeasurement
    ensures Sort(10.0, -1.0, 10.0, 10.0) == InvalidMeasurement
    ensures Sort(10.0, 10.0, -1.0, 10.0) == InvalidMeasurement
    ensures Sort(10.0, 10.0, 10.0, -1.0) == InvalidMeasurement
    ensures Sort(-1.0, -1.0, -1.0, -1.0) == InvalidMeasurement
  {
  }

  /** Values a hair on either side of the thresholds. */
  lemma NearThresholdValues()
    ensures Sort(99.9, 99.9, 100.1, 19.99) == Ok(STANDARD)
    ensures Sort(149.99, 50.0, 50.0, 10.0) == Ok(STANDARD)
    ensures Sort(150.01, 50.0, 50.0, 10.0) == Ok(SPECIAL)
    ensures Sort(50.0, 50.0, 50.0, 19.999) == Ok(STANDARD)
    ensures Sort(50.0, 50.0, 50.0, 20.001) == Ok(SPECIAL)
  {
  }
}
