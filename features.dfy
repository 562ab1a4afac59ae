/**
 * The keys and rows of the contribution table the scorer builds.
 */
module Features {

  /** Keys of the contribution table, in the order the scorer inserts them. */
  datatype Feature =
    | Baseline
    | Age
    | DiabetesMellitus
    | Hypertension
    | Anemia
    | Creatinine
    | AlbuminLow
    | SystolicBp
    | HeartRate

  /** Insertion position of a feature in the contribution table. */
  function Rank(f: Feature): nat
  {
    match f
    case Baseline => 0
    case Age => 1
    case DiabetesMellitus => 2
    case Hypertension => 3
    case Anemia => 4
    case Creatinine => 5
    case AlbuminLow => 6
    case SystolicBp => 7
    case HeartRate => 8
  }

  /** The table key of a feature. */
  function Key(f: Feature): string
  {
    match f
    case Baseline => "baseline"
    case Age => "age"
    case DiabetesMellitus => "diabetes_mellitus"
    case Hypertension => "hypertension"
    case Anemia => "anemia"
    case Creatinine => "creatinine"
    case AlbuminLow => "albumin_low"
    case SystolicBp => "systolic_bp"
    case HeartRate => "heart_rate"
  }

  /** One row of the contribution table: a feature and what it added to the probability. */
  type Entry = (Feature, real)

  /** Rows appear in insertion order. */
  predicate InInsertionOrder(s: seq<Entry>)
  {
    forall i, j :: 0 <= i < j < |s| ==> Rank(s[i].0) < Rank(s[j].0)
  }
}
