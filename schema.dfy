/**
 * Request and response shapes of the CKD risk prediction endpoint.
 * Optional readings are `Option<real>`; absence is never conflated with zero.
 */
module Schema {

  datatype Option<+T> = None | Some(value: T)

  datatype Gender = Male | Female | Other

  /** The request validator bounds `age` to 0..120; the scorer itself never relies on it. */
  datatype Demographics = Demographics(age: int, gender: Gender)

  datatype Comorbidities = Comorbidities(diabetesMellitus: bool, hypertension: bool, anemia: bool)

  /** One time point of lab and vital measurements. The scorer never reads `timestamp`. */
  datatype LabVitalsPoint = LabVitalsPoint(
    timestamp: string,
    creatinine: Option<real>,
    albumin: Option<real>,
    systolicBp: Option<real>,
    heartRate: Option<real>)

  datatype PredictRequest = PredictRequest(
    demographics: Demographics,
    comorbidities: Comorbidities,
    labVitals: seq<LabVitalsPoint>)

  datatype PredictResponse = PredictResponse(
    riskLevel: string,
    probability: real,
    topFeatures: seq<string>,
    recommendations: seq<string>)
}
