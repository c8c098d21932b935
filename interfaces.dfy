/** The records the page passes around (`UserData`, `DiagnosisEntry`,
    `Message` and the prediction pairs they hold), and the few value types the
    model needs to stand in for JavaScript values. */
module Interfaces {

  datatype Option<+T> = None | Some(value: T)

  /** A JavaScript number as `Number(...)` can produce it. */
  datatype JsNumber = Finite(value: real) | NaN | PositiveInfinity | NegativeInfinity

  /** One candidate diagnosis as the prediction service returns it. The
      confidence is passed through unvalidated. */
  datatype Prediction = Prediction(disease: string, confidence: real)

  datatype Role = User | Assistant

  /** One turn of the diagnosis conversation; `predictions` is the optional
      `predictions?` field of the source's `Message` interface. */
  datatype Message = Message(role: Role, content: string, predictions: Option<seq<Prediction>>)

  /** A completed diagnosis as kept in the history. */
  datatype DiagnosisEntry = DiagnosisEntry(
    id: string,
    date: string,
    symptoms: seq<string>,
    predictions: seq<Prediction>)

  /** The signup form. `age` is kept as the text the user typed. */
  datatype UserData = UserData(
    fullName: string,
    age: string,
    aadhar: string,
    gender: string,
    email: string,
    password: string,
    medicalHistory: string)

  /** The empty signup form the wizard starts from. */
  const EmptyUserData := UserData("", "", "", "", "", "", "")

  /** The values `currentPage` takes in the root component. */
  datatype Page = Home | About | Signup | Login | Diagnose | Reports | Profile | Feedback
}
