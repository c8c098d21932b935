/** The diagnosis page: the conversation with the prediction service
    (`handleSend`), the classification of the service's answer, and which
    predictions a message shows. */
module DiagnosisPage {
  import opened Interfaces
  import opened JsString
  import opened Symptoms
  import opened AppState

  const GreetingText := "Welcome! Please describe your symptoms in simple terms (e.g., fever, headache, sore throat)."
  const NoDiagnosisText := "I couldn't determine a diagnosis based on those details. Please write correct symptoms and send again."
  const AnalysisText := "Based on your symptoms, here's my analysis:"
  const ConnectionErrorText := "I apologize, but I'm having trouble connecting to the diagnosis service. Please try again later or consult a healthcare professional."

  /** The message the conversation is seeded with. */
  const Greeting := Message(Assistant, GreetingText, None)

  /** The body of a reply from the prediction service; either field may be
      absent. */
  datatype ResponseBody = ResponseBody(error: Option<string>, predictions: Option<seq<Prediction>>)

  /** How the POST to the prediction service ends: with a body, or by
      throwing (network failure, non-2xx status, or a `data` that is null or
      undefined, whose fields cannot be read). Any other `data` that is not
      an object carries neither field and is `ResponseBody(None, None)`. */
  datatype Transport = Responded(body: ResponseBody) | TransportFailure

  /** The four ways a sent request can end. */
  datatype Outcome =
    | ServerError(message: string)
    | NoPredictions
    | Diagnosed(predictions: seq<Prediction>)
    | ConnectionFailed

  /** `if (data.error)`: a present, non-empty string is truthy. */
  predicate IsTruthy(s: Option<string>) {
    s.Some? && s.value != []
  }

  /** `data.predictions || []`. */
  function PredictionsOrEmpty(body: ResponseBody): seq<Prediction> {
    match body.predictions
    case Some(p) => p
    case None => []
  }

  /** Classifies the transport result. A truthy error wins over any
      predictions; a diagnosis needs at least one prediction. */
  function Classify(t: Transport): (o: Outcome)
    ensures o.ConnectionFailed? <==> t.TransportFailure?
    ensures o.ServerError? <==> t.Responded? && IsTruthy(t.body.error)
    ensures o.ServerError? ==> o.message == t.body.error.value
    ensures o.Diagnosed? <==> t.Responded? && !IsTruthy(t.body.error)
                              && t.body.predictions.Some? && t.body.predictions.value != []
    ensures o.Diagnosed? ==> o.predictions == t.body.predictions.value
  {
    match t
    case TransportFailure => ConnectionFailed
    case Responded(body) =>
      if IsTruthy(body.error) then ServerError(body.error.value)
      else
        var predictions := PredictionsOrEmpty(body);
        if |predictions| == 0 then NoPredictions else Diagnosed(predictions)
  }

  /** The assistant message that reports an outcome. */
  function Reply(o: Outcome): (m: Message)
    ensures m.role == Assistant
    ensures m.predictions.Some? <==> o.Diagnosed?
    ensures o.Diagnosed? ==> m.predictions.value == o.predictions
    ensures o.ServerError? ==> m.content == o.message
    ensures o.NoPredictions? ==> m.content == NoDiagnosisText
    ensures o.Diagnosed? ==> m.content == AnalysisText
    ensures o.ConnectionFailed? ==> m.content == ConnectionErrorText
  {
    match o
    case ServerError(message) => Message(Assistant, message, None)
    case NoPredictions => Message(Assistant, NoDiagnosisText, None)
    case Diagnosed(predictions) => Message(Assistant, AnalysisText, Some(predictions))
    case ConnectionFailed => Message(Assistant, ConnectionErrorText, None)
  }

  /** An empty error string is falsy, so it does not count as a server error:
      the reply then depends on the predictions alone. */
  lemma EmptyErrorIsIgnored(predictions: Option<seq<Prediction>>)
    ensures Classify(Responded(ResponseBody(Some([]), predictions)))
         == Classify(Responded(ResponseBody(None, predictions)))
  {
  }

  /** A truthy error is the reply, word for word, whatever predictions came
      with it, and it never produces a history entry. */
  lemma ServerErrorWins(error: string, predictions: Option<seq<Prediction>>)
    requires error != []
    ensures Classify(Responded(ResponseBody(Some(error), predictions))) == ServerError(error)
    ensures Reply(Classify(Responded(ResponseBody(Some(error), predictions)))) == Message(Assistant, error, None)
  {
  }

  /** A thread message is well formed when a user message carries no
      predictions and an assistant message carries a non-empty list or none. */
  predicate IsThreadMessage(m: Message) {
    (m.role == User ==> m.predictions.None?)
    && (m.predictions.Some? ==> m.predictions.value != [])
  }

  /** The message a user sends. */
  function UserMessage(text: string): (m: Message)
    ensures IsThreadMessage(m) && m.role == User && m.content == text
  {
    Message(User, text, None)
  }

  /** Every reply is a well-formed assistant message. */
  lemma ReplyIsThreadMessage(o: Outcome)
    requires o.Diagnosed? ==> o.predictions != []
    ensures IsThreadMessage(Reply(o)) && Reply(o).role == Assistant
  {
  }

  /** Appending a well-formed message keeps the greeting first and the
      thread well formed. */
  lemma AppendKeepsThread(thread: seq<Message>, m: Message)
    requires |thread| > 0 && thread[0] == Greeting
    requires forall i :: 0 <= i < |thread| ==> IsThreadMessage(thread[i])
    requires IsThreadMessage(m)
    ensures (thread + [m])[0] == Greeting
    ensures forall i :: 0 <= i < |thread + [m]| ==> IsThreadMessage((thread + [m])[i])
  {
  }

  /** What `handleSend` does before the request goes out. */
  datatype Submission =
    | RejectedBlank        // "Please enter at least one symptom."
    | RejectedLoggedOut    // "Please login to use the diagnosis feature."
    | Sent(symptoms: seq<string>)

  /** The checks `handleSend` makes, in order, before anything changes:
      blank input first (`!input.trim()`, which `Validators.BlankIff` shows
      to be "all whitespace"), then the login flag. Text that is not blank
      but holds no symptom is still sent, as an empty list
      (`SeparatorsOnlySendNothing`). */
  function Gate(text: string, isLoggedIn: bool): (s: Submission)
    ensures s == RejectedBlank <==> AllSpace(text)
    ensures s == RejectedLoggedOut <==> !AllSpace(text) && !isLoggedIn
    ensures s.Sent? <==> !AllSpace(text) && isLoggedIn
    ensures s.Sent? ==> s.symptoms == Normalise(text)
  {
    if AllSpace(text) then RejectedBlank
    else if !isLoggedIn then RejectedLoggedOut
    else Sent(Normalise(text))
  }

  /** Input made only of commas, semicolons and whitespace, with at least one
      separator, passes the blank check and sends no symptom at all. */
  lemma SeparatorsOnlySendNothing(text: string)
    requires !AllSpace(text)
    requires forall k :: 0 <= k < |text| ==> IsSpace(text[k]) || IsSeparator(text[k])
    ensures Gate(text, true) == Sent([])
  {
    NormaliseEmptyIff(text);
  }

  class DiagnosisSession {
    /** The root state, reached through the page's props. */
    const app: App
    var messages: seq<Message>
    var input: string
    var isAnalyzing: bool

    ghost predicate Valid()
      reads this, app
    {
      app.Valid()
      && |messages| > 0 && messages[0] == Greeting
      && (forall i :: 0 <= i < |messages| ==> IsThreadMessage(messages[i]))
    }

    /** The page's initial state: the greeting, an empty input box. */
    constructor (root: App)
      requires root.Valid()
      ensures Valid() && app == root
      ensures messages == [Greeting] && input == [] && !isAnalyzing
    {
      app := root;
      messages := [Greeting];
      input := [];
      isAnalyzing := false;
    }

    /** The input box's `onChange`. */
    method SetInput(text: string)
      modifies this`input
      ensures input == text
    {
      input := text;
    }

    /** The synchronous part of `handleSend`, up to the request: rejects a
        blank input, then a logged-out user (sending them to the login page);
        otherwise appends the user's message, clears the input, raises
        `isAnalyzing` and returns the normalised symptoms to send. */
    method Submit() returns (s: Submission)
      requires Valid()
      modifies this, app`currentPage
      ensures Valid()
      ensures s == Gate(old(input), app.isLoggedIn)
      ensures s.Sent? ==> messages == old(messages) + [UserMessage(old(input))]
                          && input == [] && isAnalyzing && app.currentPage == old(app.currentPage)
      ensures !s.Sent? ==> messages == old(messages) && input == old(input)
                           && isAnalyzing == old(isAnalyzing)
      ensures s == RejectedBlank ==> app.currentPage == old(app.currentPage)
      ensures s == RejectedLoggedOut ==> app.currentPage == Login
    {
      s := Gate(input, app.isLoggedIn);
      if s == RejectedLoggedOut {
        app.currentPage := Login;
      } else if s.Sent? {
        var text := input;
        AppendKeepsThread(messages, UserMessage(text));
        messages := messages + [UserMessage(text)];
        input := [];
        isAnalyzing := true;
      }
    }

    /** The part of `handleSend` after the request returns or throws: exactly
        one assistant message; a history entry only for a diagnosis;
        `isAnalyzing` lowered on every path. `id` and `date` stand for
        `Date.now()` and the ISO time stamp. */
    method Resolve(symptoms: seq<string>, t: Transport, id: string, date: string)
      requires Valid()
      requires forall i :: 0 <= i < |symptoms| ==> IsToken(symptoms[i])
      modifies this, app`diagnosisHistory
      ensures Valid() && !isAnalyzing && input == old(input)
      ensures messages == old(messages) + [Reply(Classify(t))]
      ensures app.diagnosisHistory == old(app.diagnosisHistory)
                + if Classify(t).Diagnosed?
                  then [DiagnosisEntry(id, date, symptoms, Classify(t).predictions)]
                  else []
    {
      var outcome := Classify(t);
      ReplyIsThreadMessage(outcome);
      AppendKeepsThread(messages, Reply(outcome));
      messages := messages + [Reply(outcome)];
      if outcome.Diagnosed? {
        var entry := DiagnosisEntry(id, date, symptoms, outcome.predictions);
        app.diagnosisHistory := app.diagnosisHistory + [entry];
      }
      isAnalyzing := false;
    }

    /** `handleSend` run to completion with the transport result `t`. */
    method HandleSend(t: Transport, id: string, date: string) returns (s: Submission)
      requires Valid()
      modifies this, app`currentPage, app`diagnosisHistory
      ensures Valid()
      ensures s == Gate(old(input), app.isLoggedIn)
      ensures !s.Sent? ==> messages == old(messages) && input == old(input)
                           && isAnalyzing == old(isAnalyzing)
                           && app.diagnosisHistory == old(app.diagnosisHistory)
      ensures s == RejectedLoggedOut ==> app.currentPage == Login
      ensures s == RejectedBlank ==> app.currentPage == old(app.currentPage)
      ensures s.Sent? ==>
                messages == old(messages) + [UserMessage(old(input)), Reply(Classify(t))]
                && input == [] && !isAnalyzing && app.currentPage == old(app.currentPage)
                && app.diagnosisHistory == old(app.diagnosisHistory)
                     + if Classify(t).Diagnosed?
                       then [DiagnosisEntry(id, date, s.symptoms, Classify(t).predictions)]
                       else []
    {
      ghost var thread, text := messages, input;
      s := Submit();
      if !s.Sent? {
        return;
      }
      assert messages == thread + [UserMessage(text)];
      Resolve(s.symptoms, t, id, date);
      assert messages == thread + [UserMessage(text), Reply(Classify(t))];
    }
  }

  // ---------------------------------------------------------------------
  // What a message shows: the primary prediction and up to two others.

  function Min(a: int, b: int): int {
    if a <= b then a else b
  }

  /** The predictions a message renders: `predictions[0]` as the primary
      analysis, then `predictions.slice(1, 3)` when there is more than one;
      `slice` clamps its end to the length. That is the first three predictions, in the service's order. */
  function ShownPredictions(m: Message): (r: seq<Prediction>)
    ensures m.predictions.None? ==> r == []
    ensures m.predictions.Some? ==> r == m.predictions.value[..Min(3, |m.predictions.value|)]
  {
    match m.predictions
    case None => []
    case Some(p) =>
      if |p| == 0 then []
      else [p[0]] + (if |p| > 1 then p[1..Min(3, |p|)] else [])
  }

  /** Four predictions: all four are kept in the diagnosis, and the message
      shows "Flu" as the primary analysis and "Cold" and "Allergy" as the
      other possibilities. */
  lemma FourPredictionsExample()
    ensures var p := [Prediction("Flu", 0.82), Prediction("Cold", 0.51),
                      Prediction("Allergy", 0.30), Prediction("X", 0.10)];
            var o := Classify(Responded(ResponseBody(None, Some(p))));
            o == Diagnosed(p)
            && ShownPredictions(Reply(o)) == [Prediction("Flu", 0.82), Prediction("Cold", 0.51),
                                               Prediction("Allergy", 0.30)]
  {
    var p := [Prediction("Flu", 0.82), Prediction("Cold", 0.51),
              Prediction("Allergy", 0.30), Prediction("X", 0.10)];
    assert p[..3] == [p[0], p[1], p[2]];
  }
}
