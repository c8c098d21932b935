# MediBot front end: a Dafny model of its page logic

MediBot is a single-page React application (`src/pages/Index.tsx`). The user
describes symptoms to a chat-style diagnosis page. That page forwards the
normalised symptom list to a prediction service and reports the answer. The
app also keeps a history of completed diagnoses and lists it on a reports
page. Around this sit a three-step signup wizard, a login form, a contact
form and a testimonial carousel.

This project models the logic inside those event handlers:

- **JsString**: the JavaScript string operations the pages rely on. It covers
  `trim` and the `\s` class (the ECMAScript WhiteSpace and LineTerminator
  characters) and ASCII `toLowerCase`.
- **Interfaces**: the records `UserData`, `DiagnosisEntry` and `Message`, and
  the pages the root component switches between.
- **Symptoms**: the symptom normaliser
  `toLowerCase().split(/[,;]/).map(s => s.trim()).filter(s => s)`.
- **Validators**: blank text, the e-mail pattern `^\S+@\S+\.\S+$` (as a
  regular-expression predicate, plus a one-scan decision procedure proved
  equal to it) and the Aadhar pattern `^[0-9]{12}$`.
- **AppState**: the root component's state and `handleLogout`.
- **DiagnosisPage**: `handleSend` as a class.
  - `Submit` is the checks and the user message.
  - `Resolve` is the outcome of the request.
  - `HandleSend` is both, run in sequence.
  - The module also holds the classification of the service's answer and the
    predictions a message shows.
- **ReportsPage**: the newest-first history listing.
- **HomePage**: the carousel index arithmetic and the contact form.
- **SignupPage**: the wizard's step machine and its per-step checks.
- **LoginPage**: the login form.

The HTTP request is a parameter of type `Transport`: either a response body
with optional `error` and `predictions` fields, or a thrown failure. The
entry id and date are parameters as well.

## Model

| member | source | states |
|---|---|---|
| JsString.Lower | src/pages/Index.tsx:1172 | `toLowerCase` keeps the length and maps each character independently: letters A-Z become lower case, everything else is unchanged |
| JsString.IsSpace | src/pages/Index.tsx:1149 | defines the characters `trim` removes and `\s` matches: the ECMAScript WhiteSpace and LineTerminator characters |
| JsString.TrimStart | src/pages/Index.tsx:1172 | the leading-whitespace strip never lengthens its input and leaves no whitespace at the front |
| JsString.TrimStartDrops | src/pages/Index.tsx:1172 | what the strip keeps is a suffix of the input, and the prefix it drops is all whitespace |
| JsString.TrimEnd | src/pages/Index.tsx:1172 | the trailing-whitespace strip never lengthens its input and leaves no whitespace at the end |
| JsString.TrimEndDrops | src/pages/Index.tsx:1172 | what the strip keeps is a prefix of the input, and the suffix it drops is all whitespace |
| JsString.Trim | src/pages/Index.tsx:1172 | `trim` never lengthens its input and leaves no whitespace at either end of a non-empty result |
| JsString.TrimSlice | src/pages/Index.tsx:1172 | `trim` yields a contiguous slice of its input with only whitespace on either side |
| JsString.TrimEmptyIff | src/pages/Index.tsx:1149 | a string trims to empty exactly when every character is whitespace |
| JsString.TrimStartPadded | src/pages/Index.tsx:1172 | whitespace in front of a string that starts with a non-space is exactly what the leading strip removes |
| JsString.TrimEndPadded | src/pages/Index.tsx:1172 | whitespace after a string that ends with a non-space is exactly what the trailing strip removes |
| JsString.TrimPadded | src/pages/Index.tsx:1172 | `trim` removes exactly the whitespace padding around a string whose ends are not whitespace |
| Symptoms.Split | src/pages/Index.tsx:1172 | `split(/[,;]/)` yields one more piece than there are separators |
| Symptoms.SplitRebuilds | src/pages/Index.tsx:1172 | putting the separators back between the pieces rebuilds the input exactly |
| Symptoms.SplitPieces | src/pages/Index.tsx:1172 | no piece contains a separator, and lower-case input gives lower-case pieces |
| Symptoms.TrimAll | src/pages/Index.tsx:1172 | `.map(s => s.trim())` keeps the number of pieces and trims each piece in place |
| Symptoms.NonEmptyOnly | src/pages/Index.tsx:1172 | `.filter(s => s)` keeps only non-empty strings taken from its input |
| Symptoms.NonEmptyOnlyKeeps | src/pages/Index.tsx:1172 | the filter never lengthens its input; a string is kept exactly when it is in the input and non-empty; a list with no empty string is kept whole. With `NonEmptyOnlyConcat` this pins down the order |
| Symptoms.NonEmptyOnlyConcat | src/pages/Index.tsx:1172 | filtering a concatenation filters each part and keeps the parts in order |
| Symptoms.Normalise | src/pages/Index.tsx:1172 | every token is non-empty, lower-case, has no whitespace at either end and contains no `,` or `;` |
| Symptoms.NormaliseKeepsSymptomText | src/pages/Index.tsx:1172 | once whitespace and separators are set aside, the tokens hold the same characters as the lower-cased input, in order. Whitespace inside a token is kept by the normaliser but not compared here, so "sore throat" contributes "sorethroat". Nothing of substance is lost or invented |
| Symptoms.NormaliseEmptyIff | src/pages/Index.tsx:1172 | the normaliser yields no symptom exactly when the input consists only of whitespace, commas and semicolons |
| Symptoms.SplitNoSeparator | src/pages/Index.tsx:1172 | text without a separator is not split |
| Symptoms.SplitAtSeparator | src/pages/Index.tsx:1172 | the first separator ends the first piece |
| Symptoms.NormaliseAtSeparator | src/pages/Index.tsx:1172 | text cut at a comma or semicolon normalises to the symptoms of the left part followed by those of the right part |
| Symptoms.NormalisePiece | src/pages/Index.tsx:1172 | text without a separator yields its trimmed lower-cased self, or nothing if that is empty |
| Symptoms.TokenNormalises | src/pages/Index.tsx:1172 | a well-formed token normalises to exactly itself |
| Symptoms.NormaliseJoined | src/pages/Index.tsx:1172 | tokens joined with commas or semicolons normalise back to the same list: joining and normalising are inverses on well-formed lists |
| Symptoms.NormalisePadded | src/pages/Index.tsx:1172 | a separator-free piece whose lower-cased form is a token padded with whitespace yields exactly that token |
| Symptoms.NormaliseCons | src/pages/Index.tsx:1172 | a piece yielding one token, then a separator, then text yielding a list: the token is followed by that list |
| Symptoms.ExampleTail | src/pages/Index.tsx:1172 | a both-sides-padded piece, a semicolon and a front-padded piece yield their two tokens in order |
| Symptoms.ExampleHead | src/pages/Index.tsx:1172 | an unpadded piece, a comma and text yielding a list give the piece's token followed by that list |
| Symptoms.ExampleShape | src/pages/Index.tsx:1172 | three pieces shaped like the worked example yield their three tokens in order |
| Symptoms.ExampleTokens | src/pages/Index.tsx:1172 | "fever", "headache" and "sore throat" are well-formed tokens |
| Symptoms.LowerFever | src/pages/Index.tsx:1172 | `toLowerCase` turns "Fever" into "fever", which holds no separator |
| Symptoms.LowerHeadache | src/pages/Index.tsx:1172 | `toLowerCase` turns " Headache " into " headache ", which holds no separator |
| Symptoms.LowerSoreThroat | src/pages/Index.tsx:1172 | `toLowerCase` keeps " sore throat", which holds no separator |
| Symptoms.ExampleCut | src/pages/Index.tsx:1172 | "Fever, Headache ; sore throat" is "Fever", a comma, " Headache ", a semicolon and " sore throat" |
| Symptoms.NormaliseExample | src/pages/Index.tsx:1172 | "Fever, Headache ; sore throat" is sent as the symptoms "fever", "headache" and "sore throat" |
| Validators.IsBlank | src/pages/Index.tsx:389 | defines `!s.trim()`: the text is empty once trimmed. `BlankIff` gives its meaning |
| Validators.BlankIff | src/pages/Index.tsx:389 | `!s.trim()` holds exactly when the text is all whitespace |
| Validators.IndexFrom | src/pages/Index.tsx:394 | the first occurrence of a character at or after a position, or the length if there is none |
| Validators.LastIndexBefore | src/pages/Index.tsx:394 | the last occurrence of a character below a position, or -1 if there is none |
| Validators.MatchesEmailPattern | src/pages/Index.tsx:394 | defines what `^\S+@\S+\.\S+$` accepts: some '@' and a later '.' cut the string into three non-empty runs without whitespace |
| Validators.IsEmail | src/pages/Index.tsx:394 | the scan accepts a string exactly when `^\S+@\S+\.\S+$` matches it |
| Validators.EmailPatternExamples | src/pages/Index.tsx:394 | `a@b.c` matches; `a@bc`, `a@.c` and `a @b.c` do not |
| Validators.IsTwelveDigits | src/pages/Index.tsx:749 | defines `/^[0-9]{12}$/`: exactly twelve characters, each a decimal digit |
| Validators.AadharExamples | src/pages/Index.tsx:749 | twelve digits pass; eleven digits, or a letter among twelve characters, fail |
| Validators.EmailNotBlank | src/pages/Index.tsx:389-394 | an address that matches the pattern is never blank |
| AppState.App.constructor | src/pages/Index.tsx:1605-1609 | the app starts on the home page, logged out, with no profile and an empty history |
| AppState.App.Navigate | src/pages/Index.tsx:1606 | `setCurrentPage` changes only the page |
| AppState.App.Logout | src/pages/Index.tsx:1611-1615 | logging out clears the login flag and the profile and returns home; the diagnosis history is kept |
| DiagnosisPage.IsTruthy | src/pages/Index.tsx:1184 | defines `if (data.error)` for a string field: present and non-empty. `EmptyErrorIsIgnored` shows the empty string is falsy |
| DiagnosisPage.PredictionsOrEmpty | src/pages/Index.tsx:1194 | defines `data.predictions \|\| []`: the list when present, otherwise empty. `Classify` states its effect |
| DiagnosisPage.Classify | src/pages/Index.tsx:1184-1231 | a thrown request is a connection failure; a truthy `error` is a server error carrying that text, whatever the predictions; otherwise the outcome is a diagnosis exactly when `predictions` is present and non-empty, carrying that list unchanged |
| DiagnosisPage.Reply | src/pages/Index.tsx:1185-1231 | each outcome gets exactly one assistant message; only a diagnosis carries predictions. A server error shows the error text verbatim, an empty result the fixed retry prompt, a diagnosis the fixed analysis heading, and a failed request the fixed apology |
| DiagnosisPage.EmptyErrorIsIgnored | src/pages/Index.tsx:1184 | an empty `error` string is falsy and is classified as if there were no error |
| DiagnosisPage.ServerErrorWins | src/pages/Index.tsx:1184-1192 | a non-empty error is classified as a server error, so no history entry is made, and its text is the reply with no predictions, even when predictions are present |
| DiagnosisPage.UserMessage | src/pages/Index.tsx:1160-1163 | the user message carries the raw input and no predictions |
| DiagnosisPage.ReplyIsThreadMessage | src/pages/Index.tsx:1185-1228 | every reply is a well-formed assistant message |
| DiagnosisPage.AppendKeepsThread | src/pages/Index.tsx:1165-1231 | appending a well-formed message keeps the greeting first and the thread well formed; the appends are the user message at 1165 and the replies at 1189, 1202, 1214 and 1231 |
| DiagnosisPage.Gate | src/pages/Index.tsx:1149-1172 | blank input is rejected first, then a logged-out user; otherwise the normalised input is sent; the three cases are exclusive and exhaustive |
| DiagnosisPage.SeparatorsOnlySendNothing | src/pages/Index.tsx:1149-1175 | input of only commas, semicolons and whitespace, with at least one separator, is not blank, so it is sent as an empty symptom list |
| DiagnosisPage.DiagnosisSession.constructor | src/pages/Index.tsx:1138-1145 | the conversation starts with the greeting, an empty input and no analysis in progress |
| DiagnosisPage.DiagnosisSession.SetInput | src/pages/Index.tsx:1340 | the input box's handler sets the input |
| DiagnosisPage.DiagnosisSession.Submit | src/pages/Index.tsx:1147-1169 | a rejected send changes no message, input or flag, and a logged-out rejection opens the login page; an accepted send appends the user message, clears the input and raises `isAnalyzing` |
| DiagnosisPage.DiagnosisSession.Resolve | src/pages/Index.tsx:1181-1234 | after the request exactly one assistant message is appended and `isAnalyzing` is false on every path; the history grows by one entry (normalised symptoms, the full prediction list) exactly on a diagnosis, and earlier entries are unchanged |
| DiagnosisPage.DiagnosisSession.HandleSend | src/pages/Index.tsx:1147-1235 | the whole handler: a rejected send leaves messages, input, flag and history unchanged; an accepted send grows the messages by exactly the user message and one reply, clears the input, ends with `isAnalyzing` false, and appends a history entry only on a diagnosis |
| DiagnosisPage.ShownPredictions | src/pages/Index.tsx:1283-1309 | a message shows the primary prediction and up to two others: the first three predictions in the service's order |
| DiagnosisPage.FourPredictionsExample | src/pages/Index.tsx:1283-1309 | with four predictions, all four are stored and the first three are shown |
| ReportsPage.NewestFirst | src/pages/Index.tsx:1390 | `[...history].reverse()` lists entry `k` from the end at position `k` |
| ReportsPage.NewestOnTop | src/pages/Index.tsx:1390 | the entry a diagnosis appends is listed first, followed by the earlier ones in their previous order |
| ReportsPage.NewestFirstTwice | src/pages/Index.tsx:1390 | reversing twice gives back the stored order |
| HomePage.NextIndex | src/pages/Index.tsx:375 | the next testimonial index stays in range and is the following one, wrapping from the last to the first |
| HomePage.PreviousIndex | src/pages/Index.tsx:507 | the previous testimonial index stays in range and is the preceding one, wrapping from the first to the last |
| HomePage.NextUndoesPrevious | src/pages/Index.tsx:507-514 | going back and then forward restores the index |
| HomePage.PreviousUndoesNext | src/pages/Index.tsx:507-514 | going forward and then back restores the index |
| HomePage.Advance | src/pages/Index.tsx:374-376 | the index after any number of timer ticks is in range |
| HomePage.AdvanceIsRotation | src/pages/Index.tsx:374-376 | the timer visits the testimonials cyclically and is back at the start after one full round |
| HomePage.CheckContact | src/pages/Index.tsx:386-397 | a contact message is sent exactly when name and message are not all whitespace and the address matches the e-mail pattern; a blank field is reported first |
| HomePage.Home.constructor | src/pages/Index.tsx:370-371 | the carousel starts at the first testimonial and the contact form is empty |
| HomePage.Home.ShowNext | src/pages/Index.tsx:375 | the timer and the right arrow move to the next index, keeping it in range |
| HomePage.Home.ShowPrevious | src/pages/Index.tsx:507 | the left arrow moves to the previous index, keeping it in range |
| HomePage.Home.Select | src/pages/Index.tsx:498 | a dot selects its own testimonial |
| HomePage.Home.EditContact | src/pages/Index.tsx:599-626 | the form fields' handlers set the contact fields |
| HomePage.Home.SubmitContact | src/pages/Index.tsx:386-401 | the form is cleared exactly when the message is sent, and left as it was otherwise |
| SignupPage.AgeRejected | src/pages/Index.tsx:745 | defines `ageNum < 1 \|\| ageNum > 120` on a JavaScript number, where a comparison with NaN is false. `AgeCheckMeaning` gives its meaning |
| SignupPage.AgeCheckMeaning | src/pages/Index.tsx:744-748 | a finite age passes exactly when it lies in [1, 120]; a value that is not a number also passes, because both comparisons are false |
| SignupPage.StepError | src/pages/Index.tsx:738-768 | a step's checks pass exactly when its validators hold. Step 1 needs a trimmed name of at least 3 characters, an age in range, a 12-digit Aadhar number and a gender. Step 2 needs a matching e-mail and an 8-character password. Step 3 has none. The first failing check is reported: name, age, Aadhar, gender at step 1; e-mail, then password at step 2 |
| SignupPage.SignupWizard.constructor | src/pages/Index.tsx:724-733 | the wizard starts at step 1 with an empty form |
| SignupPage.SignupWizard.EditForm | src/pages/Index.tsx:839 | the fields' handlers set the form |
| SignupPage.SignupWizard.HandleNext | src/pages/Index.tsx:738-771 | the step stays in {1,2,3} and goes up by one only when the current step's checks pass and it is below 3 |
| SignupPage.SignupWizard.HandleBack | src/pages/Index.tsx:774-776 | the step stays in {1,2,3} and goes down by one only when it is above 1 |
| SignupPage.SignupWizard.Submit | src/pages/Index.tsx:786-795 | submitting stores the profile, logs the user in and opens the diagnosis page, with no further check |
| LoginPage.CheckLogin | src/pages/Index.tsx:1045-1056 | a login succeeds exactly when the password is not all whitespace and the address matches the e-mail pattern; a blank field is reported first |
| LoginPage.LoginForm.constructor | src/pages/Index.tsx:1035-1036 | the form starts empty |
| LoginPage.LoginForm.Edit | src/pages/Index.tsx:1089-1103 | the fields' handlers set e-mail and password |
| LoginPage.LoginForm.Submit | src/pages/Index.tsx:1045-1061 | a successful login sets the login flag and opens the diagnosis page; a failed one changes nothing; the stored profile is never touched |

## Left out

- The `axios.post` request to the prediction service. It is the `Transport`
  parameter. A `data` that is null or undefined makes reading its fields
  throw, so it is a `TransportFailure`. Any other `data` that is not an
  object (a string, a number, a boolean) carries neither field, so it is
  `Responded(ResponseBody(None, None))` and leads to the retry prompt.
- `Date.now()` and `new Date().toISOString()`: the entry id and date are
  parameters of `Resolve` and `HandleSend`.
- The asynchronous suspension inside `handleSend`, React's batching of state
  updates, and the stale `diagnosisHistory` captured by the closure. The
  model runs the handler as one sequential step.
- Unmounting. A `DiagnosisSession` stands for one mount of the diagnosis
  page. The logged-out redirect unmounts the page, and that discards its
  messages and input. The model keeps the session object instead.
- `alert` and `console.error`. Each alert text is named in a comment next to
  the outcome or the method that raises it.
- JSX rendering and styling, and the Navbar, Footer, About, Profile and
  Feedback pages.
- The contents of the testimonials. Only their count (3) is modelled.
- `setInterval` timing. `HomePage.Home.ShowNext` is one tick.
- Confidence formatting (`(confidence * 100).toFixed(1)`). Confidences are
  real numbers and are only carried along.
- `Number(formData.age)` parsing. `HandleNext` takes the parsed JavaScript
  number, including NaN and the infinities.
- Non-ASCII case mapping in `toLowerCase`. `JsString.Lower` maps only A-Z.
- UTF-16 code units: strings are sequences of Dafny characters.
- An `error` field that is truthy but not a string, and a `predictions`
  field that is not an array.
- `DiagnosisPage.Gate`: states the blank check as "all whitespace".
  `Validators.BlankIff` proves this equivalent to `!input.trim()`; the
  trim-based form is not used there, to keep the proofs small.
- `DiagnosisPage.DiagnosisSession.Resolve`: requires the symptoms to be
  normaliser tokens, which is what `Submit` hands it.
