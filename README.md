# Age & gender predictor: controller model

A Dafny model of a single-page client that lets a user pick a face photo,
posts it to a prediction endpoint, and shows the age and gender it returns.

The model covers three parts of the program:

- **The application controller** (`App.Controller`, module `App`). It is a class with the five state cells of
  `src/App.tsx`: `selectedFile`, `previewUrl`, `result`, `loading` and `error`.
  Its methods are the event handlers, which set those cells in the order the source sets them:
  - file selection, through `clearFileState` and `updateFileState`;
  - the predict action;
  - the single POST and what follows it.

  The network exchange is the method's input (`Api.FetchOutcome`). It is either a transport failure with a message,
  or an HTTP status with a body. The body either parsed to a JSON value (`JsonValues.Json`) or failed to parse,
  with a message. A ghost log, `requests`, records every POST the controller sends.
  `URL.createObjectURL` is modelled as allocating a fresh `ObjectUrl` object tied to its file.
- **The response checks** (module `Api`): `checkResponseOk`, `throwIfDataInvalid`, and the JavaScript semantics
  they depend on (property reads on `null`, `typeof`, `includes`, `${status}`). They are written as functions.
  `Api.Expected` is a separate reference definition of how one request ends for each outcome.
  The predict handler is proved against it.
- **The result view's label transform** (module `PredictionResult`): `prettyGender` capitalises the first letter.

`Controller.Valid()` states that a stored result and an error message never coexist.
Between events, no request is in flight. The preview is exactly the selected file.
A stored result comes with a selected file and an empty error. It always has the gender "Male" or "Female".

An "ok" status means 200 to 299, as in the WHATWG Fetch Living Standard, section 2.2.3 (Statuses).

Four behaviours of the code are worth noting:
- Selecting no file keeps the current error message. Only an invalid or a valid file changes it.
- Predicting without a file changes only the error message. A stored result stays.
- A `null` body does not produce the format message. Reading `data.age` throws a TypeError, and the model uses
  V8's wording of it.
- The result view has one form, which requires a gender. No age-only variant exists in these files.

## Model

| member | source | states |
|---|---|---|
| `App.IsImageType` | src/App.tsx:21 | a media type counts as an image exactly when its first six characters are "image/" |
| `App.FirstFile` | src/App.tsx:18 | the chosen file exists exactly when the list exists and is non-empty, and it is the list's first element |
| `App.BuildForm` | src/App.tsx:81-85 | the form has exactly one entry: the field `image` holding the file |
| `App.PredictionRequest` | src/App.tsx:87-90 | the request is a POST to the fixed endpoint whose body is the single `image` field |
| `App.ObjectUrl.constructor` | src/App.tsx:39 | a preview reference is a new object tied to the file it shows |
| `Api.IsOkStatus` | src/App.tsx:93 | a status is ok exactly when it is in the 2xx class |
| `Api.ServerErrorMessage` | src/App.tsx:94 | the message is "Server error: " followed by the decimal status |
| `Api.ToPrediction` | src/App.tsx:61 | the stored record is the payload's own `age` and `gender`, and the gender is "Male" or "Female" |
| `Api.Expected` | src/App.tsx:56-96 | a request can only store a result after an ok response, and that result's gender is "Male" or "Female" |
| `JsonValues.Get` | src/App.tsx:99-100 | reading `age` or `gender` throws a TypeError exactly on `null`; it is defined exactly for an object that has that key, and gives that field |
| `JsonValues.TypeOf` | src/App.tsx:99 | `typeof` is "number" exactly for a number, "string" exactly for a string, "undefined" exactly for a missing property |
| `JsonValues.Includes` | src/App.tsx:100 | `includes` holds exactly when the value is a string equal, case included, to some element of the list |
| `Decimal.DecimalString` | src/App.tsx:94 | the rendering of the status is a non-empty run of decimal digits with no leading zero |
| `Decimal.ParseDecimalString` | src/App.tsx:94 | reading the rendered numeral back gives the status it came from |
| `Decimal.DecimalStringInjective` | src/App.tsx:94 | two statuses with the same rendering are equal |
| `Api.CheckResponseOk` | src/App.tsx:92-96 | the check passes exactly for a status from 200 to 299, and otherwise throws "Server error: " followed by the status |
| `Api.ServerErrorMessageInjective` | src/App.tsx:94 | the server-error message determines the status it reports |
| `Api.ServerErrorIsNotFormatMessage` | src/App.tsx:94 | a server error can never be confused with the format error |
| `Api.ThrowIfDataInvalid` | src/App.tsx:98-105 | a payload passes exactly when it is an object whose `age` is a number and whose `gender` is exactly "Male" or "Female"; otherwise it throws the null TypeError for `null` and the fixed format message for every other value |
| `Api.ExpectedSucceedsIff` | src/App.tsx:56-79 | a request stores a result exactly when the status is ok, the body parses, and the payload passes the allow-list |
| `Api.ExpectedSuccessValue` | src/App.tsx:61 | a stored result is the payload's own `age` and `gender`, and its gender is "Male" or "Female" |
| `Api.ExpectedNonOkStatus` | src/App.tsx:72-77 | every status outside 200 to 299 ends in "Server error: <status>", whatever the body |
| `Api.ExpectedRejectsShape` | src/App.tsx:59-63 | an ok response whose parsed body fails the allow-list ends in the format message, or in the null TypeError for `null` |
| `Api.ExpectedExamples` | src/App.tsx:98-105 | 29/"Male" is stored; 500 gives "Server error: 500"; a string age, "Unknown", "male" and a missing gender are all rejected |
| `App.Controller.constructor` | src/App.tsx:10-14 | the initial state: no file, no preview, no result, not loading, empty error, no request sent |
| `App.Controller.PredictEnabled` | src/App.tsx:121 | the Predict button is enabled exactly when no request is in flight and a file is selected |
| `App.Controller.ClearFileState` | src/App.tsx:29-33 | file, preview and result become null; error, loading flag and request log stay as they were |
| `App.Controller.UpdateFileState` | src/App.tsx:35-40 | error becomes empty, result null, the file is stored, and the preview is a new reference to that file |
| `App.Controller.HandleFileChange` | src/App.tsx:17-27 | no file clears file, preview and result and keeps the error; a non-image clears them and sets "Please upload a valid image file."; an image clears error and result and stores the file with a fresh preview; no request is sent, the invariant is kept, and Predict is enabled exactly when a file is now selected |
| `App.Controller.GetPredictionResponse` | src/App.tsx:68-90 | one POST of the form with the single field `image` is sent to the endpoint; a transport failure or a non-ok status shows its message and is rethrown; an ok response is returned with the error untouched; it is only called while the loading flag is set |
| `App.Controller.PostAndUpdateResult` | src/App.tsx:56-66 | after the one POST, the result is the reference outcome's prediction with the error untouched, or the error is the reference outcome's message with the result untouched; the file, preview and loading flag do not change; it is only called while the loading flag is set |
| `App.Controller.HandlePredict` | src/App.tsx:42-53 | without a file: error "Please upload an image first.", no request, result and everything else unchanged; with a file: exactly one request, loading false at the end, and either the result from the payload with an empty error, or no result with the failure's message; Predict is enabled afterwards exactly when a file is selected |
| `PredictionResult.ToUpperAscii` | src/PredictionResult.tsx:7 | a lower-case ASCII letter becomes the capital at the same position in the alphabet; every other character is unchanged; ASCII stays ASCII |
| `PredictionResult.PrettyGender` | src/PredictionResult.tsx:7 | the label keeps its length, and every character after the first is unchanged |
| `PredictionResult.PrettyGenderEmpty` | src/PredictionResult.tsx:7 | the empty label maps to the empty label |
| `PredictionResult.PrettyGenderFirst` | src/PredictionResult.tsx:7 | the first character is the upper-case form of the input's first character, and an ASCII label stays ASCII |
| `PredictionResult.PrettyGenderFixed` | src/PredictionResult.tsx:7 | a label that does not start with a lower-case letter is shown unchanged |
| `PredictionResult.PrettyGenderOfGenders` | src/PredictionResult.tsx:7 | "Male" and "Female", the only genders validation admits, are shown unchanged, and "male" and "female" are shown as "Male" and "Female" |
| `PredictionResult.PrettyGenderIdempotent` | src/PredictionResult.tsx:7 | capitalising twice equals capitalising once |

## Left out

- Rendering: the JSX of `App`, `PredictionResult`, `ImageArea` and `UploadButton` is markup. The file input's `accept` attribute is not modelled. The build configuration is not modelled either.
- `fetch`, `FormData` and `URL.createObjectURL` are browser calls. They are modelled as an input outcome, a form datatype and a fresh `ObjectUrl` object. The bytes actually sent and the URL string are not modelled. Preview references are never released, as in the source.
- `console.error` logging is a side effect only.
- Concurrency: React's batched state updates, the `await` interleaving, a file chosen while a request is in flight, and a late response overwriting newer state. `Controller.Valid()` assumes that each event handler runs to completion before the next event, so loading is false between events.
- The await is not modelled, so no state between the request and its end is observable. `GetPredictionResponse` and `PostAndUpdateResult` require the loading flag to be set and leave it unchanged; `HandlePredict` sets it before that call and clears it after.
- JavaScript numbers: `age` is an exact real. Negative zero and float rounding are not represented. A literal too large for a double, such as `1e400`, which JavaScript reads as an infinity, appears in the model as its exact real value.
- JsonValues.Get: it models reads of only the two keys the controller uses ("age" and "gender"). Built-in properties of strings and arrays, such as `length`, are not modelled.
- JsonValues.NullReadMessage: the TypeError's wording depends on the engine; V8's wording is used.
- A JSON object is a map, so a duplicate key keeps one value. `JSON.parse` also keeps only the last value.
- PredictionResult.PrettyGender: the model upper-cases only `a` to `z`. JavaScript's `toUpperCase` applies full Unicode case mapping, which can change other characters and even the length (`ß` becomes `SS`). UTF-16 surrogate pairs split by `charAt(0)` are not modelled either.
