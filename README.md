# Voice enrolment and verification: session controller and backend checks

This project models the two pieces of logic in a small voice-recognition
application that can be stated and checked:

* **The client's session controller** (`client/src/App.js`). One React
  component holds eight state fields: the staged file, the user name, the
  user list, the loading flag, the message, the active tab, the drag
  highlight and the last prediction. Its event handlers update those fields.
  The model is the class `App.Session`, with one method per handler. Each
  method's postcondition gives the whole new state as an update of the old
  one: `State() == old(State()).(...)`. Its object invariant `Valid()` says
  that only a WAV file is ever staged. Each asynchronous submission is split
  in two:
  * `BeginTrain`/`BeginPredict` cover validation, setting `loading`, and
    clearing the prediction. They return the values the handler's closure
    captures: the file, the name and the tab.
  * `CompleteTrain`/`CompletePredict` take an explicit outcome and apply it
    unconditionally. The component keeps no request token.
* **The backend's request checks and model-file naming** (`backend/app.py`),
  in module `Backend`. This covers:
  * the early returns shared by `/train-model` and `/predict`;
  * the `models/model_{name}.pkl` naming scheme;
  * the `/users` listing that maps file names back to user names, using
    Python's replace-every-occurrence `str.replace` (module `PyStrings`);
  * the training label vector;
  * the boolean a classifier label becomes.

  These inputs are given rather than modelled:
  * Directory listings are sequences of file names.
  * The existing files are a set of paths.
  * The trained classifier is an opaque function returning an integer label.

Module `Gateway` connects the two sides. It builds the multipart body the
client sends and turns a backend response into the outcome the client's
completion step receives: axios treats a status outside 2xx as a thrown
error.

Some behaviour of the component is worth stating outright: a tab switch
does not clear the last prediction; a negative prediction is stored as
`false` but reported with an error message; the user list keeps insertion
order.

## Model

| member | source | states |
|---|---|---|
| `App.Session.constructor` | client/src/App.js:24-31 | Initial state: no file, empty name, no users, not loading, no message, tab 0, no drag highlight, prediction `null`; the invariant holds |
| `App.Stage` | client/src/App.js:55-62 | The message is cleared exactly when the candidate is a present `audio/wav` file, which then becomes the staged file; otherwise the staged file is kept and the format error is set; a WAV-only slot stays WAV-only |
| `App.Session.HandleFile` | client/src/App.js:55-62 | Only the file and the message change, as `Stage` says; the staged file stays WAV |
| `App.Session.HandleFileChange` | client/src/App.js:64-68 | With a first picked file, the same check as `handleFile`; with none, nothing changes |
| `App.DragActiveAfter` | client/src/App.js:71-79 | `dragenter`/`dragover` highlight, `dragleave` unhighlights, any other event type keeps the highlight |
| `App.Session.HandleDrag` | client/src/App.js:71-79 | Only the drag highlight changes, as `DragActiveAfter` says |
| `App.Session.HandleDrop` | client/src/App.js:81-89 | The highlight always goes off; with a first dropped file, the same check as `handleFile`; otherwise nothing else changes |
| `App.Session.ChangeUserName` | client/src/App.js:229 | Only the user name changes |
| `App.FormError` | client/src/App.js:150-160 | The form is valid exactly when the name is non-empty and a file is staged; an empty name gives the name error even when the file is missing too; otherwise a missing file gives the file error |
| `App.Session.ValidateForm` | client/src/App.js:150-160 | Returns whether `FormError` finds nothing; on failure only the message changes, to that error; on success nothing changes |
| `App.Session.BeginTrain` | client/src/App.js:92-99 | An invalid form sends nothing and changes only the message, leaving `loading` and the prediction alone; a valid one sets only `loading` and returns the staged file, the name and the tab the closure captured (only the file and the name are sent, by `Gateway.FormDataOf`); a returned file is always a WAV |
| `App.Session.ResetForm` | client/src/App.js:170-175 | Drops the staged file, and clears the name only when the tab the closure saw was tab 0 |
| `App.Session.CompleteTrain` | client/src/App.js:101-115 | Success: the server's message, the submitted name inserted into the current users, the file dropped, the name cleared when submitted from tab 0. Error: users kept, error message shown. `loading` ends false either way |
| `App.Session.BeginPredict` | client/src/App.js:118-126 | An invalid form changes only the message; a valid one sets `loading`, sets the prediction to `null`, and returns the captured file, name and tab (only the file and the name are sent); a returned file is always a WAV |
| `App.PredictionOf` | client/src/App.js:135 | The stored prediction is never `null` after a response: it is the response's boolean, or `undefined` when the body has none |
| `App.Session.CompletePredict` | client/src/App.js:128-146 | A response stores its prediction, and only `true` gives the success message; a thrown error keeps the prediction and shows an error; `loading` ends false in every case |
| `App.Session.Submit` | client/src/App.js:221-222 | Tab 0 begins a training submit and any other tab a predict submit. While `loading`, the disabled button (line 289) makes a submit do nothing |
| `App.Session.HandleTabChange` | client/src/App.js:177-181 | Sets the tab; clears the message and the file; clears the name only when the tab being left was 0; leaves users, prediction and `loading` alone |
| `App.Session.CompleteFetchUsers` | client/src/App.js:34-41 | Success replaces the users with the fetched list; failure keeps them and shows the error |
| `App.ResultColor` | client/src/App.js:48-52 | Green exactly for a `true` prediction, red exactly for `false`, `inherit` exactly when there is no boolean |
| `App.InsertUser` | client/src/App.js:108 | The new list holds the new name and every earlier user, nothing else, and no element twice |
| `App.Dedup` | client/src/App.js:108 | `[...new Set(s)]` never grows the list |
| `App.DedupMembers` | client/src/App.js:108 | Deduplication keeps exactly the elements of its input |
| `App.DedupDistinct` | client/src/App.js:108 | Deduplication leaves no element twice |
| `App.DedupKeepsFirstOccurrenceOrder` | client/src/App.js:108 | Deduplication lists elements by increasing index of their first occurrence, as a JavaScript `Set` does |
| `App.DedupOfDistinct` | client/src/App.js:108 | A list without repetitions is its own deduplication |
| `App.InsertUserIdempotent` | client/src/App.js:108 | Inserting the same name twice equals inserting it once |
| `App.InsertUserIntoDistinct` | client/src/App.js:108 | Into a list without repetitions, a known name changes nothing and a new name is appended at the end |
| `Backend.CheckUpload` | backend/app.py:66-73 | A missing `file` part or `name` field gives 400 "Missing file or name"; only with both present does an empty file name give 400 "No selected file"; otherwise the file and the name go on |
| `Backend.ModelFileName` | backend/app.py:31 | The model file name starts with `model_`, ends in `.pkl`, and the name is exactly what lies between the two |
| `Backend.ModelPath` | backend/app.py:31 | The path is `models/model_` + name + `.pkl`, the same string `predict` checks at line 129 |
| `Backend.ModelPathInjective` | backend/app.py:31 | Distinct user names get distinct model paths, so one user's training never overwrites another's model |
| `Backend.ConfusionMatrixPath` | backend/app.py:60 | The confusion-matrix image in the models directory ends in `.png` and never in `.pkl`, so the `/users` listing skips it |
| `Backend.JoinPath` | backend/app.py:43 | `os.path.join` of a directory and a relative name: the directory, one `/`, then the name, which the path ends with |
| `PyStrings.EndsWith` | backend/app.py:42 | `str.endswith`, used at lines 42 and 107: the suffix occurs in the string at its last possible position |
| `PyStrings.ReplaceAll` | backend/app.py:108 | Python's `str.replace`: a replacement no longer than the pattern never lengthens the string |
| `PyStrings.ReplaceAllWithoutOccurrence` | backend/app.py:108 | A string without the pattern is unchanged by the replacement |
| `Backend.UserNameOf` | backend/app.py:108 | Removing every `model_` and then every `.pkl` never lengthens a file name |
| `Backend.EntriesEndingWith` | backend/app.py:106-107 | The filtered listing is no longer than the listing and holds only listed files with the suffix |
| `Backend.EntriesEndingWithMembers` | backend/app.py:106-107 | A file is kept exactly when it is listed and has the suffix |
| `Backend.EntriesEndingWithAppend` | backend/app.py:106-107 | Filtering distributes over concatenated listings, so entries keep the listing order |
| `Backend.GetUsers` | backend/app.py:103-110 | A 200 list with exactly one name per listed `.pkl` file, in listing order, each the file's extracted name; other files are ignored |
| `Backend.UserNameOfModelFileName` | backend/app.py:108 | Round trip: for a name without `model_` or `.pkl`, the name extracted from the file `save_model` writes (line 31) is the name |
| `Backend.SavedUserIsListed` | backend/app.py:104-110 | A saved model of such a name in the listing makes the name appear among the listed users |
| `Backend.PrefixedNameIsListedShortened` | backend/app.py:108 | Without that condition the round trip fails: users `model_x` and `x` are both listed as `x` |
| `Backend.LoadOthersData` | backend/app.py:36-50 | One sample per `.wav` file of the others directory, in listing order, each joined to the directory path and labelled 0 |
| `Backend.TrainModel` | backend/app.py:65-99 | A rejected request answers the check's 400 and trains and writes nothing. Otherwise the labels are one 1 followed by one 0 per others `.wav` file, aligned with the samples (the upload first); the remaining samples are the others `.wav` files joined to the directory, in listing order; the confusion-matrix image and then `ModelPath(name)` are written |
| `Backend.ClassLabel` | backend/app.py:138 | The prediction is true exactly when the classifier's label is 1 |
| `Backend.Predict` | backend/app.py:114-140 | The check's 400 first; then 400 "Model for user … not found!" when the model path does not exist; status 200 exactly when the request passes and the model exists, with `prediction` true iff the label is 1 |
| `Backend.PredictFindsSavedModel` | backend/app.py:129-131 | Once the path `save_model` writes exists, `predict` for that name answers 200 |
| `Gateway.FormDataOf` | client/src/App.js:97-99 | The request carries the `file` part with the staged file's name and bytes and the `name` field with the submitted name |
| `Gateway.IsSuccessStatus` | client/src/App.js:101-115 | axios resolves only a 2xx status: the backend's 200 succeeds, its 400 and a 500 are thrown errors |
| `Gateway.TrainOutcomeOf` | client/src/App.js:101-112 | A status outside 2xx reaches the client as an error; a 2xx answer passes its message on |
| `Gateway.PredictOutcomeOf` | client/src/App.js:128-143 | A status outside 2xx reaches the client as an error; a 2xx answer passes `data?.prediction`, absent exactly when the body has none |
| `Gateway.PredictEndToEnd` | backend/app.py:129-140 | For a client request with a named file: with the model present the client gets the classifier's verdict as a response, a negative one included; without it, the client gets an error |

## Left out

- Rendering and styling of the component (client/src/App.js:183-310). The one rule kept is the disabled submit button while `loading`, in `Session.Submit`.
- The HTTP stack: axios, Flask routing and CORS. Responses appear only as the outcome values the completion steps receive. The mount-time `useEffect` that starts `fetchUsers` is reduced to the fetch's completion, `CompleteFetchUsers`.
- Audio feature extraction (librosa MFCCs) and the SVC fit and prediction, which are floating-point numerics in foreign libraries. The classifier is an opaque function from the model path and the upload's bytes to an integer label.
- Failures inside those libraries are not modelled, and the model produces none of the server errors they raise. An undecodable upload makes `librosa.load` (backend/app.py:21) raise, from `train_model` (line 77) and from `predict` (line 126). An others directory without `.wav` files makes `np.vstack` (line 83) raise.
- Backend.Predict: checks for the model right after the request checks, while the source extracts the upload's features (backend/app.py:125-126) before the model check (lines 129-131). For an undecodable upload from a user without a model, the source answers with a 500 server error and the model with 400 "not found".
- Confusion-matrix plotting, pickle load and dump, `os.makedirs`, `os.listdir` and `os.path.exists` are file-system I/O. Listings are given sequences, existence is a given set of paths, and `TrainModel` returns the paths it writes.
- `get_users` and `load_others_data` take the listing in whatever order `os.listdir` returns it; the model does not fix that order.
- Backend.TrainModel: does not model names containing `/`. Such a name puts both written paths into sub-directories of `models/`: `./models/confusion_matrix_<prefix>/…png` (backend/app.py:60, reached from line 94) and `models/model_<prefix>/….pkl` (lines 31-32). Unless those sub-directories exist, `plt.savefig` or `open` raises and the source answers with a 500 server error, which the client shows as a training failure, keeping its users. The model answers 200 and returns both paths as written, because it treats paths as plain strings and has no directory structure. The round-trip lemmas likewise speak of the listed file name only.
- `console.error` logging in the client's error branches.
- client/src/components/AudioRecorder.js is not part of this model. App.js does not use it, and it posts to a `/train` endpoint the backend does not define.
- Microphone capture, object URLs, request tokens with stale-response discarding, request cancellation, and a check in the verify tab that the name is in the user list do not exist in client/src/App.js, so they are not modelled.
- Concurrency: React applies one handler's state updates together, and the model applies them in program order. Only the `loading` flag guards against a second submission.
- `Gateway.TrainOutcomeOf` requires a 2xx body to carry a message, as the backend's `TrainModel` guarantees. A 2xx body without one (`response.data.message` undefined) is not modelled.
