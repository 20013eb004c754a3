/**
 * The single-page client's session controller (client/src/App.js): one
 * component holding eight state fields, updated by its event handlers.
 *
 * Each asynchronous submission is split into a Begin step (the part before
 * the `await`) and a Complete step that receives the request's outcome.
 * Begin returns the Submission the handler's closure captured: the staged
 * file, the user name and the active tab at the time of the submit. The
 * completion steps apply unconditionally; the component keeps no request
 * token.
 */
module App {
  import opened Wrappers

  /** A browser `File`: its name, its reported MIME type and its bytes. */
  datatype AudioFile = AudioFile(name: string, mimeType: string, content: seq<bv8>)

  /** The `message` field: `""`, `{type: "error", text}` or `{type: "success", text}`. */
  datatype Message = NoMessage | ErrorMessage(text: string) | SuccessMessage(text: string)

  /** The `predictionResult` field: `null`, `undefined` (a response without `prediction`) or a boolean. */
  datatype Prediction = Null | Undefined | Value(matched: bool)

  /** What a submit handler's closure captured when the request was sent. */
  datatype Submission = Submission(file: AudioFile, userName: string, tab: int)

  /** How a `/train-model` request ended: a 2xx response with its message, or a thrown error. */
  datatype TrainOutcome = TrainOk(message: string) | TrainTransportError

  /** How a `/predict` request ended: a 2xx response with `data?.prediction`, or a thrown error. */
  datatype PredictOutcome = PredictOk(prediction: Option<bool>) | PredictTransportError

  /** How the `/users` request ended: a 2xx response with its list, or a thrown error. */
  datatype UsersOutcome = UsersOk(users: seq<string>) | UsersTransportError

  /** The eight state fields, as one value. */
  datatype SessionState = SessionState(
    file: Option<AudioFile>,
    userName: string,
    users: seq<string>,
    loading: bool,
    message: Message,
    activeTab: int,
    dragActive: bool,
    predictionResult: Prediction)

  const WavType := "audio/wav"
  const WavRequired := "Lütfen .wav dosyası yükleyin"
  const NameRequired := "Lütfen adınızı girin"
  const FileRequired := "Lütfen bir dosya seçin"
  const UsersUnavailable := "Kullanıcılar getirilemedi. Lütfen daha sonra tekrar deneyin."
  const TrainFailed := "Model eğitilemedi. Lütfen tekrar deneyin."
  const MatchConfirmed := "Ses eşleşmesi onaylandı! ✓"
  const MatchRejected := "Ses eşleşmesi başarısız ✗"
  const PredictFailed := "Ses tahmini yapılamadı. Lütfen tekrar deneyin."
  const MatchColor := "#4caf50"
  const MismatchColor := "#f44336"
  const NeutralColor := "inherit"

  /** The staged-file check of `handleFile`: a file is present and reports the WAV type. */
  predicate IsWav(candidate: Option<AudioFile>) {
    candidate.Some? && candidate.value.mimeType == WavType
  }

  /** The staged-file slot never holds a file of another type. */
  predicate StagedIsWav(file: Option<AudioFile>) {
    file.Some? ==> file.value.mimeType == WavType
  }

  /**
   * `handleFile`: the new staged file and message. A WAV file replaces the
   * staged one and clears the message; anything else, a missing file
   * included, keeps the staged file and sets the format error.
   */
  function Stage(staged: Option<AudioFile>, candidate: Option<AudioFile>): (r: (Option<AudioFile>, Message))
    ensures r.1 == NoMessage <==> IsWav(candidate)
    ensures IsWav(candidate) ==> r.0 == candidate
    ensures !IsWav(candidate) ==> r.0 == staged && r.1 == ErrorMessage(WavRequired)
    ensures StagedIsWav(staged) ==> StagedIsWav(r.0)
  {
    if IsWav(candidate) then (candidate, NoMessage) else (staged, ErrorMessage(WavRequired))
  }

  /**
   * `handleDrag`: entering or moving over the drop zone highlights it,
   * leaving it removes the highlight, and any other event keeps it.
   */
  function DragActiveAfter(eventType: string, active: bool): (r: bool)
    ensures (eventType == "dragenter" || eventType == "dragover") ==> r
    ensures eventType == "dragleave" ==> !r
    ensures eventType != "dragenter" && eventType != "dragover" && eventType != "dragleave" ==> r == active
  {
    if eventType == "dragenter" || eventType == "dragover" then true
    else if eventType == "dragleave" then false
    else active
  }

  /**
   * `validateForm`: the error it reports, if any. The name is checked
   * before the file, so an empty name wins over a missing file.
   */
  function FormError(userName: string, file: Option<AudioFile>): (err: Option<string>)
    ensures err.None? <==> userName != "" && file.Some?
    ensures userName == "" ==> err == Some(NameRequired)
    ensures userName != "" && file.None? ==> err == Some(FileRequired)
  {
    if userName == "" then Some(NameRequired)
    else if file.None? then Some(FileRequired)
    else None
  }

  /** `setPredictionResult(response.data?.prediction)` */
  function PredictionOf(prediction: Option<bool>): (r: Prediction)
    ensures r == Undefined <==> prediction.None?
    ensures r != Null
    ensures prediction.Some? ==> r == Value(prediction.value)
  {
    match prediction
    case None => Undefined
    case Some(b) => Value(b)
  }

  /** `getResultColor`: green for a confirmed match, red for a rejected one, otherwise inherited. */
  function ResultColor(p: Prediction): (color: string)
    ensures color == MatchColor <==> p == Value(true)
    ensures color == MismatchColor <==> p == Value(false)
    ensures color == NeutralColor <==> !p.Value?
  {
    match p
    case Value(true) => MatchColor
    case Value(false) => MismatchColor
    case _ => NeutralColor
  }

  /** No element occurs twice. */
  predicate Distinct(s: seq<string>) {
    forall i, j :: 0 <= i < j < |s| ==> s[i] != s[j]
  }

  /** The index of the first occurrence of `x` in `s`. */
  function FirstIndex(s: seq<string>, x: string): (k: nat)
    requires x in s
    ensures k < |s| && s[k] == x && x !in s[..k]
  {
    if s[0] == x then 0
    else
      var k := 1 + FirstIndex(s[1..], x);
      assert s[..k] == [s[0]] + s[1..][..k - 1];
      k
  }

  /** An occurrence that is the first one is the one FirstIndex finds. */
  lemma FirstIndexUnique(s: seq<string>, x: string, k: nat)
    requires k < |s| && s[k] == x && x !in s[..k]
    ensures FirstIndex(s, x) == k
  {
  }

  /**
   * `[...new Set(s)]`: a JavaScript Set keeps the first occurrence of each
   * element, in insertion order.
   */
  function Dedup(s: seq<string>): (r: seq<string>)
    ensures |r| <= |s|
  {
    if s == [] then []
    else
      var d := Dedup(s[..|s| - 1]);
      if s[|s| - 1] in d then d else d + [s[|s| - 1]]
  }

  /** Deduplication keeps exactly the elements of its input. */
  lemma {:induction false} DedupMembers(s: seq<string>)
    ensures forall x :: x in Dedup(s) <==> x in s
  {
    if s != [] {
      var init := s[..|s| - 1];
      DedupMembers(init);
      assert s == init + [s[|s| - 1]];
    }
  }

  /** Deduplication leaves each element exactly once. */
  lemma {:induction false} DedupDistinct(s: seq<string>)
    ensures Distinct(Dedup(s))
  {
    if s != [] {
      DedupDistinct(s[..|s| - 1]);
    }
  }

  /** A sequence without repetitions is its own deduplication. */
  lemma {:induction false} DedupOfDistinct(s: seq<string>)
    requires Distinct(s)
    ensures Dedup(s) == s
  {
    if s != [] {
      var init := s[..|s| - 1];
      assert Distinct(init);
      DedupOfDistinct(init);
      assert s[|s| - 1] !in init by {
        forall i | 0 <= i < |init| ensures init[i] != s[|s| - 1] {
          assert init[i] == s[i];
        }
      }
      assert s == init + [s[|s| - 1]];
    }
  }

  /** Appending an element keeps the first occurrences of the elements already present. */
  lemma {:induction false} FirstIndexOfPrefix(init: seq<string>, y: string, x: string)
    requires x in init
    ensures FirstIndex(init + [y], x) == FirstIndex(init, x)
  {
    if init[0] != x {
      assert (init + [y])[1..] == init[1..] + [y];
      FirstIndexOfPrefix(init[1..], y, x);
    }
  }

  /** The elements of `d` all occur in `s`, and `d` lists them by increasing first occurrence in `s`. */
  predicate InFirstOccurrenceOrder(s: seq<string>, d: seq<string>) {
    forall i, j :: 0 <= i < j < |d| ==> d[i] in s && d[j] in s && FirstIndex(s, d[i]) < FirstIndex(s, d[j])
  }

  /** The survivors of deduplication appear in the order of their first occurrences. */
  lemma {:induction false} DedupKeepsFirstOccurrenceOrder(s: seq<string>)
    ensures InFirstOccurrenceOrder(s, Dedup(s))
  {
    if s != [] {
      var init := s[..|s| - 1];
      var last := s[|s| - 1];
      assert s == init + [last];
      var d0 := Dedup(init);
      var d := Dedup(s);
      DedupMembers(init);
      DedupKeepsFirstOccurrenceOrder(init);
      forall i, j | 0 <= i < j < |d|
        ensures d[i] in s && d[j] in s && FirstIndex(s, d[i]) < FirstIndex(s, d[j])
      {
        assert d[i] == d0[i];
        FirstIndexOfPrefix(init, last, d0[i]);
        if j < |d0| {
          assert d[j] == d0[j];
          FirstIndexOfPrefix(init, last, d0[j]);
          assert FirstIndex(init, d0[i]) < FirstIndex(init, d0[j]);
        } else {
          assert last !in init && d[j] == last;
          FirstIndexUnique(s, last, |s| - 1);
          assert FirstIndex(init, d0[i]) < |init|;
        }
      }
    }
  }

  /**
   * `[...new Set([...prevUsers, userName])]`: the user list after a
   * successful enrolment holds every earlier user and the new one, each once.
   */
  function InsertUser(users: seq<string>, userName: string): (r: seq<string>)
    ensures userName in r
    ensures forall u :: u in users ==> u in r
    ensures forall u :: u in r ==> u in users || u == userName
    ensures Distinct(r)
  {
    DedupMembers(users + [userName]);
    DedupDistinct(users + [userName]);
    Dedup(users + [userName])
  }

  /** Inserting the same name twice is the same as inserting it once. */
  lemma InsertUserIdempotent(users: seq<string>, userName: string)
    ensures InsertUser(InsertUser(users, userName), userName) == InsertUser(users, userName)
  {
    var r := InsertUser(users, userName);
    DedupOfDistinct(r);
    assert (r + [userName])[..|r|] == r;
  }

  /**
   * Into a list without repetitions, an enrolled name already present
   * changes nothing, and a new one is appended at the end.
   */
  lemma InsertUserIntoDistinct(users: seq<string>, userName: string)
    requires Distinct(users)
    ensures InsertUser(users, userName) == if userName in users then users else users + [userName]
  {
    DedupOfDistinct(users);
    assert (users + [userName])[..|users|] == users;
  }

  /** The component's state (client/src/App.js:24-31). */
  class Session {
    var file: Option<AudioFile>
    var userName: string
    var users: seq<string>
    var loading: bool
    var message: Message
    var activeTab: int
    var dragActive: bool
    var predictionResult: Prediction

    function State(): SessionState
      reads this
    {
      SessionState(file, userName, users, loading, message, activeTab, dragActive, predictionResult)
    }

    /** Only a WAV file is ever staged. */
    ghost predicate Valid()
      reads this
    {
      StagedIsWav(file)
    }

    /** The `useState` initial values. */
    constructor ()
      ensures Valid()
      ensures State() == SessionState(None, "", [], false, NoMessage, 0, false, Null)
    {
      file := None;
      userName := "";
      users := [];
      loading := false;
      message := NoMessage;
      activeTab := 0;
      dragActive := false;
      predictionResult := Null;
    }

    /** `handleFile` */
    method HandleFile(candidate: Option<AudioFile>)
      requires Valid()
      modifies this
      ensures Valid()
      ensures State() == old(State()).(file := Stage(old(file), candidate).0,
                                       message := Stage(old(file), candidate).1)
    {
      if candidate.Some? && candidate.value.mimeType == WavType {
        file := candidate;
        message := NoMessage;
      } else {
        message := ErrorMessage(WavRequired);
      }
    }

    /** `handleFileChange`: the picker's first file, if there is one, goes through `handleFile`. */
    method HandleFileChange(files: seq<AudioFile>)
      requires Valid()
      modifies this
      ensures Valid()
      ensures |files| > 0 ==> State() == old(State()).(file := Stage(old(file), Some(files[0])).0,
                                                       message := Stage(old(file), Some(files[0])).1)
      ensures |files| == 0 ==> State() == old(State())
    {
      if |files| > 0 {
        HandleFile(Some(files[0]));
      }
    }

    /** `handleDrag` */
    method HandleDrag(eventType: string)
      requires Valid()
      modifies this
      ensures Valid()
      ensures State() == old(State()).(dragActive := DragActiveAfter(eventType, old(dragActive)))
    {
      if eventType == "dragenter" || eventType == "dragover" {
        dragActive := true;
      } else if eventType == "dragleave" {
        dragActive := false;
      }
    }

    /** `handleDrop`: the highlight goes off, then the first dropped file, if any, goes through `handleFile`. */
    method HandleDrop(files: seq<AudioFile>)
      requires Valid()
      modifies this
      ensures Valid()
      ensures |files| > 0 ==> State() == old(State()).(dragActive := false,
                                                       file := Stage(old(file), Some(files[0])).0,
                                                       message := Stage(old(file), Some(files[0])).1)
      ensures |files| == 0 ==> State() == old(State()).(dragActive := false)
    {
      dragActive := false;
      if |files| > 0 {
        HandleFile(Some(files[0]));
      }
    }

    /** The name field's `onChange` (a text field on tab 0, a select over `users` on tab 1). */
    method ChangeUserName(value: string)
      requires Valid()
      modifies this
      ensures Valid()
      ensures State() == old(State()).(userName := value)
    {
      userName := value;
    }

    /** `validateForm`: on failure only the message changes; on success nothing does. */
    method ValidateForm() returns (ok: bool)
      requires Valid()
      modifies this
      ensures Valid()
      ensures ok <==> FormError(old(userName), old(file)).None?
      ensures ok ==> State() == old(State())
      ensures !ok ==> State() == old(State()).(message := ErrorMessage(FormError(old(userName), old(file)).value))
    {
      if userName == "" {
        message := ErrorMessage(NameRequired);
        return false;
      }
      if file.None? {
        message := ErrorMessage(FileRequired);
        return false;
      }
      return true;
    }

    /**
     * `handleTrainSubmit` up to the request: an invalid form sends nothing
     * and leaves `loading` alone; a valid one sets `loading` and sends the
     * staged file and the name.
     */
    method BeginTrain() returns (sent: Option<Submission>)
      requires Valid()
      modifies this
      ensures Valid()
      ensures sent.Some? ==> sent.value.file.mimeType == WavType
      ensures FormError(old(userName), old(file)).Some? ==>
                sent == None &&
                State() == old(State()).(message := ErrorMessage(FormError(old(userName), old(file)).value))
      ensures FormError(old(userName), old(file)).None? ==>
                sent == Some(Submission(old(file).value, old(userName), old(activeTab))) &&
                State() == old(State()).(loading := true)
    {
      var ok := ValidateForm();
      if !ok {
        return None;
      }
      loading := true;
      sent := Some(Submission(file.value, userName, activeTab));
    }

    /**
     * `resetForm`, for the tab the calling closure saw: the staged file is
     * dropped, and the name too when that tab was tab 0.
     */
    method ResetForm(seenTab: int)
      requires Valid()
      modifies this
      ensures Valid()
      ensures State() == old(State()).(file := None, userName := if seenTab == 0 then "" else old(userName))
    {
      file := None;
      if seenTab == 0 {
        userName := "";
      }
    }

    /**
     * `handleTrainSubmit` after the request: success shows the server's
     * message, inserts the submitted name into the users, and resets the
     * form for the tab of the submission; failure shows an error and keeps
     * the users. Either way `loading` ends false.
     */
    method CompleteTrain(sent: Submission, outcome: TrainOutcome)
      requires Valid()
      modifies this
      ensures Valid()
      ensures outcome.TrainOk? ==>
                State() == old(State()).(message := SuccessMessage(outcome.message),
                                         users := InsertUser(old(users), sent.userName),
                                         file := None,
                                         userName := if sent.tab == 0 then "" else old(userName),
                                         loading := false)
      ensures outcome.TrainTransportError? ==>
                State() == old(State()).(message := ErrorMessage(TrainFailed), loading := false)
    {
      match outcome {
        case TrainOk(serverMessage) =>
          message := SuccessMessage(serverMessage);
          users := InsertUser(users, sent.userName);
          ResetForm(sent.tab);
        case TrainTransportError =>
          message := ErrorMessage(TrainFailed);
      }
      loading := false;
    }

    /**
     * `handlePredictSubmit` up to the request: as for training, and a valid
     * form also clears the previous prediction.
     */
    method BeginPredict() returns (sent: Option<Submission>)
      requires Valid()
      modifies this
      ensures Valid()
      ensures sent.Some? ==> sent.value.file.mimeType == WavType
      ensures FormError(old(userName), old(file)).Some? ==>
                sent == None &&
                State() == old(State()).(message := ErrorMessage(FormError(old(userName), old(file)).value))
      ensures FormError(old(userName), old(file)).None? ==>
                sent == Some(Submission(old(file).value, old(userName), old(activeTab))) &&
                State() == old(State()).(loading := true, predictionResult := Null)
    {
      var ok := ValidateForm();
      if !ok {
        return None;
      }
      loading := true;
      predictionResult := Null;
      sent := Some(Submission(file.value, userName, activeTab));
    }

    /**
     * `handlePredictSubmit` after the request: a response stores its
     * `prediction`, and only `true` counts as a confirmed match; a thrown
     * error keeps the prediction and shows an error. `loading` ends false.
     */
    method CompletePredict(outcome: PredictOutcome)
      requires Valid()
      modifies this
      ensures Valid()
      ensures outcome.PredictOk? ==>
                State() == old(State()).(predictionResult := PredictionOf(outcome.prediction),
                                         message := if outcome.prediction == Some(true)
                                                    then SuccessMessage(MatchConfirmed)
                                                    else ErrorMessage(MatchRejected),
                                         loading := false)
      ensures outcome.PredictTransportError? ==>
                State() == old(State()).(message := ErrorMessage(PredictFailed), loading := false)
    {
      match outcome {
        case PredictOk(prediction) =>
          predictionResult := PredictionOf(prediction);
          if prediction == Some(true) {
            message := SuccessMessage(MatchConfirmed);
          } else {
            message := ErrorMessage(MatchRejected);
          }
        case PredictTransportError =>
          message := ErrorMessage(PredictFailed);
      }
      loading := false;
    }

    /**
     * The form's `onSubmit`: tab 0 trains, any other tab predicts. While
     * `loading` the submit button is disabled, so a submit does nothing.
     */
    method Submit() returns (sent: Option<Submission>)
      requires Valid()
      modifies this
      ensures Valid()
      ensures sent.Some? ==> sent.value.file.mimeType == WavType
      ensures old(loading) ==> sent == None && State() == old(State())
      ensures !old(loading) && FormError(old(userName), old(file)).Some? ==>
                sent == None &&
                State() == old(State()).(message := ErrorMessage(FormError(old(userName), old(file)).value))
      ensures !old(loading) && FormError(old(userName), old(file)).None? ==>
                sent == Some(Submission(old(file).value, old(userName), old(activeTab))) &&
                State() == old(State()).(loading := true,
                                         predictionResult := if old(activeTab) == 0 then old(predictionResult) else Null)
    {
      if loading {
        return None;
      }
      if activeTab == 0 {
        sent := BeginTrain();
      } else {
        sent := BeginPredict();
      }
    }

    /**
     * `handleTabChange`: the new tab, no message, no staged file, and no name
     * when the tab being left was tab 0; users and prediction are kept.
     */
    method HandleTabChange(newValue: int)
      requires Valid()
      modifies this
      ensures Valid()
      ensures State() == old(State()).(activeTab := newValue,
                                       message := NoMessage,
                                       file := None,
                                       userName := if old(activeTab) == 0 then "" else old(userName))
    {
      var leaving := activeTab;
      activeTab := newValue;
      message := NoMessage;
      ResetForm(leaving);
    }

    /** `fetchUsers` after its request: success replaces the users, failure keeps them and shows an error. */
    method CompleteFetchUsers(outcome: UsersOutcome)
      requires Valid()
      modifies this
      ensures Valid()
      ensures outcome.UsersOk? ==> State() == old(State()).(users := outcome.users)
      ensures outcome.UsersTransportError? ==> State() == old(State()).(message := ErrorMessage(UsersUnavailable))
    {
      match outcome
      case UsersOk(fetched) =>
        users := fetched;
      case UsersTransportError =>
        message := ErrorMessage(UsersUnavailable);
    }
  }
}
