/**
 * The Flask backend (backend/app.py): the early-return checks of the two
 * POST endpoints, the per-user model file name, the `/users` listing that
 * maps file names back to user names, the training label vector and the
 * boolean a prediction becomes.
 *
 * Directory listings are given as sequences of file names, the set of
 * existing files as a set of paths, and the trained classifier as an
 * opaque function returning an integer label.
 */
module Backend {
  import opened Wrappers
  import opened PyStrings

  /** An uploaded multipart file: the name the browser sent and its bytes. */
  datatype Upload = Upload(filename: string, content: seq<bv8>)

  /** The parts of a Flask request these endpoints read: `request.files` and `request.form`. */
  datatype Request = Request(files: map<string, Upload>, form: map<string, string>)

  /** The JSON bodies the endpoints return. */
  datatype Body =
    | ErrorBody(error: string)
    | MessageBody(message: string)
    | UsersBody(users: seq<string>)
    | PredictionBody(prediction: bool)

  datatype Response = Response(status: int, body: Body)

  /** One row of the training matrix: the uploaded sample or a file read from the others directory. */
  datatype Sample = UserSample | OtherSample(path: string)

  const MissingFileOrName := "Missing file or name"
  const NoSelectedFile := "No selected file"
  const ModelsDir := "models/"
  const ModelPrefix := "model_"
  const ModelSuffix := ".pkl"
  const WavSuffix := ".wav"
  const OthersDir := "./data/others"

  function BadRequest(error: string): Response {
    Response(400, ErrorBody(error))
  }

  /**
   * The checks both POST endpoints run before any other work: the `file`
   * part and the `name` field must be present, and only then is the
   * uploaded file's name required to be non-empty.
   */
  function CheckUpload(req: Request): (r: Result<(Upload, string), Response>)
    ensures ("file" !in req.files || "name" !in req.form) ==> r == Err(BadRequest(MissingFileOrName))
    ensures ("file" in req.files && "name" in req.form && req.files["file"].filename == "")
            ==> r == Err(BadRequest(NoSelectedFile))
    ensures r.Ok? <==> "file" in req.files && "name" in req.form && req.files["file"].filename != ""
    ensures r.Ok? ==> r.value == (req.files["file"], req.form["name"])
  {
    if "file" !in req.files || "name" !in req.form then Err(BadRequest(MissingFileOrName))
    else
      var file := req.files["file"];
      var userName := req.form["name"];
      if file.filename == "" then Err(BadRequest(NoSelectedFile))
      else Ok((file, userName))
  }

  /** The file name a user's model is stored under inside the models directory. */
  function ModelFileName(userName: string): (f: string)
    ensures EndsWith(f, ModelSuffix)
    ensures |f| == |ModelPrefix| + |userName| + |ModelSuffix|
    ensures f[..|ModelPrefix|] == ModelPrefix && f[|ModelPrefix|..|f| - |ModelSuffix|] == userName
  {
    var f := ModelPrefix + userName + ModelSuffix;
    assert f[|f| - |ModelSuffix|..] == ModelSuffix;
    f
  }

  /** `f"models/model_{user_name}.pkl"`, the path `save_model` writes and `predict` opens. */
  function ModelPath(userName: string): (p: string)
    ensures p == "models/model_" + userName + ".pkl"
  {
    ModelsDir + ModelFileName(userName)
  }

  /**
   * Two users never share a model file: distinct names give distinct paths,
   * so one user's training never overwrites another's model.
   */
  lemma ModelPathInjective(a: string, b: string)
    requires ModelPath(a) == ModelPath(b)
    ensures a == b
  {
    var pa, pb := ModelPath(a), ModelPath(b);
    assert pa[13..|pa| - 4] == a;
    assert pb[13..|pb| - 4] == b;
  }

  /**
   * The path `plot_confusion_matrix` saves its image under, in the models
   * directory beside the model files; it ends in `.png`, never in `.pkl`,
   * so the `/users` listing skips it.
   */
  function ConfusionMatrixPath(userName: string): (p: string)
    ensures EndsWith(p, ".png") && !EndsWith(p, ModelSuffix)
  {
    var p := "./models/confusion_matrix_" + userName + ".png";
    assert p[|p| - 4..] == ".png";
    p
  }

  /** `os.path.join(dir, name)` for a relative file name: the directory, one separator, the name. */
  function JoinPath(dir: string, name: string): (path: string)
    ensures |path| == |dir| + 1 + |name|
    ensures path[..|dir|] == dir && path[|dir|] == '/' && path[|dir| + 1..] == name
    ensures EndsWith(path, name)
  {
    var path := dir + "/" + name;
    assert path[|path| - |name|..] == name;
    path
  }

  /**
   * `file_name.replace('model_', '').replace('.pkl', '')`: every occurrence
   * of the prefix is removed first, then every occurrence of the suffix.
   */
  function UserNameOf(fileName: string): (userName: string)
    ensures |userName| <= |fileName|
  {
    ReplaceAll(ReplaceAll(fileName, ModelPrefix, ""), ModelSuffix, "")
  }

  /** The entries of a directory listing whose names end with `suffix`, in listing order. */
  function EntriesEndingWith(listing: seq<string>, suffix: string): (r: seq<string>)
    ensures |r| <= |listing|
    ensures forall f :: f in r ==> f in listing && EndsWith(f, suffix)
  {
    if listing == [] then []
    else
      var rest := EntriesEndingWith(listing[..|listing| - 1], suffix);
      var last := listing[|listing| - 1];
      if EndsWith(last, suffix) then rest + [last] else rest
  }

  /** The filter keeps exactly the listed files that have the suffix. */
  lemma {:induction false} EntriesEndingWithMembers(listing: seq<string>, suffix: string, f: string)
    ensures f in EntriesEndingWith(listing, suffix) <==> f in listing && EndsWith(f, suffix)
  {
    if listing != [] {
      var init := listing[..|listing| - 1];
      assert listing == init + [listing[|listing| - 1]];
      EntriesEndingWithMembers(init, suffix, f);
    }
  }

  /**
   * The filter distributes over concatenation of listings: one entry per
   * matching file, in the order the files are listed.
   */
  lemma {:induction false} EntriesEndingWithAppend(xs: seq<string>, ys: seq<string>, suffix: string)
    ensures EntriesEndingWith(xs + ys, suffix) == EntriesEndingWith(xs, suffix) + EntriesEndingWith(ys, suffix)
    decreases |ys|
  {
    if ys == [] {
      assert xs + ys == xs;
    } else {
      var init := ys[..|ys| - 1];
      assert (xs + ys)[..|xs + ys| - 1] == xs + init;
      EntriesEndingWithAppend(xs, init, suffix);
    }
  }

  /**
   * `get_users`: one user name per listed file ending in `.pkl`, in listing
   * order; every other file is skipped.
   */
  method GetUsers(listing: seq<string>) returns (resp: Response)
    ensures resp.status == 200 && resp.body.UsersBody?
    ensures |resp.body.users| == |EntriesEndingWith(listing, ModelSuffix)|
    ensures forall k :: 0 <= k < |resp.body.users| ==>
              resp.body.users[k] == UserNameOf(EntriesEndingWith(listing, ModelSuffix)[k])
  {
    var userModels: seq<string> := [];
    for i := 0 to |listing|
      invariant |userModels| == |EntriesEndingWith(listing[..i], ModelSuffix)|
      invariant forall k :: 0 <= k < |userModels| ==>
                  userModels[k] == UserNameOf(EntriesEndingWith(listing[..i], ModelSuffix)[k])
    {
      var fileName := listing[i];
      assert listing[..i + 1][..i] == listing[..i];
      if EndsWith(fileName, ModelSuffix) {
        userModels := userModels + [UserNameOf(fileName)];
      }
    }
    assert listing[..|listing|] == listing;
    resp := Response(200, UsersBody(userModels));
  }

  /**
   * `load_others_data`: the `.wav` files of the others directory, in listing
   * order, each read as one sample labelled 0.
   */
  method LoadOthersData(listing: seq<string>) returns (paths: seq<string>, labels: seq<int>)
    ensures |paths| == |EntriesEndingWith(listing, WavSuffix)|
    ensures forall k :: 0 <= k < |paths| ==> paths[k] == JoinPath(OthersDir, EntriesEndingWith(listing, WavSuffix)[k])
    ensures |labels| == |paths|
    ensures forall k :: 0 <= k < |labels| ==> labels[k] == 0
  {
    paths, labels := [], [];
    for i := 0 to |listing|
      invariant |paths| == |EntriesEndingWith(listing[..i], WavSuffix)|
      invariant forall k :: 0 <= k < |paths| ==>
                  paths[k] == JoinPath(OthersDir, EntriesEndingWith(listing[..i], WavSuffix)[k])
      invariant |labels| == |paths|
      invariant forall k :: 0 <= k < |labels| ==> labels[k] == 0
    {
      var fileName := listing[i];
      assert listing[..i + 1][..i] == listing[..i];
      if EndsWith(fileName, WavSuffix) {
        paths := paths + [JoinPath(OthersDir, fileName)];
        labels := labels + [0];
      }
    }
    assert listing[..|listing|] == listing;
  }

  /**
   * `train_model`: after the shared checks, the training matrix is the
   * uploaded sample followed by the others' samples, labelled 1 and then 0
   * each; the confusion-matrix image and the model file are written, in
   * that order. A rejected request trains nothing and writes nothing.
   */
  method TrainModel(req: Request, othersListing: seq<string>)
    returns (resp: Response, samples: seq<Sample>, labels: seq<int>, written: seq<string>)
    ensures CheckUpload(req).Err? ==>
              resp == CheckUpload(req).error && samples == [] && labels == [] && written == []
    ensures CheckUpload(req).Ok? ==>
              var userName := req.form["name"];
              && resp == Response(200, MessageBody("Model for user " + userName + " trained successfully!"))
              && written == [ConfusionMatrixPath(userName), ModelPath(userName)]
              && |labels| == 1 + |EntriesEndingWith(othersListing, WavSuffix)|
              && labels[0] == 1
              && (forall k :: 1 <= k < |labels| ==> labels[k] == 0)
              && |samples| == |labels|
              && (forall k :: 0 <= k < |samples| ==> (samples[k] == UserSample <==> labels[k] == 1))
              && samples[0] == UserSample
              && (forall k :: 1 <= k < |samples| ==>
                    samples[k] == OtherSample(JoinPath(OthersDir, EntriesEndingWith(othersListing, WavSuffix)[k - 1])))
  {
    var checked := CheckUpload(req);
    if checked.Err? {
      return checked.error, [], [], [];
    }
    var userName := checked.value.1;
    var othersPaths, othersLabels := LoadOthersData(othersListing);
    samples := [UserSample] + seq(|othersPaths|, k requires 0 <= k < |othersPaths| => OtherSample(othersPaths[k]));
    labels := [1] + othersLabels;
    written := [ConfusionMatrixPath(userName), ModelPath(userName)];
    resp := Response(200, MessageBody("Model for user " + userName + " trained successfully!"));
  }

  /** `class_label = True if prediction[0] == 1 else False` */
  function ClassLabel(output: int): (matched: bool)
    ensures matched <==> output == 1
  {
    if output == 1 then true else false
  }

  /**
   * `predict`: after the shared checks, the user's model file must exist;
   * the answer is whether the classifier labels the upload 1.
   */
  function Predict(req: Request, existing: set<string>, classify: (string, seq<bv8>) -> int): (resp: Response)
    ensures CheckUpload(req).Err? ==> resp == CheckUpload(req).error
    ensures CheckUpload(req).Ok? && ModelPath(req.form["name"]) !in existing ==>
              resp == BadRequest("Model for user " + req.form["name"] + " not found!")
    ensures resp.status == 200 <==> CheckUpload(req).Ok? && ModelPath(req.form["name"]) in existing
    ensures resp.status == 200 ==>
              resp.body == PredictionBody(classify(ModelPath(req.form["name"]), req.files["file"].content) == 1)
  {
    match CheckUpload(req)
    case Err(rejected) => rejected
    case Ok((file, userName)) =>
      var modelFilename := ModelPath(userName);
      if modelFilename !in existing then BadRequest("Model for user " + userName + " not found!")
      else Response(200, PredictionBody(ClassLabel(classify(modelFilename, file.content))))
  }

  /**
   * Once `save_model` has written a user's model, `predict` for that user
   * no longer answers "not found": both use the same path.
   */
  lemma PredictFindsSavedModel(req: Request, existing: set<string>, classify: (string, seq<bv8>) -> int)
    requires CheckUpload(req).Ok?
    ensures Predict(req, existing + {ModelPath(req.form["name"])}, classify).status == 200
  {
  }

  /**
   * Round trip of the naming scheme: for a name containing neither `model_`
   * nor `.pkl`, the listing recovers the name from the file `save_model` writes.
   */
  lemma UserNameOfModelFileName(userName: string)
    requires !Contains(userName, ModelPrefix) && !Contains(userName, ModelSuffix)
    ensures UserNameOf(ModelFileName(userName)) == userName
  {
    var f := ModelFileName(userName);
    assert f[..|ModelPrefix|] == ModelPrefix;
    assert f[|ModelPrefix|..] == userName + ModelSuffix;
    assert ReplaceAll(f, ModelPrefix, "") == ReplaceAll(userName + ModelSuffix, ModelPrefix, "");
    forall i | 0 <= i < |userName|
      ensures !OccursAt(userName + ModelSuffix, ModelPrefix, i)
      ensures !OccursAt(userName + ModelSuffix, ModelSuffix, i)
    {
      assert ModelSuffix[0] !in ModelPrefix[1..];
      NoOccurrenceAcrossBoundary(userName, ModelSuffix, ModelPrefix, i);
      assert ModelSuffix[0] !in ModelSuffix[1..];
      NoOccurrenceAcrossBoundary(userName, ModelSuffix, ModelSuffix, i);
    }
    ReplaceAllKeepsClearPrefix(userName, ModelSuffix, ModelPrefix, "");
    assert ReplaceAll(ModelSuffix, ModelPrefix, "") == ModelSuffix;
    ReplaceAllKeepsClearPrefix(userName, ModelSuffix, ModelSuffix, "");
    assert ReplaceAll(ModelSuffix, ModelSuffix, "") == "";
  }

  /**
   * A model saved for a name containing neither `model_` nor `.pkl` shows up
   * under that name once its file is in the models directory listing.
   */
  lemma {:induction false} SavedUserIsListed(listing: seq<string>, userName: string)
    requires !Contains(userName, ModelPrefix) && !Contains(userName, ModelSuffix)
    requires ModelFileName(userName) in listing
    ensures exists k :: 0 <= k < |EntriesEndingWith(listing, ModelSuffix)| &&
                        UserNameOf(EntriesEndingWith(listing, ModelSuffix)[k]) == userName
  {
    var f := ModelFileName(userName);
    EntriesEndingWithMembers(listing, ModelSuffix, f);
    var entries := EntriesEndingWith(listing, ModelSuffix);
    var k :| 0 <= k < |entries| && entries[k] == f;
    UserNameOfModelFileName(userName);
  }

  /**
   * The naming scheme is not invertible for every name: a user called
   * `model_x` is listed as `x`, the same as a user called `x`.
   */
  lemma PrefixedNameIsListedShortened()
    ensures UserNameOf(ModelFileName("model_x")) == "x"
    ensures UserNameOf(ModelFileName("x")) == "x"
  {
    assert ModelFileName("model_x") == "model_model_x.pkl";
    assert ReplaceAll("model_model_x.pkl", "model_", "") == "x.pkl" by {
      assert ReplaceAll("model_x.pkl", "model_", "") == "x.pkl" by {
        assert ReplaceAll(".pkl", "model_", "") == ".pkl";
        assert ReplaceAll("x.pkl", "model_", "") == "x.pkl";
      }
    }
    assert ReplaceAll("x.pkl", ".pkl", "") == "x" by {
      assert ReplaceAll(".pkl", ".pkl", "") == "";
    }
    assert !Contains("x", ModelPrefix) && !Contains("x", ModelSuffix);
    UserNameOfModelFileName("x");
  }
}
