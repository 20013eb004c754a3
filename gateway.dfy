/**
 * The boundary between the client and the backend: the multipart body the
 * submit handlers send, and how axios turns a response into the outcome a
 * completion step receives (a status outside 2xx is a thrown error).
 */
module Gateway {
  import opened Wrappers
  import App
  import Backend

  /** `formData.append("file", file); formData.append("name", userName)` */
  function FormDataOf(sent: App.Submission): (req: Backend.Request)
    ensures "file" in req.files && "name" in req.form
    ensures req.files["file"] == Backend.Upload(sent.file.name, sent.file.content)
    ensures req.form["name"] == sent.userName
  {
    Backend.Request(map["file" := Backend.Upload(sent.file.name, sent.file.content)],
                    map["name" := sent.userName])
  }

  /**
   * axios's default `validateStatus`: only a 2xx status resolves. The
   * backend's answers are classified accordingly: 200 resolves, its 400
   * rejections and a 500 server error reject.
   */
  predicate IsSuccessStatus(status: int): (b: bool)
    ensures status == 200 ==> b
    ensures status == 400 || status == 500 ==> !b
  {
    200 <= status < 300
  }

  /** The outcome `handleTrainSubmit` sees; the backend's 2xx answer always carries a message. */
  function TrainOutcomeOf(resp: Backend.Response): (o: App.TrainOutcome)
    requires IsSuccessStatus(resp.status) ==> resp.body.MessageBody?
    ensures o.TrainTransportError? <==> !IsSuccessStatus(resp.status)
    ensures o.TrainOk? ==> o.message == resp.body.message
  {
    if IsSuccessStatus(resp.status) then App.TrainOk(resp.body.message) else App.TrainTransportError
  }

  /** The outcome `handlePredictSubmit` sees: `response.data?.prediction` is absent unless the body carries it. */
  function PredictOutcomeOf(resp: Backend.Response): (o: App.PredictOutcome)
    ensures o.PredictTransportError? <==> !IsSuccessStatus(resp.status)
    ensures o.PredictOk? ==> (o.prediction.Some? <==> resp.body.PredictionBody?)
    ensures o.PredictOk? && resp.body.PredictionBody? ==> o.prediction == Some(resp.body.prediction)
  {
    if !IsSuccessStatus(resp.status) then App.PredictTransportError
    else if resp.body.PredictionBody? then App.PredictOk(Some(resp.body.prediction))
    else App.PredictOk(None)
  }

  /**
   * Every request the client sends passes the backend's missing-field
   * check; it is accepted exactly when the browser gave the file a name.
   */
  lemma ClientRequestPassesFieldCheck(sent: App.Submission)
    ensures Backend.CheckUpload(FormDataOf(sent)) != Err(Backend.BadRequest(Backend.MissingFileOrName))
    ensures Backend.CheckUpload(FormDataOf(sent)).Ok? <==> sent.file.name != ""
  {
  }

  /**
   * A predict request from the client, end to end: with the user's model
   * present the client receives the classifier's verdict (a negative match
   * is a response, not an error); without it, the "not found" answer is a
   * 400 and reaches the client as a thrown error.
   */
  lemma PredictEndToEnd(sent: App.Submission, existing: set<string>, classify: (string, seq<bv8>) -> int)
    requires sent.file.name != ""
    ensures var path := Backend.ModelPath(sent.userName);
            PredictOutcomeOf(Backend.Predict(FormDataOf(sent), existing, classify)) ==
              if path in existing then App.PredictOk(Some(classify(path, sent.file.content) == 1))
              else App.PredictTransportError
  {
    var req := FormDataOf(sent);
    assert Backend.CheckUpload(req).Ok?;
  }
}
