/** Request assembly of the four AI OpenScale endpoints: argument checks in
    the order the client makes them, the JSON body, the header map and the
    URL. Sending the request is left to the HTTP layer and is not modelled;
    each endpoint yields the request it would hand over. A Python argument is
    a JSON value, with `Null` standing for `None`; the path-variable encoder
    of the base class is a parameter `enc`. */
module Service {
  import opened Results
  import opened Json

  datatype HttpMethod = GET | POST

  /** `ValueError('<name> must be provided')`. */
  datatype ArgError = MissingArgument(name: string)

  /** Header names to values; the transaction header may hold `None`. */
  type Headers = map<string, Json>

  datatype Request = Request(verb: HttpMethod, url: string, headers: Headers, body: Option<Dict>)

  // --------------------------------------------------------- argument checks
  datatype Arg = Arg(name: string, value: Json)

  /** Argument `i` is the first one that is `None`. */
  predicate FirstNone(args: seq<Arg>, i: int) {
    && 0 <= i < |args|
    && args[i].value.Null?
    && forall j :: 0 <= j < i ==> !args[j].value.Null?
  }

  /** Position of the first argument that is `None`, if any. */
  function FirstNoneIndex(args: seq<Arg>): (r: Option<nat>)
    ensures r.None? <==> forall i :: 0 <= i < |args| ==> !args[i].value.Null?
    ensures r.Some? ==> FirstNone(args, r.value)
  {
    if args == [] then None
    else if args[0].value.Null? then Some(0)
    else
      match FirstNoneIndex(args[1..])
      case None => None
      case Some(i) =>
        assert FirstNone(args[1..], i);
        Some(i + 1)
  }

  /** There is at most one first `None` argument. */
  lemma FirstNoneUnique(args: seq<Arg>, i: int, j: int)
    requires FirstNone(args, i) && FirstNone(args, j)
    ensures i == j
  {
  }

  /** The `if x is None: raise ValueError(...)` checks, in the given order:
      the error names the first argument that is `None`. */
  function CheckProvided(args: seq<Arg>): (r: Result<(), ArgError>)
    ensures r.Ok? <==> forall i :: 0 <= i < |args| ==> !args[i].value.Null?
    ensures forall i :: FirstNone(args, i) ==> r == Err(MissingArgument(args[i].name))
  {
    match FirstNoneIndex(args)
    case None => Ok(())
    case Some(i) =>
      assert forall j :: FirstNone(args, j) ==> j == i by {
        forall j | FirstNone(args, j) ensures j == i {
          FirstNoneUnique(args, i, j);
        }
      }
      Err(MissingArgument(args[i].name))
  }

  // ------------------------------------------------------------------ headers
  /** `headers.update(kwargs.get('headers'))`: every caller header is kept
      as given, and a fixed header survives only where the caller has none. */
  function Merge(fixed: Headers, caller: Headers): (r: Headers)
    ensures r.Keys == fixed.Keys + caller.Keys
    ensures forall k :: k in caller ==> r[k] == caller[k]
    ensures forall k :: k in fixed && k !in caller ==> r[k] == fixed[k]
  {
    fixed + caller
  }

  const TransactionHeader := "X-Global-Transaction-Id"

  // ---------------------------------------------------------------------- URLs
  /** A URL path from its segments: each one preceded by `/`. The templates
      of the four endpoints are segment lists with the encoded path arguments
      in their slots. */
  function Join(segs: seq<string>): string {
    if segs == [] then "" else "/" + segs[0] + Join(segs[1..])
  }

  /** The inverse of `Join`: `s` cut at every `/`. */
  function Segments(s: string): (r: seq<string>)
    ensures |r| >= 1
  {
    if |s| == 0 then [""]
    else
      var rest := Segments(s[1..]);
      if s[0] == '/' then [""] + rest else [[s[0]] + rest[0]] + rest[1..]
  }

  lemma {:induction false} SegmentsPlain(x: string)
    requires '/' !in x
    ensures Segments(x) == [x]
  {
    if |x| > 0 {
      SegmentsPlain(x[1..]);
      assert [x[0]] + x[1..] == x;
    }
  }

  lemma {:induction false} SegmentsCut(x: string, y: string)
    requires '/' !in x
    ensures Segments(x + "/" + y) == [x] + Segments(y)
  {
    if |x| == 0 {
      assert x + "/" + y == "/" + y;
      assert ("/" + y)[1..] == y;
    } else {
      assert (x + "/" + y)[1..] == x[1..] + "/" + y;
      SegmentsCut(x[1..], y);
      assert [x[0]] + x[1..] == x;
    }
  }

  lemma {:induction false} SegmentsOfTail(segs: seq<string>)
    requires |segs| >= 1
    requires forall i :: 0 <= i < |segs| ==> '/' !in segs[i]
    ensures Segments(segs[0] + Join(segs[1..])) == segs
  {
    if |segs| == 1 {
      assert segs[0] + Join(segs[1..]) == segs[0];
      SegmentsPlain(segs[0]);
    } else {
      var tail := segs[1..];
      SegmentsOfTail(tail);
      assert tail[1..] == segs[2..];
      assert segs[0] + Join(tail) == segs[0] + "/" + (tail[0] + Join(tail[1..]));
      SegmentsCut(segs[0], tail[0] + Join(tail[1..]));
      assert [segs[0]] + tail == segs;
    }
  }

  lemma {:induction false} JoinSegments(segs: seq<string>)
    requires forall i :: 0 <= i < |segs| ==> '/' !in segs[i]
    ensures Segments(Join(segs)) == [""] + segs
  {
    if segs != [] {
      SegmentsOfTail(segs);
      assert Join(segs) == "" + "/" + (segs[0] + Join(segs[1..]));
      SegmentsCut("", segs[0] + Join(segs[1..]));
    }
  }

  /** `Join` in the form the endpoints use: when no segment holds a `/`,
      cutting the path at each `/` gives the segments back. */
  lemma PathSegments(segs: seq<string>)
    ensures (forall i :: 0 <= i < |segs| ==> '/' !in segs[i]) ==> Segments(Join(segs)) == [""] + segs
  {
    if forall i :: 0 <= i < |segs| ==> '/' !in segs[i] {
      JoinSegments(segs);
    }
  }

  /** `Join` of a four-segment template, as text. */
  lemma JoinFour(a: string, b: string, c: string, d: string)
    ensures Join([a, b, c, d]) == "/" + a + "/" + b + "/" + c + "/" + d
  {
    assert [a, b, c, d][1..] == [b, c, d];
    assert [b, c, d][1..] == [c, d];
    assert [c, d][1..] == [d];
    assert [d][1..] == [];
    assert Join([d]) == "/" + d;
    assert Join([c, d]) == "/" + c + "/" + d;
  }

  /** `Join` of a five-segment template, as text. */
  lemma JoinFive(a: string, b: string, c: string, d: string, e: string)
    ensures Join([a, b, c, d, e]) == "/" + a + "/" + b + "/" + c + "/" + d + "/" + e
  {
    assert [a, b, c, d, e][1..] == [b, c, d, e];
    JoinFour(b, c, d, e);
  }

  /** `Join` turns concatenation of segment lists into concatenation of text. */
  lemma {:induction false} JoinAppend(xs: seq<string>, ys: seq<string>)
    ensures Join(xs + ys) == Join(xs) + Join(ys)
  {
    if xs != [] {
      assert (xs + ys)[0] == xs[0];
      assert (xs + ys)[1..] == xs[1..] + ys;
      assert Join(xs + ys) == "/" + xs[0] + Join(xs[1..] + ys);
      JoinAppend(xs[1..], ys);
      assert "/" + xs[0] + (Join(xs[1..]) + Join(ys)) == "/" + xs[0] + Join(xs[1..]) + Join(ys);
    } else {
      assert xs + ys == ys;
      assert "" + Join(ys) == Join(ys);
    }
  }

  /** The text of the feedback path. */
  lemma FeedbackText(dataMart: string)
    ensures Join(DataMartPath(dataMart, "feedback_payloads")) == "/v1/data_marts/" + dataMart + "/feedback_payloads"
  {
    assert "/" + "feedback_payloads" == "/feedback_payloads";
  }

  /** The text of the path that explanation tasks are posted to. */
  lemma ExplanationTasksText(dataMart: string)
    ensures Join(DataMartPath(dataMart, "explanation_tasks")) == "/v1/data_marts/" + dataMart + "/explanation_tasks"
  {
    assert "/" + "explanation_tasks" == "/explanation_tasks";
  }

  /** The text of the data mart path. */
  lemma DataMartText(dataMart: string, resource: string)
    ensures Join(["v1", "data_marts", dataMart, resource]) == "/v1/data_marts/" + dataMart + "/" + resource
  {
    JoinFour("v1", "data_marts", dataMart, resource);
    assert "/" + "v1" + "/" + "data_marts" + "/" == "/v1/data_marts/";
  }

  /** The text of the explanation task path. */
  lemma ExplanationTaskText(dataMart: string, task: string)
    ensures Join(["v1", "data_marts", dataMart, "explanation_tasks", task])
            == "/v1/data_marts/" + dataMart + "/explanation_tasks/" + task
  {
    JoinFive("v1", "data_marts", dataMart, "explanation_tasks", task);
    assert "/" + "v1" + "/" + "data_marts" + "/" == "/v1/data_marts/";
    assert "/v1/data_marts/" + dataMart + "/" + "explanation_tasks" + "/"
           == "/v1/data_marts/" + dataMart + "/explanation_tasks/";
  }

  /** The text of the first half of the debias path. */
  lemma DebiasHeadText(dataMart: string, binding: string)
    ensures Join(["v1", "data_marts", dataMart, "service_bindings", binding])
            == "/v1/data_marts/" + dataMart + "/service_bindings/" + binding
  {
    JoinFive("v1", "data_marts", dataMart, "service_bindings", binding);
    assert "/" + "v1" + "/" + "data_marts" + "/" == "/v1/data_marts/";
    assert "/v1/data_marts/" + dataMart + "/" + "service_bindings" + "/"
           == "/v1/data_marts/" + dataMart + "/service_bindings/";
  }

  /** The text of the second half of the debias path. */
  lemma DebiasTailText(subscription: string, deployment: string)
    ensures Join(["subscriptions", subscription, "deployments", deployment, "online"])
            == "/subscriptions/" + subscription + "/deployments/" + deployment + "/online"
  {
    JoinFive("subscriptions", subscription, "deployments", deployment, "online");
    assert "/" + "subscriptions" + "/" == "/subscriptions/";
    assert "/subscriptions/" + subscription + "/" + "deployments" + "/"
           == "/subscriptions/" + subscription + "/deployments/";
    assert "/" + "online" == "/online";
  }

  /** The text of the debias path, joined from its two five-segment halves. */
  lemma DebiasText(dataMart: string, binding: string, subscription: string, deployment: string)
    ensures Join(["v1", "data_marts", dataMart, "service_bindings", binding,
                  "subscriptions", subscription, "deployments", deployment, "online"])
            == "/v1/data_marts/" + dataMart + "/service_bindings/" + binding
               + "/subscriptions/" + subscription + "/deployments/" + deployment + "/online"
  {
    var r := ["v1", "data_marts", dataMart, "service_bindings", binding,
              "subscriptions", subscription, "deployments", deployment, "online"];
    JoinAppend(r[..5], r[5..]);
    assert r[..5] + r[5..] == r;
    assert r[..5] == ["v1", "data_marts", dataMart, "service_bindings", binding];
    assert r[5..] == ["subscriptions", subscription, "deployments", deployment, "online"];
    DebiasHeadText(dataMart, binding);
    DebiasTailText(subscription, deployment);
  }

  /** A resource directly under a data mart: `/v1/data_marts/{0}/<resource>`. */
  function DataMartPath(dataMart: string, resource: string): (r: seq<string>)
    requires '/' !in resource
    ensures Join(r) == "/v1/data_marts/" + dataMart + "/" + resource
    ensures '/' !in dataMart ==> Segments(Join(r)) == ["", "v1", "data_marts", dataMart, resource]
  {
    var r := ["v1", "data_marts", dataMart, resource];
    DataMartText(dataMart, resource);
    assert '/' !in r[0];
    assert '/' !in r[1];
    PathSegments(r);
    r
  }

  /** `/v1/data_marts/{0}/explanation_tasks/{1}`. */
  function ExplanationTaskPath(dataMart: string, task: string): (r: seq<string>)
    ensures Join(r) == "/v1/data_marts/" + dataMart + "/explanation_tasks/" + task
    ensures '/' !in dataMart && '/' !in task ==>
              Segments(Join(r)) == ["", "v1", "data_marts", dataMart, "explanation_tasks", task]
  {
    var r := ["v1", "data_marts", dataMart, "explanation_tasks", task];
    ExplanationTaskText(dataMart, task);
    assert '/' !in r[0];
    assert '/' !in r[1];
    assert '/' !in r[3];
    PathSegments(r);
    r
  }

  /** `/v1/data_marts/{0}/service_bindings/{1}/subscriptions/{2}/deployments/{3}/online`. */
  function DebiasPath(dataMart: string, binding: string, subscription: string, deployment: string): (r: seq<string>)
    ensures Join(r) == "/v1/data_marts/" + dataMart + "/service_bindings/" + binding
                       + "/subscriptions/" + subscription + "/deployments/" + deployment + "/online"
    ensures '/' !in dataMart && '/' !in binding && '/' !in subscription && '/' !in deployment ==>
              Segments(Join(r)) == ["", "v1", "data_marts", dataMart, "service_bindings", binding, "subscriptions", subscription, "deployments", deployment, "online"]
  {
    var r := ["v1", "data_marts", dataMart, "service_bindings", binding, "subscriptions", subscription, "deployments", deployment, "online"];
    DebiasText(dataMart, binding, subscription, deployment);
    assert '/' !in r[0];
    assert '/' !in r[1];
    assert '/' !in r[3];
    assert '/' !in r[5];
    assert '/' !in r[7];
    assert '/' !in r[9];
    PathSegments(r);
    r
  }

  // ----------------------------------------------------------------- endpoints
  /** `post_feedback_payload`. `fields` defaults to `None` and, unlike the
      other arguments, stays in the body handed to `request` even then, as
      `null`. */
  function PostFeedbackPayload(enc: Json -> string, dataMartId: Json, bindingId: Json,
                               subscriptionId: Json, values: Json, fields: Json,
                               headers: Headers): (r: Result<Request, ArgError>)
    ensures r.Ok? <==> !dataMartId.Null? && !bindingId.Null? && !subscriptionId.Null? && !values.Null?
    ensures dataMartId.Null? ==> r == Err(MissingArgument("data_mart_id"))
    ensures !dataMartId.Null? && bindingId.Null? ==> r == Err(MissingArgument("binding_id"))
    ensures !dataMartId.Null? && !bindingId.Null? && subscriptionId.Null? ==>
              r == Err(MissingArgument("subscription_id"))
    ensures !dataMartId.Null? && !bindingId.Null? && !subscriptionId.Null? && values.Null? ==>
              r == Err(MissingArgument("values"))
    ensures r.Ok? ==>
              && r.value.verb == POST
              && r.value.headers == headers
              && r.value.body.Some?
              && r.value.body.value.Keys == {"binding_id", "subscription_id", "values", "fields"}
              && r.value.body.value["binding_id"] == bindingId
              && r.value.body.value["subscription_id"] == subscriptionId
              && r.value.body.value["values"] == values
              && r.value.body.value["fields"] == fields
    ensures r.Ok? ==> r.value.url == "/v1/data_marts/" + enc(dataMartId) + "/feedback_payloads"
    ensures r.Ok? && '/' !in enc(dataMartId) ==>
              Segments(r.value.url) == ["", "v1", "data_marts", enc(dataMartId), "feedback_payloads"]
  {
    var args := [Arg("data_mart_id", dataMartId), Arg("binding_id", bindingId),
                 Arg("subscription_id", subscriptionId), Arg("values", values)];
    assert dataMartId.Null? ==> FirstNone(args, 0);
    assert !dataMartId.Null? && bindingId.Null? ==> FirstNone(args, 1);
    assert !dataMartId.Null? && !bindingId.Null? && subscriptionId.Null? ==> FirstNone(args, 2);
    assert !dataMartId.Null? && !bindingId.Null? && !subscriptionId.Null? && values.Null? ==> FirstNone(args, 3);
    var _ :- CheckProvided(args);
    var path := DataMartPath(enc(dataMartId), "feedback_payloads");
    FeedbackText(enc(dataMartId));
    var body := map["binding_id" := bindingId, "subscription_id" := subscriptionId,
                    "values" := values, "fields" := fields];
    Ok(Request(POST, Join(path), Merge(map[], headers), Some(body)))
  }

  /** `get_explanation_task`: a GET without body. */
  function GetExplanationTask(enc: Json -> string, dataMartId: Json, explanationTaskId: Json,
                              headers: Headers): (r: Result<Request, ArgError>)
    ensures r.Ok? <==> !dataMartId.Null? && !explanationTaskId.Null?
    ensures dataMartId.Null? ==> r == Err(MissingArgument("data_mart_id"))
    ensures !dataMartId.Null? && explanationTaskId.Null? ==> r == Err(MissingArgument("explanation_task_id"))
    ensures r.Ok? ==> r.value.verb == GET && r.value.headers == headers && r.value.body.None?
    ensures r.Ok? ==>
              r.value.url == "/v1/data_marts/" + enc(dataMartId) + "/explanation_tasks/" + enc(explanationTaskId)
    ensures r.Ok? && '/' !in enc(dataMartId) && '/' !in enc(explanationTaskId) ==>
              Segments(r.value.url)
              == ["", "v1", "data_marts", enc(dataMartId), "explanation_tasks", enc(explanationTaskId)]
  {
    var args := [Arg("data_mart_id", dataMartId), Arg("explanation_task_id", explanationTaskId)];
    assert dataMartId.Null? ==> FirstNone(args, 0);
    assert !dataMartId.Null? && explanationTaskId.Null? ==> FirstNone(args, 1);
    var _ :- CheckProvided(args);
    var path := ExplanationTaskPath(enc(dataMartId), enc(explanationTaskId));
    Ok(Request(GET, Join(path), Merge(map[], headers), None))
  }

  /** `post_explanation_task`: the body carries the scoring id alone. */
  function PostExplanationTask(enc: Json -> string, dataMartId: Json, scoringId: Json,
                               headers: Headers): (r: Result<Request, ArgError>)
    ensures r.Ok? <==> !dataMartId.Null? && !scoringId.Null?
    ensures dataMartId.Null? ==> r == Err(MissingArgument("data_mart_id"))
    ensures !dataMartId.Null? && scoringId.Null? ==> r == Err(MissingArgument("scoring_id"))
    ensures r.Ok? ==>
              && r.value.verb == POST
              && r.value.headers == headers
              && r.value.body.Some?
              && r.value.body.value.Keys == {"scoring_id"}
              && r.value.body.value["scoring_id"] == scoringId
    ensures r.Ok? ==> r.value.url == "/v1/data_marts/" + enc(dataMartId) + "/explanation_tasks"
    ensures r.Ok? && '/' !in enc(dataMartId) ==>
              Segments(r.value.url) == ["", "v1", "data_marts", enc(dataMartId), "explanation_tasks"]
  {
    var args := [Arg("data_mart_id", dataMartId), Arg("scoring_id", scoringId)];
    assert dataMartId.Null? ==> FirstNone(args, 0);
    assert !dataMartId.Null? && scoringId.Null? ==> FirstNone(args, 1);
    var _ :- CheckProvided(args);
    var path := DataMartPath(enc(dataMartId), "explanation_tasks");
    ExplanationTasksText(enc(dataMartId));
    Ok(Request(POST, Join(path), Merge(map[], headers), Some(map["scoring_id" := scoringId])))
  }

  /** `fairness_monitoring_debias`: six required arguments; the transaction
      id travels as a header, which caller headers override. */
  function FairnessMonitoringDebias(enc: Json -> string, dataMartId: Json, bindingId: Json,
                                    subscriptionId: Json, deploymentId: Json, fields: Json,
                                    values: Json, transactionId: Json,
                                    headers: Headers): (r: Result<Request, ArgError>)
    ensures r.Ok? <==> && !dataMartId.Null? && !bindingId.Null? && !subscriptionId.Null?
                       && !deploymentId.Null? && !fields.Null? && !values.Null?
    ensures dataMartId.Null? ==> r == Err(MissingArgument("data_mart_id"))
    ensures !dataMartId.Null? && bindingId.Null? ==> r == Err(MissingArgument("binding_id"))
    ensures !dataMartId.Null? && !bindingId.Null? && subscriptionId.Null? ==>
              r == Err(MissingArgument("subscription_id"))
    ensures !dataMartId.Null? && !bindingId.Null? && !subscriptionId.Null? && deploymentId.Null? ==>
              r == Err(MissingArgument("deployment_id"))
    ensures && !dataMartId.Null? && !bindingId.Null? && !subscriptionId.Null? && !deploymentId.Null?
            && fields.Null? ==>
              r == Err(MissingArgument("fields"))
    ensures && !dataMartId.Null? && !bindingId.Null? && !subscriptionId.Null? && !deploymentId.Null?
            && !fields.Null? && values.Null? ==>
              r == Err(MissingArgument("values"))
    ensures r.Ok? ==>
              && r.value.verb == POST
              && r.value.headers.Keys == {TransactionHeader} + headers.Keys
              && (forall k :: k in headers ==> r.value.headers[k] == headers[k])
              && (TransactionHeader !in headers ==> r.value.headers[TransactionHeader] == transactionId)
              && r.value.body.Some?
              && r.value.body.value.Keys == {"fields", "values"}
              && r.value.body.value["fields"] == fields
              && r.value.body.value["values"] == values
    ensures r.Ok? ==>
              r.value.url == "/v1/data_marts/" + enc(dataMartId) + "/service_bindings/" + enc(bindingId)
                             + "/subscriptions/" + enc(subscriptionId) + "/deployments/" + enc(deploymentId)
                             + "/online"
    ensures && r.Ok? && '/' !in enc(dataMartId) && '/' !in enc(bindingId)
            && '/' !in enc(subscriptionId) && '/' !in enc(deploymentId) ==>
              Segments(r.value.url)
              == ["", "v1", "data_marts", enc(dataMartId), "service_bindings", enc(bindingId),
                  "subscriptions", enc(subscriptionId), "deployments", enc(deploymentId), "online"]
  {
    var args := [Arg("data_mart_id", dataMartId), Arg("binding_id", bindingId),
                 Arg("subscription_id", subscriptionId), Arg("deployment_id", deploymentId),
                 Arg("fields", fields), Arg("values", values)];
    assert dataMartId.Null? ==> FirstNone(args, 0);
    assert !dataMartId.Null? && bindingId.Null? ==> FirstNone(args, 1);
    assert !dataMartId.Null? && !bindingId.Null? && subscriptionId.Null? ==> FirstNone(args, 2);
    assert !dataMartId.Null? && !bindingId.Null? && !subscriptionId.Null? && deploymentId.Null? ==>
             FirstNone(args, 3);
    assert (&& !dataMartId.Null? && !bindingId.Null? && !subscriptionId.Null? && !deploymentId.Null?
            && fields.Null?) ==> FirstNone(args, 4);
    assert (&& !dataMartId.Null? && !bindingId.Null? && !subscriptionId.Null? && !deploymentId.Null?
            && !fields.Null? && values.Null?) ==> FirstNone(args, 5);
    var _ :- CheckProvided(args);
    var path := DebiasPath(enc(dataMartId), enc(bindingId), enc(subscriptionId), enc(deploymentId));
    Ok(Request(POST, Join(path), Merge(map[TransactionHeader := transactionId], headers),
               Some(map["fields" := fields, "values" := values])))
  }
}
