/** Concrete requests and payloads, worked through the model. The path
    encoder is taken to be the identity on strings. */
module Scenarios {
  import opened Results
  import opened Json
  import opened Service

  /** The path encoder of these scenarios: a string's own text. */
  function AsText(j: Json): string {
    if j.Str? then j.s else ""
  }

  /** A feedback upload for data mart `dm1` without field names: it goes to
      that data mart's feedback endpoint, and the body handed to `request`
      has `fields: null`. */
  lemma FeedbackForDataMart()
    ensures var r := PostFeedbackPayload(AsText, Str("dm1"), Str("b1"), Str("s1"), Array([]), Null, map[]);
            && r.Ok?
            && Segments(r.value.url) == ["", "v1", "data_marts", "dm1", "feedback_payloads"]
            && r.value.body.value["fields"] == Null
  {
  }

  /** The same upload's URL, as text. */
  lemma FeedbackUrl()
    ensures var r := PostFeedbackPayload(AsText, Str("dm1"), Str("b1"), Str("s1"), Array([]), Null, map[]);
            && r.Ok?
            && r.value.url == "/v1/data_marts/dm1/feedback_payloads"
  {
    assert AsText(Str("dm1")) == "dm1";
    assert "/v1/data_marts/" + "dm1" + "/feedback_payloads" == "/v1/data_marts/dm1/feedback_payloads";
  }

  /** Every identifier given but no rows: the error names `values`. */
  lemma FeedbackWithoutValues()
    ensures PostFeedbackPayload(AsText, Str("dm1"), Str("b1"), Str("s1"), Null, Null, map[])
            == Err(MissingArgument("values"))
  {
  }

  /** A caller header for the transaction id beats the argument. */
  lemma DebiasHeaderOverride()
    ensures var r := FairnessMonitoringDebias(AsText, Str("dm1"), Str("b1"), Str("s1"), Str("d1"),
                                              Array([Str("age")]), Array([Array([Number("33")])]),
                                              Str("tx-1"), map[TransactionHeader := Str("tx-2")]);
            && r.Ok?
            && r.value.headers == map[TransactionHeader := Str("tx-2")]
  {
  }

  /** Without caller headers, the headers handed to `request` hold the
      transaction id as given, `None` included. */
  lemma DebiasTransactionHeader()
    ensures var r := FairnessMonitoringDebias(AsText, Str("dm1"), Str("b1"), Str("s1"), Str("d1"),
                                              Array([]), Array([]), Null, map[]);
            && r.Ok?
            && r.value.headers == map[TransactionHeader := Null]
  {
  }
}
