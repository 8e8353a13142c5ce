module ModelLaws {
  import opened Results
  import opened Json
  import opened Codec
  import opened Schemas
  import opened Models

  /** `PostStatus` agrees with its schema: same errors, and encoding what was
      decoded gives the canonical form. */
  lemma PostStatusAgrees(d: Dict)
    ensures Agrees(PostStatusSchema, DecodePostStatus, EncodePostStatus, d)
  {
    var s := PostStatusSchema;
    ScalarFieldAgrees(s, 0, map[], d);
    if CanonField(s, 0, d).Ok? {
      var a1 := Assign(map[], "state", CanonField(s, 0, d).value);
      assert CanonFields(s, 0, map[], d) == CanonFields(s, 1, a1, d);
      assert CanonFields(s, 1, a1, d) == Ok(a1);
    }
  }

  lemma PostStatusImplements()
    ensures Implements(PostStatusSchema, DecodePostStatus, EncodePostStatus)
  {
    forall d: Dict ensures Agrees(PostStatusSchema, DecodePostStatus, EncodePostStatus, d) {
      PostStatusAgrees(d);
    }
  }

  /** `PostEntity` agrees with its schema: same errors, and encoding what was
      decoded gives the canonical form. */
  lemma PostEntityAgrees(d: Dict)
    ensures Agrees(PostEntitySchema, DecodePostEntity, EncodePostEntity, d)
  {
    var s := PostEntitySchema;
    PostStatusImplements();
    RecordFieldAgrees(s, 0, map[], d, DecodePostStatus, EncodePostStatus);
    if CanonField(s, 0, d).Ok? {
      var a1 := Assign(map[], "status", CanonField(s, 0, d).value);
      assert CanonFields(s, 0, map[], d) == CanonFields(s, 1, a1, d);
      assert CanonFields(s, 1, a1, d) == Ok(a1);
    }
  }

  lemma PostEntityImplements()
    ensures Implements(PostEntitySchema, DecodePostEntity, EncodePostEntity)
  {
    forall d: Dict ensures Agrees(PostEntitySchema, DecodePostEntity, EncodePostEntity, d) {
      PostEntityAgrees(d);
    }
  }

  /** `Status` agrees with its schema: same errors, and encoding what was
      decoded gives the canonical form. */
  lemma StatusAgrees(d: Dict)
    ensures Agrees(StatusSchema, DecodeStatus, EncodeStatus, d)
  {
    var s := StatusSchema;
    ScalarFieldAgrees(s, 0, map[], d);
    if CanonField(s, 0, d).Ok? {
      var a1 := Assign(map[], "state", CanonField(s, 0, d).value);
      assert CanonFields(s, 0, map[], d) == CanonFields(s, 1, a1, d);
      ScalarFieldAgrees(s, 1, a1, d);
      if CanonField(s, 1, d).Ok? {
        var a2 := Assign(a1, "lime_state", CanonField(s, 1, d).value);
        assert CanonFields(s, 1, a1, d) == CanonFields(s, 2, a2, d);
        ScalarFieldAgrees(s, 2, a2, d);
        if CanonField(s, 2, d).Ok? {
          var a3 := Assign(a2, "cem_state", CanonField(s, 2, d).value);
          assert CanonFields(s, 2, a2, d) == CanonFields(s, 3, a3, d);
          assert CanonFields(s, 3, a3, d) == Ok(a3);
        }
      }
    }
  }

  lemma StatusImplements()
    ensures Implements(StatusSchema, DecodeStatus, EncodeStatus)
  {
    forall d: Dict ensures Agrees(StatusSchema, DecodeStatus, EncodeStatus, d) {
      StatusAgrees(d);
    }
  }

  /** `Deployment` agrees with its schema: same errors, and encoding what was
      decoded gives the canonical form. */
  lemma DeploymentAgrees(d: Dict)
    ensures Agrees(DeploymentSchema, DecodeDeployment, EncodeDeployment, d)
  {
    var s := DeploymentSchema;
    ScalarFieldAgrees(s, 0, map[], d);
    if CanonField(s, 0, d).Ok? {
      var a1 := Assign(map[], "id", CanonField(s, 0, d).value);
      assert CanonFields(s, 0, map[], d) == CanonFields(s, 1, a1, d);
      ScalarFieldAgrees(s, 1, a1, d);
      if CanonField(s, 1, d).Ok? {
        var a2 := Assign(a1, "name", CanonField(s, 1, d).value);
        assert CanonFields(s, 1, a1, d) == CanonFields(s, 2, a2, d);
        assert CanonFields(s, 2, a2, d) == Ok(a2);
      }
    }
  }

  lemma DeploymentImplements()
    ensures Implements(DeploymentSchema, DecodeDeployment, EncodeDeployment)
  {
    forall d: Dict ensures Agrees(DeploymentSchema, DecodeDeployment, EncodeDeployment, d) {
      DeploymentAgrees(d);
    }
  }

  /** `Asset` agrees with its schema: same errors, and encoding what was
      decoded gives the canonical form. */
  lemma AssetAgrees(d: Dict)
    ensures Agrees(AssetSchema, DecodeAsset, EncodeAsset, d)
  {
    var s := AssetSchema;
    DeploymentImplements();
    ScalarFieldAgrees(s, 0, map[], d);
    if CanonField(s, 0, d).Ok? {
      var a1 := Assign(map[], "id", CanonField(s, 0, d).value);
      assert CanonFields(s, 0, map[], d) == CanonFields(s, 1, a1, d);
      ScalarFieldAgrees(s, 1, a1, d);
      if CanonField(s, 1, d).Ok? {
        var a2 := Assign(a1, "name", CanonField(s, 1, d).value);
        assert CanonFields(s, 1, a1, d) == CanonFields(s, 2, a2, d);
        ScalarFieldAgrees(s, 2, a2, d);
        if CanonField(s, 2, d).Ok? {
          var a3 := Assign(a2, "type", CanonField(s, 2, d).value);
          assert CanonFields(s, 2, a2, d) == CanonFields(s, 3, a3, d);
          RecordFieldAgrees(s, 3, a3, d, DecodeDeployment, EncodeDeployment);
          if CanonField(s, 3, d).Ok? {
            var a4 := Assign(a3, "deployment", CanonField(s, 3, d).value);
            assert CanonFields(s, 3, a3, d) == CanonFields(s, 4, a4, d);
            assert CanonFields(s, 4, a4, d) == Ok(a4);
          }
        }
      }
    }
  }

  lemma AssetImplements()
    ensures Implements(AssetSchema, DecodeAsset, EncodeAsset)
  {
    forall d: Dict ensures Agrees(AssetSchema, DecodeAsset, EncodeAsset, d) {
      AssetAgrees(d);
    }
  }

  /** `Range` agrees with its schema: same errors, and encoding what was
      decoded gives the canonical form. */
  lemma RangeAgrees(d: Dict)
    ensures Agrees(RangeSchema, DecodeRange, EncodeRange, d)
  {
    var s := RangeSchema;
    ScalarFieldAgrees(s, 0, map[], d);
    if CanonField(s, 0, d).Ok? {
      var a1 := Assign(map[], "min", CanonField(s, 0, d).value);
      assert CanonFields(s, 0, map[], d) == CanonFields(s, 1, a1, d);
      ScalarFieldAgrees(s, 1, a1, d);
      if CanonField(s, 1, d).Ok? {
        var a2 := Assign(a1, "min_inclusive", CanonField(s, 1, d).value);
        assert CanonFields(s, 1, a1, d) == CanonFields(s, 2, a2, d);
        ScalarFieldAgrees(s, 2, a2, d);
        if CanonField(s, 2, d).Ok? {
          var a3 := Assign(a2, "max", CanonField(s, 2, d).value);
          assert CanonFields(s, 2, a2, d) == CanonFields(s, 3, a3, d);
          ScalarFieldAgrees(s, 3, a3, d);
          if CanonField(s, 3, d).Ok? {
            var a4 := Assign(a3, "max_inclusive", CanonField(s, 3, d).value);
            assert CanonFields(s, 3, a3, d) == CanonFields(s, 4, a4, d);
            assert CanonFields(s, 4, a4, d) == Ok(a4);
          }
        }
      }
    }
  }

  lemma RangeImplements()
    ensures Implements(RangeSchema, DecodeRange, EncodeRange)
  {
    forall d: Dict ensures Agrees(RangeSchema, DecodeRange, EncodeRange, d) {
      RangeAgrees(d);
    }
  }

  /** `Feature` agrees with its schema: same errors, and encoding what was
      decoded gives the canonical form. */
  lemma FeatureAgrees(d: Dict)
    ensures Agrees(FeatureSchema, DecodeFeature, EncodeFeature, d)
  {
    var s := FeatureSchema;
    RangeImplements();
    ScalarFieldAgrees(s, 0, map[], d);
    if CanonField(s, 0, d).Ok? {
      var a1 := Assign(map[], "feature_name", CanonField(s, 0, d).value);
      assert CanonFields(s, 0, map[], d) == CanonFields(s, 1, a1, d);
      ScalarFieldAgrees(s, 1, a1, d);
      if CanonField(s, 1, d).Ok? {
        var a2 := Assign(a1, "weight", CanonField(s, 1, d).value);
        assert CanonFields(s, 1, a1, d) == CanonFields(s, 2, a2, d);
        ScalarFieldAgrees(s, 2, a2, d);
        if CanonField(s, 2, d).Ok? {
          var a3 := Assign(a2, "importance", CanonField(s, 2, d).value);
          assert CanonFields(s, 2, a2, d) == CanonFields(s, 3, a3, d);
          ScalarFieldAgrees(s, 3, a3, d);
          if CanonField(s, 3, d).Ok? {
            var a4 := Assign(a3, "feature_value", CanonField(s, 3, d).value);
            assert CanonFields(s, 3, a3, d) == CanonFields(s, 4, a4, d);
            RecordFieldAgrees(s, 4, a4, d, DecodeRange, EncodeRange);
            if CanonField(s, 4, d).Ok? {
              var a5 := Assign(a4, "feature_range", CanonField(s, 4, d).value);
              assert CanonFields(s, 4, a4, d) == CanonFields(s, 5, a5, d);
              assert CanonFields(s, 5, a5, d) == Ok(a5);
            }
          }
        }
      }
    }
  }

  lemma FeatureImplements()
    ensures Implements(FeatureSchema, DecodeFeature, EncodeFeature)
  {
    forall d: Dict ensures Agrees(FeatureSchema, DecodeFeature, EncodeFeature, d) {
      FeatureAgrees(d);
    }
  }

  /** `InputFeature` agrees with its schema: same errors, and encoding what was
      decoded gives the canonical form. */
  lemma InputFeatureAgrees(d: Dict)
    ensures Agrees(InputFeatureSchema, DecodeInputFeature, EncodeInputFeature, d)
  {
    var s := InputFeatureSchema;
    ScalarFieldAgrees(s, 0, map[], d);
    if CanonField(s, 0, d).Ok? {
      var a1 := Assign(map[], "name", CanonField(s, 0, d).value);
      assert CanonFields(s, 0, map[], d) == CanonFields(s, 1, a1, d);
      ScalarFieldAgrees(s, 1, a1, d);
      if CanonField(s, 1, d).Ok? {
        var a2 := Assign(a1, "value", CanonField(s, 1, d).value);
        assert CanonFields(s, 1, a1, d) == CanonFields(s, 2, a2, d);
        ScalarFieldAgrees(s, 2, a2, d);
        if CanonField(s, 2, d).Ok? {
          var a3 := Assign(a2, "feature_type", CanonField(s, 2, d).value);
          assert CanonFields(s, 2, a2, d) == CanonFields(s, 3, a3, d);
          assert CanonFields(s, 3, a3, d) == Ok(a3);
        }
      }
    }
  }

  lemma InputFeatureImplements()
    ensures Implements(InputFeatureSchema, DecodeInputFeature, EncodeInputFeature)
  {
    forall d: Dict ensures Agrees(InputFeatureSchema, DecodeInputFeature, EncodeInputFeature, d) {
      InputFeatureAgrees(d);
    }
  }

  /** `Prediction` agrees with its schema: same errors, and encoding what was
      decoded gives the canonical form. */
  lemma PredictionAgrees(d: Dict)
    ensures Agrees(PredictionSchema, DecodePrediction, EncodePrediction, d)
  {
    var s := PredictionSchema;
    FeatureImplements();
    ScalarFieldAgrees(s, 0, map[], d);
    if CanonField(s, 0, d).Ok? {
      var a1 := Assign(map[], "value", CanonField(s, 0, d).value);
      assert CanonFields(s, 0, map[], d) == CanonFields(s, 1, a1, d);
      ScalarFieldAgrees(s, 1, a1, d);
      if CanonField(s, 1, d).Ok? {
        var a2 := Assign(a1, "probability", CanonField(s, 1, d).value);
        assert CanonFields(s, 1, a1, d) == CanonFields(s, 2, a2, d);
        ListFieldAgrees(s, 2, a2, d, DecodeFeature, EncodeFeature);
        if CanonField(s, 2, d).Ok? {
          var a3 := Assign(a2, "explanation_features", CanonField(s, 2, d).value);
          assert CanonFields(s, 2, a2, d) == CanonFields(s, 3, a3, d);
          assert CanonFields(s, 3, a3, d) == Ok(a3);
        }
      }
    }
  }

  lemma PredictionImplements()
    ensures Implements(PredictionSchema, DecodePrediction, EncodePrediction)
  {
    forall d: Dict ensures Agrees(PredictionSchema, DecodePrediction, EncodePrediction, d) {
      PredictionAgrees(d);
    }
  }

  /** `Contrastive` agrees with its schema: same errors, and encoding what was
      decoded gives the canonical form. */
  lemma ContrastiveAgrees(d: Dict)
    ensures Agrees(ContrastiveSchema, DecodeContrastive, EncodeContrastive, d)
  {
    var s := ContrastiveSchema;
    FeatureImplements();
    ListFieldAgrees(s, 0, map[], d, DecodeFeature, EncodeFeature);
    if CanonField(s, 0, d).Ok? {
      var a1 := Assign(map[], "pertinent_positive_features", CanonField(s, 0, d).value);
      assert CanonFields(s, 0, map[], d) == CanonFields(s, 1, a1, d);
      ListFieldAgrees(s, 1, a1, d, DecodeFeature, EncodeFeature);
      if CanonField(s, 1, d).Ok? {
        var a2 := Assign(a1, "pertinent_negative_features", CanonField(s, 1, d).value);
        assert CanonFields(s, 1, a1, d) == CanonFields(s, 2, a2, d);
        assert CanonFields(s, 2, a2, d) == Ok(a2);
      }
    }
  }

  lemma ContrastiveImplements()
    ensures Implements(ContrastiveSchema, DecodeContrastive, EncodeContrastive)
  {
    forall d: Dict ensures Agrees(ContrastiveSchema, DecodeContrastive, EncodeContrastive, d) {
      ContrastiveAgrees(d);
    }
  }

  /** `Entity` agrees with its schema: same errors, and encoding what was
      decoded gives the canonical form. */
  lemma EntityAgrees(d: Dict)
    ensures Agrees(EntitySchema, DecodeEntity, EncodeEntity, d)
  {
    var s := EntitySchema;
    AssetImplements();
    ContrastiveImplements();
    InputFeatureImplements();
    PredictionImplements();
    StatusImplements();
    RecordFieldAgrees(s, 0, map[], d, DecodeStatus, EncodeStatus);
    if CanonField(s, 0, d).Ok? {
      var a1 := Assign(map[], "status", CanonField(s, 0, d).value);
      assert CanonFields(s, 0, map[], d) == CanonFields(s, 1, a1, d);
      RecordFieldAgrees(s, 1, a1, d, DecodeAsset, EncodeAsset);
      if CanonField(s, 1, d).Ok? {
        var a2 := Assign(a1, "asset", CanonField(s, 1, d).value);
        assert CanonFields(s, 1, a1, d) == CanonFields(s, 2, a2, d);
        ListFieldAgrees(s, 2, a2, d, DecodeInputFeature, EncodeInputFeature);
        if CanonField(s, 2, d).Ok? {
          var a3 := Assign(a2, "input_features", CanonField(s, 2, d).value);
          assert CanonFields(s, 2, a2, d) == CanonFields(s, 3, a3, d);
          ListFieldAgrees(s, 3, a3, d, DecodePrediction, EncodePrediction);
          if CanonField(s, 3, d).Ok? {
            var a4 := Assign(a3, "predictions", CanonField(s, 3, d).value);
            assert CanonFields(s, 3, a3, d) == CanonFields(s, 4, a4, d);
            RecordFieldAgrees(s, 4, a4, d, DecodeContrastive, EncodeContrastive);
            if CanonField(s, 4, d).Ok? {
              var a5 := Assign(a4, "contrastive_explanation", CanonField(s, 4, d).value);
              assert CanonFields(s, 4, a4, d) == CanonFields(s, 5, a5, d);
              assert CanonFields(s, 5, a5, d) == Ok(a5);
            }
          }
        }
      }
    }
  }

  lemma EntityImplements()
    ensures Implements(EntitySchema, DecodeEntity, EncodeEntity)
  {
    forall d: Dict ensures Agrees(EntitySchema, DecodeEntity, EncodeEntity, d) {
      EntityAgrees(d);
    }
  }

  /** `Metadata` agrees with its schema: same errors, and encoding what was
      decoded gives the canonical form. */
  lemma MetadataAgrees(d: Dict)
    ensures Agrees(MetadataSchema, DecodeMetadata, EncodeMetadata, d)
  {
    var s := MetadataSchema;
    ScalarFieldAgrees(s, 0, map[], d);
    if CanonField(s, 0, d).Ok? {
      var a1 := Assign(map[], "id", CanonField(s, 0, d).value);
      assert CanonFields(s, 0, map[], d) == CanonFields(s, 1, a1, d);
      ScalarFieldAgrees(s, 1, a1, d);
      if CanonField(s, 1, d).Ok? {
        var a2 := Assign(a1, "created_by", CanonField(s, 1, d).value);
        assert CanonFields(s, 1, a1, d) == CanonFields(s, 2, a2, d);
        ScalarFieldAgrees(s, 2, a2, d);
        if CanonField(s, 2, d).Ok? {
          var a3 := Assign(a2, "created_at", CanonField(s, 2, d).value);
          assert CanonFields(s, 2, a2, d) == CanonFields(s, 3, a3, d);
          ScalarFieldAgrees(s, 3, a3, d);
          if CanonField(s, 3, d).Ok? {
            var a4 := Assign(a3, "updated_at", CanonField(s, 3, d).value);
            assert CanonFields(s, 3, a3, d) == CanonFields(s, 4, a4, d);
            assert CanonFields(s, 4, a4, d) == Ok(a4);
          }
        }
      }
    }
  }

  lemma MetadataImplements()
    ensures Implements(MetadataSchema, DecodeMetadata, EncodeMetadata)
  {
    forall d: Dict ensures Agrees(MetadataSchema, DecodeMetadata, EncodeMetadata, d) {
      MetadataAgrees(d);
    }
  }

  /** `Remediation` agrees with its schema: same errors, and encoding what was
      decoded gives the canonical form. */
  lemma RemediationAgrees(d: Dict)
    ensures Agrees(RemediationSchema, DecodeRemediation, EncodeRemediation, d)
  {
    var s := RemediationSchema;
    ScalarFieldAgrees(s, 0, map[], d);
    if CanonField(s, 0, d).Ok? {
      var a1 := Assign(map[], "fields", CanonField(s, 0, d).value);
      assert CanonFields(s, 0, map[], d) == CanonFields(s, 1, a1, d);
      ScalarFieldAgrees(s, 1, a1, d);
      if CanonField(s, 1, d).Ok? {
        var a2 := Assign(a1, "values", CanonField(s, 1, d).value);
        assert CanonFields(s, 1, a1, d) == CanonFields(s, 2, a2, d);
        assert CanonFields(s, 2, a2, d) == Ok(a2);
      }
    }
  }

  lemma RemediationImplements()
    ensures Implements(RemediationSchema, DecodeRemediation, EncodeRemediation)
  {
    forall d: Dict ensures Agrees(RemediationSchema, DecodeRemediation, EncodeRemediation, d) {
      RemediationAgrees(d);
    }
  }

  /** `GetResponse` agrees with its schema: same errors, and encoding what was
      decoded gives the canonical form. */
  lemma GetResponseAgrees(d: Dict)
    ensures Agrees(GetResponseSchema, DecodeGetResponse, EncodeGetResponse, d)
  {
    var s := GetResponseSchema;
    EntityImplements();
    MetadataImplements();
    RecordFieldAgrees(s, 0, map[], d, DecodeMetadata, EncodeMetadata);
    if CanonField(s, 0, d).Ok? {
      var a1 := Assign(map[], "metadata", CanonField(s, 0, d).value);
      assert CanonFields(s, 0, map[], d) == CanonFields(s, 1, a1, d);
      RecordFieldAgrees(s, 1, a1, d, DecodeEntity, EncodeEntity);
      if CanonField(s, 1, d).Ok? {
        var a2 := Assign(a1, "entity", CanonField(s, 1, d).value);
        assert CanonFields(s, 1, a1, d) == CanonFields(s, 2, a2, d);
        assert CanonFields(s, 2, a2, d) == Ok(a2);
      }
    }
  }

  lemma GetResponseImplements()
    ensures Implements(GetResponseSchema, DecodeGetResponse, EncodeGetResponse)
  {
    forall d: Dict ensures Agrees(GetResponseSchema, DecodeGetResponse, EncodeGetResponse, d) {
      GetResponseAgrees(d);
    }
  }

  /** `PostResponse` agrees with its schema: same errors, and encoding what was
      decoded gives the canonical form. */
  lemma PostResponseAgrees(d: Dict)
    ensures Agrees(PostResponseSchema, DecodePostResponse, EncodePostResponse, d)
  {
    var s := PostResponseSchema;
    MetadataImplements();
    PostEntityImplements();
    RecordFieldAgrees(s, 0, map[], d, DecodeMetadata, EncodeMetadata);
    if CanonField(s, 0, d).Ok? {
      var a1 := Assign(map[], "metadata", CanonField(s, 0, d).value);
      assert CanonFields(s, 0, map[], d) == CanonFields(s, 1, a1, d);
      RecordFieldAgrees(s, 1, a1, d, DecodePostEntity, EncodePostEntity);
      if CanonField(s, 1, d).Ok? {
        var a2 := Assign(a1, "entity", CanonField(s, 1, d).value);
        assert CanonFields(s, 1, a1, d) == CanonFields(s, 2, a2, d);
        assert CanonFields(s, 2, a2, d) == Ok(a2);
      }
    }
  }

  lemma PostResponseImplements()
    ensures Implements(PostResponseSchema, DecodePostResponse, EncodePostResponse)
  {
    forall d: Dict ensures Agrees(PostResponseSchema, DecodePostResponse, EncodePostResponse, d) {
      PostResponseAgrees(d);
    }
  }
  lemma PostStatusRoundTrip(x: PostExplanationStatus)
    ensures DecodePostStatus(EncodePostStatus(x)) == Ok(x)
  {
  }

  lemma PostEntityRoundTrip(x: PostExplanationEntity)
    ensures DecodePostEntity(EncodePostEntity(x)) == Ok(x) <==> PostEntityComplete(x)
  {
  }

  lemma StatusRoundTrip(x: ExplanationStatus)
    ensures DecodeStatus(EncodeStatus(x)) == Ok(x)
  {
  }

  lemma DeploymentRoundTrip(x: AssetDeployment)
    ensures DecodeDeployment(EncodeDeployment(x)) == Ok(x)
  {
  }

  lemma AssetRoundTrip(x: Asset)
    ensures DecodeAsset(EncodeAsset(x)) == Ok(x)
  {
  }

  lemma RangeRoundTrip(x: FeatureRange)
    ensures DecodeRange(EncodeRange(x)) == Ok(x)
  {
  }

  lemma FeatureRoundTrip(x: ExplanationFeature)
    ensures DecodeFeature(EncodeFeature(x)) == Ok(x)
  {
    var e := EncodeFeature(x);
    var n := FeatureSchema.name;
    if x.featureRange.Some? {
      RangeRoundTrip(x.featureRange.value);
    }
    RecordFieldRoundTrip(n, e, "feature_range", false, x.featureRange, DecodeRange, EncodeRange);
  }

  lemma InputFeatureRoundTrip(x: InputFeature)
    ensures DecodeInputFeature(EncodeInputFeature(x)) == Ok(x)
  {
  }

  lemma PredictionRoundTrip(x: Prediction)
    ensures DecodePrediction(EncodePrediction(x)) == Ok(x)
  {
    var e := EncodePrediction(x);
    var n := PredictionSchema.name;
    if x.explanationFeatures.Some? {
      var xs := x.explanationFeatures.value;
      forall i | 0 <= i < |xs| ensures DecodeFeature(EncodeFeature(xs[i])) == Ok(xs[i]) {
        FeatureRoundTrip(xs[i]);
      }
    }
    ListFieldRoundTrip(n, e, "explanation_features", x.explanationFeatures, DecodeFeature, EncodeFeature);
  }

  lemma ContrastiveRoundTrip(x: ContrastiveExplanation)
    ensures DecodeContrastive(EncodeContrastive(x)) == Ok(x)
  {
    var e := EncodeContrastive(x);
    var n := ContrastiveSchema.name;
    if x.pertinentPositiveFeatures.Some? {
      var xs := x.pertinentPositiveFeatures.value;
      forall i | 0 <= i < |xs| ensures DecodeFeature(EncodeFeature(xs[i])) == Ok(xs[i]) {
        FeatureRoundTrip(xs[i]);
      }
    }
    ListFieldRoundTrip(n, e, "pertinent_positive_features", x.pertinentPositiveFeatures, DecodeFeature, EncodeFeature);
    if x.pertinentNegativeFeatures.Some? {
      var xs := x.pertinentNegativeFeatures.value;
      forall i | 0 <= i < |xs| ensures DecodeFeature(EncodeFeature(xs[i])) == Ok(xs[i]) {
        FeatureRoundTrip(xs[i]);
      }
    }
    ListFieldRoundTrip(n, e, "pertinent_negative_features", x.pertinentNegativeFeatures, DecodeFeature, EncodeFeature);
  }

  lemma EntityRoundTrip(x: ExplanationEntity)
    ensures DecodeEntity(EncodeEntity(x)) == Ok(x) <==> EntityComplete(x)
  {
    if EntityComplete(x) {
      var e := EncodeEntity(x);
      var n := EntitySchema.name;
      if x.status.Some? {
        StatusRoundTrip(x.status.value);
      }
      RecordFieldRoundTrip(n, e, "status", true, x.status, DecodeStatus, EncodeStatus);
      if x.asset.Some? {
        AssetRoundTrip(x.asset.value);
      }
      RecordFieldRoundTrip(n, e, "asset", false, x.asset, DecodeAsset, EncodeAsset);
      if x.inputFeatures.Some? {
        var xs := x.inputFeatures.value;
        forall i | 0 <= i < |xs| ensures DecodeInputFeature(EncodeInputFeature(xs[i])) == Ok(xs[i]) {
          InputFeatureRoundTrip(xs[i]);
        }
      }
      ListFieldRoundTrip(n, e, "input_features", x.inputFeatures, DecodeInputFeature, EncodeInputFeature);
      if x.predictions.Some? {
        var xs := x.predictions.value;
        forall i | 0 <= i < |xs| ensures DecodePrediction(EncodePrediction(xs[i])) == Ok(xs[i]) {
          PredictionRoundTrip(xs[i]);
        }
      }
      ListFieldRoundTrip(n, e, "predictions", x.predictions, DecodePrediction, EncodePrediction);
      if x.contrastiveExplanation.Some? {
        ContrastiveRoundTrip(x.contrastiveExplanation.value);
      }
      RecordFieldRoundTrip(n, e, "contrastive_explanation", false, x.contrastiveExplanation, DecodeContrastive, EncodeContrastive);
    }
  }

  lemma MetadataRoundTrip(x: ExplanationMetadata)
    ensures DecodeMetadata(EncodeMetadata(x)) == Ok(x) <==> MetadataComplete(x)
  {
  }

  lemma RemediationRoundTrip(x: RemediationResponse)
    ensures DecodeRemediation(EncodeRemediation(x)) == Ok(x) <==> RemediationComplete(x)
  {
  }

  lemma GetResponseRoundTrip(x: GetExplanationResponse)
    ensures DecodeGetResponse(EncodeGetResponse(x)) == Ok(x) <==> GetResponseComplete(x)
  {
    var e := EncodeGetResponse(x);
    var n := GetResponseSchema.name;
    if x.metadata.Some? {
      MetadataRoundTrip(x.metadata.value);
    }
    if x.entity.Some? {
      EntityRoundTrip(x.entity.value);
    }
    if GetResponseComplete(x) {
      RecordFieldRoundTrip(n, e, "metadata", true, x.metadata, DecodeMetadata, EncodeMetadata);
      RecordFieldRoundTrip(n, e, "entity", true, x.entity, DecodeEntity, EncodeEntity);
    }
  }

  lemma PostResponseRoundTrip(x: PostExplanationResponse)
    ensures DecodePostResponse(EncodePostResponse(x)) == Ok(x) <==> PostResponseComplete(x)
  {
  }
  lemma PostStatusIgnoresUnknown(d: Dict, extra: Dict)
    requires extra.Keys !! Keys(PostStatusSchema)
    ensures DecodePostStatus(d + extra) == DecodePostStatus(d)
  {
    PostStatusImplements();
    assert Injective(EncodePostStatus) by {
      forall a, b | EncodePostStatus(a) == EncodePostStatus(b) ensures a == b {
        PostStatusEncodeInjective(a, b);
      }
    }
    DecodeIgnoresUndeclared(PostStatusSchema, DecodePostStatus, EncodePostStatus, d, extra);
  }

  lemma PostEntityIgnoresUnknown(d: Dict, extra: Dict)
    requires extra.Keys !! Keys(PostEntitySchema)
    ensures DecodePostEntity(d + extra) == DecodePostEntity(d)
  {
    PostEntityImplements();
    assert Injective(EncodePostEntity) by {
      forall a, b | EncodePostEntity(a) == EncodePostEntity(b) ensures a == b {
        PostEntityEncodeInjective(a, b);
      }
    }
    DecodeIgnoresUndeclared(PostEntitySchema, DecodePostEntity, EncodePostEntity, d, extra);
  }

  lemma StatusIgnoresUnknown(d: Dict, extra: Dict)
    requires extra.Keys !! Keys(StatusSchema)
    ensures DecodeStatus(d + extra) == DecodeStatus(d)
  {
    StatusImplements();
    assert Injective(EncodeStatus) by {
      forall a, b | EncodeStatus(a) == EncodeStatus(b) ensures a == b {
        StatusEncodeInjective(a, b);
      }
    }
    DecodeIgnoresUndeclared(StatusSchema, DecodeStatus, EncodeStatus, d, extra);
  }

  lemma DeploymentIgnoresUnknown(d: Dict, extra: Dict)
    requires extra.Keys !! Keys(DeploymentSchema)
    ensures DecodeDeployment(d + extra) == DecodeDeployment(d)
  {
    DeploymentImplements();
    assert Injective(EncodeDeployment) by {
      forall a, b | EncodeDeployment(a) == EncodeDeployment(b) ensures a == b {
        DeploymentEncodeInjective(a, b);
      }
    }
    DecodeIgnoresUndeclared(DeploymentSchema, DecodeDeployment, EncodeDeployment, d, extra);
  }

  lemma AssetIgnoresUnknown(d: Dict, extra: Dict)
    requires extra.Keys !! Keys(AssetSchema)
    ensures DecodeAsset(d + extra) == DecodeAsset(d)
  {
    AssetImplements();
    assert Injective(EncodeAsset) by {
      forall a, b | EncodeAsset(a) == EncodeAsset(b) ensures a == b {
        AssetEncodeInjective(a, b);
      }
    }
    DecodeIgnoresUndeclared(AssetSchema, DecodeAsset, EncodeAsset, d, extra);
  }

  lemma RangeIgnoresUnknown(d: Dict, extra: Dict)
    requires extra.Keys !! Keys(RangeSchema)
    ensures DecodeRange(d + extra) == DecodeRange(d)
  {
    RangeImplements();
    assert Injective(EncodeRange) by {
      forall a, b | EncodeRange(a) == EncodeRange(b) ensures a == b {
        RangeEncodeInjective(a, b);
      }
    }
    DecodeIgnoresUndeclared(RangeSchema, DecodeRange, EncodeRange, d, extra);
  }

  lemma FeatureIgnoresUnknown(d: Dict, extra: Dict)
    requires extra.Keys !! Keys(FeatureSchema)
    ensures DecodeFeature(d + extra) == DecodeFeature(d)
  {
    FeatureImplements();
    FeatureInjective();
    DecodeIgnoresUndeclared(FeatureSchema, DecodeFeature, EncodeFeature, d, extra);
  }

  lemma InputFeatureIgnoresUnknown(d: Dict, extra: Dict)
    requires extra.Keys !! Keys(InputFeatureSchema)
    ensures DecodeInputFeature(d + extra) == DecodeInputFeature(d)
  {
    InputFeatureImplements();
    InputFeatureInjective();
    DecodeIgnoresUndeclared(InputFeatureSchema, DecodeInputFeature, EncodeInputFeature, d, extra);
  }

  lemma PredictionIgnoresUnknown(d: Dict, extra: Dict)
    requires extra.Keys !! Keys(PredictionSchema)
    ensures DecodePrediction(d + extra) == DecodePrediction(d)
  {
    PredictionImplements();
    PredictionInjective();
    DecodeIgnoresUndeclared(PredictionSchema, DecodePrediction, EncodePrediction, d, extra);
  }

  lemma ContrastiveIgnoresUnknown(d: Dict, extra: Dict)
    requires extra.Keys !! Keys(ContrastiveSchema)
    ensures DecodeContrastive(d + extra) == DecodeContrastive(d)
  {
    ContrastiveImplements();
    assert Injective(EncodeContrastive) by {
      forall a, b | EncodeContrastive(a) == EncodeContrastive(b) ensures a == b {
        ContrastiveEncodeInjective(a, b);
      }
    }
    DecodeIgnoresUndeclared(ContrastiveSchema, DecodeContrastive, EncodeContrastive, d, extra);
  }

  lemma EntityIgnoresUnknown(d: Dict, extra: Dict)
    requires extra.Keys !! Keys(EntitySchema)
    ensures DecodeEntity(d + extra) == DecodeEntity(d)
  {
    EntityImplements();
    assert Injective(EncodeEntity) by {
      forall a, b | EncodeEntity(a) == EncodeEntity(b) ensures a == b {
        EntityEncodeInjective(a, b);
      }
    }
    DecodeIgnoresUndeclared(EntitySchema, DecodeEntity, EncodeEntity, d, extra);
  }

  lemma MetadataIgnoresUnknown(d: Dict, extra: Dict)
    requires extra.Keys !! Keys(MetadataSchema)
    ensures DecodeMetadata(d + extra) == DecodeMetadata(d)
  {
    MetadataImplements();
    assert Injective(EncodeMetadata) by {
      forall a, b | EncodeMetadata(a) == EncodeMetadata(b) ensures a == b {
        MetadataEncodeInjective(a, b);
      }
    }
    DecodeIgnoresUndeclared(MetadataSchema, DecodeMetadata, EncodeMetadata, d, extra);
  }

  lemma RemediationIgnoresUnknown(d: Dict, extra: Dict)
    requires extra.Keys !! Keys(RemediationSchema)
    ensures DecodeRemediation(d + extra) == DecodeRemediation(d)
  {
    RemediationImplements();
    assert Injective(EncodeRemediation) by {
      forall a, b | EncodeRemediation(a) == EncodeRemediation(b) ensures a == b {
        RemediationEncodeInjective(a, b);
      }
    }
    DecodeIgnoresUndeclared(RemediationSchema, DecodeRemediation, EncodeRemediation, d, extra);
  }

  lemma GetResponseIgnoresUnknown(d: Dict, extra: Dict)
    requires extra.Keys !! Keys(GetResponseSchema)
    ensures DecodeGetResponse(d + extra) == DecodeGetResponse(d)
  {
    GetResponseImplements();
    assert Injective(EncodeGetResponse) by {
      forall a, b | EncodeGetResponse(a) == EncodeGetResponse(b) ensures a == b {
        GetResponseEncodeInjective(a, b);
      }
    }
    DecodeIgnoresUndeclared(GetResponseSchema, DecodeGetResponse, EncodeGetResponse, d, extra);
  }

  lemma PostResponseIgnoresUnknown(d: Dict, extra: Dict)
    requires extra.Keys !! Keys(PostResponseSchema)
    ensures DecodePostResponse(d + extra) == DecodePostResponse(d)
  {
    PostResponseImplements();
    assert Injective(EncodePostResponse) by {
      forall a, b | EncodePostResponse(a) == EncodePostResponse(b) ensures a == b {
        PostResponseEncodeInjective(a, b);
      }
    }
    DecodeIgnoresUndeclared(PostResponseSchema, DecodePostResponse, EncodePostResponse, d, extra);
  }
  lemma PostStatusEncodeKeys(x: PostExplanationStatus)
    ensures EncodePostStatus(x).Keys <= Keys(PostStatusSchema)
    ensures NullFree(EncodePostStatus(x))
  {
    var s := PostStatusSchema;
    assert s.fields[0].key in Keys(s);
  }

  lemma PostEntityEncodeKeys(x: PostExplanationEntity)
    ensures EncodePostEntity(x).Keys <= Keys(PostEntitySchema)
    ensures NullFree(EncodePostEntity(x))
  {
    var s := PostEntitySchema;
    assert s.fields[0].key in Keys(s);
  }

  lemma StatusEncodeKeys(x: ExplanationStatus)
    ensures EncodeStatus(x).Keys <= Keys(StatusSchema)
    ensures NullFree(EncodeStatus(x))
  {
    var s := StatusSchema;
    assert s.fields[0].key in Keys(s);
    assert s.fields[1].key in Keys(s);
    assert s.fields[2].key in Keys(s);
  }

  lemma DeploymentEncodeKeys(x: AssetDeployment)
    ensures EncodeDeployment(x).Keys <= Keys(DeploymentSchema)
    ensures NullFree(EncodeDeployment(x))
  {
    var s := DeploymentSchema;
    assert s.fields[0].key in Keys(s);
    assert s.fields[1].key in Keys(s);
  }

  lemma AssetEncodeKeys(x: Asset)
    ensures EncodeAsset(x).Keys <= Keys(AssetSchema)
    ensures NullFree(EncodeAsset(x))
  {
    var s := AssetSchema;
    assert s.fields[0].key in Keys(s);
    assert s.fields[1].key in Keys(s);
    assert s.fields[2].key in Keys(s);
    assert s.fields[3].key in Keys(s);
  }

  lemma RangeEncodeKeys(x: FeatureRange)
    ensures EncodeRange(x).Keys <= Keys(RangeSchema)
    ensures NullFree(EncodeRange(x))
  {
    var s := RangeSchema;
    assert s.fields[0].key in Keys(s);
    assert s.fields[1].key in Keys(s);
    assert s.fields[2].key in Keys(s);
    assert s.fields[3].key in Keys(s);
  }

  lemma FeatureEncodeKeys(x: ExplanationFeature)
    ensures EncodeFeature(x).Keys <= Keys(FeatureSchema)
    ensures NullFree(EncodeFeature(x))
  {
    var s := FeatureSchema;
    assert s.fields[0].key in Keys(s);
    assert s.fields[1].key in Keys(s);
    assert s.fields[2].key in Keys(s);
    assert s.fields[3].key in Keys(s);
    assert s.fields[4].key in Keys(s);
  }

  lemma InputFeatureEncodeKeys(x: InputFeature)
    ensures EncodeInputFeature(x).Keys <= Keys(InputFeatureSchema)
    ensures NullFree(EncodeInputFeature(x))
  {
    var s := InputFeatureSchema;
    assert s.fields[0].key in Keys(s);
    assert s.fields[1].key in Keys(s);
    assert s.fields[2].key in Keys(s);
  }

  lemma PredictionEncodeKeys(x: Prediction)
    ensures EncodePrediction(x).Keys <= Keys(PredictionSchema)
    ensures NullFree(EncodePrediction(x))
  {
    var s := PredictionSchema;
    assert s.fields[0].key in Keys(s);
    assert s.fields[1].key in Keys(s);
    assert s.fields[2].key in Keys(s);
  }

  lemma ContrastiveEncodeKeys(x: ContrastiveExplanation)
    ensures EncodeContrastive(x).Keys <= Keys(ContrastiveSchema)
    ensures NullFree(EncodeContrastive(x))
  {
    var s := ContrastiveSchema;
    assert s.fields[0].key in Keys(s);
    assert s.fields[1].key in Keys(s);
  }

  lemma EntityEncodeKeys(x: ExplanationEntity)
    ensures EncodeEntity(x).Keys <= Keys(EntitySchema)
    ensures NullFree(EncodeEntity(x))
  {
    var s := EntitySchema;
    assert s.fields[0].key in Keys(s);
    assert s.fields[1].key in Keys(s);
    assert s.fields[2].key in Keys(s);
    assert s.fields[3].key in Keys(s);
    assert s.fields[4].key in Keys(s);
  }

  lemma MetadataEncodeKeys(x: ExplanationMetadata)
    ensures EncodeMetadata(x).Keys <= Keys(MetadataSchema)
    ensures NullFree(EncodeMetadata(x))
  {
    var s := MetadataSchema;
    assert s.fields[0].key in Keys(s);
    assert s.fields[1].key in Keys(s);
    assert s.fields[2].key in Keys(s);
    assert s.fields[3].key in Keys(s);
  }

  lemma RemediationEncodeKeys(x: RemediationResponse)
    ensures EncodeRemediation(x).Keys <= Keys(RemediationSchema)
    ensures NullFree(EncodeRemediation(x))
  {
    var s := RemediationSchema;
    assert s.fields[0].key in Keys(s);
    assert s.fields[1].key in Keys(s);
  }

  lemma GetResponseEncodeKeys(x: GetExplanationResponse)
    ensures EncodeGetResponse(x).Keys <= Keys(GetResponseSchema)
    ensures NullFree(EncodeGetResponse(x))
  {
    var s := GetResponseSchema;
    assert s.fields[0].key in Keys(s);
    assert s.fields[1].key in Keys(s);
  }

  lemma PostResponseEncodeKeys(x: PostExplanationResponse)
    ensures EncodePostResponse(x).Keys <= Keys(PostResponseSchema)
    ensures NullFree(EncodePostResponse(x))
  {
    var s := PostResponseSchema;
    assert s.fields[0].key in Keys(s);
    assert s.fields[1].key in Keys(s);
  }
  lemma PostStatusEncodeInjective(x: PostExplanationStatus, y: PostExplanationStatus)
    ensures EncodePostStatus(x) == EncodePostStatus(y) <==> x == y
  {
  }

  lemma PostEntityEncodeInjective(x: PostExplanationEntity, y: PostExplanationEntity)
    ensures EncodePostEntity(x) == EncodePostEntity(y) <==> x == y
  {
  }

  lemma StatusEncodeInjective(x: ExplanationStatus, y: ExplanationStatus)
    ensures EncodeStatus(x) == EncodeStatus(y) <==> x == y
  {
  }

  lemma DeploymentEncodeInjective(x: AssetDeployment, y: AssetDeployment)
    ensures EncodeDeployment(x) == EncodeDeployment(y) <==> x == y
  {
  }

  lemma AssetEncodeInjective(x: Asset, y: Asset)
    ensures EncodeAsset(x) == EncodeAsset(y) <==> x == y
  {
  }

  lemma RangeEncodeInjective(x: FeatureRange, y: FeatureRange)
    ensures EncodeRange(x) == EncodeRange(y) <==> x == y
  {
  }

  lemma FeatureEncodeInjective(x: ExplanationFeature, y: ExplanationFeature)
    ensures EncodeFeature(x) == EncodeFeature(y) <==> x == y
  {
  }

  lemma FeatureInjective()
    ensures Injective(EncodeFeature)
  {
  }

  lemma InputFeatureEncodeInjective(x: InputFeature, y: InputFeature)
    ensures EncodeInputFeature(x) == EncodeInputFeature(y) <==> x == y
  {
  }

  lemma InputFeatureInjective()
    ensures Injective(EncodeInputFeature)
  {
  }

  lemma PredictionEncodeInjective(x: Prediction, y: Prediction)
    ensures EncodePrediction(x) == EncodePrediction(y) <==> x == y
  {
    if EncodePrediction(x) == EncodePrediction(y) {
      FeatureInjective();
      StoresListUnique(EncodePrediction(x), "explanation_features", x.explanationFeatures, y.explanationFeatures, EncodeFeature);
    }
  }

  lemma PredictionInjective()
    ensures Injective(EncodePrediction)
  {
    forall a, b | EncodePrediction(a) == EncodePrediction(b) ensures a == b {
      PredictionEncodeInjective(a, b);
    }
  }

  lemma ContrastiveEncodeInjective(x: ContrastiveExplanation, y: ContrastiveExplanation)
    ensures EncodeContrastive(x) == EncodeContrastive(y) <==> x == y
  {
    if EncodeContrastive(x) == EncodeContrastive(y) {
      FeatureInjective();
      StoresListUnique(EncodeContrastive(x), "pertinent_positive_features", x.pertinentPositiveFeatures, y.pertinentPositiveFeatures, EncodeFeature);
      FeatureInjective();
      StoresListUnique(EncodeContrastive(x), "pertinent_negative_features", x.pertinentNegativeFeatures, y.pertinentNegativeFeatures, EncodeFeature);
    }
  }

  lemma EntityEncodeInjective(x: ExplanationEntity, y: ExplanationEntity)
    ensures EncodeEntity(x) == EncodeEntity(y) <==> x == y
  {
    if EncodeEntity(x) == EncodeEntity(y) {
      if x.status.Some? && y.status.Some? {
        StatusEncodeInjective(x.status.value, y.status.value);
      }
      if x.asset.Some? && y.asset.Some? {
        AssetEncodeInjective(x.asset.value, y.asset.value);
      }
      InputFeatureInjective();
      StoresListUnique(EncodeEntity(x), "input_features", x.inputFeatures, y.inputFeatures, EncodeInputFeature);
      PredictionInjective();
      StoresListUnique(EncodeEntity(x), "predictions", x.predictions, y.predictions, EncodePrediction);
      if x.contrastiveExplanation.Some? && y.contrastiveExplanation.Some? {
        ContrastiveEncodeInjective(x.contrastiveExplanation.value, y.contrastiveExplanation.value);
      }
    }
  }

  lemma MetadataEncodeInjective(x: ExplanationMetadata, y: ExplanationMetadata)
    ensures EncodeMetadata(x) == EncodeMetadata(y) <==> x == y
  {
  }

  lemma RemediationEncodeInjective(x: RemediationResponse, y: RemediationResponse)
    ensures EncodeRemediation(x) == EncodeRemediation(y) <==> x == y
  {
  }

  lemma GetResponseEncodeInjective(x: GetExplanationResponse, y: GetExplanationResponse)
    ensures EncodeGetResponse(x) == EncodeGetResponse(y) <==> x == y
  {
    if EncodeGetResponse(x) == EncodeGetResponse(y) {
      if x.metadata.Some? && y.metadata.Some? {
        MetadataEncodeInjective(x.metadata.value, y.metadata.value);
      }
      if x.entity.Some? && y.entity.Some? {
        EntityEncodeInjective(x.entity.value, y.entity.value);
      }
    }
  }

  lemma PostResponseEncodeInjective(x: PostExplanationResponse, y: PostExplanationResponse)
    ensures EncodePostResponse(x) == EncodePostResponse(y) <==> x == y
  {
  }

  // ------------------------------------------------------ canonical forms
  /** For record types with plain attributes only, `_to_dict(_from_dict(d))`
      is `d` cut down to the declared keys, without those bound to `null`. */
  lemma PostStatusCanonical(d: Dict)
    requires DecodePostStatus(d).Ok?
    ensures EncodePostStatus(DecodePostStatus(d).value) == Restrict(d, Keys(PostStatusSchema))
  {
    PostStatusAgrees(d);
    FlatCanonIsRestriction(PostStatusSchema, 0, map[], d);
    assert KeysFrom(PostStatusSchema, 0) == Keys(PostStatusSchema);
    assert map[] + Restrict(d, Keys(PostStatusSchema)) == Restrict(d, Keys(PostStatusSchema));
  }

  lemma StatusCanonical(d: Dict)
    requires DecodeStatus(d).Ok?
    ensures EncodeStatus(DecodeStatus(d).value) == Restrict(d, Keys(StatusSchema))
  {
    StatusAgrees(d);
    FlatCanonIsRestriction(StatusSchema, 0, map[], d);
    assert KeysFrom(StatusSchema, 0) == Keys(StatusSchema);
    assert map[] + Restrict(d, Keys(StatusSchema)) == Restrict(d, Keys(StatusSchema));
  }

  lemma DeploymentCanonical(d: Dict)
    requires DecodeDeployment(d).Ok?
    ensures EncodeDeployment(DecodeDeployment(d).value) == Restrict(d, Keys(DeploymentSchema))
  {
    DeploymentAgrees(d);
    FlatCanonIsRestriction(DeploymentSchema, 0, map[], d);
    assert KeysFrom(DeploymentSchema, 0) == Keys(DeploymentSchema);
    assert map[] + Restrict(d, Keys(DeploymentSchema)) == Restrict(d, Keys(DeploymentSchema));
  }

  lemma RangeCanonical(d: Dict)
    requires DecodeRange(d).Ok?
    ensures EncodeRange(DecodeRange(d).value) == Restrict(d, Keys(RangeSchema))
  {
    RangeAgrees(d);
    FlatCanonIsRestriction(RangeSchema, 0, map[], d);
    assert KeysFrom(RangeSchema, 0) == Keys(RangeSchema);
    assert map[] + Restrict(d, Keys(RangeSchema)) == Restrict(d, Keys(RangeSchema));
  }

  lemma InputFeatureCanonical(d: Dict)
    requires DecodeInputFeature(d).Ok?
    ensures EncodeInputFeature(DecodeInputFeature(d).value) == Restrict(d, Keys(InputFeatureSchema))
  {
    InputFeatureAgrees(d);
    FlatCanonIsRestriction(InputFeatureSchema, 0, map[], d);
    assert KeysFrom(InputFeatureSchema, 0) == Keys(InputFeatureSchema);
    assert map[] + Restrict(d, Keys(InputFeatureSchema)) == Restrict(d, Keys(InputFeatureSchema));
  }

  lemma MetadataCanonical(d: Dict)
    requires DecodeMetadata(d).Ok?
    ensures EncodeMetadata(DecodeMetadata(d).value) == Restrict(d, Keys(MetadataSchema))
  {
    MetadataAgrees(d);
    FlatCanonIsRestriction(MetadataSchema, 0, map[], d);
    assert KeysFrom(MetadataSchema, 0) == Keys(MetadataSchema);
    assert map[] + Restrict(d, Keys(MetadataSchema)) == Restrict(d, Keys(MetadataSchema));
  }

  lemma RemediationCanonical(d: Dict)
    requires DecodeRemediation(d).Ok?
    ensures EncodeRemediation(DecodeRemediation(d).value) == Restrict(d, Keys(RemediationSchema))
  {
    RemediationAgrees(d);
    FlatCanonIsRestriction(RemediationSchema, 0, map[], d);
    assert KeysFrom(RemediationSchema, 0) == Keys(RemediationSchema);
    assert map[] + Restrict(d, Keys(RemediationSchema)) == Restrict(d, Keys(RemediationSchema));
  }

  // ---------------------------------------------------- required attributes
  /** `ExplanationTaskResponseMetadata.from_dict` raises exactly when `id`,
      `created_by` or `created_at` is absent, naming the first absent one; a
      required key bound to `null` is accepted and leaves the attribute unset. */
  lemma MetadataRequired(d: Dict)
    ensures DecodeMetadata(d).Err? <==> ("id" !in d || "created_by" !in d || "created_at" !in d)
    ensures "id" !in d ==>
              DecodeMetadata(d) == Err(MissingRequired("ExplanationTaskResponseMetadata", "id"))
    ensures "id" in d && "created_by" !in d ==>
              DecodeMetadata(d) == Err(MissingRequired("ExplanationTaskResponseMetadata", "created_by"))
    ensures "id" in d && "created_by" in d && "created_at" !in d ==>
              DecodeMetadata(d) == Err(MissingRequired("ExplanationTaskResponseMetadata", "created_at"))
    ensures DecodeMetadata(d).Ok? ==>
              (MetadataComplete(DecodeMetadata(d).value) <==>
                 !d["id"].Null? && !d["created_by"].Null? && !d["created_at"].Null?)
    ensures DecodeMetadata(d).Ok? && "updated_at" !in d ==> DecodeMetadata(d).value.updatedAt == None
  {
  }

  /** `FairnessMonitoringRemediationResponse.from_dict` raises exactly when
      `fields` or `values` is absent, naming the first absent one. */
  lemma RemediationRequired(d: Dict)
    ensures DecodeRemediation(d).Err? <==> ("fields" !in d || "values" !in d)
    ensures "fields" !in d ==>
              DecodeRemediation(d) == Err(MissingRequired("FairnessMonitoringRemediationResponse", "fields"))
    ensures "fields" in d && "values" !in d ==>
              DecodeRemediation(d) == Err(MissingRequired("FairnessMonitoringRemediationResponse", "values"))
    ensures DecodeRemediation(d).Ok? ==>
              (RemediationComplete(DecodeRemediation(d).value) <==> !d["fields"].Null? && !d["values"].Null?)
  {
  }

  /** `GetExplanationTaskResponse.from_dict`: `metadata` is read before
      `entity`; each must be present and an object, and a failure inside
      either nested record is passed on unchanged. */
  lemma GetResponseRequired(d: Dict)
    ensures "metadata" !in d ==>
              DecodeGetResponse(d) == Err(MissingRequired("GetExplanationTaskResponse", "metadata"))
    ensures "metadata" in d && !d["metadata"].Object? ==>
              DecodeGetResponse(d) == Err(WrongShape("GetExplanationTaskResponse", "metadata"))
    ensures "metadata" in d && d["metadata"].Object? && DecodeMetadata(d["metadata"].members).Err? ==>
              DecodeGetResponse(d) == Err(DecodeMetadata(d["metadata"].members).error)
    ensures "metadata" in d && d["metadata"].Object? && DecodeMetadata(d["metadata"].members).Ok? ==>
              && ("entity" !in d ==>
                    DecodeGetResponse(d) == Err(MissingRequired("GetExplanationTaskResponse", "entity")))
              && ("entity" in d && !d["entity"].Object? ==>
                    DecodeGetResponse(d) == Err(WrongShape("GetExplanationTaskResponse", "entity")))
              && ("entity" in d && d["entity"].Object? && DecodeEntity(d["entity"].members).Err? ==>
                    DecodeGetResponse(d) == Err(DecodeEntity(d["entity"].members).error))
    ensures DecodeGetResponse(d).Ok? <==>
              && "metadata" in d && d["metadata"].Object? && DecodeMetadata(d["metadata"].members).Ok?
              && "entity" in d && d["entity"].Object? && DecodeEntity(d["entity"].members).Ok?
    ensures DecodeGetResponse(d).Ok? ==>
              DecodeGetResponse(d).value == GetExplanationResponse(
                Some(DecodeMetadata(d["metadata"].members).value),
                Some(DecodeEntity(d["entity"].members).value))
  {
  }

  /** `PostExplanationTaskResponse.from_dict`, likewise with the entity of a
      freshly created task. */
  lemma PostResponseRequired(d: Dict)
    ensures "metadata" !in d ==>
              DecodePostResponse(d) == Err(MissingRequired("PostExplanationTaskResponse", "metadata"))
    ensures "metadata" in d && !d["metadata"].Object? ==>
              DecodePostResponse(d) == Err(WrongShape("PostExplanationTaskResponse", "metadata"))
    ensures "metadata" in d && d["metadata"].Object? && DecodeMetadata(d["metadata"].members).Err? ==>
              DecodePostResponse(d) == Err(DecodeMetadata(d["metadata"].members).error)
    ensures "metadata" in d && d["metadata"].Object? && DecodeMetadata(d["metadata"].members).Ok? ==>
              && ("entity" !in d ==>
                    DecodePostResponse(d) == Err(MissingRequired("PostExplanationTaskResponse", "entity")))
              && ("entity" in d && !d["entity"].Object? ==>
                    DecodePostResponse(d) == Err(WrongShape("PostExplanationTaskResponse", "entity")))
              && ("entity" in d && d["entity"].Object? && DecodePostEntity(d["entity"].members).Err? ==>
                    DecodePostResponse(d) == Err(DecodePostEntity(d["entity"].members).error))
    ensures DecodePostResponse(d).Ok? <==>
              && "metadata" in d && d["metadata"].Object? && DecodeMetadata(d["metadata"].members).Ok?
              && "entity" in d && d["entity"].Object? && DecodePostEntity(d["entity"].members).Ok?
    ensures DecodePostResponse(d).Ok? ==>
              DecodePostResponse(d).value == PostExplanationResponse(
                Some(DecodeMetadata(d["metadata"].members).value),
                Some(DecodePostEntity(d["entity"].members).value))
  {
  }

  /** `status` is the one required key of both explanation entities. */
  lemma EntityStatusRequired(d: Dict)
    ensures "status" !in d ==>
              DecodeEntity(d) == Err(MissingRequired("ExplanationTaskResponseEntity", "status"))
    ensures "status" !in d ==>
              DecodePostEntity(d) == Err(MissingRequired("PostExplanationTaskResponseEntity", "status"))
    ensures "status" in d && !d["status"].Object? ==>
              DecodeEntity(d) == Err(WrongShape("ExplanationTaskResponseEntity", "status"))
    ensures DecodePostEntity(d).Ok? <==>
              "status" in d && d["status"].Object?
  {
  }

  /** A required key bound to `null` is accepted on input but dropped on
      output, so such a record does not survive a second round: this is why
      the round-trip laws ask for complete records. */
  lemma NullRequiredNotStable()
    ensures var d := map["id" := Null, "created_by" := Str("u"), "created_at" := Str("t")];
            && DecodeMetadata(d) == Ok(ExplanationMetadata(None, Some(Str("u")), Some(Str("t")), None))
            && DecodeMetadata(EncodeMetadata(DecodeMetadata(d).value))
                 == Err(MissingRequired("ExplanationTaskResponseMetadata", "id"))
  {
  }
}
