/** The generated model classes of the AI OpenScale client, one datatype per
    class, with the class's `_from_dict` as `DecodeX`, its `_to_dict` as
    `EncodeX`, and its declared keys as the schema `XSchema`. Every attribute
    is an `Option`, as in Python: constructors accept `None` even for required
    attributes. Plain attributes hold any non-null JSON value, because
    `_from_dict` copies them without a type check. Python's `__eq__` compares
    the attribute dictionaries, which is Dafny's structural `==` here. */
module Models {
  import opened Results
  import opened Json
  import opened Codec
  import opened Schemas

  // ---------------------------------------------------------------- records

  datatype ExplanationEntity = ExplanationEntity(
    status: Option<ExplanationStatus>,
    asset: Option<Asset>,
    inputFeatures: Option<seq<InputFeature>>,
    predictions: Option<seq<Prediction>>,
    contrastiveExplanation: Option<ContrastiveExplanation>)

  datatype Asset = Asset(
    id: Option<Present>,
    name: Option<Present>,
    assetType: Option<Present>,
    deployment: Option<AssetDeployment>)

  datatype AssetDeployment = AssetDeployment(id: Option<Present>, name: Option<Present>)

  datatype ContrastiveExplanation = ContrastiveExplanation(
    pertinentPositiveFeatures: Option<seq<ExplanationFeature>>,
    pertinentNegativeFeatures: Option<seq<ExplanationFeature>>)

  datatype ExplanationFeature = ExplanationFeature(
    featureName: Option<Present>,
    weight: Option<Present>,
    importance: Option<Present>,
    featureValue: Option<Present>,
    featureRange: Option<FeatureRange>)

  datatype FeatureRange = FeatureRange(
    min: Option<Present>,
    minInclusive: Option<Present>,
    max: Option<Present>,
    maxInclusive: Option<Present>)

  datatype InputFeature = InputFeature(name: Option<Present>, value: Option<Present>, featureType: Option<Present>)

  datatype Prediction = Prediction(
    value: Option<Present>,
    probability: Option<Present>,
    explanationFeatures: Option<seq<ExplanationFeature>>)

  datatype ExplanationStatus = ExplanationStatus(
    state: Option<Present>,
    limeState: Option<Present>,
    cemState: Option<Present>)

  datatype ExplanationMetadata = ExplanationMetadata(
    id: Option<Present>,
    createdBy: Option<Present>,
    createdAt: Option<Present>,
    updatedAt: Option<Present>)

  datatype RemediationResponse = RemediationResponse(fields: Option<Present>, values: Option<Present>)

  datatype GetExplanationResponse = GetExplanationResponse(
    metadata: Option<ExplanationMetadata>,
    entity: Option<ExplanationEntity>)

  datatype PostExplanationResponse = PostExplanationResponse(
    metadata: Option<ExplanationMetadata>,
    entity: Option<PostExplanationEntity>)

  datatype PostExplanationEntity = PostExplanationEntity(status: Option<PostExplanationStatus>)

  datatype PostExplanationStatus = PostExplanationStatus(state: Option<Present>)

  // ---------------------------------------------------------------- schemas

  function Plain(key: string): Field { Field(key, Scalar, false) }

  function Required(key: string): Field { Field(key, Scalar, true) }

  const EntitySchema := Schema("ExplanationTaskResponseEntity", [
    Field("status", Record(StatusSchema), true),
    Field("asset", Record(AssetSchema), false),
    Field("input_features", RecordList(InputFeatureSchema), false),
    Field("predictions", RecordList(PredictionSchema), false),
    Field("contrastive_explanation", Record(ContrastiveSchema), false)])

  const AssetSchema := Schema("ExplanationTaskResponseEntityAsset", [
    Plain("id"), Plain("name"), Plain("type"),
    Field("deployment", Record(DeploymentSchema), false)])

  const DeploymentSchema := Schema("ExplanationTaskResponseEntityAssetDeployment", [
    Plain("id"), Plain("name")])

  const ContrastiveSchema := Schema("ExplanationTaskResponseEntityContrastiveExplanation", [
    Field("pertinent_positive_features", RecordList(FeatureSchema), false),
    Field("pertinent_negative_features", RecordList(FeatureSchema), false)])

  const FeatureSchema := Schema("ExplanationTaskResponseEntityExplanationFeature", [
    Plain("feature_name"), Plain("weight"), Plain("importance"), Plain("feature_value"),
    Field("feature_range", Record(RangeSchema), false)])

  const RangeSchema := Schema("ExplanationTaskResponseEntityExplanationFeatureFeatureRange", [
    Plain("min"), Plain("min_inclusive"), Plain("max"), Plain("max_inclusive")])

  const InputFeatureSchema := Schema("ExplanationTaskResponseEntityInputFeature", [
    Plain("name"), Plain("value"), Plain("feature_type")])

  const PredictionSchema := Schema("ExplanationTaskResponseEntityPrediction", [
    Plain("value"), Plain("probability"),
    Field("explanation_features", RecordList(FeatureSchema), false)])

  const StatusSchema := Schema("ExplanationTaskResponseEntityStatus", [
    Plain("state"), Plain("lime_state"), Plain("cem_state")])

  const MetadataSchema := Schema("ExplanationTaskResponseMetadata", [
    Required("id"), Required("created_by"), Required("created_at"), Plain("updated_at")])

  const RemediationSchema := Schema("FairnessMonitoringRemediationResponse", [
    Required("fields"), Required("values")])

  const GetResponseSchema := Schema("GetExplanationTaskResponse", [
    Field("metadata", Record(MetadataSchema), true),
    Field("entity", Record(EntitySchema), true)])

  const PostResponseSchema := Schema("PostExplanationTaskResponse", [
    Field("metadata", Record(MetadataSchema), true),
    Field("entity", Record(PostEntitySchema), true)])

  const PostEntitySchema := Schema("PostExplanationTaskResponseEntity", [
    Field("status", Record(PostStatusSchema), true)])

  const PostStatusSchema := Schema("PostExplanationTaskResponseEntityStatus", [
    Plain("state")])

  // ---------------------------------------------------------------- decoders

  function DecodeEntity(d: Dict): Decoded<ExplanationEntity> {
    var n := EntitySchema.name;
    var status :- RecordField(n, d, "status", true, DecodeStatus);
    var asset :- RecordField(n, d, "asset", false, DecodeAsset);
    var inputFeatures :- ListField(n, d, "input_features", DecodeInputFeature);
    var predictions :- ListField(n, d, "predictions", DecodePrediction);
    var contrastive :- RecordField(n, d, "contrastive_explanation", false, DecodeContrastive);
    Ok(ExplanationEntity(status, asset, inputFeatures, predictions, contrastive))
  }

  function DecodeAsset(d: Dict): Decoded<Asset> {
    var n := AssetSchema.name;
    var id :- ScalarField(n, d, "id", false);
    var name :- ScalarField(n, d, "name", false);
    var assetType :- ScalarField(n, d, "type", false);
    var deployment :- RecordField(n, d, "deployment", false, DecodeDeployment);
    Ok(Asset(id, name, assetType, deployment))
  }

  function DecodeDeployment(d: Dict): Decoded<AssetDeployment> {
    var n := DeploymentSchema.name;
    var id :- ScalarField(n, d, "id", false);
    var name :- ScalarField(n, d, "name", false);
    Ok(AssetDeployment(id, name))
  }

  function DecodeContrastive(d: Dict): Decoded<ContrastiveExplanation> {
    var n := ContrastiveSchema.name;
    var positive :- ListField(n, d, "pertinent_positive_features", DecodeFeature);
    var negative :- ListField(n, d, "pertinent_negative_features", DecodeFeature);
    Ok(ContrastiveExplanation(positive, negative))
  }

  function DecodeFeature(d: Dict): Decoded<ExplanationFeature> {
    var n := FeatureSchema.name;
    var featureName :- ScalarField(n, d, "feature_name", false);
    var weight :- ScalarField(n, d, "weight", false);
    var importance :- ScalarField(n, d, "importance", false);
    var featureValue :- ScalarField(n, d, "feature_value", false);
    var featureRange :- RecordField(n, d, "feature_range", false, DecodeRange);
    Ok(ExplanationFeature(featureName, weight, importance, featureValue, featureRange))
  }

  function DecodeRange(d: Dict): Decoded<FeatureRange> {
    var n := RangeSchema.name;
    var min :- ScalarField(n, d, "min", false);
    var minInclusive :- ScalarField(n, d, "min_inclusive", false);
    var max :- ScalarField(n, d, "max", false);
    var maxInclusive :- ScalarField(n, d, "max_inclusive", false);
    Ok(FeatureRange(min, minInclusive, max, maxInclusive))
  }

  function DecodeInputFeature(d: Dict): Decoded<InputFeature> {
    var n := InputFeatureSchema.name;
    var name :- ScalarField(n, d, "name", false);
    var value :- ScalarField(n, d, "value", false);
    var featureType :- ScalarField(n, d, "feature_type", false);
    Ok(InputFeature(name, value, featureType))
  }

  function DecodePrediction(d: Dict): Decoded<Prediction> {
    var n := PredictionSchema.name;
    var value :- ScalarField(n, d, "value", false);
    var probability :- ScalarField(n, d, "probability", false);
    var features :- ListField(n, d, "explanation_features", DecodeFeature);
    Ok(Prediction(value, probability, features))
  }

  function DecodeStatus(d: Dict): Decoded<ExplanationStatus> {
    var n := StatusSchema.name;
    var state :- ScalarField(n, d, "state", false);
    var limeState :- ScalarField(n, d, "lime_state", false);
    var cemState :- ScalarField(n, d, "cem_state", false);
    Ok(ExplanationStatus(state, limeState, cemState))
  }

  function DecodeMetadata(d: Dict): Decoded<ExplanationMetadata> {
    var n := MetadataSchema.name;
    var id :- ScalarField(n, d, "id", true);
    var createdBy :- ScalarField(n, d, "created_by", true);
    var createdAt :- ScalarField(n, d, "created_at", true);
    var updatedAt :- ScalarField(n, d, "updated_at", false);
    Ok(ExplanationMetadata(id, createdBy, createdAt, updatedAt))
  }

  function DecodeRemediation(d: Dict): Decoded<RemediationResponse> {
    var n := RemediationSchema.name;
    var fields :- ScalarField(n, d, "fields", true);
    var values :- ScalarField(n, d, "values", true);
    Ok(RemediationResponse(fields, values))
  }

  function DecodeGetResponse(d: Dict): Decoded<GetExplanationResponse> {
    var n := GetResponseSchema.name;
    var metadata :- RecordField(n, d, "metadata", true, DecodeMetadata);
    var entity :- RecordField(n, d, "entity", true, DecodeEntity);
    Ok(GetExplanationResponse(metadata, entity))
  }

  function DecodePostResponse(d: Dict): Decoded<PostExplanationResponse> {
    var n := PostResponseSchema.name;
    var metadata :- RecordField(n, d, "metadata", true, DecodeMetadata);
    var entity :- RecordField(n, d, "entity", true, DecodePostEntity);
    Ok(PostExplanationResponse(metadata, entity))
  }

  function DecodePostEntity(d: Dict): Decoded<PostExplanationEntity> {
    var n := PostEntitySchema.name;
    var status :- RecordField(n, d, "status", true, DecodePostStatus);
    Ok(PostExplanationEntity(status))
  }

  function DecodePostStatus(d: Dict): Decoded<PostExplanationStatus> {
    var state :- ScalarField(PostStatusSchema.name, d, "state", false);
    Ok(PostExplanationStatus(state))
  }

  // ---------------------------------------------------------------- encoders

  function EncodeEntity(x: ExplanationEntity): (r: Dict)
    ensures StoresRecord(r, "status", x.status, EncodeStatus)
    ensures StoresRecord(r, "asset", x.asset, EncodeAsset)
    ensures StoresList(r, "input_features", x.inputFeatures, EncodeInputFeature)
    ensures StoresList(r, "predictions", x.predictions, EncodePrediction)
    ensures StoresRecord(r, "contrastive_explanation", x.contrastiveExplanation, EncodeContrastive)
  {
    var d := map[];
    var d := PutRecord(d, "status", x.status, EncodeStatus);
    var d := PutRecord(d, "asset", x.asset, EncodeAsset);
    var d := PutList(d, "input_features", x.inputFeatures, EncodeInputFeature);
    var d := PutList(d, "predictions", x.predictions, EncodePrediction);
    var d := PutRecord(d, "contrastive_explanation", x.contrastiveExplanation, EncodeContrastive);
    d
  }

  function EncodeAsset(x: Asset): (r: Dict)
    ensures StoresScalar(r, "id", x.id)
    ensures StoresScalar(r, "name", x.name)
    ensures StoresScalar(r, "type", x.assetType)
    ensures StoresRecord(r, "deployment", x.deployment, EncodeDeployment)
  {
    var d := map[];
    var d := Assign(d, "id", x.id);
    var d := Assign(d, "name", x.name);
    var d := Assign(d, "type", x.assetType);
    var d := PutRecord(d, "deployment", x.deployment, EncodeDeployment);
    d
  }

  function EncodeDeployment(x: AssetDeployment): (r: Dict)
    ensures StoresScalar(r, "id", x.id)
    ensures StoresScalar(r, "name", x.name)
  {
    var d := map[];
    var d := Assign(d, "id", x.id);
    var d := Assign(d, "name", x.name);
    d
  }

  function EncodeContrastive(x: ContrastiveExplanation): (r: Dict)
    ensures StoresList(r, "pertinent_positive_features", x.pertinentPositiveFeatures, EncodeFeature)
    ensures StoresList(r, "pertinent_negative_features", x.pertinentNegativeFeatures, EncodeFeature)
  {
    var d := map[];
    var d := PutList(d, "pertinent_positive_features", x.pertinentPositiveFeatures, EncodeFeature);
    var d := PutList(d, "pertinent_negative_features", x.pertinentNegativeFeatures, EncodeFeature);
    d
  }

  function EncodeFeature(x: ExplanationFeature): (r: Dict)
    ensures StoresScalar(r, "feature_name", x.featureName)
    ensures StoresScalar(r, "weight", x.weight)
    ensures StoresScalar(r, "importance", x.importance)
    ensures StoresScalar(r, "feature_value", x.featureValue)
    ensures StoresRecord(r, "feature_range", x.featureRange, EncodeRange)
  {
    var d := map[];
    var d := Assign(d, "feature_name", x.featureName);
    var d := Assign(d, "weight", x.weight);
    var d := Assign(d, "importance", x.importance);
    var d := Assign(d, "feature_value", x.featureValue);
    var d := PutRecord(d, "feature_range", x.featureRange, EncodeRange);
    d
  }

  function EncodeRange(x: FeatureRange): (r: Dict)
    ensures StoresScalar(r, "min", x.min)
    ensures StoresScalar(r, "min_inclusive", x.minInclusive)
    ensures StoresScalar(r, "max", x.max)
    ensures StoresScalar(r, "max_inclusive", x.maxInclusive)
  {
    var d := map[];
    var d := Assign(d, "min", x.min);
    var d := Assign(d, "min_inclusive", x.minInclusive);
    var d := Assign(d, "max", x.max);
    var d := Assign(d, "max_inclusive", x.maxInclusive);
    d
  }

  function EncodeInputFeature(x: InputFeature): (r: Dict)
    ensures StoresScalar(r, "name", x.name)
    ensures StoresScalar(r, "value", x.value)
    ensures StoresScalar(r, "feature_type", x.featureType)
  {
    var d := map[];
    var d := Assign(d, "name", x.name);
    var d := Assign(d, "value", x.value);
    var d := Assign(d, "feature_type", x.featureType);
    d
  }

  function EncodePrediction(x: Prediction): (r: Dict)
    ensures StoresScalar(r, "value", x.value)
    ensures StoresScalar(r, "probability", x.probability)
    ensures StoresList(r, "explanation_features", x.explanationFeatures, EncodeFeature)
  {
    var d := map[];
    var d := Assign(d, "value", x.value);
    var d := Assign(d, "probability", x.probability);
    var d := PutList(d, "explanation_features", x.explanationFeatures, EncodeFeature);
    d
  }

  function EncodeStatus(x: ExplanationStatus): (r: Dict)
    ensures StoresScalar(r, "state", x.state)
    ensures StoresScalar(r, "lime_state", x.limeState)
    ensures StoresScalar(r, "cem_state", x.cemState)
  {
    var d := map[];
    var d := Assign(d, "state", x.state);
    var d := Assign(d, "lime_state", x.limeState);
    var d := Assign(d, "cem_state", x.cemState);
    d
  }

  function EncodeMetadata(x: ExplanationMetadata): (r: Dict)
    ensures StoresScalar(r, "id", x.id)
    ensures StoresScalar(r, "created_by", x.createdBy)
    ensures StoresScalar(r, "created_at", x.createdAt)
    ensures StoresScalar(r, "updated_at", x.updatedAt)
  {
    var d := map[];
    var d := Assign(d, "id", x.id);
    var d := Assign(d, "created_by", x.createdBy);
    var d := Assign(d, "created_at", x.createdAt);
    var d := Assign(d, "updated_at", x.updatedAt);
    d
  }

  function EncodeRemediation(x: RemediationResponse): (r: Dict)
    ensures StoresScalar(r, "fields", x.fields)
    ensures StoresScalar(r, "values", x.values)
  {
    var d := map[];
    var d := Assign(d, "fields", x.fields);
    var d := Assign(d, "values", x.values);
    d
  }

  function EncodeGetResponse(x: GetExplanationResponse): (r: Dict)
    ensures StoresRecord(r, "metadata", x.metadata, EncodeMetadata)
    ensures StoresRecord(r, "entity", x.entity, EncodeEntity)
  {
    var d := map[];
    var d := PutRecord(d, "metadata", x.metadata, EncodeMetadata);
    var d := PutRecord(d, "entity", x.entity, EncodeEntity);
    d
  }

  function EncodePostResponse(x: PostExplanationResponse): (r: Dict)
    ensures StoresRecord(r, "metadata", x.metadata, EncodeMetadata)
    ensures StoresRecord(r, "entity", x.entity, EncodePostEntity)
  {
    var d := map[];
    var d := PutRecord(d, "metadata", x.metadata, EncodeMetadata);
    var d := PutRecord(d, "entity", x.entity, EncodePostEntity);
    d
  }

  function EncodePostEntity(x: PostExplanationEntity): (r: Dict)
    ensures StoresRecord(r, "status", x.status, EncodePostStatus)
  {
    var d := map[];
    var d := PutRecord(d, "status", x.status, EncodePostStatus);
    d
  }

  function EncodePostStatus(x: PostExplanationStatus): (r: Dict)
    ensures StoresScalar(r, "state", x.state)
  {
    var d := map[];
    var d := Assign(d, "state", x.state);
    d
  }

  // ---------------------------------------------------------------- completeness

  /** Every required attribute is set, recursively: what decoding can produce
      when no required key is bound to `null`. Records without required
      attributes are always complete. */
  predicate EntityComplete(x: ExplanationEntity) {
    x.status.Some?
  }

  predicate MetadataComplete(x: ExplanationMetadata) {
    x.id.Some? && x.createdBy.Some? && x.createdAt.Some?
  }

  predicate RemediationComplete(x: RemediationResponse) {
    x.fields.Some? && x.values.Some?
  }

  predicate PostEntityComplete(x: PostExplanationEntity) {
    x.status.Some?
  }

  predicate GetResponseComplete(x: GetExplanationResponse) {
    && x.metadata.Some? && MetadataComplete(x.metadata.value)
    && x.entity.Some? && EntityComplete(x.entity.value)
  }

  predicate PostResponseComplete(x: PostExplanationResponse) {
    && x.metadata.Some? && MetadataComplete(x.metadata.value)
    && x.entity.Some? && PostEntityComplete(x.entity.value)
  }
}
