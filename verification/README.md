# AI OpenScale client: JSON codec and request assembly

This project models the pure core of the AI OpenScale client
(`watson_developer_cloud/ai_open_scale_v1.py`) in Dafny and proves properties of it.

The first half is the model classes that carry explanation tasks and fairness
remediation results. Each class has a `_from_dict` that reads a decoded JSON
dictionary, a `_to_dict` that writes one back, and an `__eq__` that compares
attributes. The second half is the request assembly of the four endpoints:
feedback upload, explanation task lookup, explanation task submission and
fairness debias. Each endpoint checks its arguments in order and builds a JSON
body, a header map and a URL.

Layout:

- `results.dfy` (module `Results`): `Option` for an attribute that may be
  `None`; `Result` for a call that may raise.
- `json.dfy` (module `Json`): the JSON value type, with `Null` for `None` and
  numbers kept as their literal text. `Present` is any value except `Null`,
  which is what a set attribute holds.
- `codec.dfy` (module `Codec`): the field readers and writers every class is
  built from: plain attributes, nested records, lists of records. It also
  holds the `DecodeError` type:
  - `MissingRequired(class, key)` is the `ValueError` for an absent required key;
  - `WrongShape(class, key)` is what the model reports when a nested value is
    not an object, or a list value not a list of objects. Python's own outcome
    in those cases varies (see "Left out").
- `schema.dfy` (module `Schemas`): a reference semantics. A record type is
  described by its declared keys in order, each with a shape and a required
  flag. The interpreter `Canon` computes, from that description alone, what
  `_from_dict` raises or what `_to_dict(_from_dict(d))` returns.
- `models.dfy` (module `Models`): one datatype per class, with every attribute
  an `Option`, as Python allows `None` anywhere. It also holds one schema
  constant per class and the hand-written `DecodeX`/`EncodeX` pair for each.
  The decoders read the keys in the order the source reads them.
- `laws.dfy` (module `ModelLaws`): proves the following for every class:
  - the decoder/encoder pair agrees with `Canon` on every input (`XAgrees`,
    `XImplements`);
  - decoding after encoding gives a record back exactly when its required
    attributes are set (`XRoundTrip`);
  - undeclared keys are ignored (`XIgnoresUnknown`), derived from the same fact
    about `Canon`;
  - the encoder emits only declared keys and no `null` (`XEncodeKeys`);
  - equal encodings mean equal objects, which is the content of `__eq__`
    (`XEncodeInjective`).

  Per-class lemmas spell out the required-key errors. For record types with
  plain attributes only, `_to_dict(_from_dict(d))` is shown to be `d` cut down
  to the declared non-null keys.
- `service.dfy` (module `Service`): the four endpoints as functions from
  arguments to a `Result<Request, ArgError>`:
  - Python `None` arguments are `Null`.
  - Caller-supplied headers are a map; leaving them out is the empty map.
  - `_encode_path_vars` is the parameter `enc`.
  - A URL is a sequence of path segments joined with `/`. Each endpoint's
    contract gives the URL as text: the template with `enc`'s output in its
    slots. It also says the URL splits back into its fixed segments with the
    encoded arguments in their slots, whenever `enc` yields no `/`.
- `scenarios.dfy` (module `Scenarios`): concrete requests worked through the
  model.

Behaviour of the code that the model follows, where a reader might expect the
client to act otherwise:

- `post_feedback_payload` always puts a `fields` key in the data dictionary it
  hands to `request`. When no field names are given, that key is bound to
  `None` (lines 88-93). What `request` then does with it is not modelled.
- A required key that is present but bound to `null` is accepted by
  `_from_dict`: only absence raises. The attribute is then `None` and
  `_to_dict` drops it, so the output no longer decodes
  (`ModelLaws.NullRequiredNotStable`). The round-trip law therefore holds for
  records whose required attributes are set.

## Model

| member | source | states |
|---|---|---|
| Models.EncodeEntity | watson_developer_cloud/ai_open_scale_v1.py:360-373 | `ExplanationTaskResponseEntity._to_dict` writes each declared key exactly when its attribute is not `None`, holding that attribute (a nested record or each list element in its own `_to_dict` form) |
| Models.EncodeAsset | watson_developer_cloud/ai_open_scale_v1.py:430-441 | `ExplanationTaskResponseEntityAsset._to_dict` writes each declared key exactly when its attribute is not `None`, holding that attribute (a nested record or each list element in its own `_to_dict` form) |
| Models.EncodeDeployment | watson_developer_cloud/ai_open_scale_v1.py:486-493 | `ExplanationTaskResponseEntityAssetDeployment._to_dict` writes each declared key exactly when its attribute is not `None`, holding that attribute (a nested record or each list element in its own `_to_dict` form) |
| Models.EncodeContrastive | watson_developer_cloud/ai_open_scale_v1.py:546-553 | `ExplanationTaskResponseEntityContrastiveExplanation._to_dict` writes each declared key exactly when its attribute is not `None`, holding that attribute (a nested record or each list element in its own `_to_dict` form) |
| Models.EncodeFeature | watson_developer_cloud/ai_open_scale_v1.py:619-632 | `ExplanationTaskResponseEntityExplanationFeature._to_dict` writes each declared key exactly when its attribute is not `None`, holding that attribute (a nested record or each list element in its own `_to_dict` form) |
| Models.EncodeRange | watson_developer_cloud/ai_open_scale_v1.py:691-702 | `ExplanationTaskResponseEntityExplanationFeatureFeatureRange._to_dict` writes each declared key exactly when its attribute is not `None`, holding that attribute (a nested record or each list element in its own `_to_dict` form) |
| Models.EncodeInputFeature | watson_developer_cloud/ai_open_scale_v1.py:752-761 | `ExplanationTaskResponseEntityInputFeature._to_dict` writes each declared key exactly when its attribute is not `None`, holding that attribute (a nested record or each list element in its own `_to_dict` form) |
| Models.EncodePrediction | watson_developer_cloud/ai_open_scale_v1.py:815-824 | `ExplanationTaskResponseEntityPrediction._to_dict` writes each declared key exactly when its attribute is not `None`, holding that attribute (a nested record or each list element in its own `_to_dict` form) |
| Models.EncodeStatus | watson_developer_cloud/ai_open_scale_v1.py:874-883 | `ExplanationTaskResponseEntityStatus._to_dict` writes each declared key exactly when its attribute is not `None`, holding that attribute (a nested record or each list element in its own `_to_dict` form) |
| Models.EncodeMetadata | watson_developer_cloud/ai_open_scale_v1.py:944-955 | `ExplanationTaskResponseMetadata._to_dict` writes each declared key exactly when its attribute is not `None`, holding that attribute (a nested record or each list element in its own `_to_dict` form) |
| Models.EncodeRemediation | watson_developer_cloud/ai_open_scale_v1.py:1004-1011 | `FairnessMonitoringRemediationResponse._to_dict` writes each declared key exactly when its attribute is not `None`, holding that attribute (a nested record or each list element in its own `_to_dict` form) |
| Models.EncodeGetResponse | watson_developer_cloud/ai_open_scale_v1.py:1060-1067 | `GetExplanationTaskResponse._to_dict` writes each declared key exactly when its attribute is not `None`, holding that attribute (a nested record or each list element in its own `_to_dict` form) |
| Models.EncodePostResponse | watson_developer_cloud/ai_open_scale_v1.py:1116-1123 | `PostExplanationTaskResponse._to_dict` writes each declared key exactly when its attribute is not `None`, holding that attribute (a nested record or each list element in its own `_to_dict` form) |
| Models.EncodePostEntity | watson_developer_cloud/ai_open_scale_v1.py:1165-1170 | `PostExplanationTaskResponseEntity._to_dict` writes each declared key exactly when its attribute is not `None`, holding that attribute (a nested record or each list element in its own `_to_dict` form) |
| Models.EncodePostStatus | watson_developer_cloud/ai_open_scale_v1.py:1210-1215 | `PostExplanationTaskResponseEntityStatus._to_dict` writes each declared key exactly when its attribute is not `None`, holding that attribute (a nested record or each list element in its own `_to_dict` form) |
| ModelLaws.EntityAgrees | watson_developer_cloud/ai_open_scale_v1.py:343-373 | `ExplanationTaskResponseEntity._from_dict` raises exactly what the schema interpreter `Canon` raises on the same dictionary (first missing required key, or a nested value of the wrong shape, in declaration order); when it succeeds, `_to_dict` of the result is `Canon`'s canonical form |
| ModelLaws.EntityImplements | watson_developer_cloud/ai_open_scale_v1.py:343-373 | the agreement of `ExplanationTaskResponseEntity` with its schema, for every input dictionary |
| ModelLaws.EntityRoundTrip | watson_developer_cloud/ai_open_scale_v1.py:343-373 | `ExplanationTaskResponseEntity._from_dict(x._to_dict())` equals `x` exactly when the required attributes of `x` are set |
| ModelLaws.EntityIgnoresUnknown | watson_developer_cloud/ai_open_scale_v1.py:343-358 | keys `ExplanationTaskResponseEntity` does not declare do not change what `_from_dict` returns or raises |
| ModelLaws.EntityEncodeKeys | watson_developer_cloud/ai_open_scale_v1.py:360-373 | `ExplanationTaskResponseEntity._to_dict` emits declared keys only and never a `null` value |
| ModelLaws.EntityEncodeInjective | watson_developer_cloud/ai_open_scale_v1.py:360-383 | two `ExplanationTaskResponseEntity` objects are equal under `__eq__` (same attributes) exactly when their `_to_dict` dictionaries are equal |
| ModelLaws.AssetAgrees | watson_developer_cloud/ai_open_scale_v1.py:417-441 | `ExplanationTaskResponseEntityAsset._from_dict` raises exactly what the schema interpreter `Canon` raises on the same dictionary (first missing required key, or a nested value of the wrong shape, in declaration order); when it succeeds, `_to_dict` of the result is `Canon`'s canonical form |
| ModelLaws.AssetImplements | watson_developer_cloud/ai_open_scale_v1.py:417-441 | the agreement of `ExplanationTaskResponseEntityAsset` with its schema, for every input dictionary |
| ModelLaws.AssetRoundTrip | watson_developer_cloud/ai_open_scale_v1.py:417-441 | for every object, `ExplanationTaskResponseEntityAsset._from_dict(x._to_dict())` equals `x` |
| ModelLaws.AssetIgnoresUnknown | watson_developer_cloud/ai_open_scale_v1.py:417-428 | keys `ExplanationTaskResponseEntityAsset` does not declare do not change what `_from_dict` returns or raises |
| ModelLaws.AssetEncodeKeys | watson_developer_cloud/ai_open_scale_v1.py:430-441 | `ExplanationTaskResponseEntityAsset._to_dict` emits declared keys only and never a `null` value |
| ModelLaws.AssetEncodeInjective | watson_developer_cloud/ai_open_scale_v1.py:430-451 | two `ExplanationTaskResponseEntityAsset` objects are equal under `__eq__` (same attributes) exactly when their `_to_dict` dictionaries are equal |
| ModelLaws.DeploymentAgrees | watson_developer_cloud/ai_open_scale_v1.py:477-493 | `ExplanationTaskResponseEntityAssetDeployment._from_dict` raises exactly what the schema interpreter `Canon` raises on the same dictionary (first missing required key, or a nested value of the wrong shape, in declaration order); when it succeeds, `_to_dict` of the result is `Canon`'s canonical form |
| ModelLaws.DeploymentImplements | watson_developer_cloud/ai_open_scale_v1.py:477-493 | the agreement of `ExplanationTaskResponseEntityAssetDeployment` with its schema, for every input dictionary |
| ModelLaws.DeploymentRoundTrip | watson_developer_cloud/ai_open_scale_v1.py:477-493 | for every object, `ExplanationTaskResponseEntityAssetDeployment._from_dict(x._to_dict())` equals `x` |
| ModelLaws.DeploymentIgnoresUnknown | watson_developer_cloud/ai_open_scale_v1.py:477-484 | keys `ExplanationTaskResponseEntityAssetDeployment` does not declare do not change what `_from_dict` returns or raises |
| ModelLaws.DeploymentEncodeKeys | watson_developer_cloud/ai_open_scale_v1.py:486-493 | `ExplanationTaskResponseEntityAssetDeployment._to_dict` emits declared keys only and never a `null` value |
| ModelLaws.DeploymentEncodeInjective | watson_developer_cloud/ai_open_scale_v1.py:486-503 | two `ExplanationTaskResponseEntityAssetDeployment` objects are equal under `__eq__` (same attributes) exactly when their `_to_dict` dictionaries are equal |
| ModelLaws.DeploymentCanonical | watson_developer_cloud/ai_open_scale_v1.py:477-493 | for any dictionary `ExplanationTaskResponseEntityAssetDeployment._from_dict` accepts, `_to_dict` of the result is the input cut down to the declared keys, minus those bound to `null` |
| ModelLaws.ContrastiveAgrees | watson_developer_cloud/ai_open_scale_v1.py:537-553 | `ExplanationTaskResponseEntityContrastiveExplanation._from_dict` raises exactly what the schema interpreter `Canon` raises on the same dictionary (first missing required key, or a nested value of the wrong shape, in declaration order); when it succeeds, `_to_dict` of the result is `Canon`'s canonical form |
| ModelLaws.ContrastiveImplements | watson_developer_cloud/ai_open_scale_v1.py:537-553 | the agreement of `ExplanationTaskResponseEntityContrastiveExplanation` with its schema, for every input dictionary |
| ModelLaws.ContrastiveRoundTrip | watson_developer_cloud/ai_open_scale_v1.py:537-553 | for every object, `ExplanationTaskResponseEntityContrastiveExplanation._from_dict(x._to_dict())` equals `x` |
| ModelLaws.ContrastiveIgnoresUnknown | watson_developer_cloud/ai_open_scale_v1.py:537-544 | keys `ExplanationTaskResponseEntityContrastiveExplanation` does not declare do not change what `_from_dict` returns or raises |
| ModelLaws.ContrastiveEncodeKeys | watson_developer_cloud/ai_open_scale_v1.py:546-553 | `ExplanationTaskResponseEntityContrastiveExplanation._to_dict` emits declared keys only and never a `null` value |
| ModelLaws.ContrastiveEncodeInjective | watson_developer_cloud/ai_open_scale_v1.py:546-563 | two `ExplanationTaskResponseEntityContrastiveExplanation` objects are equal under `__eq__` (same attributes) exactly when their `_to_dict` dictionaries are equal |
| ModelLaws.FeatureAgrees | watson_developer_cloud/ai_open_scale_v1.py:604-632 | `ExplanationTaskResponseEntityExplanationFeature._from_dict` raises exactly what the schema interpreter `Canon` raises on the same dictionary (first missing required key, or a nested value of the wrong shape, in declaration order); when it succeeds, `_to_dict` of the result is `Canon`'s canonical form |
| ModelLaws.FeatureImplements | watson_developer_cloud/ai_open_scale_v1.py:604-632 | the agreement of `ExplanationTaskResponseEntityExplanationFeature` with its schema, for every input dictionary |
| ModelLaws.FeatureRoundTrip | watson_developer_cloud/ai_open_scale_v1.py:604-632 | for every object, `ExplanationTaskResponseEntityExplanationFeature._from_dict(x._to_dict())` equals `x` |
| ModelLaws.FeatureIgnoresUnknown | watson_developer_cloud/ai_open_scale_v1.py:604-617 | keys `ExplanationTaskResponseEntityExplanationFeature` does not declare do not change what `_from_dict` returns or raises |
| ModelLaws.FeatureEncodeKeys | watson_developer_cloud/ai_open_scale_v1.py:619-632 | `ExplanationTaskResponseEntityExplanationFeature._to_dict` emits declared keys only and never a `null` value |
| ModelLaws.FeatureEncodeInjective | watson_developer_cloud/ai_open_scale_v1.py:619-642 | two `ExplanationTaskResponseEntityExplanationFeature` objects are equal under `__eq__` (same attributes) exactly when their `_to_dict` dictionaries are equal |
| ModelLaws.RangeAgrees | watson_developer_cloud/ai_open_scale_v1.py:678-702 | `ExplanationTaskResponseEntityExplanationFeatureFeatureRange._from_dict` raises exactly what the schema interpreter `Canon` raises on the same dictionary (first missing required key, or a nested value of the wrong shape, in declaration order); when it succeeds, `_to_dict` of the result is `Canon`'s canonical form |
| ModelLaws.RangeImplements | watson_developer_cloud/ai_open_scale_v1.py:678-702 | the agreement of `ExplanationTaskResponseEntityExplanationFeatureFeatureRange` with its schema, for every input dictionary |
| ModelLaws.RangeRoundTrip | watson_developer_cloud/ai_open_scale_v1.py:678-702 | for every object, `ExplanationTaskResponseEntityExplanationFeatureFeatureRange._from_dict(x._to_dict())` equals `x` |
| ModelLaws.RangeIgnoresUnknown | watson_developer_cloud/ai_open_scale_v1.py:678-689 | keys `ExplanationTaskResponseEntityExplanationFeatureFeatureRange` does not declare do not change what `_from_dict` returns or raises |
| ModelLaws.RangeEncodeKeys | watson_developer_cloud/ai_open_scale_v1.py:691-702 | `ExplanationTaskResponseEntityExplanationFeatureFeatureRange._to_dict` emits declared keys only and never a `null` value |
| ModelLaws.RangeEncodeInjective | watson_developer_cloud/ai_open_scale_v1.py:691-712 | two `ExplanationTaskResponseEntityExplanationFeatureFeatureRange` objects are equal under `__eq__` (same attributes) exactly when their `_to_dict` dictionaries are equal |
| ModelLaws.RangeCanonical | watson_developer_cloud/ai_open_scale_v1.py:678-702 | for any dictionary `ExplanationTaskResponseEntityExplanationFeatureFeatureRange._from_dict` accepts, `_to_dict` of the result is the input cut down to the declared keys, minus those bound to `null` |
| ModelLaws.InputFeatureAgrees | watson_developer_cloud/ai_open_scale_v1.py:741-761 | `ExplanationTaskResponseEntityInputFeature._from_dict` raises exactly what the schema interpreter `Canon` raises on the same dictionary (first missing required key, or a nested value of the wrong shape, in declaration order); when it succeeds, `_to_dict` of the result is `Canon`'s canonical form |
| ModelLaws.InputFeatureImplements | watson_developer_cloud/ai_open_scale_v1.py:741-761 | the agreement of `ExplanationTaskResponseEntityInputFeature` with its schema, for every input dictionary |
| ModelLaws.InputFeatureRoundTrip | watson_developer_cloud/ai_open_scale_v1.py:741-761 | for every object, `ExplanationTaskResponseEntityInputFeature._from_dict(x._to_dict())` equals `x` |
| ModelLaws.InputFeatureIgnoresUnknown | watson_developer_cloud/ai_open_scale_v1.py:741-750 | keys `ExplanationTaskResponseEntityInputFeature` does not declare do not change what `_from_dict` returns or raises |
| ModelLaws.InputFeatureEncodeKeys | watson_developer_cloud/ai_open_scale_v1.py:752-761 | `ExplanationTaskResponseEntityInputFeature._to_dict` emits declared keys only and never a `null` value |
| ModelLaws.InputFeatureEncodeInjective | watson_developer_cloud/ai_open_scale_v1.py:752-771 | two `ExplanationTaskResponseEntityInputFeature` objects are equal under `__eq__` (same attributes) exactly when their `_to_dict` dictionaries are equal |
| ModelLaws.InputFeatureCanonical | watson_developer_cloud/ai_open_scale_v1.py:741-761 | for any dictionary `ExplanationTaskResponseEntityInputFeature._from_dict` accepts, `_to_dict` of the result is the input cut down to the declared keys, minus those bound to `null` |
| ModelLaws.PredictionAgrees | watson_developer_cloud/ai_open_scale_v1.py:804-824 | `ExplanationTaskResponseEntityPrediction._from_dict` raises exactly what the schema interpreter `Canon` raises on the same dictionary (first missing required key, or a nested value of the wrong shape, in declaration order); when it succeeds, `_to_dict` of the result is `Canon`'s canonical form |
| ModelLaws.PredictionImplements | watson_developer_cloud/ai_open_scale_v1.py:804-824 | the agreement of `ExplanationTaskResponseEntityPrediction` with its schema, for every input dictionary |
| ModelLaws.PredictionRoundTrip | watson_developer_cloud/ai_open_scale_v1.py:804-824 | for every object, `ExplanationTaskResponseEntityPrediction._from_dict(x._to_dict())` equals `x` |
| ModelLaws.PredictionIgnoresUnknown | watson_developer_cloud/ai_open_scale_v1.py:804-813 | keys `ExplanationTaskResponseEntityPrediction` does not declare do not change what `_from_dict` returns or raises |
| ModelLaws.PredictionEncodeKeys | watson_developer_cloud/ai_open_scale_v1.py:815-824 | `ExplanationTaskResponseEntityPrediction._to_dict` emits declared keys only and never a `null` value |
| ModelLaws.PredictionEncodeInjective | watson_developer_cloud/ai_open_scale_v1.py:815-834 | two `ExplanationTaskResponseEntityPrediction` objects are equal under `__eq__` (same attributes) exactly when their `_to_dict` dictionaries are equal |
| ModelLaws.StatusAgrees | watson_developer_cloud/ai_open_scale_v1.py:863-883 | `ExplanationTaskResponseEntityStatus._from_dict` raises exactly what the schema interpreter `Canon` raises on the same dictionary (first missing required key, or a nested value of the wrong shape, in declaration order); when it succeeds, `_to_dict` of the result is `Canon`'s canonical form |
| ModelLaws.StatusImplements | watson_developer_cloud/ai_open_scale_v1.py:863-883 | the agreement of `ExplanationTaskResponseEntityStatus` with its schema, for every input dictionary |
| ModelLaws.StatusRoundTrip | watson_developer_cloud/ai_open_scale_v1.py:863-883 | for every object, `ExplanationTaskResponseEntityStatus._from_dict(x._to_dict())` equals `x` |
| ModelLaws.StatusIgnoresUnknown | watson_developer_cloud/ai_open_scale_v1.py:863-872 | keys `ExplanationTaskResponseEntityStatus` does not declare do not change what `_from_dict` returns or raises |
| ModelLaws.StatusEncodeKeys | watson_developer_cloud/ai_open_scale_v1.py:874-883 | `ExplanationTaskResponseEntityStatus._to_dict` emits declared keys only and never a `null` value |
| ModelLaws.StatusEncodeInjective | watson_developer_cloud/ai_open_scale_v1.py:874-893 | two `ExplanationTaskResponseEntityStatus` objects are equal under `__eq__` (same attributes) exactly when their `_to_dict` dictionaries are equal |
| ModelLaws.StatusCanonical | watson_developer_cloud/ai_open_scale_v1.py:863-883 | for any dictionary `ExplanationTaskResponseEntityStatus._from_dict` accepts, `_to_dict` of the result is the input cut down to the declared keys, minus those bound to `null` |
| ModelLaws.MetadataAgrees | watson_developer_cloud/ai_open_scale_v1.py:925-955 | `ExplanationTaskResponseMetadata._from_dict` raises exactly what the schema interpreter `Canon` raises on the same dictionary (first missing required key, or a nested value of the wrong shape, in declaration order); when it succeeds, `_to_dict` of the result is `Canon`'s canonical form |
| ModelLaws.MetadataImplements | watson_developer_cloud/ai_open_scale_v1.py:925-955 | the agreement of `ExplanationTaskResponseMetadata` with its schema, for every input dictionary |
| ModelLaws.MetadataRoundTrip | watson_developer_cloud/ai_open_scale_v1.py:925-955 | `ExplanationTaskResponseMetadata._from_dict(x._to_dict())` equals `x` exactly when the required attributes of `x` are set |
| ModelLaws.MetadataIgnoresUnknown | watson_developer_cloud/ai_open_scale_v1.py:925-942 | keys `ExplanationTaskResponseMetadata` does not declare do not change what `_from_dict` returns or raises |
| ModelLaws.MetadataEncodeKeys | watson_developer_cloud/ai_open_scale_v1.py:944-955 | `ExplanationTaskResponseMetadata._to_dict` emits declared keys only and never a `null` value |
| ModelLaws.MetadataEncodeInjective | watson_developer_cloud/ai_open_scale_v1.py:944-965 | two `ExplanationTaskResponseMetadata` objects are equal under `__eq__` (same attributes) exactly when their `_to_dict` dictionaries are equal |
| ModelLaws.MetadataCanonical | watson_developer_cloud/ai_open_scale_v1.py:925-955 | for any dictionary `ExplanationTaskResponseMetadata._from_dict` accepts, `_to_dict` of the result is the input cut down to the declared keys, minus those bound to `null` |
| ModelLaws.RemediationAgrees | watson_developer_cloud/ai_open_scale_v1.py:991-1011 | `FairnessMonitoringRemediationResponse._from_dict` raises exactly what the schema interpreter `Canon` raises on the same dictionary (first missing required key, or a nested value of the wrong shape, in declaration order); when it succeeds, `_to_dict` of the result is `Canon`'s canonical form |
| ModelLaws.RemediationImplements | watson_developer_cloud/ai_open_scale_v1.py:991-1011 | the agreement of `FairnessMonitoringRemediationResponse` with its schema, for every input dictionary |
| ModelLaws.RemediationRoundTrip | watson_developer_cloud/ai_open_scale_v1.py:991-1011 | `FairnessMonitoringRemediationResponse._from_dict(x._to_dict())` equals `x` exactly when the required attributes of `x` are set |
| ModelLaws.RemediationIgnoresUnknown | watson_developer_cloud/ai_open_scale_v1.py:991-1002 | keys `FairnessMonitoringRemediationResponse` does not declare do not change what `_from_dict` returns or raises |
| ModelLaws.RemediationEncodeKeys | watson_developer_cloud/ai_open_scale_v1.py:1004-1011 | `FairnessMonitoringRemediationResponse._to_dict` emits declared keys only and never a `null` value |
| ModelLaws.RemediationEncodeInjective | watson_developer_cloud/ai_open_scale_v1.py:1004-1021 | two `FairnessMonitoringRemediationResponse` objects are equal under `__eq__` (same attributes) exactly when their `_to_dict` dictionaries are equal |
| ModelLaws.RemediationCanonical | watson_developer_cloud/ai_open_scale_v1.py:991-1011 | for any dictionary `FairnessMonitoringRemediationResponse._from_dict` accepts, `_to_dict` of the result is the input cut down to the declared keys, minus those bound to `null` |
| ModelLaws.GetResponseAgrees | watson_developer_cloud/ai_open_scale_v1.py:1047-1067 | `GetExplanationTaskResponse._from_dict` raises exactly what the schema interpreter `Canon` raises on the same dictionary (first missing required key, or a nested value of the wrong shape, in declaration order); when it succeeds, `_to_dict` of the result is `Canon`'s canonical form |
| ModelLaws.GetResponseImplements | watson_developer_cloud/ai_open_scale_v1.py:1047-1067 | the agreement of `GetExplanationTaskResponse` with its schema, for every input dictionary |
| ModelLaws.GetResponseRoundTrip | watson_developer_cloud/ai_open_scale_v1.py:1047-1067 | `GetExplanationTaskResponse._from_dict(x._to_dict())` equals `x` exactly when the required attributes of `x`, and of its nested records in turn, are set |
| ModelLaws.GetResponseIgnoresUnknown | watson_developer_cloud/ai_open_scale_v1.py:1047-1058 | keys `GetExplanationTaskResponse` does not declare do not change what `_from_dict` returns or raises |
| ModelLaws.GetResponseEncodeKeys | watson_developer_cloud/ai_open_scale_v1.py:1060-1067 | `GetExplanationTaskResponse._to_dict` emits declared keys only and never a `null` value |
| ModelLaws.GetResponseEncodeInjective | watson_developer_cloud/ai_open_scale_v1.py:1060-1077 | two `GetExplanationTaskResponse` objects are equal under `__eq__` (same attributes) exactly when their `_to_dict` dictionaries are equal |
| ModelLaws.PostResponseAgrees | watson_developer_cloud/ai_open_scale_v1.py:1103-1123 | `PostExplanationTaskResponse._from_dict` raises exactly what the schema interpreter `Canon` raises on the same dictionary (first missing required key, or a nested value of the wrong shape, in declaration order); when it succeeds, `_to_dict` of the result is `Canon`'s canonical form |
| ModelLaws.PostResponseImplements | watson_developer_cloud/ai_open_scale_v1.py:1103-1123 | the agreement of `PostExplanationTaskResponse` with its schema, for every input dictionary |
| ModelLaws.PostResponseRoundTrip | watson_developer_cloud/ai_open_scale_v1.py:1103-1123 | `PostExplanationTaskResponse._from_dict(x._to_dict())` equals `x` exactly when the required attributes of `x`, and of its nested records in turn, are set |
| ModelLaws.PostResponseIgnoresUnknown | watson_developer_cloud/ai_open_scale_v1.py:1103-1114 | keys `PostExplanationTaskResponse` does not declare do not change what `_from_dict` returns or raises |
| ModelLaws.PostResponseEncodeKeys | watson_developer_cloud/ai_open_scale_v1.py:1116-1123 | `PostExplanationTaskResponse._to_dict` emits declared keys only and never a `null` value |
| ModelLaws.PostResponseEncodeInjective | watson_developer_cloud/ai_open_scale_v1.py:1116-1133 | two `PostExplanationTaskResponse` objects are equal under `__eq__` (same attributes) exactly when their `_to_dict` dictionaries are equal |
| ModelLaws.PostEntityAgrees | watson_developer_cloud/ai_open_scale_v1.py:1156-1170 | `PostExplanationTaskResponseEntity._from_dict` raises exactly what the schema interpreter `Canon` raises on the same dictionary (first missing required key, or a nested value of the wrong shape, in declaration order); when it succeeds, `_to_dict` of the result is `Canon`'s canonical form |
| ModelLaws.PostEntityImplements | watson_developer_cloud/ai_open_scale_v1.py:1156-1170 | the agreement of `PostExplanationTaskResponseEntity` with its schema, for every input dictionary |
| ModelLaws.PostEntityRoundTrip | watson_developer_cloud/ai_open_scale_v1.py:1156-1170 | `PostExplanationTaskResponseEntity._from_dict(x._to_dict())` equals `x` exactly when the required attributes of `x` are set |
| ModelLaws.PostEntityIgnoresUnknown | watson_developer_cloud/ai_open_scale_v1.py:1156-1163 | keys `PostExplanationTaskResponseEntity` does not declare do not change what `_from_dict` returns or raises |
| ModelLaws.PostEntityEncodeKeys | watson_developer_cloud/ai_open_scale_v1.py:1165-1170 | `PostExplanationTaskResponseEntity._to_dict` emits declared keys only and never a `null` value |
| ModelLaws.PostEntityEncodeInjective | watson_developer_cloud/ai_open_scale_v1.py:1165-1180 | two `PostExplanationTaskResponseEntity` objects are equal under `__eq__` (same attributes) exactly when their `_to_dict` dictionaries are equal |
| ModelLaws.PostStatusAgrees | watson_developer_cloud/ai_open_scale_v1.py:1203-1215 | `PostExplanationTaskResponseEntityStatus._from_dict` raises exactly what the schema interpreter `Canon` raises on the same dictionary (first missing required key, or a nested value of the wrong shape, in declaration order); when it succeeds, `_to_dict` of the result is `Canon`'s canonical form |
| ModelLaws.PostStatusImplements | watson_developer_cloud/ai_open_scale_v1.py:1203-1215 | the agreement of `PostExplanationTaskResponseEntityStatus` with its schema, for every input dictionary |
| ModelLaws.PostStatusRoundTrip | watson_developer_cloud/ai_open_scale_v1.py:1203-1215 | for every object, `PostExplanationTaskResponseEntityStatus._from_dict(x._to_dict())` equals `x` |
| ModelLaws.PostStatusIgnoresUnknown | watson_developer_cloud/ai_open_scale_v1.py:1203-1208 | keys `PostExplanationTaskResponseEntityStatus` does not declare do not change what `_from_dict` returns or raises |
| ModelLaws.PostStatusEncodeKeys | watson_developer_cloud/ai_open_scale_v1.py:1210-1215 | `PostExplanationTaskResponseEntityStatus._to_dict` emits declared keys only and never a `null` value |
| ModelLaws.PostStatusEncodeInjective | watson_developer_cloud/ai_open_scale_v1.py:1210-1225 | two `PostExplanationTaskResponseEntityStatus` objects are equal under `__eq__` (same attributes) exactly when their `_to_dict` dictionaries are equal |
| ModelLaws.PostStatusCanonical | watson_developer_cloud/ai_open_scale_v1.py:1203-1215 | for any dictionary `PostExplanationTaskResponseEntityStatus._from_dict` accepts, `_to_dict` of the result is the input cut down to the declared keys, minus those bound to `null` |
| ModelLaws.MetadataRequired | watson_developer_cloud/ai_open_scale_v1.py:925-942 | `_from_dict` fails exactly when `id`, `created_by` or `created_at` is absent and names the first absent one; a required key bound to `null` is accepted but leaves the record incomplete; an absent `updated_at` is `None` |
| ModelLaws.RemediationRequired | watson_developer_cloud/ai_open_scale_v1.py:991-1002 | `_from_dict` fails exactly when `fields` or `values` is absent and names the first absent one; the result is complete exactly when neither is `null` |
| ModelLaws.GetResponseRequired | watson_developer_cloud/ai_open_scale_v1.py:1047-1058 | `metadata` is checked before `entity`; each must be present (else the missing-key error); a value that is not an object is the model's wrong-shape error, standing in for Python's varied outcome (see "Left out"); a nested failure passes through unchanged; success exactly when both nested records decode, with those records as attributes |
| ModelLaws.PostResponseRequired | watson_developer_cloud/ai_open_scale_v1.py:1103-1114 | the same for the response to a task submission, with the same wrong-shape abstraction |
| ModelLaws.EntityStatusRequired | watson_developer_cloud/ai_open_scale_v1.py:343-349 | a missing `status` is the missing-key error of both entity classes, a non-object `status` the model's wrong-shape error (Python's outcome varies, see "Left out"); in the model the submission entity decodes exactly when `status` is an object |
| ModelLaws.NullRequiredNotStable | watson_developer_cloud/ai_open_scale_v1.py:925-965 | a metadata dictionary with `id: null` decodes, but its `_to_dict` output no longer does: the round trip needs complete records |
| Codec.DecodeEach | watson_developer_cloud/ai_open_scale_v1.py:352-355 | the list comprehension over `_from_dict` succeeds exactly when every element is an object that decodes, keeps length and order, and otherwise raises what the first bad element raises |
| Codec.EncodeEach | watson_developer_cloud/ai_open_scale_v1.py:367-370 | the list comprehension over `_to_dict` keeps length and order, element by element |
| Codec.EachRoundTrip | watson_developer_cloud/ai_open_scale_v1.py:352-370 | decoding an encoded list gives it back when each element round-trips |
| Codec.ScalarFieldRoundTrip | watson_developer_cloud/ai_open_scale_v1.py:863-883 | a plain attribute written by the guarded assignment of `_to_dict` is read back as the same `Option` by `_from_dict` |
| Codec.RecordFieldRoundTrip | watson_developer_cloud/ai_open_scale_v1.py:343-373 | the same for a nested record, given its own round trip |
| Codec.ListFieldRoundTrip | watson_developer_cloud/ai_open_scale_v1.py:352-370 | the same for a list of records, given each element's round trip |
| Codec.EachInjective | watson_developer_cloud/ai_open_scale_v1.py:367-383 | two lists with equal encodings are equal when the element encoder is injective |
| Codec.StoresListUnique | watson_developer_cloud/ai_open_scale_v1.py:367-383 | a dictionary determines the list stored under a key, for an injective element encoder |
| Schemas.CanonIgnoresUndeclared | watson_developer_cloud/ai_open_scale_v1.py:343-358 | undeclared keys change nothing in decoding |
| Schemas.DecodeIgnoresUndeclared | watson_developer_cloud/ai_open_scale_v1.py:343-358 | a hand-written `_from_dict` that agrees with the interpreter, with an injective `_to_dict`, returns or raises the same whatever undeclared keys are added; every `XIgnoresUnknown` lemma is this fact |
| Schemas.ScalarFieldAgrees | watson_developer_cloud/ai_open_scale_v1.py:863-883 | reading and re-writing one plain attribute matches the interpreter on that field |
| Schemas.RecordFieldAgrees | watson_developer_cloud/ai_open_scale_v1.py:343-373 | reading and re-writing one nested record matches the interpreter, given agreement for the nested type |
| Schemas.ListFieldAgrees | watson_developer_cloud/ai_open_scale_v1.py:352-370 | reading and re-writing one list of records matches the interpreter, given agreement for the element type |
| Schemas.EachAgrees | watson_developer_cloud/ai_open_scale_v1.py:352-370 | element-wise decoding then encoding matches canonicalising each element, including the first failing element's error |
| Schemas.FlatCanonIsRestriction | watson_developer_cloud/ai_open_scale_v1.py:944-955 | for plain-attribute record types the canonical form is the input restricted to declared keys without `null` values |
| Service.CheckProvided | watson_developer_cloud/ai_open_scale_v1.py:74-81 | the `is None` checks in order: success exactly when no argument is `None`, else the error names the first `None` argument |
| Service.FirstNoneIndex | watson_developer_cloud/ai_open_scale_v1.py:74-81 | finds the first `None` argument, or reports there is none |
| Service.Merge | watson_developer_cloud/ai_open_scale_v1.py:287-291 | `headers.update(caller)`: the caller's headers are all kept as given; a fixed header survives only where the caller sets none |
| Service.JoinSegments | watson_developer_cloud/ai_open_scale_v1.py:95 | a URL path assembled from segments without `/` splits back into exactly those segments |
| Service.DataMartPath | watson_developer_cloud/ai_open_scale_v1.py:95 | a URL for a resource directly under a data mart is `/v1/data_marts/{0}/<resource>` and splits into `v1`, `data_marts`, the encoded data mart id and the resource name; this is the shape of the feedback URL and of the explanation-task submission URL (line 166) |
| Service.ExplanationTaskPath | watson_developer_cloud/ai_open_scale_v1.py:131 | the explanation task URL is `/v1/data_marts/{0}/explanation_tasks/{1}` and splits into `v1`, `data_marts`, the data mart id, `explanation_tasks`, the explanation task id |
| Service.DebiasPath | watson_developer_cloud/ai_open_scale_v1.py:298 | the debias URL is `/v1/data_marts/{0}/service_bindings/{1}/subscriptions/{2}/deployments/{3}/online` and splits into its fixed segments with the four encoded ids in their slots |
| Service.PostFeedbackPayload | watson_developer_cloud/ai_open_scale_v1.py:56-101 | fails exactly when `data_mart_id`, `binding_id`, `subscription_id` or `values` is `None`, naming the first; otherwise a POST whose body handed to `request` has exactly the keys `binding_id`, `subscription_id`, `values`, `fields` (`fields` as given, `None` included), whose headers are the caller's, and whose URL is `/v1/data_marts/` + `enc(data_mart_id)` + `/feedback_payloads` |
| Service.GetExplanationTask | watson_developer_cloud/ai_open_scale_v1.py:108-136 | fails exactly when `data_mart_id` or `explanation_task_id` is `None`, naming the first; otherwise a GET without body, with the caller's headers, to `/v1/data_marts/` + `enc(data_mart_id)` + `/explanation_tasks/` + `enc(explanation_task_id)` |
| Service.PostExplanationTask | watson_developer_cloud/ai_open_scale_v1.py:139-172 | fails exactly when `data_mart_id` or `scoring_id` is `None`, naming the first; otherwise a POST whose body is exactly `scoring_id`, to `/v1/data_marts/` + `enc(data_mart_id)` + `/explanation_tasks` |
| Service.FairnessMonitoringDebias | watson_developer_cloud/ai_open_scale_v1.py:179-304 | validates its six required arguments in order; headers are the transaction header plus the caller's, the caller winning on a clash; the body is exactly `fields` and `values`; the URL is the debias template with the four encoded ids in their slots |
| Scenarios.FeedbackForDataMart | watson_developer_cloud/ai_open_scale_v1.py:74-101 | feedback for data mart `dm1` goes to the URL with segments `v1`, `data_marts`, `dm1`, `feedback_payloads`, and the body handed to `request` has `fields: null` when no fields are given |
| Scenarios.FeedbackUrl | watson_developer_cloud/ai_open_scale_v1.py:95 | the same upload's URL is the text `/v1/data_marts/dm1/feedback_payloads` |
| Scenarios.FeedbackWithoutValues | watson_developer_cloud/ai_open_scale_v1.py:74-81 | with every id given and `values` `None`, the error names `values` |
| Scenarios.DebiasHeaderOverride | watson_developer_cloud/ai_open_scale_v1.py:287-291 | a caller header `X-Global-Transaction-Id` replaces the transaction id argument |
| Scenarios.DebiasTransactionHeader | watson_developer_cloud/ai_open_scale_v1.py:287-291 | without caller headers, the headers handed to `request` hold the transaction id as given, `None` included |

## Left out

- `WatsonService.request`, the client constructor, credential discovery and the default service URL (lines 30-50, 96-100): these are I/O and a base class that is not part of this model. The endpoints return the request they would hand over, not the response.
- What `request` does with a body key or a header bound to `None` (the `fields` of `post_feedback_payload`, the transaction id of `fairness_monitoring_debias`) is not modelled: the model stops at the dictionaries handed to it (lines 96-100, 299-303).
- `accept_json=True` and the HTTP method string passed to `request`: the model records GET or POST only.
- `_encode_path_vars` is not part of this model. It is the parameter `enc`, and the URL contracts assume only that its output holds no `/` for the arguments concerned.
- `__str__` of every class: it is a `json.dumps` rendering for display.
- `__ne__` of every class: it is the negation of `__eq__`, and `__eq__` is covered by the `EncodeInjective` lemmas.
- `__init__` of the model classes: the constructors store their arguments unchecked, so they are the datatype constructors themselves; required arguments may be `None`, as in Python.
- Python's behaviour on a nested value of the wrong JSON type is not modelled; the model reports `WrongShape` for every nested value that is not an object, every list value that is not a list, and every list element that is not an object. Python does several different things there. `in` on a string is a substring test and on a list a membership test, so a string or list under a record key fails none of the key tests that a record type without required keys makes: `{"status": "x"}` or `{"status": []}` decodes to an empty status. For a record type with required keys, the same value raises the nested missing-key `ValueError` instead (`{"metadata": "abc"}` raises the one for `id`, lines 928-931). A key test that does succeed on a string or list (`"state" in "state"`) is followed by `.get`, which raises `AttributeError`. Under a list key, the comprehension iterates a string's characters or an object's keys, so `"input_features": "ab"` gives two empty records and `"input_features": {}` an empty list (line 353); a list element that is a string or list gives an empty record. `null` or a number under either kind of key raises `TypeError`.
- ModelLaws.GetResponseRequired: a `metadata` or `entity` value that is not an object is stated as the wrong-shape error. In Python a string or list there raises the nested missing-key `ValueError` (for `id`, or for `status`), as described above.
- ModelLaws.PostResponseRequired: the same as for `GetResponseRequired`; a non-object `entity` raises the missing-key `ValueError` for `status` in Python.
- ModelLaws.EntityStatusRequired: a `status` value that is not an object is stated as the wrong-shape error, and the submission entity is stated to decode exactly when `status` is an object. In Python a string or list `status` can decode to an empty status instead (lines 346-347, 1159-1160).
- JSON numbers are opaque literals and `__eq__` compares values structurally. Python's cross-type equalities such as `1 == 1.0 == True` are not modelled.
- Key order of dictionaries is not modelled: a Dafny `map` is unordered, and no operation here depends on the order.
- Service.PostFeedbackPayload: passing `headers=None` explicitly makes `headers.update(None)` raise in Python (line 86). The model's caller headers are always a map, so that error is not modelled.
- Service.GetExplanationTask: the same `headers=None` error (line 129) is not modelled.
- Service.PostExplanationTask: the same `headers=None` error (line 160) is not modelled.
- Service.FairnessMonitoringDebias: the same `headers=None` error (line 291) is not modelled.
- Service.Merge: header values are JSON values. Python would accept any object there.
