# ember-osf adapter and cookie authenticator, modelled in Dafny

This project models the decision logic of two files of ember-osf, the Ember
add-on for the OSF API v2.

- `addon/adapters/osf-adapter.js`, the JSON:API adapter:
  - URL normalisation (`buildURL`): the record's `links.self` is preferred, and a trailing slash is forced;
  - the choice of relationship URL (`_buildRelationshipURL`);
  - the shaping of a has-many update (`_handleManyRequest`, `_serializeHasMany`) and its bulk content type (`ajaxOptions`);
  - the orchestration of `updateRecord`: one request per dirty relationship, all awaited, markers cleared only on success.
- `addon/authenticators/osf-cookie.js`, the session-cookie authenticator:
  - the feature-flag map and the rejection of a `null` current user (`_test`);
  - `restore`, `invalidate` and `authenticate`.

Files:

- `common.dfy` (`Common`): `Option`, `Result` (a value or a thrown `JsError`), `Settled` (how a promise ends) and JavaScript string truthiness.
- `urls.dfy` (`AdapterUrls`): `lastIndexOf`, the trailing-slash rule, `buildURL`, `_buildRelationshipURL`.
- `payload.dfy` (`HasManyPayload`): the record filter, the serializer type name, the payload shape, the merge of request options, `ajaxOptions`.
- `update.dfy` (`AdapterUpdate`): the record's dirty relationships as a class, the per-relationship dispatch, the settlement loop and `updateRecord`.
- `cookie.dfy` (`CookieAuthenticator`): the authenticator as a class whose fields record what it hands to the feature service, the store and the session.

Asynchrony is abstracted. Every relationship request `updateRecord` issues
comes with a given `Outcome`, and the base adapter's attribute update comes
with a given settlement. The session probe comes as a `Probe` that was either
answered or failed. Markers are cleared in the order the requests were issued.
`ClearingInAnyOrder` (built on `WithoutTwice`) shows that clearing any number of
names one response at a time, in any order, ends in the same dirty list as
clearing them all at once.

Edge cases the model follows as the code has them:
- `_serializeHasMany([])` gives `undefined` (`Payload.Undefined`), not an empty array.
- The empty URL is left empty by `buildURL`, because `lastIndexOf` returns -1, which equals `length - 1`.
- A URL that already ends in several slashes keeps them all.
- The custom-serializer and belongs-to paths of `updateRecord` read `url` and `serializer`, which are not bound there (see Findings).

## Model

| member | source | states |
|---|---|---|
| `AdapterUrls.LastIndexOf` | addon/adapters/osf-adapter.js:23 | The result is -1 or an index holding the character, and no later index holds it. |
| `AdapterUrls.AppendTrailingSlash` | addon/adapters/osf-adapter.js:23-25 | A non-empty URL comes out ending in `/`. A URL already ending in `/` is unchanged, and so is the empty string. Otherwise exactly one `/` is appended. |
| `AdapterUrls.AppendTrailingSlashIdempotent` | addon/adapters/osf-adapter.js:23-26 | The normalisation is idempotent and adds at most one character. |
| `AdapterUrls.BuildURL` | addon/adapters/osf-adapter.js:14-27 | For `deleteRecord`, `updateRecord` and `findRecord`, a non-empty `links.self` replaces the base URL. Otherwise the base URL is kept. Either is then normalised, so the result is empty or ends in `/`. |
| `AdapterUrls.BuildRelationshipURL` | addon/adapters/osf-adapter.js:36-45 | The relationship's `self` href is used, else its `related` href, un-normalised. With no relationship name or no links, the result is exactly `BuildURL` of the same arguments. It throws exactly when the links object has neither `self` nor `related`. |
| `HasManyPayload.SerializeHasMany` | addon/adapters/osf-adapter.js:46-58 | Zero documents give `undefined`, one is sent unwrapped, and several become `{data: [...]}`. `Documents` recovers the input with the same length and order. |
| `HasManyPayload.SelectForSave` | addon/adapters/osf-adapter.js:63 | It keeps exactly the related records that are new (no id) or have changed attributes. |
| `HasManyPayload.SelectForSaveAppend` | addon/adapters/osf-adapter.js:63 | The filter distributes over concatenation, so it keeps relative order. |
| `HasManyPayload.SerializerTypeName` | addon/adapters/osf-adapter.js:61-62 | The serializer type is the relationship type minus its last character. An empty type stays empty. |
| `HasManyPayload.SerializedDocuments` | addon/adapters/osf-adapter.js:60-63 | There is one document per selected record, in order, produced by the serializer for the derived type name. |
| `HasManyPayload.ManyRequest` | addon/adapters/osf-adapter.js:59-75 | The defaults are PATCH, the relationship URL, `SerializeHasMany` of the serialized documents, and `isBulk` exactly when more than one record is selected. Each `updateRequest` key (`requestType`, `url`, `serialized`, `isBulk`) replaces its default, the function overrides being applied to the serialized documents. A throwing relationship URL makes the request throw, even when the URL is overridden. |
| `HasManyPayload.DefaultManyRequestIsBulkExactlyForEnvelopes` | addon/adapters/osf-adapter.js:64-75 | With no overrides the request is a PATCH to the relationship URL. `isBulk` holds exactly when the payload is a `{data: [...]}` envelope, and the payload is `undefined` exactly when nothing is selected. |
| `HasManyPayload.AjaxOptions` | addon/adapters/osf-adapter.js:110-116 | The content type becomes `application/vnd.api+json; ext=bulk` exactly when the options' `isBulk` is set. Otherwise the settings are unchanged, and the other fields are never touched. |
| `AdapterUpdate.RelationshipOperation` | addon/adapters/osf-adapter.js:83-97 | A custom serializer sends one PATCH of its output to the record's own URL with no bulk flag, whatever the relationship's kind. A belongs-to relationship sends one PATCH of its serialized value there. A has-many relationship sends exactly the request `ManyRequest` builds, and throws only when its relationship URL throws. |
| `AdapterUpdate.RelationshipOperationAsWritten` | addon/adapters/osf-adapter.js:86-96 | As written, the custom-serializer path throws a ReferenceError for `url`, and the belongs-to path throws one for `serializer`. Has-many is as corrected. |
| `AdapterUpdate.AsWrittenThrowsWhereCorrectedSends` | addon/adapters/osf-adapter.js:92-94 | Wherever the code as written throws, the corrected dispatch issues a PATCH to the record's URL. |
| `AdapterUpdate.PlanRequests` | addon/adapters/osf-adapter.js:81-98 | There is at most one request per dirty relationship, and exactly one each when nothing throws. Outcomes are not an input, so a failure cannot stop later requests. |
| `AdapterUpdate.PlanRequestsInOrder` | addon/adapters/osf-adapter.js:83-97 | The i-th request is the i-th dirty relationship's. A dispatch that throws stops exactly at the relationship that threw. |
| `AdapterUpdate.Dispatch` | addon/adapters/osf-adapter.js:81-98 | The loop issues exactly the requests `PlanRequests` describes and reports the exception that stopped it. |
| `AdapterUpdate.Without` | addon/adapters/osf-adapter.js:96 | A name is still dirty exactly when it was dirty and was not cleared, and the list never grows. |
| `AdapterUpdate.WithoutTwice` | addon/adapters/osf-adapter.js:101 | Clearing two batches of names one after the other is clearing their union. |
| `AdapterUpdate.ClearingCommutes` | addon/adapters/osf-adapter.js:105 | Two successful requests clear their markers with the same result whichever settles first. |
| `AdapterUpdate.WithoutAppend` | addon/adapters/osf-adapter.js:96 | Clearing distributes over concatenation, so the names that stay dirty keep their relative order. |
| `AdapterUpdate.ClearingInAnyOrder` | addon/adapters/osf-adapter.js:101-105 | Clearing a sequence of succeeded names one response at a time, in whatever order they arrive, gives the same dirty list as clearing the set of them at once. |
| `AdapterUpdate.Record.ClearDirtyRelationship` | addon/adapters/osf-adapter.js:96 | The dirty list becomes the old one without the named relationship (every other name stays, in order, by `WithoutAppend`). |
| `AdapterUpdate.Settle` | addon/adapters/osf-adapter.js:101-105 | After every request settles, the dirty list loses exactly the names whose own request succeeded. |
| `AdapterUpdate.UpdateRecord` | addon/adapters/osf-adapter.js:79-109 | It issues the planned requests in dirty order and clears exactly the succeeded markers. The primary update is issued only if attributes changed and nothing threw. The result is `null` without attribute changes, and otherwise the primary update's own response or rejection, whatever the relationship outcomes. A synchronous exception is rethrown. |
| `AdapterUpdate.MarkerKeptExactlyOnFailure` | addon/adapters/osf-adapter.js:83-98 | With distinct dirty names, each relationship's marker remains exactly when its own request failed, independently of the other requests. |
| `AdapterUpdate.UnissuedMarkersKept` | addon/adapters/osf-adapter.js:83-97 | The relationships after the one whose dispatch threw get no request and stay dirty. |
| `CookieAuthenticator.ClearsSession` | addon/authenticators/osf-cookie.js:67 | The condition of `invalidate`: missing data always clears, and an error object clears only with a truthy id and a status other than 401. |
| `CookieAuthenticator.TestResult` | addon/authenticators/osf-cookie.js:38-56 | `_test` rejects exactly when the probe fails (with the probe's reason) or the current user is `null` (with no value), and otherwise resolves to `current_user.data`. |
| `CookieAuthenticator.ClearsSessionCases` | addon/authenticators/osf-cookie.js:67-78 | A missing value clears the session. An object clears it only when it has a truthy id and its status is not 401. Without an id, or with status 401, `invalidate` does nothing. |
| `CookieAuthenticator.BuildFeatureMap` | addon/authenticators/osf-cookie.js:39-46 | The features map has exactly the distinct flag names as keys, each mapped to true. Duplicates collapse, so there are no more keys than flags. |
| `CookieAuthenticator.NullUserClearsOnRestore` | addon/authenticators/osf-cookie.js:50-74 | A `null` current user makes `_test` reject with no value, which `invalidate` treats as a logout. |
| `CookieAuthenticator.ProbeErrorWithoutIdKeepsSession` | addon/authenticators/osf-cookie.js:58-78 | A failed probe whose error has no id leaves the session alone on restore. |
| `CookieAuthenticator.Authenticator.Test` | addon/authenticators/osf-cookie.js:26-57 | Features are set up exactly when `active_flags` is an array, even if the answer then rejects. A `null` current user rejects and pushes nothing. Otherwise the current user is pushed into the store and its `data` is the result. A failed probe rejects with its reason and changes nothing. |
| `CookieAuthenticator.Authenticator.Invalidate` | addon/authenticators/osf-cookie.js:66-79 | The session is cleared locally exactly when `ClearsSession` holds, and nothing else changes. |
| `CookieAuthenticator.Authenticator.Restore` | addon/authenticators/osf-cookie.js:58-60 | It settles and sets up features as `_test` does, and invalidates with the failure value exactly when `_test` rejects. |
| `CookieAuthenticator.Authenticator.Authenticate` | addon/authenticators/osf-cookie.js:86-92 | It resolves or rejects exactly as `_test` does and never clears the session. |

## Findings

| source | as written | input that shows it | evidently intended | confidence | as-written member | corrected member |
|---|---|---|---|---|---|---|
| addon/adapters/osf-adapter.js:92-94 | The custom-serializer path calls `ajax(url, ...)` and the belongs-to path calls `serializer.serialize(...)`. Neither `url` nor `serializer` is declared in `updateRecord`, so an ES module throws a ReferenceError inside `dirtyRelationships.map`. | A save whose dirty relationships include a belongs-to relationship, or any relationship declared with `options.serializer`. | One PATCH to the record's own URL with the serialized value, and the marker cleared on success. | medium, not executed | `AdapterUpdate.RelationshipOperationAsWritten` (with `AdapterUpdate.AsWrittenThrowsWhereCorrectedSends`) | `AdapterUpdate.RelationshipOperation` |

## Left out

- Ember and ember-data inheritance is left out. The base adapter's `buildURL` result, the target `url` and the belongs-to serializer are parameters (`superUrl`, `Env`). The attribute update of the base adapter's `updateRecord` is a given settlement.
- HTTP transport, CORS and credential options are left out, and so are promise timing and interleaving. When the primary update rejects, the source surfaces the rejection without waiting for relationship requests; the model does not capture that timing.
- `Ember.String.underscore` is not modelled: relationship links are looked up by the relationship's name as given.
- The bodies of `serializerFor`/`serialize`, of the relationship's `options.serializer` and of the `requestType` override are not modelled. Each stands for its output: a function parameter or a stored value.
- A serializer's document is modelled by its `data` member only, so other top-level members that `_serializeHasMany` would drop when wrapping are not represented.
- `AdapterUpdate.Record.ClearDirtyRelationship` clears by name. At osf-adapter.js:76 the has-many path passes the relationship's meta object instead of its name. The mixin that defines `clearDirtyRelationship` is not part of this model, so the effect of that argument is unknown.
- `AdapterUpdate.UpdateRecord` requires every dirty name to have relationship metadata and an outcome for every dirty relationship. The source reads `meta()` of each dirty name without a check.
- `pushPayload`, `Ember.copy`, `features.setup` and `session._clear` are reduced to the values handed to them: the pushed payload, the feature map, and a count of clears.
- The probe request's configuration (`config.OSF.apiUrl`, `apiNamespace`, the authorizer) is a set of constants with no behaviour.
- JavaScript values of unexpected types are not modelled: a non-string href or status, a `current_user` that is `undefined` rather than `null`, and a flag named `__proto__`.
- tests/integration/components/citation-widget/component-test.js is a render smoke test of a component that is not part of this model.
