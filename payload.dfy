/**
 * The has-many request of the OSF JSON:API adapter (addon/adapters/osf-adapter.js):
 * which related records are sent, how their serialized documents are shaped
 * into one payload (`_serializeHasMany`), how the request options are merged
 * (`_handleManyRequest`) and how the bulk flag becomes a content type
 * (`ajaxOptions`).
 */
module HasManyPayload {
  import opened Common

  /** A resource object as a serializer writes it. */
  datatype Resource = Resource(resourceType: string, id: Option<string>, attributes: map<string, string>)

  /** The top-level document a serializer returns: `{data: resource}`. */
  datatype Document = Document(data: Resource)

  /** The body of a relationship update. */
  datatype Payload =
    | Undefined                  // nothing to send
    | Single(document: Document) // one serialized document, sent as it is
    | Bulk(data: seq<Resource>)  // `{data: [...]}`, the JSON:API bulk extension

  /** The documents a payload carries, in order. */
  function Documents(p: Payload): seq<Document> {
    match p
    case Undefined => []
    case Single(d) => [d]
    case Bulk(data) => seq(|data|, i requires 0 <= i < |data| => Document(data[i]))
  }

  /**
   * `_serializeHasMany`: several documents are unwrapped to their `data` and
   * wrapped in one envelope, a single document is sent unwrapped, and an empty
   * list gives `serialized[0]`, which is `undefined`. Nothing is lost or
   * reordered: `Documents` recovers the input.
   */
  function SerializeHasMany(serialized: seq<Document>): (p: Payload)
    ensures p.Undefined? <==> |serialized| == 0
    ensures p.Single? <==> |serialized| == 1
    ensures p.Bulk? <==> |serialized| > 1
    ensures Documents(p) == serialized
  {
    if |serialized| > 1 then
      var data := seq(|serialized|, i requires 0 <= i < |serialized| => serialized[i].data);
      assert Documents(Bulk(data)) == serialized;
      Bulk(data)
    else if |serialized| == 1 then Single(serialized[0])
    else Undefined
  }

  /** A related record's snapshot: its id (missing while it is new) and its changed attribute names. */
  datatype RelatedSnapshot = RelatedSnapshot(id: Option<string>, changedAttributes: set<string>)

  /** The filter of `_handleManyRequest`: new records and records with changed attributes. */
  predicate NeedsSave(s: RelatedSnapshot) {
    s.id.None? || |s.changedAttributes| > 0
  }

  /** `related.filter(NeedsSave)`: exactly the related records that need saving. */
  function SelectForSave(related: seq<RelatedSnapshot>): (r: seq<RelatedSnapshot>)
    ensures |r| <= |related|
    ensures forall s :: s in r <==> s in related && NeedsSave(s)
  {
    if related == [] then []
    else (if NeedsSave(related[0]) then [related[0]] else []) + SelectForSave(related[1..])
  }

  /** The filter keeps relative order: it distributes over concatenation. */
  lemma {:induction false} SelectForSaveAppend(a: seq<RelatedSnapshot>, b: seq<RelatedSnapshot>)
    ensures SelectForSave(a + b) == SelectForSave(a) + SelectForSave(b)
  {
    if a == [] {
      assert a + b == b;
    } else {
      assert (a + b)[0] == a[0];
      assert (a + b)[1..] == a[1..] + b;
      SelectForSaveAppend(a[1..], b);
    }
  }

  /**
   * `relationType.substring(0, relationType.length - 1)`: the serializer's type
   * name is the relationship type without its last character; `substring`
   * clamps the end index -1 of an empty type to 0.
   */
  function SerializerTypeName(relationType: string): (r: string)
    ensures relationType == [] ==> r == []
    ensures relationType != [] ==> r + [relationType[|relationType| - 1]] == relationType
  {
    if relationType == [] then [] else relationType[..|relationType| - 1]
  }

  /** The documents `_handleManyRequest` serializes, in the related records' order. */
  function SerializedDocuments(related: seq<RelatedSnapshot>, relationType: string,
                               serializerFor: string -> RelatedSnapshot -> Document): (docs: seq<Document>)
    ensures |docs| == |SelectForSave(related)|
    ensures forall i :: 0 <= i < |docs| ==>
              docs[i] == serializerFor(SerializerTypeName(relationType))(SelectForSave(related)[i])
  {
    var serializer := serializerFor(SerializerTypeName(relationType));
    var selected := SelectForSave(related);
    seq(|selected|, i requires 0 <= i < |selected| => serializer(selected[i]))
  }

  /**
   * A relationship's `options.updateRequest`: any key present overrides the
   * default of the same name. `requestType` is the method the override
   * function returns for this record and relationship.
   */
  datatype UpdateRequestOptions = UpdateRequestOptions(
    requestType: Option<string>,
    isBulk: Option<seq<Document> -> bool>,
    url: Option<string>,
    serialized: Option<seq<Document> -> Payload>)

  const NoOverrides: UpdateRequestOptions := UpdateRequestOptions(None, None, None, None)

  /** The hash handed to `ajax`: `{data, isBulk}` (a missing `isBulk` is false). */
  datatype AjaxHash = AjaxHash(data: Payload, isBulk: bool)

  /** One issued request: `ajax(url, method, hash)`. */
  datatype Request = Request(url: string, verb: string, hash: AjaxHash)

  /**
   * The request `_handleManyRequest` sends. `defaultUrl` is the outcome of
   * `_buildRelationshipURL`, which is evaluated before the options are merged,
   * so it throws even when `updateRequest` overrides the URL.
   */
  function ManyRequest(related: seq<RelatedSnapshot>, relationType: string,
                       updateRequest: UpdateRequestOptions,
                       serializerFor: string -> RelatedSnapshot -> Document,
                       defaultUrl: Result<string>): (r: Result<Request>)
    ensures r.Err? <==> defaultUrl.Err?
    ensures r.Ok? ==> r.value.url == updateRequest.url.GetOr(defaultUrl.value)
    ensures r.Ok? ==> r.value.verb == updateRequest.requestType.GetOr("PATCH")
    ensures r.Ok? ==>
              r.value.hash.data == match updateRequest.serialized
                                   case Some(f) => f(SerializedDocuments(related, relationType, serializerFor))
                                   case None => SerializeHasMany(SerializedDocuments(related, relationType, serializerFor))
    ensures r.Ok? ==>
              r.value.hash.isBulk == match updateRequest.isBulk
                                     case Some(f) => f(SerializedDocuments(related, relationType, serializerFor))
                                     case None => |SelectForSave(related)| > 1
  {
    var serialized := SerializedDocuments(related, relationType, serializerFor);
    var url :- defaultUrl;
    var data := match updateRequest.serialized
      case Some(f) => f(serialized)
      case None => SerializeHasMany(serialized);
    var isBulk := match updateRequest.isBulk
      case Some(f) => f(serialized)
      case None => |serialized| > 1;
    Ok(Request(updateRequest.url.GetOr(url), updateRequest.requestType.GetOr("PATCH"), AjaxHash(data, isBulk)))
  }

  /** With no overrides the request is a PATCH whose bulk flag is set exactly when the payload is an envelope. */
  lemma DefaultManyRequestIsBulkExactlyForEnvelopes(related: seq<RelatedSnapshot>, relationType: string,
                                                    serializerFor: string -> RelatedSnapshot -> Document,
                                                    defaultUrl: Result<string>)
    requires defaultUrl.Ok?
    ensures var r := ManyRequest(related, relationType, NoOverrides, serializerFor, defaultUrl);
            && r.Ok?
            && r.value.url == defaultUrl.value
            && r.value.verb == "PATCH"
            && (r.value.hash.isBulk <==> r.value.hash.data.Bulk?)
            && (r.value.hash.data.Undefined? <==> SelectForSave(related) == [])
  {
  }

  const BulkContentType: string := "application/vnd.api+json; ext=bulk"

  /** The settings `ajaxOptions` hands to jQuery; `fields` stands for every other setting. */
  datatype AjaxSettings = AjaxSettings(contentType: Option<string>, fields: map<string, string>)

  /**
   * `ajaxOptions(url, type, options)`: `base` is what the base adapter returns.
   * Only a truthy `isBulk` changes anything, and then only the content type.
   */
  function AjaxOptions(base: AjaxSettings, options: Option<AjaxHash>): (r: AjaxSettings)
    ensures r.fields == base.fields
    ensures options.Some? && options.value.isBulk ==> r.contentType == Some(BulkContentType)
    ensures !(options.Some? && options.value.isBulk) ==> r == base
  {
    if options.Some? && options.value.isBulk then base.(contentType := Some(BulkContentType)) else base
  }
}
