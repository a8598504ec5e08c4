/**
 * `updateRecord` of the OSF JSON:API adapter (addon/adapters/osf-adapter.js):
 * one request per dirty relationship, in the record's order, all of them
 * awaited (`allSettled`) whatever their outcome, each relationship's dirty
 * marker cleared only by its own successful request, and an overall result
 * that depends on whether scalar attributes changed.
 *
 * The asynchronous transport is abstracted: each issued request comes with a
 * given outcome, and the primary (attribute) update of the base adapter comes
 * with a given settlement.
 */
module AdapterUpdate {
  import opened Common
  import opened AdapterUrls
  import opened HasManyPayload

  datatype Kind = HasMany | BelongsTo

  /**
   * A relationship's `meta()`: its kind, its related type and the options given
   * where it is declared. `serializer` is `Some(p)` when `options.serializer` is
   * set, `p` being what it returns for the record being saved.
   */
  datatype RelationMeta = RelationMeta(kind: Kind, relatedType: string, serializer: Option<Payload>,
                                       updateRequest: UpdateRequestOptions)

  /** A relationship of the record: its metadata and, for has-many, its related records' snapshots. */
  datatype Relationship = Relationship(meta: RelationMeta, related: seq<RelatedSnapshot>)

  /** The snapshot of the record being saved. */
  datatype Snapshot = Snapshot(
    selfLink: Option<string>,                            // `links.self`
    changedAttributes: set<string>,                      // keys of `changedAttributes()`
    relationships: map<string, Relationship>,
    relationshipLinks: map<string, RelationshipLinks>)

  /**
   * What the adapter draws from its collaborators. `primaryUrl` and
   * `serializeBelongsTo` stand for the identifiers `url` and `serializer`,
   * which the custom-serializer and belongs-to paths use but never bind.
   */
  datatype Env = Env(
    superUrl: string,                                    // the base adapter's URL for 'updateRecord'
    primaryUrl: string,
    serializeBelongsTo: string -> Payload,               // the serialized belongs-to value, by relationship name
    serializerFor: string -> RelatedSnapshot -> Document) // `store.serializerFor(name).serialize`

  /** A request issued for the relationship `relationship`. */
  datatype Operation = Operation(relationship: string, request: Request)

  /** The outcome of one issued relationship request. */
  datatype Outcome = Succeeded | Failed

  /** How the primary attribute update of the base adapter ended. */
  datatype HttpError = HttpError(status: int)

  /** What `updateRecord` does as a whole: throw synchronously, or return a promise that settles. */
  datatype SaveResult =
    | Threw(error: JsError)
    | Resolved(response: Option<Document>)
    | PrimaryRejected(reason: HttpError)

  /**
   * The callback of `dirtyRelationships.map` for one relationship: a custom
   * serializer sends its output to the record's own URL; otherwise a has-many
   * relationship goes through `_handleManyRequest` and a belongs-to
   * relationship sends its serialized value to the record's own URL.
   */
  function RelationshipOperation(name: string, snap: Snapshot, env: Env): (r: Result<Operation>)
    requires name in snap.relationships
    ensures r.Ok? ==> r.value.relationship == name
    ensures snap.relationships[name].meta.serializer.Some? ==>
              r == Ok(Operation(name, Request(env.primaryUrl, "PATCH",
                                              AjaxHash(snap.relationships[name].meta.serializer.value, false))))
    ensures snap.relationships[name].meta.serializer.None? && snap.relationships[name].meta.kind == BelongsTo ==>
              r == Ok(Operation(name, Request(env.primaryUrl, "PATCH", AjaxHash(env.serializeBelongsTo(name), false))))
    ensures r.Err? <==>
              snap.relationships[name].meta.serializer.None? && snap.relationships[name].meta.kind == HasMany &&
              BuildRelationshipURL(env.superUrl, "updateRecord", snap.selfLink, name, snap.relationshipLinks).Err?
    ensures snap.relationships[name].meta.serializer.None? && snap.relationships[name].meta.kind == HasMany && r.Ok? ==>
              r.value.request ==
              ManyRequest(snap.relationships[name].related, snap.relationships[name].meta.relatedType,
                          snap.relationships[name].meta.updateRequest, env.serializerFor,
                          BuildRelationshipURL(env.superUrl, "updateRecord", snap.selfLink, name, snap.relationshipLinks)).value
  {
    var meta := snap.relationships[name].meta;
    if meta.serializer.Some? then
      Ok(Operation(name, Request(env.primaryUrl, "PATCH", AjaxHash(meta.serializer.value, false))))
    else if meta.kind == HasMany then
      var url := BuildRelationshipURL(env.superUrl, "updateRecord", snap.selfLink, name, snap.relationshipLinks);
      var request :- ManyRequest(snap.relationships[name].related, meta.relatedType, meta.updateRequest,
                                 env.serializerFor, url);
      Ok(Operation(name, request))
    else
      Ok(Operation(name, Request(env.primaryUrl, "PATCH", AjaxHash(env.serializeBelongsTo(name), false))))
  }

  /**
   * The same callback as the source has it: `url` (custom serializer) and
   * `serializer` (belongs-to) are unbound, so reading them throws.
   */
  function RelationshipOperationAsWritten(name: string, snap: Snapshot, env: Env): (r: Result<Operation>)
    requires name in snap.relationships
    ensures snap.relationships[name].meta.serializer.Some? ==> r == Err(ReferenceError("url"))
    ensures snap.relationships[name].meta.serializer.None? && snap.relationships[name].meta.kind == BelongsTo ==>
              r == Err(ReferenceError("serializer"))
    ensures snap.relationships[name].meta.serializer.None? && snap.relationships[name].meta.kind == HasMany ==>
              r == RelationshipOperation(name, snap, env)
  {
    var meta := snap.relationships[name].meta;
    if meta.serializer.Some? then Err(ReferenceError("url"))
    else if meta.kind == HasMany then RelationshipOperation(name, snap, env)
    else Err(ReferenceError("serializer"))
  }

  /** Where the source throws, the corrected dispatch issues exactly one PATCH to the record's own URL. */
  lemma AsWrittenThrowsWhereCorrectedSends(name: string, snap: Snapshot, env: Env)
    requires name in snap.relationships
    requires snap.relationships[name].meta.serializer.Some? || snap.relationships[name].meta.kind == BelongsTo
    ensures RelationshipOperationAsWritten(name, snap, env).Err?
    ensures RelationshipOperationAsWritten(name, snap, env).error.ReferenceError?
    ensures RelationshipOperation(name, snap, env).Ok?
    ensures RelationshipOperation(name, snap, env).value.request.url == env.primaryUrl
    ensures RelationshipOperation(name, snap, env).value.request.verb == "PATCH"
  {
  }

  /** The requests of one save, and the exception that cut the dispatch short, if any. */
  datatype Plan = Plan(operations: seq<Operation>, thrown: Option<JsError>)

  /**
   * `dirtyRelationships.map(...)`: one operation per dirty relationship, in
   * order. Outcomes play no part, so a failing request never stops the others;
   * only a synchronous exception stops the map, leaving the requests issued
   * before it in flight.
   */
  function PlanRequests(names: seq<string>, snap: Snapshot, env: Env): (p: Plan)
    requires forall n :: n in names ==> n in snap.relationships
    ensures |p.operations| <= |names|
    ensures p.thrown.None? ==> |p.operations| == |names|
    decreases |names|
  {
    if names == [] then Plan([], None)
    else
      match RelationshipOperation(names[0], snap, env)
      case Err(e) => Plan([], Some(e))
      case Ok(op) =>
        var rest := PlanRequests(names[1..], snap, env);
        Plan([op] + rest.operations, rest.thrown)
  }

  /**
   * The i-th request of a save is the i-th dirty relationship's, and a
   * dispatch that throws stops exactly at the relationship that threw.
   */
  lemma {:induction false} PlanRequestsInOrder(names: seq<string>, snap: Snapshot, env: Env)
    requires forall n :: n in names ==> n in snap.relationships
    ensures var p := PlanRequests(names, snap, env);
            && (forall i :: 0 <= i < |p.operations| ==>
                  Ok(p.operations[i]) == RelationshipOperation(names[i], snap, env) &&
                  p.operations[i].relationship == names[i])
            && (p.thrown.Some? ==>
                  |p.operations| < |names| &&
                  RelationshipOperation(names[|p.operations|], snap, env) == Err(p.thrown.value))
  {
    if names != [] && RelationshipOperation(names[0], snap, env).Ok? {
      PlanRequestsInOrder(names[1..], snap, env);
      var p := PlanRequests(names, snap, env);
      var rest := PlanRequests(names[1..], snap, env);
      assert p.operations == [RelationshipOperation(names[0], snap, env).value] + rest.operations;
      forall i | 1 <= i < |p.operations|
        ensures Ok(p.operations[i]) == RelationshipOperation(names[i], snap, env)
      {
        assert p.operations[i] == rest.operations[i - 1] && names[i] == names[1..][i - 1];
      }
    }
  }

  /** One step of `PlanRequests` on the suffix of `names` that starts at `i`. */
  lemma PlanRequestsStep(names: seq<string>, i: nat, snap: Snapshot, env: Env, r: Result<Operation>)
    requires forall n :: n in names ==> n in snap.relationships
    requires i < |names|
    requires r == RelationshipOperation(names[i], snap, env)
    ensures r.Err? ==> PlanRequests(names[i..], snap, env) == Plan([], Some(r.error))
    ensures r.Ok? ==>
              PlanRequests(names[i..], snap, env).operations == [r.value] + PlanRequests(names[i + 1..], snap, env).operations &&
              PlanRequests(names[i..], snap, env).thrown == PlanRequests(names[i + 1..], snap, env).thrown
  {
    assert names[i..][0] == names[i] && names[i..][1..] == names[i + 1..];
  }

  /** Issues the relationship requests of one save, as `PlanRequests` describes. */
  method Dispatch(dirty: seq<string>, snap: Snapshot, env: Env) returns (issued: seq<Operation>, thrown: Option<JsError>)
    requires forall n :: n in dirty ==> n in snap.relationships
    ensures Plan(issued, thrown) == PlanRequests(dirty, snap, env)
  {
    ghost var whole := PlanRequests(dirty, snap, env);
    issued, thrown := [], None;
    var i := 0;
    ghost var rest := whole;
    assert dirty[0..] == dirty;
    while i < |dirty| && thrown.None?
      invariant 0 <= i <= |dirty|
      invariant thrown.None? ==> rest == PlanRequests(dirty[i..], snap, env)
      invariant thrown.None? ==> whole.operations == issued + rest.operations && whole.thrown == rest.thrown
      invariant thrown.Some? ==> whole.operations == issued && whole.thrown == thrown
      decreases |dirty| - i, if thrown.None? then 1 else 0
    {
      var r := RelationshipOperation(dirty[i], snap, env);
      PlanRequestsStep(dirty, i, snap, env, r);
      if r.Err? {
        thrown := Some(r.error);
      } else {
        ghost var next := PlanRequests(dirty[i + 1..], snap, env);
        assert issued + ([r.value] + next.operations) == (issued + [r.value]) + next.operations;
        issued := issued + [r.value];
        i := i + 1;
        rest := next;
      }
    }
    assert thrown.None? ==> dirty[i..] == [];
  }

  /** `dirty` without the names in `cleared`, order kept. */
  function Without(dirty: seq<string>, cleared: set<string>): (r: seq<string>)
    ensures |r| <= |dirty|
    ensures forall n :: n in r <==> n in dirty && n !in cleared
  {
    if dirty == [] then []
    else (if dirty[0] in cleared then [] else [dirty[0]]) + Without(dirty[1..], cleared)
  }

  /** Clearing keeps the order of the names that stay: it distributes over concatenation. */
  lemma {:induction false} WithoutAppend(a: seq<string>, b: seq<string>, cleared: set<string>)
    ensures Without(a + b, cleared) == Without(a, cleared) + Without(b, cleared)
  {
    if a == [] {
      assert a + b == b;
    } else {
      assert (a + b)[0] == a[0];
      assert (a + b)[1..] == a[1..] + b;
      WithoutAppend(a[1..], b, cleared);
    }
  }

  /** `dirty` after `clearDirtyRelationship` ran for each name of `arrivals`, in that order. */
  function ClearEach(dirty: seq<string>, arrivals: seq<string>): seq<string>
  {
    if arrivals == [] then dirty
    else Without(ClearEach(dirty, arrivals[..|arrivals| - 1]), {arrivals[|arrivals| - 1]})
  }

  /**
   * Clearing any number of succeeded names, one response at a time and in any
   * order, ends in the same list as clearing them all at once.
   */
  lemma {:induction false} ClearingInAnyOrder(dirty: seq<string>, arrivals: seq<string>)
    ensures ClearEach(dirty, arrivals) == Without(dirty, set n | n in arrivals)
  {
    if arrivals == [] {
      WithoutNothing(dirty);
      assert (set n | n in arrivals) == {};
    } else {
      var last := arrivals[|arrivals| - 1];
      var earlier := arrivals[..|arrivals| - 1];
      ClearingInAnyOrder(dirty, earlier);
      WithoutTwice(dirty, set n | n in earlier, {last});
      assert arrivals == earlier + [last];
      assert (set n | n in arrivals) == (set n | n in earlier) + {last};
    }
  }

  lemma {:induction false} WithoutNothing(dirty: seq<string>)
    ensures Without(dirty, {}) == dirty
  {
    if dirty != [] {
      WithoutNothing(dirty[1..]);
    }
  }

  /** Clearing in two steps is clearing the union. */
  lemma {:induction false} WithoutTwice(dirty: seq<string>, first: set<string>, second: set<string>)
    ensures Without(Without(dirty, first), second) == Without(dirty, first + second)
  {
    if dirty != [] {
      WithoutTwice(dirty[1..], first, second);
      var rest := Without(dirty[1..], first);
      if dirty[0] in first {
        assert Without(dirty, first) == rest;
      } else {
        assert Without(dirty, first) == [dirty[0]] + rest;
        assert ([dirty[0]] + rest)[0] == dirty[0] && ([dirty[0]] + rest)[1..] == rest;
      }
    }
  }

  /**
   * Markers are cleared as responses arrive, in any order: clearing two names
   * gives the same dirty list whichever response comes first.
   */
  lemma ClearingCommutes(dirty: seq<string>, a: string, b: string)
    ensures Without(Without(dirty, {a}), {b}) == Without(Without(dirty, {b}), {a})
  {
    WithoutTwice(dirty, {a}, {b});
    WithoutTwice(dirty, {b}, {a});
    assert {a} + {b} == {b} + {a};
  }

  /** The relationships whose own request succeeded. */
  function SucceededNames(ops: seq<Operation>, outcomes: seq<Outcome>): set<string>
    requires |ops| <= |outcomes|
  {
    set i | 0 <= i < |ops| && outcomes[i] == Succeeded :: ops[i].relationship
  }

  /** The record whose dirty relationships a save reads and clears. */
  class Record {
    var dirtyRelationships: seq<string>

    constructor(dirty: seq<string>)
      ensures dirtyRelationships == dirty
    {
      dirtyRelationships := dirty;
    }

    /** Drops `name` from the dirty relationships. */
    method ClearDirtyRelationship(name: string)
      modifies this
      ensures dirtyRelationships == Without(old(dirtyRelationships), {name})
    {
      dirtyRelationships := Without(dirtyRelationships, {name});
    }
  }

  /** The `.then(clearDirtyRelationship)` of every issued request, once all have settled. */
  method Settle(record: Record, issued: seq<Operation>, outcomes: seq<Outcome>)
    requires |issued| <= |outcomes|
    modifies record
    ensures record.dirtyRelationships == Without(old(record.dirtyRelationships), SucceededNames(issued, outcomes))
  {
    WithoutNothing(record.dirtyRelationships);
    var j := 0;
    assert SucceededNames(issued[..0], outcomes) == {};
    while j < |issued|
      invariant 0 <= j <= |issued|
      invariant record.dirtyRelationships == Without(old(record.dirtyRelationships), SucceededNames(issued[..j], outcomes))
    {
      var before := SucceededNames(issued[..j], outcomes);
      var after := SucceededNames(issued[..j + 1], outcomes);
      if outcomes[j] == Succeeded {
        assert after == before + {issued[j].relationship} by {
          assert issued[..j + 1][j] == issued[j];
        }
        WithoutTwice(old(record.dirtyRelationships), before, {issued[j].relationship});
        record.ClearDirtyRelationship(issued[j].relationship);
      } else {
        assert after == before;
      }
      j := j + 1;
    }
    assert issued[..j] == issued;
  }

  /**
   * `updateRecord`: dispatch one request per dirty relationship, then the
   * primary attribute update if attributes changed, wait for every
   * relationship request to settle and clear exactly the markers whose request
   * succeeded. `outcomes[i]` is how the i-th issued request ends and `primary`
   * how the base adapter's update ends.
   */
  method UpdateRecord(record: Record, snap: Snapshot, env: Env, outcomes: seq<Outcome>,
                      primary: Settled<Document, HttpError>)
    returns (issued: seq<Operation>, primaryIssued: bool, result: SaveResult)
    requires forall n :: n in record.dirtyRelationships ==> n in snap.relationships
    requires |outcomes| == |record.dirtyRelationships|
    modifies record
    ensures var plan := PlanRequests(old(record.dirtyRelationships), snap, env);
            && issued == plan.operations
            && record.dirtyRelationships == Without(old(record.dirtyRelationships), SucceededNames(issued, outcomes))
            && primaryIssued == (plan.thrown.None? && |snap.changedAttributes| > 0)
            && (plan.thrown.Some? ==> result == Threw(plan.thrown.value))
            && (plan.thrown.None? && |snap.changedAttributes| == 0 ==> result == Resolved(None))
            && (plan.thrown.None? && |snap.changedAttributes| > 0 ==>
                  result == match primary
                            case Fulfilled(response) => Resolved(Some(response))
                            case Rejected(error) => PrimaryRejected(error))
  {
    var thrown;
    issued, thrown := Dispatch(record.dirtyRelationships, snap, env);
    primaryIssued := thrown.None? && |snap.changedAttributes| > 0;
    Settle(record, issued, outcomes);
    if thrown.Some? {
      result := Threw(thrown.value);
    } else if primaryIssued {
      result := match primary
        case Fulfilled(response) => Resolved(Some(response))
        case Rejected(error) => PrimaryRejected(error);
    } else {
      result := Resolved(None);
    }
  }

  /**
   * After a save whose dispatch did not throw, with distinct dirty names, the
   * marker of the i-th relationship remains exactly when its own request
   * failed, whatever the other requests did.
   */
  lemma {:induction false} MarkerKeptExactlyOnFailure(names: seq<string>, snap: Snapshot, env: Env,
                                                     outcomes: seq<Outcome>, i: nat)
    requires forall n :: n in names ==> n in snap.relationships
    requires forall j, k :: 0 <= j < k < |names| ==> names[j] != names[k]
    requires |outcomes| == |names|
    requires i < |PlanRequests(names, snap, env).operations|
    ensures var ops := PlanRequests(names, snap, env).operations;
            names[i] in Without(names, SucceededNames(ops, outcomes)) <==> outcomes[i] == Failed
  {
    PlanRequestsInOrder(names, snap, env);
    var ops := PlanRequests(names, snap, env).operations;
    var succeeded := SucceededNames(ops, outcomes);
    if outcomes[i] == Succeeded {
      assert names[i] == ops[i].relationship;
      assert names[i] in succeeded;
    } else {
      forall j | 0 <= j < |ops| && outcomes[j] == Succeeded
        ensures ops[j].relationship != names[i]
      {
        assert ops[j].relationship == names[j];
        assert j != i;
      }
      assert names[i] !in succeeded;
    }
  }

  /** Relationships after the one whose dispatch threw get no request and stay dirty. */
  lemma {:induction false} UnissuedMarkersKept(names: seq<string>, snap: Snapshot, env: Env,
                                              outcomes: seq<Outcome>, i: nat)
    requires forall n :: n in names ==> n in snap.relationships
    requires forall j, k :: 0 <= j < k < |names| ==> names[j] != names[k]
    requires |outcomes| == |names|
    requires |PlanRequests(names, snap, env).operations| <= i < |names|
    ensures names[i] in Without(names, SucceededNames(PlanRequests(names, snap, env).operations, outcomes))
  {
    PlanRequestsInOrder(names, snap, env);
    var ops := PlanRequests(names, snap, env).operations;
    forall j | 0 <= j < |ops| && outcomes[j] == Succeeded
      ensures ops[j].relationship != names[i]
    {
      assert ops[j].relationship == names[j];
    }
  }
}
