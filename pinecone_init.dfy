/** Index and namespace resolution (backend/services/pinecone_init.py): one shared index for
    every user, a `"public"` namespace or a `"user_<id>"` namespace per private user, and the
    index created on the vector database only when it is not listed yet. */
module PineconeInit {
  import opened PyStrings
  import opened PyValues
  import opened Outcomes

  const IndexName := "rag-database"
  const PublicNamespace := "public"
  const PrivatePrefix := "user_"
  const Dimension := 768
  const Metric := "cosine"
  const Cloud := "aws"
  const Region := "us-east-1"
  const MissingUserIdMessage := "user_id must be provided for private namespaces!"

  /** `f"{user_id}"`: `None` prints as `"None"`. */
  function UserIdText(userId: Option<string>): string {
    if userId.None? then "None" else userId.value
  }

  /** `not user_id`. */
  predicate MissingUserId(userId: Option<string>) {
    userId.None? || userId.value == ""
  }

  /** The namespace expression of pinecone_init.py:34, evaluated before the user id is checked. */
  function Namespace(userId: Option<string>, isPrivate: bool): string {
    if !isPrivate then PublicNamespace else PrivatePrefix + UserIdText(userId)
  }

  /** The user a namespace belongs to: the inverse of the private namespace rule. */
  function NamespaceOwner(namespace: string): Option<string> {
    if StartsWith(namespace, PrivatePrefix) then Some(namespace[|PrivatePrefix|..]) else None
  }

  /** Where a resolved handle points: the index and the namespace within it. */
  datatype IndexInfo = IndexInfo(index: string, namespace: string)

  /** The pure part of `create_pinecone_index` (pinecone_init.py:33-38): the target, or the
      `ValueError` for private mode without a user id. */
  function ResolveTarget(userId: Option<string>, isPrivate: bool): (r: Result<IndexInfo, Exception>)
    ensures r.Err? <==> isPrivate && MissingUserId(userId)
    ensures r.Err? ==> r.error == Exception(ValueError, MissingUserIdMessage)
    ensures r.Ok? ==> r.value.index == IndexName
    ensures r.Ok? && !isPrivate ==> r.value.namespace == PublicNamespace && NamespaceOwner(r.value.namespace) == None
    ensures r.Ok? && isPrivate ==> NamespaceOwner(r.value.namespace) == userId
  {
    assert PublicNamespace[0] != PrivatePrefix[0];
    var namespace := Namespace(userId, isPrivate);
    if isPrivate && MissingUserId(userId) then Err(Exception(ValueError, MissingUserIdMessage))
    else Ok(IndexInfo(IndexName, namespace))
  }

  /** Private namespaces of different users differ, and none of them is the public one. */
  lemma NamespacesIsolated(u: string, v: string)
    requires u != "" && v != ""
    ensures ResolveTarget(Some(u), true).Ok? && ResolveTarget(Some(v), true).Ok?
    ensures u != v ==> ResolveTarget(Some(u), true).value.namespace != ResolveTarget(Some(v), true).value.namespace
    ensures ResolveTarget(Some(u), true).value.namespace != PublicNamespace
  {
    var nu := ResolveTarget(Some(u), true).value.namespace;
    var nv := ResolveTarget(Some(v), true).value.namespace;
    assert NamespaceOwner(nu) == Some(u) && NamespaceOwner(nv) == Some(v);
    assert NamespaceOwner(PublicNamespace) == None by {
      assert ResolveTarget(None, false).value.namespace == PublicNamespace;
    }
  }

  /** Public mode ignores the user id entirely. */
  lemma PublicIgnoresUserId(u: Option<string>, v: Option<string>)
    ensures ResolveTarget(u, false) == ResolveTarget(v, false) == Ok(IndexInfo(IndexName, PublicNamespace))
  {
  }

  /** A failed `create_index` call: whether it is a `PineconeException`, and its text. */
  datatype CreateFailure = CreateFailure(isPineconeException: bool, message: string)

  /** Whether a creation failure is the tolerated "already exists" error. */
  predicate AlreadyExists(f: CreateFailure) {
    f.isPineconeException && Contains(f.message, "ALREADY_EXISTS")
  }

  /** The exception a creation failure re-raises. */
  function Reraised(f: CreateFailure): Exception {
    Exception(if f.isPineconeException then PineconeException else OtherError, f.message)
  }

  /** The calls the resolver makes on the Pinecone client. */
  datatype Call =
    | ListIndexes
    | CreateIndex(name: string, dimension: nat, metric: string, cloud: string, region: string)
    | OpenIndex(name: string)

  /** The outcome of `create_pinecone_index`, given whether the listing shows the index and what
      `create_index` does if it is called (`None`: it succeeds). */
  function ProvisionOutcome(userId: Option<string>, isPrivate: bool, listed: bool, createResult: Option<CreateFailure>)
    : (r: Result<IndexInfo, Exception>)
    ensures r.Ok? ==> r == ResolveTarget(userId, isPrivate)
    ensures ResolveTarget(userId, isPrivate).Err? ==> r == ResolveTarget(userId, isPrivate)
    ensures ResolveTarget(userId, isPrivate).Ok? && r.Err? ==>
      !listed && createResult.Some? && !AlreadyExists(createResult.value) && r.error == Reraised(createResult.value)
    ensures ResolveTarget(userId, isPrivate).Ok? && !listed && createResult.Some? && !AlreadyExists(createResult.value) ==>
      r == Err(Reraised(createResult.value))
  {
    match ResolveTarget(userId, isPrivate)
    case Err(e) => Err(e)
    case Ok(info) =>
      if !listed && createResult.Some? && !AlreadyExists(createResult.value)
      then Err(Reraised(createResult.value))
      else Ok(info)
  }

  /** The client calls `create_pinecone_index` makes, in order. */
  function ProvisionCalls(userId: Option<string>, isPrivate: bool, listed: bool, createResult: Option<CreateFailure>)
    : seq<Call>
  {
    if isPrivate && MissingUserId(userId) then []
    else
      [ListIndexes]
      + (if listed then [] else [CreateIndex(IndexName, Dimension, Metric, Cloud, Region)])
      + (if ProvisionOutcome(userId, isPrivate, listed, createResult).Ok? then [OpenIndex(IndexName)] else [])
  }

  /** A private request without a user id fails before the client is touched at all. */
  lemma MissingUserIdTouchesNothing(userId: Option<string>, listed: bool, createResult: Option<CreateFailure>)
    requires MissingUserId(userId)
    ensures ProvisionCalls(userId, true, listed, createResult) == []
    ensures ProvisionOutcome(userId, true, listed, createResult) == Err(Exception(ValueError, MissingUserIdMessage))
  {
  }

  /** The index is created exactly when the listing does not show it and the request is valid. */
  lemma CreatedOnlyIfAbsent(userId: Option<string>, isPrivate: bool, listed: bool, createResult: Option<CreateFailure>)
    ensures var calls := ProvisionCalls(userId, isPrivate, listed, createResult);
      (exists i :: 0 <= i < |calls| && calls[i].CreateIndex?) <==> !listed && ResolveTarget(userId, isPrivate).Ok?
  {
    var calls := ProvisionCalls(userId, isPrivate, listed, createResult);
    if !listed && ResolveTarget(userId, isPrivate).Ok? {
      assert calls[1].CreateIndex?;
    }
  }

  /** Whether the index had to be created, and whether an "already exists" error came back,
      does not change the handle: resolution depends on the arguments alone. */
  lemma ResolutionDeterministic(userId: Option<string>, isPrivate: bool,
                                listed1: bool, create1: Option<CreateFailure>,
                                listed2: bool, create2: Option<CreateFailure>)
    requires ProvisionOutcome(userId, isPrivate, listed1, create1).Ok?
    requires ProvisionOutcome(userId, isPrivate, listed2, create2).Ok?
    ensures ProvisionOutcome(userId, isPrivate, listed1, create1) == ProvisionOutcome(userId, isPrivate, listed2, create2)
  {
  }

  /** A failed `add_documents`: the error it raises, and how many of the leading documents
      the upsert batches completed before the failure had already written. */
  datatype AddFailure = AddFailure(message: string, written: nat)

  /** The documents an `add_documents` call leaves in the namespace: all of them, or after a
      failure the leading ones its completed batches wrote (nothing is rolled back). */
  function Written(documents: seq<Document>, failure: Option<AddFailure>): (r: seq<Document>)
    ensures failure.None? ==> r == documents
    ensures failure.Some? ==> |r| <= |documents| && |r| <= failure.value.written && r == documents[..|r|]
    ensures failure.Some? && failure.value.written == 0 ==> r == []
  {
    if failure.None? then documents
    else if failure.value.written < |documents| then documents[..failure.value.written]
    else documents
  }

  /** The Pinecone client (`pc`) as the resolver and the vector store see it: the index names
      it lists, the management calls made on it, and the documents stored per index and
      namespace. */
  class PineconeClient {
    var indexes: set<string>
    var calls: seq<Call>
    var records: map<(string, string), seq<Document>>

    constructor (existing: set<string>)
      ensures indexes == existing && calls == [] && records == map[]
    {
      indexes := existing;
      calls := [];
      records := map[];
    }

    /** The documents stored under `namespace` of `index`. */
    function Stored(index: string, namespace: string): seq<Document>
      reads this
    {
      if (index, namespace) in records then records[(index, namespace)] else []
    }

    /** `create_pinecone_index(user_id, is_private)` (pinecone_init.py:21-67). */
    method CreatePineconeIndex(userId: Option<string>, isPrivate: bool, createResult: Option<CreateFailure>)
      returns (r: Result<IndexInfo, Exception>)
      modifies this
      ensures r == ProvisionOutcome(userId, isPrivate, IndexName in old(indexes), createResult)
      ensures calls == old(calls) + ProvisionCalls(userId, isPrivate, IndexName in old(indexes), createResult)
      ensures indexes == if r.Ok? then old(indexes) + {IndexName} else old(indexes)
      ensures records == old(records)
    {
      var target := ResolveTarget(userId, isPrivate);
      if target.Err? {
        return target;
      }
      calls := calls + [ListIndexes];
      var existingIndexes := indexes;
      if IndexName !in existingIndexes {
        calls := calls + [CreateIndex(IndexName, Dimension, Metric, Cloud, Region)];
        if createResult.None? {
          indexes := indexes + {IndexName};
        } else if AlreadyExists(createResult.value) {
          // Another request created it first: use the existing index.
          indexes := indexes + {IndexName};
        } else {
          return Err(Reraised(createResult.value));
        }
      }
      calls := calls + [OpenIndex(IndexName)];
      r := target;
    }

    /** `add_documents` on the store bound to `namespace` of `index`; `failure` is the error the
        embedding or an upsert batch raises, if any. The batches written before a failure stay. */
    method AddDocuments(index: string, namespace: string, documents: seq<Document>, failure: Option<AddFailure>)
      returns (error: Option<string>)
      modifies this
      ensures error.Some? <==> failure.Some?
      ensures error.Some? ==> error.value == failure.value.message
      ensures indexes == old(indexes) && calls == old(calls)
      ensures records == old(records)[(index, namespace) := old(Stored(index, namespace)) + Written(documents, failure)]
      ensures Stored(index, namespace) == old(Stored(index, namespace)) + Written(documents, failure)
    {
      records := records[(index, namespace) := Stored(index, namespace) + Written(documents, failure)];
      if failure.Some? {
        return Some(failure.value.message);
      }
      error := None;
    }
  }

  /** Once a resolution succeeded, a second one with the same arguments gives the same handle
      and only lists and opens the index, whatever `create_index` would do. */
  method ResolveTwice(pc: PineconeClient, userId: Option<string>, isPrivate: bool,
                      first: Option<CreateFailure>, second: Option<CreateFailure>)
    returns (r1: Result<IndexInfo, Exception>, r2: Result<IndexInfo, Exception>)
    modifies pc
    ensures r1.Ok? ==> r2 == r1
    ensures r1.Ok? ==> pc.calls == old(pc.calls) + ProvisionCalls(userId, isPrivate, IndexName in old(pc.indexes), first)
                                  + [ListIndexes, OpenIndex(IndexName)]
  {
    r1 := pc.CreatePineconeIndex(userId, isPrivate, first);
    r2 := pc.CreatePineconeIndex(userId, isPrivate, second);
  }
}
