/**
 * API keys: the `api_keys` table with its CRUD operations
 * (app/crud/api_key.py) and the service that provisions keys and guards each
 * call with a budget (app/services/api_key_service.py). bcrypt's hash and
 * verify are parameters: `hash` maps a plain key to its digest and
 * `verifies(plain, digest)` is `verify_api_key`.
 */
module ApiKeys {
  import opened Options
  import opened Seqs

  /** A row of `api_keys` (app/db/models.py). */
  datatype ApiKeyRecord = ApiKeyRecord(
    id: nat,
    keyHash: string,
    description: Option<string>,
    callLimit: int,
    callsMade: int,
    isActive: bool,
    createdAt: int)

  /** `ApiKeyCreate`: pydantic's `ge=0` makes a supplied limit non-negative. */
  datatype ApiKeyCreate = ApiKeyCreate(description: Option<string>, callLimit: Option<nat>)

  /** `ApiKeyResponse`: the stored fields together with the plain key. */
  datatype ApiKeyResponse = ApiKeyResponse(
    id: nat,
    key: string,
    description: Option<string>,
    callLimit: int,
    callsMade: int,
    isActive: bool,
    createdAt: int)

  /** Why the insert of a new row fails: the unique index on `key_hash`. */
  datatype CreateError = DuplicateKeyHash

  /** `increment_api_key_calls` on one row. */
  function Incremented(r: ApiKeyRecord): (r': ApiKeyRecord)
    ensures r'.callsMade == r.callsMade + 1
    ensures r' == r.(callsMade := r'.callsMade)
  {
    r.(callsMade := r.callsMade + 1)
  }

  /** `deactivate_api_key` on one row. */
  function Deactivated(r: ApiKeyRecord): (r': ApiKeyRecord)
    ensures !r'.isActive
    ensures r' == r.(isActive := false)
  {
    r.(isActive := false)
  }

  /** Whether the guard's scan stops at this row: active, and its hash verifies the key. */
  predicate Selectable(r: ApiKeyRecord, verifies: (string, string) -> bool, plain: string) {
    r.isActive && verifies(plain, r.keyHash)
  }

  /** Where the scan stops: the first selectable row, or `|records|`. */
  function MatchIndex(records: seq<ApiKeyRecord>, verifies: (string, string) -> bool, plain: string): nat {
    FirstWhere(records, r => Selectable(r, verifies, plain))
  }

  /** `calls_made >= call_limit` is a rejection. */
  predicate HasBudget(r: ApiKeyRecord) {
    r.callsMade < r.callLimit
  }

  /**
   * `validate_and_use_api_key` as a function of the table: the record
   * returned (None for a rejection) and the table afterwards.
   */
  function Authorize(records: seq<ApiKeyRecord>, verifies: (string, string) -> bool, plain: string)
    : (res: (Option<ApiKeyRecord>, seq<ApiKeyRecord>))
    ensures |res.1| == |records|
    ensures res.0.None? ==> res.1 == records
    ensures res.0.Some? ==> Selectable(res.0.value, verifies, plain)
    ensures var k := MatchIndex(records, verifies, plain);
            res.0.Some? <==> k < |records| && HasBudget(records[k])
    ensures var k := MatchIndex(records, verifies, plain);
            k < |records| && HasBudget(records[k]) ==>
              res == (Some(Incremented(records[k])), records[k := Incremented(records[k])])
  {
    var k := MatchIndex(records, verifies, plain);
    if k == |records| || !HasBudget(records[k]) then (None, records)
    else (Some(Incremented(records[k])), records[k := Incremented(records[k])])
  }

  /** Every row within its budget: `calls_made <= call_limit`. */
  predicate WithinBudgets(records: seq<ApiKeyRecord>) {
    forall i :: 0 <= i < |records| ==> records[i].callsMade <= records[i].callLimit
  }

  /** The calls made over the whole table. */
  function TotalCalls(records: seq<ApiKeyRecord>): int {
    if records == [] then 0 else records[0].callsMade + TotalCalls(records[1..])
  }

  // ---------------------------------------------------------------------
  // Properties of the guard
  // ---------------------------------------------------------------------

  /** With no active row whose hash verifies, the call is rejected and nothing changes. */
  lemma NoMatchRejects(records: seq<ApiKeyRecord>, verifies: (string, string) -> bool, plain: string)
    requires forall i :: 0 <= i < |records| ==> !Selectable(records[i], verifies, plain)
    ensures Authorize(records, verifies, plain) == (None, records)
  {
  }

  /**
   * A success returns the first selectable row, incremented by exactly one,
   * and changes no other row; inactive rows are never selected.
   */
  lemma SuccessUsesFirstMatch(records: seq<ApiKeyRecord>, verifies: (string, string) -> bool, plain: string)
    requires Authorize(records, verifies, plain).0.Some?
    ensures var k := MatchIndex(records, verifies, plain);
            k < |records| && Selectable(records[k], verifies, plain) &&
            (forall j :: 0 <= j < k ==> !Selectable(records[j], verifies, plain)) &&
            HasBudget(records[k]) &&
            Authorize(records, verifies, plain).0 == Some(Incremented(records[k])) &&
            Authorize(records, verifies, plain).1 == records[k := Incremented(records[k])]
  {
  }

  /**
   * Acceptance: when row `i` is the first active row whose hash verifies the
   * key and it has budget left, the call is accepted with that row, incremented.
   */
  lemma FirstValidKeyWithBudgetIsAccepted(records: seq<ApiKeyRecord>, verifies: (string, string) -> bool, plain: string, i: nat)
    requires i < |records| && Selectable(records[i], verifies, plain) && HasBudget(records[i])
    requires forall j :: 0 <= j < i ==> !Selectable(records[j], verifies, plain)
    ensures Authorize(records, verifies, plain) == (Some(Incremented(records[i])), records[i := Incremented(records[i])])
  {
    FirstWhereIs(records, r => Selectable(r, verifies, plain), i);
  }

  /** A matched row whose budget is spent is rejected, and its count stays as it was. */
  lemma ExhaustedRejects(records: seq<ApiKeyRecord>, verifies: (string, string) -> bool, plain: string)
    requires MatchIndex(records, verifies, plain) < |records|
    requires !HasBudget(records[MatchIndex(records, verifies, plain)])
    ensures Authorize(records, verifies, plain) == (None, records)
  {
  }

  /** The scenario of a key with limit 1 that has made 1 call: rejected, still at 1. */
  lemma SpentKeyScenario(r: ApiKeyRecord, verifies: (string, string) -> bool, plain: string)
    requires r.callLimit == 1 && r.callsMade == 1 && Selectable(r, verifies, plain)
    ensures Authorize([r], verifies, plain) == (None, [r])
  {
    FirstWhereIs([r], x => Selectable(x, verifies, plain), 0);
  }

  /** A deactivated row is never selected, whatever its budget. */
  lemma DeactivatedNeverAuthorizes(records: seq<ApiKeyRecord>, i: nat, verifies: (string, string) -> bool, plain: string)
    requires i < |records|
    ensures MatchIndex(records[i := Deactivated(records[i])], verifies, plain) != i
  {
  }

  /** Sequentially, the guard keeps every row within its budget. */
  lemma AuthorizeKeepsBudgets(records: seq<ApiKeyRecord>, verifies: (string, string) -> bool, plain: string)
    requires WithinBudgets(records)
    ensures WithinBudgets(Authorize(records, verifies, plain).1)
  {
  }

  /** No call to the guard lowers any row's count, and none touches a row's other fields except `calls_made`. */
  lemma AuthorizeOnlyRaisesCounts(records: seq<ApiKeyRecord>, verifies: (string, string) -> bool, plain: string)
    ensures var after := Authorize(records, verifies, plain).1;
            forall i :: 0 <= i < |records| ==>
              after[i].callsMade >= records[i].callsMade && after[i] == records[i].(callsMade := after[i].callsMade)
  {
  }

  lemma {:induction false} TotalCallsUpdate(records: seq<ApiKeyRecord>, k: nat, r: ApiKeyRecord)
    requires k < |records|
    ensures TotalCalls(records[k := r]) == TotalCalls(records) - records[k].callsMade + r.callsMade
  {
    if k > 0 {
      assert records[k := r][1..] == records[1..][k - 1 := r];
      TotalCallsUpdate(records[1..], k - 1, r);
    } else {
      assert records[k := r][1..] == records[1..];
    }
  }

  /** Counting: the table's total number of calls goes up by one exactly when a call is authorized. */
  lemma AuthorizeCountsOneCall(records: seq<ApiKeyRecord>, verifies: (string, string) -> bool, plain: string)
    ensures var res := Authorize(records, verifies, plain);
            TotalCalls(res.1) == TotalCalls(records) + (if res.0.Some? then 1 else 0)
  {
    var k := MatchIndex(records, verifies, plain);
    if k < |records| && HasBudget(records[k]) {
      TotalCallsUpdate(records, k, Incremented(records[k]));
    }
  }

  /** The bcrypt input: `api_key[:72]`. */
  function HashInput(plain: string): (s: string)
    ensures |s| == if |plain| <= 72 then |plain| else 72
    ensures s == plain[..|s|]
  {
    if |plain| <= 72 then plain else plain[..72]
  }

  // ---------------------------------------------------------------------
  // The table and its CRUD operations
  // ---------------------------------------------------------------------

  /** The `api_keys` table; `nextId` is the id the database assigns to the next insert. */
  class KeyStore {
    var records: seq<ApiKeyRecord>
    var nextId: nat
    /** `settings.DEFAULT_CALL_LIMIT`. */
    const defaultCallLimit: int

    /** Ids are below `nextId` and unique; so are key hashes (the unique index). */
    ghost predicate Valid()
      reads this
    {
      (forall i :: 0 <= i < |records| ==> records[i].id < nextId) &&
      (forall i, j :: 0 <= i < j < |records| ==> records[i].id != records[j].id) &&
      (forall i, j :: 0 <= i < j < |records| ==> records[i].keyHash != records[j].keyHash)
    }

    constructor (defaultCallLimit: int)
      ensures Valid()
      ensures records == [] && this.defaultCallLimit == defaultCallLimit
    {
      records := [];
      nextId := 1;
      this.defaultCallLimit := defaultCallLimit;
    }

    /** `call_limit if call_limit is not None else DEFAULT_CALL_LIMIT`: a supplied 0 is kept. */
    function CallLimitFor(data: ApiKeyCreate): (limit: int)
      ensures data.callLimit.Some? ==> limit == data.callLimit.value
      ensures data.callLimit.None? ==> limit == defaultCallLimit
    {
      if data.callLimit.Some? then data.callLimit.value else defaultCallLimit
    }

    /** `get_api_key_by_hash`: a row with that hash, or None. */
    function GetByHash(keyHash: string): (r: Option<ApiKeyRecord>)
      reads this
      ensures r.Some? ==> r.value in records && r.value.keyHash == keyHash
      ensures r.None? ==> forall i :: 0 <= i < |records| ==> records[i].keyHash != keyHash
      ensures Valid() && r.Some? ==>
                forall i :: 0 <= i < |records| && records[i].keyHash == keyHash ==> records[i] == r.value
    {
      var k := FirstWhere(records, (x: ApiKeyRecord) => x.keyHash == keyHash);
      if k < |records| then Some(records[k]) else None
    }

    /** `get_api_key_by_id`: the row with that id, or None. */
    function GetById(id: nat): (r: Option<ApiKeyRecord>)
      reads this
      ensures r.Some? ==> r.value in records && r.value.id == id
      ensures r.None? ==> forall i :: 0 <= i < |records| ==> records[i].id != id
      ensures Valid() && r.Some? ==>
                forall i :: 0 <= i < |records| && records[i].id == id ==> records[i] == r.value
    {
      var k := FirstWhere(records, (x: ApiKeyRecord) => x.id == id);
      if k < |records| then Some(records[k]) else None
    }

    /**
     * `create_api_key_db`: insert a row with the given hash, the request's
     * description and limit, no calls made, active, created at `now`. The
     * unique index on `key_hash` rejects a duplicate.
     */
    method CreateApiKey(keyHash: string, data: ApiKeyCreate, now: int) returns (res: Result<ApiKeyRecord, CreateError>)
      requires Valid()
      modifies this
      ensures Valid()
      ensures old(GetByHash(keyHash)).Some? ==>
                res == Err(DuplicateKeyHash) && records == old(records) && nextId == old(nextId)
      ensures old(GetByHash(keyHash)).None? ==>
                res == Ok(ApiKeyRecord(old(nextId), keyHash, data.description, CallLimitFor(data), 0, true, now)) &&
                records == old(records) + [res.value] && nextId == old(nextId) + 1
    {
      if GetByHash(keyHash).Some? {
        return Err(DuplicateKeyHash);
      }
      var row := ApiKeyRecord(nextId, keyHash, data.description, CallLimitFor(data), 0, true, now);
      records := records + [row];
      nextId := nextId + 1;
      res := Ok(row);
    }

    /** `increment_api_key_calls`: one more call on row `i`, nothing else changes. */
    method IncrementCalls(i: nat) returns (r: ApiKeyRecord)
      requires Valid() && i < |records|
      modifies this
      ensures Valid()
      ensures records == old(records)[i := Incremented(old(records)[i])] && nextId == old(nextId)
      ensures r == records[i]
    {
      records := records[i := Incremented(records[i])];
      r := records[i];
    }

    /** `deactivate_api_key`: row `i` becomes inactive, nothing else changes. */
    method Deactivate(i: nat) returns (r: ApiKeyRecord)
      requires Valid() && i < |records|
      modifies this
      ensures Valid()
      ensures records == old(records)[i := Deactivated(old(records)[i])] && nextId == old(nextId)
      ensures r == records[i]
    {
      records := records[i := Deactivated(records[i])];
      r := records[i];
    }
  }

  /** Deactivating a row twice leaves the table as deactivating it once. */
  lemma DeactivateIdempotent(records: seq<ApiKeyRecord>, i: nat)
    requires i < |records|
    ensures var once := records[i := Deactivated(records[i])];
            once[i := Deactivated(once[i])] == once
  {
  }

  // ---------------------------------------------------------------------
  // The service
  // ---------------------------------------------------------------------

  /**
   * The loop of `validate_and_use_api_key` over the active rows: the index of
   * the first active row whose hash verifies the key, or `|records|`.
   */
  method ScanActive(records: seq<ApiKeyRecord>, verifies: (string, string) -> bool, plain: string) returns (k: nat)
    ensures k <= |records|
    ensures forall j :: 0 <= j < k ==> !(records[j].isActive && verifies(plain, records[j].keyHash))
    ensures k < |records| ==> records[k].isActive && verifies(plain, records[k].keyHash)
  {
    k := 0;
    while k < |records|
      invariant k <= |records|
      invariant forall j :: 0 <= j < k ==> !(records[j].isActive && verifies(plain, records[j].keyHash))
    {
      if records[k].isActive && verifies(plain, records[k].keyHash) {
        break;
      }
      k := k + 1;
    }
  }

  /**
   * `ApiKeyService.validate_and_use_api_key`: the matched row after its
   * increment, or None (no match, or budget spent) with the table unchanged.
   */
  method ValidateAndUseApiKey(store: KeyStore, verifies: (string, string) -> bool, clientKey: string)
    returns (found: Option<ApiKeyRecord>)
    requires store.Valid()
    modifies store
    ensures store.Valid()
    ensures (found, store.records) == Authorize(old(store.records), verifies, clientKey)
    ensures store.nextId == old(store.nextId)
    ensures old(WithinBudgets(store.records)) ==> WithinBudgets(store.records)
  {
    ghost var before := store.records;
    var k := ScanActive(store.records, verifies, clientKey);
    FirstWhereIs(store.records, r => Selectable(r, verifies, clientKey), k);
    if k == |store.records| {
      return None;
    }
    if store.records[k].callsMade >= store.records[k].callLimit {
      return None;
    }
    var updated := store.IncrementCalls(k);
    found := Some(updated);
    if WithinBudgets(before) {
      AuthorizeKeepsBudgets(before, verifies, clientKey);
    }
  }

  /**
   * `ApiKeyService.create_new_api_key`: store the hash of the generated plain
   * key and hand back that plain key with the stored row's fields.
   */
  method CreateNewApiKey(store: KeyStore, hash: string -> string, plainKey: string, data: ApiKeyCreate, now: int)
    returns (res: Result<ApiKeyResponse, CreateError>)
    requires store.Valid()
    modifies store
    ensures store.Valid()
    ensures res.Ok? ==>
              res.value.key == plainKey &&
              store.records == old(store.records) + [ApiKeyRecord(res.value.id, hash(HashInput(plainKey)),
                  res.value.description, res.value.callLimit, res.value.callsMade, res.value.isActive, res.value.createdAt)] &&
              res.value.callsMade == 0 && res.value.isActive && res.value.callLimit == store.CallLimitFor(data)
    ensures old(store.GetByHash(hash(HashInput(plainKey)))).None? <==> res.Ok?
    ensures res.Ok? ==>
              res.value.id == old(store.nextId) && res.value.description == data.description &&
              res.value.createdAt == now && store.nextId == old(store.nextId) + 1
    ensures res.Err? ==>
              res == Err(DuplicateKeyHash) && store.records == old(store.records) && store.nextId == old(store.nextId)
  {
    var keyHash := hash(HashInput(plainKey));
    var created := store.CreateApiKey(keyHash, data, now);
    match created {
      case Err(e) =>
        res := Err(e);
      case Ok(r) =>
        res := Ok(ApiKeyResponse(r.id, plainKey, r.description, r.callLimit, r.callsMade, r.isActive, r.createdAt));
    }
  }
}
