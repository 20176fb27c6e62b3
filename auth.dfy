/** Tenant registry: API keys, namespace derivation, the tenants table and
    the operations that create, authenticate and update tenants
    (src/auth.py). The database is the class `TenantTable`; the random
    characters of a key are passed in as alphabet indices. */
module Auth {
  import opened Common

  datatype Tenant = Tenant(
    tenantId: string,
    namespace: string,
    apiKey: string,
    maxCpu: int,
    maxMemoryGi: int,
    maxConcurrentJobs: int)

  // ---------------------------------------------------------------------
  // API keys

  /** Size of `string.ascii_letters + string.digits`. */
  const AlphabetSize := 62

  /** The i-th character of `string.ascii_letters + string.digits`:
      a..z, then A..Z, then 0..9. */
  function AlphabetChar(i: nat): (c: char)
    requires i < AlphabetSize
    ensures IsAsciiAlnum(c)
  {
    if i < 26 then ('a' as int + i) as char
    else if i < 52 then ('A' as int + (i - 26)) as char
    else ('0' as int + (i - 52)) as char
  }

  /** Position of an alphanumeric character in the alphabet. */
  function AlphabetIndex(c: char): (i: nat)
    requires IsAsciiAlnum(c)
    ensures i < AlphabetSize && AlphabetChar(i) == c
  {
    if IsAsciiLower(c) then c as int - 'a' as int
    else if IsAsciiUpper(c) then 26 + (c as int - 'A' as int)
    else 52 + (c as int - '0' as int)
  }

  predicate ValidChoices(choices: seq<nat>) {
    forall i :: 0 <= i < |choices| ==> choices[i] < AlphabetSize
  }

  function RandomPart(choices: seq<nat>): (r: string)
    requires ValidChoices(choices)
    ensures |r| == |choices|
    ensures forall i :: 0 <= i < |r| ==> r[i] == AlphabetChar(choices[i])
  {
    if choices == [] then [] else [AlphabetChar(choices[0])] + RandomPart(choices[1..])
  }

  /** `generate_api_key`: the configured prefix followed by one alphabet
      character per random choice (`choices` stands for the draws of
      `secrets.choice`, API_KEY_LENGTH of them). */
  function GenerateApiKey(prefix: string, choices: seq<nat>): (key: string)
    requires ValidChoices(choices)
    ensures StartsWith(key, prefix)
    ensures |key| == |prefix| + |choices|
    ensures forall i :: |prefix| <= i < |key| ==> IsAsciiAlnum(key[i])
  {
    prefix + RandomPart(choices)
  }

  /** The alphabet positions of the characters of a key's random part. */
  function SuffixChoices(suffix: string): (choices: seq<nat>)
    requires forall i :: 0 <= i < |suffix| ==> IsAsciiAlnum(suffix[i])
    ensures ValidChoices(choices) && |choices| == |suffix|
    ensures forall i :: 0 <= i < |suffix| ==> choices[i] == AlphabetIndex(suffix[i])
  {
    if suffix == [] then [] else [AlphabetIndex(suffix[0])] + SuffixChoices(suffix[1..])
  }

  /** The random draws a key was made from, read back from its suffix. */
  function KeyChoices(prefix: string, key: string): (choices: seq<nat>)
    requires StartsWith(key, prefix)
    requires forall i :: |prefix| <= i < |key| ==> IsAsciiAlnum(key[i])
    ensures ValidChoices(choices) && |choices| == |key| - |prefix|
  {
    SuffixChoices(key[|prefix|..])
  }

  /** Keys are decodable: distinct draws give distinct keys. */
  lemma GenerateApiKeyRoundTrip(prefix: string, choices: seq<nat>)
    requires ValidChoices(choices)
    ensures KeyChoices(prefix, GenerateApiKey(prefix, choices)) == choices
  {
    var key := GenerateApiKey(prefix, choices);
    var back := KeyChoices(prefix, key);
    forall i | 0 <= i < |choices| ensures back[i] == choices[i] {
      assert key[|prefix|..][i] == AlphabetChar(choices[i]);
      AlphabetCharInjective(back[i], choices[i]);
    }
  }

  lemma AlphabetCharInjective(i: nat, j: nat)
    requires i < AlphabetSize && j < AlphabetSize
    requires AlphabetChar(i) == AlphabetChar(j)
    ensures i == j
  {
    if i < 26 { assert IsAsciiLower(AlphabetChar(i)); }
    else if i < 52 { assert IsAsciiUpper(AlphabetChar(i)); }
    else { assert IsDigit(AlphabetChar(i)); }
  }

  // ---------------------------------------------------------------------
  // Namespace derivation

  function DashForSeparator(c: char): char {
    if c == '_' || c == ' ' then '-' else c
  }

  /** `tenant_id.lower().replace('_', '-').replace(' ', '-')`. */
  function DeriveNamespace(tenantId: string): (ns: string)
    ensures |ns| == |tenantId|
    ensures forall i :: 0 <= i < |ns| ==> ns[i] != '_' && ns[i] != ' ' && !IsAsciiUpper(ns[i])
    ensures forall i :: 0 <= i < |ns| ==>
      ns[i] == (if tenantId[i] == '_' || tenantId[i] == ' ' then '-' else LowerChar(tenantId[i]))
  {
    var low := Lower(tenantId);
    seq(|low|, i requires 0 <= i < |low| => DashForSeparator(low[i]))
  }

  /** Deriving the namespace from a namespace changes nothing. */
  lemma DeriveNamespaceIdempotent(tenantId: string)
    ensures DeriveNamespace(DeriveNamespace(tenantId)) == DeriveNamespace(tenantId)
  {
    var ns := DeriveNamespace(tenantId);
    var ns2 := DeriveNamespace(ns);
    forall i | 0 <= i < |ns| ensures ns2[i] == ns[i] {
      assert ns[i] != '_' && ns[i] != ' ' && !IsAsciiUpper(ns[i]);
    }
  }

  // ---------------------------------------------------------------------
  // Limits and integrity errors

  /** `value or default`: None and 0 are both falsy. */
  function FillLimit(value: Option<int>, default: int): (r: int)
    ensures (value.None? || value.value == 0) ==> r == default
    ensures (value.Some? && value.value != 0) ==> r == value.value
  {
    match value
    case Some(v) => if v != 0 then v else default
    case None => default
  }

  /** The unique columns of the tenants table. */
  datatype Column = TenantIdColumn | NamespaceColumn | ApiKeyColumn

  function ColumnName(c: Column): string {
    match c
    case TenantIdColumn => "tenant_id"
    case NamespaceColumn => "namespace"
    case ApiKeyColumn => "api_key"
  }

  /** The value a new row holds in a column. */
  function ColumnValue(c: Column, tenantId: string, namespace: string, apiKey: string): string {
    match c
    case TenantIdColumn => tenantId
    case NamespaceColumn => namespace
    case ApiKeyColumn => apiKey
  }

  /** The DETAIL text PostgreSQL gives for a unique violation. */
  function ViolationMessage(c: Column, value: string): string {
    "Key (" + ColumnName(c) + ")=(" + value + ") already exists."
  }

  /** The `except psycopg2.IntegrityError` branch of `create_tenant`,
      deciding on the words of the database's message. */
  function ClassifyIntegrityError(message: string, tenantId: string, namespace: string): (e: HttpError)
    ensures Contains(message, "tenant_id") ==> e == HttpError(409, "Tenant " + tenantId + " already exists")
    ensures !Contains(message, "tenant_id") && Contains(message, "namespace") ==>
      e == HttpError(409, "Namespace " + namespace + " already exists")
    ensures !Contains(message, "tenant_id") && !Contains(message, "namespace") ==> e.status == 400
  {
    if Contains(message, "tenant_id") then HttpError(409, "Tenant " + tenantId + " already exists")
    else if Contains(message, "namespace") then HttpError(409, "Namespace " + namespace + " already exists")
    else HttpError(400, "Failed to create tenant: " + message)
  }

  lemma NoCharNoContains(s: string, sub: string, c: char)
    requires c in sub
    requires forall k :: 0 <= k < |s| ==> s[k] != c
    ensures !Contains(s, sub)
  {
    var j :| 0 <= j < |sub| && sub[j] == c;
    forall i | 0 <= i <= |s| - |sub| ensures !OccursAt(s, sub, i) {
      assert s[i..i + |sub|][j] == s[i + j] != c;
    }
    NotContainsAt(s, sub);
  }

  /** The message for a column names that column. */
  lemma ViolationNamesColumn(c: Column, value: string)
    ensures Contains(ViolationMessage(c, value), ColumnName(c))
  {
    var m := ViolationMessage(c, value);
    assert m[5..5 + |ColumnName(c)|] == ColumnName(c);
    ContainsAt(m, ColumnName(c), 5);
  }

  /** A namespace violation on an underscore-free value never mentions `tenant_id`. */
  lemma NamespaceViolationLacksTenantId(ns: string)
    requires forall k :: 0 <= k < |ns| ==> ns[k] != '_'
    ensures !Contains(ViolationMessage(NamespaceColumn, ns), "tenant_id")
  {
    var m := ViolationMessage(NamespaceColumn, ns);
    var pre, post := "Key (namespace)=(", ") already exists.";
    assert m == pre + ns + post;
    forall k | 0 <= k < |m| ensures m[k] != '_' {
      if k < |pre| {
        assert m[k] == pre[k];
      } else if k < |pre| + |ns| {
        assert m[k] == ns[k - |pre|];
      } else {
        assert m[k] == post[k - |pre| - |ns|];
      }
    }
    assert "tenant_id"[6] == '_';
    NoCharNoContains(m, "tenant_id", '_');
  }

  /** A duplicate tenant id is reported as 409 "Tenant ... already exists";
      a duplicate derived namespace as 409 "Namespace ... already exists". */
  lemma IntegrityErrorsClassified(tenantId: string)
    ensures ClassifyIntegrityError(ViolationMessage(TenantIdColumn, tenantId), tenantId, DeriveNamespace(tenantId))
         == HttpError(409, "Tenant " + tenantId + " already exists")
    ensures ClassifyIntegrityError(ViolationMessage(NamespaceColumn, DeriveNamespace(tenantId)), tenantId, DeriveNamespace(tenantId))
         == HttpError(409, "Namespace " + DeriveNamespace(tenantId) + " already exists")
  {
    ViolationNamesColumn(TenantIdColumn, tenantId);
    var ns := DeriveNamespace(tenantId);
    ViolationNamesColumn(NamespaceColumn, ns);
    NamespaceViolationLacksTenantId(ns);
  }

  // ---------------------------------------------------------------------
  // Table queries

  /** `SELECT * FROM tenants WHERE api_key = %s` and `fetchone()`. */
  function FindByApiKey(rows: seq<Tenant>, key: string): (r: Option<nat>)
    ensures r.Some? ==> r.value < |rows| && rows[r.value].apiKey == key
    ensures r.Some? ==> forall j :: 0 <= j < r.value ==> rows[j].apiKey != key
    ensures r.None? <==> forall j :: 0 <= j < |rows| ==> rows[j].apiKey != key
  {
    if rows == [] then None
    else if rows[0].apiKey == key then Some(0)
    else match FindByApiKey(rows[1..], key)
      case None => None
      case Some(i) => Some(i + 1)
  }

  function FindById(rows: seq<Tenant>, tenantId: string): (r: Option<nat>)
    ensures r.Some? ==> r.value < |rows| && rows[r.value].tenantId == tenantId
    ensures r.Some? ==> forall j :: 0 <= j < r.value ==> rows[j].tenantId != tenantId
    ensures r.None? <==> forall j :: 0 <= j < |rows| ==> rows[j].tenantId != tenantId
  {
    if rows == [] then None
    else if rows[0].tenantId == tenantId then Some(0)
    else match FindById(rows[1..], tenantId)
      case None => None
      case Some(i) => Some(i + 1)
  }

  /** No two rows share a tenant id, a namespace or an API key. */
  ghost predicate UniqueRows(rows: seq<Tenant>) {
    forall i, j :: 0 <= i < j < |rows| ==>
      rows[i].tenantId != rows[j].tenantId &&
      rows[i].namespace != rows[j].namespace &&
      rows[i].apiKey != rows[j].apiKey
  }

  /** `auth_tenant`: empty key is a format error, otherwise the stripped
      key must match a row. */
  function AuthTenant(rows: seq<Tenant>, apiKey: string): (r: Result<Tenant>)
    ensures apiKey == "" ==> r == Err(HttpError(401, "Invalid API key format"))
    ensures r.Ok? ==> r.value in rows && r.value.apiKey == Strip(apiKey)
    ensures apiKey != "" && (exists j :: 0 <= j < |rows| && rows[j].apiKey == Strip(apiKey)) ==> r.Ok?
    ensures r.Err? ==> r.error.status == 401
  {
    if apiKey == "" then Err(HttpError(401, "Invalid API key format"))
    else
      var key := Strip(apiKey);
      match FindByApiKey(rows, key)
      case None => Err(HttpError(401, "Invalid API key"))
      case Some(i) => Ok(rows[i])
  }

  /** Python's `s.replace(pat, "")`: occurrences found left to right,
      without overlap, are removed. */
  function RemoveAll(s: string, pat: string): (r: string)
    requires pat != []
    ensures |r| <= |s|
    decreases |s|
  {
    if |s| < |pat| then s
    else if s[..|pat|] == pat then RemoveAll(s[|pat|..], pat)
    else [s[0]] + RemoveAll(s[1..], pat)
  }

  /** `get_tenant_from_header`. */
  function GetTenantFromHeader(rows: seq<Tenant>, authorization: Option<string>): (r: Result<Tenant>)
    ensures (authorization.None? || authorization.value == "") ==>
      r == Err(HttpError(401, "Missing Authorization header"))
    ensures authorization.Some? && authorization.value != "" &&
            Strip(RemoveAll(authorization.value, "Bearer ")) == "" ==>
      r == Err(HttpError(401, "Invalid API key format"))
    ensures r.Ok? ==> (authorization.Some? && r.value in rows &&
                       r.value.apiKey == Strip(RemoveAll(authorization.value, "Bearer ")))
    ensures r.Err? ==> r.error.status == 401
  {
    if authorization.None? || authorization.value == "" then
      Err(HttpError(401, "Missing Authorization header"))
    else
      var apiKey := Strip(RemoveAll(authorization.value, "Bearer "));
      if apiKey == "" then Err(HttpError(401, "Invalid API key format"))
      else AuthTenant(rows, apiKey)
  }

  lemma {:induction false} RemoveAllWithoutSpace(s: string)
    requires forall k :: 0 <= k < |s| ==> s[k] != ' '
    ensures RemoveAll(s, "Bearer ") == s
    decreases |s|
  {
    if |s| >= 7 {
      assert s[..7] != "Bearer " by { assert s[6] != ' '; }
      RemoveAllWithoutSpace(s[1..]);
    }
  }

  /** With unique keys, the lookup by a row's key finds that row. */
  lemma FindByApiKeyUnique(rows: seq<Tenant>, i: nat)
    requires UniqueRows(rows) && i < |rows|
    ensures FindByApiKey(rows, rows[i].apiKey) == Some(i)
  {
    var found := FindByApiKey(rows, rows[i].apiKey);
    assert found.Some?;
  }

  lemma GeneratedKeyHasNoSpace(prefix: string, choices: seq<nat>)
    requires ValidChoices(choices)
    requires forall k :: 0 <= k < |prefix| ==> !IsSpace(prefix[k])
    ensures forall k :: 0 <= k < |GenerateApiKey(prefix, choices)| ==> !IsSpace(GenerateApiKey(prefix, choices)[k])
  {
    var key := GenerateApiKey(prefix, choices);
    forall k | 0 <= k < |key| ensures !IsSpace(key[k]) {
      if k < |prefix| { assert key[k] == prefix[k]; } else { assert IsAsciiAlnum(key[k]); }
    }
  }

  /** `"Bearer " + key` parses back to `key` when the key has no whitespace. */
  lemma BearerHeaderParses(key: string)
    requires forall k :: 0 <= k < |key| ==> !IsSpace(key[k])
    ensures Strip(RemoveAll("Bearer " + key, "Bearer ")) == key
    ensures Strip(RemoveAll(key, "Bearer ")) == key
  {
    RemoveAllWithoutSpace(key);
    var header := "Bearer " + key;
    assert header[..7] == "Bearer ";
    assert header[7..] == key;
  }

  /** A key without whitespace, sent bare or as `Bearer <key>`, selects
      the row the table lookup finds for it. */
  lemma HeaderSelectsRow(rows: seq<Tenant>, key: string, i: nat)
    requires key != [] && forall k :: 0 <= k < |key| ==> !IsSpace(key[k])
    requires FindByApiKey(rows, key) == Some(i)
    ensures GetTenantFromHeader(rows, Some("Bearer " + key)) == Ok(rows[i])
    ensures GetTenantFromHeader(rows, Some(key)) == Ok(rows[i])
  {
    BearerHeaderParses(key);
    RemoveAllWithoutSpace(key);
    assert Strip(key) == key;
    assert AuthTenant(rows, key) == Ok(rows[i]);
    var header := "Bearer " + key;
    var cleaned := Strip(RemoveAll(header, "Bearer "));
    assert cleaned == key;
    assert GetTenantFromHeader(rows, Some(header)) == AuthTenant(rows, cleaned);
    assert GetTenantFromHeader(rows, Some(key)) == AuthTenant(rows, key);
  }

  /** A non-empty key generated with a prefix free of whitespace
      authenticates its tenant whether it is sent bare or as `Bearer <key>`. */
  lemma GeneratedKeyAuthenticates(rows: seq<Tenant>, i: nat, prefix: string, choices: seq<nat>)
    requires ValidChoices(choices) && |prefix| + |choices| > 0
    requires forall k :: 0 <= k < |prefix| ==> !IsSpace(prefix[k])
    requires UniqueRows(rows)
    requires i < |rows| && rows[i].apiKey == GenerateApiKey(prefix, choices)
    ensures GetTenantFromHeader(rows, Some("Bearer " + rows[i].apiKey)) == Ok(rows[i])
    ensures GetTenantFromHeader(rows, Some(rows[i].apiKey)) == Ok(rows[i])
  {
    GeneratedKeyHasNoSpace(prefix, choices);
    FindByApiKeyUnique(rows, i);
    HeaderSelectsRow(rows, rows[i].apiKey, i);
  }

  // ---------------------------------------------------------------------
  // The updates list of update_tenant_limits

  datatype LimitUpdate = SetMaxCpu(cpu: int) | SetMaxMemoryGi(memoryGi: int) | SetMaxConcurrentJobs(jobs: int)

  /** Builds the `updates`/`values` lists: one entry per supplied limit,
      in the order cpu, memory, concurrent jobs. */
  method LimitUpdates(maxCpu: Option<int>, maxMemoryGi: Option<int>, maxConcurrentJobs: Option<int>)
    returns (updates: seq<LimitUpdate>)
    ensures |updates| == (if maxCpu.Some? then 1 else 0) + (if maxMemoryGi.Some? then 1 else 0)
                         + (if maxConcurrentJobs.Some? then 1 else 0)
    ensures updates == [] <==> maxCpu.None? && maxMemoryGi.None? && maxConcurrentJobs.None?
    ensures forall t :: ApplyLimitUpdates(t, updates) == WithLimits(t, maxCpu, maxMemoryGi, maxConcurrentJobs)
  {
    updates := [];
    if maxCpu.Some? {
      updates := updates + [SetMaxCpu(maxCpu.value)];
    }
    assert forall t :: ApplyLimitUpdates(t, updates) == WithLimits(t, maxCpu, None, None) by {
      forall t { ApplyLimitUpdatesSnoc(t, [], SetMaxCpu(0)); }
    }
    ghost var before := updates;
    if maxMemoryGi.Some? {
      updates := updates + [SetMaxMemoryGi(maxMemoryGi.value)];
      forall t ensures ApplyLimitUpdates(t, updates) == WithLimits(t, maxCpu, maxMemoryGi, None) {
        ApplyLimitUpdatesSnoc(t, before, SetMaxMemoryGi(maxMemoryGi.value));
      }
    }
    assert forall t :: ApplyLimitUpdates(t, updates) == WithLimits(t, maxCpu, maxMemoryGi, None);
    before := updates;
    if maxConcurrentJobs.Some? {
      updates := updates + [SetMaxConcurrentJobs(maxConcurrentJobs.value)];
      forall t ensures ApplyLimitUpdates(t, updates) == WithLimits(t, maxCpu, maxMemoryGi, maxConcurrentJobs) {
        ApplyLimitUpdatesSnoc(t, before, SetMaxConcurrentJobs(maxConcurrentJobs.value));
      }
    }
  }

  /** The tenant with every supplied limit replaced and the rest kept. */
  function WithLimits(t: Tenant, maxCpu: Option<int>, maxMemoryGi: Option<int>, maxConcurrentJobs: Option<int>): Tenant {
    t.(maxCpu := FillOr(maxCpu, t.maxCpu),
       maxMemoryGi := FillOr(maxMemoryGi, t.maxMemoryGi),
       maxConcurrentJobs := FillOr(maxConcurrentJobs, t.maxConcurrentJobs))
  }

  function ApplyLimitUpdate(t: Tenant, u: LimitUpdate): Tenant {
    match u
    case SetMaxCpu(v) => t.(maxCpu := v)
    case SetMaxMemoryGi(v) => t.(maxMemoryGi := v)
    case SetMaxConcurrentJobs(v) => t.(maxConcurrentJobs := v)
  }

  lemma {:induction false} ApplyLimitUpdatesSnoc(t: Tenant, updates: seq<LimitUpdate>, u: LimitUpdate)
    ensures ApplyLimitUpdates(t, updates + [u]) == ApplyLimitUpdate(ApplyLimitUpdates(t, updates), u)
    decreases |updates|
  {
    if updates != [] {
      assert (updates + [u])[1..] == updates[1..] + [u];
      ApplyLimitUpdatesSnoc(ApplyLimitUpdate(t, updates[0]), updates[1..], u);
    }
  }

  /** The value of a supplied field, or the stored one (`is not None`). */
  function FillOr(value: Option<int>, stored: int): int {
    if value.Some? then value.value else stored
  }

  /** `UPDATE tenants SET <updates>`: the assignments applied in order. */
  function ApplyLimitUpdates(t: Tenant, updates: seq<LimitUpdate>): (r: Tenant)
    ensures r.tenantId == t.tenantId && r.namespace == t.namespace && r.apiKey == t.apiKey
    decreases |updates|
  {
    if updates == [] then t else ApplyLimitUpdates(ApplyLimitUpdate(t, updates[0]), updates[1..])
  }

  // ---------------------------------------------------------------------
  // The tenants table

  /** The `tenants` table, with its three unique columns. */
  class TenantTable {
    var rows: seq<Tenant>

    ghost predicate Valid()
      reads this
    {
      UniqueRows(rows)
    }

    constructor ()
      ensures Valid() && rows == []
    {
      rows := [];
    }

    /** The first unique column a new row would violate, in the order the
        constraints are checked. */
    function Violation(t: Tenant): (c: Option<Column>)
      reads this
      ensures c == Some(TenantIdColumn) <==> exists j :: 0 <= j < |rows| && rows[j].tenantId == t.tenantId
      ensures c == Some(NamespaceColumn) ==> exists j :: 0 <= j < |rows| && rows[j].namespace == t.namespace
      ensures c == Some(ApiKeyColumn) ==> exists j :: 0 <= j < |rows| && rows[j].apiKey == t.apiKey
      ensures c.None? <==> forall j :: 0 <= j < |rows| ==>
        rows[j].tenantId != t.tenantId && rows[j].namespace != t.namespace && rows[j].apiKey != t.apiKey
    {
      if exists j :: 0 <= j < |rows| && rows[j].tenantId == t.tenantId then Some(TenantIdColumn)
      else if exists j :: 0 <= j < |rows| && rows[j].namespace == t.namespace then Some(NamespaceColumn)
      else if exists j :: 0 <= j < |rows| && rows[j].apiKey == t.apiKey then Some(ApiKeyColumn)
      else None
    }

    /** `create_tenant`: defaults for falsy limits, a generated key, the
        derived namespace, then the INSERT; an integrity error rolls back
        and is classified. */
    method CreateTenant(tenantId: string, maxCpu: Option<int>, maxMemoryGi: Option<int>,
                        maxConcurrentJobs: Option<int>, config: Config, keyChoices: seq<nat>)
      returns (r: Result<Tenant>)
      requires Valid()
      requires ValidChoices(keyChoices) && |keyChoices| == config.apiKeyLength
      modifies this
      ensures Valid()
      ensures r.Ok? ==> r.value == Tenant(tenantId, DeriveNamespace(tenantId),
                                          GenerateApiKey(config.apiKeyPrefix, keyChoices),
                                          FillLimit(maxCpu, config.defaultMaxCpu),
                                          FillLimit(maxMemoryGi, config.defaultMaxMemoryGi),
                                          FillLimit(maxConcurrentJobs, config.defaultMaxConcurrentJobs))
      ensures r.Ok? ==> rows == old(rows) + [r.value]
      ensures r.Err? ==> rows == old(rows)
      ensures r.Ok? <==> old(Violation(Tenant(tenantId, DeriveNamespace(tenantId),
                                              GenerateApiKey(config.apiKeyPrefix, keyChoices), 0, 0, 0))).None?
      ensures (exists j :: 0 <= j < |old(rows)| && old(rows)[j].tenantId == tenantId) ==>
        r == Err(HttpError(409, "Tenant " + tenantId + " already exists"))
      ensures var ns := DeriveNamespace(tenantId);
        var key := GenerateApiKey(config.apiKeyPrefix, keyChoices);
        var c := old(Violation(Tenant(tenantId, ns, key, 0, 0, 0)));
        r.Err? ==>
          (c.Some? &&
           r.error == ClassifyIntegrityError(ViolationMessage(c.value, ColumnValue(c.value, tenantId, ns, key)), tenantId, ns))
      ensures var ns := DeriveNamespace(tenantId);
        var key := GenerateApiKey(config.apiKeyPrefix, keyChoices);
        old(Violation(Tenant(tenantId, ns, key, 0, 0, 0))) == Some(NamespaceColumn) ==>
        r == Err(HttpError(409, "Namespace " + ns + " already exists"))
    {
      var cpu := FillLimit(maxCpu, config.defaultMaxCpu);
      var memory := FillLimit(maxMemoryGi, config.defaultMaxMemoryGi);
      var concurrent := FillLimit(maxConcurrentJobs, config.defaultMaxConcurrentJobs);
      var apiKey := GenerateApiKey(config.apiKeyPrefix, keyChoices);
      var namespace := DeriveNamespace(tenantId);
      var tenant := Tenant(tenantId, namespace, apiKey, cpu, memory, concurrent);
      assert Violation(tenant) == Violation(Tenant(tenantId, namespace, apiKey, 0, 0, 0));
      match Violation(tenant) {
        case None =>
          rows := rows + [tenant];
          r := Ok(tenant);
        case Some(column) =>
          IntegrityErrorsClassified(tenantId);
          r := Err(ClassifyIntegrityError(ViolationMessage(column, ColumnValue(column, tenantId, namespace, apiKey)),
                                          tenantId, namespace));
      }
    }

    /** `regenerate_api_key`: a fresh key replaces the old one; an unknown
        tenant is 404, and a key already held by another tenant fails the
        unique constraint, which the source does not catch (500). */
    method RegenerateApiKey(tenantId: string, config: Config, keyChoices: seq<nat>)
      returns (r: Result<Tenant>)
      requires Valid()
      requires ValidChoices(keyChoices) && |keyChoices| == config.apiKeyLength
      modifies this
      ensures Valid()
      ensures old(FindById(rows, tenantId)).None? ==>
        r == Err(HttpError(404, "Tenant " + tenantId + " not found")) && rows == old(rows)
      ensures r.Ok? ==> (old(FindById(rows, tenantId)).Some? &&
                         rows == WithApiKey(old(rows), old(FindById(rows, tenantId)).value,
                                            GenerateApiKey(config.apiKeyPrefix, keyChoices)) &&
                         r.value == rows[old(FindById(rows, tenantId)).value])
      ensures r.Err? ==> rows == old(rows)
      ensures old(FindById(rows, tenantId)).Some? ==>
        var i := old(FindById(rows, tenantId)).value;
        var newKey := GenerateApiKey(config.apiKeyPrefix, keyChoices);
        && (r.Ok? <==> forall j :: 0 <= j < |old(rows)| && j != i ==> old(rows)[j].apiKey != newKey)
        && (r.Err? ==> r.error == HttpError(500, "Internal Server Error"))
    {
      var newKey := GenerateApiKey(config.apiKeyPrefix, keyChoices);
      match FindById(rows, tenantId) {
        case None =>
          r := Err(HttpError(404, "Tenant " + tenantId + " not found"));
        case Some(i) =>
          if exists j :: 0 <= j < |rows| && j != i && rows[j].apiKey == newKey {
            r := Err(HttpError(500, "Internal Server Error"));
          } else {
            rows := WithApiKey(rows, i, newKey);
            r := Ok(rows[i]);
          }
      }
    }

    /** `update_tenant_limits`: only the supplied limits change; nothing
        supplied is 400 before the table is touched; an unknown tenant is 404. */
    method UpdateTenantLimits(tenantId: string, maxCpu: Option<int>, maxMemoryGi: Option<int>,
                              maxConcurrentJobs: Option<int>)
      returns (r: Result<Tenant>)
      requires Valid()
      modifies this
      ensures Valid()
      ensures maxCpu.None? && maxMemoryGi.None? && maxConcurrentJobs.None? ==>
        r == Err(HttpError(400, "No updates provided"))
      ensures r.Err? ==> rows == old(rows)
      ensures r.Ok? ==> (old(FindById(rows, tenantId)).Some? &&
                         var i := old(FindById(rows, tenantId)).value;
                         r.value == WithLimits(old(rows)[i], maxCpu, maxMemoryGi, maxConcurrentJobs) &&
                         rows == old(rows)[i := r.value])
      ensures (maxCpu.Some? || maxMemoryGi.Some? || maxConcurrentJobs.Some?) ==>
        (r.Ok? <==> old(FindById(rows, tenantId)).Some?)
      ensures (maxCpu.Some? || maxMemoryGi.Some? || maxConcurrentJobs.Some?) && old(FindById(rows, tenantId)).None? ==>
        r == Err(HttpError(404, "Tenant " + tenantId + " not found"))
    {
      var updates := LimitUpdates(maxCpu, maxMemoryGi, maxConcurrentJobs);
      if updates == [] {
        return Err(HttpError(400, "No updates provided"));
      }
      match FindById(rows, tenantId) {
        case None =>
          r := Err(HttpError(404, "Tenant " + tenantId + " not found"));
        case Some(i) =>
          var updated := ApplyLimitUpdates(rows[i], updates);
          rows := rows[i := updated];
          r := Ok(updated);
      }
    }
  }

  /** The table after `UPDATE tenants SET api_key = ... WHERE tenant_id = ...`. */
  function WithApiKey(rows: seq<Tenant>, i: nat, key: string): (r: seq<Tenant>)
    requires i < |rows|
    ensures |r| == |rows| && r[i].apiKey == key
    ensures r[i] == rows[i].(apiKey := key)
    ensures forall j :: 0 <= j < |rows| && j != i ==> r[j] == rows[j]
  {
    rows[i := rows[i].(apiKey := key)]
  }

  /** After regeneration the old key authenticates nobody and the new one
      authenticates the same tenant, with its limits and namespace kept. */
  lemma RegenerateRevokesOldKey(rows: seq<Tenant>, i: nat, newKey: string)
    requires i < |rows|
    requires forall j :: 0 <= j < |rows| && j != i ==> rows[j].apiKey != rows[i].apiKey
    requires rows[i].apiKey != newKey && newKey != []
    requires forall j :: 0 <= j < |rows| && j != i ==> rows[j].apiKey != newKey
    requires rows[i].apiKey != [] && Strip(rows[i].apiKey) == rows[i].apiKey && Strip(newKey) == newKey
    ensures AuthTenant(WithApiKey(rows, i, newKey), rows[i].apiKey).Err?
    ensures AuthTenant(WithApiKey(rows, i, newKey), newKey) == Ok(rows[i].(apiKey := newKey))
  {
    var after := WithApiKey(rows, i, newKey);
    OldKeyGone(rows, i, newKey);
    NewKeyFound(rows, i, newKey);
    assert AuthTenant(after, rows[i].apiKey) == Err(HttpError(401, "Invalid API key"));
    assert AuthTenant(after, newKey) == Ok(after[i]);
  }

  lemma OldKeyGone(rows: seq<Tenant>, i: nat, newKey: string)
    requires i < |rows|
    requires forall j :: 0 <= j < |rows| && j != i ==> rows[j].apiKey != rows[i].apiKey
    requires rows[i].apiKey != newKey
    ensures FindByApiKey(WithApiKey(rows, i, newKey), rows[i].apiKey).None?
  {
    var after := WithApiKey(rows, i, newKey);
    forall j | 0 <= j < |after| ensures after[j].apiKey != rows[i].apiKey {
      if j != i { assert after[j] == rows[j]; }
    }
  }

  lemma NewKeyFound(rows: seq<Tenant>, i: nat, newKey: string)
    requires i < |rows|
    requires forall j :: 0 <= j < |rows| && j != i ==> rows[j].apiKey != newKey
    ensures FindByApiKey(WithApiKey(rows, i, newKey), newKey) == Some(i)
  {
    var after := WithApiKey(rows, i, newKey);
    var found := FindByApiKey(after, newKey);
    assert found.Some?;
    assert after[found.value] == rows[found.value] || found.value == i;
  }
}
