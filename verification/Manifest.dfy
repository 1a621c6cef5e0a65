/** The tool-call manifest: how the proxy hashes it, and how INTAKE and EXECUTION read it. */
module Manifests {
  import opened Handoff

  /** The JSON values a manifest holds. */
  datatype Json = Null | Str(text: string)

  type Manifest = map<string, Json>

  /** `hash` stands for SHA-256 of the canonical JSON text. */
  type Hash = Manifest -> string

  const HASH_KEY := "_manifest_hash"
  const DEFAULT_TOOL := "execute_query"

  /** A parsed tool call, as the interceptor returns it (it refuses blank SQL). */
  datatype ToolCall = ToolCall(
    toolName: string,
    sql: string,
    intent: Option<string>,
    submittedBy: string,
    sourceType: string,
    tenantId: string,
    targetUrl: string)

  /** One request to the execution target. */
  datatype TargetCall = TargetCall(url: string, tool: string, sql: string, tenant: string)

  function ToDict(c: ToolCall): (m: Manifest)
  {
    map[
      "tool_name" := Str(c.toolName),
      "sql" := Str(c.sql),
      "intent" := if c.intent.Some? then Str(c.intent.value) else Null,
      "submitted_by" := Str(c.submittedBy),
      "source_type" := Str(c.sourceType),
      "tenant_id" := Str(c.tenantId),
      "target_mcp_url" := Str(c.targetUrl)]
  }

  /** The hash body: every key except the hash itself. */
  function Body(m: Manifest): Manifest {
    m - {HASH_KEY}
  }

  function Seal(m: Manifest, hash: Hash): Manifest {
    m[HASH_KEY := Str(hash(Body(m)))]
  }

  /** The proxy hashes the call, lets INTAKE choose the id, adds it and hashes again. */
  function ProxyManifest(c: ToolCall, operationId: string, hash: Hash): Manifest {
    var first := ToDict(c)[HASH_KEY := Str(hash(ToDict(c)))];
    Seal(first["operation_id" := Str(operationId)], hash)
  }

  /** Python truth of `manifest.get(key)`. */
  predicate Truthy(m: Manifest, key: string) {
    key in m && m[key].Str? && m[key].text != ""
  }

  /** `manifest.get(key, default)` for keys that hold text. */
  function TextOr(m: Manifest, key: string, default: string): string {
    if key in m && m[key].Str? then m[key].text else default
  }

  predicate Blank(s: string) {
    forall i | 0 <= i < |s| :: s[i] in " \t\n\r"
  }

  /** Blank text is made of spaces, tabs and line ends. */
  lemma BlankGrows(s: string, c: char)
    ensures Blank("")
    ensures Blank(s + [c]) <==> Blank(s) && (c == ' ' || c == '\t' || c == '\n' || c == '\r')
  {
    if Blank(s + [c]) {
      assert (s + [c])[|s|] == c;
      assert forall i | 0 <= i < |s| :: (s + [c])[i] == s[i];
    }
  }

  function FirstTruthy(m: Manifest): string {
    if Truthy(m, "sql") then m["sql"].text
    else if Truthy(m, "query") then m["query"].text
    else if Truthy(m, "statement") then m["statement"].text
    else ""
  }

  /** INTAKE: the SQL under analysis, or nothing when it must raise. */
  function IntakeSql(m: Manifest): Option<string> {
    if Blank(FirstTruthy(m)) then None else Some(FirstTruthy(m))
  }

  /** EXECUTION: the stale-state guard. A manifest without a hash is not checked. */
  predicate GuardPasses(m: Manifest, hash: Hash) {
    Truthy(m, HASH_KEY) ==> m[HASH_KEY].text == hash(Body(m))
  }

  /** EXECUTION: the SQL sent to the target. */
  function ExecutionSql(m: Manifest, rawSql: string): string {
    if Truthy(m, "sql") then m["sql"].text
    else if Truthy(m, "query") then m["query"].text
    else rawSql
  }

  function TargetRequest(m: Manifest, rawSql: string, tenant: string, defaultUrl: string): TargetCall {
    TargetCall(
      TextOr(m, "target_mcp_url", defaultUrl),
      TextOr(m, "tool_name", DEFAULT_TOOL),
      ExecutionSql(m, rawSql),
      tenant)
  }

  /** The manifest a proxy-created run stores always passes the guard, and INTAKE and
      EXECUTION both read back exactly the intercepted call from it. */
  lemma ProxyManifestBindsTheCall(c: ToolCall, id: string, hash: Hash, rawSql: string, defaultUrl: string)
    requires !Blank(c.sql)
    ensures var m := ProxyManifest(c, id, hash);
      && GuardPasses(m, hash)
      && IntakeSql(m) == Some(c.sql)
      && TargetRequest(m, rawSql, c.tenantId, defaultUrl) == TargetCall(c.targetUrl, c.toolName, c.sql, c.tenantId)
      && m.Keys == {"tool_name", "sql", "intent", "submitted_by", "source_type", "tenant_id", "target_mcp_url",
                    "operation_id", "_manifest_hash"}
      && m["operation_id"] == Str(id) && m["tenant_id"] == Str(c.tenantId)
      && m["submitted_by"] == Str(c.submittedBy) && m["source_type"] == Str(c.sourceType)
      && m["intent"] == (if c.intent == None then Null else Str(c.intent.value))
  {
    var d := ToDict(c);
    var first := d[HASH_KEY := Str(hash(d))]["operation_id" := Str(id)];
    var m := ProxyManifest(c, id, hash);
    assert m == Seal(first, hash);
    assert Body(m) == Body(first);
    assert "sql" in d && "tool_name" in d && "target_mcp_url" in d;
  }

  /** Whatever the manifest holds, EXECUTION sends the SQL that INTAKE put under analysis: both look first for `sql`,
      then for `query`, and EXECUTION falls back on what INTAKE found. */
  lemma ExecutionSendsTheAnalysedSql(m: Manifest, rawSql: string, tenant: string, defaultUrl: string)
    requires IntakeSql(m) == Some(rawSql)
    ensures TargetRequest(m, rawSql, tenant, defaultUrl).sql == rawSql
    ensures TargetRequest(m, rawSql, tenant, defaultUrl).tenant == tenant
    ensures "tool_name" !in m ==> TargetRequest(m, rawSql, tenant, defaultUrl).tool == "execute_query"
    ensures "target_mcp_url" !in m ==> TargetRequest(m, rawSql, tenant, defaultUrl).url == defaultUrl
  {
  }

  /** INTAKE refuses exactly the manifests whose first non-empty SQL field is blank, or that have none. */
  lemma IntakeTakesTheFirstSql(m: Manifest, s: string)
    requires s != ""
    ensures "sql" in m && m["sql"] == Str(s) ==> IntakeSql(m) == if Blank(s) then None else Some(s)
    ensures !Truthy(m, "sql") && "query" in m && m["query"] == Str(s) ==>
              IntakeSql(m) == if Blank(s) then None else Some(s)
    ensures !Truthy(m, "sql") && !Truthy(m, "query") && "statement" in m && m["statement"] == Str(s) ==>
              IntakeSql(m) == if Blank(s) then None else Some(s)
    ensures !Truthy(m, "sql") && !Truthy(m, "query") && !Truthy(m, "statement") ==> IntakeSql(m) == None
  {
  }

  /** With an injective hash, a sealed manifest that is altered anywhere but in its hash is refused,
      and only then: the guard accepts exactly the manifest that was sealed. */
  lemma GuardDetectsEveryAlteration(m: Manifest, altered: Manifest, hash: Hash)
    requires forall x, y :: hash(x) == hash(y) ==> x == y
    requires hash(Body(m)) != ""
    requires HASH_KEY in altered && altered[HASH_KEY] == Seal(m, hash)[HASH_KEY]
    ensures GuardPasses(altered, hash) <==> altered == Seal(m, hash)
  {
    assert Body(Seal(m, hash)) == Body(m);
    if GuardPasses(altered, hash) {
      assert Body(altered) == Body(m);
      forall k | k in altered || k in Seal(m, hash)
        ensures k in altered && k in Seal(m, hash) && altered[k] == Seal(m, hash)[k]
      {
        if k != HASH_KEY {
          assert k in Body(altered) <==> k in altered;
          assert k in Body(m) <==> k in Seal(m, hash);
        }
      }
    }
  }
}
