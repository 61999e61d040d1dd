/** The standard and the four profiles, version 0.3.0, that the backend is compiled with. */
module ShippedCatalog {
  import opened Wrappers
  import opened Domain
  import opened Sorting
  import opened Scoring
  import opened ScoringProperties

  const POSITIVE: ScoringRule := ScoringRule("positive_capability_v1", FindingPoints(1.0, 0.5, 0.0, 0.0), true)
  const BOUNDED: ScoringRule := ScoringRule("bounded_risk_v1", FindingPoints(1.0, 0.25, 0.0, 0.0), true)

  const STANDARD: Standard := Standard(
    "alethos-toolpassport", "0.3.0", DIMENSIONS, [POSITIVE, BOUNDED],
    [RatingThreshold(0, "not_recommended"), RatingThreshold(20, "manual_only"), RatingThreshold(40, "trial"),
     RatingThreshold(60, "low_risk"), RatingThreshold(80, "core_candidate")],
    RatingCaps("trial", "not_recommended", "manual_only"))

  const GENERIC: Profile := Profile("generic", "0.3.0", "alethos-toolpassport", "0.3.0", [
    ProfileCheck("generic.capability_scope", "capability_clarity", 1.0, false, "positive_capability_v1"),
    ProfileCheck("generic.interface_contract", "interface_openness", 1.0, false, "positive_capability_v1"),
    ProfileCheck("generic.automation_contract", "automation_readiness", 1.0, false, "positive_capability_v1"),
    ProfileCheck("generic.export_path", "data_portability", 1.0, false, "positive_capability_v1"),
    ProfileCheck("generic.permission_boundary", "permission_risk", 1.5, true, "bounded_risk_v1"),
    ProfileCheck("generic.claim_traceability", "evidence_quality", 1.0, false, "positive_capability_v1"),
    ProfileCheck("generic.maintenance_signal", "ecosystem_fit", 1.0, false, "positive_capability_v1")])

  const AGENT_FRAMEWORK: Profile := Profile("agent_framework", "0.3.0", "alethos-toolpassport", "0.3.0", [
    ProfileCheck("agent_framework.capability_boundaries", "capability_clarity", 1.0, false, "positive_capability_v1"),
    ProfileCheck("agent_framework.tool_contract", "interface_openness", 1.25, false, "positive_capability_v1"),
    ProfileCheck("agent_framework.structured_io", "automation_readiness", 1.25, false, "positive_capability_v1"),
    ProfileCheck("agent_framework.state_recovery", "automation_readiness", 1.5, false, "positive_capability_v1"),
    ProfileCheck("agent_framework.state_export", "data_portability", 1.0, false, "positive_capability_v1"),
    ProfileCheck("agent_framework.tool_permission_isolation", "permission_risk", 2.0, true, "bounded_risk_v1"),
    ProfileCheck("agent_framework.human_gate", "permission_risk", 2.0, true, "bounded_risk_v1"),
    ProfileCheck("agent_framework.claim_traceability", "evidence_quality", 1.0, false, "positive_capability_v1"),
    ProfileCheck("agent_framework.composability", "ecosystem_fit", 1.0, false, "positive_capability_v1")])

  const MCP_SERVER: Profile := Profile("mcp_server", "0.3.0", "alethos-toolpassport", "0.3.0", [
    ProfileCheck("mcp_server.capability_scope", "capability_clarity", 1.0, false, "positive_capability_v1"),
    ProfileCheck("mcp_server.tool_schema", "interface_openness", 1.5, false, "positive_capability_v1"),
    ProfileCheck("mcp_server.structured_invocation", "automation_readiness", 1.25, false, "positive_capability_v1"),
    ProfileCheck("mcp_server.error_handling", "automation_readiness", 1.25, false, "positive_capability_v1"),
    ProfileCheck("mcp_server.configuration_portability", "data_portability", 1.0, false, "positive_capability_v1"),
    ProfileCheck("mcp_server.filesystem_shell_boundary", "permission_risk", 2.0, true, "bounded_risk_v1"),
    ProfileCheck("mcp_server.network_credential_scope", "permission_risk", 2.0, true, "bounded_risk_v1"),
    ProfileCheck("mcp_server.claim_traceability", "evidence_quality", 1.0, false, "positive_capability_v1"),
    ProfileCheck("mcp_server.client_compatibility", "ecosystem_fit", 1.0, false, "positive_capability_v1")])

  const CLI_API_TOOL: Profile := Profile("cli_api_tool", "0.3.0", "alethos-toolpassport", "0.3.0", [
    ProfileCheck("cli_api_tool.capability_scope", "capability_clarity", 1.0, false, "positive_capability_v1"),
    ProfileCheck("cli_api_tool.interface_contract", "interface_openness", 1.5, false, "positive_capability_v1"),
    ProfileCheck("cli_api_tool.structured_output", "automation_readiness", 1.25, false, "positive_capability_v1"),
    ProfileCheck("cli_api_tool.headless_failure_contract", "automation_readiness", 1.25, false, "positive_capability_v1"),
    ProfileCheck("cli_api_tool.export_path", "data_portability", 1.0, false, "positive_capability_v1"),
    ProfileCheck("cli_api_tool.credential_scope", "permission_risk", 2.0, true, "bounded_risk_v1"),
    ProfileCheck("cli_api_tool.destructive_action_control", "permission_risk", 2.0, true, "bounded_risk_v1"),
    ProfileCheck("cli_api_tool.paid_side_effect_control", "permission_risk", 2.0, true, "bounded_risk_v1"),
    ProfileCheck("cli_api_tool.claim_traceability", "evidence_quality", 1.0, false, "positive_capability_v1"),
    ProfileCheck("cli_api_tool.version_compatibility", "ecosystem_fit", 1.0, false, "positive_capability_v1")])

  lemma {:induction false} PolicyIsOk()
    ensures RatingPolicyOk(STANDARD)
  {
    assert RATINGS[0] == "not_recommended" && RATINGS[1] == "manual_only" && RATINGS[2] == "trial";
    assert RATINGS[3] == "low_risk" && RATINGS[4] == "core_candidate";
  }

  lemma {:induction false} RulesResolve()
    ensures RuleFor(STANDARD.scoringRules, "positive_capability_v1") == Some(POSITIVE)
    ensures RuleFor(STANDARD.scoringRules, "bounded_risk_v1") == Some(BOUNDED)
  {
    assert |"positive_capability_v1"| != |"bounded_risk_v1"|;
    assert STANDARD.scoringRules[..1] == [POSITIVE];
  }

  lemma {:induction false} GenericIdsDiffer()
    ensures DistinctKeys(GENERIC.checks, CheckKey)
  {
    var c := GENERIC.checks;
    assert |c[0].checkId| == 24 && |c[1].checkId| == 26 && |c[2].checkId| == 27 && |c[3].checkId| == 19;
    assert |c[4].checkId| == 27 && |c[5].checkId| == 26 && |c[6].checkId| == 26;
    assert c[1].checkId[8] == 'i' && c[2].checkId[8] == 'a' && c[4].checkId[8] == 'p';
    assert c[5].checkId[8] == 'c' && c[6].checkId[8] == 'm';
  }

  lemma {:induction false} AgentFrameworkIdsDiffer()
    ensures DistinctKeys(AGENT_FRAMEWORK.checks, CheckKey)
  {
    var c := AGENT_FRAMEWORK.checks;
    assert |c[0].checkId| == 37 && |c[1].checkId| == 29 && |c[2].checkId| == 29 && |c[3].checkId| == 30;
    assert |c[4].checkId| == 28 && |c[5].checkId| == 41 && |c[6].checkId| == 26 && |c[7].checkId| == 34;
    assert |c[8].checkId| == 29;
    assert c[1].checkId[16] == 't' && c[2].checkId[16] == 's' && c[8].checkId[16] == 'c';
  }

  lemma {:induction false} McpServerIdsDiffer()
    ensures DistinctKeys(MCP_SERVER.checks, CheckKey)
  {
    var c := MCP_SERVER.checks;
    assert |c[0].checkId| == 27 && |c[1].checkId| == 22 && |c[2].checkId| == 32 && |c[3].checkId| == 25;
    assert |c[4].checkId| == 36 && |c[5].checkId| == 36 && |c[6].checkId| == 35 && |c[7].checkId| == 29;
    assert |c[8].checkId| == 31;
    assert c[4].checkId[11] == 'c' && c[5].checkId[11] == 'f';
  }

  lemma {:induction false} CliApiToolIdsDiffer()
    ensures DistinctKeys(CLI_API_TOOL.checks, CheckKey)
  {
    var c := CLI_API_TOOL.checks;
    assert |c[0].checkId| == 29 && |c[1].checkId| == 31 && |c[2].checkId| == 30 && |c[3].checkId| == 38;
    assert |c[4].checkId| == 24 && |c[5].checkId| == 29 && |c[6].checkId| == 39 && |c[7].checkId| == 37;
    assert |c[8].checkId| == 31 && |c[9].checkId| == 34;
    assert c[0].checkId[14] == 'a' && c[1].checkId[14] == 'n' && c[5].checkId[14] == 'r';
    assert c[8].checkId[14] == 'l';
  }

  // What a check of a profile owes to the standard.
  predicate Fits(c: ProfileCheck) {
    c.weight > 0.0 && c.dimension in DIMENSIONS && (c.scoringRuleId == "positive_capability_v1" || c.scoringRuleId == "bounded_risk_v1")
  }

  lemma {:induction false} DimensionsAre()
    ensures "capability_clarity" in DIMENSIONS && "interface_openness" in DIMENSIONS && "automation_readiness" in DIMENSIONS
    ensures "data_portability" in DIMENSIONS && "permission_risk" in DIMENSIONS && "evidence_quality" in DIMENSIONS
    ensures "ecosystem_fit" in DIMENSIONS
  {
    assert DIMENSIONS[0] == "capability_clarity" && DIMENSIONS[1] == "interface_openness" && DIMENSIONS[2] == "automation_readiness";
    assert DIMENSIONS[3] == "data_portability" && DIMENSIONS[4] == "permission_risk" && DIMENSIONS[5] == "evidence_quality";
    assert DIMENSIONS[6] == "ecosystem_fit";
  }

  lemma {:induction false} FittingKeepsTheRules(profile: Profile)
    requires profile.standardId == STANDARD.standardId && profile.standardVersion == STANDARD.standardVersion
    requires DistinctKeys(profile.checks, CheckKey) && forall i :: 0 <= i < |profile.checks| ==> Fits(profile.checks[i])
    ensures CatalogRules(STANDARD, profile)
  {
    hide RuleFor, RatingPolicyOk, DistinctKeys;
    PolicyIsOk();
    RulesResolve();
    forall c | c in profile.checks
      ensures c.weight > 0.0 && c.dimension in STANDARD.dimensions && RuleFor(STANDARD.scoringRules, c.scoringRuleId).Some?
    {
      assert Fits(c);
    }
  }

  lemma {:induction false} SmallProfilesFit()
    ensures forall i :: 0 <= i < |GENERIC.checks| ==> Fits(GENERIC.checks[i])
    ensures forall i :: 0 <= i < |AGENT_FRAMEWORK.checks| ==> Fits(AGENT_FRAMEWORK.checks[i])
  {
    hide DIMENSIONS;
    DimensionsAre();
  }

  lemma {:induction false} LargeProfilesFit()
    ensures forall i :: 0 <= i < |MCP_SERVER.checks| ==> Fits(MCP_SERVER.checks[i])
    ensures forall i :: 0 <= i < |CLI_API_TOOL.checks| ==> Fits(CLI_API_TOOL.checks[i])
  {
    hide DIMENSIONS;
    DimensionsAre();
  }

  // The shipped standard and its four profiles keep the catalogue rules, and leave no finding to be
  // answered as not applicable without approval.
  lemma {:induction false} ShippedKeepsTheRules()
    ensures CatalogRules(STANDARD, GENERIC) && CatalogRules(STANDARD, AGENT_FRAMEWORK)
    ensures CatalogRules(STANDARD, MCP_SERVER) && CatalogRules(STANDARD, CLI_API_TOOL)
    ensures ApprovalForNotApplicable(STANDARD)
  {
    hide Fits, DistinctKeys, CatalogRules;
    SmallProfilesFit();
    LargeProfilesFit();
    GenericIdsDiffer();
    AgentFrameworkIdsDiffer();
    McpServerIdsDiffer();
    CliApiToolIdsDiffer();
    FittingKeepsTheRules(GENERIC);
    FittingKeepsTheRules(AGENT_FRAMEWORK);
    FittingKeepsTheRules(MCP_SERVER);
    FittingKeepsTheRules(CLI_API_TOOL);
  }
}
