/** Roles, model tiers, opaque payload values and the refinement result record. */
module Core {
  import opened Wrappers

  /** The functional identities an agent can be configured for. */
  datatype Role = Generator | Reviewer | Refiner | QaAnalyst | Orchestrator

  /** Cost/capability hint carried through configuration, never interpreted. */
  datatype ModelTier = Pro | Flash

  /** The string value of each role enumeration member. */
  function RoleValue(r: Role): string
  {
    match r
    case Generator => "generator"
    case Reviewer => "reviewer"
    case Refiner => "refiner"
    case QaAnalyst => "qa_analyst"
    case Orchestrator => "orchestrator"
  }

  /** Enumeration lookup by value, as `Role(value)` does: fails for any other string. */
  function ParseRole(s: string): (r: Option<Role>)
    ensures r.Some? ==> RoleValue(r.value) == s
  {
    if s == "generator" then Some(Generator)
    else if s == "reviewer" then Some(Reviewer)
    else if s == "refiner" then Some(Refiner)
    else if s == "qa_analyst" then Some(QaAnalyst)
    else if s == "orchestrator" then Some(Orchestrator)
    else None
  }

  /** Every role's value parses back to that role. */
  lemma RoleValueRoundTrip(r: Role)
    ensures ParseRole(RoleValue(r)) == Some(r)
  {
  }

  /** The role values are pairwise distinct, so a value identifies its role. */
  lemma RoleValueInjective(a: Role, b: Role)
    ensures RoleValue(a) == RoleValue(b) <==> a == b
  {
    RoleValueRoundTrip(a);
    RoleValueRoundTrip(b);
  }

  /** The string value of each tier. */
  function TierValue(t: ModelTier): string
  {
    match t
    case Pro => "pro"
    case Flash => "flash"
  }

  /** Tier lookup by value. */
  function ParseTier(s: string): (r: Option<ModelTier>)
    ensures r.Some? ==> TierValue(r.value) == s
  {
    if s == "pro" then Some(Pro)
    else if s == "flash" then Some(Flash)
    else None
  }

  /** Every tier's value parses back to that tier, and the two values differ. */
  lemma TierValueRoundTrip(t: ModelTier)
    ensures ParseTier(TierValue(t)) == Some(t)
    ensures TierValue(Pro) != TierValue(Flash)
  {
  }

  /** A dynamically typed payload: a keyword argument, a context entry or a metadata entry. */
  datatype Value =
    | Null
    | Text(s: string)
    | Number(x: real)
    | Flag(b: bool)
    | Dict(entries: map<string, Value>)

  /** The immutable record a pipeline run produces. */
  datatype RefinementResult = RefinementResult(
    finalOutput: string,
    qualityScore: real,
    iterations: int,
    history: seq<string>,
    metadata: map<string, Value>)

  /** The record's constructor: an omitted (or empty) metadata mapping becomes the empty map. */
  function NewResult(finalOutput: string, qualityScore: real, iterations: int,
                     history: seq<string>, metadata: Option<map<string, Value>> := None): (r: RefinementResult)
    ensures r.finalOutput == finalOutput && r.qualityScore == qualityScore
    ensures r.iterations == iterations && r.history == history
    ensures metadata.None? ==> r.metadata == map[]
    ensures metadata.Some? ==> r.metadata == metadata.value
  {
    RefinementResult(finalOutput, qualityScore, iterations, history,
                     match metadata case Some(m) => m case None => map[])
  }
}
