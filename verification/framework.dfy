/** The role registry, the dispatcher and the prompt store of `AIFramework`. */
module Framework {
  import opened Wrappers
  import opened Core
  import opened Exceptions
  import opened Providers

  /** The configuration dictionary stored for a role. Extra keyword arguments cannot
      shadow the four named keys, since Python binds those to the named parameters. */
  datatype AgentConfig = AgentConfig(
    provider: string,
    model: string,
    tier: ModelTier,
    temperature: real,
    extras: map<string, Value>)

  /** The three dictionaries of an `AIFramework` object. */
  datatype AIFramework = AIFramework(
    agents: map<Role, AgentConfig>,
    providers: map<string, Instance>,
    prompts: map<string, string>)

  /** Every configured agent's provider name has an instance, so dispatch never misses. */
  predicate Valid(fw: AIFramework)
  {
    forall r :: r in fw.agents ==> fw.agents[r].provider in fw.providers
  }

  /** Two states that configure and store the same things and hold providers of the same
      kinds: they differ at most in the mock providers' call counters. */
  predicate SameWiring(fw: AIFramework, fw': AIFramework)
  {
    && fw.agents == fw'.agents
    && fw.prompts == fw'.prompts
    && fw.providers.Keys == fw'.providers.Keys
    && forall n :: n in fw.providers ==> KindOf(fw.providers[n]) == KindOf(fw'.providers[n])
  }

  /** Same wiring is transitive. */
  lemma SameWiringTransitive(a: AIFramework, b: AIFramework, c: AIFramework)
    requires SameWiring(a, b) && SameWiring(b, c)
    ensures SameWiring(a, c)
  {
  }

  /** `AIFramework()`: nothing configured, no provider, no prompt. */
  function Init(): (fw: AIFramework)
    ensures Valid(fw)
    ensures fw.agents == map[] && fw.providers == map[] && fw.prompts == map[]
  {
    AIFramework(map[], map[], map[])
  }

  /** `configure_agent`: the role's entry is replaced wholesale, every other role keeps its
      entry, and a provider instance is created only for a name not seen before. */
  function ConfigureAgent(fw: AIFramework, installed: set<Vendor>, role: Role, provider: string,
                          model: string, tier: ModelTier := Pro, temperature: real := 0.7,
                          extras: map<string, Value> := map[]): (r: AIFramework)
    ensures role in r.agents
    ensures r.agents[role] == AgentConfig(provider, model, tier, temperature, extras)
    ensures forall q :: q != role ==> (q in r.agents <==> q in fw.agents)
    ensures forall q :: q != role && q in fw.agents ==> r.agents[q] == fw.agents[q]
    ensures provider in r.providers
    ensures provider in fw.providers ==> r.providers == fw.providers
    ensures provider !in fw.providers ==>
      r.providers == fw.providers[provider := GetProvider(provider, installed)]
    ensures r.prompts == fw.prompts
    ensures Valid(fw) ==> Valid(r)
  {
    var agents := fw.agents[role := AgentConfig(provider, model, tier, temperature, extras)];
    if provider in fw.providers then fw.(agents := agents)
    else fw.(agents := agents, providers := fw.providers[provider := GetProvider(provider, installed)])
  }

  /** Omitted tier and temperature default to PRO and 0.7. */
  lemma ConfigureDefaults(fw: AIFramework, installed: set<Vendor>, role: Role, provider: string, model: string)
    ensures var cfg := ConfigureAgent(fw, installed, role, provider, model).agents[role];
            cfg.tier == Pro && cfg.temperature == 0.7 && cfg.extras == map[]
  {
  }

  /** Configuring a role twice leaves only the second configuration, and the provider
      instance created by the first call for a name is kept by the second. */
  lemma ReconfigureReplaces(fw: AIFramework, installed: set<Vendor>, role: Role,
                            p1: string, m1: string, t1: ModelTier, x1: real,
                            p2: string, m2: string, t2: ModelTier, x2: real)
    ensures var once := ConfigureAgent(fw, installed, role, p1, m1, t1, x1);
            var twice := ConfigureAgent(once, installed, role, p2, m2, t2, x2);
            && twice.agents[role] == AgentConfig(p2, m2, t2, x2, map[])
            && twice.providers[p1] == once.providers[p1]
            && (p1 == p2 ==> twice.providers == once.providers)
  {
  }

  const RealHead: string := "["
  const RealMiddle: string := "] Response to: "

  /** What the provider bound to a configured role answers to a prompt. It depends on the
      role's model and provider kind only, never on call counters or context. */
  function Reply(fw: AIFramework, role: Role, prompt: string): string
    requires Valid(fw) && role in fw.agents
  {
    var cfg := fw.agents[role];
    match fw.providers[cfg.provider]
    case MockInstance(_) => MockText(cfg.model, prompt)
    case VendorInstance(_) => RealHead + RoleValue(role) + RealMiddle + Take(prompt, PreviewLength) + Ellipsis
  }

  /** States with the same wiring give the same replies. */
  lemma ReplyDependsOnWiring(fw: AIFramework, fw': AIFramework, role: Role, prompt: string)
    requires Valid(fw) && SameWiring(fw, fw') && role in fw.agents
    ensures Valid(fw') && role in fw'.agents
    ensures Reply(fw, role, prompt) == Reply(fw', role, prompt)
  {
    var n := fw.agents[role].provider;
    assert KindOf(fw.providers[n]) == KindOf(fw'.providers[n]);
  }

  /** A successful dispatch: the new state and the response. */
  datatype Dispatched = Dispatched(fw: AIFramework, response: string)

  /** `dispatch`: fails with `RoleNotConfigured` carrying the role's value when the role has
      no entry; otherwise asks the bound provider. A mock provider generates (and counts
      the call); any other provider yields the placeholder text quoting the role. The
      context never changes the response. */
  function Dispatch(fw: AIFramework, role: Role, prompt: string, context: Value := Null)
    : (r: Result<Dispatched, FrameworkError>)
    requires Valid(fw)
    ensures r.Failure? <==> role !in fw.agents
    ensures r.Failure? ==> r.error == RoleNotConfigured(RoleValue(role))
    ensures r.Success? ==>
      var cfg := fw.agents[role];
      var inst := fw.providers[cfg.provider];
      && Valid(r.value.fw)
      && SameWiring(fw, r.value.fw)
      && r.value.response == Reply(fw, role, prompt)
      && (inst.MockInstance? ==>
            && r.value.response == MockText(cfg.model, prompt)
            && r.value.fw.providers
               == fw.providers[cfg.provider := MockInstance(MockProvider(inst.mock.callCount + 1))])
      && (inst.VendorInstance? ==>
            && r.value.response == "[" + RoleValue(role) + "] Response to: " + Take(prompt, 50) + "..."
            && r.value.fw == fw)
  {
    if role !in fw.agents then Failure(RoleNotConfigured(RoleValue(role)))
    else
      var cfg := fw.agents[role];
      match fw.providers[cfg.provider]
      case MockInstance(m) =>
        var (m', text) := Generate(m, prompt, cfg.model, cfg.temperature);
        Success(Dispatched(fw.(providers := fw.providers[cfg.provider := MockInstance(m')]), text))
      case VendorInstance(_) =>
        Success(Dispatched(fw, RealHead + RoleValue(role) + RealMiddle + Take(prompt, PreviewLength) + Ellipsis))
  }

  /** The context argument never changes what a dispatch does. */
  lemma DispatchIgnoresContext(fw: AIFramework, role: Role, prompt: string, c1: Value, c2: Value)
    requires Valid(fw)
    ensures Dispatch(fw, role, prompt, c1) == Dispatch(fw, role, prompt, c2)
  {
  }

  /** `load_prompt` with the file's contents given: stores them under the name. */
  function LoadPrompt(fw: AIFramework, name: string, content: string): (r: AIFramework)
    ensures r.agents == fw.agents && r.providers == fw.providers
    ensures name in r.prompts && r.prompts[name] == content
    ensures forall n :: n != name ==> (n in r.prompts <==> n in fw.prompts)
    ensures forall n :: n != name && n in fw.prompts ==> r.prompts[n] == fw.prompts[n]
    ensures Valid(fw) ==> Valid(r)
  {
    fw.(prompts := fw.prompts[name := content])
  }

  /** `get_prompt`: the stored text, or `PromptNotFound` carrying the name. */
  function GetPrompt(fw: AIFramework, name: string): (r: Result<string, FrameworkError>)
    ensures r.Success? <==> name in fw.prompts
    ensures r.Success? ==> r.value == fw.prompts[name]
    ensures r.Failure? ==> r.error == PromptNotFound(name)
  {
    if name !in fw.prompts then Failure(PromptNotFound(name)) else Success(fw.prompts[name])
  }

  /** Fetching a name returns exactly the text last loaded under it; loading one name
      does not disturb another; a fresh framework has no prompts. */
  lemma PromptStoreRoundTrip(fw: AIFramework, name: string, other: string, content: string)
    ensures GetPrompt(LoadPrompt(fw, name, content), name) == Success(content)
    ensures other != name ==> GetPrompt(LoadPrompt(fw, name, content), other) == GetPrompt(fw, other)
    ensures GetPrompt(Init(), name) == Failure(PromptNotFound(name))
  {
  }

  /** A public call on the framework. */
  datatype Op =
    | Configure(role: Role, provider: string, model: string, tier: ModelTier, temperature: real,
                extras: map<string, Value>)
    | Load(name: string, content: string)
    | Send(role: Role, prompt: string, context: Value)

  /** Applies one call; a call that raises leaves the state as it was. */
  function Apply(fw: AIFramework, installed: set<Vendor>, op: Op): (r: AIFramework)
    requires Valid(fw)
    ensures Valid(r)
    ensures r.agents.Keys == if op.Configure? then fw.agents.Keys + {op.role} else fw.agents.Keys
  {
    match op
    case Configure(role, provider, model, tier, temperature, extras) =>
      ConfigureAgent(fw, installed, role, provider, model, tier, temperature, extras)
    case Load(name, content) => LoadPrompt(fw, name, content)
    case Send(role, prompt, context) =>
      match Dispatch(fw, role, prompt, context)
      case Success(d) => d.fw
      case Failure(_) => fw
  }

  /** Some call in `ops` configures `role`. */
  predicate Configures(ops: seq<Op>, role: Role)
  {
    exists i :: 0 <= i < |ops| && ops[i].Configure? && ops[i].role == role
  }

  /** A role is configured by a non-empty sequence of calls exactly when it is configured
      by all but the last call or by the last one. */
  lemma ConfiguresSnoc(ops: seq<Op>, role: Role)
    requires ops != []
    ensures Configures(ops, role) <==>
      Configures(ops[..|ops| - 1], role) || (ops[|ops| - 1].Configure? && ops[|ops| - 1].role == role)
  {
    var prefix := ops[..|ops| - 1];
    if Configures(ops, role) {
      var i :| 0 <= i < |ops| && ops[i].Configure? && ops[i].role == role;
      if i < |prefix| {
        assert prefix[i] == ops[i];
      }
    }
    if Configures(prefix, role) {
      var i :| 0 <= i < |prefix| && prefix[i].Configure? && prefix[i].role == role;
      assert ops[i] == prefix[i];
    }
  }

  /** The state after a sequence of calls on a fresh framework: whatever the calls, every
      configured agent's provider has an instance, and a role is configured exactly when
      some call configured it. */
  function Replay(installed: set<Vendor>, ops: seq<Op>): (fw: AIFramework)
    ensures Valid(fw)
    ensures forall r :: r in fw.agents <==> Configures(ops, r)
  {
    if ops == [] then Init()
    else
      var before := Replay(installed, ops[..|ops| - 1]);
      var after := Apply(before, installed, ops[|ops| - 1]);
      forall r | true
        ensures r in after.agents <==> Configures(ops, r)
      {
        ConfiguresSnoc(ops, r);
      }
      after
  }

  /** The package's dispatch test: a generator configured on "openai" answers with the
      placeholder quoting the role when the SDK is installed, and through a mock otherwise. */
  lemma OpenAIDispatchScenario(installed: set<Vendor>)
    ensures var fw := ConfigureAgent(Init(), installed, Generator, "openai", "gpt-4");
            var r := Dispatch(fw, Generator, "Test prompt");
            && r.Success?
            && (OpenAI in installed ==> r.value.response == "[generator] Response to: Test prompt...")
            && (OpenAI !in installed ==> r.value.response == "[Mock gpt-4] Response to: Test prompt...")
  {
    var fw := ConfigureAgent(Init(), installed, Generator, "openai", "gpt-4");
    var r := Dispatch(fw, Generator, "Test prompt");
    if OpenAI in installed {
      assert fw.providers["openai"] == VendorInstance(OpenAI);
      PlaceholderOfTestPrompt();
    } else {
      assert fw.providers["openai"] == MockInstance(NewMock());
      assert r.value.response == MockText("gpt-4", "Test prompt");
      MockOfTestPrompt();
    }
  }

  lemma PlaceholderOfTestPrompt()
    ensures "[" + RoleValue(Generator) + "] Response to: " + Take("Test prompt", 50) + "..."
         == "[generator] Response to: Test prompt..."
  {
    assert Take("Test prompt", 50) == "Test prompt";
    assert "[" + RoleValue(Generator) == "[generator";
    assert "[generator" + "] Response to: " == "[generator] Response to: ";
    assert "[generator] Response to: " + "Test prompt" == "[generator] Response to: Test prompt";
  }

  lemma MockOfTestPrompt()
    ensures MockText("gpt-4", "Test prompt") == "[Mock gpt-4] Response to: Test prompt..."
  {
    assert Take("Test prompt", PreviewLength) == "Test prompt";
    assert MockHead + "gpt-4" == "[Mock gpt-4";
    assert "[Mock gpt-4" + MockMiddle == "[Mock gpt-4] Response to: ";
    assert "[Mock gpt-4] Response to: " + "Test prompt" == "[Mock gpt-4] Response to: Test prompt";
  }
}
