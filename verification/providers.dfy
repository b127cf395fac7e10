/** Provider kinds and the deterministic mock provider. The vendor adapters are foreign
    SDK calls and appear only as kinds. */
module Providers {
  import opened Wrappers
  import opened Core

  /** The vendors with a real adapter. */
  datatype Vendor = OpenAI | Anthropic | Gemini

  /** The mock provider's only state: how many times it has generated. */
  datatype MockProvider = MockProvider(callCount: nat)

  /** A provider instance held by the framework. */
  datatype Instance = MockInstance(mock: MockProvider) | VendorInstance(vendor: Vendor)

  /** What a provider instance is, forgetting the mock's counter. */
  datatype ProviderKind = MockKind | VendorKind(v: Vendor)

  function KindOf(i: Instance): ProviderKind
  {
    match i
    case MockInstance(_) => MockKind
    case VendorInstance(v) => VendorKind(v)
  }

  /** A freshly constructed mock provider has made no calls. */
  function NewMock(): (m: MockProvider)
    ensures m.callCount == 0
  {
    MockProvider(0)
  }

  const PreviewLength: nat := 50

  /** Python's `s[:n]`: the first `n` characters, or all of `s` if it is shorter. */
  function Take(s: string, n: nat): (r: string)
    ensures |r| == if |s| <= n then |s| else n
    ensures r == s[..|r|]
    ensures |s| <= n ==> r == s
  {
    if |s| <= n then s else s[..n]
  }

  const MockHead: string := "[Mock "
  const MockMiddle: string := "] Response to: "
  const Ellipsis: string := "..."

  /** The text the mock produces for a prompt under a model name. */
  function MockText(model: string, prompt: string): string
  {
    MockHead + model + MockMiddle + Take(prompt, PreviewLength) + Ellipsis
  }

  /** The mock's answer quotes the model and at most the first fifty characters of the
      prompt, and a prompt of fifty characters or fewer appears in full. */
  lemma MockTextQuotesPrompt(model: string, prompt: string)
    ensures var t := MockText(model, prompt);
            var start := |MockHead| + |model| + |MockMiddle|;
            && start <= |t| - |Ellipsis|
            && t[|MockHead|..|MockHead| + |model|] == model
            && t[start..|t| - |Ellipsis|] == Take(prompt, PreviewLength)
            && |t| - |Ellipsis| - start <= PreviewLength
            && (|prompt| <= PreviewLength ==> t[start..|t| - |Ellipsis|] == prompt)
  {
    var t := MockText(model, prompt);
    var start := |MockHead| + |model| + |MockMiddle|;
    assert t == (MockHead + model + MockMiddle) + Take(prompt, PreviewLength) + Ellipsis;
    assert t[|MockHead|..|MockHead| + |model|] == model;
    assert t[start..|t| - |Ellipsis|] == Take(prompt, PreviewLength);
  }

  /** `MockProvider.generate`: counts the call and returns the mock text. Temperature,
      token limit and extra keyword arguments are accepted and ignored. */
  function Generate(m: MockProvider, prompt: string, model: string, temperature: real := 0.7,
                    maxTokens: Option<int> := None, kwargs: map<string, Value> := map[])
    : (r: (MockProvider, string))
    ensures r.0.callCount == m.callCount + 1
    ensures r.1 == MockText(model, prompt)
  {
    (MockProvider(m.callCount + 1), MockText(model, prompt))
  }

  /** The answer never depends on the sampling parameters or on the call counter. */
  lemma GenerateIgnoresParameters(m1: MockProvider, m2: MockProvider, prompt: string, model: string,
                                  t1: real, t2: real, k1: Option<int>, k2: Option<int>,
                                  w1: map<string, Value>, w2: map<string, Value>)
    ensures Generate(m1, prompt, model, t1, k1, w1).1 == Generate(m2, prompt, model, t2, k2, w2).1
  {
  }

  /** `MockProvider.get_available_models`. */
  function AvailableModels(): (r: seq<string>)
    ensures |r| == 3
    ensures forall i :: 0 <= i < |r| ==> |r[i]| > 5 && r[i][..5] == "mock-"
    ensures forall i, j :: 0 <= i < j < |r| ==> r[i] != r[j]
  {
    ["mock-gpt-4", "mock-claude-3", "mock-gemini-pro"]
  }

  /** The provider names that select each vendor's adapter. */
  function Aliases(v: Vendor): set<string>
  {
    match v
    case OpenAI => {"openai"}
    case Anthropic => {"anthropic"}
    case Gemini => {"google", "gemini"}
  }

  /** `AIFramework._get_provider`. Whether a vendor's SDK can be imported is the
      parameter `installed`; a vendor whose SDK is missing falls back to a fresh mock,
      and so does every unrecognised name. */
  function GetProvider(name: string, installed: set<Vendor>): (r: Instance)
    ensures r.VendorInstance? ==> r.vendor in installed && name in Aliases(r.vendor)
    ensures r.MockInstance? ==> r.mock == NewMock()
    ensures forall v :: name in Aliases(v) && v in installed ==> r == VendorInstance(v)
    ensures (forall v :: name !in Aliases(v)) ==> r == MockInstance(NewMock())
  {
    if name == "openai" then
      (if OpenAI in installed then VendorInstance(OpenAI) else MockInstance(NewMock()))
    else if name == "anthropic" then
      (if Anthropic in installed then VendorInstance(Anthropic) else MockInstance(NewMock()))
    else if name == "google" || name == "gemini" then
      (if Gemini in installed then VendorInstance(Gemini) else MockInstance(NewMock()))
    else MockInstance(NewMock())
  }
}
