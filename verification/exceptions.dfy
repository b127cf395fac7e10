/** The framework's error taxonomy: a class hierarchy plus the raised error values. */
module Exceptions {
  import opened Wrappers

  /** The exception classes, each with at most one base class inside the framework. */
  datatype ErrorClass =
    | AIFrameworkError
    | ConfigurationError
    | ProviderError
    | RoleNotConfiguredError
    | PromptNotFoundError
    | ModelNotFoundError

  /** The direct base class; `AIFrameworkError` is the root. */
  function Base(c: ErrorClass): Option<ErrorClass>
  {
    match c
    case AIFrameworkError => None
    case ConfigurationError => Some(AIFrameworkError)
    case ProviderError => Some(AIFrameworkError)
    case RoleNotConfiguredError => Some(ConfigurationError)
    case PromptNotFoundError => Some(AIFrameworkError)
    case ModelNotFoundError => Some(ProviderError)
  }

  /** Distance from the root of the hierarchy; decreases along `Base`. */
  function Depth(c: ErrorClass): nat
  {
    match c
    case AIFrameworkError => 0
    case ConfigurationError => 1
    case ProviderError => 1
    case PromptNotFoundError => 1
    case RoleNotConfiguredError => 2
    case ModelNotFoundError => 2
  }

  /** `IsA(c, d)`: an exception of class `c` is caught by `except d` (reflexive-transitive `Base`). */
  predicate IsA(c: ErrorClass, d: ErrorClass)
    decreases Depth(c)
  {
    c == d || (Base(c).Some? && IsA(Base(c).value, d))
  }

  /** Every framework exception class derives from `AIFrameworkError`. */
  lemma {:induction false} AllAreFrameworkErrors(c: ErrorClass)
    ensures IsA(c, AIFrameworkError)
    decreases Depth(c)
  {
    if c != AIFrameworkError {
      AllAreFrameworkErrors(Base(c).value);
    }
  }

  /** A subclass is at least as deep as each of its ancestors, strictly unless equal. */
  lemma {:induction false} IsADepth(c: ErrorClass, d: ErrorClass)
    requires IsA(c, d)
    ensures c == d || Depth(d) < Depth(c)
    decreases Depth(c)
  {
    if c != d {
      IsADepth(Base(c).value, d);
    }
  }

  /** "Is-a" is transitive. */
  lemma {:induction false} IsATransitive(a: ErrorClass, b: ErrorClass, c: ErrorClass)
    requires IsA(a, b) && IsA(b, c)
    ensures IsA(a, c)
    decreases Depth(a)
  {
    if a != b {
      IsATransitive(Base(a).value, b, c);
    }
  }

  /** "Is-a" is antisymmetric: two distinct classes are never each other's subclass. */
  lemma IsAAntisymmetric(a: ErrorClass, b: ErrorClass)
    requires IsA(a, b) && IsA(b, a)
    ensures a == b
  {
    IsADepth(a, b);
    IsADepth(b, a);
  }

  /** The two error families are disjoint: nothing is both a configuration and a provider error. */
  lemma {:induction false} FamiliesDisjoint(c: ErrorClass)
    ensures !(IsA(c, ConfigurationError) && IsA(c, ProviderError))
  {
    match c
    case AIFrameworkError =>
    case ConfigurationError =>
      assert Base(c) == Some(AIFrameworkError);
    case ProviderError =>
      assert Base(c) == Some(AIFrameworkError);
    case PromptNotFoundError =>
      assert Base(c) == Some(AIFrameworkError);
    case RoleNotConfiguredError =>
      assert Base(ConfigurationError) == Some(AIFrameworkError);
    case ModelNotFoundError =>
      assert Base(ProviderError) == Some(AIFrameworkError);
  }

  /** A raised error: its class and the payload its constructor stores. */
  datatype FrameworkError =
    | Generic(message: string)
    | Configuration(message: string)
    | Provider(message: string)
    | RoleNotConfigured(role: string)
    | PromptNotFound(promptName: string)
    | ModelNotFound(model: string, provider: string)

  /** The class an error value is an instance of. */
  function ClassOf(e: FrameworkError): ErrorClass
  {
    match e
    case Generic(_) => AIFrameworkError
    case Configuration(_) => ConfigurationError
    case Provider(_) => ProviderError
    case RoleNotConfigured(_) => RoleNotConfiguredError
    case PromptNotFound(_) => PromptNotFoundError
    case ModelNotFound(_, _) => ModelNotFoundError
  }

  const RolePrefix: string := "No agent configured for role: "
  const PromptPrefix: string := "Prompt not found: "

  /** The message each error passes to its base `Exception`. */
  function Message(e: FrameworkError): string
  {
    match e
    case Generic(m) => m
    case Configuration(m) => m
    case Provider(m) => m
    case RoleNotConfigured(role) => RolePrefix + role
    case PromptNotFound(name) => PromptPrefix + name
    case ModelNotFound(model, provider) =>
      "Model '" + model + "' not found for provider '" + provider + "'"
  }

  /** Reads back the role from a `RoleNotConfigured` message. */
  function RoleFromMessage(msg: string): (r: Option<string>)
    ensures r.Some? ==> msg == RolePrefix + r.value
  {
    if |RolePrefix| <= |msg| && msg[..|RolePrefix|] == RolePrefix
    then Some(msg[|RolePrefix|..]) else None
  }

  /** Reads back the prompt name from a `PromptNotFound` message. */
  function PromptNameFromMessage(msg: string): (r: Option<string>)
    ensures r.Some? ==> msg == PromptPrefix + r.value
  {
    if |PromptPrefix| <= |msg| && msg[..|PromptPrefix|] == PromptPrefix
    then Some(msg[|PromptPrefix|..]) else None
  }

  /** The message of a `RoleNotConfigured` error carries its role, which can be read back,
      and the error is a configuration error. */
  lemma RoleNotConfiguredMessage(role: string)
    ensures RoleFromMessage(Message(RoleNotConfigured(role))) == Some(role)
    ensures IsA(ClassOf(RoleNotConfigured(role)), ConfigurationError)
  {
    var msg := Message(RoleNotConfigured(role));
    assert msg[..|RolePrefix|] == RolePrefix;
    assert msg[|RolePrefix|..] == role;
  }

  /** The message of a `PromptNotFound` error carries its name, which can be read back,
      and the error is not a configuration error. */
  lemma PromptNotFoundMessage(name: string)
    ensures PromptNameFromMessage(Message(PromptNotFound(name))) == Some(name)
    ensures !IsA(ClassOf(PromptNotFound(name)), ConfigurationError)
  {
    var msg := Message(PromptNotFound(name));
    assert msg[..|PromptPrefix|] == PromptPrefix;
    assert msg[|PromptPrefix|..] == name;
  }

  /** `ModelNotFound` is a provider error (hence not a configuration error) and its
      message names both the model and the provider. */
  lemma ModelNotFoundMessage(model: string, provider: string)
    ensures IsA(ClassOf(ModelNotFound(model, provider)), ProviderError)
    ensures !IsA(ClassOf(ModelNotFound(model, provider)), ConfigurationError)
    ensures var msg := Message(ModelNotFound(model, provider));
            msg[7..7 + |model|] == model
            && msg[|msg| - 1 - |provider|..|msg| - 1] == provider
  {
    FamiliesDisjoint(ModelNotFoundError);
  }
}
