/** The provider registry (app/llm/factory/factory.py): a module-level dictionary from
    provider to factory, written by `register_factory` and read by `create_adapter`.
    The dictionary becomes the `factories` field of a `ProviderRegistry` object; the
    adapter type `A` is whatever the registered factories build. */
module LlmFactory {

  import opened Wrappers
  import opened LlmBase
  import opened Exceptions
  import opened Ports

  /** The keyword arguments `create_adapter` forwards to a factory. */
  datatype AdapterConfig = AdapterConfig(modelName: string, responseFormat: Option<Schema>)

  /** `ProviderFactory.create_adapter`: builds an adapter or raises. */
  type ProviderFactory<A> = AdapterConfig -> Result<A, Error>

  /** The text of the `ValueError` for a provider without a factory; the provider is
      rendered by `str`, as "SupportedLLMProvider.OPENAI". */
  function NotRegisteredMessage(provider: SupportedLLMProvider): (m: string)
    ensures provider == OPENAI ==> m == "No factory registered for SupportedLLMProvider.OPENAI"
  {
    "No factory registered for " + ProviderStr(provider)
  }

  /** `create_adapter` against a given dictionary: the registered factory's outcome,
      except that a `KeyError`, whether from the lookup or raised by the factory, is
      reported as the "not registered" `ValueError` (with no cause). */
  function Resolve<A>(factories: map<SupportedLLMProvider, ProviderFactory<A>>, provider: SupportedLLMProvider, config: AdapterConfig): (r: Result<A, Error>)
    ensures provider !in factories ==> r == Failure(ValueError(NotRegisteredMessage(provider)))
    ensures provider in factories && factories[provider](config).Failure? && factories[provider](config).error.KeyError? ==>
      r == Failure(ValueError(NotRegisteredMessage(provider)))
    ensures provider in factories && !(factories[provider](config).Failure? && factories[provider](config).error.KeyError?) ==>
      r == factories[provider](config)
  {
    if provider !in factories then Failure(ValueError(NotRegisteredMessage(provider)))
    else
      match factories[provider](config)
      case Failure(KeyError(_)) => Failure(ValueError(NotRegisteredMessage(provider)))
      case other => other
  }

  class ProviderRegistry<A> {

    var factories: map<SupportedLLMProvider, ProviderFactory<A>>

    /** The dictionary starts empty. */
    constructor ()
      ensures factories == map[]
    {
      factories := map[];
    }

    /** `register_factory(p, f)`: store `f` for `p`, replacing any earlier factory. */
    method RegisterFactory(p: SupportedLLMProvider, f: ProviderFactory<A>)
      modifies this
      ensures factories == old(factories)[p := f]
    {
      factories := factories[p := f];
    }

    /** `create_adapter(provider, model_name, response_format)`. */
    method CreateAdapter(provider: SupportedLLMProvider, modelName: string, responseFormat: Option<Schema>) returns (r: Result<A, Error>)
      ensures r == Resolve(factories, provider, AdapterConfig(modelName, responseFormat))
    {
      if provider !in factories {
        return Failure(ValueError(NotRegisteredMessage(provider)));
      }
      var created := factories[provider](AdapterConfig(modelName, responseFormat));
      if created.Failure? && created.error.KeyError? {
        r := Failure(ValueError(NotRegisteredMessage(provider)));
      } else {
        r := created;
      }
    }
  }

  /** After registering `f` for `p`, creating an adapter for `p` hands the model name
      and schema to `f` and returns its outcome (a `KeyError` aside), whatever was
      registered before: a later registration overwrites an earlier one. */
  lemma RegisterThenResolve<A>(factories: map<SupportedLLMProvider, ProviderFactory<A>>, p: SupportedLLMProvider, f: ProviderFactory<A>, config: AdapterConfig)
    ensures f(config).Failure? && f(config).error.KeyError? ==>
      Resolve(factories[p := f], p, config) == Failure(ValueError(NotRegisteredMessage(p)))
    ensures !(f(config).Failure? && f(config).error.KeyError?) ==>
      Resolve(factories[p := f], p, config) == f(config)
  {
  }

  /** The registry's life: on a fresh registry creation fails with the "not
      registered" error; after a registration it delegates to the new factory. */
  method RegistryScenario<A>(f: ProviderFactory<A>, modelName: string, responseFormat: Option<Schema>) returns (before: Result<A, Error>, after: Result<A, Error>)
    ensures before == Failure(ValueError("No factory registered for SupportedLLMProvider.OPENAI"))
    ensures !(f(AdapterConfig(modelName, responseFormat)).Failure? && f(AdapterConfig(modelName, responseFormat)).error.KeyError?) ==>
      after == f(AdapterConfig(modelName, responseFormat))
  {
    var registry := new ProviderRegistry<A>();
    before := registry.CreateAdapter(OPENAI, modelName, responseFormat);
    registry.RegisterFactory(OPENAI, f);
    after := registry.CreateAdapter(OPENAI, modelName, responseFormat);
  }
}
