/** The provider-agnostic entry point (rust-sdk/src/router.rs): a table of
    initialised adapters keyed by provider, the router configuration, and a
    shared round-robin counter, with the provider-selection rules that every
    transcription call goes through. */
module Router {
  import opened Wrappers
  import opened Strings
  import opened Sequences
  import opened Types
  import opened Adapters
  import GladiaVendor = Gladia
  import AssemblyAIVendor = AssemblyAI
  import DeepgramVendor = Deepgram

  /** `usize` is 64 bits wide; `fetch_add` wraps at this modulus. */
  const USIZE_MODULUS: nat := 0x1_0000_0000_0000_0000

  datatype SelectionStrategy = Explicit | Default | RoundRobin

  datatype RouterConfig = RouterConfig(
    providers: map<TranscriptionProvider, ProviderConfig>,
    defaultProvider: Option<TranscriptionProvider>,
    strategy: SelectionStrategy)

  /** What the router keeps of an adapter: the provider it answers for
      (`name()`) and what it can do (`capabilities()`). */
  datatype RegisteredAdapter = RegisteredAdapter(
    name: TranscriptionProvider,
    capabilities: ProviderCapabilities)

  const EXPLICIT_MESSAGE: string :=
    "Provider must be explicitly specified when using 'explicit' selection strategy"
  const NO_DEFAULT_MESSAGE: string := "No default provider configured"

  /** `s` lists the elements of `keys` once each, in some order: the model
      of iterating over the keys of a `HashMap`. */
  predicate Enumerates<T(==,!new)>(s: seq<T>, keys: set<T>) {
    NoDuplicates(s) && (forall x :: x in s ==> x in keys) && (forall x :: x in keys ==> x in s)
  }

  // ---------------------------------------------------------------------
  // Built-in adapters

  /** The providers the router can build an adapter for. */
  predicate IsBuiltIn(p: TranscriptionProvider) {
    p == Gladia || p == AssemblyAI || p == Deepgram
  }

  /** The capabilities of a built-in adapter. */
  function BuiltInCapabilities(p: TranscriptionProvider): (c: ProviderCapabilities)
    requires IsBuiltIn(p)
  {
    match p
    case Gladia => GladiaVendor.CAPABILITIES
    case AssemblyAI => AssemblyAIVendor.CAPABILITIES
    case Deepgram => DeepgramVendor.CAPABILITIES
  }

  /** A configured provider ends up in the table exactly when it is a
      built-in one and its adapter's `initialize` accepts the configuration. */
  predicate Initialises(p: TranscriptionProvider, cfg: ProviderConfig) {
    IsBuiltIn(p) && CheckApiKey(cfg).Success?
  }

  /** The adapter table right after construction. */
  function BuiltIns(providers: map<TranscriptionProvider, ProviderConfig>): (m: map<TranscriptionProvider, RegisteredAdapter>)
  {
    map p | p in providers && Initialises(p, providers[p]) :: RegisteredAdapter(p, BuiltInCapabilities(p))
  }

  /** A table holding exactly the built-in adapters that initialise is the
      constructed table, whatever order the providers were visited in. */
  lemma TableIsBuiltIns(providers: map<TranscriptionProvider, ProviderConfig>, order: seq<TranscriptionProvider>,
                        table: map<TranscriptionProvider, RegisteredAdapter>)
    requires Enumerates(order, providers.Keys)
    requires forall p :: p in table <==> p in order && Initialises(p, providers[p])
    requires forall p :: p in table ==> IsBuiltIn(p) && table[p] == RegisteredAdapter(p, BuiltInCapabilities(p))
    ensures table == BuiltIns(providers)
  {
  }

  /** Which providers the constructor registers: exactly the built-in ones
      with a non-empty API key. */
  lemma BuiltInsRegistered(providers: map<TranscriptionProvider, ProviderConfig>, p: TranscriptionProvider)
    ensures p in BuiltIns(providers) <==>
      p in providers && IsBuiltIn(p) && providers[p].apiKey != ""
    ensures p in BuiltIns(providers) ==> BuiltIns(providers)[p].name == p
  {
  }

  /** Every built-in adapter streams, so the router's streaming capability
      check never refuses a built-in adapter. */
  lemma BuiltInsStream(p: TranscriptionProvider)
    requires IsBuiltIn(p)
    ensures BuiltInCapabilities(p).streaming
  {
  }

  /** The default provider after construction: under the `Default` strategy,
      an unset default becomes the first configured provider. */
  function InitialDefault(cfg: RouterConfig, order: seq<TranscriptionProvider>): (d: Option<TranscriptionProvider>)
    requires |order| > 0
  {
    if cfg.strategy == Default && cfg.defaultProvider.None? then Some(order[0]) else cfg.defaultProvider
  }

  // ---------------------------------------------------------------------
  // Provider selection

  /** The `{:?}` rendering of a list of providers. */
  function DebugList(ps: seq<TranscriptionProvider>): string {
    "[" + Join(DebugNames(ps), ", ") + "]"
  }

  function DebugNames(ps: seq<TranscriptionProvider>): (r: seq<string>)
    ensures |r| == |ps|
  {
    if ps == [] then [] else [ProviderDebugName(ps[0])] + DebugNames(ps[1..])
  }

  function NotRegisteredMessage(p: TranscriptionProvider, registered: seq<TranscriptionProvider>): string {
    "Provider '" + ProviderDebugName(p) + "' is not registered. Available providers: " + DebugList(registered)
  }

  function NoStreamingMessage(p: TranscriptionProvider): string {
    "Provider '" + ProviderDebugName(p) + "' does not support streaming transcription"
  }

  /** The outcome of `select_provider`: the chosen provider or the error,
      and the value of the round-robin counter afterwards. */
  datatype Selection = Selection(result: Result<TranscriptionProvider, AdapterError>, counter: nat)

  /** A round-robin pick with no registered adapter divides by zero, which
      panics; that is the one case the caller must rule out. */
  predicate CanSelect(registered: seq<TranscriptionProvider>, strategy: SelectionStrategy,
                      preferred: Option<TranscriptionProvider>)
  {
    preferred.None? && strategy == RoundRobin ==> |registered| > 0
  }

  /** `select_provider` on a table enumerated by `registered`: a preferred
      provider must be registered; otherwise the strategy decides, and only a
      round-robin pick moves the counter (by one, wrapping at the `usize`
      modulus). */
  function Select(registered: seq<TranscriptionProvider>, strategy: SelectionStrategy,
                  defaultProvider: Option<TranscriptionProvider>, counter: nat,
                  preferred: Option<TranscriptionProvider>): (s: Selection)
    requires CanSelect(registered, strategy, preferred)
  {
    if preferred.Some? then
      if preferred.value in registered then Selection(Success(preferred.value), counter)
      else Selection(Failure(InvalidConfig(NotRegisteredMessage(preferred.value, registered))), counter)
    else
      match strategy
      case Explicit => Selection(Failure(InvalidConfig(EXPLICIT_MESSAGE)), counter)
      case RoundRobin =>
        Selection(Success(registered[counter % |registered|]), (counter + 1) % USIZE_MODULUS)
      case Default =>
        if defaultProvider.Some? then Selection(Success(defaultProvider.value), counter)
        else Selection(Failure(InvalidConfig(NO_DEFAULT_MESSAGE)), counter)
  }

  /** A preferred provider is chosen exactly when it is registered, whatever
      the strategy, and the counter is left alone. */
  lemma SelectPreferred(registered: seq<TranscriptionProvider>, strategy: SelectionStrategy,
                        defaultProvider: Option<TranscriptionProvider>, counter: nat,
                        p: TranscriptionProvider)
    ensures Select(registered, strategy, defaultProvider, counter, Some(p)).result.Success? <==> p in registered
    ensures Select(registered, strategy, defaultProvider, counter, Some(p)).result.Success? ==>
      Select(registered, strategy, defaultProvider, counter, Some(p)).result.value == p
    ensures Select(registered, strategy, defaultProvider, counter, Some(p)).counter == counter
  {
  }

  /** Whatever provider is selected under the `Explicit` or `RoundRobin`
      strategies is registered; under `Default` it is the configured default,
      registered or not. */
  lemma SelectedIsRegistered(registered: seq<TranscriptionProvider>, strategy: SelectionStrategy,
                             defaultProvider: Option<TranscriptionProvider>, counter: nat,
                             preferred: Option<TranscriptionProvider>)
    requires CanSelect(registered, strategy, preferred)
    ensures var s := Select(registered, strategy, defaultProvider, counter, preferred);
      s.result.Success? ==>
        (s.result.value in registered || (preferred.None? && strategy == Default && defaultProvider == Some(s.result.value)))
    ensures var s := Select(registered, strategy, defaultProvider, counter, preferred);
      preferred.None? && strategy == Explicit ==> s.result == Failure(InvalidConfig(EXPLICIT_MESSAGE))
  {
  }

  /** The providers picked by `k` round-robin selections in a row, starting
      from counter value `c`. */
  function RoundRobinPicks(registered: seq<TranscriptionProvider>, c: nat, k: nat): (picks: seq<TranscriptionProvider>)
    requires |registered| > 0
    ensures |picks| == k
    decreases k
  {
    if k == 0 then []
    else
      var s := Select(registered, RoundRobin, None, c, None);
      [s.result.value] + RoundRobinPicks(registered, s.counter, k - 1)
  }

  /** Away from the wrap-around, the `i`-th pick is the entry at
      `(c + i) mod n`. */
  lemma {:induction false} RoundRobinPickAt(registered: seq<TranscriptionProvider>, c: nat, k: nat, i: nat)
    requires |registered| > 0
    requires c + k <= USIZE_MODULUS
    requires i < k
    ensures RoundRobinPicks(registered, c, k)[i] == registered[(c + i) % |registered|]
    decreases k
  {
    if i > 0 {
      var s := Select(registered, RoundRobin, None, c, None);
      assert s.counter == c + 1;
      RoundRobinPickAt(registered, c + 1, k - 1, i - 1);
      assert c + 1 + (i - 1) == c + i;
    }
  }

  /** `n * d` lies strictly between `-n` and `n` only for `d == 0`. */
  lemma {:induction false} MultipleInsideBand(n: int, d: int)
    requires n > 0 && -n < n * d < n
    ensures d == 0
  {
    if d >= 1 {
      MultipleAtLeast(n, d);
    } else if d <= -1 {
      MultipleAtLeast(n, -d);
    }
  }

  lemma {:induction false} MultipleAtLeast(n: int, d: int)
    requires n > 0 && d >= 1
    ensures n * d >= n
    decreases d
  {
    if d > 1 {
      MultipleAtLeast(n, d - 1);
      assert n * d == n * (d - 1) + n;
    }
  }

  /** Euclidean division is unique: `n * q + r` with `0 <= r < n` has
      quotient `q` and remainder `r`. */
  lemma DivModUnique(x: int, n: int, q: int, r: int)
    requires n > 0 && 0 <= r < n && x == n * q + r
    ensures x / n == q && x % n == r
  {
    var q', r' := x / n, x % n;
    assert x == n * q' + r';
    assert n * (q - q') == r' - r by {
      assert n * (q - q') == n * q - n * q';
    }
    MultipleInsideBand(n, q - q');
  }

  /** Some offset `i < n` from `c` lands on every residue `j`. */
  lemma ModCover(c: nat, n: nat, j: nat) returns (i: nat)
    requires 0 <= j < n
    ensures i < n && (c + i) % n == j
  {
    var q, r := c / n, c % n;
    assert c == n * q + r;
    if j >= r {
      i := j - r;
      DivModUnique(c + i, n, q, j);
    } else {
      i := n - r + j;
      assert c + i == n * (q + 1) + j by {
        assert n * (q + 1) == n * q + n;
      }
      DivModUnique(c + i, n, q + 1, j);
    }
  }

  /** Distinct offsets below `n` land on distinct residues. */
  lemma ModDistinct(c: nat, n: nat, i1: nat, i2: nat)
    requires 0 < n && i1 < i2 < n
    ensures (c + i1) % n != (c + i2) % n
  {
    var a, b, d := c + i1, c + i2, i2 - i1;
    var q, r := a / n, a % n;
    assert a == n * q + r;
    if r + d < n {
      DivModUnique(b, n, q, r + d);
    } else {
      assert b == n * (q + 1) + (r + d - n) by {
        assert n * (q + 1) == n * q + n;
      }
      DivModUnique(b, n, q + 1, r + d - n);
    }
  }

  /** Round-robin fairness: as long as the counter does not wrap, `n`
      selections in a row over `n` registered providers pick every one of
      them exactly once. */
  lemma RoundRobinFair(registered: seq<TranscriptionProvider>, c: nat)
    requires |registered| > 0 && NoDuplicates(registered)
    requires c + |registered| <= USIZE_MODULUS
    ensures var picks := RoundRobinPicks(registered, c, |registered|);
      |picks| == |registered| && NoDuplicates(picks) && (forall p :: p in picks <==> p in registered)
  {
    var n := |registered|;
    var picks := RoundRobinPicks(registered, c, n);
    RoundRobinPickAt(registered, c, n, 0);
    forall i | 0 <= i < n
      ensures picks[i] == registered[(c + i) % n]
    {
      RoundRobinPickAt(registered, c, n, i);
    }
    forall i1, i2 | 0 <= i1 < i2 < n
      ensures picks[i1] != picks[i2]
    {
      ModDistinct(c, n, i1, i2);
    }
    forall p | p in registered
      ensures p in picks
    {
      var j :| 0 <= j < n && registered[j] == p;
      var i := ModCover(c, n, j);
      assert picks[i] == p;
    }
  }

  /** At the top of the counter's range the rotation restarts at the first
      registered provider, so when `n` does not divide 2^64 the cycle that
      crosses the wrap-around picks some provider twice. */
  lemma RoundRobinWraps(registered: seq<TranscriptionProvider>)
    requires |registered| > 0
    ensures Select(registered, RoundRobin, None, USIZE_MODULUS - 1, None).counter == 0
    ensures Select(registered, RoundRobin, None, 0, None).result == Success(registered[0])
  {
  }

  // ---------------------------------------------------------------------
  // The router

  class VoiceRouter {
    /** The adapter table, keyed by provider. */
    var adapters: map<TranscriptionProvider, RegisteredAdapter>
    /** The order in which the table's keys are iterated. */
    var registered: seq<TranscriptionProvider>
    var config: RouterConfig
    var roundRobinIndex: nat

    predicate Valid()
      reads this
    {
      Enumerates(registered, adapters.Keys)
      && adapters.Keys <= config.providers.Keys
      && roundRobinIndex < USIZE_MODULUS
      && (forall p :: p in adapters ==> adapters[p].name == p)
    }

    /** `VoiceRouter::new`: at least one provider must be configured (the
        source panics otherwise); `order` is the iteration order of the
        configured providers. */
    constructor New(cfg: RouterConfig, order: seq<TranscriptionProvider>)
      requires |cfg.providers| > 0
      requires Enumerates(order, cfg.providers.Keys)
      ensures Valid()
      ensures adapters == BuiltIns(cfg.providers)
      ensures config == cfg.(defaultProvider := InitialDefault(cfg, order))
      ensures roundRobinIndex == 0
    {
      var someKey :| someKey in cfg.providers;
      assert |order| > 0 by { assert someKey in order; }
      config := cfg.(defaultProvider := InitialDefault(cfg, order));
      roundRobinIndex := 0;
      var table: map<TranscriptionProvider, RegisteredAdapter> := map[];
      var keys: seq<TranscriptionProvider> := [];
      var i := 0;
      while i < |order|
        invariant 0 <= i <= |order|
        invariant forall p :: p in table <==> p in order[..i] && Initialises(p, cfg.providers[p])
        invariant forall p :: p in table ==> table[p] == RegisteredAdapter(p, BuiltInCapabilities(p))
        invariant Enumerates(keys, table.Keys)
      {
        var p := order[i];
        assert order[..i + 1] == order[..i] + [p];
        assert p !in order[..i];
        var init := CheckApiKey(cfg.providers[p]);
        if IsBuiltIn(p) && init.Success? {
          table := table[p := RegisteredAdapter(p, BuiltInCapabilities(p))];
          keys := keys + [p];
        }
        i := i + 1;
      }
      assert order[..|order|] == order;
      TableIsBuiltIns(cfg.providers, order, table);
      adapters := table;
      registered := keys;
    }

    /** `register_adapter`: an adapter for a configured provider replaces
        any earlier one; an adapter for any other provider is ignored. */
    method RegisterAdapter(adapter: RegisteredAdapter)
      requires Valid()
      modifies this
      ensures Valid()
      ensures config == old(config) && roundRobinIndex == old(roundRobinIndex)
      ensures adapter.name in config.providers ==> adapters == old(adapters)[adapter.name := adapter]
      ensures adapter.name !in config.providers ==> adapters == old(adapters) && registered == old(registered)
    {
      var p := adapter.name;
      if p in config.providers {
        if p !in adapters {
          registered := registered + [p];
        }
        adapters := adapters[p := adapter];
      }
    }

    /** `get_adapter`. */
    function GetAdapter(p: TranscriptionProvider): (r: Result<RegisteredAdapter, AdapterError>)
      reads this
      requires Valid()
      ensures r.Success? <==> p in registered
      ensures r.Success? ==> r.value == adapters[p] && r.value.name == p
      ensures r.Failure? ==> r.error == InvalidConfig(NotRegisteredMessage(p, registered))
    {
      if p in adapters then Success(adapters[p])
      else Failure(InvalidConfig(NotRegisteredMessage(p, GetRegisteredProviders())))
    }

    /** `select_provider`, which advances the shared counter on a
        round-robin pick. */
    method SelectProvider(preferred: Option<TranscriptionProvider>) returns (r: Result<TranscriptionProvider, AdapterError>)
      requires Valid()
      requires CanSelect(registered, config.strategy, preferred)
      modifies this
      ensures Valid()
      ensures adapters == old(adapters) && registered == old(registered) && config == old(config)
      ensures Selection(r, roundRobinIndex) ==
        Select(registered, config.strategy, config.defaultProvider, old(roundRobinIndex), preferred)
    {
      if preferred.Some? {
        if preferred.value !in adapters {
          return Failure(InvalidConfig(NotRegisteredMessage(preferred.value, GetRegisteredProviders())));
        }
        return Success(preferred.value);
      }
      match config.strategy {
        case Explicit =>
          r := Failure(InvalidConfig(EXPLICIT_MESSAGE));
        case RoundRobin =>
          var providers := registered;
          var index := roundRobinIndex;
          roundRobinIndex := (roundRobinIndex + 1) % USIZE_MODULUS;
          r := Success(providers[index % |providers|]);
        case Default =>
          if config.defaultProvider.Some? {
            r := Success(config.defaultProvider.value);
          } else {
            r := Failure(InvalidConfig(NO_DEFAULT_MESSAGE));
          }
      }
    }

    /** `transcribe`: selects a provider and hands the call to that
        provider's adapter, which is returned here. */
    method Transcribe() returns (r: Result<RegisteredAdapter, AdapterError>)
      requires Valid()
      requires CanSelect(registered, config.strategy, None)
      modifies this
      ensures Valid()
      ensures adapters == old(adapters) && registered == old(registered) && config == old(config)
      ensures var s := Select(registered, config.strategy, config.defaultProvider, old(roundRobinIndex), None);
        roundRobinIndex == s.counter
        && r == (if s.result.Failure? then Failure(s.result.error) else GetAdapter(s.result.value))
    {
      var provider := SelectProvider(None);
      if provider.Failure? {
        return Failure(provider.error);
      }
      r := GetAdapter(provider.value);
    }

    /** `transcribe_stream_with_provider`: selection, then lookup, then the
        capability check, before the adapter opens its session. */
    method TranscribeStreamWithProvider(preferred: Option<TranscriptionProvider>) returns (r: Result<RegisteredAdapter, AdapterError>)
      requires Valid()
      requires CanSelect(registered, config.strategy, preferred)
      modifies this
      ensures Valid()
      ensures adapters == old(adapters) && registered == old(registered) && config == old(config)
      ensures var s := Select(registered, config.strategy, config.defaultProvider, old(roundRobinIndex), preferred);
        roundRobinIndex == s.counter
        && r == StreamTarget(s.result)
    {
      var provider := SelectProvider(preferred);
      if provider.Failure? {
        return Failure(provider.error);
      }
      var adapter := GetAdapter(provider.value);
      if adapter.Failure? {
        return Failure(adapter.error);
      }
      if !adapter.value.capabilities.streaming {
        return Failure(NotSupported(NoStreamingMessage(provider.value)));
      }
      r := adapter;
    }

    /** Where a streaming request goes once a provider has been selected. */
    function StreamTarget(selected: Result<TranscriptionProvider, AdapterError>): (r: Result<RegisteredAdapter, AdapterError>)
      reads this
      requires Valid()
    {
      if selected.Failure? then Failure(selected.error)
      else if selected.value !in adapters then Failure(InvalidConfig(NotRegisteredMessage(selected.value, registered)))
      else if !adapters[selected.value].capabilities.streaming then Failure(NotSupported(NoStreamingMessage(selected.value)))
      else Success(adapters[selected.value])
    }

    /** A streaming request reaches an adapter only if that adapter is
        registered for the selected provider and declares streaming. */
    lemma StreamTargetStreams(selected: Result<TranscriptionProvider, AdapterError>)
      requires Valid()
      ensures StreamTarget(selected).Success? <==>
        selected.Success? && selected.value in registered && adapters[selected.value].capabilities.streaming
      ensures StreamTarget(selected).Success? ==>
        StreamTarget(selected).value.name == selected.value && StreamTarget(selected).value.capabilities.streaming
    {
    }

    /** Under the `Default` strategy the configured default is selected even
        when no adapter is registered for it; the lookup that follows then
        fails, listing the registered providers. */
    lemma UnregisteredDefaultFailsDispatch()
      requires Valid() && config.strategy == Default && config.defaultProvider.Some?
      requires config.defaultProvider.value !in adapters
      ensures Select(registered, Default, config.defaultProvider, roundRobinIndex, None).result ==
        Success(config.defaultProvider.value)
      ensures GetAdapter(config.defaultProvider.value) ==
        Failure(InvalidConfig(NotRegisteredMessage(config.defaultProvider.value, registered)))
    {
    }

    /** `get_provider_capabilities`. */
    function GetProviderCapabilities(p: TranscriptionProvider): (r: Option<ProviderCapabilities>)
      reads this
      requires Valid()
      ensures r.Some? <==> p in registered
      ensures r.Some? ==> r.value == adapters[p].capabilities
    {
      if p in adapters then Some(adapters[p].capabilities) else None
    }

    /** `get_registered_providers`: every registered provider once. */
    function GetRegisteredProviders(): (r: seq<TranscriptionProvider>)
      reads this
      requires Valid()
      ensures NoDuplicates(r)
      ensures forall p :: p in r <==> p in adapters
    {
      registered
    }

    /** `default_provider`: the configured default, or else the first
        registered provider, in the same key order `get_registered_providers`
        lists them. */
    function DefaultProvider(): (r: Option<TranscriptionProvider>)
      reads this
      requires Valid()
      ensures config.defaultProvider.Some? ==> r == config.defaultProvider
      ensures config.defaultProvider.None? ==> (r.None? <==> adapters.Keys == {})
      ensures config.defaultProvider.None? && r.Some? ==> r.value in adapters
      ensures config.defaultProvider.None? && GetRegisteredProviders() != [] ==>
        r == Some(GetRegisteredProviders()[0])
    {
      if config.defaultProvider.Some? then config.defaultProvider
      else if |registered| > 0 then
        assert registered[0] in adapters.Keys;
        Some(registered[0])
      else None
    }
  }

  // ---------------------------------------------------------------------
  // Properties of construction

  /** A router whose configuration names only providers without a built-in
      adapter is constructed without error but registers nothing, so it can
      never make a round-robin pick. */
  lemma NothingRegisteredWithoutBuiltIns(providers: map<TranscriptionProvider, ProviderConfig>)
    requires forall p :: p in providers ==> !IsBuiltIn(p)
    ensures BuiltIns(providers) == map[]
  {
  }

  /** Under the `Default` strategy the constructor always leaves a default
      provider, and it is a configured one, though not necessarily a
      registered one. */
  lemma ConstructedDefault(cfg: RouterConfig, order: seq<TranscriptionProvider>)
    requires |order| > 0 && Enumerates(order, cfg.providers.Keys)
    requires cfg.defaultProvider.None?
    ensures cfg.strategy == Default ==>
      InitialDefault(cfg, order) == Some(order[0]) && order[0] in cfg.providers
    ensures cfg.strategy != Default ==> InitialDefault(cfg, order).None?
  {
  }
}
