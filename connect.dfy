/**
 * `useConnect`: the mutation key, the mutation function with its
 * required-connector check, the merging of call-time arguments over the
 * hook's options in `connect` / `connectAsync`, and `pendingConnector`.
 */
module Connect {
  import opened Wrappers
  import VagmiPlugin

  /** A wagmi connector (injected wallet, WalletConnect, Coinbase wallet, ...). */
  datatype Connector = Connector(id: string)

  /** `Partial<ConnectArgs>`: a field is absent when `undefined` or `null`. */
  datatype ConnectArgs = ConnectArgs(connector: Option<Connector>, chainId: Option<int>)

  /** A hook option given plain or wrapped in a Vue ref (`MaybeRef`); either may hold nothing. */
  datatype MaybeRef<T> = Plain(value: Option<T>) | Ref(current: Option<T>)

  /** `getMaybeRefValue` / `unref`: the value held, whether plain or in a ref. */
  function Unref<T>(m: MaybeRef<T>): Option<T>
  {
    match m
    case Plain(v) => v
    case Ref(v) => v
  }

  /** The `connector` and `chainId` options given to `useConnect`. */
  datatype HookOptions = HookOptions(connector: MaybeRef<Connector>, chainId: MaybeRef<int>)

  // ---------------------------------------------------------------------------
  // Mutation key

  /** The record `{ entity: "connect", ...args }`. */
  datatype KeyRecord = KeyRecord(entity: string, connector: Option<Connector>, chainId: Option<int>)

  function MutationKey(args: ConnectArgs): (key: seq<KeyRecord>)
    ensures |key| == 1 && key[0].entity == "connect"
    ensures key[0].connector == args.connector && key[0].chainId == args.chainId
  {
    [KeyRecord("connect", args.connector, args.chainId)]
  }

  /** Two argument records get the same mutation key exactly when they are equal. */
  lemma MutationKeyInjective(a: ConnectArgs, b: ConnectArgs)
    ensures MutationKey(a) == MutationKey(b) <==> a == b
  {
    if MutationKey(a) == MutationKey(b) {
      assert MutationKey(a)[0] == MutationKey(b)[0];
    }
  }

  /** The key `useConnect` registers: built from the options' values at setup time. */
  function HookMutationKey(options: HookOptions): (key: seq<KeyRecord>)
    ensures |key| == 1 && key[0].entity == "connect"
    ensures key[0].connector == Unref(options.connector) && key[0].chainId == Unref(options.chainId)
  {
    MutationKey(ConnectArgs(Unref(options.connector), Unref(options.chainId)))
  }

  // ---------------------------------------------------------------------------
  // Mutation function

  const ConnectorRequired: string := "connector is required"

  /** The arguments handed to wagmi's `connect`. */
  datatype ConnectRequest = ConnectRequest(connector: Connector, chainId: Option<int>)

  /** `mutationFn`: throw before calling `connect` when there is no connector, else forward both fields. */
  function MutationFn(args: ConnectArgs): (r: Result<ConnectRequest, string>)
    ensures r.Failure? <==> args.connector.None?
    ensures r.Failure? ==> r.error == ConnectorRequired
    ensures r.Success? ==> r.value.connector == args.connector.value && r.value.chainId == args.chainId
  {
    if args.connector.None? then Failure(ConnectorRequired)
    else Success(ConnectRequest(args.connector.value, args.chainId))
  }

  // ---------------------------------------------------------------------------
  // Argument merging in connect / connectAsync

  /** `a ?? b` on optional values. */
  function Coalesce<T>(a: Option<T>, b: Option<T>): Option<T>
  {
    if a.Some? then a else b
  }

  /**
   * The corrected merging for `connect` and `connectAsync`: each field is the
   * call-time value when there is one, otherwise the option's value. The
   * source falls back to the option as given instead (`ResolveAsWritten`).
   */
  function Resolve(call: Option<ConnectArgs>, options: HookOptions): (args: ConnectArgs)
    ensures call.Some? && call.value.connector.Some? ==> args.connector == call.value.connector
    ensures !(call.Some? && call.value.connector.Some?) ==> args.connector == Unref(options.connector)
    ensures call.Some? && call.value.chainId.Some? ==> args.chainId == call.value.chainId
    ensures !(call.Some? && call.value.chainId.Some?) ==> args.chainId == Unref(options.chainId)
  {
    var given := if call.Some? then call.value else ConnectArgs(None, None);
    ConnectArgs(Coalesce(given.connector, Unref(options.connector)),
                Coalesce(given.chainId, Unref(options.chainId)))
  }

  /**
   * With the corrected merging, a connect attempt fails with "connector is
   * required", before wagmi is called, exactly when neither the call nor the
   * options supply a connector; otherwise wagmi receives the resolved
   * connector and chain id.
   */
  lemma ConnectRequiresConnector(call: Option<ConnectArgs>, options: HookOptions)
    ensures MutationFn(Resolve(call, options)) == Failure(ConnectorRequired) <==>
      (call.None? || call.value.connector.None?) && Unref(options.connector).None?
    ensures MutationFn(Resolve(call, options)).Success? ==>
      MutationFn(Resolve(call, options)).value ==
        ConnectRequest(
          if call.Some? && call.value.connector.Some? then call.value.connector.value
          else Unref(options.connector).value,
          if call.Some? && call.value.chainId.Some? then call.value.chainId else Unref(options.chainId))
  {
  }

  // ---------------------------------------------------------------------------
  // The merging as written: `args?.connector ?? connector` on the raw option

  /** The variables as the source builds them: a field may be the option's ref object itself. */
  datatype RawVariables = RawVariables(connector: MaybeRef<Connector>, chainId: MaybeRef<int>)

  /** `connect` / `connectAsync` as written: the fallback is the option as given, not its value. */
  function ResolveAsWritten(call: Option<ConnectArgs>, options: HookOptions): (v: RawVariables)
    ensures call.Some? && call.value.connector.Some? ==> v.connector == Plain(call.value.connector)
    ensures !(call.Some? && call.value.connector.Some?) ==> v.connector == options.connector
    ensures call.Some? && call.value.chainId.Some? ==> v.chainId == Plain(call.value.chainId)
    ensures !(call.Some? && call.value.chainId.Some?) ==> v.chainId == options.chainId
  {
    RawVariables(
      if call.Some? && call.value.connector.Some? then Plain(call.value.connector) else options.connector,
      if call.Some? && call.value.chainId.Some? then Plain(call.value.chainId) else options.chainId)
  }

  /** `mutationFn` on such variables: `!connector` is false for any ref object, even an empty one. */
  function MutationFnAsWritten(v: RawVariables): (r: Result<RawVariables, string>)
    ensures r.Failure? <==> v.connector == Plain(None)
    ensures r.Failure? ==> r.error == ConnectorRequired
    ensures r.Success? ==> r.value == v
  {
    if v.connector == Plain(None) then Failure(ConnectorRequired) else Success(v)
  }

  /**
   * With plain options the source's merging agrees with `Resolve`, and its
   * mutation function throws exactly when `MutationFn` does.
   */
  lemma {:induction false} AsWrittenAgreesOnPlainOptions(call: Option<ConnectArgs>, c: Option<Connector>, chain: Option<int>)
    ensures var options := HookOptions(Plain(c), Plain(chain));
      var raw := ResolveAsWritten(call, options);
      var args := Resolve(call, options);
      raw == RawVariables(Plain(args.connector), Plain(args.chainId)) &&
      (MutationFnAsWritten(raw).Failure? <==> MutationFn(args).Failure?)
  {
  }

  /**
   * With `useConnect({ connector: ref(undefined) })`, `connect()` passes the
   * guard and hands wagmi the ref object: there is no connector, yet no
   * "connector is required" error.
   */
  lemma EmptyRefBypassesConnectorCheck()
    ensures var options := HookOptions(Ref(None), Plain(None));
      MutationFnAsWritten(ResolveAsWritten(None, options)) == Success(RawVariables(Ref(None), Plain(None))) &&
      MutationFn(Resolve(None, options)) == Failure(ConnectorRequired)
  {
  }

  // ---------------------------------------------------------------------------
  // pendingConnector

  /** The part of vue-query's mutation state read here: the variables of the latest `mutate`. */
  datatype MutationState = MutationState(variables: Option<ConnectArgs>)

  /** A mutation just created by `useMutation`. */
  const FreshMutation: MutationState := MutationState(None)

  /** `variables.value?.connector`, evaluated against a given mutation state. */
  function PendingConnector(state: MutationState): (c: Option<Connector>)
    ensures state.variables.None? ==> c.None?
    ensures state.variables.Some? ==> c == state.variables.value.connector
  {
    if state.variables.Some? then state.variables.value.connector else None
  }

  /** What `useConnect` returns, as far as this model follows it. */
  datatype Bindings = Bindings(key: seq<KeyRecord>, pendingConnector: Option<Connector>)

  /**
   * `useConnect` as written: `useClient()` fails outside an application that
   * installed the plugin; otherwise `pendingConnector` is read once, from the
   * fresh mutation, so it is undefined.
   */
  function UseConnectAsWritten(injected: Option<VagmiPlugin.Client>, options: HookOptions): (r: Result<Bindings, string>)
    ensures r.Failure? <==> injected.None?
    ensures r.Failure? ==> r.error == VagmiPlugin.NotInstalledMessage
    ensures r.Success? ==> r.value.key == HookMutationKey(options) && r.value.pendingConnector == None
  {
    var client := VagmiPlugin.UseClient(injected);
    if client.Failure? then Failure(client.error)
    else Success(Bindings(HookMutationKey(options), PendingConnector(FreshMutation)))
  }

  /** `mutate(variables)`: the mutation now holds the variables of this latest attempt. */
  function Mutate(state: MutationState, variables: ConnectArgs): (next: MutationState)
    ensures next.variables == Some(variables)
  {
    state.(variables := Some(variables))
  }

  /** The mutation state after `connect` / `connectAsync` was called with each of `calls`, in order. */
  function AfterAttempts(calls: seq<Option<ConnectArgs>>, options: HookOptions): MutationState
    decreases |calls|
  {
    if calls == [] then FreshMutation
    else Mutate(AfterAttempts(calls[..|calls| - 1], options), Resolve(calls[|calls| - 1], options))
  }

  /**
   * Read at access time, the pending connector is that of the latest attempt:
   * each attempt replaces the one before, and before any attempt there is none.
   */
  lemma {:induction false} PendingConnectorFollowsLatestAttempt(calls: seq<Option<ConnectArgs>>, options: HookOptions)
    ensures PendingConnector(AfterAttempts(calls, options)) ==
      if calls == [] then None else Resolve(calls[|calls| - 1], options).connector
  {
    if calls != [] {
      var last := Resolve(calls[|calls| - 1], options);
      assert AfterAttempts(calls, options) == Mutate(AfterAttempts(calls[..|calls| - 1], options), last);
    }
  }

  /** After `connect(a)` and then `connect(b)`, the pending connector is `b`'s, not `a`'s. */
  lemma LaterAttemptReplacesEarlier(a: Option<ConnectArgs>, b: Option<ConnectArgs>, options: HookOptions)
    ensures PendingConnector(AfterAttempts([a, b], options)) == Resolve(b, options).connector
  {
    PendingConnectorFollowsLatestAttempt([a, b], options);
  }

  /**
   * The returned `pendingConnector` stays undefined whatever is connected
   * later: once the latest attempt resolved a connector, it differs from the
   * pending connector read at access time.
   */
  lemma PendingConnectorNeverSet(injected: Option<VagmiPlugin.Client>, options: HookOptions, calls: seq<Option<ConnectArgs>>)
    ensures UseConnectAsWritten(injected, options).Success? ==>
      UseConnectAsWritten(injected, options).value.pendingConnector == None
    ensures (UseConnectAsWritten(injected, options).Success? && calls != [] &&
             Resolve(calls[|calls| - 1], options).connector.Some?) ==>
      UseConnectAsWritten(injected, options).value.pendingConnector != PendingConnector(AfterAttempts(calls, options))
  {
    PendingConnectorFollowsLatestAttempt(calls, options);
  }
}
