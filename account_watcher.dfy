/**
 * The account transition watcher of `useAccount`: it follows the account that
 * `watchAccount` reports, keeps the previously observed snapshot and fires the
 * user's `onConnect` / `onDisconnect` callbacks on status edges.
 */
module AccountWatcher {
  import opened Wrappers

  /** Account status as reported by the wagmi core store. */
  datatype Status = Connecting | Reconnecting | Connected | Disconnected

  type Address = string
  type ConnectorId = string

  /** An account snapshot (`GetAccountResult`); address and connector may be absent. */
  datatype Account = Account(status: Status, address: Option<Address>, connector: Option<ConnectorId>)

  /** Whether `onConnect` and `onDisconnect` are set, as read (`unref`) when the watcher runs. */
  datatype Callbacks = Callbacks(onConnect: bool, onDisconnect: bool)

  /** One run of the watcher: the callbacks in force and the account just delivered. */
  datatype Change = Change(callbacks: Callbacks, account: Account)

  /** A callback invocation together with the argument it receives. */
  datatype Fired =
    | ConnectFired(address: Option<Address>, connector: Option<ConnectorId>, isReconnected: bool)
    | DisconnectFired

  /** `previousAccount.value?.status`: absent while no account has been observed. */
  function PrevStatus(prev: Option<Account>): Option<Status>
  {
    if prev.Some? then Some(prev.value.status) else None
  }

  /** The callbacks one watcher run fires, given the previous snapshot and the current account. */
  function Transition(callbacks: Callbacks, prev: Option<Account>, curr: Account): (r: seq<Fired>)
    ensures |r| <= 1
    ensures (|r| == 1 && r[0].ConnectFired?) <==>
      callbacks.onConnect && PrevStatus(prev) != Some(Connected) && curr.status == Connected
    ensures (|r| == 1 && r[0].DisconnectFired?) <==>
      callbacks.onDisconnect && PrevStatus(prev) == Some(Connected) && curr.status == Disconnected
    ensures |r| == 1 && r[0].ConnectFired? ==>
      r[0].address == curr.address && r[0].connector == curr.connector &&
      (r[0].isReconnected <==> PrevStatus(prev) == Some(Reconnecting))
    ensures prev.None? && |r| == 1 && r[0].ConnectFired? ==> !r[0].isReconnected
    ensures prev == Some(curr) ==> r == []
  {
    var prevStatus := PrevStatus(prev);
    (if callbacks.onConnect && prevStatus != Some(Connected) && curr.status == Connected
     then [ConnectFired(curr.address, curr.connector, prevStatus == Some(Reconnecting))]
     else [])
    +
    (if callbacks.onDisconnect && prevStatus == Some(Connected) && curr.status == Disconnected
     then [DisconnectFired]
     else [])
  }

  /** All callbacks fired by a sequence of watcher runs, starting from snapshot `prev`. */
  function Trace(prev: Option<Account>, changes: seq<Change>): seq<Fired>
    decreases |changes|
  {
    if changes == [] then []
    else Transition(changes[0].callbacks, prev, changes[0].account) + Trace(Some(changes[0].account), changes[1..])
  }

  /** The snapshot held after a sequence of runs starting from `prev`. */
  function Final(prev: Option<Account>, changes: seq<Change>): Option<Account>
  {
    if changes == [] then prev else Some(changes[|changes| - 1].account)
  }

  /** Running the watcher once more extends the trace by that run's transition. */
  lemma {:induction false} TraceSnoc(prev: Option<Account>, changes: seq<Change>, c: Change)
    ensures Trace(prev, changes + [c]) == Trace(prev, changes) + Transition(c.callbacks, Final(prev, changes), c.account)
    decreases |changes|
  {
    if changes == [] {
      assert changes + [c] == [c];
      assert [c][1..] == [];
    } else {
      var head, rest := changes[0], changes[1..];
      assert (changes + [c])[0] == head;
      assert (changes + [c])[1..] == rest + [c];
      TraceSnoc(Some(head.account), rest, c);
      assert Final(prev, changes) == Final(Some(head.account), rest);
    }
  }

  /** A run that delivers the same account again fires nothing. */
  lemma {:induction false} RepeatedAccountFiresNothing(prev: Option<Account>, changes: seq<Change>, c: Change, again: Callbacks)
    ensures Trace(prev, changes + [c] + [Change(again, c.account)]) == Trace(prev, changes + [c])
  {
    TraceSnoc(prev, changes + [c], Change(again, c.account));
    assert Final(prev, changes + [c]) == Some(c.account);
  }

  /** 1 when the snapshot is connected, 0 otherwise. */
  function Up(a: Option<Account>): nat
  {
    if a.Some? && a.value.status == Connected then 1 else 0
  }

  function Connects(s: seq<Fired>): nat
  {
    if s == [] then 0 else (if s[0].ConnectFired? then 1 else 0) + Connects(s[1..])
  }

  function Disconnects(s: seq<Fired>): nat
  {
    if s == [] then 0 else (if s[0].DisconnectFired? then 1 else 0) + Disconnects(s[1..])
  }

  lemma {:induction false} CountsAppend(s: seq<Fired>, t: seq<Fired>)
    ensures Connects(s + t) == Connects(s) + Connects(t)
    ensures Disconnects(s + t) == Disconnects(s) + Disconnects(t)
  {
    if s == [] {
      assert s + t == t;
    } else {
      assert (s + t)[0] == s[0];
      assert (s + t)[1..] == s[1..] + t;
      CountsAppend(s[1..], t);
    }
  }

  /** One run: with `onConnect` set, a disconnect edge is never reported without the status having been connected. */
  lemma StepBalance(callbacks: Callbacks, prev: Option<Account>, curr: Account)
    requires callbacks.onConnect
    ensures Disconnects(Transition(callbacks, prev, curr)) + Up(Some(curr))
         <= Connects(Transition(callbacks, prev, curr)) + Up(prev)
  {
    var t := Transition(callbacks, prev, curr);
    if t != [] {
      assert t[1..] == [];
    }
  }

  /**
   * Over any sequence of runs in which `onConnect` is set, `onDisconnect` fires
   * at most as often as `onConnect` (plus one when the watcher started from a
   * connected snapshot, minus one when it ends connected).
   */
  lemma {:induction false} DisconnectsNeverOutrunConnects(prev: Option<Account>, changes: seq<Change>)
    requires forall i :: 0 <= i < |changes| ==> changes[i].callbacks.onConnect
    ensures Disconnects(Trace(prev, changes)) + Up(Final(prev, changes))
         <= Connects(Trace(prev, changes)) + Up(prev)
    decreases |changes|
  {
    if changes != [] {
      var head, rest := changes[0], changes[1..];
      var t := Transition(head.callbacks, prev, head.account);
      StepBalance(head.callbacks, prev, head.account);
      DisconnectsNeverOutrunConnects(Some(head.account), rest);
      CountsAppend(t, Trace(Some(head.account), rest));
      assert Final(prev, changes) == Final(Some(head.account), rest);
    }
  }

  /** The watcher created by `useAccount`. */
  class Watcher {
    /** The `account` ref, overwritten by the `watchAccount` subscription. */
    var account: Account
    /** The `previousAccount` ref; absent until the first run. */
    var previous: Option<Account>
    /** Whether the `watchAccount` subscription is still active. */
    var subscribed: bool
    /** Every callback invocation so far, in order. */
    var fired: seq<Fired>
    /** The runs so far. */
    ghost var history: seq<Change>

    ghost predicate Valid()
      reads this
    {
      previous == Final(None, history) &&
      fired == Trace(None, history) &&
      (history != [] ==> previous == Some(account))
    }

    /** `useAccount` setup: read the current account and subscribe to changes. */
    constructor (initial: Account)
      ensures Valid()
      ensures account == initial && previous == None && subscribed && fired == [] && history == []
    {
      account := initial;
      previous := None;
      subscribed := true;
      fired := [];
      history := [];
    }

    /** `watchAccount` delivers a new account, and the watch callback runs once. */
    method Deliver(acc: Account, callbacks: Callbacks) returns (now: seq<Fired>)
      requires Valid()
      modifies this
      ensures Valid()
      ensures !old(subscribed) ==> now == [] && unchanged(this)
      ensures old(subscribed) ==>
        now == Transition(callbacks, old(previous), acc) &&
        account == acc && previous == Some(acc) && subscribed &&
        fired == old(fired) + now &&
        history == old(history) + [Change(callbacks, acc)]
    {
      now := [];
      if !subscribed {
        return;
      }
      account := acc;
      var prevStatus := PrevStatus(previous);
      if callbacks.onConnect && prevStatus != Some(Connected) && account.status == Connected {
        now := now + [ConnectFired(account.address, account.connector, prevStatus == Some(Reconnecting))];
      }
      if callbacks.onDisconnect && prevStatus == Some(Connected) && account.status == Disconnected {
        now := now + [DisconnectFired];
      }
      fired := fired + now;
      TraceSnoc(None, history, Change(callbacks, acc));
      previous := Some(account);
      history := history + [Change(callbacks, acc)];
    }

    /** `onScopeDispose`: release the `watchAccount` subscription. */
    method Dispose()
      requires Valid()
      modifies this
      ensures Valid()
      ensures !subscribed
      ensures account == old(account) && previous == old(previous) && fired == old(fired) && history == old(history)
    {
      subscribed := false;
    }
  }

  /**
   * Connect, disconnect, connect again with both callbacks set: `onConnect`
   * fires twice, neither time as a reconnection, and `onDisconnect` once between.
   */
  method ConnectDisconnectConnect(first: Account, gone: Account, second: Account) returns (log: seq<Fired>)
    requires first.status == Connected && gone.status == Disconnected && second.status == Connected
    ensures log == [ConnectFired(first.address, first.connector, false),
                    DisconnectFired,
                    ConnectFired(second.address, second.connector, false)]
  {
    var both := Callbacks(true, true);
    var w := new Watcher(gone);
    var a := w.Deliver(first, both);
    var b := w.Deliver(gone, both);
    var c := w.Deliver(second, both);
    log := w.fired;
  }

  /** After disposal no account change reaches the callbacks. */
  method NothingFiresAfterDispose(initial: Account, later: Account, callbacks: Callbacks) returns (now: seq<Fired>)
    ensures now == []
  {
    var w := new Watcher(initial);
    w.Dispose();
    now := w.Deliver(later, callbacks);
  }
}
