/**
 * The server's publish/subscribe registry: a map from channel names to the list of
 * callbacks subscribed to each channel, changed in place by `subscribe` and
 * `unsubscribe`, and walked by `publish`.
 *
 * Callbacks are JavaScript functions, compared by identity, so a callback is its
 * identity here. What a callback does when called is not modelled: `publish`
 * returns the calls it makes, in order.
 */
module PubSub {
  import opened Wrappers
  import opened JsValue

  /** A subscribed function, by identity. */
  type Callback = nat

  type Channels = map<string, seq<Callback>>

  /** The handle `subscribe` returns: `[channel, callback]`. */
  datatype Handle = Handle(channel: string, callback: Callback)

  /** One call `publish` makes: the callback, its `this`, and its single argument. */
  datatype Call = Call(callback: Callback, self: JsVal, msg: JsVal)

  /** No channel is kept with an empty list: the last unsubscribe deletes the channel. */
  predicate NoEmptyChannel(channels: Channels) {
    forall c :: c in channels ==> channels[c] != []
  }

  /** The channels after `subscribe(channel, callback)`: the callback is appended, the list created if absent. */
  function Subscribed(channels: Channels, channel: string, callback: Callback): (r: Channels)
    ensures r.Keys == channels.Keys + {channel}
    ensures r[channel] == (if channel in channels then channels[channel] else []) + [callback]
    ensures forall c :: c in channels && c != channel ==> r[c] == channels[c]
  {
    channels[channel := (if channel in channels then channels[channel] else []) + [callback]]
  }

  // ---------------------------------------------------------------------------
  // Array.prototype.splice
  // ---------------------------------------------------------------------------

  /** ToIntegerOrInfinity of a number (section 7.1.5 of ECMA-262), with the infinities as None. */
  function ToIntegerOrInfinity(n: JsNumber): Option<int> {
    match n
    case NaN => Some(0)
    case PosInf => None
    case NegInf => None
    case Finite(r) => Some(Truncate(r))
  }

  /** The index `splice(start, ...)` starts at, for a list of length `len` (section 23.1.3.31 of ECMA-262). */
  function SpliceStart(start: JsVal, len: nat): (k: nat)
    ensures k <= len
  {
    var n := ToNumber(start);
    if n.PosInf? then len
    else if n.NegInf? then 0
    else
      var rel := ToIntegerOrInfinity(n).value;
      if rel < 0 then (if len + rel < 0 then 0 else len + rel)
      else if rel > len then len
      else rel
  }

  /**
   * `list.splice(start, count)` on the list: the list without the removed elements, at most
   * `count` of them from `start` on, fewer when the list ends first.
   */
  function Splice(list: seq<Callback>, start: nat, count: nat): (r: seq<Callback>)
    requires start <= |list|
    ensures var removed := if start + count <= |list| then count else |list| - start;
      |r| == |list| - removed
      && (forall i :: 0 <= i < start ==> r[i] == list[i])
      && (forall i :: start <= i < |r| ==> r[i] == list[i + removed])
  {
    list[..start] + list[if start + count <= |list| then start + count else |list|..]
  }

  /** A function passed as splice's start converts to NaN, and so to index 0. */
  lemma SpliceStartOfFunction(f: nat, len: nat)
    ensures SpliceStart(Function(f), len) == 0
  {
  }

  // ---------------------------------------------------------------------------
  // unsubscribe
  // ---------------------------------------------------------------------------

  /**
   * The channels and the return value of `unsubscribe(handle)` as written: when the channel
   * holds the callback, `splice` is passed the callback itself instead of its index, and the
   * number of callbacks left is returned (the channel deleted when none is left); otherwise
   * nothing changes and the result is undefined (None).
   */
  function Unsubscribed(channels: Channels, handle: Handle): (r: (Channels, Option<nat>))
  {
    if handle.channel !in channels then (channels, None)
    else
      var list := channels[handle.channel];
      if handle.callback !in list then (channels, None)
      else
        var rest := Splice(list, SpliceStart(Function(handle.callback), |list|), 1);
        (if rest == [] then channels - {handle.channel} else channels[handle.channel := rest], Some(|rest|))
  }

  /**
   * As written, unsubscribing a present callback removes exactly one entry, the first of its
   * channel, and returns how many are left; the channel goes when none is left, and every
   * other channel is unchanged.
   */
  lemma UnsubscribedRemovesFirst(channels: Channels, handle: Handle)
    requires handle.channel in channels && handle.callback in channels[handle.channel]
    ensures var (r, n) := Unsubscribed(channels, handle);
      var rest := channels[handle.channel][1..];
      n == Some(|rest|)
      && (rest == [] ==> r == channels - {handle.channel})
      && (rest != [] ==> r == channels[handle.channel := rest])
  {
    var list := channels[handle.channel];
    SpliceStartOfFunction(handle.callback, |list|);
    assert Splice(list, 0, 1) == list[1..];
  }

  /** An unknown channel, or a callback the channel does not hold, changes nothing and returns undefined. */
  lemma UnsubscribedAbsent(channels: Channels, handle: Handle)
    requires handle.channel !in channels || handle.callback !in channels[handle.channel]
    ensures Unsubscribed(channels, handle) == (channels, None)
  {
  }

  /** Unsubscribing keeps every other channel as it was, and never leaves an empty channel behind. */
  lemma UnsubscribedFrame(channels: Channels, handle: Handle)
    requires NoEmptyChannel(channels)
    ensures var r := Unsubscribed(channels, handle).0;
      NoEmptyChannel(r) && r.Keys <= channels.Keys
      && forall c :: c in channels && c != handle.channel ==> c in r && r[c] == channels[c]
  {
  }

  /** Subscribing callbacks 1 and 2, then unsubscribing 2, leaves 2 subscribed and 1 not. */
  lemma UnsubscribeRemovesWrongCallback()
    ensures var subscribed := Subscribed(Subscribed(map[], "packets", 1), "packets", 2);
      Unsubscribed(subscribed, Handle("packets", 2)) == (map["packets" := [2]], Some(1))
  {
    var one := Subscribed(map[], "packets", 1);
    assert [] + [1] == [1];
    assert one == map["packets" := [1]];
    var subscribed := Subscribed(one, "packets", 2);
    assert [1] + [2] == [1, 2];
    assert subscribed == map["packets" := [1, 2]];
    SpliceStartOfFunction(2, 2);
    assert Splice([1, 2], 0, 1) == [2];
    assert map["packets" := [1, 2]]["packets" := [2]] == map["packets" := [2]];
  }

  /** Index of the first entry equal to `x`. */
  function IndexOf(list: seq<Callback>, x: Callback): (i: nat)
    requires x in list
    ensures i < |list| && list[i] == x && x !in list[..i]
  {
    if list[0] == x then 0 else 1 + IndexOf(list[1..], x)
  }

  /** `unsubscribe` as evidently intended: the matched entry itself is spliced out. */
  function UnsubscribedCorrected(channels: Channels, handle: Handle): (r: (Channels, Option<nat>))
  {
    if handle.channel !in channels then (channels, None)
    else
      var list := channels[handle.channel];
      if handle.callback !in list then (channels, None)
      else
        var rest := Splice(list, IndexOf(list, handle.callback), 1);
        (if rest == [] then channels - {handle.channel} else channels[handle.channel := rest], Some(|rest|))
  }

  /**
   * With the correction, unsubscribing removes one occurrence of the handle's callback and
   * nothing else: the other callbacks stay, in their order.
   */
  lemma CorrectedRemovesOwnCallback(channels: Channels, handle: Handle)
    requires handle.channel in channels && handle.callback in channels[handle.channel]
    ensures var (r, n) := UnsubscribedCorrected(channels, handle);
      var list := channels[handle.channel];
      var i := IndexOf(list, handle.callback);
      var rest := list[..i] + list[i + 1..];
      n == Some(|list| - 1)
      && multiset(rest) + multiset{handle.callback} == multiset(list)
      && (rest == [] ==> r == channels - {handle.channel})
      && (rest != [] ==> r == channels[handle.channel := rest])
  {
    var list := channels[handle.channel];
    var i := IndexOf(list, handle.callback);
    assert list == list[..i] + [list[i]] + list[i + 1..];
  }

  /** With the correction, subscribing a new callback and then unsubscribing it restores the registry. */
  lemma CorrectedSubscribeUnsubscribe(channels: Channels, channel: string, callback: Callback)
    requires NoEmptyChannel(channels)
    requires channel !in channels || callback !in channels[channel]
    ensures UnsubscribedCorrected(Subscribed(channels, channel, callback), Handle(channel, callback))
         == (channels, Some(if channel in channels then |channels[channel]| else 0))
  {
    var before := if channel in channels then channels[channel] else [];
    var list := before + [callback];
    assert list[|before|] == callback;
    assert callback !in before;
    assert list[..|before|] == before;
    assert IndexOf(list, callback) == |before|;
    assert Splice(list, |before|, 1) == before;
    var subscribed := Subscribed(channels, channel, callback);
    if channel in channels {
      assert subscribed[channel := before] == channels;
    } else {
      assert subscribed - {channel} == channels;
    }
  }

  /** The corrected registry keeps callback 1 in the example where the code as written drops it. */
  lemma CorrectedKeepsOtherCallback()
    ensures var subscribed := Subscribed(Subscribed(map[], "packets", 1), "packets", 2);
      UnsubscribedCorrected(subscribed, Handle("packets", 2)) == (map["packets" := [1]], Some(1))
  {
    var one := Subscribed(map[], "packets", 1);
    assert [] + [1] == [1];
    assert one == map["packets" := [1]];
    var subscribed := Subscribed(one, "packets", 2);
    assert [1] + [2] == [1, 2];
    assert subscribed == map["packets" := [1, 2]];
    assert 2 in subscribed["packets"];
    assert IndexOf([1, 2], 2) == 1;
    assert Splice([1, 2], 1, 1) == [1];
    assert subscribed["packets" := [1]] == map["packets" := [1]];
  }

  // ---------------------------------------------------------------------------
  // The registry
  // ---------------------------------------------------------------------------

  /** The module-level `channels` object and the three operations over it. */
  class Registry {
    var channels: Channels

    ghost predicate Valid()
      reads this
    {
      NoEmptyChannel(channels)
    }

    constructor ()
      ensures Valid() && channels == map[]
    {
      channels := map[];
    }

    /** `subscribe(channel, callback)`. */
    method Subscribe(channel: string, callback: Callback) returns (handle: Handle)
      requires Valid()
      modifies this
      ensures Valid()
      ensures channels == Subscribed(old(channels), channel, callback)
      ensures handle == Handle(channel, callback)
    {
      if channel !in channels {
        channels := channels[channel := []];
      }
      channels := channels[channel := channels[channel] + [callback]];
      handle := Handle(channel, callback);
    }

    /** `unsubscribe(handle)`, as written: the search loop, then the splice at the callback's coerced value. */
    method Unsubscribe(handle: Handle) returns (n: Option<nat>)
      requires Valid()
      modifies this
      ensures Valid()
      ensures (channels, n) == Unsubscribed(old(channels), handle)
    {
      n := None;
      if handle.channel in channels {
        var list := channels[handle.channel];
        var i := 0;
        while i < |list|
          invariant 0 <= i <= |list|
          invariant handle.callback !in list[..i]
          invariant channels == old(channels) && n == None
        {
          if list[i] == handle.callback {
            var rest := Splice(list, SpliceStart(Function(handle.callback), |list|), 1);
            n := Some(|rest|);
            if rest == [] {
              channels := channels - {handle.channel};
            } else {
              channels := channels[handle.channel := rest];
            }
            return;
          }
          assert list[..i + 1] == list[..i] + [list[i]];
          i := i + 1;
        }
        assert list[..i] == list;
      }
    }

    /** `publish(channel, msg, self)`: every callback of the channel, once each, in subscription order. */
    method Publish(channel: string, msg: JsVal, self: JsVal) returns (calls: seq<Call>)
      ensures channel !in channels ==> calls == []
      ensures channel in channels ==>
        |calls| == |channels[channel]|
        && forall i :: 0 <= i < |calls| ==> calls[i] == Call(channels[channel][i], self, msg)
    {
      calls := [];
      if channel in channels {
        var list := channels[channel];
        var i := 0;
        while i < |list|
          invariant 0 <= i <= |list|
          invariant |calls| == i
          invariant forall j :: 0 <= j < i ==> calls[j] == Call(list[j], self, msg)
        {
          calls := calls + [Call(list[i], self, msg)];
          i := i + 1;
        }
      }
    }
  }
}

/**
 * The older copy of the registry. `subscribe` and `publish` behave as the server's;
 * `unsubscribe` reads the undeclared `callback_list` as soon as the channel exists.
 */
module PubSubLegacy {
  import opened Wrappers
  import opened JsValue
  import PubSub

  const CallbackListUndefined: string := "ReferenceError: callback_list is not defined"

  /** `subscribe(channel, callback)` of the older copy: appends, creating the list if absent. */
  method Subscribe(registry: PubSub.Registry, channel: string, callback: PubSub.Callback) returns (handle: PubSub.Handle)
    requires registry.Valid()
    modifies registry
    ensures registry.Valid()
    ensures registry.channels == PubSub.Subscribed(old(registry.channels), channel, callback)
    ensures handle == PubSub.Handle(channel, callback)
  {
    handle := registry.Subscribe(channel, callback);
  }

  /** `publish(channel, msg)` of the older copy: the calls, with the module's `this`, in order. */
  method Publish(registry: PubSub.Registry, channel: string, msg: JsVal, self: JsVal) returns (calls: seq<PubSub.Call>)
    ensures channel !in registry.channels ==> calls == []
    ensures channel in registry.channels ==>
      |calls| == |registry.channels[channel]|
      && forall i :: 0 <= i < |calls| ==> calls[i] == PubSub.Call(registry.channels[channel][i], self, msg)
  {
    calls := registry.Publish(channel, msg, self);
  }

  /**
   * `unsubscribe(handle)` of the older copy: on an existing channel the loop test throws a
   * ReferenceError before anything changes; on an unknown channel it does nothing. It never
   * changes the registry.
   */
  method Unsubscribe(registry: PubSub.Registry, handle: PubSub.Handle) returns (r: Result<(), string>)
    ensures handle.channel in registry.channels <==> r == Failure(CallbackListUndefined)
    ensures handle.channel !in registry.channels <==> r == Success(())
  {
    if handle.channel in registry.channels {
      return Failure(CallbackListUndefined);
    }
    return Success(());
  }

  /**
   * The older `unsubscribe` as evidently intended, reading the channel's own list: the
   * matched callback is removed and the channel deleted when empty; nothing is returned.
   */
  function UnsubscribedCorrected(channels: PubSub.Channels, handle: PubSub.Handle): (r: PubSub.Channels)
    ensures handle.channel in channels && handle.callback in channels[handle.channel] ==>
      var list := channels[handle.channel];
      var i := PubSub.IndexOf(list, handle.callback);
      (list[..i] + list[i + 1..] == [] ==> r == channels - {handle.channel})
      && (list[..i] + list[i + 1..] != [] ==> r == channels[handle.channel := list[..i] + list[i + 1..]])
    ensures !(handle.channel in channels && handle.callback in channels[handle.channel]) ==> r == channels
  {
    if handle.channel in channels && handle.callback in channels[handle.channel] then
      PubSub.CorrectedRemovesOwnCallback(channels, handle);
      PubSub.UnsubscribedCorrected(channels, handle).0
    else
      channels
  }
}
