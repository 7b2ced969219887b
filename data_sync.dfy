/** The data synchronisation service: typed access to the browser's key-value
    store (`localStorage`) and a stream of "this key changed" announcements that
    combines the browser's cross-tab storage events with the application's own
    same-tab events. */
module DataSync {
  import opened Common

  /** What the store holds under a key, as `getItem` sees it: nothing usable
      (absent or empty), text that is not valid JSON, or a parsed value. */
  datatype Cell<V> = Blank | Corrupt | Json(value: V)

  /** The keys a subscriber to `onKeyUpdate(key)` receives from a stream of
      announcements: empty or missing keys are dropped, then only `key` passes. */
  function KeyStream(events: seq<Option<string>>, key: string): (r: seq<string>)
    ensures forall i :: 0 <= i < |r| ==> r[i] == key
    ensures key == "" ==> r == []
    ensures |r| <= |events|
  {
    if events == [] then []
    else
      var e := events[0];
      (if e.Some? && e.value != "" && e.value == key then [key] else []) + KeyStream(events[1..], key)
  }

  /** One more announcement reaches the subscribers of its own key, and only them. */
  lemma {:induction false} KeyStreamAppend(events: seq<Option<string>>, e: Option<string>, key: string)
    ensures KeyStream(events + [e], key)
         == KeyStream(events, key) + (if e == Some(key) && key != "" then [key] else [])
  {
    if events == [] {
      assert events + [e] == [e];
    } else {
      assert (events + [e])[1..] == events[1..] + [e];
      KeyStreamAppend(events[1..], e, key);
    }
  }

  /** A subscriber receives exactly as many announcements as there were for its key. */
  lemma {:induction false} KeyStreamCount(events: seq<Option<string>>, key: string)
    requires key != ""
    ensures |KeyStream(events, key)| == Count(events, (e: Option<string>) => e == Some(key))
  {
    if events != [] {
      KeyStreamCount(events[1..], key);
    }
  }

  /** The service. `items` is the key-value store and `events` the
      announcements delivered to the update stream so far (from this tab or
      another). Whether the browser accepts a write (a full quota rejects it)
      is decided anew for every write, so it is a parameter of `SetItem`. */
  class DataSyncService<V> {
    var items: map<string, Cell<V>>
    var events: seq<Option<string>>

    constructor(items: map<string, Cell<V>>)
      ensures this.items == items && events == []
    {
      this.items := items;
      events := [];
    }

    /** `getItem(key, defaultValue)`: the stored value, or the default when the
        key holds nothing usable or text that does not parse. */
    function GetItem(key: string, default: V): (r: V)
      reads this
      ensures key in items && items[key].Json? ==> r == items[key].value
      ensures !(key in items && items[key].Json?) ==> r == default
    {
      if key in items && items[key].Json? then items[key].value else default
    }

    /** Whether `getItem(key, …)` reports a parse failure to the logger. */
    predicate ParseFails(key: string)
      reads this
    {
      key in items && items[key].Corrupt?
    }

    /** The announcements a subscriber to `onKeyUpdate(key)` has received. */
    function OnKeyUpdate(key: string): (r: seq<string>)
      reads this
      ensures forall i :: 0 <= i < |r| ==> r[i] == key
    {
      KeyStream(events, key)
    }

    /** What `setItem(key, value)` leaves behind: when the browser accepts
        the write, the new value under `key` and one announcement of `key`;
        otherwise (the failure is only logged) nothing changes. */
    twostate predicate Wrote(key: string, value: V, accepted: bool)
      reads this
    {
      && (accepted ==> items == old(items)[key := Json(value)] && events == old(events) + [Some(key)])
      && (!accepted ==> items == old(items) && events == old(events))
    }

    /** `notifyUpdate(key)`: announce a same-tab change of `key`. */
    method NotifyUpdate(key: string)
      modifies this`events
      ensures events == old(events) + [Some(key)]
    {
      events := events + [Some(key)];
    }

    /** A storage event from another tab; the browser reports a missing key
        when that tab cleared the whole store. */
    method ReceiveStorageEvent(key: Option<string>)
      modifies this`events
      ensures events == old(events) + [key]
    {
      events := events + [key];
    }

    /** `setItem(key, value)`; `accepted` is the browser's answer to this write. */
    method SetItem(key: string, value: V, accepted: bool)
      modifies this`items, this`events
      ensures Wrote(key, value, accepted)
      ensures accepted ==> forall d :: GetItem(key, d) == value
      ensures accepted ==> OnKeyUpdate(key) == old(OnKeyUpdate(key)) + (if key != "" then [key] else [])
    {
      if accepted {
        items := items[key := Json(value)];
        KeyStreamAppend(events, Some(key), key);
        NotifyUpdate(key);
      }
    }
  }
}
