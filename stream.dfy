/** `StreamManager` (models.py:102-176): routes each server-sent event of a
    managed device to the handler for its event name and then to every
    observer callback.  The SSE connection and its thread are not modelled;
    an event arrives with its JSON envelope already decoded, and what a call
    does is recorded as a trace of effects: calls of the log function and
    calls of the callbacks. */
module Stream {
  import opened PyTypes
  import opened OrderedDict
  import opened PyStr
  import opened Devices
  import opened InfluxLog

  /** A server-sent event: its name (`event.event`) and its decoded `data`
      envelope, which carries `coreid`, `data` and `published_at`. */
  datatype Event = Event(name: string, envelope: map<string, string>)

  /** An observer registered in the `callbacks` list, known by its name. */
  datatype Callback = Callback(name: string)

  datatype Effect =
    | LogCall(data: Dict, tags: Tags)        // log_function(data, log_credentials, tags)
    | Notify(callback: Callback, event: Event) // callback(event)

  /** The three handler methods of `event_handlers`. */
  datatype Handler = HandleLog | HandleError | HandleData

  /** `event_handlers = dict(LOG=..., ERROR=..., DATA=...)`. */
  function EventHandlers(name: string): (h: Option<Handler>)
    ensures h == Some(HandleLog) <==> name == "LOG"
    ensures h == Some(HandleError) <==> name == "ERROR"
    ensures h == Some(HandleData) <==> name == "DATA"
  {
    if name == "LOG" then Some(HandleLog)
    else if name == "ERROR" then Some(HandleError)
    else if name == "DATA" then Some(HandleData)
    else None
  }

  /** The `subscribed_events` a stream manager gets when none are passed. */
  const DefaultSubscribedEvents: seq<string> := ["LOG", "DATA", "ERROR"]

  /** `log_dest` selects the log function: `None` turns database logging off,
      a name of `log_functions` turns it on, any other name raises `KeyError`. */
  function SelectLogFunction(logDest: Option<string>): (r: Result<Option<LogFunction>, PyError>)
    ensures logDest.None? ==> r == Ok(None)
    ensures logDest.Some? && logDest.value in LogFunctions ==> r == Ok(Some(LogFunctions[logDest.value]))
    ensures logDest.Some? && logDest.value !in LogFunctions ==> r == Err(KeyError(logDest.value))
  {
    match logDest
    case None => Ok(None)
    case Some(dest) => if dest in LogFunctions then Ok(Some(LogFunctions[dest])) else Err(KeyError(dest))
  }

  /** `db_logging` holds exactly when a `log_dest` was given and accepted. */
  lemma DbLoggingIffLogDest(logDest: Option<string>)
    ensures SelectLogFunction(logDest).Ok? <==> logDest.None? || logDest == Some("influx")
    ensures SelectLogFunction(logDest).Ok? ==> (SelectLogFunction(logDest).value.Some? <==> logDest.Some?)
  {
  }

  /** Every piece can be indexed at 0 and 1. */
  predicate AllPairs(pieces: seq<string>)
  {
    forall i :: 0 <= i < |pieces| ==> |pieces[i]| >= 2
  }

  /** `{pair[0]: pair[1] for pair in pieces}`: each piece is keyed by its
      first character and valued by its second; a later piece overwrites an
      earlier one with the same first character. */
  function PairsDict(pieces: seq<string>): (d: Dict)
    requires AllPairs(pieces)
    ensures |d| <= |pieces|
    ensures forall e :: e in d ==> exists p :: p in pieces && |p| >= 2 && e == ([p[0]], Str([p[1]]))
  {
    if |pieces| == 0 then []
    else
      var p := pieces[|pieces| - 1];
      assert forall q :: q in pieces[..|pieces| - 1] ==> q in pieces;
      Insert(PairsDict(pieces[..|pieces| - 1]), [p[0]], Str([p[1]]))
  }

  /** The comprehension's dict has an entry exactly for each first character,
      valued by the second character of the last piece with that first
      character; its keys are distinct one-character strings. */
  lemma {:induction false} PairsDictLookup(pieces: seq<string>, k: string)
    requires AllPairs(pieces)
    ensures Lookup(PairsDict(pieces), k).Some? <==> exists i :: 0 <= i < |pieces| && [pieces[i][0]] == k
    ensures forall i :: 0 <= i < |pieces| && [pieces[i][0]] == k &&
                        (forall j :: i < j < |pieces| ==> [pieces[j][0]] != k) ==>
              Lookup(PairsDict(pieces), k) == Some(Str([pieces[i][1]]))
  {
    if |pieces| > 0 {
      var n := |pieces| - 1;
      var earlier := pieces[..n];
      var p := pieces[n];
      PairsDictLookup(earlier, k);
      InsertLookup(PairsDict(earlier), [p[0]], Str([p[1]]), k);
      assert forall i :: 0 <= i < n ==> earlier[i] == pieces[i];
      if [p[0]] != k {
        forall i | 0 <= i < |pieces| && [pieces[i][0]] == k &&
                   (forall j :: i < j < |pieces| ==> [pieces[j][0]] != k)
          ensures Lookup(PairsDict(pieces), k) == Some(Str([pieces[i][1]]))
        {
          assert i < n;
          assert earlier[i] == pieces[i];
        }
      }
    }
  }

  /** Every key of the comprehension's dict is one character long, and no key repeats. */
  lemma {:induction false} PairsDictKeys(pieces: seq<string>)
    requires AllPairs(pieces)
    ensures DistinctKeys(PairsDict(pieces))
    ensures forall k :: k in Keys(PairsDict(pieces)) ==> |k| == 1
  {
    if |pieces| > 0 {
      var n := |pieces| - 1;
      var p := pieces[n];
      var d := PairsDict(pieces[..n]);
      PairsDictKeys(pieces[..n]);
      InsertDistinct(d, [p[0]], Str([p[1]]));
      InsertKeys(d, [p[0]], Str([p[1]]));
    }
  }

  /** `_handle_data`'s dict: the comprehension over `data['data'].split(",")`
      followed by `device_data['timestamp'] = data['published_at']`. */
  function DataPayload(envelope: map<string, string>): (r: Result<Dict, PyError>)
    ensures "data" !in envelope ==> r == Err(KeyError("data"))
    ensures "data" in envelope && !AllPairs(Split(envelope["data"], ',')) ==> r == Err(IndexError)
    ensures "data" in envelope && AllPairs(Split(envelope["data"], ',')) && "published_at" !in envelope ==>
              r == Err(KeyError("published_at"))
    ensures r.Ok? <==> "data" in envelope && AllPairs(Split(envelope["data"], ',')) && "published_at" in envelope
    ensures r.Err? ==> r.error in {KeyError("data"), IndexError, KeyError("published_at")}
  {
    if "data" !in envelope then Err(KeyError("data"))
    else
      var pieces := Split(envelope["data"], ',');
      if !AllPairs(pieces) then Err(IndexError)
      else if "published_at" !in envelope then Err(KeyError("published_at"))
      else Ok(Insert(PairsDict(pieces), "timestamp", Str(envelope["published_at"])))
  }

  /** The DATA dict is the comprehension's dict with one more entry at the
      end, `timestamp`, holding `published_at`: no one-character key can
      collide with it. */
  lemma DataPayloadTimestamp(envelope: map<string, string>)
    requires DataPayload(envelope).Ok?
    ensures DataPayload(envelope).value ==
              PairsDict(Split(envelope["data"], ',')) + [("timestamp", Str(envelope["published_at"]))]
    ensures Lookup(DataPayload(envelope).value, "timestamp") == Some(Str(envelope["published_at"]))
    ensures DistinctKeys(DataPayload(envelope).value)
  {
    var pieces := Split(envelope["data"], ',');
    var d := PairsDict(pieces);
    var v := Str(envelope["published_at"]);
    PairsDictKeys(pieces);
    InsertKeys(d, "timestamp", v);
    InsertLookup(d, "timestamp", v, "timestamp");
    InsertDistinct(d, "timestamp", v);
    assert "timestamp" !in Keys(d);
    AppendWhenAbsent(d, "timestamp", v);
  }

  /** `d[k] = v` for a new key appends the entry. */
  lemma {:induction false} AppendWhenAbsent(d: Dict, k: string, v: Value)
    requires k !in Keys(d)
    ensures Insert(d, k, v) == d + [(k, v)]
  {
    if |d| > 0 {
      assert Keys(d) == [d[0].0] + Keys(d[1..]);
      AppendWhenAbsent(d[1..], k, v);
      assert [d[0]] + (d[1..] + [(k, v)]) == d + [(k, v)];
    }
  }

  /** The DATA payload is parsed as written: on "temp=21,hum=55" each key is
      one character and each value the character after it, so the pairs are
      {"t": "e", "h": "u"}, not {"temp": "21", "hum": "55"} (the timestamp is
      then appended, by DataPayloadTimestamp). */
  lemma DataPayloadExample()
    ensures AllPairs(Split("temp=21,hum=55", ','))
    ensures PairsDict(Split("temp=21,hum=55", ',')) == [("t", Str("e")), ("h", Str("u"))]
  {
    SplitExample();
    PairsDictExample();
  }

  lemma SplitExample()
    ensures Split("temp=21,hum=55", ',') == ["temp=21", "hum=55"]
  {
    assert Join(["temp=21", "hum=55"], ',') == "temp=21,hum=55";
    SplitJoin(["temp=21", "hum=55"], ',');
  }

  lemma PairsDictExample()
    ensures AllPairs(["temp=21", "hum=55"])
    ensures PairsDict(["temp=21", "hum=55"]) == [("t", Str("e")), ("h", Str("u"))]
  {
    var pieces := ["temp=21", "hum=55"];
    assert pieces[..1] == ["temp=21"] && pieces[..1][..0] == [];
    var p0, p1 := pieces[0], pieces[1];
    assert [p0[0]] == "t" && [p0[1]] == "e" && [p1[0]] == "h" && [p1[1]] == "u";
    var d := [("t", Str("e"))];
    assert PairsDict(pieces[..1]) == Insert([], "t", Str("e")) == d;
    assert d[1..] == [];
    assert Insert(d, "h", Str("u")) == [("t", Str("e")), ("h", Str("u"))];
  }

  /** `_handle_data(data, device)`: the dict is built whether or not logging
      is on (so a malformed payload raises either way), and the log function
      is called once with it and the device's tags exactly when `db_logging`. */
  function HandleDataEffects(envelope: map<string, string>, tags: Tags, dbLogging: bool): (r: Result<seq<Effect>, PyError>)
    ensures r.Ok? <==> DataPayload(envelope).Ok?
    ensures r.Ok? ==> r.value == if dbLogging then [LogCall(DataPayload(envelope).value, tags)] else []
  {
    match DataPayload(envelope)
    case Err(e) => Err(e)
    case Ok(d) => Ok(if dbLogging then [LogCall(d, tags)] else [])
  }

  /** `_handle_log` and `_handle_error`: when `db_logging`, one call of the log
      function with the single-entry dict `{key: data['data']}` and the
      device's tags; otherwise nothing, not even the lookup of `data`. */
  function WrapPayloadEffects(key: string, envelope: map<string, string>, tags: Tags, dbLogging: bool): (r: Result<seq<Effect>, PyError>)
    ensures !dbLogging ==> r == Ok([])
    ensures dbLogging && "data" !in envelope ==> r == Err(KeyError("data"))
    ensures dbLogging && "data" in envelope ==>
              && r.Ok? && |r.value| == 1 && r.value[0].LogCall? && r.value[0].tags == tags
              && Keys(r.value[0].data) == [key]
              && Lookup(r.value[0].data, key) == Some(Str(envelope["data"]))
  {
    if !dbLogging then Ok([])
    else if "data" !in envelope then Err(KeyError("data"))
    else Ok([LogCall([(key, Str(envelope["data"]))], tags)])
  }

  /** What the handler chosen for an event does. */
  function RunHandler(h: Handler, envelope: map<string, string>, tags: Tags, dbLogging: bool)
    : (r: Result<seq<Effect>, PyError>)
    ensures r.Ok? ==> |r.value| <= 1
    ensures r.Ok? && |r.value| == 1 ==> dbLogging && r.value[0].LogCall? && r.value[0].tags == tags
    ensures !dbLogging && h != HandleData ==> r == Ok([])
  {
    match h
    case HandleLog => WrapPayloadEffects("LOG", envelope, tags, dbLogging)
    case HandleError => WrapPayloadEffects("ERROR", envelope, tags, dbLogging)
    case HandleData => HandleDataEffects(envelope, tags, dbLogging)
  }

  /** `for callback in self.callbacks: callback(event)`. */
  function Notifications(callbacks: seq<Callback>, ev: Event): (calls: seq<Effect>)
    ensures |calls| == |callbacks|
  {
    if |callbacks| == 0 then []
    else Notifications(callbacks[..|callbacks| - 1], ev) + [Notify(callbacks[|callbacks| - 1], ev)]
  }

  /** Every callback is called once with the raw event, in list order. */
  lemma {:induction false} NotificationsInOrder(callbacks: seq<Callback>, ev: Event)
    ensures forall i :: 0 <= i < |callbacks| ==> Notifications(callbacks, ev)[i] == Notify(callbacks[i], ev)
  {
    if |callbacks| > 0 {
      var n := |callbacks| - 1;
      NotificationsInOrder(callbacks[..n], ev);
      assert forall i :: 0 <= i < n ==> callbacks[..n][i] == callbacks[i];
    }
  }

  /** `_handle_msg(event)` over the managed devices' tag maps (`None` when
      `managed_devices` is `None`): `event_data['coreid']` is read first,
      then `managed_devices.keys()`; an event of an unmanaged device or of an
      unsubscribed name does nothing; otherwise exactly one handler runs and,
      if it returns, every callback is called. */
  function Dispatch(ev: Event, managed: Option<map<string, Tags>>, subscribed: seq<string>,
                    dbLogging: bool, callbacks: seq<Callback>): (r: Result<seq<Effect>, PyError>)
    ensures "coreid" !in ev.envelope ==> r == Err(KeyError("coreid"))
    ensures "coreid" in ev.envelope && managed.None? ==> r == Err(AttributeError)
    ensures r.Ok? && r.value != [] ==>
              managed.Some? && ev.envelope["coreid"] in managed.value && ev.name in subscribed
    ensures r.Ok? && r.value != [] ==>
              && |callbacks| <= |r.value| <= |callbacks| + 1
              && r.value[|r.value| - |callbacks|..] == Notifications(callbacks, ev)
    ensures r.Ok? && |r.value| == |callbacks| + 1 ==>
              && managed.Some? && ev.envelope["coreid"] in managed.value
              && r.value[0].LogCall? && r.value[0].tags == managed.value[ev.envelope["coreid"]]
  {
    if "coreid" !in ev.envelope then Err(KeyError("coreid"))
    else if managed.None? then Err(AttributeError)
    else
      var id := ev.envelope["coreid"];
      if !(id in managed.value && ev.name in subscribed) then Ok([])
      else match EventHandlers(ev.name)
        case None => Err(KeyError(ev.name))
        case Some(h) =>
          match RunHandler(h, ev.envelope, managed.value[id], dbLogging)
          case Err(e) => Err(e)
          case Ok(effects) =>
            var calls := Notifications(callbacks, ev);
            assert (effects + calls)[|effects|..] == calls;
            Ok(effects + calls)
  }

  /** An event whose device is not managed, or whose name is not subscribed,
      calls neither the log function nor any callback. */
  lemma DispatchFiltered(ev: Event, managed: map<string, Tags>, subscribed: seq<string>,
                         dbLogging: bool, callbacks: seq<Callback>)
    requires "coreid" in ev.envelope
    requires ev.envelope["coreid"] !in managed || ev.name !in subscribed
    ensures Dispatch(ev, Some(managed), subscribed, dbLogging, callbacks) == Ok([])
  {
  }

  /** Under the default subscription an accepted event reaches exactly one
      handler, the one its name selects, and afterwards every callback once,
      in order; no error other than the handler's own can arise. */
  lemma {:induction false} DispatchAccepted(ev: Event, managed: map<string, Tags>, dbLogging: bool,
                                            callbacks: seq<Callback>)
    requires "coreid" in ev.envelope
    requires ev.envelope["coreid"] in managed && ev.name in DefaultSubscribedEvents
    ensures EventHandlers(ev.name).Some?
    ensures var out := RunHandler(EventHandlers(ev.name).value, ev.envelope, managed[ev.envelope["coreid"]], dbLogging);
            Dispatch(ev, Some(managed), DefaultSubscribedEvents, dbLogging, callbacks)
            == if out.Err? then Err(out.error) else Ok(out.value + Notifications(callbacks, ev))
    ensures var r := Dispatch(ev, Some(managed), DefaultSubscribedEvents, dbLogging, callbacks);
            r.Ok? ==> |r.value| == (if dbLogging then 1 else 0) + |callbacks|
                      && forall i :: 0 <= i < |callbacks| ==>
                           r.value[|r.value| - |callbacks| + i] == Notify(callbacks[i], ev)
  {
    NotificationsInOrder(callbacks, ev);
    var h := EventHandlers(ev.name).value;
    var tags := managed[ev.envelope["coreid"]];
    var out := RunHandler(h, ev.envelope, tags, dbLogging);
    var r := Dispatch(ev, Some(managed), DefaultSubscribedEvents, dbLogging, callbacks);
    assert r == if out.Err? then Err(out.error) else Ok(out.value + Notifications(callbacks, ev));
    if out.Ok? {
      assert |out.value| == if dbLogging then 1 else 0 by {
        match h
        case HandleData =>
        case HandleLog =>
        case HandleError =>
      }
      assert r.value[|r.value| - |callbacks|..] == Notifications(callbacks, ev);
    }
  }

  /** A DATA event of a managed device, with logging on, logs the parsed
      payload with the device's tags: one entry per first character, valued
      by the last piece's second character, then the timestamp. */
  lemma DispatchData(ev: Event, managed: map<string, Tags>, callbacks: seq<Callback>)
    requires "coreid" in ev.envelope && ev.envelope["coreid"] in managed && ev.name == "DATA"
    requires DataPayload(ev.envelope).Ok?
    ensures Dispatch(ev, Some(managed), DefaultSubscribedEvents, true, callbacks)
            == Ok([LogCall(PairsDict(Split(ev.envelope["data"], ',')) + [("timestamp", Str(ev.envelope["published_at"]))],
                           managed[ev.envelope["coreid"]])]
                  + Notifications(callbacks, ev))
  {
    DataPayloadTimestamp(ev.envelope);
  }

  class StreamManager {
    const callbacks: seq<Callback>
    var managedDevices: DeviceDict?
    const subscribedEvents: seq<string>
    const logFunction: Option<LogFunction>
    const dbLogging: bool

    /** `StreamManager.__init__` with the default subscription; the stream
        thread is created but not modelled.  An unknown `log_dest` raises
        `KeyError` before any manager exists. */
    constructor (callbacks: seq<Callback>, logDest: Option<string>, managedDevices: DeviceDict?)
      requires SelectLogFunction(logDest).Ok?
      ensures this.callbacks == callbacks && this.managedDevices == managedDevices
      ensures subscribedEvents == DefaultSubscribedEvents
      ensures logFunction == SelectLogFunction(logDest).value
      ensures dbLogging <==> logDest.Some?
    {
      this.callbacks := callbacks;
      this.managedDevices := managedDevices;
      subscribedEvents := DefaultSubscribedEvents;
      logFunction := SelectLogFunction(logDest).value;
      dbLogging := logDest.Some?;
    }

    /** The tag map of each managed device, or `None` when there is no dict. */
    function ManagedTags(): (view: Option<map<string, Tags>>)
      reads this, managedDevices, if managedDevices == null then {} else managedDevices.entries.Values
    {
      TagsOf(managedDevices)
    }

    /** `_handle_msg(event)`. */
    method HandleMsg(ev: Event) returns (r: Result<seq<Effect>, PyError>)
      ensures r == Dispatch(ev, ManagedTags(), subscribedEvents, dbLogging, callbacks)
    {
      if "coreid" !in ev.envelope {
        return Err(KeyError("coreid"));
      }
      if managedDevices == null {
        return Err(AttributeError);
      }
      var id := ev.envelope["coreid"];
      if !(id in managedDevices.entries && ev.name in subscribedEvents) {
        return Ok([]);
      }
      var device := managedDevices.entries[id];
      var handler := EventHandlers(ev.name);
      if handler.None? {
        return Err(KeyError(ev.name));
      }
      var out := RunHandler(handler.value, ev.envelope, device.tags, dbLogging);
      if out.Err? {
        return Err(out.error);
      }
      var trace := out.value;
      for i := 0 to |callbacks|
        invariant trace == out.value + Notifications(callbacks[..i], ev)
      {
        assert callbacks[..i + 1][..i] == callbacks[..i];
        trace := trace + [Notify(callbacks[i], ev)];
      }
      assert callbacks[..|callbacks|] == callbacks;
      r := Ok(trace);
    }
  }
}
