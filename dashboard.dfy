/** The monitor dashboard's store: the action creators of
    monitor/frontend/src/redux/actions.js, the transition function of
    reducer.js and the socket handlers of app.jsx that decode a pushed
    frame and dispatch it.

    State and actions are JavaScript objects, modelled as maps from
    property name to JSON value. */
module Dashboard {
  import opened Wrappers
  import opened Json

  // ---------------------------------------------------------------------
  // Action types

  const UPDATE_STATE := "UPDATE_STATE"
  const SOCKET_CONNECTED := "SOCKET_CONNECTED"
  const SOCKET_DISCONNECTED := "SOCKET_DISCONNECTED"
  /** Imported by the reducer but not exported by actions.js; given its own
      name here so that the reducer's branch for it can be reached. In the
      JavaScript that case compares against `undefined`, so no action with
      a string type reaches it. */
  const UPDATED_STREAM_SETTINGS := "UPDATED_STREAM_SETTINGS"

  type State = Obj
  type Action = Obj

  /** The five entity maps of the store and the connection flag. */
  const EntityKeys: set<string> := {"streams", "transcoders", "streamTranscoders", "streamSettings", "fanouts"}

  function InitialState(): (s: State)
    ensures s.Keys == EntityKeys + {"socketConnected"}
    ensures forall k :: k in EntityKeys ==> s[k] == JObj(map[])
    ensures s["socketConnected"] == JBool(false)
    ensures "type" !in s
  {
    map["streams" := JObj(map[]), "transcoders" := JObj(map[]), "streamTranscoders" := JObj(map[]),
        "streamSettings" := JObj(map[]), "fanouts" := JObj(map[]), "socketConnected" := JBool(false)]
  }

  // ---------------------------------------------------------------------
  // Object spread and property keys

  /** Decimal digits of `n`, as JavaScript prints an array index. */
  function Decimal(n: nat): (r: string)
    ensures r != []
    ensures forall i :: 0 <= i < |r| ==> '0' <= r[i] <= '9'
  {
    var d := ['0' + (n % 10) as char];
    if n < 10 then d else Decimal(n / 10) + d
  }

  /** The own enumerable properties that `{...v}` copies out of `v`: an
      object's fields, a string's characters or an array's elements under
      their decimal indices, and nothing for null, booleans and numbers. */
  function Spread(v: Value): (o: Obj)
    ensures v.JObj? ==> o == v.fields
    ensures v.JStr? ==> o.Keys == IndexKeys(|v.s|)
    ensures v.JArr? ==> o.Keys == IndexKeys(|v.items|)
    ensures v.JNull? || v.JBool? || v.JNum? ==> o == map[]
  {
    match v
    case JObj(f) => f
    case JStr(s) => Indexed(seq(|s|, i requires 0 <= i < |s| => JStr([s[i]])))
    case JArr(items) => Indexed(items)
    case _ => map[]
  }

  /** The keys "0" .. n-1 written in decimal. */
  function IndexKeys(n: nat): set<string>
  {
    set i | 0 <= i < n :: Decimal(i)
  }

  /** No index key is the property name `type`: index keys are digits. */
  lemma TypeNotAnIndex(n: nat)
    ensures "type" !in IndexKeys(n)
  {
    forall i | 0 <= i < n ensures Decimal(i) != "type" {
      assert Decimal(i)[0] != 't';
    }
  }

  lemma IndexKeysStep(n: nat)
    ensures IndexKeys(n + 1) == IndexKeys(n) + {Decimal(n)}
  {
    assert Decimal(n) in IndexKeys(n + 1);
  }

  /** The elements of `vals` under their decimal indices. */
  function Indexed(vals: seq<Value>): (o: Obj)
    ensures o.Keys == IndexKeys(|vals|)
    ensures forall i :: 0 <= i < |vals| ==> o[Decimal(i)] == vals[i]
  {
    if vals == [] then map[]
    else
      var n := |vals| - 1;
      var init := Indexed(vals[..n]);
      var o := init[Decimal(n) := vals[n]];
      forall i | 0 <= i < n ensures o[Decimal(i)] == vals[i] {
        if Decimal(i) == Decimal(n) { DecimalInjective(i, n); }
      }
      IndexKeysStep(n);
      o
  }

  /** The property key that `obj[v] = ...` uses: JavaScript's String(v),
      with `None` standing for `undefined`. */
  function ToKey(v: Option<Value>): string
  {
    match v
    case None => "undefined"
    case Some(x) => ValueKey(x)
  }

  function ValueKey(v: Value): string
    decreases v, 1
  {
    match v
    case JNull => "null"
    case JBool(b) => if b then "true" else "false"
    case JNum(n) => if n < 0 then "-" + Decimal(-n) else Decimal(n)
    case JStr(s) => s
    case JArr(items) => JoinElements(items, 0)
    case JObj(_) => "[object Object]"
  }

  /** Array.prototype.toString from index `i` on: the elements' keys joined
      by commas, with null elements printed as nothing. */
  function JoinElements(items: seq<Value>, i: nat): string
    requires i <= |items|
    decreases JArr(items), 0, |items| - i
  {
    if i == |items| then ""
    else
      assert items[i] in items;
      var first := if items[i] == JNull then "" else ValueKey(items[i]);
      if i == |items| - 1 then first else first + "," + JoinElements(items, i + 1)
  }

  /** Different indices spread to different keys. */
  lemma {:induction false} DecimalInjective(a: nat, b: nat)
    requires Decimal(a) == Decimal(b)
    ensures a == b
    decreases a
  {
    if a >= 10 && b >= 10 {
      var da := Decimal(a);
      assert da[..|da| - 1] == Decimal(a / 10);
      assert Decimal(b)[..|da| - 1] == Decimal(b / 10);
      DecimalInjective(a / 10, b / 10);
      assert da[|da| - 1] == '0' + (a % 10) as char;
    }
  }


  // ---------------------------------------------------------------------
  // Action creators (actions.js)

  /** updateState: `{type: UPDATE_STATE, ...update}`; a `type` property of
      the update is spread after the constant and so overrides it. */
  function UpdateStateAction(update: Value): (a: Action)
    ensures a.Keys == Spread(update).Keys + {"type"}
    ensures forall k :: k in Spread(update) ==> a[k] == Spread(update)[k]
    ensures "type" !in Spread(update) ==> a["type"] == JStr(UPDATE_STATE)
  {
    map["type" := JStr(UPDATE_STATE)] + Spread(update)
  }

  function SocketConnectedAction(): (a: Action)
    ensures a.Keys == {"type"} && a["type"] == JStr(SOCKET_CONNECTED)
  {
    map["type" := JStr(SOCKET_CONNECTED)]
  }

  function SocketDisconnectedAction(): (a: Action)
    ensures a.Keys == {"type"} && a["type"] == JStr(SOCKET_DISCONNECTED)
  {
    map["type" := JStr(SOCKET_DISCONNECTED)]
  }

  /** The action kinds the reducer tells apart are four distinct strings. */
  lemma ActionTypesDistinct()
    ensures UPDATE_STATE != SOCKET_CONNECTED && UPDATE_STATE != SOCKET_DISCONNECTED
    ensures SOCKET_CONNECTED != SOCKET_DISCONNECTED
    ensures UPDATED_STREAM_SETTINGS !in {UPDATE_STATE, SOCKET_CONNECTED, SOCKET_DISCONNECTED}
  {
    assert UPDATE_STATE[0] == 'U' && SOCKET_CONNECTED[0] == 'S';
    assert SOCKET_CONNECTED[7] == 'C' && SOCKET_DISCONNECTED[7] == 'D';
    assert UPDATED_STREAM_SETTINGS[7] == '_' && UPDATE_STATE[6] == '_';
  }

  // ---------------------------------------------------------------------
  // Transition function (reducer.js)

  /** What makes the reducer throw: iterating a `settings` property that is
      not an array, or reading `slug` of a null item. */
  datatype TypeError = SettingsNotIterable | NullItem

  /** The key an item of a settings list is filed under: String(item.slug). */
  function SlugKey(item: Value): string
    requires item != JNull
  {
    if item.JObj? && "slug" in item.fields then ValueKey(item.fields["slug"]) else ToKey(None)
  }

  /** `settings[item.slug] = item` for each item in order; the later of two
      items with the same key wins. */
  function SettingsBySlug(items: seq<Value>): (r: Result<Obj, TypeError>)
    ensures r.Err? <==> JNull in items
    ensures r.Ok? ==> r.value.Keys == set i | 0 <= i < |items| :: SlugKey(items[i])
  {
    if items == [] then Ok(map[])
    else
      var last := items[|items| - 1];
      var init := items[..|items| - 1];
      assert items == init + [last];
      match SettingsBySlug(init)
      case Err(e) => Err(e)
      case Ok(m) =>
        if last == JNull then Err(NullItem)
        else
          var r := m[SlugKey(last) := last];
          assert r.Keys == (set i | 0 <= i < |init| :: SlugKey(init[i])) + {SlugKey(last)};
          assert r.Keys == set i | 0 <= i < |items| :: SlugKey(items[i]) by {
            forall k | k in r.Keys ensures exists i :: 0 <= i < |items| && SlugKey(items[i]) == k {
              if k != SlugKey(last) {
                var i :| 0 <= i < |init| && SlugKey(init[i]) == k;
                assert items[i] == init[i];
              } else {
                assert items[|items| - 1] == last;
              }
            }
            forall i | 0 <= i < |items| ensures SlugKey(items[i]) in r.Keys {
              if i < |init| { assert items[i] == init[i]; }
            }
          }
          Ok(r)
  }

  /** The type property of an action, `None` when it has none. */
  function TypeOf(a: Action): Option<Value>
  {
    if "type" in a then Some(a["type"]) else None
  }

  /** reducer(state, action): a new state, or the TypeError it throws. */
  function Reduce(state: State, action: Action): (r: Result<State, TypeError>)
    // UPDATE_STATE: shallow top-level replace by every property but `type`
    ensures TypeOf(action) == Some(JStr(UPDATE_STATE)) ==>
      && r.Ok?
      && r.value.Keys == state.Keys + (action.Keys - {"type"})
      && (forall k :: k in action && k != "type" ==> r.value[k] == action[k])
      && (forall k :: k in state && (k !in action || k == "type") ==> r.value[k] == state[k])
    // SOCKET_CONNECTED / SOCKET_DISCONNECTED: only the flag changes
    ensures TypeOf(action) == Some(JStr(SOCKET_CONNECTED)) ==>
      r == Ok(state["socketConnected" := JBool(true)])
    ensures TypeOf(action) == Some(JStr(SOCKET_DISCONNECTED)) ==>
      r == Ok(state["socketConnected" := JBool(false)])
    // UPDATED_STREAM_SETTINGS: streamSettings replaced by a fresh map
    ensures TypeOf(action) == Some(JStr(UPDATED_STREAM_SETTINGS)) ==>
      (r.Err? <==> !("settings" in action && action["settings"].JArr? && JNull !in action["settings"].items))
    ensures TypeOf(action) == Some(JStr(UPDATED_STREAM_SETTINGS)) && r.Ok? ==>
      && r.value.Keys == state.Keys + {"streamSettings"}
      && (forall k :: k in state && k != "streamSettings" ==> r.value[k] == state[k])
      && r.value["streamSettings"].JObj?
      && r.value["streamSettings"].fields.Keys
         == set i | 0 <= i < |action["settings"].items| :: SlugKey(action["settings"].items[i])
    // any other action: the state itself
    ensures TypeOf(action) !in {Some(JStr(UPDATE_STATE)), Some(JStr(SOCKET_CONNECTED)),
                                Some(JStr(SOCKET_DISCONNECTED)), Some(JStr(UPDATED_STREAM_SETTINGS))} ==>
      r == Ok(state)
  {
    match TypeOf(action)
    case Some(JStr(t)) =>
      if t == UPDATE_STATE then Ok(state + (action - {"type"}))
      else if t == UPDATED_STREAM_SETTINGS then
        if "settings" in action && action["settings"].JArr? then
          match SettingsBySlug(action["settings"].items)
          case Ok(m) => Ok(state["streamSettings" := JObj(m)])
          case Err(e) => Err(e)
        else Err(SettingsNotIterable)
      else if t == SOCKET_CONNECTED then Ok(state["socketConnected" := JBool(true)])
      else if t == SOCKET_DISCONNECTED then Ok(state["socketConnected" := JBool(false)])
      else Ok(state)
    case _ => Ok(state)
  }

  /** For each key of the new streamSettings, the entry is the last item of
      the list filed under that key. */
  lemma {:induction false} SettingsLastWins(items: seq<Value>, k: string)
    requires JNull !in items
    requires k in SettingsBySlug(items).value
    ensures exists i :: 0 <= i < |items| && SlugKey(items[i]) == k
                        && SettingsBySlug(items).value[k] == items[i]
                        && forall j :: i < j < |items| ==> SlugKey(items[j]) != k
  {
    var last := items[|items| - 1];
    var init := items[..|items| - 1];
    assert items == init + [last];
    if SlugKey(last) == k {
      assert SlugKey(items[|items| - 1]) == k;
    } else {
      assert JNull !in init;
      SettingsLastWins(init, k);
      var i :| 0 <= i < |init| && SlugKey(init[i]) == k && SettingsBySlug(init).value[k] == init[i]
               && forall j :: i < j < |init| ==> SlugKey(init[j]) != k;
      assert items[i] == init[i];
      forall j | i < j < |items| ensures SlugKey(items[j]) != k {
        if j < |init| { assert items[j] == init[j]; }
      }
    }
  }

  /** The store never holds a `type` property: the reducer only ever copies
      the action's other properties into it. */
  lemma NoTypeKey(state: State, action: Action)
    requires "type" !in state
    requires Reduce(state, action).Ok?
    ensures "type" !in Reduce(state, action).value
  {
  }

  /** SOCKET_CONNECTED applied twice is SOCKET_CONNECTED applied once. */
  lemma ConnectedIdempotent(state: State)
    ensures Reduce(Reduce(state, SocketConnectedAction()).value, SocketConnectedAction())
         == Reduce(state, SocketConnectedAction())
  {
    var s1 := state["socketConnected" := JBool(true)];
    assert s1["socketConnected" := JBool(true)] == s1;
  }

  // ---------------------------------------------------------------------
  // Socket handlers (app.jsx)

  /** An inbound websocket frame: text, or anything else (a Blob or an
      ArrayBuffer). */
  datatype Frame = TextFrame(text: string) | BinaryFrame

  /** The action the `message` handler dispatches. `parsed` is the outcome
      of JSON.parse on the text: `None` when it throws, in which case the
      raw string itself is handed to updateState. */
  function MessageAction(frame: Frame, parsed: Option<Value>): (a: Option<Action>)
    ensures frame.BinaryFrame? <==> a.None?
    ensures frame.TextFrame? && parsed.Some? ==> a == Some(UpdateStateAction(parsed.value))
    ensures frame.TextFrame? && parsed.None? ==> a == Some(UpdateStateAction(JStr(frame.text)))
  {
    match frame
    case BinaryFrame => None
    case TextFrame(text) =>
      match parsed
      case Some(v) => Some(UpdateStateAction(v))
      case None => Some(UpdateStateAction(JStr(text)))
  }

  /** The redux store the handlers dispatch into: its state changes only
      through Reduce, and a throwing reducer leaves it as it was. */
  class Store {
    var state: State

    constructor ()
      ensures state == InitialState()
    {
      state := InitialState();
    }

    method Dispatch(action: Action) returns (r: Result<State, TypeError>)
      modifies this
      ensures r == Reduce(old(state), action)
      ensures state == if r.Ok? then r.value else old(state)
    {
      r := Reduce(state, action);
      if r.Ok? {
        state := r.value;
      }
    }

    /** socket.on("message"): a non-text frame dispatches nothing. */
    method OnMessage(frame: Frame, parsed: Option<Value>)
      modifies this
      ensures MessageAction(frame, parsed).None? ==> state == old(state)
      ensures MessageAction(frame, parsed).Some? ==>
        var r := Reduce(old(state), MessageAction(frame, parsed).value);
        state == if r.Ok? then r.value else old(state)
    {
      var a := MessageAction(frame, parsed);
      if a.Some? {
        var _ := Dispatch(a.value);
      }
    }

    /** socket.on("connect") */
    method OnConnect()
      modifies this
      ensures state == old(state)["socketConnected" := JBool(true)]
    {
      var _ := Dispatch(SocketConnectedAction());
    }

    /** socket.on("disconnect") */
    method OnDisconnect()
      modifies this
      ensures state == old(state)["socketConnected" := JBool(false)]
    {
      var _ := Dispatch(SocketDisconnectedAction());
    }
  }

  /** A pushed JSON object without a `type` property replaces exactly the
      top-level keys it carries. */
  lemma PushedFragmentReplaces(state: State, text: string, fragment: map<string, Value>)
    requires "type" !in fragment
    ensures var a := MessageAction(TextFrame(text), Some(JObj(fragment))).value;
            Reduce(state, a) == Ok(state + fragment)
  {
    var a := UpdateStateAction(JObj(fragment));
    assert a - {"type"} == fragment;
  }

  /** A frame that is not JSON still reaches the store: its characters are
      merged in under the keys "0", "1", ... */
  lemma UnparsableFrameMergesCharacters(state: State, text: string)
    ensures var r := Reduce(state, MessageAction(TextFrame(text), None).value);
            && r.Ok?
            && r.value.Keys == state.Keys + (IndexKeys(|text|))
  {
    var a := UpdateStateAction(JStr(text));
    TypeNotAnIndex(|text|);
    assert TypeOf(a) == Some(JStr(UPDATE_STATE));
    var r := Reduce(state, a);
    assert r.value.Keys == state.Keys + (a.Keys - {"type"});
    assert a.Keys - {"type"} == Spread(JStr(text)).Keys;
  }

  /** A pushed object whose `type` names another action is dispatched as
      that action: a frame {"type": "SOCKET_CONNECTED"} raises the flag. */
  lemma PushedTypeOverrides(state: State, text: string)
    ensures var fragment := map["type" := JStr(SOCKET_CONNECTED)];
            Reduce(state, MessageAction(TextFrame(text), Some(JObj(fragment))).value)
              == Ok(state["socketConnected" := JBool(true)])
  {
    ActionTypesDistinct();
  }

  /** The cam1 frame over the initial store: streams holds exactly cam1 and
      the other keys keep their defaults. */
  lemma Cam1Scenario()
    ensures
      var cam1 := JObj(map["slug" := JStr("cam1"), "format" := JStr("rtmp"), "source" := JStr("rtmp://x")]);
      var fragment := map["streams" := JObj(map["cam1" := cam1])];
      var r := Reduce(InitialState(), MessageAction(TextFrame("..."), Some(JObj(fragment))).value);
      && r.Ok?
      && r.value["streams"] == JObj(map["cam1" := cam1])
      && forall k :: k in InitialState() && k != "streams" ==> r.value[k] == InitialState()[k]
  {
    var cam1 := JObj(map["slug" := JStr("cam1"), "format" := JStr("rtmp"), "source" := JStr("rtmp://x")]);
    var fragment := map["streams" := JObj(map["cam1" := cam1])];
    PushedFragmentReplaces(InitialState(), "...", fragment);
  }

  /** A disconnect and a reconnect leave the pushed entities as they were
      and restore the flag. */
  lemma ReconnectKeepsEntities(state: State)
    requires "socketConnected" in state
    ensures
      var down := Reduce(state, SocketDisconnectedAction()).value;
      var up := Reduce(down, SocketConnectedAction()).value;
      && down["socketConnected"] == JBool(false)
      && up["socketConnected"] == JBool(true)
      && forall k :: k in state && k != "socketConnected" ==> up[k] == state[k]
  {
    ActionTypesDistinct();
  }
}
