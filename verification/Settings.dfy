/** settings.c: the configuration, its key/value store, and what a restart brings back. */
module Settings {
  import opened AtCommands
  import opened AtText
  import opened Protocol
  import opened Uuid
  import opened UuidText

  datatype Key = Service | Notify | Write | Mtu | ConnMin | ConnMax | Latency | Timeout |
                 AutoMtu | AutoSubscribe | Prefer2mPhy | PreferDle | AllowDataMode | StreamGuard

  datatype Value = Text(text: string) | Number(number: nat) | Flag(flag: bool)

  type Values = map<Key, Value>

  const KEYS: set<Key> := {Service, Notify, Write, Mtu, ConnMin, ConnMax, Latency, Timeout,
                           AutoMtu, AutoSubscribe, Prefer2mPhy, PreferDle, AllowDataMode, StreamGuard}

  /** The value a key has in a freshly started program before anything is loaded. */
  function Default(k: Key): Value {
    match k
    case Service => Text("0xFFF0")
    case Notify => Text("0xFFF1")
    case Write => Text("0xFFF2")
    case Mtu => Number(259)
    case ConnMin => Number(6)
    case ConnMax => Number(9)
    case Latency => Number(0)
    case Timeout => Number(400)
    case AutoMtu => Flag(true)
    case AutoSubscribe => Flag(true)
    case Prefer2mPhy => Flag(true)
    case PreferDle => Flag(true)
    case AllowDataMode => Flag(true)
    case StreamGuard => Number(1000)
  }

  predicate Textual(k: Key) {
    k == Service || k == Notify || k == Write
  }

  // g_config has every field.
  ghost predicate Total(c: Values) {
    forall k: Key :: k in c
  }

  lemma AllKeys()
    ensures forall k: Key :: k in KEYS
  {
    forall k: Key
      ensures k in KEYS
    {
      match k {
        case Service => case Notify => case Write => case Mtu => case ConnMin => case ConnMax => case Latency =>
        case Timeout => case AutoMtu => case AutoSubscribe => case Prefer2mPhy => case PreferDle =>
        case AllowDataMode => case StreamGuard =>
      }
    }
  }

  // The configuration after power-on.
  function Defaults(): (c: Values)
    ensures Total(c) && forall k: Key :: c[k] == Default(k)
  {
    AllKeys();
    map k | k in KEYS :: Default(k)
  }

  /** settings_handle_set for one stored key: texts are checked and normalised, the rest is copied. */
  function LoadOne(c: Values, k: Key, v: Value): Values {
    if Textual(k) then
      if v.Text? && 0 < |v.text| < STR_LEN && Normalize(CStr(v.text)).Some?
      then c[k := Text(Normalize(CStr(v.text)).value)]
      else c
    else c[k := v]
  }

  /** settings_load_subtree: the stored keys in the order the store yields them. */
  function Load(c: Values, store: Values, order: seq<Key>): Values
    requires forall i | 0 <= i < |order| :: order[i] in store
  {
    if order == [] then c
    else
      var n := |order| - 1;
      LoadOne(Load(c, store, order[..n]), order[n], store[order[n]])
  }

  /** Consecutive calls of settings_save_one, up to the first that fails. */
  function Saves(c: Values, store: Values, keys: seq<Key>, works: seq<bool>): Values
    requires |keys| == |works| && forall i | 0 <= i < |keys| :: keys[i] in c
    decreases |keys|
  {
    if keys == [] || !works[0] then store
    else Saves(c, store[keys[0] := c[keys[0]]], keys[1..], works[1..])
  }

  /** An update: the new values of some keys, if they are acceptable, and their saving. */
  datatype Update =
    | Profile(service: string, notify: string, write: string)
    | SetMtu(mtu: nat)
    | Params(minInterval: nat, maxInterval: nat, latency: nat, timeout: nat)

  predicate Acceptable(u: Update) {
    match u
    case Profile(s, n, w) => Normalize(s).Some? && Normalize(n).Some? && Normalize(w).Some?
    case SetMtu(mtu) => 23 <= mtu <= 259
    case Params(min, max, _, timeout) => 6 <= min <= 800 && 6 <= max <= 800 && min <= max && timeout != 0
  }

  function Changed(u: Update): seq<Key> {
    match u
    case Profile(_, _, _) => [Service, Notify, Write]
    case SetMtu(_) => [Mtu]
    case Params(_, _, _, _) => [ConnMin, ConnMax, Latency, Timeout]
  }

  function Applied(c: Values, u: Update): Values
    requires Acceptable(u)
  {
    match u
    case Profile(s, n, w) =>
      c[Service := Text(Normalize(s).value)][Notify := Text(Normalize(n).value)][Write := Text(Normalize(w).value)]
    case SetMtu(mtu) => c[Mtu := Number(mtu)]
    case Params(min, max, latency, timeout) =>
      c[ConnMin := Number(min)][ConnMax := Number(max)][Latency := Number(latency)][Timeout := Number(timeout)]
  }

  predicate AllTrue(works: seq<bool>) {
    forall i | 0 <= i < |works| :: works[i]
  }

  class ConfigStore {
    var config: Values   // g_config, by field
    var store: Values    // what the settings subsystem keeps

    constructor ()
      ensures config == Defaults() && store == map[]
    {
      config, store := Defaults(), map[];
    }

    // settings_handle_set; `readable` says whether the read callback succeeds
    method HandleSet(k: Key, v: Value, readable: bool) returns (err: Errno)
      modifies this`config
      ensures config == if readable then LoadOne(old(config), k, v) else old(config)
      ensures err != Success ==> config == old(config)
      ensures !readable ==> err != Success
    {
      if Textual(k) {
        if !v.Text? || |v.text| == 0 || |v.text| >= STR_LEN {
          return Invalid;
        }
        if !readable {
          return Other;
        }
        var text := new char[STR_LEN];
        var ok := NormalizeUuid(CStr(v.text), text);
        if !ok {
          return Invalid;
        }
        var n := StrLen(text, 0);
        HoldsIs(text[..], Normalize(CStr(v.text)).value, n);
        config := config[k := Text(text[..n])];
        return Success;
      }
      if !readable {
        return Invalid;
      }
      config := config[k := v];
      err := Success;
    }

    // settings_load_subtree
    method LoadSubtree(order: seq<Key>)
      requires forall i | 0 <= i < |order| :: order[i] in store
      modifies this`config
      ensures config == Load(old(config), store, order)
    {
      for i := 0 to |order|
        invariant config == Load(old(config), store, order[..i])
      {
        var _ := HandleSet(order[i], store[order[i]], true);
        assert order[..i + 1][..i] == order[..i];
      }
      assert order[..|order|] == order;
    }

    // settings_save_one, which works or not
    method SaveOne(k: Key, works: bool) returns (err: Errno)
      requires k in config
      modifies this`store
      ensures store == if works then old(store)[k := config[k]] else old(store)
      ensures err == Success <==> works
    {
      if !works {
        return Other;
      }
      store := store[k := config[k]];
      return Success;
    }

    // The configuration and the store after an update, some of whose saves may fail.
    ghost predicate Updated(c: Values, s: Values, u: Update, works: seq<bool>, err: Errno)
      requires Total(c) && |works| == |Changed(u)|
      reads this
    {
      if !Acceptable(u) then err == Invalid && config == c && store == s
      else
        AppliedTotal(c, u);
        && config == Applied(c, u) && store == Saves(config, s, Changed(u), works)
        && (err == Success <==> AllTrue(works))
    }

    /** ble_host_settings_update_profile */
    method UpdateProfile(service: string, notify: string, write: string, works: seq<bool>) returns (err: Errno)
      requires Total(config) && |works| == 3
      modifies this
      ensures Total(config)
      ensures Updated(old(config), old(store), Profile(service, notify, write), works, err)
    {
      hide Normalize;
      if Normalize(service).None? || Normalize(notify).None? || Normalize(write).None? {
        return Invalid;
      }
      config := config[Service := Text(Normalize(service).value)][Notify := Text(Normalize(notify).value)]
                      [Write := Text(Normalize(write).value)];
      ghost var keys := [Service, Notify, Write];
      SavesFrom(config, store, keys, works, 0);
      err := SaveOne(Service, works[0]);
      if err != Success {
        return;
      }
      SavesFrom(config, store, keys, works, 1);
      err := SaveOne(Notify, works[1]);
      if err != Success {
        return;
      }
      SavesFrom(config, store, keys, works, 2);
      err := SaveOne(Write, works[2]);
      SavesFrom(config, store, keys, works, 3);
    }

    /** ble_host_settings_update_mtu */
    method UpdateMtu(mtu: nat, works: seq<bool>) returns (err: Errno)
      requires Total(config) && |works| == 1
      modifies this
      ensures Total(config)
      ensures Updated(old(config), old(store), Update.SetMtu(mtu), works, err)
    {
      if mtu < 23 || mtu > 259 {
        return Invalid;
      }
      config := config[Mtu := Number(mtu)];
      SavesFrom(config, store, [Mtu], works, 0);
      err := SaveOne(Mtu, works[0]);
      SavesFrom(config, store, [Mtu], works, 1);
    }

    /** ble_host_settings_update_conn_params */
    method UpdateConnParams(min: nat, max: nat, latency: nat, timeout: nat, works: seq<bool>) returns (err: Errno)
      requires Total(config) && |works| == 4
      modifies this
      ensures Total(config)
      ensures Updated(old(config), old(store), Params(min, max, latency, timeout), works, err)
    {
      if min < 6 || min > 800 || max < 6 || max > 800 || min > max || timeout == 0 {
        return Invalid;
      }
      config := config[ConnMin := Number(min)][ConnMax := Number(max)][Latency := Number(latency)]
                      [Timeout := Number(timeout)];
      ghost var keys := [ConnMin, ConnMax, Latency, Timeout];
      SavesFrom(config, store, keys, works, 0);
      err := SaveOne(ConnMin, works[0]);
      if err != Success {
        return;
      }
      SavesFrom(config, store, keys, works, 1);
      err := SaveOne(ConnMax, works[1]);
      if err != Success {
        return;
      }
      SavesFrom(config, store, keys, works, 2);
      err := SaveOne(Latency, works[2]);
      if err != Success {
        return;
      }
      SavesFrom(config, store, keys, works, 3);
      err := SaveOne(Timeout, works[3]);
      SavesFrom(config, store, keys, works, 4);
    }
  }

  lemma HoldsIs(text: seq<char>, s: string, n: nat)
    requires Holds(text, 0, s) && n == |CStr(text[0..])|
    ensures n == |s| && n < |text| && text[..n] == s
  {
    HoldsCStr(text, 0, s);
  }

  // The saves from the `i`th on.
  lemma SavesFrom(c: Values, store: Values, keys: seq<Key>, works: seq<bool>, i: nat)
    requires |keys| == |works| && i <= |keys| && forall j | 0 <= j < |keys| :: keys[j] in c
    ensures Saves(c, store, keys[i..], works[i..]) ==
            if i == |keys| || !works[i] then store
            else Saves(c, store[keys[i] := c[keys[i]]], keys[i + 1..], works[i + 1..])
    ensures keys[0..] == keys && works[0..] == works
  {
    if i < |keys| {
      assert keys[i..][1..] == keys[i + 1..] && works[i..][1..] == works[i + 1..];
    }
  }

  lemma AppliedTotal(c: Values, u: Update)
    requires Total(c) && Acceptable(u)
    ensures Total(Applied(c, u))
  {
    hide Normalize;
  }

  // ---------- what a restart brings back ----------

  predicate Canonical(k: Key, v: Value) {
    (Textual(k) <==> v.Text?) && (v.Text? ==> Normalize(v.text) == Some(v.text))
  }

  // The value a restart would give a key.
  function Persisted(store: Values, k: Key): Value {
    if k in store then store[k] else Default(k)
  }

  /** The store, completed by the defaults, is the configuration, and what it holds is canonical. */
  ghost predicate Synced(c: Values, store: Values) {
    Total(c) && (forall k: Key :: c[k] == Persisted(store, k)) && (forall k | k in store :: Canonical(k, store[k]))
  }

  lemma LoadCanonical(c: Values, k: Key, v: Value)
    requires Canonical(k, v)
    ensures LoadOne(c, k, v) == c[k := v]
  {
    if Textual(k) {
      Idempotent(v.text);
      NoNul(v.text);
      CStrSame(v.text);
      LengthTells(v.text);
      MeansNormalize(v.text);
    }
    hide Normalize;
  }

  lemma {:induction false} LoadSets(c: Values, store: Values, order: seq<Key>)
    requires Total(c)
    requires forall i | 0 <= i < |order| :: order[i] in store
    requires forall k | k in store :: Canonical(k, store[k])
    ensures Total(Load(c, store, order))
    ensures forall k: Key :: Load(c, store, order)[k] == if k in order then store[k] else c[k]
    decreases |order|
  {
    hide LoadOne, Canonical;
    if order != [] {
      var n := |order| - 1;
      LoadSets(c, store, order[..n]);
      LoadCanonical(Load(c, store, order[..n]), order[n], store[order[n]]);
      assert order == order[..n] + [order[n]];
    }
  }

  lemma SameValues(c: Values, d: Values)
    requires Total(c) && Total(d) && forall k: Key :: c[k] == d[k]
    ensures c == d
  {
  }

  /** Reloading a synchronised store over the defaults, in any order, reproduces the configuration exactly. */
  lemma ReloadReproduces(c: Values, store: Values, order: seq<Key>)
    requires Synced(c, store) && forall k :: k in order <==> k in store
    ensures Load(Defaults(), store, order) == c
  {
    hide Load, LoadOne, Default, Canonical, Defaults;
    LoadSets(Defaults(), store, order);
    SameValues(Load(Defaults(), store, order), c);
  }

  lemma StartsSynced()
    ensures Synced(Defaults(), map[])
  {
    hide Defaults, Default;
  }

  lemma {:induction false} SavesSets(c: Values, store: Values, keys: seq<Key>, works: seq<bool>)
    requires |keys| == |works| && Total(c)
    ensures var s := Saves(c, store, keys, works);
            && (forall k: Key :: k in s ==> (k in store && s[k] == store[k]) || (k in keys && s[k] == c[k]))
            && (forall k: Key :: k in store ==> k in s)
            && (AllTrue(works) ==> forall k | k in keys :: k in s && s[k] == c[k])
            && (forall k | k !in keys :: k in s <==> k in store)
    decreases |keys|
  {
    if keys != [] && works[0] {
      SavesSets(c, store[keys[0] := c[keys[0]]], keys[1..], works[1..]);
      assert AllTrue(works) ==> AllTrue(works[1..]);
      assert keys == [keys[0]] + keys[1..];
    }
  }

  lemma AppliedShape(c: Values, u: Update)
    requires Total(c) && Acceptable(u)
    ensures Total(Applied(c, u))
    ensures forall k: Key :: k !in Changed(u) ==> Applied(c, u)[k] == c[k]
    ensures forall k | k in Changed(u) :: Canonical(k, Applied(c, u)[k])
  {
    match u {
      case Profile(s, n, w) => Idempotent(s); Idempotent(n); Idempotent(w);
      case _ =>
    }
    hide Normalize;
  }

  /** How many saves of an update work before one fails. */
  function FirstFail(works: seq<bool>): (n: nat)
    ensures n <= |works| && (forall i | 0 <= i < n :: works[i]) && (n < |works| ==> !works[n])
  {
    if works == [] || !works[0] then 0 else 1 + FirstFail(works[1..])
  }

  lemma {:induction false} SavesUpTo(c: Values, store: Values, keys: seq<Key>, works: seq<bool>)
    requires |keys| == |works| && Total(c)
    requires forall i, j | 0 <= i < j < |keys| :: keys[i] != keys[j]
    ensures var s := Saves(c, store, keys, works); var n := FirstFail(works);
            && (forall i | 0 <= i < n :: keys[i] in s && s[keys[i]] == c[keys[i]])
            && (forall k | k !in keys[..n] :: Persisted(s, k) == Persisted(store, k))
            && (forall k: Key :: k in s ==> (k in store && s[k] == store[k]) || (k in keys && s[k] == c[k]))
    decreases |keys|
  {
    hide Default;
    if keys != [] && works[0] {
      var s1 := store[keys[0] := c[keys[0]]];
      SavesUpTo(c, s1, keys[1..], works[1..]);
      assert keys[..FirstFail(works)] == [keys[0]] + keys[1..][..FirstFail(works[1..])];
      assert keys == [keys[0]] + keys[1..];
      SavesSets(c, s1, keys[1..], works[1..]);
    }
  }

  lemma ChangedDistinct(u: Update)
    ensures forall i, j | 0 <= i < j < |Changed(u)| :: Changed(u)[i] != Changed(u)[j]
  {
  }

  lemma Kept(c: Values, store: Values, c1: Values, s1: Values, keys: seq<Key>, n: nat)
    requires Synced(c, store) && Total(c1) && n <= |keys|
    requires forall i, j | 0 <= i < j < |keys| :: keys[i] != keys[j]
    requires forall k: Key :: k !in keys ==> c1[k] == c[k]
    requires forall k | k in keys :: Canonical(k, c1[k])
    requires forall i | 0 <= i < n :: keys[i] in s1 && s1[keys[i]] == c1[keys[i]]
    requires forall k | k !in keys[..n] :: Persisted(s1, k) == Persisted(store, k)
    requires forall k: Key :: k in s1 ==> (k in store && s1[k] == store[k]) || (k in keys && s1[k] == c1[k])
    ensures Synced(c1, s1) <==> forall i | n <= i < |keys| :: c1[keys[i]] == Persisted(store, keys[i])
  {
    hide Canonical, Default;
    forall i | n <= i < |keys|
      ensures keys[i] !in keys[..n]
    {
    }
    forall k: Key | k !in keys
      ensures c1[k] == Persisted(s1, k)
    {
      assert k !in keys[..n];
    }
    if forall i | n <= i < |keys| :: c1[keys[i]] == Persisted(store, keys[i]) {
      forall k | k in keys
        ensures c1[k] == Persisted(s1, k)
      {
        var i :| 0 <= i < |keys| && keys[i] == k;
      }
    }
  }

  /** An acceptable update keeps configuration and store together if and only if from the first save that
      fails on every changed key had its new value in the store before, or by default; so, in particular, when
      all its saves succeed. */
  lemma UpdateKeepsSynced(c: Values, store: Values, u: Update, works: seq<bool>)
    requires Synced(c, store) && Acceptable(u) && |works| == |Changed(u)|
    ensures Total(Applied(c, u))
    ensures var c1 := Applied(c, u); var keys := Changed(u);
            && (Synced(c1, Saves(c1, store, keys, works)) <==>
                forall i | FirstFail(works) <= i < |works| :: c1[keys[i]] == Persisted(store, keys[i]))
            && (AllTrue(works) ==> Synced(c1, Saves(c1, store, keys, works)))
  {
    AppliedShape(c, u);
    ChangedDistinct(u);
    SavesUpTo(Applied(c, u), store, Changed(u), works);
    hide Applied, Saves, Canonical, Default, Acceptable, Changed, AllTrue, Synced, Persisted;
    Kept(c, store, Applied(c, u), Saves(Applied(c, u), store, Changed(u), works), Changed(u), FirstFail(works));
    if AllTrue(works) {
      NoFail(works);
    }
  }

  lemma NoFail(works: seq<bool>)
    requires AllTrue(works)
    ensures FirstFail(works) == |works|
  {
  }

  /** It does happen: on a fresh device the MTU is set to 100 and the save fails.  The program goes on with 100,
      a restart brings 259 back. */
  lemma LostUpdate()
    ensures var u := Update.SetMtu(100);
            && Acceptable(u) && Applied(Defaults(), u)[Mtu] == Number(100)
            && Saves(Applied(Defaults(), u), map[], Changed(u), [false]) == map[]
            && !Synced(Applied(Defaults(), u), map[])
            && Load(Defaults(), map[], [])[Mtu] == Number(259)
  {
    hide Synced;
    StartsSynced();
    var u := Update.SetMtu(100);
    UpdateKeepsSynced(Defaults(), map[], u, [false]);
    assert FirstFail([false]) == 0 && Changed(u)[0] == Mtu;
  }

  /** A history of updates, all of whose saves succeed: the configuration and the store it leaves. */
  function After(c: Values, store: Values, updates: seq<Update>): (r: (Values, Values))
    requires Synced(c, store)
    ensures Synced(r.0, r.1)
    decreases |updates|
  {
    if updates == [] then (c, store)
    else if !Acceptable(updates[0]) then After(c, store, updates[1..])
    else
      var u := updates[0];
      var works := seq(|Changed(u)|, _ => true);
      UpdateKeepsSynced(c, store, u, works);
      After(Applied(c, u), Saves(Applied(c, u), store, Changed(u), works), updates[1..])
  }

  /** After any history of updates whose saves all succeed, begun with the store in step with the
      configuration (StartsSynced: as on first power-on), a restart finds the configuration it left, whatever
      the order in which the store yields its keys. */
  lemma RestartFindsConfig(c: Values, store: Values, updates: seq<Update>, order: seq<Key>)
    requires Synced(c, store)
    requires forall k :: k in order <==> k in After(c, store, updates).1
    ensures Load(Defaults(), After(c, store, updates).1, order) == After(c, store, updates).0
  {
    hide After, Load, Defaults;
    ReloadReproduces(After(c, store, updates).0, After(c, store, updates).1, order);
  }
}
