/** settings.c: what an update sets, and what any store, damaged or not, is loaded as. */
module SettingsMeaning {
  import opened AtCommands
  import opened Uuid
  import opened Settings

  /** The updates that are accepted. */
  predicate Accepted(u: Update) {
    match u
    case Profile(s, n, w) => Means(s) != Nothing && Means(n) != Nothing && Means(w) != Nothing
    case SetMtu(mtu) => 23 <= mtu <= 259
    case Params(min, max, _, timeout) => 6 <= min <= max <= 800 && timeout > 0
  }

  // The key holds a text that stands for the same UUID as the one given.
  predicate HoldsUuid(c: Values, k: Key, given: string) {
    k in c && c[k].Text? && Equals(c[k].text, given)
  }

  /** The configuration has what the update asked for. */
  predicate Has(c: Values, u: Update) {
    match u
    case Profile(s, n, w) => HoldsUuid(c, Service, s) && HoldsUuid(c, Notify, n) && HoldsUuid(c, Write, w)
    case SetMtu(mtu) => Mtu in c && c[Mtu] == Number(mtu)
    case Params(min, max, latency, timeout) =>
      && ConnMin in c && c[ConnMin] == Number(min) && ConnMax in c && c[ConnMax] == Number(max)
      && Latency in c && c[Latency] == Number(latency) && Timeout in c && c[Timeout] == Number(timeout)
  }

  lemma TextTaken(given: string)
    requires Normalize(given).Some?
    ensures Equals(Normalize(given).value, given)
  {
    Equivalence(given, Normalize(given).value, given);
  }

  lemma AcceptsMeant(text: string)
    ensures Normalize(text).Some? <==> Means(text) != Nothing
  {
    MeansNormalize(text);
    hide Means, Normalize;
  }

  /** An update is accepted if and only if its texts are UUIDs and its numbers in range, and then the configuration
      has what it asked for, each in its place, and everything else as before. */
  lemma UpdateMeans(c: Values, u: Update)
    requires Total(c)
    ensures Acceptable(u) <==> Accepted(u)
    ensures Acceptable(u) ==>
              && Total(Applied(c, u)) && Has(Applied(c, u), u)
              && forall k: Key :: k !in Changed(u) ==> Applied(c, u)[k] == c[k]
  {
    hide Means, Normalize, Equals;
    match u {
      case Profile(s, n, w) =>
        AcceptsMeant(s);
        AcceptsMeant(n);
        AcceptsMeant(w);
        if Acceptable(u) {
          TextTaken(s);
          TextTaken(n);
          TextTaken(w);
          AppliedShape(c, u);
        }
      case _ =>
        if Acceptable(u) {
          AppliedShape(c, u);
        }
    }
  }

  lemma {:induction false} AfterSnoc(c: Values, store: Values, updates: seq<Update>, u: Update)
    requires Synced(c, store)
    ensures After(c, store, updates + [u]).0 ==
            if Acceptable(u) then Applied(After(c, store, updates).0, u) else After(c, store, updates).0
    decreases |updates|
  {
    hide Applied, Saves, Acceptable, Synced, Changed;
    var all := updates + [u];
    if updates == [] {
      assert all == [u] && all[1..] == [];
    } else {
      assert all[0] == updates[0] && all[1..] == updates[1..] + [u];
      if Acceptable(updates[0]) {
        var v := updates[0];
        var works := seq(|Changed(v)|, _ => true);
        UpdateKeepsSynced(c, store, v, works);
        AfterSnoc(Applied(c, v), Saves(Applied(c, v), store, Changed(v), works), updates[1..], u);
      } else {
        AfterSnoc(c, store, updates[1..], u);
      }
    }
  }

  /** What was set is what a restart finds: after any history of saved updates, the last of them accepted. */
  lemma RestartFindsUpdate(c: Values, store: Values, updates: seq<Update>, u: Update, order: seq<Key>)
    requires Synced(c, store) && Acceptable(u)
    requires forall k :: k in order <==> k in After(c, store, updates + [u]).1
    ensures Has(Load(Defaults(), After(c, store, updates + [u]).1, order), u)
  {
    RestartFindsConfig(c, store, updates + [u], order);
    AfterSnoc(c, store, updates, u);
    UpdateMeans(After(c, store, updates).0, u);
    hide After, Load, Defaults, Applied, Has, Acceptable;
  }

  // ---------- any store ----------

  // What a stored value is loaded as, if it is taken at all.
  predicate Taken(k: Key, v: Value) {
    Textual(k) ==> v.Text? && 0 < |v.text| < STR_LEN && Normalize(CStr(v.text)).Some?
  }

  function Loaded(k: Key, v: Value): Value
    requires Taken(k, v)
  {
    if Textual(k) then Text(Normalize(CStr(v.text)).value) else v
  }

  /** A stored text is taken if and only if it fits and stands for a UUID, and is then loaded as that UUID. */
  lemma TakenMeans(k: Key, text: string)
    requires Textual(k)
    ensures Taken(k, Text(text)) <==> 0 < |text| <= 36 && Means(CStr(text)) != Nothing
    ensures Taken(k, Text(text)) ==>
              var v := Loaded(k, Text(text)); v.Text? && Equals(v.text, CStr(text)) && Canonical(k, v)
  {
    AcceptsMeant(CStr(text));
    if Taken(k, Text(text)) {
      TextTaken(CStr(text));
      Idempotent(CStr(text));
    }
    hide Means, Normalize, Equals, CStr;
  }

  /** Whatever the store holds and in whatever order it is read: a key has the stored value if that is taken,
      and otherwise keeps the value it had. */
  lemma {:induction false} LoadMeans(c: Values, store: Values, order: seq<Key>)
    requires Total(c) && forall i | 0 <= i < |order| :: order[i] in store
    ensures Total(Load(c, store, order))
    ensures forall k: Key ::
              Load(c, store, order)[k] == if k in order && Taken(k, store[k]) then Loaded(k, store[k]) else c[k]
    decreases |order|
  {
    hide Normalize, CStr;
    if order != [] {
      var n := |order| - 1;
      LoadMeans(c, store, order[..n]);
      assert order == order[..n] + [order[n]];
    }
  }

  lemma DefaultsCanonical()
    ensures forall k: Key :: Canonical(k, Default(k))
  {
    hide Normalize;
    ShortCanonical("FFF0");
    ShortCanonical("FFF1");
    ShortCanonical("FFF2");
    assert "0x" + "FFF0" == "0xFFF0" && "0x" + "FFF1" == "0xFFF1" && "0x" + "FFF2" == "0xFFF2";
  }

  lemma ShortCanonical(digits: string)
    requires |digits| == 4 && forall i | 0 <= i < 4 :: digits[i] == 'F' || '0' <= digits[i] <= '9'
    ensures Normalize("0x" + digits) == Some("0x" + digits)
  {
    ShortIdempotent(digits);
    assert Map(c => Upper(c), digits) == digits;
    hide Normalize;
  }

  lemma ShortEquals(digits: string)
    requires |digits| == 4 && AllHex(digits)
    ensures Equals("0x" + digits, digits)
  {
    ShortForms(digits, "0x");
    ShortForms(digits, "");
    assert "" + digits == digits;
    EqualsMeans("0x" + digits, digits);
    hide Means, Equals, AllHex, Digits;
  }

  /** A fresh device is as if it had been given these updates; the stream is allowed, with a guard time of a second. */
  lemma FreshDevice()
    ensures Has(Defaults(), Profile("FFF0", "FFF1", "FFF2")) && Has(Defaults(), Update.SetMtu(259))
    ensures Has(Defaults(), Params(6, 9, 0, 400)) && Defaults()[StreamGuard] == Number(1000)
    ensures forall k | k in {AutoMtu, AutoSubscribe, Prefer2mPhy, PreferDle, AllowDataMode} :: Defaults()[k] == Flag(true)
  {
    hide Equals;
    ShortEquals("FFF0");
    ShortEquals("FFF1");
    ShortEquals("FFF2");
    assert "0x" + "FFF0" == "0xFFF0" && "0x" + "FFF1" == "0xFFF1" && "0x" + "FFF2" == "0xFFF2";
  }

  /** So after a restart the texts of the configuration are canonical UUIDs even if the store was damaged. */
  lemma DamagedStore(store: Values, order: seq<Key>)
    requires forall i | 0 <= i < |order| :: order[i] in store
    ensures Total(Load(Defaults(), store, order))
    ensures forall k | Textual(k) :: Canonical(k, Load(Defaults(), store, order)[k])
  {
    LoadMeans(Defaults(), store, order);
    DefaultsCanonical();
    hide Load, Default;
    forall k | Textual(k)
      ensures Canonical(k, Load(Defaults(), store, order)[k])
    {
      if k in order && Taken(k, store[k]) {
        TakenMeans(k, store[k].text);
      }
    }
  }
}
