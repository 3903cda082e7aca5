/** The per-device retry counter of `push_configuration`: every device named in a push is registered,
    a push naming a device that has failed twice is refused as a whole, and each finished push resets
    or raises the counters of the devices it names, once per configuration entry. */
module RetryPolicy {
  import opened Wrappers
  import opened JsonValues
  import Text

  /** A device key as a Python dictionary sees it. `True` and `False` hash and compare equal to `1` and
      `0`, so they share those keys. Lists and objects cannot be keys at all. */
  datatype DeviceKey = Named(name: string) | Numbered(n: int) | NullKey

  /** The key a configuration entry's `device_name` value becomes; `None` when it is unhashable. */
  function KeyOf(j: Json): (r: Option<DeviceKey>)
    ensures r.None? <==> j.JArr? || j.JObj?
  {
    match j
    case JNull => Some(NullKey)
    case JBool(b) => Some(Numbered(if b then 1 else 0))
    case JNum(n) => Some(Numbered(n))
    case JStr(s) => Some(Named(s))
    case JArr(_) => None
    case JObj(_) => None
  }

  /** The key used when an entry names no device. */
  const UnknownDevice := Named("unknown")

  /** `config.get("device_name", "unknown")`: `None` when the entry is not an object (it has no `get`) or
      its name cannot be a key. */
  function ConfigKey(config: Json): Option<DeviceKey> {
    match config
    case JObj(fields) => if "device_name" in fields then KeyOf(fields["device_name"]) else Some(UnknownDevice)
    case _ => None
  }

  /** The device key of every entry of `args.get("device_configs", [])`, in order, one per entry, or `None`
      when iterating it raises: iterating a string or an object visits characters or keys, which have no
      `get`, so only an empty one gets through; numbers, booleans and null cannot be iterated. */
  function DeviceKeys(args: map<string, Json>): (r: Option<seq<DeviceKey>>)
    ensures "device_configs" !in args ==> r == Some([])
    ensures r.Some? && "device_configs" in args && args["device_configs"].JArr? ==>
              |r.value| == |args["device_configs"].items|
              && forall j | 0 <= j < |r.value| :: ConfigKey(args["device_configs"].items[j]) == Some(r.value[j])
    ensures "device_configs" in args && args["device_configs"].JArr? ==>
              (r.Some? <==> forall j | 0 <= j < |args["device_configs"].items| :: ConfigKey(args["device_configs"].items[j]).Some?)
    ensures "device_configs" in args && !args["device_configs"].JArr? ==>
              (r.Some? <==> args["device_configs"] == JStr("") || args["device_configs"] == JObj(map[]))
    ensures r.Some? && "device_configs" in args && !args["device_configs"].JArr? ==> r.value == []
  {
    if "device_configs" !in args then Some([])
    else
      match args["device_configs"]
      case JArr(items) => EntryKeys(items)
      case JStr(s) => if s == "" then Some([]) else None
      case JObj(m) => if |m| == 0 then Some([]) else None
      case _ => None
  }

  /** The device keys of the entries read before iterating `device_configs` raises, in order: all of them
      when it does not raise; for a list, those of the entries before the first that has none; nothing when
      the value is not a list, since its first element (if any) already raises. */
  function EntriesRead(args: map<string, Json>): (r: seq<DeviceKey>)
    ensures DeviceKeys(args).Some? ==> r == DeviceKeys(args).value
    ensures "device_configs" in args && args["device_configs"].JArr? ==>
              var items := args["device_configs"].items;
              && |r| <= |items|
              && (forall j | 0 <= j < |r| :: ConfigKey(items[j]) == Some(r[j]))
              && (|r| < |items| ==> ConfigKey(items[|r|]).None?)
    ensures !("device_configs" in args && args["device_configs"].JArr?) ==> r == []
  {
    if "device_configs" in args && args["device_configs"].JArr? then LeadingKeys(args["device_configs"].items) else []
  }

  /** The keys of the entries up to the first that has none. */
  function LeadingKeys(items: seq<Json>): (r: seq<DeviceKey>)
    ensures |r| <= |items|
    ensures forall j | 0 <= j < |r| :: ConfigKey(items[j]) == Some(r[j])
    ensures |r| < |items| ==> ConfigKey(items[|r|]).None?
  {
    if items == [] then []
    else
      match ConfigKey(items[0])
      case None => []
      case Some(k) =>
        var rest := LeadingKeys(items[1..]);
        assert forall j | 0 <= j < |rest| :: items[1..][j] == items[j + 1];
        [k] + rest
  }

  /** The keys of the entries, or `None` if some entry has none. */
  function EntryKeys(items: seq<Json>): (r: Option<seq<DeviceKey>>)
    ensures r.Some? <==> forall j | 0 <= j < |items| :: ConfigKey(items[j]).Some?
    ensures r.Some? ==> |r.value| == |items| && forall j | 0 <= j < |items| :: ConfigKey(items[j]) == Some(r.value[j])
  {
    if items == [] then Some([])
    else
      var init := EntryKeys(items[..|items| - 1]);
      var last := ConfigKey(items[|items| - 1]);
      if init.None? || last.None? then None else Some(init.value + [last.value])
  }

  /** The retry counters: `ansible_retry_count`. */
  type Counts = map<DeviceKey, nat>

  /** The counter of a device; an unregistered device has none and reads as zero here. */
  function Count(counts: Counts, d: DeviceKey): nat {
    if d in counts then counts[d] else 0
  }

  /** The counters once every named device is registered: new ones start at zero, known ones keep theirs. */
  function Registered(counts: Counts, keys: seq<DeviceKey>): Counts {
    map d | d in counts.Keys + (set k | k in keys) :: Count(counts, d)
  }

  /** The entries, in order and with repetition, whose device is at the limit of two failures. */
  function AtLimit(counts: Counts, keys: seq<DeviceKey>): (r: seq<DeviceKey>)
    ensures |r| <= |keys|
    ensures r == [] <==> !Vetoed(counts, keys)
  {
    if keys == [] then []
    else
      var init := AtLimit(counts, keys[..|keys| - 1]);
      assert forall j | 0 <= j < |keys| - 1 :: keys[..|keys| - 1][j] == keys[j];
      init + (if Count(counts, keys[|keys| - 1]) >= 2 then [keys[|keys| - 1]] else [])
  }

  /** The push is refused: some named device has already failed twice. */
  predicate Vetoed(counts: Counts, keys: seq<DeviceKey>) {
    exists j | 0 <= j < |keys| :: Count(counts, keys[j]) >= 2
  }

  /** The counters after a failed push: each device rises once per entry that names it. */
  function AfterFailure(counts: Counts, keys: seq<DeviceKey>): Counts {
    map d | d in counts :: counts[d] + multiset(keys)[d]
  }

  /** The counters after a successful push: each named device is back at zero. */
  function AfterSuccess(counts: Counts, keys: seq<DeviceKey>): Counts {
    map d | d in counts :: if d in keys then 0 else counts[d]
  }

  /** A push result counts as a failure when it mentions "Error" or "Failed" anywhere. */
  predicate FailedResult(text: string) {
    Text.Contains(text, "Error") || Text.Contains(text, "Failed")
  }

  /** The admission loop of a push (source lines 325-346): registers each named device at zero if it is new
      and collects, entry by entry, those at the limit; the call is skipped when any is. */
  method AdmitPush(counts: Counts, keys: seq<DeviceKey>) returns (counts': Counts, vetoes: seq<DeviceKey>)
    ensures counts' == Registered(counts, keys)
    ensures vetoes == AtLimit(counts, keys)
    ensures vetoes != [] <==> Vetoed(counts, keys)
  {
    counts', vetoes := counts, [];
    for j := 0 to |keys|
      invariant counts' == Registered(counts, keys[..j])
      invariant vetoes == AtLimit(counts, keys[..j])
    {
      assert keys[..j + 1] == keys[..j] + [keys[j]];
      RegisterOne(counts, keys[..j], keys[j]);
      if keys[j] !in counts' {
        counts' := counts'[keys[j] := 0];
      }
      if counts'[keys[j]] >= 2 {
        vetoes := vetoes + [keys[j]];
      }
    }
    assert keys[..|keys|] == keys;
  }

  /** Registering one more entry, and checking it against the limit. */
  lemma RegisterOne(counts: Counts, keys: seq<DeviceKey>, k: DeviceKey)
    ensures Registered(counts, keys + [k]) ==
              var r := Registered(counts, keys); if k in r then r else r[k := 0]
    ensures k in Registered(counts, keys) ==> Registered(counts, keys)[k] == Count(counts, k)
    ensures AtLimit(counts, keys + [k]) == AtLimit(counts, keys) + (if Count(counts, k) >= 2 then [k] else [])
  {
    assert (keys + [k])[..|keys|] == keys;
    var ks := keys + [k];
    assert forall x :: x in ks <==> x in keys || x == k;
  }

  /** The accounting loop after a push ran (source lines 364-386): per entry, the device's counter rises on
      a failure and is reset on a success. Every named device must be registered already (the source
      would raise a `KeyError` otherwise). */
  method RecordPush(counts: Counts, keys: seq<DeviceKey>, failed: bool) returns (counts': Counts)
    requires forall j | 0 <= j < |keys| :: keys[j] in counts
    ensures counts' == if failed then AfterFailure(counts, keys) else AfterSuccess(counts, keys)
  {
    counts' := counts;
    for j := 0 to |keys|
      invariant counts' == if failed then AfterFailure(counts, keys[..j]) else AfterSuccess(counts, keys[..j])
    {
      assert keys[..j + 1] == keys[..j] + [keys[j]];
      if failed {
        FailureStep(counts, keys[..j], keys[j]);
        counts' := counts'[keys[j] := counts'[keys[j]] + 1];
      } else {
        SuccessStep(counts, keys[..j], keys[j]);
        counts' := counts'[keys[j] := 0];
      }
    }
    assert keys[..|keys|] == keys;
  }

  /** A failure recorded for one more entry raises its device's counter by one. */
  lemma FailureStep(counts: Counts, keys: seq<DeviceKey>, k: DeviceKey)
    requires k in counts
    ensures AfterFailure(counts, keys + [k]) == AfterFailure(counts, keys)[k := AfterFailure(counts, keys)[k] + 1]
  {
    assert multiset(keys + [k]) == multiset(keys) + multiset{k};
  }

  /** A success recorded for one more entry resets its device's counter. */
  lemma SuccessStep(counts: Counts, keys: seq<DeviceKey>, k: DeviceKey)
    requires k in counts
    ensures AfterSuccess(counts, keys + [k]) == AfterSuccess(counts, keys)[k := 0]
  {
    assert forall x :: x in keys + [k] <==> x in keys || x == k;
  }

  // ---------------------------------------------------------------------------------------------
  // What the policy guarantees over several pushes

  /** After a failed push, each named device is up by the number of entries naming it. */
  lemma FailureCountsEntries(counts: Counts, keys: seq<DeviceKey>, d: DeviceKey)
    ensures Count(AfterFailure(Registered(counts, keys), keys), d) == Count(counts, d) + multiset(keys)[d]
  {
    if d !in counts && d !in keys {
      assert multiset(keys)[d] == 0;
    }
  }

  /** Two failed pushes naming a device, whatever else they name, refuse the next push naming it. */
  lemma TwoFailuresVeto(counts: Counts, first: seq<DeviceKey>, second: seq<DeviceKey>, later: seq<DeviceKey>, d: DeviceKey)
    requires d in first && d in second && d in later
    ensures Vetoed(AfterFailure(Registered(AfterFailure(Registered(counts, first), first), second), second), later)
  {
    var c1 := AfterFailure(Registered(counts, first), first);
    FailureCountsEntries(counts, first, d);
    var c2 := AfterFailure(Registered(c1, second), second);
    FailureCountsEntries(c1, second, d);
    var j :| 0 <= j < |later| && later[j] == d;
    assert Count(c2, later[j]) >= 2;
  }

  /** No device is named by two entries. */
  predicate NamedOnce(keys: seq<DeviceKey>) {
    forall i, j | 0 <= i < j < |keys| :: keys[i] != keys[j]
  }

  /** In a list naming each device once, each entry's device is counted once. */
  lemma {:induction false} NamedOnceCounted(keys: seq<DeviceKey>, j: nat)
    requires NamedOnce(keys) && j < |keys|
    ensures multiset(keys)[keys[j]] == 1
  {
    var init, last := keys[..|keys| - 1], keys[|keys| - 1];
    assert keys == init + [last];
    if j < |keys| - 1 {
      assert init[j] == keys[j] && last != keys[j];
      NamedOnceCounted(init, j);
    } else {
      assert last !in init by {
        forall i | 0 <= i < |init|
          ensures init[i] != last
        {
          assert init[i] == keys[i];
        }
      }
    }
  }

  /** A push naming each of its devices once, none of them failed before, is admitted, and so is the same
      push once more after it failed. */
  lemma OnceFailedAdmitted(counts: Counts, keys: seq<DeviceKey>)
    requires NamedOnce(keys) && forall j | 0 <= j < |keys| :: Count(counts, keys[j]) == 0
    ensures !Vetoed(counts, keys)
    ensures !Vetoed(AfterFailure(Registered(counts, keys), keys), keys)
  {
    forall j | 0 <= j < |keys|
      ensures Count(AfterFailure(Registered(counts, keys), keys), keys[j]) == 1
    {
      FailureCountsEntries(counts, keys, keys[j]);
      NamedOnceCounted(keys, j);
    }
  }

  /** Counting is per entry: one failed push whose configuration list names a device twice already refuses
      the next push naming it. */
  lemma DuplicateEntryVetoes(counts: Counts, keys: seq<DeviceKey>, later: seq<DeviceKey>, d: DeviceKey)
    requires multiset(keys)[d] >= 2 && d in later
    ensures Vetoed(AfterFailure(Registered(counts, keys), keys), later)
  {
    FailureCountsEntries(counts, keys, d);
    var j :| 0 <= j < |later| && later[j] == d;
    assert Count(AfterFailure(Registered(counts, keys), keys), later[j]) >= 2;
  }

  /** A successful push clears every device it names: the same push is admitted next time. */
  lemma SuccessClears(counts: Counts, keys: seq<DeviceKey>)
    ensures forall j | 0 <= j < |keys| :: Count(AfterSuccess(Registered(counts, keys), keys), keys[j]) == 0
    ensures !Vetoed(AfterSuccess(Registered(counts, keys), keys), keys)
  {
  }

  /** A refused push registers its devices and changes no counter. */
  lemma VetoKeepsCounters(counts: Counts, keys: seq<DeviceKey>, d: DeviceKey)
    ensures Count(Registered(counts, keys), d) == Count(counts, d)
    ensures d in keys ==> d in Registered(counts, keys)
  {
  }
}
