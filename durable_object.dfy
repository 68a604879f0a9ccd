/** The storage actor `GlobalDurableObject` (worker/durableObject.ts).

    The actor owns four slots of a key-value store. Every method reads its own slot; the
    writing methods store a new value there, `getCounterValue` never writes, and
    `getDemoItems` writes only when it seeds an absent list. No method touches another slot. The first
    half of this module states each method as a pure step from the old store to a result
    and a new store; the class at the end performs the same steps on its own fields and is
    proved against them. */
module DurableObject {
  import opened Wrappers
  import opened Types
  import opened Decimal

  // ---------------------------------------------------------------------------------
  // The store

  /** The four storage keys, named "counter_value", "demo_items", "system_info" and
      "uipath_status" in the key-value store. */
  datatype Key = CounterValueKey | DemoItemsKey | SystemInfoKey | UiPathStatusKey

  /** The contents of the actor's storage; `None` is a key that was never written. */
  datatype Store = Store(
    counter: Option<int>,
    demoItems: Option<seq<DemoItem>>,
    systemInfo: Option<SystemInfo>,
    uiPathStatus: Option<UiPathStatus>)
  {
    /** Whether the slot under `k` has been written. */
    predicate Has(k: Key) {
      match k
      case CounterValueKey => counter.Some?
      case DemoItemsKey => demoItems.Some?
      case SystemInfoKey => systemInfo.Some?
      case UiPathStatusKey => uiPathStatus.Some?
    }
  }

  /** The storage of an actor that has never been used. */
  const EmptyStore := Store(None, None, None, None)

  /** `s` and `t` agree on every slot except possibly the one under `k`. */
  predicate SameExcept(s: Store, t: Store, k: Key) {
    (k != CounterValueKey ==> t.counter == s.counter) &&
    (k != DemoItemsKey ==> t.demoItems == s.demoItems) &&
    (k != SystemInfoKey ==> t.systemInfo == s.systemInfo) &&
    (k != UiPathStatusKey ==> t.uiPathStatus == s.uiPathStatus)
  }

  /** What one method call returns, and the storage it leaves behind. */
  datatype Step<T> = Step(result: T, store: Store)

  /** One reading of the wall clock: `new Date().toISOString()` and `Date.now()`. */
  datatype Clock = Clock(iso: string, ms: nat)

  // ---------------------------------------------------------------------------------
  // Counter

  /** The counter as the methods read it: the stored value, or 0 when nothing is stored. */
  function CounterValue(s: Store): int {
    s.counter.GetOr(0)
  }

  /** The amount `increment` and `decrement` use when called without one. */
  const DefaultAmount: int := 1

  function GetCounterValueStep(s: Store): (out: Step<int>)
    ensures out.store == s
    ensures s.counter.None? ==> out.result == 0
    ensures s.counter.Some? ==> out.result == s.counter.value
  {
    Step(CounterValue(s), s)
  }

  function IncrementStep(s: Store, amount: int): (out: Step<int>)
    ensures out.result - amount == CounterValue(s)
    ensures out.store.counter == Some(out.result)
    ensures SameExcept(s, out.store, CounterValueKey)
  {
    var value := CounterValue(s) + amount;
    Step(value, s.(counter := Some(value)))
  }

  function DecrementStep(s: Store, amount: int): (out: Step<int>)
    ensures out.result + amount == CounterValue(s)
    ensures out.store.counter == Some(out.result)
    ensures SameExcept(s, out.store, CounterValueKey)
  {
    var value := CounterValue(s) - amount;
    Step(value, s.(counter := Some(value)))
  }

  // ---------------------------------------------------------------------------------
  // Demo items

  /** Read-through initialisation: an absent list is seeded with `mock` (the module's
      `MOCK_ITEMS`), which is stored and returned. A stored list is returned as it is and
      not rewritten, even when it is empty, since an array is always truthy. */
  function GetDemoItemsStep(s: Store, mock: seq<DemoItem>): (out: Step<seq<DemoItem>>)
    ensures s.demoItems.Some? ==> out == Step(s.demoItems.value, s)
    ensures s.demoItems.None? ==> out.result == mock
    ensures out.store.demoItems == Some(out.result)
    ensures SameExcept(s, out.store, DemoItemsKey)
  {
    match s.demoItems
    case Some(items) => Step(items, s)
    case None => Step(mock, s.(demoItems := Some(mock)))
  }

  /** The list every list operation starts from. */
  function CurrentItems(s: Store, mock: seq<DemoItem>): seq<DemoItem> {
    GetDemoItemsStep(s, mock).result
  }

  /** Appends the item at the end of the current list, whatever its id. */
  function AddDemoItemStep(s: Store, mock: seq<DemoItem>, item: DemoItem): (out: Step<seq<DemoItem>>)
    ensures |out.result| == |CurrentItems(s, mock)| + 1
    ensures out.result[..|CurrentItems(s, mock)|] == CurrentItems(s, mock)
    ensures out.result[|CurrentItems(s, mock)|] == item
    ensures out.store.demoItems == Some(out.result)
    ensures SameExcept(s, out.store, DemoItemsKey)
  {
    var items := CurrentItems(s, mock) + [item];
    Step(items, s.(demoItems := Some(items)))
  }

  /** The item with every field the patch holds replacing the item's own; the id stays. */
  function ApplyPatch(item: DemoItem, updates: DemoItemPatch): (r: DemoItem)
    ensures r.id == item.id
    ensures updates.name.Some? ==> r.name == updates.name.value
    ensures updates.name.None? ==> r.name == item.name
    ensures updates.value.Some? ==> r.value == updates.value.value
    ensures updates.value.None? ==> r.value == item.value
  {
    DemoItem(item.id, updates.name.GetOr(item.name), updates.value.GetOr(item.value))
  }

  /** The list with every item whose id is `id` patched, and every other item as it was. */
  function UpdateItems(items: seq<DemoItem>, id: string, updates: DemoItemPatch): (r: seq<DemoItem>)
    ensures |r| == |items|
    ensures forall i :: 0 <= i < |items| && items[i].id == id ==> r[i] == ApplyPatch(items[i], updates)
    ensures forall i :: 0 <= i < |items| && items[i].id != id ==> r[i] == items[i]
  {
    if items == [] then []
    else
      var head := if items[0].id == id then ApplyPatch(items[0], updates) else items[0];
      [head] + UpdateItems(items[1..], id, updates)
  }

  /** An update never changes an id, so it never changes which positions hold which id. */
  lemma UpdateKeepsIds(items: seq<DemoItem>, id: string, updates: DemoItemPatch)
    ensures forall i :: 0 <= i < |items| ==> UpdateItems(items, id, updates)[i].id == items[i].id
  {
  }

  /** An id that no item has leaves the list unchanged. */
  lemma {:induction false} UpdateUnknownIdIsNoOp(items: seq<DemoItem>, id: string, updates: DemoItemPatch)
    requires forall x :: x in items ==> x.id != id
    ensures UpdateItems(items, id, updates) == items
  {
    if items != [] {
      UpdateUnknownIdIsNoOp(items[1..], id, updates);
    }
  }

  /** How many items carry the id `id`. */
  function Occurrences(items: seq<DemoItem>, id: string): nat {
    if items == [] then 0
    else (if items[0].id == id then 1 else 0) + Occurrences(items[1..], id)
  }

  /** `s` can be obtained from `t` by dropping elements, keeping the order. */
  predicate IsSubsequence(s: seq<DemoItem>, t: seq<DemoItem>) {
    if s == [] then true
    else if t == [] then false
    else if s[0] == t[0] then IsSubsequence(s[1..], t[1..])
    else IsSubsequence(s, t[1..])
  }

  /** The list without the items whose id is `id`: every such item is dropped, every other
      item is kept, and the order is preserved. */
  function RemoveItems(items: seq<DemoItem>, id: string): (r: seq<DemoItem>)
    ensures forall x :: x in r <==> x in items && x.id != id
    ensures |r| == |items| - Occurrences(items, id)
    ensures IsSubsequence(r, items)
  {
    if items == [] then []
    else if items[0].id == id then RemoveItems(items[1..], id)
    else
      var rest := RemoveItems(items[1..], id);
      assert ([items[0]] + rest)[1..] == rest;
      [items[0]] + rest
  }

  /** An id that no item has leaves the list unchanged. */
  lemma {:induction false} RemoveUnknownIdIsNoOp(items: seq<DemoItem>, id: string)
    requires forall x :: x in items ==> x.id != id
    ensures RemoveItems(items, id) == items
  {
    if items != [] {
      RemoveUnknownIdIsNoOp(items[1..], id);
    }
  }

  function UpdateDemoItemStep(s: Store, mock: seq<DemoItem>, id: string, updates: DemoItemPatch): (out: Step<seq<DemoItem>>)
    ensures out.result == UpdateItems(CurrentItems(s, mock), id, updates)
    ensures out.store.demoItems == Some(out.result)
    ensures SameExcept(s, out.store, DemoItemsKey)
  {
    var items := UpdateItems(CurrentItems(s, mock), id, updates);
    Step(items, s.(demoItems := Some(items)))
  }

  function DeleteDemoItemStep(s: Store, mock: seq<DemoItem>, id: string): (out: Step<seq<DemoItem>>)
    ensures out.result == RemoveItems(CurrentItems(s, mock), id)
    ensures out.store.demoItems == Some(out.result)
    ensures SameExcept(s, out.store, DemoItemsKey)
  {
    var items := RemoveItems(CurrentItems(s, mock), id);
    Step(items, s.(demoItems := Some(items)))
  }

  /** Seeding happens once: a second read returns the list of the first and writes nothing. */
  lemma GetDemoItemsIdempotent(s: Store, mock: seq<DemoItem>)
    ensures GetDemoItemsStep(GetDemoItemsStep(s, mock).store, mock)
         == Step(GetDemoItemsStep(s, mock).result, GetDemoItemsStep(s, mock).store)
  {
  }

  // ---------------------------------------------------------------------------------
  // Uptime

  const MinuteMs: nat := 60 * 1000
  const HourMs: nat := 60 * MinuteMs
  const DayMs: nat := 24 * HourMs

  /** The hours and minutes of `ms` modulo one day. */
  function UptimeParts(ms: nat): (hm: (nat, nat))
    ensures hm.0 < 24 && hm.1 < 60
    ensures hm.0 * HourMs + hm.1 * MinuteMs <= ms % DayMs < hm.0 * HourMs + (hm.1 + 1) * MinuteMs
  {
    var uptimeMs := ms % DayMs;
    (uptimeMs / HourMs, (uptimeMs % HourMs) / MinuteMs)
  }

  /** The mock uptime: the time of day of the clock's milliseconds, written `"<h>h <m>m"`. */
  function CalculateUptime(ms: nat): string {
    var (hours, minutes) := UptimeParts(ms);
    NatToString(hours) + "h " + NatToString(minutes) + "m"
  }

  /** The part of `s` before the first `c` and the part after it, if `s` contains `c`. */
  function SplitAtFirst(s: string, c: char): Option<(string, string)> {
    if s == [] then None
    else if s[0] == c then Some(([], s[1..]))
    else match SplitAtFirst(s[1..], c)
      case None => None
      case Some((before, after)) => Some(([s[0]] + before, after))
  }

  lemma {:induction false} SplitAtFirstOf(before: string, c: char, after: string)
    requires c !in before
    ensures SplitAtFirst(before + [c] + after, c) == Some((before, after))
  {
    if before != [] {
      var s := before + [c] + after;
      assert s[0] == before[0] != c;
      assert s[1..] == before[1..] + [c] + after;
      SplitAtFirstOf(before[1..], c, after);
      assert [before[0]] + before[1..] == before;
    } else {
      assert (before + [c] + after)[1..] == after;
    }
  }

  /** Reads a string of the form `"<h>h <m>m"` back into its two numbers; each number must be
      written as a template literal writes it, so `"h 5m"` and `"05h 07m"` are refused. */
  function ParseUptime(s: string): Option<(nat, nat)> {
    match SplitAtFirst(s, 'h')
    case None => None
    case Some((hours, rest)) =>
      if IsNumeral(hours) && 2 <= |rest| && rest[0] == ' ' && rest[|rest| - 1] == 'm'
         && IsNumeral(rest[1..|rest| - 1])
      then Some((DigitsValue(hours), DigitsValue(rest[1..|rest| - 1])))
      else None
  }

  /** The uptime string determines the hours and minutes it was made from. */
  lemma UptimeRoundTrip(ms: nat)
    ensures ParseUptime(CalculateUptime(ms)) == Some(UptimeParts(ms))
  {
    var (hours, minutes) := UptimeParts(ms);
    var h, m := NatToString(hours), NatToString(minutes);
    assert 'h' !in h;
    assert CalculateUptime(ms) == h + ['h'] + (" " + m + "m");
    SplitAtFirstOf(h, 'h', " " + m + "m");
    var rest := " " + m + "m";
    assert rest[1..|rest| - 1] == m;
    DigitsValueOfNatToString(hours);
    DigitsValueOfNatToString(minutes);
  }

  // ---------------------------------------------------------------------------------
  // System information

  /** The snapshot stored on first use. */
  function InitialSystemInfo(now: Clock): (info: SystemInfo)
    ensures info.timestamp == now.iso
    ensures info.environment == "Production" && info.version == "1.0.0"
    ensures ParseUptime(info.uptime) == Some(UptimeParts(now.ms))
  {
    UptimeRoundTrip(now.ms);
    SystemInfo(now.iso, "Production", "1.0.0", CalculateUptime(now.ms))
  }

  /** Read-through initialisation; a stored snapshot gets a fresh timestamp, which is written back. */
  function GetSystemInfoStep(s: Store, now: Clock): (out: Step<SystemInfo>)
    ensures s.systemInfo.Some? ==> out.result == s.systemInfo.value.(timestamp := now.iso)
    ensures s.systemInfo.None? ==> out.result == InitialSystemInfo(now)
    ensures out.store.systemInfo == Some(out.result)
    ensures SameExcept(s, out.store, SystemInfoKey)
  {
    var info := match s.systemInfo
      case Some(cached) => cached.(timestamp := now.iso)
      case None => InitialSystemInfo(now);
    Step(info, s.(systemInfo := Some(info)))
  }

  /** The shallow merge of a patch over a snapshot: every field the patch holds wins over the
      snapshot's, except the timestamp, which is always `now`. */
  function MergeSystemInfo(current: SystemInfo, info: SystemInfoPatch, now: string): (r: SystemInfo)
    ensures r.timestamp == now
    ensures info.environment.Some? ==> r.environment == info.environment.value
    ensures info.environment.None? ==> r.environment == current.environment
    ensures info.version.Some? ==> r.version == info.version.value
    ensures info.version.None? ==> r.version == current.version
    ensures info.uptime.Some? ==> r.uptime == info.uptime.value
    ensures info.uptime.None? ==> r.uptime == current.uptime
  {
    SystemInfo(now, info.environment.GetOr(current.environment), info.version.GetOr(current.version),
               info.uptime.GetOr(current.uptime))
  }

  function SetSystemInfoStep(s: Store, info: SystemInfoPatch, now: Clock): (out: Step<SystemInfo>)
    ensures out.result == MergeSystemInfo(GetSystemInfoStep(s, now).result, info, now.iso)
    ensures out.store.systemInfo == Some(out.result)
    ensures SameExcept(s, out.store, SystemInfoKey)
  {
    var updated := MergeSystemInfo(GetSystemInfoStep(s, now).result, info, now.iso);
    Step(updated, s.(systemInfo := Some(updated)))
  }

  /** Between two reads only the timestamp moves: environment, version and uptime stay. */
  lemma SystemInfoStableAcrossReads(s: Store, first: Clock, second: Clock)
    ensures var a := GetSystemInfoStep(s, first);
            GetSystemInfoStep(a.store, second).result == a.result.(timestamp := second.iso)
  {
  }

  // ---------------------------------------------------------------------------------
  // UiPath status

  /** The mock "connected" snapshot stored on first use. */
  function InitialUiPathStatus(now: Clock): (status: UiPathStatus)
    ensures status.connected && status.status == Connected
    ensures status.orchestratorUrl == Some("https://cloud.uipath.com")
    ensures status.lastChecked == now.iso
  {
    UiPathStatus(true, Some("https://cloud.uipath.com"), now.iso, Connected)
  }

  /** Read-through initialisation; a stored snapshot gets a fresh `lastChecked`, written back. */
  function GetUiPathStatusStep(s: Store, now: Clock): (out: Step<UiPathStatus>)
    ensures s.uiPathStatus.Some? ==> out.result == s.uiPathStatus.value.(lastChecked := now.iso)
    ensures s.uiPathStatus.None? ==> out.result == InitialUiPathStatus(now)
    ensures out.store.uiPathStatus == Some(out.result)
    ensures SameExcept(s, out.store, UiPathStatusKey)
  {
    var status := match s.uiPathStatus
      case Some(cached) => cached.(lastChecked := now.iso)
      case None => InitialUiPathStatus(now);
    Step(status, s.(uiPathStatus := Some(status)))
  }

  /** The shallow merge of a patch over a status, with `lastChecked` set to `now`. Nothing
      ties `connected` to `status`. */
  function MergeUiPathStatus(current: UiPathStatus, status: UiPathStatusPatch, now: string): (r: UiPathStatus)
    ensures r.lastChecked == now
    ensures status.connected.Some? ==> r.connected == status.connected.value
    ensures status.connected.None? ==> r.connected == current.connected
    ensures status.orchestratorUrl.Some? ==> r.orchestratorUrl == status.orchestratorUrl
    ensures status.orchestratorUrl.None? ==> r.orchestratorUrl == current.orchestratorUrl
    ensures status.status.Some? ==> r.status == status.status.value
    ensures status.status.None? ==> r.status == current.status
  {
    UiPathStatus(
      status.connected.GetOr(current.connected),
      if status.orchestratorUrl.Some? then status.orchestratorUrl else current.orchestratorUrl,
      now,
      status.status.GetOr(current.status))
  }

  function SetUiPathStatusStep(s: Store, status: UiPathStatusPatch, now: Clock): (out: Step<UiPathStatus>)
    ensures out.result == MergeUiPathStatus(GetUiPathStatusStep(s, now).result, status, now.iso)
    ensures out.store.uiPathStatus == Some(out.result)
    ensures SameExcept(s, out.store, UiPathStatusKey)
  {
    var updated := MergeUiPathStatus(GetUiPathStatusStep(s, now).result, status, now.iso);
    Step(updated, s.(uiPathStatus := Some(updated)))
  }

  /** Writing `{ connected: false }` and reading again shows `connected: false`, keeps the URL
      the snapshot had before the write, and stamps the second read's time. */
  lemma DisconnectThenRead(s: Store, write: Clock, read: Clock)
    ensures var before := GetUiPathStatusStep(s, write).result;
            var w := SetUiPathStatusStep(s, UiPathStatusPatch(Some(false), None, None, None), write);
            var r := GetUiPathStatusStep(w.store, read).result;
            !r.connected && r.orchestratorUrl == before.orchestratorUrl && r.lastChecked == read.iso
              && r.status == before.status
  {
  }

  /** `connected` and `status` can disagree: the merge accepts any combination. */
  lemma ConnectedAndStatusIndependent(s: Store, now: Clock, connected: bool, status: ConnectionStatus)
    ensures var r := SetUiPathStatusStep(s, UiPathStatusPatch(Some(connected), None, None, Some(status)), now).result;
            r.connected == connected && r.status == status
  {
  }

  // ---------------------------------------------------------------------------------
  // The actor's methods as calls

  /** The public methods of `GlobalDurableObject`, with their arguments. */
  datatype Call =
    | GetCounterValue
    | Increment(amount: int)
    | Decrement(amount: int)
    | GetDemoItems
    | AddDemoItem(item: DemoItem)
    | UpdateDemoItem(id: string, updates: DemoItemPatch)
    | DeleteDemoItem(id: string)
    | GetSystemInfo
    | SetSystemInfo(info: SystemInfoPatch)
    | GetUiPathStatus
    | SetUiPathStatus(status: UiPathStatusPatch)

  /** What a method resolves to. */
  datatype Reply = Number(n: int) | Items(items: seq<DemoItem>) | Info(info: SystemInfo) | Status(status: UiPathStatus)

  /** The one storage key a call reads and may write. */
  function KeyOf(c: Call): Key {
    match c
    case GetCounterValue | Increment(_) | Decrement(_) => CounterValueKey
    case GetDemoItems | AddDemoItem(_) | UpdateDemoItem(_, _) | DeleteDemoItem(_) => DemoItemsKey
    case GetSystemInfo | SetSystemInfo(_) => SystemInfoKey
    case GetUiPathStatus | SetUiPathStatus(_) => UiPathStatusKey
  }

  /** The change a call makes to the counter. */
  function CounterDelta(c: Call): int {
    match c
    case Increment(amount) => amount
    case Decrement(amount) => -amount
    case _ => 0
  }

  /** One call on the actor whose storage is `s`. Every call writes at most its own key,
      every call but `GetCounterValue` leaves its key written, and no call clears a key. */
  function Perform(c: Call, s: Store, mock: seq<DemoItem>, now: Clock): (out: Step<Reply>)
    ensures SameExcept(s, out.store, KeyOf(c))
    ensures !c.GetCounterValue? ==> out.store.Has(KeyOf(c))
    ensures c.GetCounterValue? ==> out.store == s
    ensures CounterValue(out.store) == CounterValue(s) + CounterDelta(c)
    ensures c.GetCounterValue? ==> out.result == Number(CounterValue(s))
    ensures c.Increment? ==> out == Step(Number(IncrementStep(s, c.amount).result), IncrementStep(s, c.amount).store)
    ensures c.Decrement? ==> out == Step(Number(DecrementStep(s, c.amount).result), DecrementStep(s, c.amount).store)
    ensures c.GetDemoItems? ==> out == Step(Items(GetDemoItemsStep(s, mock).result), GetDemoItemsStep(s, mock).store)
    ensures c.AddDemoItem? ==>
              out == Step(Items(AddDemoItemStep(s, mock, c.item).result), AddDemoItemStep(s, mock, c.item).store)
    ensures c.UpdateDemoItem? ==>
              out == Step(Items(UpdateDemoItemStep(s, mock, c.id, c.updates).result),
                          UpdateDemoItemStep(s, mock, c.id, c.updates).store)
    ensures c.DeleteDemoItem? ==>
              out == Step(Items(DeleteDemoItemStep(s, mock, c.id).result), DeleteDemoItemStep(s, mock, c.id).store)
    ensures c.GetSystemInfo? ==> out == Step(Info(GetSystemInfoStep(s, now).result), GetSystemInfoStep(s, now).store)
    ensures c.SetSystemInfo? ==>
              out == Step(Info(SetSystemInfoStep(s, c.info, now).result), SetSystemInfoStep(s, c.info, now).store)
    ensures c.GetUiPathStatus? ==>
              out == Step(Status(GetUiPathStatusStep(s, now).result), GetUiPathStatusStep(s, now).store)
    ensures c.SetUiPathStatus? ==>
              out == Step(Status(SetUiPathStatusStep(s, c.status, now).result), SetUiPathStatusStep(s, c.status, now).store)
  {
    match c
    case GetCounterValue => var o := GetCounterValueStep(s); Step(Number(o.result), o.store)
    case Increment(amount) => var o := IncrementStep(s, amount); Step(Number(o.result), o.store)
    case Decrement(amount) => var o := DecrementStep(s, amount); Step(Number(o.result), o.store)
    case GetDemoItems => var o := GetDemoItemsStep(s, mock); Step(Items(o.result), o.store)
    case AddDemoItem(item) => var o := AddDemoItemStep(s, mock, item); Step(Items(o.result), o.store)
    case UpdateDemoItem(id, updates) => var o := UpdateDemoItemStep(s, mock, id, updates); Step(Items(o.result), o.store)
    case DeleteDemoItem(id) => var o := DeleteDemoItemStep(s, mock, id); Step(Items(o.result), o.store)
    case GetSystemInfo => var o := GetSystemInfoStep(s, now); Step(Info(o.result), o.store)
    case SetSystemInfo(info) => var o := SetSystemInfoStep(s, info, now); Step(Info(o.result), o.store)
    case GetUiPathStatus => var o := GetUiPathStatusStep(s, now); Step(Status(o.result), o.store)
    case SetUiPathStatus(status) => var o := SetUiPathStatusStep(s, status, now); Step(Status(o.result), o.store)
  }

  /** The storage after a series of calls, each with the clock reading it was made at. */
  function Run(s: Store, mock: seq<DemoItem>, calls: seq<(Call, Clock)>): Store
    decreases |calls|
  {
    if calls == [] then s
    else Run(Perform(calls[0].0, s, mock, calls[0].1).store, mock, calls[1..])
  }

  /** The sum of the counter changes of a series of calls. */
  function NetDelta(calls: seq<(Call, Clock)>): int
    decreases |calls|
  {
    if calls == [] then 0 else CounterDelta(calls[0].0) + NetDelta(calls[1..])
  }

  /** No lost updates: after any series of calls the counter is its old value plus the sum of
      the increments minus the sum of the decrements. */
  lemma {:induction false} CounterTracksNetDelta(s: Store, mock: seq<DemoItem>, calls: seq<(Call, Clock)>)
    ensures CounterValue(Run(s, mock, calls)) == CounterValue(s) + NetDelta(calls)
    decreases |calls|
  {
    if calls != [] {
      CounterTracksNetDelta(Perform(calls[0].0, s, mock, calls[0].1).store, mock, calls[1..]);
    }
  }

  /** Initialisation happens at most once per key: once written, a key stays written through
      any series of calls, so no later read sees it absent and seeds it again. */
  lemma {:induction false} WrittenKeysStayWritten(s: Store, mock: seq<DemoItem>, calls: seq<(Call, Clock)>, k: Key)
    requires s.Has(k)
    ensures Run(s, mock, calls).Has(k)
    decreases |calls|
  {
    if calls != [] {
      var next := Perform(calls[0].0, s, mock, calls[0].1).store;
      assert next.Has(k);
      WrittenKeysStayWritten(next, mock, calls[1..], k);
    }
  }

  // ---------------------------------------------------------------------------------
  // The actor

  /** `GlobalDurableObject`: the four slots are fields; `mockItems` stands for `MOCK_ITEMS`. */
  class GlobalDurableObject {
    const mockItems: seq<DemoItem>
    var counter: Option<int>
    var demoItems: Option<seq<DemoItem>>
    var systemInfo: Option<SystemInfo>
    var uiPathStatus: Option<UiPathStatus>

    /** The storage the fields hold. */
    function State(): Store
      reads this
    {
      Store(counter, demoItems, systemInfo, uiPathStatus)
    }

    /** An actor over storage that already holds `storage` (durable across restarts). */
    constructor (storage: Store, mockItems: seq<DemoItem>)
      ensures State() == storage && this.mockItems == mockItems
    {
      this.mockItems := mockItems;
      counter := storage.counter;
      demoItems := storage.demoItems;
      systemInfo := storage.systemInfo;
      uiPathStatus := storage.uiPathStatus;
    }

    method GetCounterValue() returns (value: int)
      ensures Step(value, State()) == GetCounterValueStep(State())
    {
      value := if counter.Some? then counter.value else 0;
    }

    method Increment(amount: int := DefaultAmount) returns (value: int)
      modifies this`counter
      ensures Step(value, State()) == IncrementStep(old(State()), amount)
    {
      value := if counter.Some? then counter.value else 0;
      value := value + amount;
      counter := Some(value);
    }

    method Decrement(amount: int := DefaultAmount) returns (value: int)
      modifies this`counter
      ensures Step(value, State()) == DecrementStep(old(State()), amount)
    {
      value := if counter.Some? then counter.value else 0;
      value := value - amount;
      counter := Some(value);
    }

    method GetDemoItems() returns (items: seq<DemoItem>)
      modifies this`demoItems
      ensures Step(items, State()) == GetDemoItemsStep(old(State()), mockItems)
    {
      if demoItems.Some? {
        return demoItems.value;
      }
      demoItems := Some(mockItems);
      items := mockItems;
    }

    method AddDemoItem(item: DemoItem) returns (updatedItems: seq<DemoItem>)
      modifies this`demoItems
      ensures Step(updatedItems, State()) == AddDemoItemStep(old(State()), mockItems, item)
    {
      var items := GetDemoItems();
      updatedItems := items + [item];
      demoItems := Some(updatedItems);
    }

    method UpdateDemoItem(id: string, updates: DemoItemPatch) returns (updatedItems: seq<DemoItem>)
      modifies this`demoItems
      ensures Step(updatedItems, State()) == UpdateDemoItemStep(old(State()), mockItems, id, updates)
    {
      var items := GetDemoItems();
      updatedItems := UpdateItems(items, id, updates);
      demoItems := Some(updatedItems);
    }

    method DeleteDemoItem(id: string) returns (updatedItems: seq<DemoItem>)
      modifies this`demoItems
      ensures Step(updatedItems, State()) == DeleteDemoItemStep(old(State()), mockItems, id)
    {
      var items := GetDemoItems();
      updatedItems := RemoveItems(items, id);
      demoItems := Some(updatedItems);
    }

    method GetSystemInfo(now: Clock) returns (info: SystemInfo)
      modifies this`systemInfo
      ensures Step(info, State()) == GetSystemInfoStep(old(State()), now)
    {
      if systemInfo.Some? {
        info := systemInfo.value.(timestamp := now.iso);
        systemInfo := Some(info);
        return;
      }
      info := SystemInfo(now.iso, "Production", "1.0.0", CalculateUptime(now.ms));
      systemInfo := Some(info);
    }

    method SetSystemInfo(info: SystemInfoPatch, now: Clock) returns (updated: SystemInfo)
      modifies this`systemInfo
      ensures Step(updated, State()) == SetSystemInfoStep(old(State()), info, now)
    {
      var current := GetSystemInfo(now);
      updated := MergeSystemInfo(current, info, now.iso);
      systemInfo := Some(updated);
    }

    method GetUiPathStatus(now: Clock) returns (status: UiPathStatus)
      modifies this`uiPathStatus
      ensures Step(status, State()) == GetUiPathStatusStep(old(State()), now)
    {
      if uiPathStatus.Some? {
        status := uiPathStatus.value.(lastChecked := now.iso);
        uiPathStatus := Some(status);
        return;
      }
      status := UiPathStatus(true, Some("https://cloud.uipath.com"), now.iso, Connected);
      uiPathStatus := Some(status);
    }

    method SetUiPathStatus(status: UiPathStatusPatch, now: Clock) returns (updated: UiPathStatus)
      modifies this`uiPathStatus
      ensures Step(updated, State()) == SetUiPathStatusStep(old(State()), status, now)
    {
      var current := GetUiPathStatus(now);
      updated := MergeUiPathStatus(current, status, now.iso);
      uiPathStatus := Some(updated);
    }
  }
}
