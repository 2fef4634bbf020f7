/** The dashboard of dash.py: sixteen Tk variables mirrored from a JSON
    snapshot file by a periodic `update_callback`, four of them editable
    through labels, plus the gun-connection toggle, the authorize button and
    the emergency stop. The `update_state` flags decide, on every tick,
    whether the variables are first written to the file and whether they are
    then reloaded from it. */
module Dashboard {
  import opened Coordination
  import opened EditableLabels

  /** The key under which dash.py stores each field in the snapshot file. */
  function Key(f: Field): string {
    match f
    case StatusEvse => "status_evse"
    case GunConnected => "Gun_connected"
    case SendOrStop => "send_or_stop"
    case Network => "Network"
    case ReservationId => "Reservation_id"
    case Estop => "Estop"
    case Powerloss => "Powerloss"
    case IdTag => "Idtag"
    case Voltage => "Voltage"
    case Current => "Current"
    case ActivePower => "Active_Power"
    case Frequency => "Frequency"
    case PowerFactor => "Power_factor"
    case Temperature => "Temperature"
    case OfferedCurrent => "offered_current"
    case MeterReading => "meter_reading"
  }

  /** The lookups `update_from_file` makes, in the order it makes them.
      monitor.py repeats this machinery with its own keys and order, and so
      does the MonitorDraft module, deliberately: the two programs are
      separate copies of the same coordinator. */
  const LoadOrder: seq<Field> := [
    Network, StatusEvse, GunConnected, SendOrStop, ReservationId,
    OfferedCurrent, MeterReading, Estop, Powerloss, IdTag, Voltage, Current,
    ActivePower, Frequency, PowerFactor, Temperature ]

  /** The values the Tk variables start with: 0 for an IntVar, "" for a
      StringVar, 0.0 for the DoubleVar. */
  const InitialValues: map<Field, Value> := map[
    StatusEvse := Text(""), GunConnected := Int(0), SendOrStop := Int(0),
    Network := Int(0), ReservationId := Int(0), Estop := Int(0),
    Powerloss := Int(0), IdTag := Text(""), Voltage := Int(0),
    Current := Int(0), ActivePower := Int(0), Frequency := Int(0),
    PowerFactor := Int(0), Temperature := Int(0),
    OfferedCurrent := Float(0.0, "0.0"), MeterReading := Int(0) ]

  /** Every field has a Tk variable from the start. */
  lemma InitialValuesComplete()
    ensures forall f :: f in InitialValues
  {
    forall f ensures f in InitialValues {
      match f
      case StatusEvse =>
      case GunConnected =>
      case SendOrStop =>
      case Network =>
      case ReservationId =>
      case Estop =>
      case Powerloss =>
      case IdTag =>
      case Voltage =>
      case Current =>
      case ActivePower =>
      case Frequency =>
      case PowerFactor =>
      case Temperature =>
      case OfferedCurrent =>
      case MeterReading =>
    }
  }

  /** Where each field's lookup comes in `update_from_file`: every field is
      looked up, the network field first. */
  function LoadIndex(f: Field): (i: nat)
    ensures i < |LoadOrder| && LoadOrder[i] == f
  {
    match f
    case Network => 0
    case StatusEvse => 1
    case GunConnected => 2
    case SendOrStop => 3
    case ReservationId => 4
    case OfferedCurrent => 5
    case MeterReading => 6
    case Estop => 7
    case Powerloss => 8
    case IdTag => 9
    case Voltage => 10
    case Current => 11
    case ActivePower => 12
    case Frequency => 13
    case PowerFactor => 14
    case Temperature => 15
  }

  /** No field is looked up twice. */
  lemma LoadOrderDistinct()
    ensures forall i :: 0 <= i < |LoadOrder| ==> LoadIndex(LoadOrder[i]) == i
  {}

  /** Reads a key of the file back as the field it belongs to. */
  function FieldOf(k: string): Option<Field> {
    match k
    case "status_evse" => Some(StatusEvse)
    case "Gun_connected" => Some(GunConnected)
    case "send_or_stop" => Some(SendOrStop)
    case "Network" => Some(Network)
    case "Reservation_id" => Some(ReservationId)
    case "Estop" => Some(Estop)
    case "Powerloss" => Some(Powerloss)
    case "Idtag" => Some(IdTag)
    case "Voltage" => Some(Voltage)
    case "Current" => Some(Current)
    case "Active_Power" => Some(ActivePower)
    case "Frequency" => Some(Frequency)
    case "Power_factor" => Some(PowerFactor)
    case "Temperature" => Some(Temperature)
    case "offered_current" => Some(OfferedCurrent)
    case "meter_reading" => Some(MeterReading)
    case _ => None
  }

  /** A key that reads back as a field is that field's key. */
  lemma KeyOfFieldOf(k: string)
    requires FieldOf(k).Some?
    ensures Key(FieldOf(k).value) == k
  {}

  /** Reading a field's key back gives the field, so no two fields share a
      key. */
  lemma KeyInjective()
    ensures forall f :: FieldOf(Key(f)) == Some(f)
  {
    forall f ensures FieldOf(Key(f)) == Some(f) {}
  }

  /** The dictionary `on_save` serialises: one entry per variable, under
      the variable's key. */
  function SaveData(values: map<Field, Value>): Snapshot {
    KeyInjective();
    map f | f in values :: Key(f) := values[f]
  }

  /** With every variable present, the file `on_save` writes has exactly the
      sixteen keys of the table, each holding its variable's value. */
  lemma SaveDataSpec(values: map<Field, Value>)
    requires forall f :: f in values
    ensures Complete(SaveData(values))
    ensures forall k :: k in SaveData(values) <==> FieldOf(k).Some?
    ensures forall f :: SaveData(values)[Key(f)] == values[f]
  {
    KeyInjective();
    var data := SaveData(values);
    forall f ensures Key(f) in data && data[Key(f)] == values[f] {
      assert Key(f) in data;
    }
    forall k | FieldOf(k).Some? ensures k in data {
      var f := FieldOf(k).value;
      KeyOfFieldOf(k);
      assert Key(f) in data;
    }
  }

  /** Everything the coordinator reads or writes, as values. */
  datatype Form = Form(
    shared: Shared,          // update_state and the sixteen variables
    file: Option<Snapshot>,  // the snapshot file
    gunToggle: bool,         // gun_connection_toggle_state
    authorized: bool,        // authorization_state
    networkText: string,     // the text of network_state_label
    powerlossShown: bool,    // whether powerloss_container is packed
    timers: nat)             // update_callback calls scheduled with after()

  ghost predicate Valid(s: Form) {
    forall f :: f in s.shared.values
  }

  /** A file that has a key for every lookup of `update_from_file`. */
  ghost predicate Complete(data: Snapshot) {
    forall f :: Key(f) in data
  }

  /** The network label after a refresh reads `v`. */
  function NetworkText(v: Value, current: string): string {
    if EqualsInt(v, 0) then "Offline" else if EqualsInt(v, 1) then "Online" else current
  }

  /** One lookup of `update_from_file`: the variable and, for the network and
      power-loss fields, the indicator that follows it. */
  function AfterLoadField(s: Form, data: Snapshot, f: Field): Form
    requires Key(f) in data
  {
    var v := data[Key(f)];
    var t := s.(shared := s.shared.(values := s.shared.values[f := v]));
    if f == Network then t.(networkText := NetworkText(v, s.networkText))
    else if f == Powerloss then t.(powerlossShown := PanelShown(v, s.powerlossShown))
    else t
  }

  /** The lookups of `update_from_file` from `order` onward: the form after
      them, and whether each found its key. The first missing key raises a
      KeyError, which leaves the assignments made before it in place. */
  function AfterLookups(s: Form, data: Snapshot, order: seq<Field>): (Form, bool)
    decreases |order|
  {
    if order == [] then (s, true)
    else if Key(order[0]) !in data then (s, false)
    else AfterLookups(AfterLoadField(s, data, order[0]), data, order[1..])
  }

  /** The lookups of `order` that succeed: the longest prefix whose keys the
      file has. The lookup after it, if any, is the one that raises. */
  function Found(data: Snapshot, order: seq<Field>): (p: seq<Field>)
    ensures |p| <= |order| && forall i :: 0 <= i < |p| ==> p[i] == order[i]
    ensures forall f :: f in p ==> Key(f) in data
    ensures |p| < |order| ==> Key(order[|p|]) !in data
    decreases |order|
  {
    if order == [] || Key(order[0]) !in data then []
    else [order[0]] + Found(data, order[1..])
  }

  /** The fields a sequence of lookups names. */
  ghost function FieldsOf(p: seq<Field>): set<Field> {
    set f | f in p
  }

  /** Whether the lookup of `f`, and every lookup before it, finds its key:
      exactly then has `update_from_file` assigned `f`'s variable. */
  ghost predicate Reached(data: Snapshot, f: Field) {
    forall g :: LoadIndex(g) <= LoadIndex(f) ==> Key(g) in data
  }

  /** The form once the lookups of the fields in `reached` have set their
      variables and the indicators that follow them. */
  ghost function Loaded(s: Form, data: Snapshot, reached: set<Field>): Form
    requires forall f :: f in reached ==> Key(f) in data
  {
    var values := map f | f in s.shared.values :: if f in reached then data[Key(f)] else s.shared.values[f];
    s.(shared := s.shared.(values := values),
       networkText := if Network in reached then NetworkText(data[Key(Network)], s.networkText) else s.networkText,
       powerlossShown := if Powerloss in reached then PanelShown(data[Key(Powerloss)], s.powerlossShown) else s.powerlossShown)
  }

  /** `update_from_file`: the form after it, and whether it returned rather
      than raised (the file could not be read, or a key was missing). */
  ghost function AfterLoad(s: Form): (Form, bool) {
    match s.file
    case None => (s, false)
    case Some(data) => (Loaded(s, data, set f | Reached(data, f)), Complete(data))
  }

  /** `on_save`: the file is replaced by the variables' values. */
  function AfterSave(s: Form): Form
    requires Valid(s)
  {
    s.(file := Some(SaveData(s.shared.values)))
  }

  /** The first half of `update_callback`: a pending commit is written to
      the file and both flags are cleared. */
  function AfterFlush(s: Form): Form
    requires Valid(s)
  {
    if s.shared.commit != "" then AfterSave(s).(shared := s.shared.(commit := "", editing := ""))
    else s
  }

  /** The second half: reload unless a field is being edited, then schedule
      the next call unless the reload raised. */
  ghost function AfterRefresh(s: Form): Form {
    if s.shared.editing == "" then
      var (loaded, ok) := AfterLoad(s);
      if ok then loaded.(timers := loaded.timers + 1) else loaded
    else
      s.(timers := s.timers + 1)
  }

  /** `update_callback`: flush a pending commit, refresh unless a field is
      being edited, and schedule the next call unless an exception escaped. */
  ghost function AfterUpdate(s: Form): Form
    requires Valid(s)
  {
    AfterRefresh(AfterFlush(s))
  }

  /** One scheduled `update_callback` fires; with none scheduled, nothing does. */
  ghost function AfterTick(s: Form): Form
    requires Valid(s)
  {
    if s.timers == 0 then s else AfterUpdate(s.(timers := s.timers - 1))
  }

  /** `n` scheduled calls in a row; every variable stays present. */
  ghost function AfterTicks(s: Form, n: nat): (r: Form)
    requires Valid(s)
    ensures Valid(r)
    decreases n
  {
    if n == 0 then s
    else
      TickKeepsFields(s);
      AfterTicks(AfterTick(s), n - 1)
  }

  /** The gun-connection button: the toggle state always flips; the variable
      and the flags change only when the variable held the old state. */
  function AfterGunToggle(s: Form): Form
    requires Valid(s)
  {
    var values := s.shared.values;
    if !s.gunToggle then
      var t := s.(gunToggle := true);
      if EqualsInt(values[GunConnected], 0) then
        t.(shared := Shared("gun_connection_toggled", "gun_connection_toggled", values[GunConnected := Int(1)]))
      else t
    else
      var t := s.(gunToggle := false);
      if EqualsInt(values[GunConnected], 1) then
        t.(shared := Shared("gun_connection_toggled", "gun_connected_toggled", values[GunConnected := Int(0)]))
      else t
  }

  /** The authorize button; the authorization check always succeeds. */
  function AfterAuthorize(s: Form): Form
    requires Valid(s)
  {
    var values := s.shared.values;
    if !s.authorized then
      var t := s.(authorized := true);
      if EqualsInt(values[SendOrStop], 0) then
        t.(shared := Shared("authorize", "authorize", values[SendOrStop := Int(1)]))
      else t
    else
      var t := s.(authorized := false);
      if EqualsInt(values[SendOrStop], 1) then
        t.(shared := Shared("authorize", "authorize", values[SendOrStop := Int(0)]))
      else t
  }

  /** The emergency-stop button. */
  function AfterEstop(s: Form): Form {
    s.(shared := Shared("on_estop", "on_estop", s.shared.values[Estop := Int(1)]))
  }

  /** The form after a label callback changed the shared state. */
  function WithShared(s: Form, shared: Shared): Form {
    s.(shared := shared)
  }

  // ---------------------------------------------------------------------
  // What a run of `update_from_file` does

  /** One more lookup in front of the ones already made. Applying an
      indicator update twice with the same value changes nothing more. */
  lemma LoadedStep(s: Form, data: Snapshot, g: Field, reached: set<Field>)
    requires Valid(s) && Key(g) in data
    requires forall f :: f in reached ==> Key(f) in data
    ensures Loaded(AfterLoadField(s, data, g), data, reached) == Loaded(s, data, reached + {g})
  {
    var next := AfterLoadField(s, data, g);
    assert Loaded(next, data, reached).shared.values == Loaded(s, data, reached + {g}).shared.values;
  }

  /** The lookups made one by one end where the closed form says: every
      variable reached holds the file's value, every other one is unchanged,
      and the run returns normally exactly when no lookup missed. */
  lemma {:induction false} LookupsLoaded(s: Form, data: Snapshot, order: seq<Field>)
    requires Valid(s)
    ensures AfterLookups(s, data, order) == (Loaded(s, data, FieldsOf(Found(data, order))), |Found(data, order)| == |order|)
    decreases |order|
  {
    if order == [] || Key(order[0]) !in data {
      LoadedNothing(s, data);
    } else {
      var next := AfterLoadField(s, data, order[0]);
      var rest := Found(data, order[1..]);
      LookupsCons(s, data, order);
      LookupsLoaded(next, data, order[1..]);
      LoadedStep(s, data, order[0], FieldsOf(rest));
      FieldsOfCons(order[0], rest);
    }
  }

  lemma LookupsCons(s: Form, data: Snapshot, order: seq<Field>)
    requires order != [] && Key(order[0]) in data
    ensures AfterLookups(s, data, order) == AfterLookups(AfterLoadField(s, data, order[0]), data, order[1..])
    ensures Found(data, order) == [order[0]] + Found(data, order[1..])
    ensures |order| == |order[1..]| + 1
  {}

  lemma LoadedNothing(s: Form, data: Snapshot)
    requires Valid(s)
    ensures Loaded(s, data, FieldsOf([])) == s
  {
    assert FieldsOf([]) == {};
    assert Loaded(s, data, {}).shared.values == s.shared.values;
  }

  lemma FieldsOfCons(g: Field, rest: seq<Field>)
    ensures FieldsOf([g] + rest) == FieldsOf(rest) + {g}
  {}

  /** A field's lookup succeeds exactly when it comes before the first
      missing key. */
  lemma FoundPositions(data: Snapshot)
    ensures forall f :: f in Found(data, LoadOrder) <==> LoadIndex(f) < |Found(data, LoadOrder)|
  {
    var found := Found(data, LoadOrder);
    LoadOrderDistinct();
    forall f | f in found ensures LoadIndex(f) < |found| {
      var j :| 0 <= j < |found| && found[j] == f;
      assert LoadOrder[j] == f;
    }
    forall f | LoadIndex(f) < |found| ensures f in found {
      assert found[LoadIndex(f)] == f;
    }
  }

  /** A field is reached exactly when it comes before the first missing key. */
  lemma ReachedPositions(data: Snapshot)
    ensures forall f :: Reached(data, f) <==> LoadIndex(f) < |Found(data, LoadOrder)|
  {
    var found := Found(data, LoadOrder);
    var k := |found|;
    forall f ensures Reached(data, f) <==> LoadIndex(f) < k {
      if LoadIndex(f) < k {
        forall g | LoadIndex(g) <= LoadIndex(f) ensures Key(g) in data {
          assert found[LoadIndex(g)] == g;
        }
      } else {
        LoadOrderDistinct();
        assert LoadIndex(LoadOrder[k]) == k;
      }
    }
  }

  /** The lookups that succeed, in the order `update_from_file` makes them,
      are exactly the reached fields. */
  lemma FoundReached(data: Snapshot)
    ensures FieldsOf(Found(data, LoadOrder)) == (set f | Reached(data, f))
  {
    FoundPositions(data);
    ReachedPositions(data);
  }

  /** Every lookup succeeds exactly when the file has every key. */
  lemma AllFoundIffComplete(data: Snapshot)
    ensures |Found(data, LoadOrder)| == |LoadOrder| <==> Complete(data)
  {
    var found := Found(data, LoadOrder);
    if |found| < |LoadOrder| {
      assert Key(LoadOrder[|found|]) !in data;
    } else {
      forall f ensures Key(f) in data {
        assert found[LoadIndex(f)] == f;
      }
    }
  }

  /** The dashboard's `update_from_file` is the lookups of the table, made
      one after another. */
  lemma LoadByLookups(s: Form, data: Snapshot)
    requires Valid(s) && s.file == Some(data)
    ensures AfterLoad(s) == AfterLookups(s, data, LoadOrder)
  {
    LookupsLoaded(s, data, LoadOrder);
    FoundReached(data);
    AllFoundIffComplete(data);
  }

  /** With every key present, a load sets every variable from the file and
      returns normally. */
  lemma LoadComplete(s: Form, data: Snapshot)
    requires Valid(s) && s.file == Some(data) && Complete(data)
    ensures var (r, ok) := AfterLoad(s);
            && ok && Valid(r)
            && (forall f :: r.shared.values[f] == data[Key(f)])
            && r.networkText == NetworkText(data[Key(Network)], s.networkText)
            && r.powerlossShown == PanelShown(data[Key(Powerloss)], s.powerlossShown)
            && r == s.(shared := s.shared.(values := r.shared.values),
                       networkText := r.networkText, powerlossShown := r.powerlossShown)
  {
  }

  /** Loading a complete file that already holds every variable's value
      changes no variable and no flag. */
  lemma LoadUnchanged(s: Form, data: Snapshot)
    requires Valid(s) && s.file == Some(data) && Complete(data)
    requires forall f :: data[Key(f)] == s.shared.values[f]
    ensures AfterLoad(s) == (s.(networkText := NetworkText(s.shared.values[Network], s.networkText),
                                powerlossShown := PanelShown(s.shared.values[Powerloss], s.powerlossShown)), true)
  {
    LoadComplete(s, data);
    var r := AfterLoad(s).0;
    assert forall f :: r.shared.values[f] == s.shared.values[f];
    assert r.shared.values.Keys == s.shared.values.Keys;
    assert r.shared.values == s.shared.values;
  }

  /** Reloading a file that `on_save` just wrote from the same variables
      changes no variable. */
  lemma LoadAfterSave(s: Form)
    requires Valid(s)
    ensures var saved := AfterSave(s);
            AfterLoad(saved) == (saved.(networkText := NetworkText(s.shared.values[Network], s.networkText),
                                        powerlossShown := PanelShown(s.shared.values[Powerloss], s.powerlossShown)), true)
  {
    SaveDataSpec(s.shared.values);
    LoadUnchanged(AfterSave(s), SaveData(s.shared.values));
  }

  // ---------------------------------------------------------------------
  // Ticks

  lemma TickKeepsFields(s: Form)
    requires Valid(s)
    ensures Valid(AfterTick(s))
  {
    if s.timers > 0 {
      var flushed := AfterFlush(s.(timers := s.timers - 1));
      assert Valid(flushed);
    }
  }

  /** No commit is pending after a tick: it was already empty, or the flush
      cleared it. */
  lemma TickClearsCommit(s: Form)
    requires Valid(s) && s.timers > 0
    ensures AfterTick(s).shared.commit == ""
  {}

  /** A tick that finds a commit pending writes every variable to the file,
      clears both flags, reloads the file it just wrote (so no variable
      changes) and schedules the next tick. */
  lemma CommitTick(s: Form)
    requires Valid(s) && s.timers > 0 && s.shared.commit != ""
    ensures AfterTick(s) == s.(file := Some(SaveData(s.shared.values)),
                               shared := Shared("", "", s.shared.values),
                               networkText := NetworkText(s.shared.values[Network], s.networkText),
                               powerlossShown := PanelShown(s.shared.values[Powerloss], s.powerlossShown))
  {
    var t := s.(timers := s.timers - 1);
    CommitUpdate(t);
  }

  /** `update_callback` with a commit pending: the save, then the reload of
      what was just saved, then the next call scheduled. */
  lemma CommitUpdate(t: Form)
    requires Valid(t) && t.shared.commit != ""
    ensures AfterUpdate(t) == t.(file := Some(SaveData(t.shared.values)),
                                 shared := Shared("", "", t.shared.values),
                                 networkText := NetworkText(t.shared.values[Network], t.networkText),
                                 powerlossShown := PanelShown(t.shared.values[Powerloss], t.powerlossShown),
                                 timers := t.timers + 1)
  {
    var cleared := t.(shared := t.shared.(commit := "", editing := ""));
    var saved := AfterSave(cleared);
    assert AfterFlush(t) == saved;
    LoadAfterSave(cleared);
  }

  /** While a field is being edited and nothing is pending, a tick touches
      neither the file nor any variable: one editing name locks all sixteen. */
  lemma LockedTick(s: Form)
    requires Valid(s) && s.timers > 0
    requires s.shared.commit == "" && s.shared.editing != ""
    ensures AfterTick(s) == s
  {}

  /** An idle tick sets every variable to the file's value and updates the
      two indicators, when the file has every key. */
  lemma RefreshTick(s: Form, data: Snapshot)
    requires Valid(s) && s.timers > 0
    requires s.shared.commit == "" && s.shared.editing == ""
    requires s.file == Some(data) && Complete(data)
    ensures var r := AfterTick(s);
            && (forall f :: r.shared.values[f] == data[Key(f)])
            && r.networkText == NetworkText(data[Key(Network)], s.networkText)
            && r.powerlossShown == PanelShown(data[Key(Powerloss)], s.powerlossShown)
            && r == s.(shared := s.shared.(values := r.shared.values),
                       networkText := r.networkText, powerlossShown := r.powerlossShown)
  {
    LoadComplete(s.(timers := s.timers - 1), data);
  }

  /** An idle tick over a file lacking a key raises a KeyError: the variables
      looked up before the missing key are already set, the rest keep their
      values, and the tick is not rescheduled. The network label, looked up
      first, follows the file whenever it has "Network"; the panel follows it
      when the "Powerloss" lookup was reached. Nothing else changes. */
  lemma FailedRefreshTick(s: Form, data: Snapshot)
    requires Valid(s) && s.timers > 0
    requires s.shared.commit == "" && s.shared.editing == ""
    requires s.file == Some(data) && !Complete(data)
    ensures var r := AfterTick(s);
            && !Reached(data, Temperature)
            && (Reached(data, Network) <==> Key(Network) in data)
            && (forall f :: r.shared.values[f] == if Reached(data, f) then data[Key(f)] else s.shared.values[f])
            && r.networkText == (if Reached(data, Network) then NetworkText(data[Key(Network)], s.networkText) else s.networkText)
            && r.powerlossShown == (if Reached(data, Powerloss) then PanelShown(data[Key(Powerloss)], s.powerlossShown) else s.powerlossShown)
            && r.shared.editing == "" && r.shared.commit == "" && r.file == s.file
            && r.gunToggle == s.gunToggle && r.authorized == s.authorized && r.timers == s.timers - 1
  {
    var t := s.(timers := s.timers - 1);
    assert AfterFlush(t) == t;
    var g :| Key(g) !in data;
    assert LoadIndex(g) <= LoadIndex(Temperature);
    var reached := set f | Reached(data, f);
    assert AfterTick(s) == Loaded(t, data, reached);
    LoadedShape(t, data, reached);
    NetworkFirst(data);
  }

  /** What a partial load changes: the variables of the reached fields, and
      the indicators when their lookups were reached. */
  lemma LoadedShape(s: Form, data: Snapshot, reached: set<Field>)
    requires Valid(s) && forall f :: f in reached ==> Key(f) in data
    ensures var r := Loaded(s, data, reached);
            && (forall f :: r.shared.values[f] == if f in reached then data[Key(f)] else s.shared.values[f])
            && r.networkText == (if Network in reached then NetworkText(data[Key(Network)], s.networkText) else s.networkText)
            && r.powerlossShown == (if Powerloss in reached then PanelShown(data[Key(Powerloss)], s.powerlossShown) else s.powerlossShown)
            && r == s.(shared := s.shared.(values := r.shared.values), networkText := r.networkText,
                       powerlossShown := r.powerlossShown)
  {}

  /** The network lookup comes first, so it is reached exactly when the file
      has "Network". */
  lemma NetworkFirst(data: Snapshot)
    ensures Reached(data, Network) <==> Key(Network) in data
  {
    forall h | LoadIndex(h) <= LoadIndex(Network) ensures h == Network {
      assert LoadOrder[LoadIndex(h)] == h;
    }
  }

  /** A tick over an unreadable file raises before changing anything, and is
      not rescheduled. */
  lemma UnreadableTick(s: Form)
    requires Valid(s) && s.timers > 0
    requires s.shared.commit == "" && s.shared.editing == "" && s.file == None
    ensures AfterTick(s) == s.(timers := s.timers - 1)
  {}

  /** Any number of ticks leave a locked form alone. */
  lemma {:induction false} LockedTicks(s: Form, n: nat)
    requires Valid(s)
    requires s.shared.commit == "" && s.shared.editing != ""
    ensures AfterTicks(s, n) == s
  {
    if n > 0 {
      if s.timers > 0 {
        LockedTick(s);
      }
      LockedTicks(AfterTick(s), n - 1);
    }
  }

  // ---------------------------------------------------------------------
  // The buttons

  /** The toggle state always flips; the variable takes the new state, and
      both flags are set, only when it held the opposite one. */
  lemma GunToggleEffect(s: Form)
    requires Valid(s)
    ensures var r := AfterGunToggle(s);
            var target := if r.gunToggle then 1 else 0;
            && r.gunToggle == !s.gunToggle
            && (if EqualsInt(s.shared.values[GunConnected], 1 - target)
                then r.shared.values == s.shared.values[GunConnected := Int(target)]
                     && r.shared.editing != "" && r.shared.commit != ""
                else r.shared == s.shared)
            && r == s.(shared := r.shared, gunToggle := r.gunToggle)
  {}

  /** The authorization state always flips; send_or_stop takes the new state,
      and both flags are set, only when it held the opposite one. */
  lemma AuthorizeEffect(s: Form)
    requires Valid(s)
    ensures var r := AfterAuthorize(s);
            var target := if r.authorized then 1 else 0;
            && r.authorized == !s.authorized
            && (if EqualsInt(s.shared.values[SendOrStop], 1 - target)
                then r.shared.values == s.shared.values[SendOrStop := Int(target)]
                     && r.shared.editing != "" && r.shared.commit != ""
                else r.shared == s.shared)
            && r == s.(shared := r.shared, authorized := r.authorized)
  {}

  /** Pressing the emergency stop gets `Estop = 1` into the file on the next
      tick, whatever else was pending. */
  lemma EstopPersisted(s: Form)
    requires Valid(s) && s.timers > 0
    ensures var r := AfterTick(AfterEstop(s));
            && r.file.Some? && r.file.value[Key(Estop)] == Int(1)
            && r.shared == Shared("", "", s.shared.values[Estop := Int(1)])
  {
    CommitTick(AfterEstop(s));
  }

  // ---------------------------------------------------------------------
  // Edit sessions against the ticks

  /** Once a label starts an edit with no commit pending, no number of ticks
      changes any variable or the file. */
  lemma EditLocksForm(s: Form, l: Label, n: nat)
    requires Valid(s) && s.shared.commit == "" && l.name != ""
    ensures var started := WithShared(s, AfterEditStart(Session(l, s.shared)).shared);
            AfterTicks(started, n) == started
            && started.shared.values == s.shared.values && started.file == s.file
  {
    LockedTicks(WithShared(s, AfterEditStart(Session(l, s.shared)).shared), n);
  }

  /** Start, type, let ticks pass, press Return, tick once: the typed text is
      in the file under the field's key, nothing is pending and the variable
      holds the typed text. */
  lemma SavedEditPersists(s: Form, l: Label, typed: string, n: nat)
    requires Valid(s) && s.timers > 0 && s.shared.commit == "" && l.name != ""
    ensures var started := AfterEditStart(Session(l, s.shared));
            var locked := AfterTicks(WithShared(s, started.shared), n);
            var saved := AfterEditSave(Session(started.widget.(buffer := typed), locked.shared));
            var r := AfterTick(WithShared(locked, saved.shared));
            && r.file.Some? && Key(l.field) in r.file.value && r.file.value[Key(l.field)] == Text(typed)
            && r.shared.editing == "" && r.shared.commit == ""
            && r.shared.values[l.field] == Text(typed)
  {
    var started := AfterEditStart(Session(l, s.shared));
    var form := WithShared(s, started.shared);
    LockedTicks(form, n);
    assert AfterTicks(form, n) == form;
    var saved := AfterEditSave(Session(started.widget.(buffer := typed), form.shared));
    var pending := WithShared(form, saved.shared);
    CommitTick(pending);
    SaveDataSpec(pending.shared.values);
  }

  /** Return followed by a focus loss before the next tick: the label shows
      the typed text until the tick, which writes nothing and reloads the
      field from the file, so the label then shows the file's value. */
  lemma FocusLossLosesEdit(s: Form, l: Label, typed: string, data: Snapshot)
    requires Valid(s) && s.timers > 0 && s.file == Some(data) && Complete(data)
    ensures var started := AfterEditStart(Session(l, s.shared));
            var saved := AfterEditSave(Session(started.widget.(buffer := typed), started.shared));
            var stopped := AfterEditStop(saved);
            var r := AfterTick(WithShared(s, stopped.shared));
            && Shown(stopped) == typed
            && r.file == s.file
            && r.shared.values[l.field] == data[Key(l.field)]
            && Shown(Session(l, r.shared)) == Display(data[Key(l.field)])
  {
    var started := AfterEditStart(Session(l, s.shared));
    var saved := AfterEditSave(Session(started.widget.(buffer := typed), started.shared));
    var stopped := AfterEditStop(saved);
    RefreshTick(WithShared(s, stopped.shared), data);
  }

  /** When a later edit start hands the focus over from an earlier label's
      hidden entry, that entry's focus-loss callback releases the lock, so the
      next tick reloads the new edit's variable from the file and writes
      nothing, although the new entry is still open. */
  lemma FocusHandoverUnlocksTick(s: Form, earlier: Label, later: Label, typed: string, data: Snapshot)
    requires Valid(s) && s.timers > 0 && s.file == Some(data) && Complete(data)
    ensures var started := AfterEditStart(Session(later, s.shared));
            var stopped := AfterEditStop(Session(earlier, started.shared));
            var r := AfterTick(WithShared(s, stopped.shared));
            && started.shared.editing == later.name
            && r.file == s.file
            && r.shared.values[later.field] == data[Key(later.field)]
            && r.timers == s.timers
  {
    var started := AfterEditStart(Session(later, s.shared));
    var stopped := AfterEditStop(Session(earlier, started.shared));
    RefreshTick(WithShared(s, stopped.shared), data);
  }

  /** Escape releases the lock, and the next tick puts every variable back to
      the file's value. */
  lemma CancelThenRefresh(s: Form, l: Label, data: Snapshot)
    requires Valid(s) && s.timers > 0 && s.file == Some(data) && Complete(data)
    ensures var cancelled := AfterEditCancel(Session(l, s.shared));
            var r := AfterTick(WithShared(s, cancelled.shared));
            && cancelled.widget.buffer == ""
            && r.file == s.file
            && forall f :: r.shared.values[f] == data[Key(f)]
  {
    var cancelled := AfterEditCancel(Session(l, s.shared));
    RefreshTick(WithShared(s, cancelled.shared), data);
  }

  // ---------------------------------------------------------------------
  // The dashboard object

  /** The label names and bound fields of the four editable labels. */
  const EditableFields: map<string, Field> := map[
    "voltage" := Voltage, "current" := Current,
    "frequency" := Frequency, "temperature" := Temperature ]

  class Dash {
    const flags: UpdateState
    const vars: Variables
    const file: SnapshotFile
    const voltageLabel: EditableLabel
    const currentLabel: EditableLabel
    const frequencyLabel: EditableLabel
    const temperatureLabel: EditableLabel
    var gunToggle: bool
    var authorized: bool
    var networkText: string
    var powerlossShown: bool
    var timers: nat

    /** The labels share this dashboard's flags and variables. */
    ghost predicate Wired()
      reads this
    {
      forall l :: l in {voltageLabel, currentLabel, frequencyLabel, temperatureLabel} ==>
        l.flags == flags && l.vars == vars && l.name in EditableFields && EditableFields[l.name] == l.field
    }

    ghost predicate Valid()
      reads this, vars
    {
      Wired() && forall f :: f in vars.values
    }

    function State(): Form
      reads this, flags, vars, file
    {
      Form(Shared(flags.editing, flags.commit, vars.values), file.contents,
           gunToggle, authorized, networkText, powerlossShown, timers)
    }

    /** The widgets are built; nothing is read from the file yet. */
    constructor (file: SnapshotFile)
      ensures Valid() && this.file == file && fresh(flags) && fresh(vars)
      ensures State() == Form(Shared("", "", InitialValues), file.contents, false, false, "Online", true, 0)
      ensures forall l :: l in {voltageLabel, currentLabel, frequencyLabel, temperatureLabel} ==>
                fresh(l) && l.buffer == ""
      ensures voltageLabel.name == "voltage" && voltageLabel.field == Voltage
      ensures currentLabel.name == "current" && currentLabel.field == Current
      ensures frequencyLabel.name == "frequency" && frequencyLabel.field == Frequency
      ensures temperatureLabel.name == "temperature" && temperatureLabel.field == Temperature
      ensures voltageLabel != currentLabel && voltageLabel != frequencyLabel && voltageLabel != temperatureLabel
      ensures currentLabel != frequencyLabel && currentLabel != temperatureLabel && frequencyLabel != temperatureLabel
    {
      InitialValuesComplete();
      var flags := new UpdateState();
      var vars := new Variables(InitialValues);
      this.flags, this.vars, this.file := flags, vars, file;
      voltageLabel := new EditableLabel(vars, flags, "voltage", Voltage);
      currentLabel := new EditableLabel(vars, flags, "current", Current);
      frequencyLabel := new EditableLabel(vars, flags, "frequency", Frequency);
      temperatureLabel := new EditableLabel(vars, flags, "temperature", Temperature);
      gunToggle, authorized := false, false;
      networkText, powerlossShown := "Online", true;
      timers := 0;
    }

    /** The sixteen variables are written under their keys, replacing the
        whole file. */
    method OnSave()
      requires Valid()
      modifies file
      ensures file.contents == Some(SaveData(vars.values))
      ensures State() == AfterSave(old(State()))
    {
      var data := SaveData(vars.values);
      file.contents := Some(data);
    }

    /** Returns false where the source raises. */
    method UpdateFromFile() returns (ok: bool)
      requires Valid()
      modifies this`networkText, this`powerlossShown, vars
      ensures Valid()
      ensures (State(), ok) == AfterLoad(old(State()))
    {
      if file.contents.None? {
        return false;
      }
      var data := file.contents.value;
      ghost var s := State();
      var rest := LoadOrder;
      while rest != []
        invariant Valid()
        invariant AfterLookups(State(), data, rest) == AfterLookups(s, data, LoadOrder)
        decreases |rest|
      {
        var f := rest[0];
        if Key(f) !in data {
          LoadByLookups(s, data);
          return false;
        }
        var v := data[Key(f)];
        vars.values := vars.values[f := v];
        if f == Network {
          if EqualsInt(v, 0) {
            networkText := "Offline";
          } else if EqualsInt(v, 1) {
            networkText := "Online";
          }
        } else if f == Powerloss {
          if EqualsInt(v, 0) {
            powerlossShown := false;
          } else if EqualsInt(v, 1) {
            powerlossShown := true;
          }
        }
        rest := rest[1..];
      }
      LoadByLookups(s, data);
      return true;
    }

    /** The first branch of `update_callback`: a pending commit is saved
        and both flags are cleared. */
    method Flush()
      requires Valid()
      modifies flags, file
      ensures Valid()
      ensures State() == AfterFlush(old(State()))
    {
      if flags.commit != "" {
        OnSave();
        flags.commit := "";
        flags.editing := "";
      }
    }

    method UpdateCallback()
      requires Valid()
      modifies this`networkText, this`powerlossShown, this`timers, flags, vars, file
      ensures Valid()
      ensures State() == AfterUpdate(old(State()))
    {
      Flush();
      ghost var flushed := State();
      var ok := true;
      if flags.editing == "" {
        ok := UpdateFromFile();
      }
      if ok {
        timers := timers + 1;
      }
      assert State() == AfterRefresh(flushed);
    }

    /** A scheduled `update_callback` fires. */
    method Tick()
      requires Valid() && timers > 0
      modifies this`networkText, this`powerlossShown, this`timers, flags, vars, file
      ensures Valid()
      ensures State() == AfterTick(old(State()))
    {
      ghost var s := State();
      timers := timers - 1;
      ghost var t := State();
      assert t == s.(timers := s.timers - 1);
      UpdateCallback();
      assert State() == AfterUpdate(t);
    }

    /** The end of the constructor: one synchronous `update_callback`, then a
        second chain scheduled beside it. False where the constructor raises. */
    method Start() returns (ok: bool)
      requires Valid() && timers == 0
      modifies this`networkText, this`powerlossShown, this`timers, flags, vars, file
      ensures Valid()
      ensures ok <==> AfterUpdate(old(State())).timers == 1
      ensures State() == if ok then AfterUpdate(old(State())).(timers := 2) else AfterUpdate(old(State()))
    {
      UpdateCallback();
      ok := timers == 1;
      if ok {
        timers := timers + 1;
      }
    }

    method GunConnectionToggled()
      requires Valid()
      modifies this`gunToggle, flags, vars
      ensures Valid()
      ensures State() == AfterGunToggle(old(State()))
    {
      if !gunToggle {
        gunToggle := true;
        if EqualsInt(vars.values[GunConnected], 0) {
          vars.values := vars.values[GunConnected := Int(1)];
          flags.editing := "gun_connection_toggled";
          flags.commit := "gun_connection_toggled";
        }
      } else {
        gunToggle := false;
        if EqualsInt(vars.values[GunConnected], 1) {
          vars.values := vars.values[GunConnected := Int(0)];
          flags.editing := "gun_connection_toggled";
          flags.commit := "gun_connected_toggled";
        }
      }
    }

    method Authorize()
      requires Valid()
      modifies this`authorized, flags, vars
      ensures Valid()
      ensures State() == AfterAuthorize(old(State()))
    {
      if !authorized {
        authorized := true;
        if EqualsInt(vars.values[SendOrStop], 0) {
          vars.values := vars.values[SendOrStop := Int(1)];
          flags.editing := "authorize";
          flags.commit := "authorize";
        }
      } else {
        authorized := false;
        if EqualsInt(vars.values[SendOrStop], 1) {
          vars.values := vars.values[SendOrStop := Int(0)];
          flags.editing := "authorize";
          flags.commit := "authorize";
        }
      }
    }

    method OnEstop()
      requires Valid()
      modifies flags, vars
      ensures Valid()
      ensures State() == AfterEstop(old(State()))
    {
      vars.values := vars.values[Estop := Int(1)];
      flags.editing := "on_estop";
      flags.commit := "on_estop";
    }
  }
}
