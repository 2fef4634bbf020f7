/** The earlier draft of the dashboard in monitor.py: the same edit/refresh
    coordinator over thirteen Tk variables with differently cased keys, no
    network label, no editable labels, and a power-loss lookup that only
    shows or hides the panel and never sets the `powerloss` variable. */
module MonitorDraft {
  import opened Coordination

  /** The fields monitor.py has a Tk variable for. */
  predicate Monitored(f: Field) {
    !(f.Network? || f.OfferedCurrent? || f.MeterReading?)
  }

  /** The key under which monitor.py stores each of its fields. */
  function Key(f: Field): string
    requires Monitored(f)
  {
    match f
    case StatusEvse => "status_evse"
    case GunConnected => "gun_connected"
    case SendOrStop => "send_or_stop"
    case ReservationId => "reservation_id"
    case Estop => "estop"
    case Powerloss => "powerloss"
    case IdTag => "id_tag"
    case Voltage => "Voltage"
    case Current => "Current"
    case ActivePower => "active_power"
    case Frequency => "Frequency"
    case PowerFactor => "power_factor"
    case Temperature => "Temperature"
    case Network => assert false; ""
    case OfferedCurrent => assert false; ""
    case MeterReading => assert false; ""
  }

  /** The lookups `update_from_file` makes, in the order it makes them.
      This module repeats the Dashboard module's lookup machinery on purpose,
      as monitor.py repeats dash.py's code with its own keys and order. */
  const LoadOrder: seq<Field> := [
    StatusEvse, GunConnected, SendOrStop, ReservationId, Estop, Powerloss,
    IdTag, Voltage, Current, ActivePower, Frequency, PowerFactor, Temperature ]

  /** The values the Tk variables start with: "" for the two StringVars, 0
      for every IntVar. */
  const InitialValues: map<Field, Value> := map[
    StatusEvse := Text(""), GunConnected := Int(0), SendOrStop := Int(0),
    ReservationId := Int(0), Estop := Int(0), Powerloss := Int(0),
    IdTag := Text(""), Voltage := Int(0), Current := Int(0),
    ActivePower := Int(0), Frequency := Int(0), PowerFactor := Int(0),
    Temperature := Int(0) ]

  /** Every monitored field has a Tk variable from the start. */
  lemma InitialValuesComplete()
    ensures forall f :: Monitored(f) ==> f in InitialValues
  {
    forall f | Monitored(f) ensures f in InitialValues {
      match f
      case StatusEvse =>
      case GunConnected =>
      case SendOrStop =>
      case ReservationId =>
      case Estop =>
      case Powerloss =>
      case IdTag =>
      case Voltage =>
      case Current =>
      case ActivePower =>
      case Frequency =>
      case PowerFactor =>
      case Temperature =>
    }
  }

  /** Where each field's lookup comes in `update_from_file`. */
  function LoadIndex(f: Field): (i: nat)
    requires Monitored(f)
    ensures i < |LoadOrder| && LoadOrder[i] == f
  {
    match f
    case StatusEvse => 0
    case GunConnected => 1
    case SendOrStop => 2
    case ReservationId => 3
    case Estop => 4
    case Powerloss => 5
    case IdTag => 6
    case Voltage => 7
    case Current => 8
    case ActivePower => 9
    case Frequency => 10
    case PowerFactor => 11
    case Temperature => 12
  }

  /** Only monitored fields are looked up, and none twice. */
  lemma LoadOrderDistinct()
    ensures forall i :: 0 <= i < |LoadOrder| ==> Monitored(LoadOrder[i]) && LoadIndex(LoadOrder[i]) == i
  {}

  /** Reads a key of the file back as the field it belongs to. */
  function FieldOf(k: string): Option<Field> {
    match k
    case "status_evse" => Some(StatusEvse)
    case "gun_connected" => Some(GunConnected)
    case "send_or_stop" => Some(SendOrStop)
    case "reservation_id" => Some(ReservationId)
    case "estop" => Some(Estop)
    case "powerloss" => Some(Powerloss)
    case "id_tag" => Some(IdTag)
    case "Voltage" => Some(Voltage)
    case "Current" => Some(Current)
    case "active_power" => Some(ActivePower)
    case "Frequency" => Some(Frequency)
    case "power_factor" => Some(PowerFactor)
    case "Temperature" => Some(Temperature)
    case _ => None
  }

  /** A key that reads back as a field is that monitored field's key. */
  lemma KeyOfFieldOf(k: string)
    requires FieldOf(k).Some?
    ensures Monitored(FieldOf(k).value) && Key(FieldOf(k).value) == k
  {}

  /** Reading a field's key back gives the field, so no two fields share a
      key. */
  lemma KeyInjective()
    ensures forall f :: Monitored(f) ==> FieldOf(Key(f)) == Some(f)
  {
    forall f | Monitored(f) ensures FieldOf(Key(f)) == Some(f) {}
  }

  /** The dictionary `on_save` serialises: one entry per monitored
      variable, under its key. */
  function SaveData(values: map<Field, Value>): Snapshot {
    KeyInjective();
    map f | f in values && Monitored(f) :: Key(f) := values[f]
  }

  /** A file that has a key for every lookup of `update_from_file`. */
  ghost predicate Complete(data: Snapshot) {
    forall f :: Monitored(f) ==> Key(f) in data
  }

  /** The file `on_save` writes has exactly the thirteen keys of the table,
      whatever the file held before, each holding its variable's value. */
  lemma SaveDataSpec(values: map<Field, Value>)
    requires forall f :: Monitored(f) ==> f in values
    ensures Complete(SaveData(values))
    ensures forall k :: k in SaveData(values) <==> FieldOf(k).Some?
    ensures forall f :: Monitored(f) ==> SaveData(values)[Key(f)] == values[f]
  {
    KeyInjective();
    var data := SaveData(values);
    forall f | Monitored(f) ensures Key(f) in data && data[Key(f)] == values[f] {
      assert Key(f) in data;
    }
    forall k | FieldOf(k).Some? ensures k in data {
      var f := FieldOf(k).value;
      KeyOfFieldOf(k);
      assert Key(f) in data;
    }
  }

  /** Everything the coordinator reads or writes, as values. */
  datatype Form = Form(
    shared: Shared,          // update_state and the thirteen variables
    file: Option<Snapshot>,  // the snapshot file
    gunToggle: bool,         // gun_connection_toggle_state
    authorized: bool,        // authorization_state
    powerlossShown: bool,    // whether powerloss_container is packed
    timers: nat)             // update_callback calls scheduled with after()

  ghost predicate Valid(s: Form) {
    forall f :: Monitored(f) ==> f in s.shared.values
  }

  /** One lookup of `update_from_file`. The `powerloss` lookup decides the
      panel only; every other lookup sets its variable. */
  function AfterLoadField(s: Form, data: Snapshot, f: Field): Form
    requires Monitored(f) && Key(f) in data
  {
    var v := data[Key(f)];
    if f == Powerloss then s.(powerlossShown := PanelShown(v, s.powerlossShown))
    else s.(shared := s.shared.(values := s.shared.values[f := v]))
  }

  /** The lookups of `update_from_file` from `order` onward: the form after
      them, and whether each found its key. The first missing key raises a
      KeyError, which leaves the assignments made before it in place. */
  function AfterLookups(s: Form, data: Snapshot, order: seq<Field>): (Form, bool)
    requires forall f :: f in order ==> Monitored(f)
    decreases |order|
  {
    if order == [] then (s, true)
    else if Key(order[0]) !in data then (s, false)
    else AfterLookups(AfterLoadField(s, data, order[0]), data, order[1..])
  }

  /** The lookups of `order` that succeed: the longest prefix whose keys the
      file has. The lookup after it, if any, is the one that raises. */
  function Found(data: Snapshot, order: seq<Field>): (p: seq<Field>)
    requires forall f :: f in order ==> Monitored(f)
    ensures |p| <= |order| && forall i :: 0 <= i < |p| ==> p[i] == order[i]
    ensures forall f :: f in p ==> Monitored(f) && Key(f) in data
    ensures |p| < |order| ==> Key(order[|p|]) !in data
    decreases |order|
  {
    if order == [] || Key(order[0]) !in data then []
    else [order[0]] + Found(data, order[1..])
  }

  /** The fields a sequence of lookups names. */
  ghost function FieldsOf(p: seq<Field>): set<Field> {
    set f | f in p
  }

  /** Whether the lookup of `f`, and every lookup before it, finds its key. */
  ghost predicate Reached(data: Snapshot, f: Field)
    requires Monitored(f)
  {
    forall g :: Monitored(g) && LoadIndex(g) <= LoadIndex(f) ==> Key(g) in data
  }

  /** The form once the lookups of the fields in `reached` have been made:
      each such variable but `powerloss` holds the file's value, and the
      panel follows the `powerloss` lookup if it was made. */
  ghost function Loaded(s: Form, data: Snapshot, reached: set<Field>): Form
    requires forall f :: f in reached ==> Monitored(f) && Key(f) in data
  {
    var values := map f | f in s.shared.values ::
      if f in reached && f != Powerloss then data[Key(f)] else s.shared.values[f];
    s.(shared := s.shared.(values := values),
       powerlossShown := if Powerloss in reached then PanelShown(data[Key(Powerloss)], s.powerlossShown) else s.powerlossShown)
  }

  /** `update_from_file`: the form after it, and whether it returned rather
      than raised (the file could not be read, or a key was missing). */
  ghost function AfterLoad(s: Form): (Form, bool) {
    match s.file
    case None => (s, false)
    case Some(data) => (Loaded(s, data, set f | Monitored(f) && Reached(data, f)), Complete(data))
  }

  /** `on_save`: the file is replaced by the variables' values. */
  function AfterSave(s: Form): Form
    requires Valid(s)
  {
    s.(file := Some(SaveData(s.shared.values)))
  }

  /** The first half of `update_callback`: a pending commit is written to
      the file and both flags are cleared. */
  function AfterFlush(s: Form): Form
    requires Valid(s)
  {
    if s.shared.commit != "" then AfterSave(s).(shared := s.shared.(commit := "", editing := ""))
    else s
  }

  /** The second half: reload unless something is being edited, then
      schedule the next call unless the reload raised. */
  ghost function AfterRefresh(s: Form): Form {
    if s.shared.editing == "" then
      var (loaded, ok) := AfterLoad(s);
      if ok then loaded.(timers := loaded.timers + 1) else loaded
    else
      s.(timers := s.timers + 1)
  }

  /** `update_callback`. */
  ghost function AfterUpdate(s: Form): Form
    requires Valid(s)
  {
    AfterRefresh(AfterFlush(s))
  }

  /** One scheduled `update_callback` fires; with none scheduled, nothing does. */
  ghost function AfterTick(s: Form): Form
    requires Valid(s)
  {
    if s.timers == 0 then s else AfterUpdate(s.(timers := s.timers - 1))
  }

  /** `n` scheduled calls in a row; every variable stays present. */
  ghost function AfterTicks(s: Form, n: nat): (r: Form)
    requires Valid(s)
    ensures Valid(r)
    decreases n
  {
    if n == 0 then s
    else
      TickKeepsFields(s);
      AfterTicks(AfterTick(s), n - 1)
  }

  /** The gun-connection Checkbutton: the toggle state always flips; the
      variable and the flags change only when the variable held the old
      state. */
  function AfterGunToggle(s: Form): Form
    requires Valid(s)
  {
    var values := s.shared.values;
    if !s.gunToggle then
      var t := s.(gunToggle := true);
      if EqualsInt(values[GunConnected], 0) then
        t.(shared := Shared("gun_connection_toggled", "gun_connection_toggled", values[GunConnected := Int(1)]))
      else t
    else
      var t := s.(gunToggle := false);
      if EqualsInt(values[GunConnected], 1) then
        t.(shared := Shared("gun_connection_toggled", "gun_connected_toggled", values[GunConnected := Int(0)]))
      else t
  }

  /** The authorize button; the authorization check always succeeds. */
  function AfterAuthorize(s: Form): Form
    requires Valid(s)
  {
    var values := s.shared.values;
    if !s.authorized then
      var t := s.(authorized := true);
      if EqualsInt(values[SendOrStop], 0) then
        t.(shared := Shared("authorize", "authorize", values[SendOrStop := Int(1)]))
      else t
    else
      var t := s.(authorized := false);
      if EqualsInt(values[SendOrStop], 1) then
        t.(shared := Shared("authorize", "authorize", values[SendOrStop := Int(0)]))
      else t
  }

  /** The emergency-stop button. */
  function AfterEstop(s: Form): Form {
    s.(shared := Shared("on_estop", "on_estop", s.shared.values[Estop := Int(1)]))
  }

  // ---------------------------------------------------------------------
  // What a run of `update_from_file` does

  /** One more lookup in front of the ones already made. */
  lemma LoadedStep(s: Form, data: Snapshot, g: Field, reached: set<Field>)
    requires Valid(s) && Monitored(g) && Key(g) in data
    requires forall f :: f in reached ==> Monitored(f) && Key(f) in data
    ensures Loaded(AfterLoadField(s, data, g), data, reached) == Loaded(s, data, reached + {g})
  {
    var next := AfterLoadField(s, data, g);
    assert Loaded(next, data, reached).shared.values == Loaded(s, data, reached + {g}).shared.values;
  }

  lemma LoadedNothing(s: Form, data: Snapshot)
    requires Valid(s)
    ensures Loaded(s, data, FieldsOf([])) == s
  {
    assert FieldsOf([]) == {};
    assert Loaded(s, data, {}).shared.values == s.shared.values;
  }

  lemma FieldsOfCons(g: Field, rest: seq<Field>)
    ensures FieldsOf([g] + rest) == FieldsOf(rest) + {g}
  {}

  lemma LookupsCons(s: Form, data: Snapshot, order: seq<Field>)
    requires forall f :: f in order ==> Monitored(f)
    requires order != [] && Key(order[0]) in data
    ensures AfterLookups(s, data, order) == AfterLookups(AfterLoadField(s, data, order[0]), data, order[1..])
    ensures Found(data, order) == [order[0]] + Found(data, order[1..])
    ensures |order| == |order[1..]| + 1
  {}

  /** The lookups made one by one end where the closed form says, and the
      run returns normally exactly when no lookup missed. */
  lemma {:induction false} LookupsLoaded(s: Form, data: Snapshot, order: seq<Field>)
    requires Valid(s) && forall f :: f in order ==> Monitored(f)
    ensures AfterLookups(s, data, order) == (Loaded(s, data, FieldsOf(Found(data, order))), |Found(data, order)| == |order|)
    decreases |order|
  {
    if order == [] || Key(order[0]) !in data {
      LoadedNothing(s, data);
    } else {
      var next := AfterLoadField(s, data, order[0]);
      var rest := Found(data, order[1..]);
      LookupsCons(s, data, order);
      LookupsLoaded(next, data, order[1..]);
      LoadedStep(s, data, order[0], FieldsOf(rest));
      FieldsOfCons(order[0], rest);
    }
  }

  /** A field's lookup succeeds exactly when it comes before the first
      missing key. */
  lemma FoundPositions(data: Snapshot)
    ensures forall f :: Monitored(f) ==> (f in Found(data, LoadOrder) <==> LoadIndex(f) < |Found(data, LoadOrder)|)
  {
    var found := Found(data, LoadOrder);
    LoadOrderDistinct();
    forall f | Monitored(f) && f in found ensures LoadIndex(f) < |found| {
      var j :| 0 <= j < |found| && found[j] == f;
      assert LoadOrder[j] == f;
    }
    forall f | Monitored(f) && LoadIndex(f) < |found| ensures f in found {
      assert found[LoadIndex(f)] == f;
    }
  }

  /** A field is reached exactly when it comes before the first missing key. */
  lemma ReachedPositions(data: Snapshot)
    ensures forall f :: Monitored(f) ==> (Reached(data, f) <==> LoadIndex(f) < |Found(data, LoadOrder)|)
  {
    var found := Found(data, LoadOrder);
    var k := |found|;
    forall f | Monitored(f) ensures Reached(data, f) <==> LoadIndex(f) < k {
      if LoadIndex(f) < k {
        forall g | Monitored(g) && LoadIndex(g) <= LoadIndex(f) ensures Key(g) in data {
          assert found[LoadIndex(g)] == g;
        }
      } else {
        LoadOrderDistinct();
        assert LoadIndex(LoadOrder[k]) == k;
      }
    }
  }

  /** The lookups that succeed are exactly the reached fields. */
  lemma FoundReached(data: Snapshot)
    ensures FieldsOf(Found(data, LoadOrder)) == (set f | Monitored(f) && Reached(data, f))
  {
    FoundPositions(data);
    ReachedPositions(data);
  }

  /** Every lookup succeeds exactly when the file has every key. */
  lemma AllFoundIffComplete(data: Snapshot)
    ensures |Found(data, LoadOrder)| == |LoadOrder| <==> Complete(data)
  {
    var found := Found(data, LoadOrder);
    if |found| < |LoadOrder| {
      assert Key(LoadOrder[|found|]) !in data;
    } else {
      forall f | Monitored(f) ensures Key(f) in data {
        assert found[LoadIndex(f)] == f;
      }
    }
  }

  /** `update_from_file` is the lookups of the table, made one after another. */
  lemma LoadByLookups(s: Form, data: Snapshot)
    requires Valid(s) && s.file == Some(data)
    ensures AfterLoad(s) == AfterLookups(s, data, LoadOrder)
  {
    LookupsLoaded(s, data, LoadOrder);
    FoundReached(data);
    AllFoundIffComplete(data);
  }

  /** Whatever the file holds, a load never changes the `powerloss`
      variable: its lookup only decides the panel. */
  lemma LoadKeepsPowerloss(s: Form)
    requires Valid(s)
    ensures Valid(AfterLoad(s).0)
    ensures AfterLoad(s).0.shared.values[Powerloss] == s.shared.values[Powerloss]
  {}

  /** With every key present, a load sets every variable but `powerloss`
      from the file, decides the panel from the file's `powerloss`, and
      returns normally. */
  lemma LoadComplete(s: Form, data: Snapshot)
    requires Valid(s) && s.file == Some(data) && Complete(data)
    ensures var (r, ok) := AfterLoad(s);
            && ok && Valid(r)
            && (forall f :: Monitored(f) && f != Powerloss ==> r.shared.values[f] == data[Key(f)])
            && r.shared.values[Powerloss] == s.shared.values[Powerloss]
            && r.powerlossShown == PanelShown(data[Key(Powerloss)], s.powerlossShown)
            && r == s.(shared := s.shared.(values := r.shared.values), powerlossShown := r.powerlossShown)
  {
  }

  /** Loading a complete file that already holds every variable's value
      changes no variable and no flag. */
  lemma LoadUnchanged(s: Form, data: Snapshot)
    requires Valid(s) && s.file == Some(data) && Complete(data)
    requires forall f :: Monitored(f) ==> data[Key(f)] == s.shared.values[f]
    ensures AfterLoad(s) == (s.(powerlossShown := PanelShown(s.shared.values[Powerloss], s.powerlossShown)), true)
  {
    LoadComplete(s, data);
    var r := AfterLoad(s).0;
    assert forall f :: f in s.shared.values ==> r.shared.values[f] == s.shared.values[f];
    assert r.shared.values.Keys == s.shared.values.Keys;
    assert r.shared.values == s.shared.values;
  }

  /** Reloading a file that `on_save` just wrote from the same variables
      changes no variable. */
  lemma LoadAfterSave(s: Form)
    requires Valid(s)
    ensures var saved := AfterSave(s);
            AfterLoad(saved) == (saved.(powerlossShown := PanelShown(s.shared.values[Powerloss], s.powerlossShown)), true)
  {
    SaveDataSpec(s.shared.values);
    LoadUnchanged(AfterSave(s), SaveData(s.shared.values));
  }

  // ---------------------------------------------------------------------
  // Ticks

  lemma TickKeepsFields(s: Form)
    requires Valid(s)
    ensures Valid(AfterTick(s))
  {
    if s.timers > 0 {
      var flushed := AfterFlush(s.(timers := s.timers - 1));
      assert Valid(flushed);
      LoadKeepsPowerloss(flushed);
    }
  }

  /** No commit is pending after a tick: it was already empty, or the flush
      cleared it. */
  lemma TickClearsCommit(s: Form)
    requires Valid(s) && s.timers > 0
    ensures AfterTick(s).shared.commit == ""
  {}

  /** `update_callback` with a commit pending: the save, then the reload of
      what was just saved, then the next call scheduled. */
  lemma CommitUpdate(t: Form)
    requires Valid(t) && t.shared.commit != ""
    ensures AfterUpdate(t) == t.(file := Some(SaveData(t.shared.values)),
                                 shared := Shared("", "", t.shared.values),
                                 powerlossShown := PanelShown(t.shared.values[Powerloss], t.powerlossShown),
                                 timers := t.timers + 1)
  {
    var cleared := t.(shared := t.shared.(commit := "", editing := ""));
    var saved := AfterSave(cleared);
    assert AfterFlush(t) == saved;
    LoadAfterSave(cleared);
  }

  /** A tick that finds a commit pending writes the thirteen variables to
      the file, which loses every other key it had, clears both flags and
      reloads what it wrote, so no variable changes. The panel then follows
      the `powerloss` variable rather than the file it replaced. */
  lemma CommitTick(s: Form)
    requires Valid(s) && s.timers > 0 && s.shared.commit != ""
    ensures AfterTick(s) == s.(file := Some(SaveData(s.shared.values)),
                               shared := Shared("", "", s.shared.values),
                               powerlossShown := PanelShown(s.shared.values[Powerloss], s.powerlossShown))
    ensures forall k :: k in AfterTick(s).file.value <==> FieldOf(k).Some?
  {
    CommitUpdate(s.(timers := s.timers - 1));
    SaveDataSpec(s.shared.values);
  }

  /** While something is being edited and nothing is pending, a tick touches
      neither the file nor any variable. */
  lemma LockedTick(s: Form)
    requires Valid(s) && s.timers > 0
    requires s.shared.commit == "" && s.shared.editing != ""
    ensures AfterTick(s) == s
  {}

  /** An idle tick over a complete file sets every variable but `powerloss`
      to the file's value and decides the panel from the file; the flags, the
      file and the button states stay as they were, and the tick is
      rescheduled. */
  lemma RefreshTick(s: Form, data: Snapshot)
    requires Valid(s) && s.timers > 0
    requires s.shared.commit == "" && s.shared.editing == ""
    requires s.file == Some(data) && Complete(data)
    ensures var r := AfterTick(s);
            && (forall f :: Monitored(f) && f != Powerloss ==> r.shared.values[f] == data[Key(f)])
            && r.shared.values[Powerloss] == s.shared.values[Powerloss]
            && r.powerlossShown == PanelShown(data[Key(Powerloss)], s.powerlossShown)
            && r == s.(shared := s.shared.(values := r.shared.values), powerlossShown := r.powerlossShown)
  {
    LoadComplete(s.(timers := s.timers - 1), data);
  }

  /** An idle tick over a file lacking a key raises a KeyError: the variables
      looked up before the missing key are set, the rest keep their values,
      the panel follows the file when the "powerloss" lookup was reached, and
      the tick is not rescheduled. Nothing else changes. */
  lemma FailedRefreshTick(s: Form, data: Snapshot)
    requires Valid(s) && s.timers > 0
    requires s.shared.commit == "" && s.shared.editing == ""
    requires s.file == Some(data) && !Complete(data)
    ensures var r := AfterTick(s);
            && !Reached(data, Temperature)
            && (forall f :: Monitored(f) && f != Powerloss ==>
                  r.shared.values[f] == if Reached(data, f) then data[Key(f)] else s.shared.values[f])
            && r.shared.values[Powerloss] == s.shared.values[Powerloss]
            && r.powerlossShown == (if Reached(data, Powerloss) then PanelShown(data[Key(Powerloss)], s.powerlossShown) else s.powerlossShown)
            && r.shared.editing == "" && r.shared.commit == "" && r.file == s.file
            && r.gunToggle == s.gunToggle && r.authorized == s.authorized && r.timers == s.timers - 1
  {
    var t := s.(timers := s.timers - 1);
    var reached := set f | Monitored(f) && Reached(data, f);
    FailedTickLoads(s, data);
    LoadedShape(t, data, reached);
    assert Powerloss in reached <==> Reached(data, Powerloss);
  }

  /** A failed tick is the partial load of the reached fields, and the last
      lookup is never reached. */
  lemma FailedTickLoads(s: Form, data: Snapshot)
    requires Valid(s) && s.timers > 0
    requires s.shared.commit == "" && s.shared.editing == ""
    requires s.file == Some(data) && !Complete(data)
    ensures !Reached(data, Temperature)
    ensures AfterTick(s) == Loaded(s.(timers := s.timers - 1), data, set f | Monitored(f) && Reached(data, f))
  {
    var t := s.(timers := s.timers - 1);
    assert AfterFlush(t) == t;
    var g :| Monitored(g) && Key(g) !in data;
    assert LoadIndex(g) <= LoadIndex(Temperature);
  }

  /** What a partial load changes: the variables of the reached fields but
      `powerloss`, and the panel when the "powerloss" lookup was reached. */
  lemma LoadedShape(s: Form, data: Snapshot, reached: set<Field>)
    requires Valid(s) && forall f :: f in reached ==> Monitored(f) && Key(f) in data
    ensures var r := Loaded(s, data, reached);
            && (forall f :: Monitored(f) && f != Powerloss ==>
                  r.shared.values[f] == if f in reached then data[Key(f)] else s.shared.values[f])
            && r.shared.values[Powerloss] == s.shared.values[Powerloss]
            && r.powerlossShown == (if Powerloss in reached then PanelShown(data[Key(Powerloss)], s.powerlossShown) else s.powerlossShown)
            && r == s.(shared := s.shared.(values := r.shared.values), powerlossShown := r.powerlossShown)
  {}

  // ---------------------------------------------------------------------
  // The `powerloss` variable

  /** No tick changes the `powerloss` variable. */
  lemma TickKeepsPowerloss(s: Form)
    requires Valid(s)
    ensures AfterTick(s).shared.values[Powerloss] == s.shared.values[Powerloss]
  {
    TickKeepsFields(s);
    if s.timers > 0 {
      LoadKeepsPowerloss(AfterFlush(s.(timers := s.timers - 1)));
    }
  }

  /** No button changes the `powerloss` variable either. */
  lemma ButtonsKeepPowerloss(s: Form)
    requires Valid(s)
    ensures AfterGunToggle(s).shared.values[Powerloss] == s.shared.values[Powerloss]
    ensures AfterAuthorize(s).shared.values[Powerloss] == s.shared.values[Powerloss]
    ensures AfterEstop(s).shared.values[Powerloss] == s.shared.values[Powerloss]
  {}

  /** So the `powerloss` variable keeps its initial 0 through any number of
      ticks, and every committing tick writes `"powerloss": 0`, whatever the
      file said. */
  lemma {:induction false} PowerlossStaysZero(s: Form, n: nat)
    requires Valid(s) && s.shared.values[Powerloss] == Int(0)
    ensures AfterTicks(s, n).shared.values[Powerloss] == Int(0)
    decreases n
  {
    if n > 0 {
      TickKeepsFields(s);
      TickKeepsPowerloss(s);
      PowerlossStaysZero(AfterTick(s), n - 1);
    }
  }

  /** A committing tick writes the variable's `powerloss`, not the file's. */
  lemma SavedPowerloss(s: Form)
    requires Valid(s) && s.timers > 0 && s.shared.commit != ""
    ensures var r := AfterTick(s);
            r.file.Some? && "powerloss" in r.file.value && r.file.value["powerloss"] == s.shared.values[Powerloss]
  {
    CommitTick(s);
    SaveDataSpec(s.shared.values);
    assert Key(Powerloss) == "powerloss";
  }

  // ---------------------------------------------------------------------
  // The buttons

  /** The toggle state always flips; the variable takes the new state, and
      both flags are set, only when it held the opposite one. */
  lemma GunToggleEffect(s: Form)
    requires Valid(s)
    ensures var r := AfterGunToggle(s);
            var target := if r.gunToggle then 1 else 0;
            && r.gunToggle == !s.gunToggle
            && (if EqualsInt(s.shared.values[GunConnected], 1 - target)
                then r.shared.values == s.shared.values[GunConnected := Int(target)]
                     && r.shared.editing != "" && r.shared.commit != ""
                else r.shared == s.shared)
            && r == s.(shared := r.shared, gunToggle := r.gunToggle)
  {}

  /** The authorization state always flips; send_or_stop takes the new state,
      and both flags are set, only when it held the opposite one. */
  lemma AuthorizeEffect(s: Form)
    requires Valid(s)
    ensures var r := AfterAuthorize(s);
            var target := if r.authorized then 1 else 0;
            && r.authorized == !s.authorized
            && (if EqualsInt(s.shared.values[SendOrStop], 1 - target)
                then r.shared.values == s.shared.values[SendOrStop := Int(target)]
                     && r.shared.editing != "" && r.shared.commit != ""
                else r.shared == s.shared)
            && r == s.(shared := r.shared, authorized := r.authorized)
  {}

  /** Pressing the emergency stop gets `"estop": 1` into the file on the
      next tick. */
  lemma EstopPersisted(s: Form)
    requires Valid(s) && s.timers > 0
    ensures var r := AfterTick(AfterEstop(s));
            && r.file.Some? && "estop" in r.file.value && r.file.value["estop"] == Int(1)
            && r.shared == Shared("", "", s.shared.values[Estop := Int(1)])
  {
    CommitTick(AfterEstop(s));
    SaveDataSpec(s.shared.values[Estop := Int(1)]);
    assert Key(Estop) == "estop";
  }

  // ---------------------------------------------------------------------
  // The dashboard object

  class Monitor {
    const flags: UpdateState
    const vars: Variables
    const file: SnapshotFile
    var gunToggle: bool
    var authorized: bool
    var powerlossShown: bool
    var timers: nat

    ghost predicate Valid()
      reads this, vars
    {
      forall f :: Monitored(f) ==> f in vars.values
    }

    function State(): Form
      reads this, flags, vars, file
    {
      Form(Shared(flags.editing, flags.commit, vars.values), file.contents,
           gunToggle, authorized, powerlossShown, timers)
    }

    /** The widgets are built; nothing is read from the file yet. */
    constructor (file: SnapshotFile)
      ensures Valid() && this.file == file && fresh(flags) && fresh(vars)
      ensures State() == Form(Shared("", "", InitialValues), file.contents, false, false, true, 0)
    {
      InitialValuesComplete();
      flags := new UpdateState();
      vars := new Variables(InitialValues);
      this.file := file;
      gunToggle, authorized := false, false;
      powerlossShown := true;
      timers := 0;
    }

    /** The thirteen variables are written under their keys, replacing the
        whole file. */
    method OnSave()
      requires Valid()
      modifies file
      ensures file.contents == Some(SaveData(vars.values))
      ensures State() == AfterSave(old(State()))
    {
      var data := SaveData(vars.values);
      file.contents := Some(data);
    }

    /** Returns false where the source raises. */
    method UpdateFromFile() returns (ok: bool)
      requires Valid()
      modifies this`powerlossShown, vars
      ensures Valid()
      ensures (State(), ok) == AfterLoad(old(State()))
    {
      if file.contents.None? {
        return false;
      }
      var data := file.contents.value;
      ghost var s := State();
      LoadOrderDistinct();
      var rest := LoadOrder;
      while rest != []
        invariant Valid()
        invariant forall f :: f in rest ==> Monitored(f)
        invariant AfterLookups(State(), data, rest) == AfterLookups(s, data, LoadOrder)
        decreases |rest|
      {
        var f := rest[0];
        if Key(f) !in data {
          LoadByLookups(s, data);
          return false;
        }
        var v := data[Key(f)];
        if f == Powerloss {
          if EqualsInt(v, 0) {
            powerlossShown := false;
          } else if EqualsInt(v, 1) {
            powerlossShown := true;
          }
        } else {
          vars.values := vars.values[f := v];
        }
        rest := rest[1..];
      }
      LoadByLookups(s, data);
      return true;
    }

    /** The first branch of `update_callback`: a pending commit is saved
        and both flags are cleared. */
    method Flush()
      requires Valid()
      modifies flags, file
      ensures Valid()
      ensures State() == AfterFlush(old(State()))
    {
      if flags.commit != "" {
        OnSave();
        flags.commit := "";
        flags.editing := "";
      }
    }

    method UpdateCallback()
      requires Valid()
      modifies this`powerlossShown, this`timers, flags, vars, file
      ensures Valid()
      ensures State() == AfterUpdate(old(State()))
    {
      Flush();
      ghost var flushed := State();
      var ok := true;
      if flags.editing == "" {
        ok := UpdateFromFile();
      }
      if ok {
        timers := timers + 1;
      }
      assert State() == AfterRefresh(flushed);
    }

    /** A scheduled `update_callback` fires. */
    method Tick()
      requires Valid() && timers > 0
      modifies this`powerlossShown, this`timers, flags, vars, file
      ensures Valid()
      ensures State() == AfterTick(old(State()))
    {
      ghost var s := State();
      timers := timers - 1;
      ghost var t := State();
      assert t == s.(timers := s.timers - 1);
      UpdateCallback();
      assert State() == AfterUpdate(t);
    }

    /** The end of the constructor: one synchronous `update_callback`, then a
        second chain scheduled beside it. False where the constructor raises. */
    method Start() returns (ok: bool)
      requires Valid() && timers == 0
      modifies this`powerlossShown, this`timers, flags, vars, file
      ensures Valid()
      ensures ok <==> AfterUpdate(old(State())).timers == 1
      ensures State() == if ok then AfterUpdate(old(State())).(timers := 2) else AfterUpdate(old(State()))
    {
      UpdateCallback();
      ok := timers == 1;
      if ok {
        timers := timers + 1;
      }
    }

    method GunConnectionToggled()
      requires Valid()
      modifies this`gunToggle, flags, vars
      ensures Valid()
      ensures State() == AfterGunToggle(old(State()))
    {
      if !gunToggle {
        gunToggle := true;
        if EqualsInt(vars.values[GunConnected], 0) {
          vars.values := vars.values[GunConnected := Int(1)];
          flags.editing := "gun_connection_toggled";
          flags.commit := "gun_connection_toggled";
        }
      } else {
        gunToggle := false;
        if EqualsInt(vars.values[GunConnected], 1) {
          vars.values := vars.values[GunConnected := Int(0)];
          flags.editing := "gun_connection_toggled";
          flags.commit := "gun_connected_toggled";
        }
      }
    }

    method Authorize()
      requires Valid()
      modifies this`authorized, flags, vars
      ensures Valid()
      ensures State() == AfterAuthorize(old(State()))
    {
      if !authorized {
        authorized := true;
        if EqualsInt(vars.values[SendOrStop], 0) {
          vars.values := vars.values[SendOrStop := Int(1)];
          flags.editing := "authorize";
          flags.commit := "authorize";
        }
      } else {
        authorized := false;
        if EqualsInt(vars.values[SendOrStop], 1) {
          vars.values := vars.values[SendOrStop := Int(0)];
          flags.editing := "authorize";
          flags.commit := "authorize";
        }
      }
    }

    method OnEstop()
      requires Valid()
      modifies flags, vars
      ensures Valid()
      ensures State() == AfterEstop(old(State()))
    {
      vars.values := vars.values[Estop := Int(1)];
      flags.editing := "on_estop";
      flags.commit := "on_estop";
    }
  }
}
