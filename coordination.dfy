/** The state that the status dashboard shares between its periodic refresh
    and its edit callbacks: the scalar values of the snapshot file, the Tk
    variables that display them, the `update_state` flags and the snapshot
    file itself. */
module Coordination {

  datatype Option<T> = None | Some(value: T)

  /** A JSON scalar as the snapshot file holds it and as a Tk variable stores
      it. Tk variables keep whatever they are set to (an edited label stores
      the typed text), so values stay opaque rather than typed per field. */
  datatype Value = Int(i: int) | Float(r: real, repr: string) | Text(s: string) | Bool(b: bool) | Null

  /** Python's `v == k` for an integer literal `k`: numbers compare by value
      and `True`/`False` equal 1 and 0. */
  predicate EqualsInt(v: Value, k: int) {
    match v
    case Int(i) => i == k
    case Float(r, _) => r == k as real
    case Bool(b) => (if b then 1 else 0) == k
    case Text(_) => false
    case Null => false
  }

  /** The text a widget bound to a Tk variable holding `v` shows: an
      integer's decimal numeral, a float's shortest decimal form (`repr`,
      the same in Python and Tcl), a string as it is, a boolean as Tcl's 1
      or 0, and `None` by its name. */
  function Display(v: Value): string {
    match v
    case Int(i) => Decimal(i)
    case Float(_, repr) => repr
    case Text(s) => s
    case Bool(b) => if b then "1" else "0"
    case Null => "None"
  }

  predicate AllDigits(s: string) {
    forall i :: 0 <= i < |s| ==> '0' <= s[i] <= '9'
  }

  function DigitChar(d: nat): (c: char)
    requires d < 10
    ensures '0' <= c <= '9' && (c as int) - ('0' as int) == d
  {
    (('0' as int) + d) as char
  }

  /** The decimal numeral of `n`, without leading zeros. */
  function Digits(n: nat): (r: string)
    ensures |r| > 0 && AllDigits(r)
    decreases n
  {
    if n < 10 then [DigitChar(n)] else Digits(n / 10) + [DigitChar(n % 10)]
  }

  /** The decimal numeral of `i`, with a minus sign when it is negative. */
  function Decimal(i: int): string {
    if i < 0 then "-" + Digits(-i) else Digits(i)
  }

  /** The number a string of decimal digits spells. */
  function DigitsValue(s: string): nat
    requires AllDigits(s)
    decreases |s|
  {
    if s == [] then 0 else DigitsValue(s[..|s| - 1]) * 10 + ((s[|s| - 1] as int) - ('0' as int))
  }

  /** Reads a decimal numeral, optionally signed with a minus, back as an
      integer; anything else does not read as one. */
  function ParseDecimal(s: string): Option<int> {
    if |s| > 1 && s[0] == '-' && AllDigits(s[1..]) then Some(-(DigitsValue(s[1..]) as int))
    else if |s| > 0 && AllDigits(s) then Some(DigitsValue(s) as int)
    else None
  }

  lemma {:induction false} DigitsRoundTrip(n: nat)
    ensures DigitsValue(Digits(n)) == n
    decreases n
  {
    if n >= 10 {
      DigitsRoundTrip(n / 10);
      var d := Digits(n / 10);
      assert (d + [DigitChar(n % 10)])[..|d|] == d;
    }
  }

  /** An integer's displayed numeral reads back as that integer. */
  lemma DecimalRoundTrip(i: int)
    ensures ParseDecimal(Decimal(i)) == Some(i)
  {
    if i < 0 {
      SignedRoundTrip(-i);
    } else {
      DigitsRoundTrip(i);
      assert Digits(i)[0] != '-';
    }
  }

  lemma SignedRoundTrip(n: nat)
    ensures ParseDecimal("-" + Digits(n)) == Some(-(n as int))
  {
    var s := "-" + Digits(n);
    assert s[1..] == Digits(n);
    DigitsRoundTrip(n);
  }

  /** Whether the power-loss panel is packed after a refresh reads `v`:
      hidden for 0, shown for 1, left as it was otherwise. */
  function PanelShown(v: Value, current: bool): bool {
    if EqualsInt(v, 0) then false else if EqualsInt(v, 1) then true else current
  }

  /** One Tk variable of the dashboard per monitored attribute. */
  datatype Field =
    | StatusEvse | GunConnected | SendOrStop | Network | ReservationId
    | Estop | Powerloss | IdTag | Voltage | Current | ActivePower
    | Frequency | PowerFactor | Temperature | OfferedCurrent | MeterReading

  /** The parsed snapshot file: a JSON object from key to scalar. */
  type Snapshot = map<string, Value>

  /** The `update_state` flags together with the Tk variables: everything the
      dashboard and its editable labels both write. */
  datatype Shared = Shared(editing: string, commit: string, values: map<Field, Value>)

  /** The `{"Editing": "", "Commit": ""}` dict, shared by reference between
      the dashboard and every editable label. */
  class UpdateState {
    var editing: string
    var commit: string

    constructor ()
      ensures editing == "" && commit == ""
    {
      editing, commit := "", "";
    }
  }

  /** The dashboard's Tk variables, keyed by field. A label bound to a
      variable writes the entry for its field. */
  class Variables {
    var values: map<Field, Value>

    constructor (initial: map<Field, Value>)
      ensures values == initial
    {
      values := initial;
    }
  }

  /** The snapshot file on disk. `None` stands for a file that is absent or
      does not parse as a JSON object; another process may replace the
      contents between callbacks. */
  class SnapshotFile {
    var contents: Option<Snapshot>

    constructor (initial: Option<Snapshot>)
      ensures contents == initial
    {
      contents := initial;
    }
  }
}
