/** src/core/settings/settings_manager.c: a store of typed settings grouped in
    at most 20 categories of at most 50 settings, each setting with up to 10
    change callbacks. Keys are unique across all categories. */
module Settings {
  import opened Handles
  import opened MathUtils

  const MAX_CATEGORIES: nat := 20
  const MAX_SETTINGS_PER_CATEGORY: nat := 50
  const MAX_CALLBACKS_PER_SETTING: nat := 10

  /** `SettingType`. */
  datatype SettingType = TypeInt | TypeFloat | TypeBool | TypeString | TypeEnum

  /** `SettingDisplayType`. */
  datatype DisplayType = Slider | Checkbox | TextInput | Dropdown | ButtonDisplay

  /** `SettingValue`, tagged with the member in use. Floats are reals. */
  datatype Value = IntV(i: int) | FloatV(f: real) | BoolV(b: bool) | StrV(s: string) | EnumV(e: int) {
    function Kind(): SettingType {
      match this
      case IntV(_) => TypeInt
      case FloatV(_) => TypeFloat
      case BoolV(_) => TypeBool
      case StrV(_) => TypeString
      case EnumV(_) => TypeEnum
    }
  }

  /** `SettingConstraint`, tagged with the member in use. */
  datatype Constraint =
    | NoConstraint
    | IntRange(min: int, max: int, step: int)
    | FloatRange(fmin: real, fmax: real, fstep: real)
    | EnumOptions(options: seq<string>)

  /** The constraint each setting type carries. */
  predicate WellTyped(kind: SettingType, v: Value, c: Constraint) {
    v.Kind() == kind &&
    match kind
    case TypeInt => c.IntRange?
    case TypeFloat => c.FloatRange?
    case TypeEnum => c.EnumOptions?
    case _ => c.NoConstraint?
  }

  /** `CallbackData`. */
  datatype CallbackData = CallbackData(callback: Ptr, userdata: Ptr)

  /** One call `callback(key, user_data)` made by `trigger_callbacks`. */
  datatype Invocation = Invocation(callback: Ptr, key: string, userdata: Ptr)

  /** `trigger_callbacks`: every registered callback once, in slot order,
      with the setting's key and its own user data. */
  function Notify(key: string, cbs: seq<CallbackData>): (r: seq<Invocation>)
    ensures |r| == |cbs|
    ensures forall i :: 0 <= i < |cbs| ==> r[i] == Invocation(cbs[i].callback, key, cbs[i].userdata)
  {
    seq(|cbs|, i requires 0 <= i < |cbs| => Invocation(cbs[i].callback, key, cbs[i].userdata))
  }

  // ---- what the setters store ----------------------------------------------

  /** The value `sm_set_int` stores: clamped into [min, max] (the min test
      first), then, with a step above 1, snapped down to min + k*step using
      C's truncating division. */
  function IntWrite(min: int, max: int, step: int, v: int): int {
    var x := Clamp(v, min, max);
    if step > 1 then CDiv(x - min, step) * step + min else x
  }

  /** C's `(int)` conversion of a real: truncation toward zero. */
  function Trunc(r: real): int {
    if r >= 0.0 then r.Floor else -((-r).Floor)
  }

  /** The value `sm_set_float` stores: clamped, then with a positive step
      snapped to min + trunc((x - min) / step) * step. */
  function FloatWrite(min: real, max: real, step: real, v: real): real {
    var x := if v < min then min else if v > max then max else v;
    if step > 0.0 then (Trunc((x - min) / step) as real) * step + min else x
  }

  /** The value a typed setter leaves for a setting with constraint `c` and
      current value `cur` when given `v` of the setting's own type. An enum
      value outside [0, option count) is refused. */
  function Written(c: Constraint, cur: Value, v: Value): Value {
    match v
    case IntV(x) => if c.IntRange? then IntV(IntWrite(c.min, c.max, c.step, x)) else cur
    case FloatV(x) => if c.FloatRange? then FloatV(FloatWrite(c.fmin, c.fmax, c.fstep, x)) else cur
    case BoolV(_) => v
    case StrV(_) => v
    case EnumV(x) => if c.EnumOptions? && 0 <= x < |c.options| then v else cur
  }

  /** With min <= max an int setting always holds a value in [min, max], and
      with a step above 1 one on the grid min + k*step. */
  lemma IntWriteInRange(min: int, max: int, step: int, v: int)
    requires min <= max
    ensures min <= IntWrite(min, max, step, v) <= max
    ensures step > 1 ==> (IntWrite(min, max, step, v) - min) % step == 0
  {
    var x := Clamp(v, min, max);
    ClampInRange(v, min, max);
    if step > 1 {
      var q := CDiv(x - min, step);
      assert 0 <= x - min - q * step < step;
      assert IntWrite(min, max, step, v) - min == q * step;
      ModMultiple(q, step);
    }
  }

  lemma ModMultiple(q: int, step: int)
    requires step > 0
    ensures (q * step) % step == 0
  {
    var r := (q * step) % step;
    var d := (q * step) / step;
    assert q * step == d * step + r;
    assert (q - d) * step == r;
    if q - d >= 1 {
      MulAtLeast(q - d, step);
    } else if q - d <= -1 {
      MulAtLeast(d - q, step);
    }
  }

  /** Writing a value an int setting already holds (in range, on the grid)
      stores it unchanged, so a second identical write fires nothing. */
  lemma IntWriteIdempotent(min: int, max: int, step: int, v: int)
    requires min <= max
    ensures IntWrite(min, max, step, IntWrite(min, max, step, v)) == IntWrite(min, max, step, v)
  {
    var w := IntWrite(min, max, step, v);
    IntWriteInRange(min, max, step, v);
    assert Clamp(w, min, max) == w;
    if step > 1 {
      var k := (w - min) / step;
      assert w - min == k * step;
      CDivUnique(w - min, step, k);
    }
  }

  /** With min <= max and a positive step a float setting holds a value in
      [min, max]. */
  lemma FloatWriteInRange(min: real, max: real, step: real, v: real)
    requires min <= max && step > 0.0
    ensures min <= FloatWrite(min, max, step, v) <= max
  {
    var x := if v < min then min else if v > max then max else v;
    var r := (x - min) / step;
    assert r >= 0.0;
    var q := Trunc(r);
    assert q == r.Floor && 0 <= q;
    assert (q as real) <= r;
    assert (q as real) * step <= r * step;
    assert r * step == x - min;
  }

  /** A second write of the same float leaves the stored value unchanged. */
  lemma FloatWriteIdempotent(min: real, max: real, step: real, v: real)
    requires min <= max
    ensures FloatWrite(min, max, step, FloatWrite(min, max, step, v)) == FloatWrite(min, max, step, v)
  {
    var w := FloatWrite(min, max, step, v);
    if step > 0.0 {
      FloatWriteInRange(min, max, step, v);
      var x := if v < min then min else if v > max then max else v;
      var q := Trunc((x - min) / step);
      assert q >= 0;
      var qr := q as real;
      assert w - min == qr * step;
      DivCancel(qr, step);
      assert (w - min) / step == qr;
      assert Trunc(qr) == q;
    }
  }

  lemma DivCancel(q: real, step: real)
    requires step > 0.0
    ensures (q * step) / step == q
  {
  }

  /** Constraints whose ranges are not empty. */
  predicate Sane(c: Constraint) {
    (c.IntRange? ==> c.min <= c.max) && (c.FloatRange? ==> c.fmin <= c.fmax)
  }

  /** Writing the same value twice has the effect of writing it once. */
  lemma WrittenIdempotent(c: Constraint, cur: Value, v: Value)
    requires Sane(c)
    ensures Written(c, Written(c, cur, v), v) == Written(c, cur, v)
  {
    match v
    case IntV(x) =>
      if c.IntRange? {
        IntWriteIdempotent(c.min, c.max, c.step, x);
      }
    case FloatV(x) =>
      if c.FloatRange? {
        FloatWriteIdempotent(c.fmin, c.fmax, c.fstep, x);
      }
    case _ =>
  }

  // ---- settings and categories ---------------------------------------------

  /** `Setting`. Registration fixes every field but the value and the
      callback slots. The C record is heap-allocated, but no pointer to it
      leaves the store, so the model keeps it by value in its category. */
  datatype Setting = Setting(
    key: string,
    category: string,
    displayName: string,
    description: Option<string>,
    kind: SettingType,
    displayType: DisplayType,
    default: Value,
    constraint: Constraint,
    value: Value,
    callbacks: seq<CallbackData>)

  /** A setting's value and default have its type, its constraint matches
      its type, and at most 10 callback slots are in use. */
  predicate SettingOk(s: Setting) {
    |s.callbacks| <= MAX_CALLBACKS_PER_SETTING &&
    WellTyped(s.kind, s.value, s.constraint) && WellTyped(s.kind, s.default, s.constraint)
  }

  /** `Category`. */
  datatype Category = Category(name: string, displayName: string, settings: seq<Setting>)

  /** `find_category`: index of the category named `name`, or `|cats|`. */
  function CategoryIndex(cats: seq<Category>, name: string): (k: nat)
    ensures k <= |cats|
    ensures forall i :: 0 <= i < k ==> cats[i].name != name
    ensures k < |cats| ==> cats[k].name == name
  {
    FirstIndex(cats, (c: Category) => c.name == name)
  }

  /** The keys of some settings, in slot order. */
  function Keys(ss: seq<Setting>): (r: seq<string>)
    ensures |r| == |ss| && forall a :: 0 <= a < |ss| ==> r[a] == ss[a].key
  {
    seq(|ss|, a requires 0 <= a < |ss| => ss[a].key)
  }

  /** The keys of every category, category by category. */
  function KeyTable(cats: seq<Category>): (r: seq<seq<string>>)
    ensures |r| == |cats| && forall i :: 0 <= i < |cats| ==> r[i] == Keys(cats[i].settings)
  {
    seq(|cats|, i requires 0 <= i < |cats| => Keys(cats[i].settings))
  }

  /** Index of the first key equal to `key`, or `|ks|`. */
  function KeyIndex(ks: seq<string>, key: string): (a: nat)
    ensures a <= |ks|
    ensures forall j :: 0 <= j < a ==> ks[j] != key
    ensures a < |ks| ==> ks[a] == key
  {
    FirstIndex(ks, (k: string) => k == key)
  }

  /** The position (category, slot) of the first occurrence of `key` in a
      key table, scanning categories in order and slots in order. */
  function FindIn(kt: seq<seq<string>>, key: string): (r: Option<(nat, nat)>)
    ensures r.Some? ==>
      r.value.0 < |kt| && r.value.1 < |kt[r.value.0]| && kt[r.value.0][r.value.1] == key
    ensures r.None? <==> forall i, a :: 0 <= i < |kt| && 0 <= a < |kt[i]| ==> kt[i][a] != key
  {
    if kt == [] then None
    else
      var a := KeyIndex(kt[0], key);
      if a < |kt[0]| then Some((0, a))
      else match FindIn(kt[1..], key)
        case None =>
          assert forall i, b :: 1 <= i < |kt| && 0 <= b < |kt[i]| ==> kt[i][b] == kt[1..][i - 1][b];
          None
        case Some((i, b)) => Some((i + 1, b))
  }

  /** `find_setting`: where the setting with `key` is stored, if anywhere. */
  function FindKey(cats: seq<Category>, key: string): (r: Option<(nat, nat)>)
    ensures r.Some? ==>
      r.value.0 < |cats| && r.value.1 < |cats[r.value.0].settings| &&
      cats[r.value.0].settings[r.value.1].key == key
    ensures r.None? <==> forall i, a :: 0 <= i < |cats| && 0 <= a < |cats[i].settings| ==> cats[i].settings[a].key != key
  {
    var kt := KeyTable(cats);
    assert forall i, a :: 0 <= i < |cats| && 0 <= a < |cats[i].settings| ==> kt[i][a] == cats[i].settings[a].key;
    FindIn(kt, key)
  }

  /** No two slots, in the same or different categories, hold the same key. */
  predicate UniqueKeys(cats: seq<Category>) {
    forall i, a, j, b ::
      (0 <= i < |cats| && 0 <= a < |cats[i].settings| && 0 <= j < |cats| && 0 <= b < |cats[j].settings| &&
       (i != j || a != b)) ==>
      cats[i].settings[a].key != cats[j].settings[b].key
  }

  /** The invariant of the category table: at most 20 categories with
      distinct names, at most 50 settings in each, each setting filed under
      its own category and well formed, and keys unique across the table. */
  predicate ValidTable(cats: seq<Category>) {
    |cats| <= MAX_CATEGORIES &&
    (forall i, j :: 0 <= i < j < |cats| ==> cats[i].name != cats[j].name) &&
    (forall i :: 0 <= i < |cats| ==> |cats[i].settings| <= MAX_SETTINGS_PER_CATEGORY) &&
    (forall i, a :: 0 <= i < |cats| && 0 <= a < |cats[i].settings| ==>
       cats[i].settings[a].category == cats[i].name && SettingOk(cats[i].settings[a])) &&
    UniqueKeys(cats)
  }

  /** With unique keys, `find_setting` finds every stored setting by its key. */
  lemma FindKeyOfMember(cats: seq<Category>, i: nat, a: nat)
    requires UniqueKeys(cats) && i < |cats| && a < |cats[i].settings|
    ensures FindKey(cats, cats[i].settings[a].key) == Some((i, a))
  {
  }

  /** `find_setting` itself. */
  function Lookup(cats: seq<Category>, key: string): (r: Option<Setting>)
    ensures r.Some? <==> FindKey(cats, key).Some?
    ensures r.Some? ==> r.value.key == key
  {
    match FindKey(cats, key)
    case None => None
    case Some((i, a)) => Some(cats[i].settings[a])
  }

  /** The table with slot `a` of category `i` replaced by `s`. */
  function Update(cats: seq<Category>, i: nat, a: nat, s: Setting): (r: seq<Category>)
    requires i < |cats| && a < |cats[i].settings|
    ensures |r| == |cats|
    ensures forall j :: 0 <= j < |cats| ==> r[j].name == cats[j].name && |r[j].settings| == |cats[j].settings|
    ensures r[i].settings[a] == s
    ensures forall j, b :: 0 <= j < |cats| && 0 <= b < |cats[j].settings| && (j != i || b != a) ==>
      r[j].settings[b] == cats[j].settings[b]
  {
    cats[i := cats[i].(settings := cats[i].settings[a := s])]
  }

  /** Changing a setting's value or callbacks, keeping the rest of its
      record and its well-formedness, keeps the table valid and its keys. */
  lemma UpdateKeepsValid(cats: seq<Category>, i: nat, a: nat, s: Setting)
    requires ValidTable(cats) && i < |cats| && a < |cats[i].settings|
    requires s.(value := cats[i].settings[a].value, callbacks := cats[i].settings[a].callbacks) == cats[i].settings[a]
    requires SettingOk(s)
    ensures ValidTable(Update(cats, i, a, s)) && KeyTable(Update(cats, i, a, s)) == KeyTable(cats)
  {
    var r := Update(cats, i, a, s);
    assert s.key == cats[i].settings[a].key;
    forall j | 0 <= j < |cats|
      ensures Keys(r[j].settings) == Keys(cats[j].settings)
    {
    }
  }

  /** The effect every typed setter shares, for a value `v` of the type the
      caller names: nothing for a missing key or a setting of another type;
      otherwise the setter's constrained value is stored and, if it differs
      from the old one, the setting's callbacks fire. */
  function Assign(cats: seq<Category>, key: string, v: Value): (seq<Category>, seq<Invocation>)
  {
    match FindKey(cats, key)
    case None => (cats, [])
    case Some((i, a)) =>
      var s := cats[i].settings[a];
      if s.kind != v.Kind() then (cats, [])
      else
        var w := Written(s.constraint, s.value, v);
        if w == s.value then (cats, []) else (Update(cats, i, a, s.(value := w)), Notify(s.key, s.callbacks))
  }

  /** A setter changes at most the value of the setting under `key`, and
      that only to the constrained value of a well-typed write. */
  lemma AssignEffect(cats: seq<Category>, key: string, v: Value)
    requires ValidTable(cats)
    ensures var r := Assign(cats, key, v).0;
      ValidTable(r) && KeyTable(r) == KeyTable(cats) && |r| == |cats| &&
      forall i, a :: 0 <= i < |cats| && 0 <= a < |cats[i].settings| ==>
        var s := cats[i].settings[a];
        r[i].settings[a] == if s.key == key && s.kind == v.Kind() then s.(value := Written(s.constraint, s.value, v)) else s
  {
    match FindKey(cats, key)
    case None =>
    case Some((i, a)) =>
      var s := cats[i].settings[a];
      if s.kind == v.Kind() {
        var w := Written(s.constraint, s.value, v);
        assert WellTyped(s.kind, w, s.constraint);
        if w != s.value {
          UpdateKeepsValid(cats, i, a, s.(value := w));
        }
      }
  }

  /** Setting the same value twice: the second write changes nothing and
      fires no callback. */
  lemma AssignIdempotent(cats: seq<Category>, key: string, v: Value)
    requires ValidTable(cats)
    requires forall i, a :: 0 <= i < |cats| && 0 <= a < |cats[i].settings| ==> Sane(cats[i].settings[a].constraint)
    ensures Assign(Assign(cats, key, v).0, key, v) == (Assign(cats, key, v).0, [])
  {
    AssignEffect(cats, key, v);
    var r := Assign(cats, key, v).0;
    match FindKey(cats, key)
    case None =>
    case Some((i, a)) =>
      var s := cats[i].settings[a];
      FindKeyOfMember(r, i, a);
      if s.kind == v.Kind() {
        WrittenIdempotent(s.constraint, s.value, v);
      }
  }

  /** `sm_get_int`: the value of an int setting, 0 when the key is missing
      or names another type. */
  function GetInt(cats: seq<Category>, key: string): (r: int)
    ensures match Lookup(cats, key)
      case Some(s) => s.kind == TypeInt && s.value.IntV? ==> r == s.value.i
      case None => r == 0
    ensures (Lookup(cats, key).None? || Lookup(cats, key).value.kind != TypeInt) ==> r == 0
  {
    match Lookup(cats, key)
    case Some(s) => if s.kind == TypeInt && s.value.IntV? then s.value.i else 0
    case None => 0
  }

  /** `sm_get_float`: 0.0 for a missing or differently typed key. */
  function GetFloat(cats: seq<Category>, key: string): (r: real)
    ensures match Lookup(cats, key)
      case Some(s) => s.kind == TypeFloat && s.value.FloatV? ==> r == s.value.f
      case None => r == 0.0
    ensures (Lookup(cats, key).None? || Lookup(cats, key).value.kind != TypeFloat) ==> r == 0.0
  {
    match Lookup(cats, key)
    case Some(s) => if s.kind == TypeFloat && s.value.FloatV? then s.value.f else 0.0
    case None => 0.0
  }

  /** `sm_get_bool`: false for a missing or differently typed key. */
  function GetBool(cats: seq<Category>, key: string): (r: bool)
    ensures r <==> Lookup(cats, key).Some? && Lookup(cats, key).value.kind == TypeBool &&
                   Lookup(cats, key).value.value == BoolV(true)
  {
    match Lookup(cats, key)
    case Some(s) => s.kind == TypeBool && s.value.BoolV? && s.value.b
    case None => false
  }

  /** `sm_get_string`: "" for a missing or differently typed key. */
  function GetString(cats: seq<Category>, key: string): (r: string)
    ensures match Lookup(cats, key)
      case Some(s) => s.kind == TypeString && s.value.StrV? ==> r == s.value.s
      case None => r == ""
    ensures (Lookup(cats, key).None? || Lookup(cats, key).value.kind != TypeString) ==> r == ""
  {
    match Lookup(cats, key)
    case Some(s) => if s.kind == TypeString && s.value.StrV? then s.value.s else ""
    case None => ""
  }

  /** `sm_get_enum`: the option index, 0 for a missing or differently typed
      key. */
  function GetEnum(cats: seq<Category>, key: string): (r: int)
    ensures match Lookup(cats, key)
      case Some(s) => s.kind == TypeEnum && s.value.EnumV? ==> r == s.value.e
      case None => r == 0
    ensures (Lookup(cats, key).None? || Lookup(cats, key).value.kind != TypeEnum) ==> r == 0
  {
    match Lookup(cats, key)
    case Some(s) => if s.kind == TypeEnum && s.value.EnumV? then s.value.e else 0
    case None => 0
  }

  /** `sm_get_enum_string`: the name of the selected option; "" for a
      missing or differently typed key and for an index outside the
      options. */
  function GetEnumString(cats: seq<Category>, key: string): (r: string)
    ensures match Lookup(cats, key)
      case Some(s) =>
        if s.kind == TypeEnum && s.value.EnumV? && s.constraint.EnumOptions? && 0 <= s.value.e < |s.constraint.options|
        then r == s.constraint.options[s.value.e] else r == ""
      case None => r == ""
  {
    match Lookup(cats, key)
    case Some(s) =>
      if s.kind == TypeEnum && s.value.EnumV? && s.constraint.EnumOptions? && 0 <= s.value.e < |s.constraint.options|
      then s.constraint.options[s.value.e] else ""
    case None => ""
  }

  /** Round trip: reading an int setting back after setting it gives the
      value written when that value is in range and on the step grid, and
      otherwise the clamped and stepped one, which is within [min, max]. */
  lemma SetIntThenGet(cats: seq<Category>, key: string, v: int)
    requires ValidTable(cats) && Lookup(cats, key).Some? && Lookup(cats, key).value.kind == TypeInt
    ensures var c := Lookup(cats, key).value.constraint;
      GetInt(Assign(cats, key, IntV(v)).0, key) == IntWrite(c.min, c.max, c.step, v) &&
      (c.min <= v <= c.max && (c.step <= 1 || (v - c.min) % c.step == 0) ==> GetInt(Assign(cats, key, IntV(v)).0, key) == v) &&
      (c.min <= c.max ==> c.min <= GetInt(Assign(cats, key, IntV(v)).0, key) <= c.max)
  {
    IntReadBack(cats, key, v);
    var c := Lookup(cats, key).value.constraint;
    if c.min <= v <= c.max && (c.step <= 1 || (v - c.min) % c.step == 0) {
      IntWriteExact(c.min, c.max, c.step, v);
    }
    if c.min <= c.max {
      IntWriteInRange(c.min, c.max, c.step, v);
    }
  }

  /** Reading an int setting back gives what `IntWrite` stored. */
  lemma IntReadBack(cats: seq<Category>, key: string, v: int)
    requires ValidTable(cats) && Lookup(cats, key).Some? && Lookup(cats, key).value.kind == TypeInt
    ensures var c := Lookup(cats, key).value.constraint;
      GetInt(Assign(cats, key, IntV(v)).0, key) == IntWrite(c.min, c.max, c.step, v)
  {
    AssignEffect(cats, key, IntV(v));
    var r := Assign(cats, key, IntV(v)).0;
    var pos := FindKey(cats, key).value;
    FindKeyOfMember(r, pos.0, pos.1);
  }

  /** A value in range and on the step grid is stored as it is. */
  lemma IntWriteExact(min: int, max: int, step: int, v: int)
    requires min <= v <= max && (step <= 1 || (v - min) % step == 0)
    ensures IntWrite(min, max, step, v) == v
  {
    if step > 1 {
      CDivUnique(v - min, step, (v - min) / step);
    }
  }

  /** Round trip for bool and string settings: the value written is the value
      read back. */
  lemma SetBoolStringThenGet(cats: seq<Category>, key: string, b: bool, str: string)
    requires ValidTable(cats)
    ensures Lookup(cats, key).Some? && Lookup(cats, key).value.kind == TypeBool ==>
      GetBool(Assign(cats, key, BoolV(b)).0, key) == b
    ensures Lookup(cats, key).Some? && Lookup(cats, key).value.kind == TypeString ==>
      GetString(Assign(cats, key, StrV(str)).0, key) == str
  {
    if Lookup(cats, key).Some? {
      if Lookup(cats, key).value.kind == TypeBool {
        BoolStringReadBack(cats, key, BoolV(b));
      } else if Lookup(cats, key).value.kind == TypeString {
        BoolStringReadBack(cats, key, StrV(str));
      }
    }
  }

  lemma BoolStringReadBack(cats: seq<Category>, key: string, v: Value)
    requires ValidTable(cats) && Lookup(cats, key).Some?
    requires Lookup(cats, key).value.kind == v.Kind() && (v.BoolV? || v.StrV?)
    ensures v.BoolV? ==> GetBool(Assign(cats, key, v).0, key) == v.b
    ensures v.StrV? ==> GetString(Assign(cats, key, v).0, key) == v.s
  {
    AssignEffect(cats, key, v);
    var pos := FindKey(cats, key).value;
    FindKeyOfMember(Assign(cats, key, v).0, pos.0, pos.1);
  }

  /** An enum write outside [0, option count) is refused; one inside is read
      back. */
  lemma SetEnumThenGet(cats: seq<Category>, key: string, e: int)
    requires ValidTable(cats) && Lookup(cats, key).Some? && Lookup(cats, key).value.kind == TypeEnum
    ensures var s := Lookup(cats, key).value;
      GetEnum(Assign(cats, key, EnumV(e)).0, key) == if 0 <= e < |s.constraint.options| then e else s.value.e
  {
    AssignEffect(cats, key, EnumV(e));
    var pos := FindKey(cats, key).value;
    FindKeyOfMember(Assign(cats, key, EnumV(e)).0, pos.0, pos.1);
  }

  // ---- reset ---------------------------------------------------------------

  /** The setting after `sm_reset_setting`: its default written through its
      own typed setter (so an int default is clamped and stepped and an
      enum default outside the options is refused). */
  function Reset(s: Setting): Setting {
    s.(value := Written(s.constraint, s.value, s.default))
  }

  /** The callbacks resetting `s` fires: all of them if the value changes. */
  function Fired(s: Setting): seq<Invocation> {
    if Reset(s).value == s.value then [] else Notify(s.key, s.callbacks)
  }

  /** Every setting of a category, reset. */
  function ResetAll(ss: seq<Setting>): (r: seq<Setting>)
    ensures |r| == |ss| && forall a :: 0 <= a < |ss| ==> r[a] == Reset(ss[a])
  {
    seq(|ss|, a requires 0 <= a < |ss| => Reset(ss[a]))
  }

  /** The callbacks resetting `ss` in slot order fires. */
  function ResetCalls(ss: seq<Setting>): seq<Invocation>
    decreases |ss|
  {
    if ss == [] then [] else ResetCalls(ss[..|ss| - 1]) + Fired(ss[|ss| - 1])
  }

  /** Resetting slot `j` of a category whose slots before `j` are reset
      extends the reset prefix by one. */
  lemma ResetPrefixStep(ss: seq<Setting>, j: nat)
    requires j < |ss|
    ensures (ResetAll(ss[..j]) + ss[j..])[j] == ss[j]
    ensures (ResetAll(ss[..j]) + ss[j..])[j := Reset(ss[j])] == ResetAll(ss[..j + 1]) + ss[j + 1..]
  {
    var p := ResetAll(ss[..j]) + ss[j..];
    var q := ResetAll(ss[..j + 1]) + ss[j + 1..];
    assert |p| == |q| == |ss|;
    forall a | 0 <= a < |ss| ensures p[j := Reset(ss[j])][a] == q[a] {
      if a < j {
        assert p[a] == Reset(ss[a]) && q[a] == Reset(ss[a]);
      } else if a > j {
        assert p[a] == ss[a] && q[a] == ss[a];
      }
    }
  }

  /** One step of resetting category `k` in slot order, on the whole table. */
  lemma ResetSlotStep(cats: seq<Category>, k: nat, ss: seq<Setting>, j: nat)
    requires k < |cats| && j < |ss|
    ensures var c := cats[k := cats[k].(settings := ResetAll(ss[..j]) + ss[j..])];
      c[k].settings[j] == ss[j] &&
      Update(c, k, j, Reset(ss[j])) == cats[k := cats[k].(settings := ResetAll(ss[..j + 1]) + ss[j + 1..])]
  {
    ResetPrefixStep(ss, j);
    var c := cats[k := cats[k].(settings := ResetAll(ss[..j]) + ss[j..])];
    var n := cats[k := cats[k].(settings := ResetAll(ss[..j + 1]) + ss[j + 1..])];
    var u := Update(c, k, j, Reset(ss[j]));
    assert u[k] == n[k];
    assert forall i :: 0 <= i < |cats| && i != k ==> u[i] == n[i];
  }

  /** The table after `sm_reset_category` on category `k`. */
  function ResetCategoryIn(cats: seq<Category>, k: nat): seq<Category>
    requires k < |cats|
  {
    cats[k := cats[k].(settings := ResetAll(cats[k].settings))]
  }

  /** The table after `sm_reset_to_defaults`. */
  function ResetTable(cats: seq<Category>): (r: seq<Category>)
    ensures |r| == |cats| && forall i :: 0 <= i < |cats| ==> r[i] == cats[i].(settings := ResetAll(cats[i].settings))
  {
    seq(|cats|, i requires 0 <= i < |cats| => cats[i].(settings := ResetAll(cats[i].settings)))
  }

  /** The callbacks `sm_reset_to_defaults` fires: category by category. */
  function AllResetCalls(cats: seq<Category>): seq<Invocation>
    decreases |cats|
  {
    if cats == [] then [] else AllResetCalls(cats[..|cats| - 1]) + ResetCalls(cats[|cats| - 1].settings)
  }

  lemma ResetCallsStep(ss: seq<Setting>, j: nat)
    requires j < |ss|
    ensures ResetCalls(ss[..j + 1]) == ResetCalls(ss[..j]) + Fired(ss[j])
  {
    assert ss[..j + 1][..j] == ss[..j];
  }

  lemma AllResetCallsStep(cats: seq<Category>, i: nat)
    requires i < |cats|
    ensures AllResetCalls(cats[..i + 1]) == AllResetCalls(cats[..i]) + ResetCalls(cats[i].settings)
  {
    assert cats[..i + 1][..i] == cats[..i];
  }

  /** Replacing a slot by the setting it already holds changes nothing. */
  lemma UpdateSame(cats: seq<Category>, i: nat, a: nat)
    requires i < |cats| && a < |cats[i].settings|
    ensures Update(cats, i, a, cats[i].settings[a]) == cats
  {
    assert cats[i].settings[a := cats[i].settings[a]] == cats[i].settings;
  }

  /** A reset puts an int setting with a non-empty range inside it, a float
      one with a positive step inside its range, gives bool and string
      settings their default, and keeps an in-range enum in range. */
  lemma ResetInRange(s: Setting)
    requires SettingOk(s) && Sane(s.constraint)
    ensures s.kind == TypeInt ==> s.constraint.min <= Reset(s).value.i <= s.constraint.max
    ensures s.kind == TypeFloat && s.constraint.fstep > 0.0 ==>
      s.constraint.fmin <= Reset(s).value.f <= s.constraint.fmax
    ensures s.kind == TypeBool || s.kind == TypeString ==> Reset(s).value == s.default
    ensures s.kind == TypeEnum && 0 <= s.value.e < |s.constraint.options| ==>
      0 <= Reset(s).value.e < |s.constraint.options|
  {
    match s.kind
    case TypeInt => IntWriteInRange(s.constraint.min, s.constraint.max, s.constraint.step, s.default.i);
    case TypeFloat =>
      if s.constraint.fstep > 0.0 {
        FloatWriteInRange(s.constraint.fmin, s.constraint.fmax, s.constraint.fstep, s.default.f);
      }
    case _ =>
  }

  /** Resetting twice is resetting once, and the second reset fires no
      callback. */
  lemma ResetIdempotent(s: Setting)
    requires Sane(s.constraint)
    ensures Reset(Reset(s)) == Reset(s) && Fired(Reset(s)) == []
  {
    WrittenIdempotent(s.constraint, s.value, s.default);
  }

  /** Resetting a category that was just reset fires nothing. */
  lemma {:induction false} ResetCallsAfterReset(ss: seq<Setting>)
    requires forall a :: 0 <= a < |ss| ==> Sane(ss[a].constraint)
    ensures ResetCalls(ResetAll(ss)) == []
    decreases |ss|
  {
    if ss != [] {
      var n := |ss| - 1;
      assert ResetAll(ss)[..n] == ResetAll(ss[..n]);
      ResetCallsAfterReset(ss[..n]);
      ResetIdempotent(ss[n]);
    }
  }

  /** Settings that a reset leaves alone are reset without a callback. */
  lemma {:induction false} ResetCallsFixed(ss: seq<Setting>)
    requires forall a :: 0 <= a < |ss| ==> Reset(ss[a]) == ss[a]
    ensures ResetAll(ss) == ss && ResetCalls(ss) == []
    decreases |ss|
  {
    if ss != [] {
      ResetCallsFixed(ss[..|ss| - 1]);
    }
  }

  /** A table whose every setting a reset leaves alone survives
      `sm_reset_to_defaults` unchanged and without a callback. */
  lemma {:induction false} ResetTableFixed(cats: seq<Category>)
    requires forall i, a :: 0 <= i < |cats| && 0 <= a < |cats[i].settings| ==> Reset(cats[i].settings[a]) == cats[i].settings[a]
    ensures ResetTable(cats) == cats && AllResetCalls(cats) == []
    decreases |cats|
  {
    if cats != [] {
      var n := |cats| - 1;
      ResetTableFixed(cats[..n]);
      forall i | 0 <= i < |cats|
        ensures ResetTable(cats)[i] == cats[i]
      {
        ResetCallsFixed(cats[i].settings);
      }
      ResetCallsFixed(cats[n].settings);
    }
  }

  // ---- callbacks -------------------------------------------------------------

  /** Removing callback slot `k` the way `sm_unregister_callback` does: the
      last callback moves into slot `k` and the count drops by one. */
  function SwapRemove(cbs: seq<CallbackData>, k: nat): (r: seq<CallbackData>)
    requires k < |cbs|
    ensures |r| == |cbs| - 1
  {
    cbs[k := cbs[|cbs| - 1]][..|cbs| - 1]
  }

  /** Index of the first slot holding `callback`, or `|cbs|`. */
  function CallbackIndex(cbs: seq<CallbackData>, callback: Ptr): (k: nat)
    ensures k <= |cbs|
    ensures forall j :: 0 <= j < k ==> cbs[j].callback != callback
    ensures k < |cbs| ==> cbs[k].callback == callback
  {
    FirstIndex(cbs, (c: CallbackData) => c.callback == callback)
  }

  /** Unregistering removes exactly one registration of that callback and
      keeps all the others (the order of the rest may change). */
  lemma SwapRemoveMultiset(cbs: seq<CallbackData>, k: nat)
    requires k < |cbs|
    ensures multiset(SwapRemove(cbs, k)) == multiset(cbs) - multiset{cbs[k]}
  {
    var n := |cbs| - 1;
    if k == n {
      assert cbs == cbs[..n] + [cbs[n]];
      assert SwapRemove(cbs, k) == cbs[..n];
    } else {
      assert cbs == cbs[..k] + [cbs[k]] + cbs[k + 1..n] + [cbs[n]];
      assert SwapRemove(cbs, k) == cbs[..k] + [cbs[n]] + cbs[k + 1..n];
    }
  }

  /** Registering a callback not yet present and then unregistering it gives
      back the original slots. */
  lemma RegisterThenUnregister(cbs: seq<CallbackData>, c: CallbackData)
    requires CallbackIndex(cbs, c.callback) == |cbs|
    ensures CallbackIndex(cbs + [c], c.callback) == |cbs|
    ensures SwapRemove(cbs + [c], |cbs|) == cbs
  {
    assert forall j :: 0 <= j < |cbs| ==> (cbs + [c])[j] == cbs[j];
    assert (cbs + [c])[|cbs|] == c;
    var r := SwapRemove(cbs + [c], |cbs|);
    assert forall j :: 0 <= j < |cbs| ==> r[j] == cbs[j];
  }

  // ---- registration ----------------------------------------------------------

  /** Filing a well-formed setting with a new key under an existing category
      that has room keeps the table valid. */
  lemma AppendKeepsValid(cats: seq<Category>, k: nat, s: Setting)
    requires ValidTable(cats) && k < |cats| && FindKey(cats, s.key).None?
    requires |cats[k].settings| < MAX_SETTINGS_PER_CATEGORY && s.category == cats[k].name && SettingOk(s)
    ensures ValidTable(cats[k := cats[k].(settings := cats[k].settings + [s])])
  {
    var cats' := cats[k := cats[k].(settings := cats[k].settings + [s])];
    assert forall i, a :: 0 <= i < |cats| && 0 <= a < |cats[i].settings| ==> cats'[i].settings[a] == cats[i].settings[a];
    assert cats'[k].settings[|cats[k].settings|] == s;
    forall i, a, j, b |
      0 <= i < |cats'| && 0 <= a < |cats'[i].settings| && 0 <= j < |cats'| && 0 <= b < |cats'[j].settings| &&
      (i != j || a != b)
      ensures cats'[i].settings[a].key != cats'[j].settings[b].key
    {
    }
  }

  /** Whether `sm_register_category` accepts `category`: it is given, the
      table has room and no category has that name yet. */
  predicate AcceptsCategory(cats: seq<Category>, category: Option<string>) {
    category.Some? && |cats| < MAX_CATEGORIES && CategoryIndex(cats, category.value) == |cats|
  }

  /** The table after `sm_register_category`: an accepted category is
      appended, empty, its display name defaulting to its name. */
  function WithCategory(cats: seq<Category>, category: Option<string>, displayName: Option<string>): seq<Category> {
    if AcceptsCategory(cats, category) then cats + [Category(category.value, displayName.GetOr(category.value), [])]
    else cats
  }

  /** A name missing from `cats` is found in a category appended with it. */
  lemma {:induction false} CategoryIndexAppend(cats: seq<Category>, c: Category)
    requires CategoryIndex(cats, c.name) == |cats|
    ensures CategoryIndex(cats + [c], c.name) == |cats|
    decreases |cats|
  {
    if cats != [] {
      assert (cats + [c])[1..] == cats[1..] + [c];
      CategoryIndexAppend(cats[1..], c);
    }
  }

  /** Registering a category keeps the table valid, and an accepted one is
      then found under its name, after all the earlier ones. */
  lemma WithCategoryEffect(cats: seq<Category>, category: Option<string>, displayName: Option<string>)
    requires ValidTable(cats)
    ensures ValidTable(WithCategory(cats, category, displayName))
    ensures KeyTable(WithCategory(cats, category, displayName))[..|cats|] == KeyTable(cats)
    ensures AcceptsCategory(cats, category) ==>
      CategoryIndex(WithCategory(cats, category, displayName), category.value) == |cats|
  {
    var r := WithCategory(cats, category, displayName);
    if AcceptsCategory(cats, category) {
      CategoryIndexAppend(cats, Category(category.value, displayName.GetOr(category.value), []));
      assert forall i, a :: 0 <= i < |cats| && 0 <= a < |r[i].settings| ==> r[i].settings[a] == cats[i].settings[a];
    }
  }

  /** Whether `register_setting` accepts `key` under `category`: both are
      given, the category exists and has room, and no category holds the key. */
  predicate AcceptsSetting(cats: seq<Category>, category: Option<string>, key: Option<string>) {
    category.Some? && key.Some? && CategoryIndex(cats, category.value) < |cats| &&
    FindKey(cats, key.value).None? &&
    |cats[CategoryIndex(cats, category.value)].settings| < MAX_SETTINGS_PER_CATEGORY
  }

  /** The setting a typed registration files: value equal to the default, no
      callbacks, display name defaulting to the key. */
  function NewSetting(category: string, key: string, displayName: Option<string>, description: Option<string>,
                      kind: SettingType, displayType: DisplayType, default: Value, constraint: Constraint): Setting {
    Setting(key, category, displayName.GetOr(key), description, kind, displayType, default, constraint, default, [])
  }

  /** The table after a typed registration: an accepted setting is appended
      to its category, a refused one changes nothing. */
  function WithSetting(cats: seq<Category>, category: Option<string>, key: Option<string>, displayName: Option<string>,
                       description: Option<string>, kind: SettingType, displayType: DisplayType,
                       default: Value, constraint: Constraint): seq<Category> {
    if !AcceptsSetting(cats, category, key) then cats
    else
      var k := CategoryIndex(cats, category.value);
      cats[k := cats[k].(settings := cats[k].settings +
        [NewSetting(category.value, key.value, displayName, description, kind, displayType, default, constraint)])]
  }

  /** Registering a well-typed setting keeps the table valid. */
  lemma WithSettingKeepsValid(cats: seq<Category>, category: Option<string>, key: Option<string>,
                              displayName: Option<string>, description: Option<string>, kind: SettingType,
                              displayType: DisplayType, default: Value, constraint: Constraint)
    requires ValidTable(cats) && WellTyped(kind, default, constraint)
    ensures ValidTable(WithSetting(cats, category, key, displayName, description, kind, displayType, default, constraint))
  {
    if AcceptsSetting(cats, category, key) {
      AppendKeepsValid(cats, CategoryIndex(cats, category.value),
                       NewSetting(category.value, key.value, displayName, description, kind, displayType, default, constraint));
    }
  }

  /** Registering a well-typed setting keeps the table valid; afterwards an
      accepted key looks up the new setting and every other key looks up
      what it did before. */
  lemma WithSettingEffect(cats: seq<Category>, category: Option<string>, key: Option<string>, displayName: Option<string>,
                          description: Option<string>, kind: SettingType, displayType: DisplayType,
                          default: Value, constraint: Constraint, probe: string)
    requires ValidTable(cats) && WellTyped(kind, default, constraint)
    ensures var r := WithSetting(cats, category, key, displayName, description, kind, displayType, default, constraint);
      ValidTable(r) &&
      Lookup(r, probe) ==
        if AcceptsSetting(cats, category, key) && probe == key.value
        then Some(NewSetting(category.value, key.value, displayName, description, kind, displayType, default, constraint))
        else Lookup(cats, probe)
  {
    if AcceptsSetting(cats, category, key) {
      var k := CategoryIndex(cats, category.value);
      var s := NewSetting(category.value, key.value, displayName, description, kind, displayType, default, constraint);
      AppendKeepsValid(cats, k, s);
      var r := cats[k := cats[k].(settings := cats[k].settings + [s])];
      FindKeyOfMember(r, k, |cats[k].settings|);
      match FindKey(cats, probe)
      case None =>
        if probe != key.value {
          assert forall i, a :: 0 <= i < |r| && 0 <= a < |r[i].settings| ==> r[i].settings[a].key != probe by {
            forall i, a | 0 <= i < |r| && 0 <= a < |r[i].settings|
              ensures r[i].settings[a].key != probe
            {
              if i != k || a < |cats[k].settings| {
                assert r[i].settings[a] == cats[i].settings[a];
              }
            }
          }
        }
      case Some((i, a)) =>
        assert r[i].settings[a] == cats[i].settings[a];
        FindKeyOfMember(r, i, a);
    }
  }

  // ---- the store ---------------------------------------------------------------

  /** `SettingsManager`. The settings file name it keeps is used only by
      saving and loading, which this model does not cover. */
  class SettingsManager {
    var categories: seq<Category>

    ghost predicate Valid()
      reads this
    {
      ValidTable(categories)
    }

    /** `sm_settings_create`: no categories. */
    constructor ()
      ensures Valid() && categories == []
    {
      categories := [];
    }

    /** `sm_register_category`: refused without a name, with 20 categories,
        or when the name is taken; otherwise appends an empty category whose
        display name defaults to its name. */
    method RegisterCategory(category: Option<string>, displayName: Option<string>)
      requires Valid()
      modifies this
      ensures Valid()
      ensures categories == WithCategory(old(categories), category, displayName)
    {
      WithCategoryEffect(categories, category, displayName);
      if category.None? {
        return;
      }
      if |categories| >= MAX_CATEGORIES {
        return;
      }
      if CategoryIndex(categories, category.value) < |categories| {
        return;
      }
      categories := categories + [Category(category.value, displayName.GetOr(category.value), [])];
    }

    /** `register_setting` followed by the typed registration's filling of the
        value: refused without a category or key, for an unknown category, a
        key present in any category, or a full category; otherwise appends a
        setting holding its default and no callbacks to its category. */
    method RegisterSetting(category: Option<string>, key: Option<string>, displayName: Option<string>,
                           description: Option<string>, kind: SettingType, displayType: DisplayType,
                           default: Value, constraint: Constraint) returns (ok: bool)
      requires Valid() && WellTyped(kind, default, constraint)
      modifies this
      ensures Valid()
      ensures ok <==> AcceptsSetting(old(categories), category, key)
      ensures categories == WithSetting(old(categories), category, key, displayName, description, kind, displayType,
                                        default, constraint)
    {
      ok := false;
      WithSettingEffect(categories, category, key, displayName, description, kind, displayType, default, constraint, "");
      if category.None? || key.None? {
        return;
      }
      var k := CategoryIndex(categories, category.value);
      if k == |categories| {
        return;
      }
      if FindKey(categories, key.value).Some? {
        return;
      }
      if |categories[k].settings| >= MAX_SETTINGS_PER_CATEGORY {
        return;
      }
      var s := NewSetting(category.value, key.value, displayName, description, kind, displayType, default, constraint);
      categories := categories[k := categories[k].(settings := categories[k].settings + [s])];
      ok := true;
    }

    /** `sm_register_int_setting`. */
    method RegisterIntSetting(category: Option<string>, key: Option<string>, displayName: Option<string>,
                              description: Option<string>, default: int, min: int, max: int, step: int,
                              displayType: DisplayType)
      requires Valid()
      modifies this
      ensures Valid()
      ensures categories == WithSetting(old(categories), category, key, displayName, description, TypeInt, displayType,
                                        IntV(default), IntRange(min, max, step))
    {
      var _ := RegisterSetting(category, key, displayName, description, TypeInt, displayType, IntV(default),
                               IntRange(min, max, step));
    }

    /** `sm_register_float_setting`. */
    method RegisterFloatSetting(category: Option<string>, key: Option<string>, displayName: Option<string>,
                                description: Option<string>, default: real, min: real, max: real, step: real,
                                displayType: DisplayType)
      requires Valid()
      modifies this
      ensures Valid()
      ensures categories == WithSetting(old(categories), category, key, displayName, description, TypeFloat, displayType,
                                        FloatV(default), FloatRange(min, max, step))
    {
      var _ := RegisterSetting(category, key, displayName, description, TypeFloat, displayType, FloatV(default),
                               FloatRange(min, max, step));
    }

    /** `sm_register_bool_setting`: always shown as a checkbox. */
    method RegisterBoolSetting(category: Option<string>, key: Option<string>, displayName: Option<string>,
                               description: Option<string>, default: bool)
      requires Valid()
      modifies this
      ensures Valid()
      ensures categories == WithSetting(old(categories), category, key, displayName, description, TypeBool, Checkbox,
                                        BoolV(default), NoConstraint)
    {
      var _ := RegisterSetting(category, key, displayName, description, TypeBool, Checkbox, BoolV(default), NoConstraint);
    }

    /** `sm_register_string_setting`: always shown as a text input. */
    method RegisterStringSetting(category: Option<string>, key: Option<string>, displayName: Option<string>,
                                 description: Option<string>, default: string)
      requires Valid()
      modifies this
      ensures Valid()
      ensures categories == WithSetting(old(categories), category, key, displayName, description, TypeString, TextInput,
                                        StrV(default), NoConstraint)
    {
      var _ := RegisterSetting(category, key, displayName, description, TypeString, TextInput, StrV(default), NoConstraint);
    }

    /** `sm_register_enum_setting`: always a dropdown; the options are copied
        and the default is stored unchecked. */
    method RegisterEnumSetting(category: Option<string>, key: Option<string>, displayName: Option<string>,
                               description: Option<string>, default: int, options: seq<string>)
      requires Valid()
      modifies this
      ensures Valid()
      ensures categories == WithSetting(old(categories), category, key, displayName, description, TypeEnum, Dropdown,
                                        EnumV(default), EnumOptions(options))
    {
      var _ := RegisterSetting(category, key, displayName, description, TypeEnum, Dropdown, EnumV(default),
                               EnumOptions(options));
    }

    // ---- setters -----------------------------------------------------------

    /** Stores `v` in slot `a` of category `i` and fires the setting's
        callbacks, unless the slot already holds `v`. */
    method Store(i: nat, a: nat, v: Value) returns (calls: seq<Invocation>)
      requires Valid() && i < |categories| && a < |categories[i].settings|
      requires WellTyped(categories[i].settings[a].kind, v, categories[i].settings[a].constraint)
      modifies this
      ensures Valid()
      ensures var s := old(categories)[i].settings[a];
        if s.value == v then categories == old(categories) && calls == []
        else categories == Update(old(categories), i, a, s.(value := v)) && calls == Notify(s.key, s.callbacks)
    {
      var s := categories[i].settings[a];
      calls := [];
      if s.value != v {
        UpdateKeepsValid(categories, i, a, s.(value := v));
        categories := Update(categories, i, a, s.(value := v));
        calls := Notify(s.key, s.callbacks);
      }
    }

    /** `sm_set_int`: for an int setting, stores the clamped and stepped value
        and fires the callbacks if it changed; otherwise does nothing. */
    method SetInt(key: string, value: int) returns (calls: seq<Invocation>)
      requires Valid()
      modifies this
      ensures Valid()
      ensures (categories, calls) == Assign(old(categories), key, IntV(value))
    {
      calls := [];
      var pos := FindKey(categories, key);
      if pos.None? {
        return;
      }
      var (i, a) := pos.value;
      var s := categories[i].settings[a];
      if s.kind != TypeInt {
        return;
      }
      var v := Clamp(value, s.constraint.min, s.constraint.max);
      if s.constraint.step > 1 {
        v := CDiv(v - s.constraint.min, s.constraint.step) * s.constraint.step + s.constraint.min;
      }
      calls := Store(i, a, IntV(v));
    }

    /** `sm_set_float`, over reals. */
    method SetFloat(key: string, value: real) returns (calls: seq<Invocation>)
      requires Valid()
      modifies this
      ensures Valid()
      ensures (categories, calls) == Assign(old(categories), key, FloatV(value))
    {
      calls := [];
      var pos := FindKey(categories, key);
      if pos.None? {
        return;
      }
      var (i, a) := pos.value;
      var s := categories[i].settings[a];
      if s.kind != TypeFloat {
        return;
      }
      var c := s.constraint;
      var v := value;
      if v < c.fmin {
        v := c.fmin;
      } else if v > c.fmax {
        v := c.fmax;
      }
      if c.fstep > 0.0 {
        v := (Trunc((v - c.fmin) / c.fstep) as real) * c.fstep + c.fmin;
      }
      assert v == FloatWrite(c.fmin, c.fmax, c.fstep, value);
      calls := Store(i, a, FloatV(v));
    }

    /** `sm_set_bool`. */
    method SetBool(key: string, value: bool) returns (calls: seq<Invocation>)
      requires Valid()
      modifies this
      ensures Valid()
      ensures (categories, calls) == Assign(old(categories), key, BoolV(value))
    {
      calls := [];
      var pos := FindKey(categories, key);
      if pos.None? {
        return;
      }
      var (i, a) := pos.value;
      if categories[i].settings[a].kind != TypeBool {
        return;
      }
      calls := Store(i, a, BoolV(value));
    }

    /** `sm_set_string`: a NULL value stands for "". */
    method SetString(key: string, value: Option<string>) returns (calls: seq<Invocation>)
      requires Valid()
      modifies this
      ensures Valid()
      ensures (categories, calls) == Assign(old(categories), key, StrV(value.GetOr("")))
    {
      calls := [];
      var pos := FindKey(categories, key);
      if pos.None? {
        return;
      }
      var (i, a) := pos.value;
      if categories[i].settings[a].kind != TypeString {
        return;
      }
      calls := Store(i, a, StrV(value.GetOr("")));
    }

    /** `sm_set_enum`: a value outside [0, option count) is refused. */
    method SetEnum(key: string, value: int) returns (calls: seq<Invocation>)
      requires Valid()
      modifies this
      ensures Valid()
      ensures (categories, calls) == Assign(old(categories), key, EnumV(value))
    {
      calls := [];
      var pos := FindKey(categories, key);
      if pos.None? {
        return;
      }
      var (i, a) := pos.value;
      var s := categories[i].settings[a];
      if s.kind != TypeEnum {
        return;
      }
      if value < 0 || value >= |s.constraint.options| {
        return;
      }
      calls := Store(i, a, EnumV(value));
    }

    // ---- callbacks ---------------------------------------------------------

    /** `sm_register_callback`: refused without a key or callback, for an
        unknown key, or with 10 callbacks; otherwise fills the next slot. */
    method RegisterCallback(key: Option<string>, callback: Ptr, userdata: Ptr)
      requires Valid()
      modifies this
      ensures Valid()
      ensures categories ==
        if key.None? || callback == Null || FindKey(old(categories), key.value).None? then old(categories)
        else
          var (i, a) := FindKey(old(categories), key.value).value;
          var s := old(categories)[i].settings[a];
          if |s.callbacks| >= MAX_CALLBACKS_PER_SETTING then old(categories)
          else Update(old(categories), i, a, s.(callbacks := s.callbacks + [CallbackData(callback, userdata)]))
    {
      if key.None? || callback == Null {
        return;
      }
      var pos := FindKey(categories, key.value);
      if pos.None? {
        return;
      }
      var (i, a) := pos.value;
      var s := categories[i].settings[a];
      if |s.callbacks| >= MAX_CALLBACKS_PER_SETTING {
        return;
      }
      var s' := s.(callbacks := s.callbacks + [CallbackData(callback, userdata)]);
      UpdateKeepsValid(categories, i, a, s');
      categories := Update(categories, i, a, s');
    }

    /** `sm_unregister_callback`: removes the first slot holding `callback`
        by moving the last slot into it; no match, no key or no callback
        changes nothing. */
    method UnregisterCallback(key: Option<string>, callback: Ptr)
      requires Valid()
      modifies this
      ensures Valid()
      ensures categories ==
        if key.None? || callback == Null || FindKey(old(categories), key.value).None? then old(categories)
        else
          var (i, a) := FindKey(old(categories), key.value).value;
          var s := old(categories)[i].settings[a];
          var k := CallbackIndex(s.callbacks, callback);
          if k == |s.callbacks| then old(categories)
          else Update(old(categories), i, a, s.(callbacks := SwapRemove(s.callbacks, k)))
    {
      if key.None? || callback == Null {
        return;
      }
      var pos := FindKey(categories, key.value);
      if pos.None? {
        return;
      }
      var (i, a) := pos.value;
      var s := categories[i].settings[a];
      var j := 0;
      while j < |s.callbacks|
        invariant j <= |s.callbacks| && categories == old(categories)
        invariant forall p :: 0 <= p < j ==> s.callbacks[p].callback != callback
      {
        if s.callbacks[j].callback == callback {
          var n := |s.callbacks| - 1;
          var s' := s.(callbacks := s.callbacks[j := s.callbacks[n]][..n]);
          assert CallbackIndex(s.callbacks, callback) == j;
          assert s' == s.(callbacks := SwapRemove(s.callbacks, j));
          UpdateKeepsValid(categories, i, a, s');
          categories := Update(categories, i, a, s');
          return;
        }
        j := j + 1;
      }
      assert CallbackIndex(s.callbacks, callback) == |s.callbacks|;
    }

    // ---- reset -------------------------------------------------------------

    /** `sm_reset_setting`: writes the setting's default through the setter
        of its type; a missing key changes nothing. */
    method ResetSetting(key: string) returns (calls: seq<Invocation>)
      requires Valid()
      modifies this
      ensures Valid()
      ensures match FindKey(old(categories), key)
        case None => categories == old(categories) && calls == []
        case Some((i, a)) =>
          categories == Update(old(categories), i, a, Reset(old(categories)[i].settings[a])) &&
          calls == Fired(old(categories)[i].settings[a])
    {
      calls := [];
      var pos := FindKey(categories, key);
      if pos.None? {
        return;
      }
      var (i, a) := pos.value;
      var s := categories[i].settings[a];
      if Reset(s) == s {
        UpdateSame(categories, i, a);
      }
      match s.kind
      case TypeInt => calls := SetInt(key, s.default.i);
      case TypeFloat => calls := SetFloat(key, s.default.f);
      case TypeBool => calls := SetBool(key, s.default.b);
      case TypeString => calls := SetString(key, Some(s.default.s));
      case TypeEnum => calls := SetEnum(key, s.default.e);
    }

    /** The loop of `sm_reset_category` and the inner loop of
        `sm_reset_to_defaults`: resets the settings of category `k` in slot
        order, by key. */
    method ResetSlots(k: nat) returns (calls: seq<Invocation>)
      requires Valid() && k < |categories|
      modifies this
      ensures Valid()
      ensures categories == ResetCategoryIn(old(categories), k) && calls == ResetCalls(old(categories)[k].settings)
    {
      ghost var cats := categories;
      ghost var ss := categories[k].settings;
      calls := [];
      var j := 0;
      assert ResetAll(ss[..0]) + ss[0..] == ss;
      assert cats[k := cats[k].(settings := ss)] == cats;
      while j < |categories[k].settings|
        invariant Valid() && j <= |ss|
        invariant categories == cats[k := cats[k].(settings := ResetAll(ss[..j]) + ss[j..])]
        invariant calls == ResetCalls(ss[..j])
        invariant |categories[k].settings| == |ss|
        decreases |ss| - j
      {
        FindKeyOfMember(categories, k, j);
        ResetSlotStep(cats, k, ss, j);
        var m := ResetSetting(categories[k].settings[j].key);
        ResetCallsStep(ss, j);
        calls := calls + m;
        j := j + 1;
      }
      assert ss[..j] == ss && ss[j..] == [];
      assert ResetAll(ss[..j]) + ss[j..] == ResetAll(ss);
    }

    /** `sm_reset_category`: resets every setting of the named category in
        slot order; no name or an unknown one changes nothing. */
    method ResetCategory(category: Option<string>) returns (calls: seq<Invocation>)
      requires Valid()
      modifies this
      ensures Valid()
      ensures category.None? || CategoryIndex(old(categories), category.value) == |old(categories)| ==>
        categories == old(categories) && calls == []
      ensures category.Some? && CategoryIndex(old(categories), category.value) < |old(categories)| ==>
        var k := CategoryIndex(old(categories), category.value);
        categories == ResetCategoryIn(old(categories), k) && calls == ResetCalls(old(categories)[k].settings)
    {
      calls := [];
      if category.None? {
        return;
      }
      var k := CategoryIndex(categories, category.value);
      if k == |categories| {
        return;
      }
      calls := ResetSlots(k);
    }

    /** `sm_reset_to_defaults`: resets every setting, category by category,
        slot by slot. */
    method ResetToDefaults() returns (calls: seq<Invocation>)
      requires Valid()
      modifies this
      ensures Valid()
      ensures categories == ResetTable(old(categories)) && calls == AllResetCalls(old(categories))
    {
      calls := [];
      ghost var cats := categories;
      var i := 0;
      while i < |categories|
        invariant Valid() && |categories| == |cats| && i <= |cats|
        invariant forall j :: 0 <= j < |cats| ==>
          categories[j] == if j < i then cats[j].(settings := ResetAll(cats[j].settings)) else cats[j]
        invariant calls == AllResetCalls(cats[..i])
      {
        var more := ResetSlots(i);
        AllResetCallsStep(cats, i);
        calls := calls + more;
        i := i + 1;
      }
      assert categories == ResetTable(cats);
      assert cats[..i] == cats;
    }
  }
}
