/** The algorithmic parts of the dashboard's view model: the preset name
    field, the insertion of scanned sessions by start date, the preset
    reader and writer over the rule editor's properties, and the first
    placement of a module window. The properties, which the view model
    reaches by reflection, are an explicit list in declaration order. */
module Dashboard {
  import opened Wrappers
  import opened Strings

  // ---------------------------------------------------------------------
  // Sessions listed by start date

  /** A scanned session as the dashboard lists it. */
  datatype SessionModel = SessionModel(directory: string, startedAt: int)

  /** Latest first: no session starts after one listed before it. */
  predicate NonIncreasing(s: seq<SessionModel>) {
    forall i, j | 0 <= i < j < |s| :: s[i].startedAt >= s[j].startedAt
  }

  /** The index of the first session that started strictly before `t`. */
  function FirstEarlier(list: seq<SessionModel>, t: int): (r: Option<nat>)
    ensures r.Some? ==> r.value < |list| && list[r.value].startedAt < t
    ensures r.Some? ==> forall j | 0 <= j < r.value :: list[j].startedAt >= t
    ensures r.None? <==> forall j | 0 <= j < |list| :: list[j].startedAt >= t
  {
    if list == [] then None
    else if list[0].startedAt < t then Some(0)
    else match FirstEarlier(list[1..], t)
      case None => None
      case Some(k) => Some(k + 1)
  }

  /** `List.Insert(i, x)`. */
  function InsertAt(s: seq<SessionModel>, i: nat, x: SessionModel): (r: seq<SessionModel>)
    requires i <= |s|
    ensures |r| == |s| + 1 && r[i] == x
    ensures forall j | 0 <= j < i :: r[j] == s[j]
    ensures forall j | i < j < |r| :: r[j] == s[j - 1]
  {
    s[..i] + [x] + s[i..]
  }

  /** Whether the scan lists a new session: always into an empty list,
      otherwise only when some listed session started before it. */
  predicate ScanLists(list: seq<SessionModel>, m: SessionModel) {
    list == [] || FirstEarlier(list, m.startedAt).Some?
  }

  /** The session list after the scan meets one more session, as the scan
      does it: appended to an empty list, inserted before the first
      session that started earlier, and otherwise not listed at all. */
  function ScanInsert(list: seq<SessionModel>, m: SessionModel): seq<SessionModel> {
    if list == [] then [m]
    else match FirstEarlier(list, m.startedAt)
      case Some(i) => InsertAt(list, i, m)
      case None => list
  }

  /** The scan keeps the list latest first. */
  lemma ScanInsertKeepsOrder(list: seq<SessionModel>, m: SessionModel)
    requires NonIncreasing(list)
    ensures NonIncreasing(ScanInsert(list, m))
  {
    var r := ScanInsert(list, m);
    if list != [] && FirstEarlier(list, m.startedAt).Some? {
      var i := FirstEarlier(list, m.startedAt).value;
      forall a, b | 0 <= a < b < |r| ensures r[a].startedAt >= r[b].startedAt {
        if b < i {
        } else if b == i {
          assert r[a] == list[a];
        } else if a == i {
          assert r[b] == list[b - 1];
          assert list[i].startedAt < m.startedAt;
          assert i == b - 1 || list[i].startedAt >= list[b - 1].startedAt;
        } else if a < i {
          assert r[a] == list[a] && r[b] == list[b - 1];
        } else {
          assert r[a] == list[a - 1] && r[b] == list[b - 1];
        }
      }
    }
  }

  /** The scan loses nothing that was listed, and adds the new session
      exactly when it lists it. */
  lemma ScanInsertContents(list: seq<SessionModel>, m: SessionModel)
    ensures multiset(ScanInsert(list, m)) ==
            multiset(list) + (if ScanLists(list, m) then multiset{m} else multiset{})
  {
    if list != [] && FirstEarlier(list, m.startedAt).Some? {
      var i := FirstEarlier(list, m.startedAt).value;
      assert list == list[..i] + list[i..];
    }
  }

  /** A session that starts no later than every listed one is dropped: the
      scan below lists one session of time 5, and one of time 3 is met. */
  lemma OlderSessionDropped()
    ensures ScanInsert([SessionModel("b", 5)], SessionModel("a", 3)) == [SessionModel("b", 5)]
  {
    assert FirstEarlier([SessionModel("b", 5)], 3) == None;
  }

  /** The insertion the scan stands for: before the first session that
      started earlier, or at the end when there is none. */
  function InsertByDate(list: seq<SessionModel>, m: SessionModel): seq<SessionModel> {
    match FirstEarlier(list, m.startedAt)
    case Some(i) => InsertAt(list, i, m)
    case None => list + [m]
  }

  /** This insertion keeps the list latest first and adds exactly the new
      session, whatever its start time. */
  lemma InsertByDateSorted(list: seq<SessionModel>, m: SessionModel)
    requires NonIncreasing(list)
    ensures NonIncreasing(InsertByDate(list, m))
    ensures multiset(InsertByDate(list, m)) == multiset(list) + multiset{m}
  {
    var r := InsertByDate(list, m);
    match FirstEarlier(list, m.startedAt)
    case Some(i) =>
      ScanInsertKeepsOrder(list, m);
      ScanInsertContents(list, m);
    case None =>
      forall a, b | 0 <= a < b < |r| ensures r[a].startedAt >= r[b].startedAt {
        assert r[a] == list[a];
      }
  }

  /** Wherever the scan lists the session, it does what this insertion does. */
  lemma ScanInsertAgrees(list: seq<SessionModel>, m: SessionModel)
    ensures ScanLists(list, m) ==> ScanInsert(list, m) == InsertByDate(list, m)
    ensures !ScanLists(list, m) ==> ScanInsert(list, m) == list && InsertByDate(list, m) == list + [m]
  {
  }

  // ---------------------------------------------------------------------
  // Module windows

  /** The size of the primary screen's working area. */
  datatype WorkingArea = WorkingArea(width: int, height: int)

  /** Where and how large a module window is shown. */
  datatype Placement = Placement(x: int, y: int, width: int, height: int)

  /** The stored position and size of one module window. While `relative`
      holds, a negative coordinate counts from the right or bottom edge of
      the screen. */
  class ModuleConfig {
    var x: int
    var y: int
    var width: int
    var height: int
    var relative: bool

    constructor (x: int, y: int, width: int, height: int, relative: bool)
      ensures this.x == x && this.y == y && this.width == width && this.height == height
      ensures this.relative == relative
    {
      this.x, this.y, this.width, this.height := x, y, width, height;
      this.relative := relative;
    }
  }

  /** One coordinate made absolute: a non-negative one stays; a negative
      one past the whole screen becomes 0; any other negative one is the
      distance of the window's far edge from the screen's far edge. */
  function Absolute(coordinate: int, screen: int, size: int): (r: int)
    ensures coordinate >= 0 ==> r == coordinate
    ensures coordinate < 0 && coordinate < -screen ==> r == 0
    ensures -screen <= coordinate < 0 ==> screen - (r + size) == -coordinate
  {
    if coordinate >= 0 then coordinate
    else if coordinate < -screen then 0
    else coordinate + screen - size
  }

  /** A relative coordinate that fits the screen puts the window's far
      edge inside it, and one the screen can hold puts the whole window
      on the screen. */
  lemma AbsoluteOnScreen(coordinate: int, screen: int, size: int)
    requires -screen <= coordinate < 0
    requires 0 <= size <= screen + coordinate
    ensures 0 <= Absolute(coordinate, screen, size)
    ensures Absolute(coordinate, screen, size) + size < screen
  {
  }

  /** `OpenModule`'s positioning: a relative configuration is made
      absolute once, in place, and the window is placed where the
      configuration says. */
  method OpenModule(config: ModuleConfig, screen: WorkingArea) returns (placement: Placement)
    modifies config
    ensures !config.relative
    ensures old(config.relative) ==>
              && config.x == Absolute(old(config.x), screen.width, old(config.width))
              && config.y == Absolute(old(config.y), screen.height, old(config.height))
    ensures !old(config.relative) ==> config.x == old(config.x) && config.y == old(config.y)
    ensures config.width == old(config.width) && config.height == old(config.height)
    ensures placement == Placement(config.x, config.y, config.width, config.height)
  {
    if config.relative {
      if config.x < 0 {
        if config.x < -screen.width {
          config.x := 0;
        } else {
          config.x := config.x + (screen.width - config.width);
        }
      }
      if config.y < 0 {
        if config.y < -screen.height {
          config.y := 0;
        } else {
          config.y := config.y + (screen.height - config.height);
        }
      }
      config.relative := false;
    }
    placement := Placement(config.x, config.y, config.width, config.height);
  }

  // ---------------------------------------------------------------------
  // The rule editor's properties

  /** A property value as the preset reader and writer see it; `OtherValue`
      stands for any other object and carries its `ToString()` text. */
  datatype PropertyValue =
    | NullValue
    | BoolValue(b: bool)
    | IntValue(i: int)
    | TextValue(s: string)
    | DateValue(stamp: int)
    | OtherValue(text: string)

  /** One property of the rule editor, in declaration order: its name, the
      name of its type (`PropertyType.Name`, so "Nullable`1" for every
      nullable value type), whether a `DateTimeOffset` may be stored in it,
      the value a null assignment leaves (the type's default), and its
      value. */
  datatype Property = Property(name: string, typeName: string, acceptsDate: bool,
                               zero: PropertyValue, value: PropertyValue)

  /** `DateTimeOffset.ToString()` and `DateTimeOffset.TryParse`, which
      depend on the culture and are not modelled. */
  datatype DateCodec = DateCodec(format: int -> string, parse: string -> Option<int>)

  /** `value.ToString()`, and the empty text for null. */
  function ValueText(v: PropertyValue, dates: DateCodec): string {
    match v
    case NullValue => ""
    case BoolValue(b) => if b then "True" else "False"
    case IntValue(i) => IntToDecimal(i)
    case TextValue(s) => s
    case DateValue(d) => dates.format(d)
    case OtherValue(t) => t
  }

  /** A preset line. */
  function Line(name: string, text: string): string {
    name + "=" + text
  }

  /** The names of the properties, in order. */
  function Names(props: seq<Property>): (names: seq<string>)
    ensures |names| == |props| && forall k | 0 <= k < |props| :: names[k] == props[k].name
  {
    seq(|props|, k requires 0 <= k < |props| => props[k].name)
  }

  /** Two property lists that differ at most in their values. */
  predicate SameProperties(a: seq<Property>, b: seq<Property>) {
    |a| == |b| && forall k | 0 <= k < |a| :: a[k].(value := NullValue) == b[k].(value := NullValue)
  }

  predicate DistinctNames(props: seq<Property>) {
    forall a, b | 0 <= a < b < |props| :: props[a].name != props[b].name
  }

  predicate Increasing(s: seq<nat>) {
    forall a, b | 0 <= a < b < |s| :: s[a] < s[b]
  }

  // ---------------------------------------------------------------------
  // Preset reader

  /** Why loading a preset throws. */
  datatype LoadError =
    | PresetIndexOutOfRange    // `Presets[selectedIndex]`
    | ServiceProviderMissing   // the `UnreachableException`
    | PropertyIndexOutOfRange  // `propsInfos[i + skips]` past the last property
    | NoValueSeparator         // `Split('=')[1]` of a line without '='
    | BadBoolean               // `Convert.ToBoolean`
    | BadInteger               // `int.Parse`
    | WrongType                // `SetValue` of a date into a property of another type

  const Int32Min: int := -0x8000_0000
  const Int32Max: int := 0x7FFF_FFFF

  /** `Convert.ToBoolean(string)`: "True" or "False" in any letter case. */
  function ParseBool(text: string): Option<bool> {
    if Lower(text) == "true" then Some(true)
    else if Lower(text) == "false" then Some(false)
    else None
  }

  /** `int.Parse`: an optional sign and decimal digits, within 32 bits. */
  function ParseInt32(text: string): (r: Option<int>)
    ensures r.Some? ==> Int32Min <= r.value <= Int32Max
  {
    var n := if |text| > 1 && text[0] == '+' && AllDigits(text[1..]) then Some(DigitsValue(text[1..]) as int)
             else ParseInt(text);
    if n.Some? && Int32Min <= n.value <= Int32Max then n else None
  }

  /** The value a preset line's text gives property `p`: null for the empty
      text, then by type name a Boolean, a string or an Int32, and for any
      other type a date when the text parses as one; otherwise the value
      stays. */
  function Assign(p: Property, text: string, dates: DateCodec): Result<PropertyValue, LoadError> {
    if text == "" then Success(p.zero)
    else if p.typeName == "Boolean" then
      match ParseBool(text)
      case Some(b) => Success(BoolValue(b))
      case None => Failure(BadBoolean)
    else if p.typeName == "String" then Success(TextValue(text))
    else if p.typeName == "Int32" then
      match ParseInt32(text)
      case Some(n) => Success(IntValue(n))
      case None => Failure(BadInteger)
    else
      match dates.parse(text)
      case None => Success(p.value)
      case Some(d) => if p.acceptsDate then Success(DateValue(d)) else Failure(WrongType)
  }

  /** The properties after loading `lines[i..]`, with line `i` compared to
      property `i + skips`, and the exception that stops the load, if any.
      A line whose name is not the property's skips that property and is
      tried again on the next one. Assignments made before an exception
      stay. */
  function LoadFrom(props: seq<Property>, lines: seq<string>, i: nat, skips: nat, dates: DateCodec)
    : (r: (seq<Property>, Option<LoadError>))
    requires i <= |lines|
    ensures SameProperties(props, r.0)
    decreases |lines| - i, |props| - (i + skips)
  {
    if i == |lines| then (props, None)
    else if i + skips >= |props| then (props, Some(PropertyIndexOutOfRange))
    else
      var p := props[i + skips];
      var pieces := Split(lines[i], '=');
      if |pieces| < 2 then (props, Some(NoValueSeparator))
      else if pieces[0] != p.name then LoadFrom(props, lines, i, skips + 1, dates)
      else
        match Assign(p, pieces[1], dates)
        case Failure(e) => (props, Some(e))
        case Success(v) => LoadFrom(props[i + skips := p.(value := v)], lines, i + 1, skips, dates)
  }

  function Load(props: seq<Property>, lines: seq<string>, dates: DateCodec): (seq<Property>, Option<LoadError>) {
    LoadFrom(props, lines, 0, 0, dates)
  }

  // ---------------------------------------------------------------------
  // Preset writer

  /** Why saving a preset throws: the `(bool)` cast of a value that is not
      a Boolean. */
  datatype SaveError = NotABoolean

  /** The properties of the view model's base class, never saved. */
  const Ignored: seq<string> := ["Window", "Changing", "Changed", "ThrownExceptions"]

  const PrimaryTypePrefix: string := "IsPrimaryType"

  /** Properties the writer passes over before it looks at the flag: the
      ignored ones and the primary types that are not chosen. */
  predicate SkippedOutright(p: Property) {
    p.name in Ignored || (PrimaryTypePrefix <= p.name && p.value == BoolValue(false))
  }

  /** Whether the writer's cast of property `p` throws. */
  predicate CastFails(p: Property, forEnable: seq<string>) {
    && p.name !in Ignored
    && !p.value.BoolValue?
    && (PrimaryTypePrefix <= p.name || p.name in forEnable)
  }

  /** The writer's flag after `ps`: the value of the latest enabling
      property it looked at, or `x` when there is none. */
  function FlagAfter(ps: seq<Property>, forEnable: seq<string>, x: bool): bool {
    if ps == [] then x
    else
      var p := ps[|ps| - 1];
      if !SkippedOutright(p) && p.name in forEnable && p.value.BoolValue? then p.value.b
      else FlagAfter(ps[..|ps| - 1], forEnable, x)
  }

  /** Whether the writer saves property `k`: it is not passed over, and a
      property that is reset unless enabled is saved only while the latest
      enabling property, this one included, was true. */
  predicate Kept(props: seq<Property>, k: nat, forEnable: seq<string>, toReset: seq<string>)
    requires k < |props|
  {
    && !SkippedOutright(props[k])
    && (props[k].name in toReset ==> FlagAfter(props[..k + 1], forEnable, false))
  }

  /** The indices of the properties from `i` on that the writer saves, in
      order, given the flag `x` it carries into property `i`. */
  function SavedFrom(props: seq<Property>, i: nat, forEnable: seq<string>, toReset: seq<string>, x: bool)
    : (r: Result<seq<nat>, SaveError>)
    requires i <= |props|
    ensures r.Success? ==> Increasing(r.value)
    ensures r.Success? ==> forall j | 0 <= j < |r.value| :: i <= r.value[j] < |props|
    decreases |props| - i
  {
    if i == |props| then Success([])
    else
      var p := props[i];
      if p.name in Ignored then SavedFrom(props, i + 1, forEnable, toReset, x)
      else if PrimaryTypePrefix <= p.name && !p.value.BoolValue? then Failure(NotABoolean)
      else if PrimaryTypePrefix <= p.name && !p.value.b then SavedFrom(props, i + 1, forEnable, toReset, x)
      else if p.name in forEnable && !p.value.BoolValue? then Failure(NotABoolean)
      else
        var x' := if p.name in forEnable then p.value.b else x;
        if p.name in toReset && !x' then SavedFrom(props, i + 1, forEnable, toReset, x')
        else
          match SavedFrom(props, i + 1, forEnable, toReset, x')
          case Failure(e) => Failure(e)
          case Success(rest) => Success([i] + rest)
  }

  function Saved(props: seq<Property>, forEnable: seq<string>, toReset: seq<string>): Result<seq<nat>, SaveError> {
    SavedFrom(props, 0, forEnable, toReset, false)
  }

  /** The preset lines for the saved indices `idx`. */
  function Lines(props: seq<Property>, idx: seq<nat>, dates: DateCodec): (lines: seq<string>)
    requires forall j | 0 <= j < |idx| :: idx[j] < |props|
    ensures |lines| == |idx|
  {
    seq(|idx|, j requires 0 <= j < |idx| => Line(props[idx[j]].name, ValueText(props[idx[j]].value, dates)))
  }

  /** `idx` put in front of the indices a later part of the writer saves. */
  function Prepend(idx: seq<nat>, r: Result<seq<nat>, SaveError>): Result<seq<nat>, SaveError> {
    match r
    case Success(s) => Success(idx + s)
    case Failure(e) => Failure(e)
  }

  lemma PrependAssociates(idx: seq<nat>, k: nat, r: Result<seq<nat>, SaveError>)
    ensures Prepend([], r) == r
    ensures Prepend(idx, Prepend([k], r)) == Prepend(idx + [k], r)
  {
    match r
    case Failure(e) =>
    case Success(s) =>
      assert [] + s == s;
      assert idx + ([k] + s) == idx + [k] + s;
  }

  // ---------------------------------------------------------------------
  // What the writer saves and what the reader gets back

  /** The writer throws exactly when some property it reaches cannot be
      cast to a Boolean: a primary type, or an enabling property it does
      not pass over. */
  lemma {:induction false} SaveFailsExactly(props: seq<Property>, i: nat, forEnable: seq<string>, toReset: seq<string>, x: bool)
    requires i <= |props|
    ensures SavedFrom(props, i, forEnable, toReset, x).Failure? <==>
            exists k | i <= k < |props| :: CastFails(props[k], forEnable)
    decreases |props| - i
  {
    if i < |props| {
      var p := props[i];
      var x' := if !SkippedOutright(p) && p.name in forEnable && p.value.BoolValue? then p.value.b else x;
      SaveFailsExactly(props, i + 1, forEnable, toReset, x);
      SaveFailsExactly(props, i + 1, forEnable, toReset, x');
    }
  }

  /** When the writer carries the flag the properties before `i` leave,
      it saves exactly the properties from `i` on that `Kept` admits. */
  lemma {:induction false} SavedExactly(props: seq<Property>, i: nat, forEnable: seq<string>, toReset: seq<string>, x: bool)
    requires i <= |props|
    requires x == FlagAfter(props[..i], forEnable, false)
    ensures var r := SavedFrom(props, i, forEnable, toReset, x);
            r.Success? ==> forall k :: k in r.value <==> i <= k < |props| && Kept(props, k, forEnable, toReset)
    decreases |props| - i
  {
    if i < |props| {
      var p := props[i];
      assert props[..i + 1][..i] == props[..i];
      var x' := if !SkippedOutright(p) && p.name in forEnable && p.value.BoolValue? then p.value.b else x;
      assert x' == FlagAfter(props[..i + 1], forEnable, false);
      SavedExactly(props, i + 1, forEnable, toReset, x');
    }
  }

  /** A saved preset holds exactly the properties `Kept` admits, in order. */
  lemma SavedProperties(props: seq<Property>, forEnable: seq<string>, toReset: seq<string>)
    requires Saved(props, forEnable, toReset).Success?
    ensures var idx := Saved(props, forEnable, toReset).value;
            && Increasing(idx)
            && forall k: nat :: k in idx <==> k < |props| && Kept(props, k, forEnable, toReset)
  {
    assert props[..0] == [];
    SavedExactly(props, 0, forEnable, toReset, false);
  }

  /** A line whose name holds no '=' splits into the name and the pieces
      of the text. */
  lemma LinePieces(name: string, text: string)
    requires '=' !in name
    ensures Split(Line(name, text), '=') == [name] + Split(text, '=')
  {
    assert Line(name, text) == name + ['='] + text;
    SplitAfter(name, '=', text);
  }

  /** The reader keeps only the text up to a second '=': what follows it
      is lost. */
  lemma SecondSeparatorCuts(name: string, a: string, b: string)
    requires '=' !in name && '=' !in a
    ensures |Split(Line(name, a + "=" + b), '=')| > 1 && Split(Line(name, a + "=" + b), '=')[1] == a
  {
    LinePieces(name, a + "=" + b);
    assert a + "=" + b == a + ['='] + b;
    SplitAfter(a, '=', b);
  }

  /** Loading lines whose names follow the properties in order, with
      property `i + skips` not past the one line `i` belongs to, never runs
      past the last property and never meets a line without '='. */
  lemma {:induction false} LoadAligned(orig: seq<Property>, props: seq<Property>, idx: seq<nat>, i: nat, skips: nat, dates: DateCodec)
    requires forall j | 0 <= j < |idx| :: idx[j] < |orig|
    requires Increasing(idx)
    requires forall j | 0 <= j < |idx| :: '=' !in orig[idx[j]].name
    requires SameProperties(orig, props)
    requires i <= |idx|
    requires i < |idx| ==> i + skips <= idx[i]
    ensures var r := LoadFrom(props, Lines(orig, idx, dates), i, skips, dates).1;
            r != Some(PropertyIndexOutOfRange) && r != Some(NoValueSeparator)
    decreases |idx| - i, |props| - (i + skips)
  {
    if i < |idx| {
      var lines := Lines(orig, idx, dates);
      var name, text := orig[idx[i]].name, ValueText(orig[idx[i]].value, dates);
      var p := props[i + skips];
      assert props[idx[i]].name == name by {
        assert props[idx[i]].(value := NullValue) == orig[idx[i]].(value := NullValue);
      }
      LoadFromLine(props, lines, i, skips, dates, name, text);
      if name != p.name {
        LoadAligned(orig, props, idx, i, skips + 1, dates);
      } else {
        match Assign(p, Split(text, '=')[0], dates)
        case Failure(e) =>
        case Success(v) =>
          AssignKeepsProperties(orig, props, i + skips, v);
          assert i + 1 < |idx| ==> idx[i] < idx[i + 1];
          LoadAligned(orig, props[i + skips := p.(value := v)], idx, i + 1, skips, dates);
      }
    }
  }

  /** Assigning a value changes no property's name or type. */
  lemma AssignKeepsProperties(orig: seq<Property>, props: seq<Property>, k: nat, v: PropertyValue)
    requires SameProperties(orig, props) && k < |props|
    ensures SameProperties(orig, props[k := props[k].(value := v)])
  {
  }

  /** One turn of the reader over a line whose name holds no '=': the line
      is compared with property `i + skips` and either skips it or assigns
      the text up to the next '='. */
  lemma LoadFromLine(props: seq<Property>, lines: seq<string>, i: nat, skips: nat, dates: DateCodec,
                     name: string, text: string)
    requires i < |lines| && i + skips < |props|
    requires '=' !in name && lines[i] == Line(name, text)
    ensures LoadFrom(props, lines, i, skips, dates) ==
      if name != props[i + skips].name then LoadFrom(props, lines, i, skips + 1, dates)
      else match Assign(props[i + skips], Split(text, '=')[0], dates)
        case Failure(e) => (props, Some(e))
        case Success(v) => LoadFrom(props[i + skips := props[i + skips].(value := v)], lines, i + 1, skips, dates)
  {
    LinePieces(name, text);
  }

  /** A preset the writer saved never makes the reader run past the last
      property, loaded into any rule editor with the same properties. */
  lemma SavedPresetAligned(props: seq<Property>, forEnable: seq<string>, toReset: seq<string>,
                           other: seq<Property>, dates: DateCodec)
    requires Saved(props, forEnable, toReset).Success?
    requires forall k | 0 <= k < |props| :: '=' !in props[k].name
    requires SameProperties(props, other)
    ensures var r := Load(other, Lines(props, Saved(props, forEnable, toReset).value, dates), dates).1;
            r != Some(PropertyIndexOutOfRange) && r != Some(NoValueSeparator)
  {
    var idx := Saved(props, forEnable, toReset).value;
    LoadAligned(props, other, idx, 0, 0, dates);
  }

  /** A preset with more lines than there are properties always throws. */
  lemma {:induction false} TooManyLines(props: seq<Property>, lines: seq<string>, i: nat, skips: nat, dates: DateCodec)
    requires i < |lines|
    requires |lines| - i > |props| - (i + skips)
    ensures LoadFrom(props, lines, i, skips, dates).1.Some?
    decreases |lines| - i, |props| - (i + skips)
  {
    if i + skips < |props| {
      var p := props[i + skips];
      var pieces := Split(lines[i], '=');
      if |pieces| >= 2 {
        if pieces[0] != p.name {
          TooManyLines(props, lines, i, skips + 1, dates);
        } else {
          match Assign(p, pieces[1], dates)
          case Failure(e) =>
          case Success(v) =>
            TooManyLines(props[i + skips := p.(value := v)], lines, i + 1, skips, dates);
        }
      }
    }
  }

  /** Whether the reader leaves the editor's value as it is for this text:
      a type other than Boolean, String and Int32, and a text that is
      neither empty nor a date. */
  predicate ReaderKeepsValue(p: Property, text: string, dates: DateCodec) {
    && text != ""
    && p.typeName != "Boolean" && p.typeName != "String" && p.typeName != "Int32"
    && dates.parse(text).None?
  }

  /** A property whose value comes back from its saved text, whatever
      value the editor holds when the text is loaded. */
  predicate Restorable(p: Property, dates: DateCodec) {
    var text := ValueText(p.value, dates);
    && '=' !in text
    && !ReaderKeepsValue(p, text, dates)
    && Assign(p, text, dates) == Success(p.value)
  }

  /** A restorable value's text gives the value back to a property of the
      same shape, whatever it holds. */
  lemma RestoredAssign(p: Property, q: Property, dates: DateCodec)
    requires Restorable(p, dates) && q == p.(value := q.value)
    ensures Assign(q, ValueText(p.value, dates), dates) == Success(p.value)
  {
  }

  /** Restorable means exactly: loading the saved text gives the value
      back whatever value the editor holds. */
  lemma RestorableForAnyValue(p: Property, dates: DateCodec)
    ensures Restorable(p, dates) <==>
            && '=' !in ValueText(p.value, dates)
            && forall w :: Assign(p.(value := w), ValueText(p.value, dates), dates) == Success(p.value)
  {
    var text := ValueText(p.value, dates);
    if Restorable(p, dates) {
      forall w ensures Assign(p.(value := w), text, dates) == Success(p.value) {
        RestoredAssign(p, p.(value := w), dates);
      }
    }
    if '=' !in text && forall w :: Assign(p.(value := w), text, dates) == Success(p.value) {
      assert p.(value := p.value) == p;
      assert Assign(p.(value := p.value), text, dates) == Success(p.value);
    }
    if ReaderKeepsValue(p, text, dates) {
      assert p.value != NullValue;
      assert Assign(p.(value := NullValue), text, dates) == Success(NullValue);
    }
  }

  /** A value of a type other than Boolean, String and Int32 whose text is
      no date is not restorable: the reader leaves the editor's value. */
  lemma UnreadTextNotRestorable(p: Property, dates: DateCodec)
    requires p.typeName !in ["Boolean", "String", "Int32"]
    requires ValueText(p.value, dates) != "" && dates.parse(ValueText(p.value, dates)).None?
    ensures !Restorable(p, dates)
  {
  }

  /** Which values survive a save and a load: Booleans, 32-bit integers,
      strings that are neither empty nor hold '=', nulls of types whose
      default is null, and dates whose text reads back. */
  lemma RestorableValues(p: Property, dates: DateCodec)
    ensures p.typeName == "Boolean" && p.value.BoolValue? ==> Restorable(p, dates)
    ensures p.typeName == "Int32" && p.value.IntValue? && Int32Min <= p.value.i <= Int32Max ==> Restorable(p, dates)
    ensures p.typeName == "String" && p.value.TextValue? && p.value.s != "" && '=' !in p.value.s ==> Restorable(p, dates)
    ensures p.value == NullValue && p.zero == NullValue ==> Restorable(p, dates)
    ensures p.typeName !in ["Boolean", "String", "Int32"] && p.value.DateValue? && p.acceptsDate &&
            dates.format(p.value.stamp) != "" && '=' !in dates.format(p.value.stamp) &&
            dates.parse(dates.format(p.value.stamp)) == Some(p.value.stamp)
            ==> Restorable(p, dates)
  {
    if p.typeName == "Boolean" && p.value.BoolValue? {
      assert Lower("True") == "true";
      assert Lower("False") == "false";
    }
    if p.typeName == "Int32" && p.value.IntValue? && Int32Min <= p.value.i <= Int32Max {
      var t := IntToDecimal(p.value.i);
      IntToDecimalRoundTrip(p.value.i);
      IntToDecimalChars(p.value.i, '=');
      IntToDecimalChars(p.value.i, '+');
      assert t != "";
      assert t[0] != '+';
    }
  }

  /** An empty string comes back as the property's default, null for a
      string property. */
  lemma EmptyTextReloadsAsDefault(p: Property, dates: DateCodec)
    requires p.value == TextValue("") || p.value == NullValue
    ensures Assign(p, ValueText(p.value, dates), dates) == Success(p.zero)
  {
  }

  /** `into` with the values of `props` at the indices `idx`. */
  function Overlay(into: seq<Property>, props: seq<Property>, idx: seq<nat>): seq<Property>
    requires |into| == |props|
  {
    seq(|into|, k requires 0 <= k < |into| => if k in idx then into[k].(value := props[k].value) else into[k])
  }

  /** Taking the first index out of an overlay and storing its value first. */
  lemma OverlayStep(into: seq<Property>, props: seq<Property>, idx: seq<nat>, i: nat)
    requires |into| == |props| && i < |idx| && idx[i] < |props| && Increasing(idx)
    ensures Overlay(into[idx[i] := into[idx[i]].(value := props[idx[i]].value)], props, idx[i + 1..])
            == Overlay(into, props, idx[i..])
  {
    var m := idx[i];
    var stored := into[m := into[m].(value := props[m].value)];
    forall k | 0 <= k < |into| ensures k in idx[i..] <==> k == m || k in idx[i + 1..] {
      assert idx[i..] == [m] + idx[i + 1..];
    }
    assert m !in idx[i + 1..] by {
      forall j | i + 1 <= j < |idx| ensures idx[j] != m {
        assert idx[i] < idx[j];
      }
    }
  }

  /** Saved lines loaded into any properties of the same shape: with
      distinct names that hold no '=' and every saved value restorable,
      the saved indices get the saved values, the others keep theirs, and
      nothing throws. */
  lemma {:induction false} ReloadFrom(props: seq<Property>, other: seq<Property>, idx: seq<nat>,
                                      i: nat, skips: nat, dates: DateCodec)
    requires DistinctNames(props)
    requires SameProperties(props, other)
    requires forall j | 0 <= j < |idx| :: idx[j] < |props|
    requires Increasing(idx)
    requires forall j | 0 <= j < |idx| :: '=' !in props[idx[j]].name && Restorable(props[idx[j]], dates)
    requires i <= |idx|
    requires i < |idx| ==> i + skips <= idx[i]
    ensures LoadFrom(other, Lines(props, idx, dates), i, skips, dates) == (Overlay(other, props, idx[i..]), None)
    decreases |idx| - i, |props| - (i + skips)
  {
    if i < |idx| {
      var m := idx[i];
      if i + skips < m {
        ReloadSkip(props, other, idx, i, skips, dates);
        ReloadFrom(props, other, idx, i, skips + 1, dates);
      } else {
        ReloadStore(props, other, idx, i, skips, dates);
        ReloadFrom(props, other[m := other[m].(value := props[m].value)], idx, i + 1, skips, dates);
        OverlayStep(other, props, idx, i);
      }
    } else {
      OverlayNone(other, props, idx[i..]);
    }
  }

  /** A saved line meets a property before the one it was saved from: the
      property is skipped. */
  lemma ReloadSkip(props: seq<Property>, other: seq<Property>, idx: seq<nat>, i: nat, skips: nat, dates: DateCodec)
    requires DistinctNames(props) && SameProperties(props, other)
    requires forall j | 0 <= j < |idx| :: idx[j] < |props|
    requires i < |idx| && i + skips < idx[i] && '=' !in props[idx[i]].name
    ensures LoadFrom(other, Lines(props, idx, dates), i, skips, dates)
            == LoadFrom(other, Lines(props, idx, dates), i, skips + 1, dates)
  {
    var m := idx[i];
    var text := ValueText(props[m].value, dates);
    assert Lines(props, idx, dates)[i] == Line(props[m].name, text);
    SameShape(props, other, i + skips);
    LoadFromLine(other, Lines(props, idx, dates), i, skips, dates, props[m].name, text);
  }

  /** A saved line meets the property it was saved from: the saved value
      is stored and the next line is read. */
  lemma ReloadStore(props: seq<Property>, other: seq<Property>, idx: seq<nat>, i: nat, skips: nat, dates: DateCodec)
    requires SameProperties(props, other)
    requires forall j | 0 <= j < |idx| :: idx[j] < |props|
    requires i < |idx| && i + skips == idx[i] && '=' !in props[idx[i]].name && Restorable(props[idx[i]], dates)
    ensures var m := idx[i];
            && SameProperties(props, other[m := other[m].(value := props[m].value)])
            && LoadFrom(other, Lines(props, idx, dates), i, skips, dates)
               == LoadFrom(other[m := other[m].(value := props[m].value)], Lines(props, idx, dates), i + 1, skips, dates)
  {
    var m := idx[i];
    var text := ValueText(props[m].value, dates);
    assert Lines(props, idx, dates)[i] == Line(props[m].name, text);
    SplitWithout(text, '=');
    SameShape(props, other, m);
    LoadFromLine(other, Lines(props, idx, dates), i, skips, dates, props[m].name, text);
    RestoredAssign(props[m], other[m], dates);
    AssignKeepsProperties(props, other, m, props[m].value);
  }

  /** Properties of the same shape agree in everything but their value. */
  lemma SameShape(props: seq<Property>, other: seq<Property>, k: nat)
    requires SameProperties(props, other) && k < |props|
    ensures other[k].name == props[k].name
    ensures other[k] == props[k].(value := other[k].value)
  {
    assert other[k].(value := NullValue) == props[k].(value := NullValue);
  }

  lemma OverlayNone(into: seq<Property>, props: seq<Property>, idx: seq<nat>)
    requires |into| == |props| && idx == []
    ensures Overlay(into, props, idx) == into
  {
  }

  /** Saving a preset and loading it into any rule editor with the same
      properties sets every saved property to its saved value, leaves the
      others as they were, and throws nothing. */
  lemma SaveThenLoadInto(props: seq<Property>, forEnable: seq<string>, toReset: seq<string>,
                         other: seq<Property>, dates: DateCodec)
    requires Saved(props, forEnable, toReset).Success?
    requires DistinctNames(props)
    requires forall k | 0 <= k < |props| :: '=' !in props[k].name
    requires forall k | 0 <= k < |props| && Kept(props, k, forEnable, toReset) :: Restorable(props[k], dates)
    requires SameProperties(props, other)
    ensures var r := Load(other, Lines(props, Saved(props, forEnable, toReset).value, dates), dates);
            && r.1 == None
            && |r.0| == |other|
            && forall k | 0 <= k < |other| ::
                 r.0[k] == if Kept(props, k, forEnable, toReset) then other[k].(value := props[k].value) else other[k]
  {
    var idx := Saved(props, forEnable, toReset).value;
    SavedProperties(props, forEnable, toReset);
    forall j | 0 <= j < |idx| ensures Restorable(props[idx[j]], dates) {
      assert idx[j] in idx;
    }
    ReloadFrom(props, other, idx, 0, 0, dates);
    assert idx[0..] == idx;
  }

  /** Loaded back into the editor it came from, a saved preset leaves the
      editor as it was. */
  lemma SaveThenLoad(props: seq<Property>, forEnable: seq<string>, toReset: seq<string>, dates: DateCodec)
    requires Saved(props, forEnable, toReset).Success?
    requires DistinctNames(props)
    requires forall k | 0 <= k < |props| :: '=' !in props[k].name
    requires forall k | 0 <= k < |props| && Kept(props, k, forEnable, toReset) :: Restorable(props[k], dates)
    ensures Load(props, Lines(props, Saved(props, forEnable, toReset).value, dates), dates) == (props, None)
  {
    SaveThenLoadInto(props, forEnable, toReset, props, dates);
    var r := Load(props, Lines(props, Saved(props, forEnable, toReset).value, dates), dates);
    forall k | 0 <= k < |props| ensures r.0[k] == props[k] {
      assert props[k].(value := props[k].value) == props[k];
    }
    assert r.0 == props;
  }

  // ---------------------------------------------------------------------
  // The view model

  /** The list the scan keeps of the best sessions, which it builds beside
      the session list (insertions by the session list's index), or None
      when an insertion lies past its end and throws. */
  function BestAfterScan(list: seq<SessionModel>, best: seq<SessionModel>, m: SessionModel): Option<seq<SessionModel>> {
    if list == [] then Some(best + [m])
    else match FirstEarlier(list, m.startedAt)
      case None => Some(best)
      case Some(i) => if i <= |best| then Some(InsertAt(best, i, m)) else None
  }

  /** Built beside the session list from the same start, the best-session
      list stays equal to it and the scan never throws. */
  lemma BestFollowsSessions(list: seq<SessionModel>, m: SessionModel)
    ensures BestAfterScan(list, list, m) == Some(ScanInsert(list, m))
  {
    if list != [] {
      match FirstEarlier(list, m.startedAt)
      case None =>
      case Some(i) => assert i <= |list|;
    } else {
      assert list + [m] == [m];
    }
  }

  /** A saved preset: its folder name and its lines. */
  datatype Preset = Preset(folderName: string, fileContent: seq<string>)

  /** What the dashboard does outside itself, in order. */
  datatype DashboardEvent =
    | MessageBox(title: string)
    | DirectoryCreated(path: string)
    | LinesWritten(path: string, lines: seq<string>)

  predicate HasPreset(presets: seq<Preset>, name: string) {
    exists k | 0 <= k < |presets| :: presets[k].folderName == name
  }

  class DashboardWindowViewModel {
    var sessions: seq<SessionModel>
    var bestSessions: seq<SessionModel>
    var presets: seq<Preset>
    var presetName: Option<string>
    /** The rule editor's properties, in declaration order. */
    var rules: seq<Property>
    /** `PresetPropsForEnable`: the names of the enabling properties. */
    const propsForEnable: seq<string>
    /** `PresetPropsToReset`: the names of the properties saved only while enabled. */
    const propsToReset: seq<string>
    const presetsDirectoryPath: string
    /** The preset file's name inside its folder. */
    const presetFileName: string
    /** Whether a file system service is present (`fileSystem?.`). */
    const hasFileSystem: bool
    var events: seq<DashboardEvent>

    constructor (rules: seq<Property>, propsForEnable: seq<string>, propsToReset: seq<string>,
                 presetsDirectoryPath: string, presetFileName: string, hasFileSystem: bool)
      ensures sessions == [] && bestSessions == [] && presets == [] && presetName.None? && events == []
      ensures this.rules == rules && this.propsForEnable == propsForEnable && this.propsToReset == propsToReset
      ensures this.presetsDirectoryPath == presetsDirectoryPath && this.presetFileName == presetFileName
      ensures this.hasFileSystem == hasFileSystem
    {
      sessions, bestSessions, presets, presetName := [], [], [], None;
      this.rules := rules;
      this.propsForEnable, this.propsToReset := propsForEnable, propsToReset;
      this.presetsDirectoryPath, this.presetFileName := presetsDirectoryPath, presetFileName;
      this.hasFileSystem := hasFileSystem;
      events := [];
    }

    /** The `PresetName` setter: a blank name is stored as null, any other
        name as given. */
    method SetPresetName(value: Option<string>)
      modifies this
      ensures presetName.None? <==> IsNullOrWhiteSpace(value)
      ensures presetName.Some? ==> presetName == value
      ensures sessions == old(sessions) && bestSessions == old(bestSessions) && presets == old(presets)
      ensures rules == old(rules) && events == old(events)
    {
      presetName := if IsNullOrWhiteSpace(value) then None else value;
    }

    /** One scanned session put into the lists (the insert-by-date block of
        `ScanSessionsAsync`); `thrown` when the best-session list is too
        short for the index, after the session list has changed. */
    method InsertScannedSession(m: SessionModel) returns (thrown: bool)
      modifies this
      ensures sessions == ScanInsert(old(sessions), m)
      ensures thrown <==> BestAfterScan(old(sessions), old(bestSessions), m).None?
      ensures !thrown ==> bestSessions == BestAfterScan(old(sessions), old(bestSessions), m).value
      ensures thrown ==> bestSessions == old(bestSessions)
      ensures presets == old(presets) && presetName == old(presetName) && rules == old(rules) && events == old(events)
    {
      if |sessions| == 0 {
        sessions := sessions + [m];
        bestSessions := bestSessions + [m];
        return false;
      }
      var i := 0;
      while i < |sessions|
        invariant 0 <= i <= |sessions|
        invariant sessions == old(sessions) && bestSessions == old(bestSessions)
        invariant forall j | 0 <= j < i :: sessions[j].startedAt >= m.startedAt
      {
        if sessions[i].startedAt < m.startedAt {
          assert FirstEarlier(sessions, m.startedAt) == Some(i);
          sessions := InsertAt(sessions, i, m);
          if i > |bestSessions| {
            return true;
          }
          bestSessions := InsertAt(bestSessions, i, m);
          return false;
        }
        i := i + 1;
      }
      return false;
    }

    /** `PresetsDoubleClick`: loads the chosen preset's lines into the rule
        editor's properties, line by line, skipping a property whenever a
        line's name is not its name. */
    method PresetsDoubleClick(selectedIndex: int, hasServiceProvider: bool, dates: DateCodec)
      returns (thrown: Option<LoadError>)
      modifies this
      ensures selectedIndex < 0 ==> thrown.None? && rules == old(rules)
      ensures selectedIndex >= |presets| ==> thrown == Some(PresetIndexOutOfRange) && rules == old(rules)
      ensures 0 <= selectedIndex < |presets| && !hasServiceProvider ==>
                thrown == Some(ServiceProviderMissing) && rules == old(rules)
      ensures 0 <= selectedIndex < |presets| && hasServiceProvider ==>
                (rules, thrown) == Load(old(rules), presets[selectedIndex].fileContent, dates)
      ensures sessions == old(sessions) && bestSessions == old(bestSessions) && presets == old(presets)
      ensures presetName == old(presetName) && events == old(events)
    {
      if selectedIndex < 0 {
        return None;
      }
      if selectedIndex >= |presets| {
        return Some(PresetIndexOutOfRange);
      }
      if !hasServiceProvider {
        return Some(ServiceProviderMissing);
      }
      var presetRules := presets[selectedIndex].fileContent;
      var skips := 0;
      var i := 0;
      while i < |presetRules|
        invariant i <= |presetRules|
        invariant LoadFrom(rules, presetRules, i, skips, dates) == Load(old(rules), presetRules, dates)
        invariant sessions == old(sessions) && bestSessions == old(bestSessions) && presets == old(presets)
        invariant presetName == old(presetName) && events == old(events)
        decreases |presetRules| - i, |rules| - (i + skips)
      {
        if i + skips >= |rules| {
          return Some(PropertyIndexOutOfRange);
        }
        var propInfo := rules[i + skips];
        var pieces := Split(presetRules[i], '=');
        var ruleName := pieces[0];
        if |pieces| < 2 {
          return Some(NoValueSeparator);
        }
        var ruleValue := pieces[1];
        if ruleName != propInfo.name {
          skips := skips + 1;
          continue;
        }
        var value := propInfo.value;
        if ruleValue == "" {
          value := propInfo.zero;
        } else if propInfo.typeName == "Boolean" {
          var b := ParseBool(ruleValue);
          if b.None? {
            return Some(BadBoolean);
          }
          value := BoolValue(b.value);
        } else if propInfo.typeName == "String" {
          value := TextValue(ruleValue);
        } else if propInfo.typeName == "Int32" {
          var n := ParseInt32(ruleValue);
          if n.None? {
            return Some(BadInteger);
          }
          value := IntValue(n.value);
        } else {
          var parsingResult := dates.parse(ruleValue);
          if parsingResult.Some? {
            if !propInfo.acceptsDate {
              return Some(WrongType);
            }
            value := DateValue(parsingResult.value);
          }
        }
        rules := rules[i + skips := propInfo.(value := value)];
        i := i + 1;
      }
      return None;
    }

    /** `SavePresetClick`: writes the rule editor's properties, filtered,
        as the lines of a preset named after `PresetName`, lists the preset
        unless a preset of that name is listed, and clears the name. A null
        name only shows an error. */
    method SavePresetClick(combine: (string, string) -> string, dates: DateCodec)
      returns (thrown: Option<SaveError>)
      modifies this
      ensures old(presetName).None? ==>
                && thrown.None? && events == old(events) + [MessageBox("Error")]
                && presets == old(presets) && presetName == old(presetName)
      ensures old(presetName).Some? ==>
                var name := old(presetName).value;
                var dir := combine(presetsDirectoryPath, name);
                var created := old(events) + (if hasFileSystem then [DirectoryCreated(dir)] else []);
                var saved := Saved(rules, propsForEnable, propsToReset);
                && (saved.Failure? ==>
                      thrown == Some(saved.error) && events == created
                      && presets == old(presets) && presetName == old(presetName))
                && (saved.Success? ==>
                      var lines := Lines(rules, saved.value, dates);
                      && thrown.None?
                      && events == created + [LinesWritten(combine(dir, presetFileName), lines)]
                      && presets == (if HasPreset(old(presets), name) then old(presets)
                                     else old(presets) + [Preset(name, lines)])
                      && presetName.None?)
      ensures sessions == old(sessions) && bestSessions == old(bestSessions) && rules == old(rules)
    {
      if presetName.None? {
        events := events + [MessageBox("Error")];
        return None;
      }
      var name := presetName.value;
      var presetsDirectory := combine(presetsDirectoryPath, name);
      if hasFileSystem {
        events := events + [DirectoryCreated(presetsDirectory)];
      }
      var rulesData := SavedLines(dates);
      if rulesData.Failure? {
        return Some(rulesData.error);
      }
      events := events + [LinesWritten(combine(presetsDirectory, presetFileName), rulesData.value)];
      if forall k | 0 <= k < |presets| :: presets[k].folderName != name {
        presets := presets + [Preset(name, rulesData.value)];
      }
      SetPresetName(None);
      thrown := None;
    }

    /** The loop of `SavePresetClick` that builds the preset's lines, with
        the flag `x` of the latest enabling property. */
    method SavedLines(dates: DateCodec) returns (lines: Result<seq<string>, SaveError>)
      ensures Saved(rules, propsForEnable, propsToReset).Failure? ==>
                lines == Failure(Saved(rules, propsForEnable, propsToReset).error)
      ensures Saved(rules, propsForEnable, propsToReset).Success? ==>
                lines == Success(Lines(rules, Saved(rules, propsForEnable, propsToReset).value, dates))
    {
      var rulesData: seq<string> := [];
      ghost var idx: seq<nat> := [];
      var x := false;
      PrependAssociates([], 0, Saved(rules, propsForEnable, propsToReset));
      for k := 0 to |rules|
        invariant forall j | 0 <= j < |idx| :: idx[j] < k
        invariant Saved(rules, propsForEnable, propsToReset) == Prepend(idx, SavedFrom(rules, k, propsForEnable, propsToReset, x))
        invariant rulesData == Lines(rules, idx, dates)
      {
        var propInfo := rules[k];
        if propInfo.name in Ignored {
          continue;
        }
        if PrimaryTypePrefix <= propInfo.name {
          if !propInfo.value.BoolValue? {
            return Failure(NotABoolean);
          }
          if !propInfo.value.b {
            continue;
          }
        }
        if propInfo.name in propsForEnable {
          if !propInfo.value.BoolValue? {
            return Failure(NotABoolean);
          }
          x := propInfo.value.b;
        }
        if propInfo.name in propsToReset && !x {
          continue;
        }
        PrependAssociates(idx, k, SavedFrom(rules, k + 1, propsForEnable, propsToReset, x));
        assert Lines(rules, idx + [k], dates) == Lines(rules, idx, dates) + [Line(propInfo.name, ValueText(propInfo.value, dates))];
        rulesData := rulesData + [Line(propInfo.name, ValueText(propInfo.value, dates))];
        idx := idx + [k];
      }
      assert idx + [] == idx;
      return Success(rulesData);
    }
  }
}
