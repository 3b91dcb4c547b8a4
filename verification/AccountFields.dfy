/** The columns of an account, the defaults a create builder fills in and the checks it makes. */
module AccountFields {
  import opened Collections

  /** The columns of the accounts table, and columns a query adds under other names. */
  datatype Column =
    | Id | CreatedAt | UpdatedAt | DeletedAt | Name | Notes | Platform | Type | Credentials | Extra
    | ProxyId | ProxyFallbackOriginId | Concurrency | LoadFactor | Priority | RateMultiplier | Status
    | ErrorMessage | LastUsedAt | ExpiresAt | AutoPauseOnExpired | Schedulable | RateLimitedAt
    | RateLimitResetAt | OverloadUntil | TempUnschedulableUntil | TempUnschedulableReason
    | SessionWindowStart | SessionWindowEnd | SessionWindowStatus | ParentAccountId | QuotaDimension
    | Other(name: string)

  /** A JSON document that is null or an object. */
  datatype Json = NullJson | Object(members: map<string, string>)

  datatype Value =
    | Time(at: int) | Str(s: string) | Integer(n: int) | Float(f: real) | Boolean(b: bool) | Document(j: Json)

  type Values = map<Column, Value>

  /** The table's columns in the order of the schema. */
  const COLUMNS: seq<Column> :=
    [Id, CreatedAt, UpdatedAt, DeletedAt, Name, Notes, Platform, Type] +
    [Credentials, Extra, ProxyId, ProxyFallbackOriginId, Concurrency, LoadFactor, Priority, RateMultiplier] +
    [Status, ErrorMessage, LastUsedAt, ExpiresAt, AutoPauseOnExpired, Schedulable, RateLimitedAt, RateLimitResetAt] +
    [OverloadUntil, TempUnschedulableUntil, TempUnschedulableReason, SessionWindowStart, SessionWindowEnd,
     SessionWindowStatus, ParentAccountId, QuotaDimension]

  /** The position of a column in the table. */
  function Slot(c: Column): nat {
    match c
    case Id => 0 case CreatedAt => 1 case UpdatedAt => 2 case DeletedAt => 3 case Name => 4 case Notes => 5
    case Platform => 6 case Type => 7 case Credentials => 8 case Extra => 9 case ProxyId => 10
    case ProxyFallbackOriginId => 11 case Concurrency => 12 case LoadFactor => 13 case Priority => 14
    case RateMultiplier => 15 case Status => 16 case ErrorMessage => 17 case LastUsedAt => 18 case ExpiresAt => 19
    case AutoPauseOnExpired => 20 case Schedulable => 21 case RateLimitedAt => 22 case RateLimitResetAt => 23
    case OverloadUntil => 24 case TempUnschedulableUntil => 25 case TempUnschedulableReason => 26
    case SessionWindowStart => 27 case SessionWindowEnd => 28 case SessionWindowStatus => 29
    case ParentAccountId => 30 case QuotaDimension => 31 case Other(_) => 32
  }

  lemma FirstColumns()
    ensures |COLUMNS| == 32
    ensures COLUMNS[0] == Id && COLUMNS[1] == CreatedAt && COLUMNS[2] == UpdatedAt && COLUMNS[3] == DeletedAt
    ensures COLUMNS[4] == Name && COLUMNS[5] == Notes && COLUMNS[6] == Platform && COLUMNS[7] == Type
  {
  }

  lemma SecondColumns()
    ensures |COLUMNS| == 32
    ensures COLUMNS[8] == Credentials && COLUMNS[9] == Extra && COLUMNS[10] == ProxyId
    ensures COLUMNS[11] == ProxyFallbackOriginId
    ensures COLUMNS[12] == Concurrency && COLUMNS[13] == LoadFactor && COLUMNS[14] == Priority
    ensures COLUMNS[15] == RateMultiplier
  {
  }

  lemma ThirdColumns()
    ensures |COLUMNS| == 32
    ensures COLUMNS[16] == Status && COLUMNS[17] == ErrorMessage && COLUMNS[18] == LastUsedAt
    ensures COLUMNS[19] == ExpiresAt
    ensures COLUMNS[20] == AutoPauseOnExpired && COLUMNS[21] == Schedulable && COLUMNS[22] == RateLimitedAt
    ensures COLUMNS[23] == RateLimitResetAt
  {
  }

  lemma FourthColumns()
    ensures |COLUMNS| == 32
    ensures COLUMNS[24] == OverloadUntil && COLUMNS[25] == TempUnschedulableUntil
    ensures COLUMNS[26] == TempUnschedulableReason && COLUMNS[27] == SessionWindowStart
    ensures COLUMNS[28] == SessionWindowEnd && COLUMNS[29] == SessionWindowStatus
    ensures COLUMNS[30] == ParentAccountId && COLUMNS[31] == QuotaDimension
  {
  }

  lemma Columns32()
    ensures |COLUMNS| == 32
  {
  }

  lemma SlotOfColumn(c: Column)
    requires !c.Other?
    ensures Slot(c) < |COLUMNS| && COLUMNS[Slot(c)] == c
  {
    hide COLUMNS;
    if Slot(c) < 8 {
      FirstColumns();
    } else if Slot(c) < 16 {
      SecondColumns();
    } else if Slot(c) < 24 {
      ThirdColumns();
    } else {
      FourthColumns();
    }
  }

  lemma FirstSlots(k: nat)
    requires k < 8
    ensures |COLUMNS| == 32 && Slot(COLUMNS[k]) == k && !COLUMNS[k].Other?
  {
    FirstColumns();
    hide COLUMNS;
  }

  lemma SecondSlots(k: nat)
    requires 8 <= k < 16
    ensures |COLUMNS| == 32 && Slot(COLUMNS[k]) == k && !COLUMNS[k].Other?
  {
    SecondColumns();
    hide COLUMNS;
  }

  lemma ThirdSlots(k: nat)
    requires 16 <= k < 24
    ensures |COLUMNS| == 32 && Slot(COLUMNS[k]) == k && !COLUMNS[k].Other?
  {
    ThirdColumns();
    hide COLUMNS;
  }

  lemma FourthSlots(k: nat)
    requires 24 <= k < 32
    ensures |COLUMNS| == 32 && Slot(COLUMNS[k]) == k && !COLUMNS[k].Other?
  {
    FourthColumns();
    hide COLUMNS;
  }

  lemma ColumnOfSlot(k: nat)
    requires k < |COLUMNS|
    ensures Slot(COLUMNS[k]) == k && !COLUMNS[k].Other?
  {
    hide *;
    Columns32();
    if k < 8 {
      FirstSlots(k);
    } else if k < 16 {
      SecondSlots(k);
    } else if k < 24 {
      ThirdSlots(k);
    } else {
      FourthSlots(k);
    }
  }

  lemma TableColumns(c: Column)
    ensures c in COLUMNS <==> !c.Other?
  {
    hide *;
    if c in COLUMNS {
      var k :| 0 <= k < |COLUMNS| && COLUMNS[k] == c;
      ColumnOfSlot(k);
    }
    if !c.Other? { SlotOfColumn(c); }
  }

  /** The columns that default() fills when they are unset, in its order. */
  const DEFAULTED: seq<Column> := [
    CreatedAt, UpdatedAt, Credentials, Extra, Concurrency, Priority, RateMultiplier, Status, AutoPauseOnExpired,
    Schedulable, QuotaDimension]

  /** What the runtime package registers when it is imported: the four default functions, here by what they
      answer, and the plain defaults. When it is not, the functions are nil and the plain defaults are zero. */
  datatype Runtime = Imported(createdAt: int, updatedAt: int, credentials: Json, extra: Json) | NotImported

  /** The default of a column; None when its function is not registered. */
  function DefaultOf(rt: Runtime, c: Column): Option<Value> {
    match c
    case CreatedAt => if rt.Imported? then Some(Time(rt.createdAt)) else None
    case UpdatedAt => if rt.Imported? then Some(Time(rt.updatedAt)) else None
    case Credentials => if rt.Imported? then Some(Document(rt.credentials)) else None
    case Extra => if rt.Imported? then Some(Document(rt.extra)) else None
    case Concurrency => Some(Integer(if rt.Imported? then 3 else 0))
    case Priority => Some(Integer(if rt.Imported? then 50 else 0))
    case RateMultiplier => Some(Float(if rt.Imported? then 1.0 else 0.0))
    case Status => Some(Str(if rt.Imported? then "active" else ""))
    case AutoPauseOnExpired => Some(Boolean(rt.Imported?))
    case Schedulable => Some(Boolean(rt.Imported?))
    case QuotaDimension => Some(Str("global"))
    case _ => None
  }

  /** The first unset column whose default is not registered: defaults() fails there. */
  function Unregistered(rt: Runtime, v: Values, columns: seq<Column>): (c: Option<Column>)
    ensures c.Some? ==> c.value in columns && c.value !in v && DefaultOf(rt, c.value).None?
    ensures c.None? ==> forall d :: d in columns ==> d in v || DefaultOf(rt, d).Some?
  {
    if columns == [] then None
    else if columns[0] !in v && DefaultOf(rt, columns[0]).None? then Some(columns[0])
    else Unregistered(rt, v, columns[1..])
  }

  datatype Fault = Missing(c: Column) | Invalid(c: Column)

  /** The columns check() looks at, in its order; all but the session window status are required. */
  const CHECKED: seq<Column> := [
    CreatedAt, UpdatedAt, Name, Platform, Type, Credentials, Extra, Concurrency, Priority, RateMultiplier, Status,
    AutoPauseOnExpired, Schedulable, SessionWindowStatus, QuotaDimension]

  predicate Required(c: Column) {
    c in CHECKED && c != SessionWindowStatus
  }

  /** All columns are required but the id and those that may be NULL. */
  lemma RequiredColumns(c: Column)
    ensures Required(c) <==>
      match c
      case CreatedAt | UpdatedAt | Name | Platform | Type | Credentials | Extra | Concurrency | Priority => true
      case RateMultiplier | Status | AutoPauseOnExpired | Schedulable | QuotaDimension => true
      case _ => false
  {
  }

  /** The validators of the schema; lengths count bytes. */
  predicate Accepts(c: Column, v: Value) {
    match c
    case Name => v.Str? && 0 < |v.s| <= 100
    case Platform => v.Str? && 0 < |v.s| <= 50
    case Type => v.Str? && 0 < |v.s| <= 20
    case Status => v.Str? && |v.s| <= 20
    case SessionWindowStatus => v.Str? && |v.s| <= 20
    case QuotaDimension => v == Str("global") || v == Str("spark")
    case _ => true
  }

  /** What check() says about one column. */
  function FaultAt(v: Values, c: Column): Option<Fault> {
    if c !in v then if c == SessionWindowStatus then None else Some(Missing(c))
    else if Accepts(c, v[c]) then None
    else Some(Invalid(c))
  }

  /** The first fault among the given columns. */
  function FirstFault(v: Values, columns: seq<Column>): (f: Option<Fault>)
    ensures f.None? <==> forall c :: c in columns ==> FaultAt(v, c).None?
    ensures f.Some? ==> f.value.c in columns && FaultAt(v, f.value.c) == f
  {
    if columns == [] then None
    else if FaultAt(v, columns[0]).Some? then FaultAt(v, columns[0])
    else FirstFault(v, columns[1..])
  }

  function Check(v: Values): Option<Fault> {
    FirstFault(v, CHECKED)
  }

  /** The values once defaults() has run: unset columns are filled up to the first whose default is not
      registered. */
  function WithDefaults(rt: Runtime, v: Values, columns: seq<Column>): (w: Values)
    ensures forall c :: c in v ==> c in w && w[c] == v[c]
    ensures forall c :: c in w && c !in v ==> c in columns && Some(w[c]) == DefaultOf(rt, c)
    ensures Unregistered(rt, v, columns).None? ==> forall c :: c in columns ==> c in w
    ensures Unregistered(rt, v, columns).Some? ==> Unregistered(rt, v, columns).value !in w
    decreases columns
  {
    if columns == [] then v
    else if columns[0] in v then WithDefaults(rt, v, columns[1..])
    else
      match DefaultOf(rt, columns[0])
      case None => v
      case Some(d) =>
        UnregisteredAfter(rt, v, columns[0], d, columns[1..]);
        WithDefaults(rt, v[columns[0] := d], columns[1..])
  }

  lemma {:induction false} UnregisteredAfter(rt: Runtime, v: Values, c: Column, d: Value, columns: seq<Column>)
    requires DefaultOf(rt, c) == Some(d)
    ensures Unregistered(rt, v[c := d], columns) == Unregistered(rt, v, columns)
  {
    if columns != [] { UnregisteredAfter(rt, v, c, d, columns[1..]); }
  }

  /** Once defaults() has succeeded, only the name, the platform and the type can be missing. */
  lemma OnlyThreeCanBeMissing(rt: Runtime, v: Values, c: Column)
    requires Unregistered(rt, v, DEFAULTED).None?
    requires Check(WithDefaults(rt, v, DEFAULTED)) == Some(Missing(c))
    ensures c in {Name, Platform, Type} && c !in v
  {
    var w := WithDefaults(rt, v, DEFAULTED);
    hide DEFAULTED, CHECKED, WithDefaults, DefaultOf, Unregistered, Accepts, FirstFault;
    assert c in CHECKED && FaultAt(w, c) == Some(Missing(c));
    assert c !in w && c !in DEFAULTED;
    CheckedOrDefaulted(c);
  }

  lemma CheckedOrDefaulted(c: Column)
    requires c in CHECKED && c !in DEFAULTED && c != SessionWindowStatus
    ensures c in {Name, Platform, Type}
  {
  }

  /** Throwing away the error of defaults() lets nothing through: the check that follows fails. */
  lemma DiscardedErrorIsCaught(rt: Runtime, v: Values)
    requires Unregistered(rt, v, DEFAULTED).Some?
    ensures Check(WithDefaults(rt, v, DEFAULTED)).Some?
  {
    var c := Unregistered(rt, v, DEFAULTED).value;
    DefaultedIsRequired(c);
    assert FaultAt(WithDefaults(rt, v, DEFAULTED), c) == Some(Missing(c));
  }

  lemma DefaultedIsRequired(c: Column)
    requires c in DEFAULTED
    ensures Required(c)
  {
  }

  /** The values that pass the check: every required column is set and every validator accepts. */
  lemma CheckPassesIff(v: Values)
    ensures Check(v).None? <==>
      && (forall c :: Required(c) ==> c in v)
      && (forall c :: c in CHECKED && c in v ==> Accepts(c, v[c]))
  {
  }

  // ---------------------------------------------------------------- what defaults and check come to

  /** A value with nothing but defaults added: what was set is kept, and the eleven columns that have a default hold it
      where nothing was set. */
  ghost predicate FilledIn(rt: Runtime, v: Values, w: Values)
    requires rt.Imported?
  {
    && (forall c :: c in v ==> c in w && w[c] == v[c])
    && (forall c :: c in w && c !in v ==> c in DEFAULTED)
    && Holds(v, w, CreatedAt, Time(rt.createdAt)) && Holds(v, w, UpdatedAt, Time(rt.updatedAt))
    && Holds(v, w, Credentials, Document(rt.credentials)) && Holds(v, w, Extra, Document(rt.extra))
    && Holds(v, w, Concurrency, Integer(3)) && Holds(v, w, Priority, Integer(50))
    && Holds(v, w, RateMultiplier, Float(1.0)) && Holds(v, w, Status, Str("active"))
    && Holds(v, w, AutoPauseOnExpired, Boolean(true)) && Holds(v, w, Schedulable, Boolean(true))
    && Holds(v, w, QuotaDimension, Str("global"))
  }

  ghost predicate Holds(v: Values, w: Values, c: Column, x: Value) {
    c in w && (c in v || w[c] == x)
  }

  /** A mutation that a save with the runtime imported accepts: name, platform and type are set, and the validators
      accept what is set. */
  ghost predicate Acceptable(v: Values) {
    Name in v && Platform in v && Type in v && forall c :: c in v ==> Accepts(c, v[c])
  }

  lemma {:induction false} NoneUnregistered(rt: Runtime, v: Values, columns: seq<Column>)
    requires forall c :: c in columns ==> DefaultOf(rt, c).Some?
    ensures Unregistered(rt, v, columns).None?
  {
    if columns != [] {
      assert columns[0] in columns;
      NoneUnregistered(rt, v, columns[1..]);
    }
  }

  lemma DefaultsAreRegistered(rt: Runtime, c: Column)
    requires rt.Imported? && c in DEFAULTED
    ensures DefaultOf(rt, c).Some? && Accepts(c, DefaultOf(rt, c).value)
  {
  }

  lemma DefaultsListed()
    ensures forall c :: c in [CreatedAt, UpdatedAt, Credentials, Extra, Concurrency, Priority] ==> c in DEFAULTED
    ensures forall c :: c in [RateMultiplier, Status, AutoPauseOnExpired, Schedulable, QuotaDimension] ==>
        c in DEFAULTED
  {
  }

  lemma FilledWith(rt: Runtime, v: Values, c: Column)
    requires rt.Imported? && c in DEFAULTED
    ensures
      var w := WithDefaults(rt, v, DEFAULTED);
      DefaultOf(rt, c).Some? && Holds(v, w, c, DefaultOf(rt, c).value)
  {
    forall d | d in DEFAULTED
      ensures DefaultOf(rt, d).Some?
    {
      DefaultsAreRegistered(rt, d);
    }
    hide DEFAULTED, DefaultOf, WithDefaults;
    NoneUnregistered(rt, v, DEFAULTED);
  }

  lemma DefaultIs(rt: Runtime, v: Values, c: Column, x: Value)
    requires rt.Imported? && c in DEFAULTED && DefaultOf(rt, c) == Some(x)
    ensures Holds(v, WithDefaults(rt, v, DEFAULTED), c, x)
  {
    hide *;
    FilledWith(rt, v, c);
  }

  lemma NothingElse(rt: Runtime, v: Values)
    ensures
      var w := WithDefaults(rt, v, DEFAULTED);
      && (forall c :: c in v ==> c in w && w[c] == v[c])
      && (forall c :: c in w && c !in v ==> c in DEFAULTED)
  {
    hide DEFAULTED;
  }

  lemma FunctionsFillIn(rt: Runtime, v: Values)
    requires rt.Imported?
    ensures
      var w := WithDefaults(rt, v, DEFAULTED);
      && Holds(v, w, CreatedAt, Time(rt.createdAt)) && Holds(v, w, UpdatedAt, Time(rt.updatedAt))
      && Holds(v, w, Credentials, Document(rt.credentials)) && Holds(v, w, Extra, Document(rt.extra))
  {
    DefaultsListed();
    FunctionDefaults(rt);
    hide *;
    DefaultIs(rt, v, CreatedAt, Time(rt.createdAt));
    DefaultIs(rt, v, UpdatedAt, Time(rt.updatedAt));
    DefaultIs(rt, v, Credentials, Document(rt.credentials));
    DefaultIs(rt, v, Extra, Document(rt.extra));
  }

  lemma FunctionDefaults(rt: Runtime)
    requires rt.Imported?
    ensures DefaultOf(rt, CreatedAt) == Some(Time(rt.createdAt)) && DefaultOf(rt, UpdatedAt) == Some(Time(rt.updatedAt))
    ensures DefaultOf(rt, Credentials) == Some(Document(rt.credentials))
    ensures DefaultOf(rt, Extra) == Some(Document(rt.extra))
  {
  }

  lemma PlainsFillIn(rt: Runtime, v: Values)
    requires rt.Imported?
    ensures
      var w := WithDefaults(rt, v, DEFAULTED);
      && Holds(v, w, Concurrency, Integer(3)) && Holds(v, w, Priority, Integer(50))
      && Holds(v, w, RateMultiplier, Float(1.0)) && Holds(v, w, Status, Str("active"))
      && Holds(v, w, AutoPauseOnExpired, Boolean(true)) && Holds(v, w, Schedulable, Boolean(true))
      && Holds(v, w, QuotaDimension, Str("global"))
  {
    DefaultsListed();
    PlainDefaults(rt);
    hide *;
    DefaultIs(rt, v, Concurrency, Integer(3));
    DefaultIs(rt, v, Priority, Integer(50));
    DefaultIs(rt, v, RateMultiplier, Float(1.0));
    DefaultIs(rt, v, Status, Str("active"));
    DefaultIs(rt, v, AutoPauseOnExpired, Boolean(true));
    DefaultIs(rt, v, Schedulable, Boolean(true));
    DefaultIs(rt, v, QuotaDimension, Str("global"));
  }

  lemma PlainDefaults(rt: Runtime)
    requires rt.Imported?
    ensures DefaultOf(rt, Concurrency) == Some(Integer(3)) && DefaultOf(rt, Priority) == Some(Integer(50))
    ensures DefaultOf(rt, RateMultiplier) == Some(Float(1.0)) && DefaultOf(rt, Status) == Some(Str("active"))
    ensures DefaultOf(rt, AutoPauseOnExpired) == DefaultOf(rt, Schedulable) == Some(Boolean(true))
    ensures DefaultOf(rt, QuotaDimension) == Some(Str("global"))
  {
  }

  /** With the runtime imported, defaults() keeps what was set and fills in every column that has a default. */
  lemma DefaultsFillIn(rt: Runtime, v: Values)
    requires rt.Imported?
    ensures FilledIn(rt, v, WithDefaults(rt, v, DEFAULTED))
  {
    hide *;
    NothingElse(rt, v);
    FunctionsFillIn(rt, v);
    PlainsFillIn(rt, v);
    FilledParts(rt, v, WithDefaults(rt, v, DEFAULTED));
  }

  lemma FilledParts(rt: Runtime, v: Values, w: Values)
    requires rt.Imported?
    requires forall c :: c in v ==> c in w && w[c] == v[c]
    requires forall c :: c in w && c !in v ==> c in DEFAULTED
    requires Holds(v, w, CreatedAt, Time(rt.createdAt)) && Holds(v, w, UpdatedAt, Time(rt.updatedAt))
    requires Holds(v, w, Credentials, Document(rt.credentials)) && Holds(v, w, Extra, Document(rt.extra))
    requires Holds(v, w, Concurrency, Integer(3)) && Holds(v, w, Priority, Integer(50))
    requires Holds(v, w, RateMultiplier, Float(1.0)) && Holds(v, w, Status, Str("active"))
    requires Holds(v, w, AutoPauseOnExpired, Boolean(true)) && Holds(v, w, Schedulable, Boolean(true))
    requires Holds(v, w, QuotaDimension, Str("global"))
    ensures FilledIn(rt, v, w)
  {
    hide DEFAULTED, Holds;
  }

  lemma RequiredAre(c: Column)
    ensures Required(c) <==> c in DEFAULTED || c in {Name, Platform, Type}
    ensures c !in CHECKED ==> forall x :: Accepts(c, x)
  {
  }

  lemma ColumnFilled(rt: Runtime, v: Values, c: Column)
    requires rt.Imported?
    ensures
      var w := WithDefaults(rt, v, DEFAULTED);
      && (c in w <==> c in v || c in DEFAULTED) && (c in v ==> w[c] == v[c])
      && (c in w && c !in v ==> Accepts(c, w[c]))
  {
    var w := WithDefaults(rt, v, DEFAULTED);
    if c in DEFAULTED {
      FilledWith(rt, v, c);
      DefaultsAreRegistered(rt, c);
    }
    hide DEFAULTED, WithDefaults, Accepts, DefaultOf;
  }

  /** With the runtime imported, the check after defaults() passes exactly when name, platform and type are set and
      every value that was set is accepted. */
  lemma CheckAfterDefaults(rt: Runtime, v: Values)
    requires rt.Imported?
    ensures Check(WithDefaults(rt, v, DEFAULTED)).None? <==> Acceptable(v)
  {
    NotDefaulted();
    var w := WithDefaults(rt, v, DEFAULTED);
    hide *;
    forall c
      ensures c in w <==> c in v || c in DEFAULTED
      ensures c in v ==> w[c] == v[c]
      ensures c in w && c !in v ==> Accepts(c, w[c])
    {
      ColumnFilled(rt, v, c);
    }
    forall c
      ensures Required(c) <==> c in DEFAULTED || c in {Name, Platform, Type}
      ensures c !in CHECKED ==> forall x :: Accepts(c, x)
    {
      RequiredAre(c);
    }
    CheckPassesIff(w);
    AcceptableIs(v);
  }

  lemma AcceptableIs(v: Values)
    ensures Acceptable(v) <==> Name in v && Platform in v && Type in v && forall c :: c in v ==> Accepts(c, v[c])
  {
  }

  lemma NotDefaulted()
    ensures Name !in DEFAULTED && Platform !in DEFAULTED && Type !in DEFAULTED
  {
  }

  /** The bounds of the validators: the length of a text is counted, and an empty one is refused for the three columns
      that have no default. */
  lemma ValidatorsAre(s: string)
    ensures Accepts(Name, Str(s)) <==> 1 <= |s| <= 100
    ensures Accepts(Platform, Str(s)) <==> 1 <= |s| <= 50
    ensures Accepts(Type, Str(s)) <==> 1 <= |s| <= 20
    ensures Accepts(Status, Str(s)) <==> |s| < 21
    ensures Accepts(SessionWindowStatus, Str(s)) <==> |s| < 21
    ensures Accepts(QuotaDimension, Str(s)) <==> s in ["global", "spark"]
  {
  }

  /** Without the runtime the four default functions are not registered, and the plain defaults are zero values. */
  lemma DefaultsWithoutRuntime(c: Column)
    ensures c in {CreatedAt, UpdatedAt, Credentials, Extra} ==> DefaultOf(NotImported, c).None?
    ensures DefaultOf(NotImported, Concurrency) == DefaultOf(NotImported, Priority) == Some(Integer(0))
    ensures DefaultOf(NotImported, RateMultiplier) == Some(Float(0.0))
    ensures DefaultOf(NotImported, Status) == Some(Str(""))
    ensures DefaultOf(NotImported, AutoPauseOnExpired) == DefaultOf(NotImported, Schedulable) == Some(Boolean(false))
  {
  }
}
