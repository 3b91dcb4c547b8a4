/** Writing an account and reading it back: createSpec, scanValues and assignValues. */
module AccountCodec {
  import opened Collections
  import opened AccountFields

  type Bytes = seq<int>

  /** The JSON library: what it writes and what it makes of bytes it reads. */
  datatype JsonLibrary = JsonLibrary(encode: Json -> Bytes, decode: Bytes -> Option<Json>)

  ghost predicate Inverts(lib: JsonLibrary) {
    forall j :: lib.encode(j) != [] && lib.decode(lib.encode(j)) == Some(j)
  }

  /** Decoding into a map that already has members keeps the members the document does not name. */
  function Merge(prior: Json, read: Json): Json {
    if read.NullJson? || prior.NullJson? then read else Object(prior.members + read.members)
  }

  // ---------------------------------------------------------------- the entity

  /** Fields the entity holds as pointers; the others always have a value. */
  predicate Nillable(c: Column) {
    match c
    case DeletedAt | Notes | ProxyId | ProxyFallbackOriginId | LoadFactor | ErrorMessage | LastUsedAt | ExpiresAt
       | RateLimitedAt | RateLimitResetAt | OverloadUntil | TempUnschedulableUntil | TempUnschedulableReason
       | SessionWindowStart | SessionWindowEnd | SessionWindowStatus | ParentAccountId => true
    case _ => false
  }

  /** A field is a pointer exactly when its column may be left unset. */
  lemma NillableIff(c: Column)
    requires !c.Other? && c != Id
    ensures Nillable(c) <==> !Required(c)
  {
    RequiredColumns(c);
    hide Required;
  }

  /** The Go type of a field. */
  datatype Kind = TimeKind | StringKind | IntKind | FloatKind | BoolKind | JsonKind

  function KindOf(c: Column): Kind {
    match c
    case Id | ProxyId | ProxyFallbackOriginId | Concurrency | LoadFactor | Priority | ParentAccountId => IntKind
    case Name | Notes | Platform | Type | Status | ErrorMessage | TempUnschedulableReason | SessionWindowStatus
       | QuotaDimension | Other(_) => StringKind
    case Credentials | Extra => JsonKind
    case RateMultiplier => FloatKind
    case AutoPauseOnExpired | Schedulable => BoolKind
    case CreatedAt | UpdatedAt | DeletedAt | LastUsedAt | ExpiresAt | RateLimitedAt | RateLimitResetAt | OverloadUntil
       | TempUnschedulableUntil | SessionWindowStart | SessionWindowEnd => TimeKind
  }

  function KindOfValue(v: Value): Kind {
    match v
    case Time(_) => TimeKind
    case Str(_) => StringKind
    case Integer(_) => IntKind
    case Float(_) => FloatKind
    case Boolean(_) => BoolKind
    case Document(_) => JsonKind
  }

  /** A mutation's fields have the types of the schema. The id is set by the database. */
  predicate Typed(v: Values) {
    forall c :: c in v ==> c in COLUMNS && c != Id && KindOfValue(v[c]) == KindOf(c)
  }

  function Zero(k: Kind): Value {
    match k
    case TimeKind => Time(0)
    case StringKind => Str("")
    case IntKind => Integer(0)
    case FloatKind => Float(0.0)
    case BoolKind => Boolean(false)
    case JsonKind => Document(NullJson)
  }

  /** The fields of a new entity: zero values, nil pointers. */
  function ZeroFields(): (fields: Values)
    ensures forall c :: c in fields <==> c in COLUMNS && !Nillable(c)
    ensures forall c :: c in fields ==> fields[c] == Zero(KindOf(c))
  {
    map c | c in COLUMNS && !Nillable(c) :: Zero(KindOf(c))
  }

  // ---------------------------------------------------------------- createSpec

  /** One column of an insert, with the type createSpec gives it. */
  datatype FieldType = TypeTime | TypeString | TypeInt64 | TypeInt | TypeFloat64 | TypeBool | TypeEnum | TypeJSON
  datatype FieldWrite = FieldWrite(c: Column, typ: FieldType, v: Value)

  /** `edges` are the many-to-one edges: the column and the id it is set to. */
  datatype Spec = Spec(fields: seq<FieldWrite>, edges: seq<(Column, int)>)

  /** The fields createSpec writes, in its order. */
  const WRITTEN: seq<Column> :=
    [CreatedAt, UpdatedAt, DeletedAt, Name, Notes, Platform, Type, Credentials, Extra] +
    [ProxyFallbackOriginId, Concurrency, LoadFactor, Priority, RateMultiplier, Status, ErrorMessage, LastUsedAt] +
    [ExpiresAt, AutoPauseOnExpired, Schedulable, RateLimitedAt, RateLimitResetAt, OverloadUntil] +
    [TempUnschedulableUntil, TempUnschedulableReason, SessionWindowStart, SessionWindowEnd, SessionWindowStatus] +
    [QuotaDimension]

  /** The columns it writes through many-to-one edges. */
  const EDGES: seq<Column> := [ProxyId, ParentAccountId]

  function WriteType(c: Column): FieldType {
    match c
    case CreatedAt | UpdatedAt | DeletedAt | LastUsedAt | ExpiresAt | RateLimitedAt | RateLimitResetAt | OverloadUntil
       | TempUnschedulableUntil | SessionWindowStart | SessionWindowEnd => TypeTime
    case Credentials | Extra => TypeJSON
    case ProxyFallbackOriginId => TypeInt64
    case Concurrency | LoadFactor | Priority => TypeInt
    case RateMultiplier => TypeFloat64
    case AutoPauseOnExpired | Schedulable => TypeBool
    case QuotaDimension => TypeEnum
    case _ => TypeString
  }

  function FieldWrites(v: Values, columns: seq<Column>): seq<FieldWrite> {
    if columns == [] then []
    else
      var c := columns[|columns| - 1];
      FieldWrites(v, columns[..|columns| - 1]) + if c in v then [FieldWrite(c, WriteType(c), v[c])] else []
  }

  function EdgeWrites(v: Values, columns: seq<Column>): seq<(Column, int)> {
    if columns == [] then []
    else
      var c := columns[|columns| - 1];
      EdgeWrites(v, columns[..|columns| - 1]) + if c in v && v[c].Integer? then [(c, v[c].n)] else []
  }

  function SpecOf(v: Values): Spec {
    Spec(FieldWrites(v, WRITTEN), EdgeWrites(v, EDGES))
  }

  /** The entity createSpec returns: what the mutation sets over zero values. */
  function NodeFields(v: Values): Values {
    ZeroFields() + v
  }

  /** A field that is not set is nil when it is a pointer, and otherwise empty, zero or false. */
  lemma UnsetFields(v: Values, c: Column)
    requires c in COLUMNS && c !in v
    ensures c in NodeFields(v) <==> !Nillable(c)
    ensures c in NodeFields(v) ==>
      match NodeFields(v)[c]
      case Time(at) => at == 0
      case Str(s) => s == ""
      case Integer(n) => n == 0
      case Float(f) => f == 0.0
      case Boolean(b) => !b
      case Document(j) => j == NullJson
  {
    hide COLUMNS, Nillable, KindOf;
  }

  function Picked(v: Values, columns: seq<Column>): Values {
    map c | c in v && c in columns :: v[c]
  }

  lemma PickedOneMore(v: Values, columns: seq<Column>, i: nat)
    requires i < |columns|
    ensures
      var c := columns[i];
      Picked(v, columns[..i + 1]) == if c in v then Picked(v, columns[..i])[c := v[c]] else Picked(v, columns[..i])
  {
  }

  lemma WritesOneMore(v: Values, columns: seq<Column>, i: nat)
    requires i < |columns|
    ensures
      var c := columns[i];
      && FieldWrites(v, columns[..i + 1]) ==
           FieldWrites(v, columns[..i]) + (if c in v then [FieldWrite(c, WriteType(c), v[c])] else [])
      && EdgeWrites(v, columns[..i + 1]) ==
           EdgeWrites(v, columns[..i]) + (if c in v && v[c].Integer? then [(c, v[c].n)] else [])
  {
    assert columns[..i + 1][..i] == columns[..i];
    hide WriteType;
  }

  lemma NothingWritten(v: Values, columns: seq<Column>)
    ensures Picked(v, columns[..0]) == map[] && FieldWrites(v, columns[..0]) == [] && EdgeWrites(v, columns[..0]) == []
  {
  }

  lemma SetOver(a: Values, b: Values, c: Column, x: Value)
    ensures (a + b)[c := x] == a + b[c := x]
  {
  }

  method WriteFields(v: Values, columns: seq<Column>, before: Values) returns (fields: Values, writes: seq<FieldWrite>)
    ensures fields == before + Picked(v, columns) && writes == FieldWrites(v, columns)
  {
    fields, writes := before, [];
    NothingWritten(v, columns);
    hide *;
    for i := 0 to |columns|
      invariant fields == before + Picked(v, columns[..i]) && writes == FieldWrites(v, columns[..i])
    {
      var c := columns[i];
      PickedOneMore(v, columns, i);
      WritesOneMore(v, columns, i);
      if c in v {
        SetOver(before, Picked(v, columns[..i]), c, v[c]);
        writes := writes + [FieldWrite(c, WriteType(c), v[c])];
        fields := fields[c := v[c]];
      }
    }
    assert columns[..|columns|] == columns;
  }

  method WriteEdges(v: Values, columns: seq<Column>, before: Values) returns (fields: Values, edges: seq<(Column, int)>)
    requires forall c :: c in columns && c in v ==> v[c].Integer?
    ensures fields == before + Picked(v, columns) && edges == EdgeWrites(v, columns)
  {
    fields, edges := before, [];
    NothingWritten(v, columns);
    hide *;
    for i := 0 to |columns|
      invariant fields == before + Picked(v, columns[..i]) && edges == EdgeWrites(v, columns[..i])
    {
      var c := columns[i];
      PickedOneMore(v, columns, i);
      WritesOneMore(v, columns, i);
      if c in v {
        SetOver(before, Picked(v, columns[..i]), c, v[c]);
        edges := edges + [(c, v[c].n)];
        fields := fields[c := v[c]];
      }
    }
    assert columns[..|columns|] == columns;
  }

  function TableSlot(k: nat): nat {
    if k < 9 then k + 1 else if k < 28 then k + 2 else k + 3
  }

  lemma WrittenInTableOrder()
    ensures |WRITTEN| == 29 && |COLUMNS| == 32
    ensures forall k :: 0 <= k < 29 ==> WRITTEN[k] == COLUMNS[TableSlot(k)]
  {
  }

  lemma UnwrittenSlots()
    ensures |COLUMNS| == 32 && COLUMNS[0] == Id && COLUMNS[10] == ProxyId && COLUMNS[30] == ParentAccountId
    ensures Slot(Id) == 0 && Slot(ProxyId) == 10 && Slot(ParentAccountId) == 30
  {
  }

  lemma WrittenIff(c: Column)
    ensures c in WRITTEN <==> !c.Other? && c !in {Id, ProxyId, ParentAccountId}
  {
    hide *;
    WrittenInTableOrder();
    UnwrittenSlots();
    if !c.Other? { SlotOfColumn(c); }
    if c in WRITTEN {
      var k :| 0 <= k < |WRITTEN| && WRITTEN[k] == c;
      TableSlotSkips(k);
      ColumnOfSlot(TableSlot(k));
    }
    if !c.Other? && c !in {Id, ProxyId, ParentAccountId} {
      var k := TableSlotHits(Slot(c));
      assert WRITTEN[k] == c;
    }
  }

  lemma TableSlotSkips(k: nat)
    requires k < 29
    ensures TableSlot(k) < 32 && TableSlot(k) !in {0, 10, 30}
  {
  }

  lemma TableSlotHits(slot: nat) returns (k: nat)
    requires slot < 32 && slot !in {0, 10, 30}
    ensures k < 29 && TableSlot(k) == slot
  {
    k := if slot < 10 then slot - 1 else if slot < 30 then slot - 2 else slot - 3;
  }

  /** Between them the field writes and the edges cover every column but the id. */
  lemma EveryColumnIsWritten(c: Column)
    ensures c in COLUMNS && c != Id <==> c in WRITTEN || c in EDGES
    ensures !(c in WRITTEN && c in EDGES)
  {
    TableColumns(c);
    WrittenIff(c);
    hide COLUMNS, WRITTEN;
  }

  lemma EdgesHoldIds(v: Values)
    requires Typed(v)
    ensures forall c :: c in EDGES && c in v ==> v[c].Integer?
  {
    hide COLUMNS;
    forall c | c in EDGES && c in v
      ensures v[c].Integer?
    {
      assert c == ProxyId || c == ParentAccountId;
    }
  }

  /** The type of a field, as an insert names it; of the two integer types a foreign key that is no edge has the wide
      one, and the quota dimension is an enumeration. */
  predicate TypeFits(c: Column, typ: FieldType) {
    match typ
    case TypeTime => KindOf(c) == TimeKind
    case TypeString => KindOf(c) == StringKind && c != QuotaDimension
    case TypeInt64 => KindOf(c) == IntKind && c == ProxyFallbackOriginId
    case TypeInt => KindOf(c) == IntKind && c != ProxyFallbackOriginId
    case TypeFloat64 => KindOf(c) == FloatKind
    case TypeBool => KindOf(c) == BoolKind
    case TypeEnum => c == QuotaDimension
    case TypeJSON => KindOf(c) == JsonKind
  }

  lemma WriteTypeFits(c: Column)
    requires c in WRITTEN
    ensures TypeFits(c, WriteType(c))
  {
    WrittenIff(c);
    hide WRITTEN;
  }

  /** Every write of an insert has the value that is set and the type of the field. */
  lemma WritesHaveTypes(v: Values)
    ensures forall w :: w in SpecOf(v).fields ==> w.c in v && w.v == v[w.c] && TypeFits(w.c, w.typ)
  {
    WritesFollow(v, WRITTEN);
    forall c | c in WRITTEN
      ensures TypeFits(c, WriteType(c))
    {
      WriteTypeFits(c);
    }
    hide WRITTEN, WriteType, TypeFits;
  }

  lemma {:induction false} WritesFollow(v: Values, columns: seq<Column>)
    ensures forall w :: w in FieldWrites(v, columns) ==>
      w.c in columns && w.c in v && w.v == v[w.c] && w.typ == WriteType(w.c)
  {
    hide WriteType;
    if columns != [] {
      assert columns == columns[..|columns| - 1] + [columns[|columns| - 1]];
      WritesFollow(v, columns[..|columns| - 1]);
    }
  }

  lemma AllPicked(v: Values)
    requires Typed(v)
    ensures Picked(v, WRITTEN) + Picked(v, EDGES) == v
  {
  }

  /** Builds the entity and the insert from a mutation, field by field. */
  method CreateSpec(v: Values) returns (fields: Values, spec: Spec)
    requires Typed(v)
    ensures fields == NodeFields(v) && spec == SpecOf(v)
  {
    AllPicked(v);
    EdgesHoldIds(v);
    hide *;
    var writes, edges;
    fields, writes := WriteFields(v, WRITTEN, ZeroFields());
    fields, edges := WriteEdges(v, EDGES, fields);
    spec := Spec(writes, edges);
    InTwoSteps(ZeroFields(), Picked(v, WRITTEN), Picked(v, EDGES));
    SpecParts(v);
  }

  lemma SpecParts(v: Values)
    ensures NodeFields(v) == ZeroFields() + v && SpecOf(v) == Spec(FieldWrites(v, WRITTEN), EdgeWrites(v, EDGES))
  {
  }

  lemma InTwoSteps(a: Values, b: Values, c: Values)
    ensures a + b + c == a + (b + c)
  {
  }

  // ---------------------------------------------------------------- the row

  /** What the database holds in one column. */
  datatype Cell = Null | Plain(v: Value) | Raw(bytes: Bytes)

  function Stored(lib: JsonLibrary, v: Value): Cell {
    if v.Document? then Raw(lib.encode(v.j)) else Plain(v)
  }

  function WrittenTo(writes: seq<FieldWrite>, c: Column): Option<Value> {
    if writes == [] then None
    else if writes[|writes| - 1].c == c then Some(writes[|writes| - 1].v)
    else WrittenTo(writes[..|writes| - 1], c)
  }

  function LinkedTo(edges: seq<(Column, int)>, c: Column): Option<int> {
    if edges == [] then None
    else if edges[|edges| - 1].0 == c then Some(edges[|edges| - 1].1)
    else LinkedTo(edges[..|edges| - 1], c)
  }

  /** The row an insert leaves: the new id, what is written, and NULL in every other column. */
  function CellOf(lib: JsonLibrary, id: int, spec: Spec, c: Column): Cell {
    if c == Id then Plain(Integer(id))
    else
      match WrittenTo(spec.fields, c)
      case Some(v) => Stored(lib, v)
      case None =>
        match LinkedTo(spec.edges, c)
        case Some(n) => Plain(Integer(n))
        case None => Null
  }

  lemma LastWrite(writes: seq<FieldWrite>, w: FieldWrite, c: Column)
    ensures WrittenTo(writes + [w], c) == if w.c == c then Some(w.v) else WrittenTo(writes, c)
  {
    assert (writes + [w])[..|writes|] == writes;
  }

  lemma LastLink(edges: seq<(Column, int)>, w: (Column, int), c: Column)
    ensures LinkedTo(edges + [w], c) == if w.0 == c then Some(w.1) else LinkedTo(edges, c)
  {
    assert (edges + [w])[..|edges|] == edges;
  }

  lemma {:induction false} FieldsWritten(v: Values, columns: seq<Column>, c: Column)
    ensures WrittenTo(FieldWrites(v, columns), c) == if c in columns && c in v then Some(v[c]) else None
  {
    if columns != [] {
      var front, d := columns[..|columns| - 1], columns[|columns| - 1];
      FieldsWritten(v, front, c);
      assert columns == front + [d];
      hide WrittenTo, WriteType;
      if d in v {
        LastWrite(FieldWrites(v, front), FieldWrite(d, WriteType(d), v[d]), c);
      } else {
        assert FieldWrites(v, columns) == FieldWrites(v, front);
      }
    }
  }

  lemma {:induction false} EdgesLinked(v: Values, columns: seq<Column>, c: Column)
    ensures LinkedTo(EdgeWrites(v, columns), c) ==
            if c in columns && c in v && v[c].Integer? then Some(v[c].n) else None
  {
    if columns != [] {
      var front, d := columns[..|columns| - 1], columns[|columns| - 1];
      EdgesLinked(v, front, c);
      assert columns == front + [d];
      hide LinkedTo;
      if d in v && v[d].Integer? {
        LastLink(EdgeWrites(v, front), (d, v[d].n), c);
      } else {
        assert EdgeWrites(v, columns) == EdgeWrites(v, front);
      }
    }
  }

  lemma RowHoldsMutation(lib: JsonLibrary, id: int, v: Values, c: Column)
    requires Typed(v) && c in COLUMNS
    ensures CellOf(lib, id, SpecOf(v), c) ==
            if c == Id then Plain(Integer(id)) else if c in v then Stored(lib, v[c]) else Null
  {
    EveryColumnIsWritten(c);
    FieldsWritten(v, WRITTEN, c);
    EdgesLinked(v, EDGES, c);
    EdgesHoldIds(v);
    hide COLUMNS, WRITTEN, EDGES, KindOf, KindOfValue;
  }

  // ---------------------------------------------------------------- scanValues and assignValues

  /** The holders a row is scanned into; the payload is None for NULL. */
  datatype Holder =
    | NullTime(t: Option<int>) | NullString(s: Option<string>) | NullInt64(n: Option<int>)
    | NullFloat64(f: Option<real>) | NullBool(b: Option<bool>) | RawBytes(bytes: Bytes) | UnknownType(cell: Cell)

  /** The empty holder scanValues chooses for a column. */
  function NewHolder(c: Column): Holder {
    match c
    case Credentials | Extra => RawBytes([])
    case AutoPauseOnExpired | Schedulable => NullBool(None)
    case RateMultiplier => NullFloat64(None)
    case Id | ProxyId | ProxyFallbackOriginId | Concurrency | LoadFactor | Priority | ParentAccountId => NullInt64(None)
    case Name | Notes | Platform | Type | Status | ErrorMessage | TempUnschedulableReason | SessionWindowStatus
       | QuotaDimension => NullString(None)
    case CreatedAt | UpdatedAt | DeletedAt | LastUsedAt | ExpiresAt | RateLimitedAt | RateLimitResetAt | OverloadUntil
       | TempUnschedulableUntil | SessionWindowStart | SessionWindowEnd => NullTime(None)
    case Other(_) => UnknownType(Null)
  }

  method ScanValues(columns: seq<Column>) returns (values: array<Holder>)
    ensures fresh(values) && values.Length == |columns|
    ensures forall i :: 0 <= i < |columns| ==> values[i] == NewHolder(columns[i])
  {
    values := new Holder[|columns|](i => UnknownType(Null));
    hide NewHolder;
    for i := 0 to |columns|
      invariant forall k :: 0 <= k < i ==> values[k] == NewHolder(columns[k])
    {
      values[i] := NewHolder(columns[i]);
    }
  }

  predicate SameHolder(a: Holder, b: Holder) {
    match a
    case NullTime(_) => b.NullTime?
    case NullString(_) => b.NullString?
    case NullInt64(_) => b.NullInt64?
    case NullFloat64(_) => b.NullFloat64?
    case NullBool(_) => b.NullBool?
    case RawBytes(_) => b.RawBytes?
    case UnknownType(_) => b.UnknownType?
  }

  /** What the driver leaves in a holder; None when the cell does not fit it. */
  function Filled(h: Holder, cell: Cell): (r: Option<Holder>)
    ensures r.Some? ==> SameHolder(h, r.value)
  {
    match h
    case UnknownType(_) => Some(UnknownType(cell))
    case RawBytes(_) =>
      if cell.Null? then Some(RawBytes([])) else if cell.Raw? then Some(RawBytes(cell.bytes)) else None
    case NullTime(_) =>
      if cell.Null? then Some(NullTime(None))
      else if cell.Plain? && cell.v.Time? then Some(NullTime(Some(cell.v.at)))
      else None
    case NullString(_) =>
      if cell.Null? then Some(NullString(None))
      else if cell.Plain? && cell.v.Str? then Some(NullString(Some(cell.v.s)))
      else None
    case NullInt64(_) =>
      if cell.Null? then Some(NullInt64(None))
      else if cell.Plain? && cell.v.Integer? then Some(NullInt64(Some(cell.v.n)))
      else None
    case NullFloat64(_) =>
      if cell.Null? then Some(NullFloat64(None))
      else if cell.Plain? && cell.v.Float? then Some(NullFloat64(Some(cell.v.f)))
      else None
    case NullBool(_) =>
      if cell.Null? then Some(NullBool(None))
      else if cell.Plain? && cell.v.Boolean? then Some(NullBool(Some(cell.v.b)))
      else None
  }

  datatype AssignError = Mismatch(values: nat, columns: nat) | UnexpectedType(c: Column) | Unmarshal(c: Column)

  /** An account's fields, and the values of columns it has no field for. */
  datatype State = State(fields: Values, selected: map<string, Holder>)

  datatype Step = Go(s: State) | Stop(s: State, error: AssignError)

  /** A step after which the fields differ at most in one column. */
  ghost predicate OnlyAt(s: State, c: Column, r: Step) {
    r.s.fields == s.fields || (c in r.s.fields && r.s.fields == s.fields[c := r.s.fields[c]])
  }

  /** What a valid holder sets a field to; NULL leaves it alone. */
  function SetIf(s: State, c: Column, v: Option<Value>): (r: Step)
    ensures OnlyAt(s, c, r)
  {
    Go(if v.None? then s else s.(fields := s.fields[c := v.value]))
  }

  /** Empty bytes are ignored; others are decoded into the field. */
  function AssignJson(lib: JsonLibrary, s: State, c: Column, bytes: Bytes): (r: Step)
    ensures OnlyAt(s, c, r)
  {
    if bytes == [] then Go(s)
    else
      var prior := if c in s.fields && s.fields[c].Document? then s.fields[c].j else NullJson;
      match lib.decode(bytes)
      case None => Stop(s, Unmarshal(c))
      case Some(j) => SetIf(s, c, Some(Document(Merge(prior, j))))
  }

  /** Decoding into a document that the field holds already keeps the members that the new one does not name. */
  lemma DecodedIntoHeld(lib: JsonLibrary, s: State, c: Column, bytes: Bytes, prior: map<string, string>,
                        read: map<string, string>)
    requires bytes != [] && lib.decode(bytes) == Some(Object(read))
    requires c in s.fields && s.fields[c] == Document(Object(prior))
    ensures
      var r := AssignJson(lib, s, c, bytes);
      && r.Go? && c in r.s.fields && r.s.fields[c].Document? && r.s.fields[c].j.Object?
      && forall k ::
           var after := r.s.fields[c].j.members;
           if k in read then k in after && after[k] == read[k]
           else k in after <==> k in prior && (k in prior ==> after[k] == prior[k])
  {
  }

  function AssignId(s: State, c: Column, h: Holder): (r: Step)
    ensures OnlyAt(s, c, r)
  {
    if !h.NullInt64? then Stop(s, UnexpectedType(c)) else SetIf(s, c, Some(Integer(if h.n.Some? then h.n.value else 0)))
  }

  function AssignTime(s: State, c: Column, h: Holder): (r: Step)
    ensures OnlyAt(s, c, r)
  {
    if !h.NullTime? then Stop(s, UnexpectedType(c)) else SetIf(s, c, if h.t.Some? then Some(Time(h.t.value)) else None)
  }

  function AssignString(s: State, c: Column, h: Holder): (r: Step)
    ensures OnlyAt(s, c, r)
  {
    if !h.NullString? then Stop(s, UnexpectedType(c)) else SetIf(s, c, if h.s.Some? then Some(Str(h.s.value)) else None)
  }

  function AssignInt(s: State, c: Column, h: Holder): (r: Step)
    ensures OnlyAt(s, c, r)
  {
    if !h.NullInt64? then Stop(s, UnexpectedType(c))
    else SetIf(s, c, if h.n.Some? then Some(Integer(h.n.value)) else None)
  }

  function AssignFloat(s: State, c: Column, h: Holder): (r: Step)
    ensures OnlyAt(s, c, r)
  {
    if !h.NullFloat64? then Stop(s, UnexpectedType(c))
    else SetIf(s, c, if h.f.Some? then Some(Float(h.f.value)) else None)
  }

  function AssignBool(s: State, c: Column, h: Holder): (r: Step)
    ensures OnlyAt(s, c, r)
  {
    if !h.NullBool? then Stop(s, UnexpectedType(c))
    else SetIf(s, c, if h.b.Some? then Some(Boolean(h.b.value)) else None)
  }

  function AssignOne(lib: JsonLibrary, s: State, c: Column, h: Holder): Step {
    match c
    case Id => AssignId(s, c, h)
    case CreatedAt | UpdatedAt | DeletedAt | LastUsedAt | ExpiresAt | RateLimitedAt | RateLimitResetAt | OverloadUntil
       | TempUnschedulableUntil | SessionWindowStart | SessionWindowEnd => AssignTime(s, c, h)
    case Name | Notes | Platform | Type | Status | ErrorMessage | TempUnschedulableReason | SessionWindowStatus
       | QuotaDimension => AssignString(s, c, h)
    case Credentials | Extra => if !h.RawBytes? then Stop(s, UnexpectedType(c)) else AssignJson(lib, s, c, h.bytes)
    case ProxyId | ProxyFallbackOriginId | Concurrency | LoadFactor | Priority | ParentAccountId => AssignInt(s, c, h)
    case RateMultiplier => AssignFloat(s, c, h)
    case AutoPauseOnExpired | Schedulable => AssignBool(s, c, h)
    case Other(name) => Go(s.(selected := s.selected[name := h]))
  }

  /** Assigns the first columns one after the other, up to the first error. */
  function AssignAll(lib: JsonLibrary, s: State, columns: seq<Column>, values: seq<Holder>): Step
    requires |columns| <= |values|
    decreases columns
  {
    if columns == [] then Go(s)
    else
      match AssignAll(lib, s, columns[..|columns| - 1], values)
      case Stop(s', error) => Stop(s', error)
      case Go(s') => AssignOne(lib, s', columns[|columns| - 1], values[|columns| - 1])
  }

  class Account {
    var state: State

    constructor ()
      ensures state == State(ZeroFields(), map[])
    {
      state := State(ZeroFields(), map[]);
    }

    /** Sets the fields from a scanned row. */
    method AssignValues(lib: JsonLibrary, columns: seq<Column>,
                        values: array<Holder>) returns (error: Option<AssignError>)
      modifies this
      ensures values.Length < |columns| ==> error == Some(Mismatch(values.Length, |columns|)) && state == old(state)
      ensures |columns| <= values.Length ==>
        match AssignAll(lib, old(state), columns, values[..])
        case Go(s) => error == None && state == s
        case Stop(s, e) => error == Some(e) && state == s
    {
      if values.Length < |columns| {
        return Some(Mismatch(values.Length, |columns|));
      }
      hide AssignOne;
      ghost var all := values[..];
      for i := 0 to |columns|
        invariant values[..] == all && AssignAll(lib, old(state), columns[..i], all) == Go(state)
      {
        assert columns[..i + 1][..i] == columns[..i];
        var step := AssignOne(lib, state, columns[i], values[i]);
        state := step.s;
        if step.Stop? {
          StopsEarly(lib, old(state), columns, all, i + 1);
          return Some(step.error);
        }
      }
      assert columns[..|columns|] == columns;
      error := None;
    }
  }

  lemma {:induction false} StopsEarly(lib: JsonLibrary, s: State, columns: seq<Column>, values: seq<Holder>, i: nat)
    requires i <= |columns| <= |values| && AssignAll(lib, s, columns[..i], values).Stop?
    ensures AssignAll(lib, s, columns, values) == AssignAll(lib, s, columns[..i], values)
    decreases |columns|
  {
    if i == |columns| {
      assert columns[..i] == columns;
    } else {
      assert columns[..|columns| - 1][..i] == columns[..i];
      StopsEarly(lib, s, columns[..|columns| - 1], values, i);
    }
  }

  // ---------------------------------------------------------------- what a read keeps and sets

  /** Holders of the kinds scanValues chose, whatever was scanned into them. */
  ghost predicate Scanned(columns: seq<Column>, values: seq<Holder>) {
    |values| == |columns| && forall i :: 0 <= i < |columns| ==> SameHolder(NewHolder(columns[i]), values[i])
  }

  lemma HolderIsExpected(lib: JsonLibrary, s: State, c: Column, h: Holder)
    requires SameHolder(NewHolder(c), h)
    ensures AssignOne(lib, s, c, h).Stop? ==> AssignOne(lib, s, c, h).error == Unmarshal(c) && c in {Credentials, Extra}
  {
  }

  /** For every column list, in any order, with repeats and unknown names, no holder is of an unexpected type;
      reading can fail only on a JSON column that does not decode. */
  lemma {:induction false} ScannedNeverUnexpected(lib: JsonLibrary, s: State, columns: seq<Column>,
                                                  values: seq<Holder>, i: nat)
    requires Scanned(columns, values) && i <= |columns|
    ensures
      var step := AssignAll(lib, s, columns[..i], values);
      step.Stop? ==> step.error.Unmarshal? && step.error.c in {Credentials, Extra} && step.error.c in columns
    decreases i
  {
    if i > 0 {
      ScannedNeverUnexpected(lib, s, columns, values, i - 1);
      assert columns[..i][..i - 1] == columns[..i - 1];
      hide AssignOne, NewHolder;
      match AssignAll(lib, s, columns[..i - 1], values) {
        case Stop(_, _) =>
        case Go(s') => HolderIsExpected(lib, s', columns[i - 1], values[i - 1]);
      }
    }
  }

  lemma OnlyItsField(lib: JsonLibrary, s: State, c: Column, h: Holder)
    ensures OnlyAt(s, c, AssignOne(lib, s, c, h))
  {
    assert OnlyAt(s, c, Go(s)) && forall e :: OnlyAt(s, c, Stop(s, e));
    hide OnlyAt, AssignId, AssignTime, AssignString, AssignInt, AssignFloat, AssignBool, AssignJson;
  }

  lemma OthersKept(lib: JsonLibrary, s: State, c: Column, h: Holder, d: Column)
    requires d != c
    ensures
      var t := AssignOne(lib, s, c, h).s;
      (d in t.fields <==> d in s.fields) && (d in s.fields ==> t.fields[d] == s.fields[d])
  {
    OnlyItsField(lib, s, c, h);
    hide AssignOne;
  }

  /** A field whose column is not listed keeps its prior value, also when the read fails half-way. */
  lemma {:induction false} UnlistedIsKept(lib: JsonLibrary, s: State, columns: seq<Column>, values: seq<Holder>,
                                          d: Column)
    requires |columns| <= |values| && d !in columns
    ensures
      var t := AssignAll(lib, s, columns, values).s;
      (d in t.fields <==> d in s.fields) && (d in s.fields ==> t.fields[d] == s.fields[d])
    decreases columns
  {
    if columns != [] {
      var front := columns[..|columns| - 1];
      UnlistedIsKept(lib, s, front, values, d);
      hide AssignOne;
      OthersKept(lib, AssignAll(lib, s, front, values).s, columns[|columns| - 1], values[|columns| - 1], d);
    }
  }

  // ---------------------------------------------------------------- the round trip

  /** The cell a column holds once a mutation is stored under an id. */
  function StoredCell(lib: JsonLibrary, v: Values, c: Column): Cell {
    if c in v then Stored(lib, v[c]) else Null
  }

  /** The empty holder for a Go type. */
  function EmptyHolder(k: Kind): Holder {
    match k
    case TimeKind => NullTime(None)
    case StringKind => NullString(None)
    case IntKind => NullInt64(None)
    case FloatKind => NullFloat64(None)
    case BoolKind => NullBool(None)
    case JsonKind => RawBytes([])
  }

  lemma ChosenHolder(c: Column)
    requires !c.Other?
    ensures NewHolder(c) == EmptyHolder(KindOf(c))
  {
  }

  lemma AssignedByKind(lib: JsonLibrary, s: State, c: Column, h: Holder)
    requires !c.Other?
    ensures AssignOne(lib, s, c, h) ==
      match KindOf(c)
      case TimeKind => AssignTime(s, c, h)
      case StringKind => AssignString(s, c, h)
      case IntKind => if c == Id then AssignId(s, c, h) else AssignInt(s, c, h)
      case FloatKind => AssignFloat(s, c, h)
      case BoolKind => AssignBool(s, c, h)
      case JsonKind => if !h.RawBytes? then Stop(s, UnexpectedType(c)) else AssignJson(lib, s, c, h.bytes)
  {
    hide OnlyAt, AssignId, AssignTime, AssignString, AssignInt, AssignFloat, AssignBool, AssignJson;
  }

  /** scanValues chooses the holder of the field's Go type, and assignValues reads a holder of that type. */
  lemma HoldersFollowTypes(lib: JsonLibrary, s: State, c: Column, h: Holder)
    requires !c.Other? && SameHolder(EmptyHolder(KindOf(c)), h)
    ensures NewHolder(c) == EmptyHolder(KindOf(c))
    ensures AssignOne(lib, s, c, h) ==
      match KindOf(c)
      case TimeKind => SetIf(s, c, if h.t.Some? then Some(Time(h.t.value)) else None)
      case StringKind => SetIf(s, c, if h.s.Some? then Some(Str(h.s.value)) else None)
      case IntKind =>
        SetIf(s, c, if h.n.Some? then Some(Integer(h.n.value)) else if c == Id then Some(Integer(0)) else None)
      case FloatKind => SetIf(s, c, if h.f.Some? then Some(Float(h.f.value)) else None)
      case BoolKind => SetIf(s, c, if h.b.Some? then Some(Boolean(h.b.value)) else None)
      case JsonKind => AssignJson(lib, s, c, h.bytes)
  {
    ChosenHolder(c);
    AssignedByKind(lib, s, c, h);
    hide AssignOne, NewHolder, SetIf, AssignJson, OnlyAt;
  }

  /** A holder of another type than the field's. */
  predicate Misfit(c: Column, h: Holder) {
    !c.Other? && !SameHolder(EmptyHolder(KindOf(c)), h)
  }

  /** Bytes for a JSON column that do not decode. */
  predicate Undecodable(lib: JsonLibrary, c: Column, h: Holder) {
    c in {Credentials, Extra} && h.RawBytes? && h.bytes != [] && lib.decode(h.bytes).None?
  }

  lemma OneFailsIff(lib: JsonLibrary, s: State, c: Column, h: Holder)
    ensures !Misfit(c, h) && !Undecodable(lib, c, h) ==> AssignOne(lib, s, c, h).Go?
    ensures Misfit(c, h) ==> AssignOne(lib, s, c, h) == Stop(s, UnexpectedType(c))
    ensures Undecodable(lib, c, h) ==> AssignOne(lib, s, c, h) == Stop(s, Unmarshal(c))
  {
    if Misfit(c, h) {
      WrongHolder(lib, s, c, h);
      hide *;
    } else if !c.Other? {
      JsonColumns(c);
      HoldersFollowTypes(lib, s, c, h);
      hide AssignOne, NewHolder, KindOf, OnlyAt, Merge;
    }
  }

  lemma WrongHolder(lib: JsonLibrary, s: State, c: Column, h: Holder)
    requires Misfit(c, h)
    ensures AssignOne(lib, s, c, h) == Stop(s, UnexpectedType(c)) && !Undecodable(lib, c, h)
  {
    JsonColumns(c);
    hide KindOf, OnlyAt, SetIf, AssignJson;
    AssignedByKind(lib, s, c, h);
    hide AssignOne;
  }

  lemma JsonColumns(c: Column)
    ensures KindOf(c) == JsonKind <==> c in {Credentials, Extra}
  {
  }

  /** Reading stops at the first column whose holder has another type or whose bytes do not decode, with the error that
      names it and the columns before it assigned; without such a column it goes through. */
  lemma {:induction false} StopsAtFirstFault(lib: JsonLibrary, s: State, columns: seq<Column>, values: seq<Holder>,
                                             i: nat)
    requires |columns| <= |values| && i <= |columns|
    requires forall j :: 0 <= j < i ==> !Misfit(columns[j], values[j]) && !Undecodable(lib, columns[j], values[j])
    ensures AssignAll(lib, s, columns[..i], values).Go?
    ensures i < |columns| && (Misfit(columns[i], values[i]) || Undecodable(lib, columns[i], values[i])) ==>
      AssignAll(lib, s, columns, values) ==
        Stop(AssignAll(lib, s, columns[..i], values).s,
             if Misfit(columns[i], values[i]) then UnexpectedType(columns[i]) else Unmarshal(columns[i]))
    decreases i
  {
    hide Misfit, Undecodable, AssignOne;
    if i > 0 {
      assert columns[..i][..i - 1] == columns[..i - 1];
      StopsAtFirstFault(lib, s, columns, values, i - 1);
      OneFailsIff(lib, AssignAll(lib, s, columns[..i - 1], values).s, columns[i - 1], values[i - 1]);
    }
    if i < |columns| {
      assert columns[..i + 1][..i] == columns[..i];
      OneFailsIff(lib, AssignAll(lib, s, columns[..i], values).s, columns[i], values[i]);
      if AssignAll(lib, s, columns[..i + 1], values).Stop? { StopsEarly(lib, s, columns, values, i + 1); }
    }
  }

  /** The value of a column that the schema does not know is kept by its name, of several the last. */
  lemma {:induction false} UnknownIsSelected(lib: JsonLibrary, s: State, columns: seq<Column>, values: seq<Holder>,
                                             name: string, i: nat)
    requires |columns| <= |values| && AssignAll(lib, s, columns, values).Go?
    requires i < |columns| && columns[i] == Other(name) && forall j :: i < j < |columns| ==> columns[j] != Other(name)
    ensures
      var selected := AssignAll(lib, s, columns, values).s.selected;
      name in selected && selected[name] == values[i]
    decreases columns
  {
    var n := |columns| - 1;
    if i < n { UnknownIsSelected(lib, s, columns[..n], values, name, i); }
    SelectedByOne(lib, AssignAll(lib, s, columns[..n], values).s, columns[n], values[n]);
    hide AssignOne;
  }

  lemma SelectedByOne(lib: JsonLibrary, s: State, c: Column, h: Holder)
    requires AssignOne(lib, s, c, h).Go?
    ensures AssignOne(lib, s, c, h).s.selected == if c.Other? then s.selected[c.name := h] else s.selected
  {
    hide OnlyAt, Merge;
    if !c.Other? {
      AssignedByKind(lib, s, c, h);
      hide AssignOne, KindOf;
    }
  }

  /** A stored cell fits the holder scanValues chose for it, and assigning it sets the field to what was
      written, or leaves a field that was not written alone. */
  lemma ReadsWhatWasWritten(lib: JsonLibrary, s: State, v: Values, c: Column)
    requires Inverts(lib) && !c.Other? && (c in v ==> KindOfValue(v[c]) == KindOf(c)) && (c == Id ==> c in v)
    requires KindOf(c) == JsonKind ==> c in s.fields && s.fields[c] == Document(NullJson)
    ensures
      var h := Filled(NewHolder(c), StoredCell(lib, v, c));
      h.Some? && AssignOne(lib, s, c, h.value) == SetIf(s, c, if c in v then Some(v[c]) else None)
  {
    hide AssignOne, NewHolder, KindOf;
    HoldersFollowTypes(lib, s, c, EmptyHolder(KindOf(c)));
    var h := Filled(EmptyHolder(KindOf(c)), StoredCell(lib, v, c));
    if c in v && v[c].Document? {
      assert lib.encode(v[c].j) != [] && lib.decode(lib.encode(v[c].j)) == Some(v[c].j);
    }
    assert h.Some?;
    HoldersFollowTypes(lib, s, c, h.value);
  }

  /** Holders filled from a stored row. */
  ghost predicate AllAssigned(lib: JsonLibrary, v: Values, columns: seq<Column>, values: seq<Holder>) {
    && |values| == |columns|
    && forall i :: 0 <= i < |columns| ==>
      Filled(NewHolder(columns[i]), StoredCell(lib, v, columns[i])) == Some(values[i])
  }

  ghost predicate Readable(lib: JsonLibrary, v: Values, columns: seq<Column>) {
    && Inverts(lib) && NoDuplicates(columns) && (forall c :: c in columns ==> !c.Other?)
    && Id in v && forall c :: c in v ==> KindOfValue(v[c]) == KindOf(c)
  }

  /** A new entity with the given columns set. */
  function WithColumns(v: Values, columns: seq<Column>): State {
    State(ZeroFields() + Picked(v, columns), map[])
  }

  lemma ZeroJson(v: Values, columns: seq<Column>, c: Column)
    requires KindOf(c) == JsonKind && c !in columns
    ensures c in WithColumns(v, columns).fields && WithColumns(v, columns).fields[c] == Document(NullJson)
  {
  }

  lemma OneMoreColumn(v: Values, columns: seq<Column>, i: nat)
    requires i < |columns|
    ensures SetIf(WithColumns(v, columns[..i]), columns[i], if columns[i] in v then Some(v[columns[i]]) else None) ==
            Go(WithColumns(v, columns[..i + 1]))
  {
    PickedOneMore(v, columns, i);
    hide ZeroFields, Picked;
    if columns[i] in v { AddedThenSet(ZeroFields(), Picked(v, columns[..i]), columns[i], v[columns[i]]); }
  }

  lemma AddedThenSet(a: Values, b: Values, c: Column, v: Value)
    ensures a + b[c := v] == (a + b)[c := v]
  {
  }

  lemma ReadsOneMore(lib: JsonLibrary, v: Values, columns: seq<Column>, values: seq<Holder>, i: nat)
    requires Readable(lib, v, columns) && AllAssigned(lib, v, columns, values) && i < |columns|
    ensures AssignOne(lib, WithColumns(v, columns[..i]), columns[i], values[i]) == Go(WithColumns(v, columns[..i + 1]))
  {
    hide NewHolder, AssignOne, KindOf, KindOfValue, Inverts, StoredCell, WithColumns, SetIf, Filled;
    var c := columns[i];
    assert c in columns && c !in columns[..i];
    if KindOf(c) == JsonKind { ZeroJson(v, columns[..i], c); }
    ReadsWhatWasWritten(lib, WithColumns(v, columns[..i]), v, c);
    OneMoreColumn(v, columns, i);
  }

  /** Decoding any duplicate-free list of columns into a new entity sets exactly these columns. */
  lemma {:induction false} ReadsColumns(lib: JsonLibrary, v: Values, columns: seq<Column>, values: seq<Holder>, i: nat)
    requires Readable(lib, v, columns) && AllAssigned(lib, v, columns, values) && i <= |columns| == |values|
    ensures AssignAll(lib, State(ZeroFields(), map[]), columns[..i], values) == Go(WithColumns(v, columns[..i]))
    decreases i
  {
    hide Readable, AllAssigned, ZeroFields, AssignOne;
    if i == 0 {
      assert Picked(v, columns[..0]) == map[];
    } else {
      ReadsColumns(lib, v, columns, values, i - 1);
      ReadsOneMore(lib, v, columns, values, i - 1);
      assert columns[..i][..i - 1] == columns[..i - 1];
    }
  }

  lemma CellIsStored(lib: JsonLibrary, v: Values, id: int, c: Column)
    requires Typed(v) && c in COLUMNS
    ensures CellOf(lib, id, SpecOf(v), c) == StoredCell(lib, v[Id := Integer(id)], c)
  {
    hide COLUMNS, SpecOf, CellOf, KindOf, KindOfValue;
    RowHoldsMutation(lib, id, v, c);
  }

  lemma ReadIs(lib: JsonLibrary, v: Values, columns: seq<Column>, values: seq<Holder>)
    requires |values| == |columns|
    requires forall i :: 0 <= i < |columns| ==>
        Filled(NewHolder(columns[i]), StoredCell(lib, v, columns[i])) == Some(values[i])
    ensures AllAssigned(lib, v, columns, values)
  {
  }

  lemma NoColumnTwice()
    ensures NoDuplicates(COLUMNS)
  {
    hide COLUMNS;
    forall i, j | 0 <= i < j < |COLUMNS|
      ensures COLUMNS[i] != COLUMNS[j]
    {
      ColumnOfSlot(i);
      ColumnOfSlot(j);
    }
  }

  lemma TypedWithId(v: Values, id: int)
    requires Typed(v)
    ensures
      var w := v[Id := Integer(id)];
      forall c :: c in w ==> KindOfValue(w[c]) == KindOf(c)
  {
  }

  /** Writing an account and reading any columns of its row back into a new entity, in any order but each at
      most once, sets exactly these columns to what was written. */
  lemma WriteThenReadSome(lib: JsonLibrary, id: int, v: Values, columns: seq<Column>, values: seq<Holder>)
    requires Inverts(lib) && Typed(v) && NoDuplicates(columns) && (forall c :: c in columns ==> c in COLUMNS)
    requires |values| == |columns| && forall i :: 0 <= i < |columns| ==>
      Filled(NewHolder(columns[i]), CellOf(lib, id, SpecOf(v), columns[i])) == Some(values[i])
    ensures AssignAll(lib, State(ZeroFields(), map[]), columns, values) ==
        Go(WithColumns(v[Id := Integer(id)], columns))
  {
    var w := v[Id := Integer(id)];
    TypedWithId(v, id);
    hide COLUMNS, Inverts, KindOf, KindOfValue, CellOf, SpecOf, Filled, NewHolder, AssignAll, WithColumns,
      ZeroFields, StoredCell;
    forall i | 0 <= i < |columns|
      ensures CellOf(lib, id, SpecOf(v), columns[i]) == StoredCell(lib, w, columns[i]) && !columns[i].Other?
    {
      assert columns[i] in columns;
      CellIsStored(lib, v, id, columns[i]);
      TableColumns(columns[i]);
    }
    assert Readable(lib, w, columns);
    ReadIs(lib, w, columns, values);
    ReadsColumns(lib, w, columns, values, |columns|);
    assert columns[..|columns|] == columns;
  }

  lemma AllColumnsPicked(v: Values, id: int)
    requires Typed(v)
    ensures WithColumns(v[Id := Integer(id)], COLUMNS) == State(NodeFields(v)[Id := Integer(id)], map[])
  {
    hide COLUMNS, ZeroFields, KindOf, KindOfValue;
    TableColumns(Id);
    var w := v[Id := Integer(id)];
    assert Picked(w, COLUMNS) == w;
  }

  /** Every cell of a stored row fits the holder that scanValues chooses for its column. */
  lemma StoredRowFits(lib: JsonLibrary, id: int, v: Values, c: Column)
    requires Inverts(lib) && Typed(v) && c in COLUMNS
    ensures Filled(NewHolder(c), CellOf(lib, id, SpecOf(v), c)).Some?
  {
    TypedWithId(v, id);
    CellIsStored(lib, v, id, c);
    TableColumns(c);
    hide COLUMNS;
    var s := State(map[c := Document(NullJson)], map[]);
    ReadsWhatWasWritten(lib, s, v[Id := Integer(id)], c);
  }

  /** Read back over all columns, the row gives the entity createSpec returned, with the id the database
      chose. */
  lemma WriteThenRead(lib: JsonLibrary, id: int, v: Values, values: seq<Holder>)
    requires Inverts(lib) && Typed(v) && |values| == |COLUMNS|
    requires forall i :: 0 <= i < |COLUMNS| ==>
      Filled(NewHolder(COLUMNS[i]), CellOf(lib, id, SpecOf(v), COLUMNS[i])) == Some(values[i])
    ensures AssignAll(lib, State(ZeroFields(), map[]), COLUMNS, values) ==
        Go(State(NodeFields(v)[Id := Integer(id)], map[]))
  {
    hide *;
    NoColumnTwice();
    AllColumnsPicked(v, id);
    WriteThenReadSome(lib, id, v, COLUMNS, values);
  }
}
