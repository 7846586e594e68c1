/** Documents of the record store: the shape `model_dump()` gives a pydantic
    model and that the store keeps, plus the field readers pydantic applies
    when it validates `Model(**data)`. */
module Documents {
  import opened Wrappers

  /** A stored datetime. `ServerTimestamp` is the store's opaque sentinel;
      `Instant` is a resolved time carrying its ISO-8601 rendering. */
  datatype Timestamp = ServerTimestamp | Instant(iso: string)

  datatype Value =
    | Null
    | Bool(b: bool)
    | Str(s: string)
    | Int(i: int)
    | Num(r: real)
    | List(items: seq<Value>)
    | Obj(fields: map<string, Value>)
    | Time(t: Timestamp)

  type Document = map<string, Value>

  datatype Collection = TranscriptionsCollection | QueueCollection | ClinicalRecordCollection

  /** The collection names the repositories address. */
  function CollectionName(c: Collection): string {
    match c
    case TranscriptionsCollection => "transcriptions"
    case QueueCollection => "queue"
    case ClinicalRecordCollection => "clinical_record"
  }

  /** A document address: `<collection>/<session_id>`. */
  datatype Key = Key(collection: Collection, id: string)

  function Path(k: Key): string {
    CollectionName(k.collection) + "/" + k.id
  }

  /** Python truthiness of a JSON-like value. */
  predicate Truthy(v: Value) {
    match v
    case Null => false
    case Bool(b) => b
    case Str(s) => s != ""
    case Int(i) => i != 0
    case Num(r) => r != 0.0
    case List(items) => items != []
    case Obj(fields) => fields != map[]
    case Time(_) => true
  }

  /** Python truthiness of an optional string (`None` and `""` are falsy). */
  predicate TruthyStr(o: Option<string>) {
    o.Some? && o.value != ""
  }

  /** `dict.get(name)`: the value when present, `None` otherwise. */
  function Get(d: Document, name: string): Value {
    if name in d then d[name] else Null
  }

  // ---- encoders used by model_dump ----

  function OptStr(o: Option<string>): Value {
    match o
    case None => Null
    case Some(s) => Str(s)
  }

  function OptNum(o: Option<real>): Value {
    match o
    case None => Null
    case Some(r) => Num(r)
  }

  function OptInt(o: Option<int>): Value {
    match o
    case None => Null
    case Some(i) => Int(i)
  }

  function OptTime(o: Option<Timestamp>): Value {
    match o
    case None => Null
    case Some(t) => Time(t)
  }

  /** The fields a processing-status update writes: the status value, the
      error message (empty unless one is given) and a server `updated_at`. */
  function StatusUpdate(status: string, errorMessage: string): (d: Document)
    ensures d.Keys == {"status", "error_message", "updated_at"}
    ensures d["status"] == Str(status) && d["error_message"] == Str(errorMessage)
    ensures d["updated_at"] == Time(ServerTimestamp)
  {
    map["status" := Str(status), "error_message" := Str(errorMessage), "updated_at" := Time(ServerTimestamp)]
  }

  // ---- pydantic field validation ----

  function MissingField(name: string): string {
    name + ": Field required"
  }

  function WrongType(name: string): string {
    name + ": Input should be of the declared type"
  }

  /** A required `str` field. */
  function ReqStr(d: Document, name: string): (r: Result<string>)
    ensures r.Success? <==> name in d && d[name].Str?
    ensures r.Success? ==> d[name] == Str(r.value)
  {
    if name !in d then Failure(MissingField(name))
    else if d[name].Str? then Success(d[name].s)
    else Failure(WrongType(name))
  }

  /** An `Optional[str]` field; `hasDefault` tells whether the declaration gives
      `default=None` (may be absent) or not (must be supplied, may be None). */
  function OptStrField(d: Document, name: string, hasDefault: bool): (r: Result<Option<string>>)
    ensures r.Success? <==> (name in d ==> d[name].Null? || d[name].Str?) && (name !in d ==> hasDefault)
    ensures r.Success? && name in d ==> d[name] == OptStr(r.value)
    ensures r.Success? && name !in d ==> r.value == None
  {
    if name !in d then (if hasDefault then Success(None) else Failure(MissingField(name)))
    else match d[name]
      case Null => Success(None)
      case Str(s) => Success(Some(s))
      case _ => Failure(WrongType(name))
  }

  /** The number a bool stands for when a numeric field accepts it. */
  function BoolInt(b: bool): int {
    if b then 1 else 0
  }

  /** A float with no fractional part, which an int field accepts. */
  predicate Integral(x: real) {
    x.Floor as real == x
  }

  /** An `Optional[float]` field with `default=None`. Ints and bools are
      accepted as floats, as pydantic's lax mode accepts them. */
  function OptNumField(d: Document, name: string): (r: Result<Option<real>>)
    ensures r.Success? <==> name !in d || d[name].Null? || d[name].Num? || d[name].Int? || d[name].Bool?
    ensures r.Success? && name in d && (d[name].Null? || d[name].Num?) ==> d[name] == OptNum(r.value)
    ensures r.Success? && name in d && d[name].Int? ==> r.value == Some(d[name].i as real)
    ensures r.Success? && name in d && d[name].Bool? ==> r.value == Some(BoolInt(d[name].b) as real)
  {
    if name !in d then Success(None)
    else match d[name]
      case Null => Success(None)
      case Num(x) => Success(Some(x))
      case Int(i) => Success(Some(i as real))
      case Bool(b) => Success(Some(BoolInt(b) as real))
      case _ => Failure(WrongType(name))
  }

  /** A required `float` field; ints and bools are accepted as floats. */
  function ReqNum(d: Document, name: string): (r: Result<real>)
    ensures r.Success? <==> name in d && (d[name].Num? || d[name].Int? || d[name].Bool?)
    ensures r.Success? && d[name].Num? ==> d[name] == Num(r.value)
    ensures r.Success? && d[name].Int? ==> r.value == d[name].i as real
    ensures r.Success? && d[name].Bool? ==> r.value == BoolInt(d[name].b) as real
  {
    if name !in d then Failure(MissingField(name))
    else match d[name]
      case Num(x) => Success(x)
      case Int(i) => Success(i as real)
      case Bool(b) => Success(BoolInt(b) as real)
      case _ => Failure(WrongType(name))
  }

  /** An `Optional[int]` field with `default=None`. Bools and floats with no
      fractional part are accepted, as pydantic's lax mode accepts them. */
  function OptIntField(d: Document, name: string): (r: Result<Option<int>>)
    ensures r.Success? <==> name !in d || d[name].Null? || d[name].Int? || d[name].Bool?
                            || (d[name].Num? && Integral(d[name].r))
    ensures r.Success? && name in d && (d[name].Null? || d[name].Int?) ==> d[name] == OptInt(r.value)
    ensures r.Success? && name in d && d[name].Bool? ==> r.value == Some(BoolInt(d[name].b))
    ensures r.Success? && name in d && d[name].Num? ==> r.value.Some? && r.value.value as real == d[name].r
  {
    if name !in d then Success(None)
    else match d[name]
      case Null => Success(None)
      case Int(i) => Success(Some(i))
      case Bool(b) => Success(Some(BoolInt(b)))
      case Num(x) => if Integral(x) then Success(Some(x.Floor)) else Failure(WrongType(name))
      case _ => Failure(WrongType(name))
  }

  /** An `Optional[datetime]` field with `default=None`. */
  function OptTimeField(d: Document, name: string): (r: Result<Option<Timestamp>>)
    ensures r.Success? <==> name !in d || d[name].Null? || d[name].Time?
    ensures r.Success? && name in d ==> d[name] == OptTime(r.value)
  {
    if name !in d then Success(None)
    else match d[name]
      case Null => Success(None)
      case Time(t) => Success(Some(t))
      case _ => Failure(WrongType(name))
  }

  /** An `Optional[List[str]]` field with `default=None`. */
  function OptStrListField(d: Document, name: string): (r: Result<Option<seq<string>>>)
    ensures r.Success? && name in d ==> d[name] == OptStrList(r.value)
  {
    if name !in d then Success(None)
    else match d[name]
      case Null => Success(None)
      case List(items) =>
        (match StrItems(items)
         case Success(ss) => Success(Some(ss))
         case Failure(e) => Failure(name + ": " + e))
      case _ => Failure(WrongType(name))
  }

  function StrList(ss: seq<string>): (v: seq<Value>)
    ensures |v| == |ss|
  {
    if ss == [] then [] else [Str(ss[0])] + StrList(ss[1..])
  }

  function OptStrList(o: Option<seq<string>>): Value {
    match o
    case None => Null
    case Some(ss) => List(StrList(ss))
  }

  function StrItems(items: seq<Value>): (r: Result<seq<string>>)
    ensures r.Success? ==> StrList(r.value) == items
  {
    if items == [] then Success([])
    else if !items[0].Str? then Failure("list item should be a string")
    else match StrItems(items[1..])
      case Success(rest) => Success([items[0].s] + rest)
      case Failure(e) => Failure(e)
  }

  lemma {:induction false} StrItemsOfStrList(ss: seq<string>)
    ensures StrItems(StrList(ss)) == Success(ss)
  {
    if ss != [] {
      StrItemsOfStrList(ss[1..]);
      var v := StrList(ss);
      assert v == [Str(ss[0])] + StrList(ss[1..]);
      assert v[0] == Str(ss[0]) && v[1..] == StrList(ss[1..]);
      assert [ss[0]] + ss[1..] == ss;
    }
  }
}
