/** Parsed JSON values and the gates through which normalization looks at them. */
module Json {
  import opened Wrappers

  /** A number is finite, or a literal too large to be one. */
  datatype Json =
    | Null
    | Bool(b: bool)
    | Num(value: real)
    | Overflow
    | Str(s: string)
    | Arr(items: seq<Json>)
    | Obj(members: map<string, Json>)

  type Members = map<string, Json>

  const MAX_SAFE := 9007199254740991.0

  function Field(o: Members, key: string): Option<Json> {
    if key in o then Some(o[key]) else None
  }

  /** The member as a keyed record: neither absent, primitive, null nor an array. */
  function ObjectAt(o: Members, key: string): Option<Members> {
    if key in o && o[key].Obj? then Some(o[key].members) else None
  }

  function StringAt(o: Members, key: string): Option<string> {
    if key in o && o[key].Str? then Some(o[key].s) else None
  }

  predicate IsString(o: Members, key: string, s: string) { key in o && o[key] == Str(s) }
  predicate IsTrue(o: Members, key: string) { key in o && o[key] == Bool(true) }
  predicate IsFalse(o: Members, key: string) { key in o && o[key] == Bool(false) }

  /** A whole, nonnegative, exactly representable count. */
  function SafeCount(v: Json): Option<real> {
    if v.Num? && 0.0 <= v.value <= MAX_SAFE && v.value == v.value.Floor as real then Some(v.value) else None
  }

  function NonNegNum(v: Json): Option<real> {
    if v.Num? && v.value >= 0.0 then Some(v.value) else None
  }

  /** Present and not of the wanted kind; an absent member is fine. */
  predicate PresentNotObject(o: Members, key: string) { key in o && !o[key].Obj? }
  predicate CountInvalid(o: Members, key: string) { key in o && SafeCount(o[key]).None? }
  predicate CostInvalid(o: Members, key: string) { key in o && NonNegNum(o[key]).None? }

  /** One line of provider output: blank, something that is not a top-level object, or a record. */
  datatype Line = Blank | NotObject | Record(members: Members)

  /** The exact bytes a line came from. */
  datatype FrameRef = FrameRef(sha256: string, size: nat, offset: nat, index: nat)

  datatype Item = Item(line: Line, frame: Option<FrameRef>)

  function NonBlank(items: seq<Item>): seq<Item> {
    if items == [] then []
    else
      var rest := NonBlank(items[..|items| - 1]);
      var x := items[|items| - 1];
      if x.line.Blank? then rest else rest + [x]
  }

  /** The typed terminal object every turn is reduced to. */
  datatype NormalizedTurn = NormalizedTurn(
    finalText: string,
    hasTerminal: bool,
    success: bool,
    subtype: Option<string>,
    explicitLimit: bool,
    usd: Option<real>,
    inputTokens: Option<real>,
    outputTokens: Option<real>,
    terminalFrame: Option<FrameRef>,
    limitFrame: Option<FrameRef>)

  // ---- a schema language, to say what a validated record is ----

  datatype Shape =
    | Text
    | Word(words: set<string>)
    | Flag
    | Count          // whole and exactly representable
    | Amount         // not negative
    | WholeOrNull
    | AnyRecord
    | ListOf(item: Shape)
    | RecordOf(fields: seq<Member>)

  datatype Member = Member(key: string, shape: Shape, required: bool)

  function Required(key: string, shape: Shape): Member { Member(key, shape, true) }
  function Optional(key: string, shape: Shape): Member { Member(key, shape, false) }

  predicate Fits(v: Json, shape: Shape)
    decreases shape
  {
    match shape
    case Text => v.Str?
    case Word(words) => v.Str? && v.s in words
    case Flag => v.Bool?
    case Count => v.Num? && 0.0 <= v.value <= 9007199254740991.0 && v.value.Floor as real == v.value
    case Amount => v.Num? && v.value >= 0.0
    case WholeOrNull => v.Null? || (v.Num? && v.value.Floor as real == v.value)
    case AnyRecord => v.Obj?
    case ListOf(item) => v.Arr? && forall i :: 0 <= i < |v.items| ==> Fits(v.items[i], item)
    case RecordOf(fields) => v.Obj? && forall f :: f in fields ==> FieldFits(v.members, f)
  }

  predicate FieldFits(o: Members, f: Member)
    decreases f
  {
    if f.key in o then Fits(o[f.key], f.shape) else !f.required
  }
}
