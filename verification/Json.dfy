/** `JSON.stringify(value, keys)` with a list of property names, a parser for what it prints, and what it
    preserves: the projection of the value on that list, at every depth. A number is represented by its
    printed text. */
module Json {
  import opened Results

  datatype Json =
    | Null
    | Bool(b: bool)
    | Num(text: string)
    | Str(s: string)
    | Arr(items: Items)
    | Obj(fields: Fields)

  datatype Items = NoItems | Item(head: Json, tail: Items)

  /** The own properties of an object in insertion order. */
  datatype Fields = NoFields | Field(key: string, value: Json, rest: Fields)

  function Lookup(fields: Fields, key: string): (r: Option<Json>)
    ensures r.Some? ==> r.value < fields
  {
    match fields
    case NoFields => None
    case Field(k, v, rest) => if k == key then Some(v) else Lookup(rest, key)
  }

  function KeyList(fields: Fields): seq<string> {
    match fields case NoFields => [] case Field(k, _, rest) => [k] + KeyList(rest)
  }

  // ----- Printing ---------------------------------------------------------------------------------

  function HexDigit(n: nat): char
    requires n < 16
  {
    "0123456789abcdef"[n]
  }

  /** Section 25.5.2.3 of ECMA-262, QuoteJSONString. */
  function EscapeChar(c: char): string {
    if c == '\"' then "\\\""
    else if c == '\\' then "\\\\"
    else if c as int == 8 then "\\b"
    else if c as int == 9 then "\\t"
    else if c as int == 10 then "\\n"
    else if c as int == 12 then "\\f"
    else if c as int == 13 then "\\r"
    else if c as int < 32 then "\\u00" + [HexDigit(c as int / 16), HexDigit(c as int % 16)]
    else [c]
  }

  function Escape(s: string): string {
    if s == "" then "" else EscapeChar(s[0]) + Escape(s[1..])
  }

  function Quote(s: string): string { "\"" + Escape(s) + "\"" }

  /** Section 25.5.2.2, SerializeJSONProperty, with `keys` as the property list: at every depth an
      object shows the listed properties it has, in the order of the list. */
  function Serialize(v: Json, keys: seq<string>): string
    decreases v, 0
  {
    match v
    case Null => "null"
    case Bool(b) => if b then "true" else "false"
    case Num(text) => text
    case Str(s) => Quote(s)
    case Arr(items) => "[" + SerializeItems(items, keys, false)
    case Obj(fields) => "{" + SerializeMembers(fields, keys, keys, false)
  }

  function SerializeItems(items: Items, keys: seq<string>, comma: bool): string {
    match items
    case NoItems => "]"
    case Item(v, rest) => (if comma then "," else "") + Serialize(v, keys) + SerializeItems(rest, keys, true)
  }

  function SerializeMembers(fields: Fields, todo: seq<string>, keys: seq<string>, comma: bool): string
    decreases fields, |todo| + 1
  {
    if todo == [] then "}"
    else
      match Lookup(fields, todo[0])
      case None => SerializeMembers(fields, todo[1..], keys, comma)
      case Some(v) => (if comma then "," else "") + Quote(todo[0]) + ":" + Serialize(v, keys)
                      + SerializeMembers(fields, todo[1..], keys, true)
  }

  /** What is left of a value when every object keeps only the listed properties, in list order. */
  function Project(v: Json, keys: seq<string>): Json
    decreases v, 0
  {
    match v
    case Arr(items) => Arr(ProjectItems(items, keys))
    case Obj(fields) => Obj(ProjectFields(fields, keys, keys))
    case _ => v
  }

  function ProjectItems(items: Items, keys: seq<string>): Items {
    match items case NoItems => NoItems case Item(v, rest) => Item(Project(v, keys), ProjectItems(rest, keys))
  }

  function ProjectFields(fields: Fields, todo: seq<string>, keys: seq<string>): Fields
    decreases fields, |todo| + 1
  {
    if todo == [] then NoFields
    else
      match Lookup(fields, todo[0])
      case None => ProjectFields(fields, todo[1..], keys)
      case Some(v) => Field(todo[0], Project(v, keys), ProjectFields(fields, todo[1..], keys))
  }

  /** The plain printer: every property, in insertion order. */
  function Show(v: Json): string {
    match v
    case Null => "null"
    case Bool(b) => if b then "true" else "false"
    case Num(text) => text
    case Str(s) => Quote(s)
    case Arr(items) => "[" + ShowItems(items, false)
    case Obj(fields) => "{" + ShowFields(fields, false)
  }

  function ShowItems(items: Items, comma: bool): string {
    match items
    case NoItems => "]"
    case Item(v, rest) => (if comma then "," else "") + Show(v) + ShowItems(rest, true)
  }

  function ShowFields(fields: Fields, comma: bool): string {
    match fields
    case NoFields => "}"
    case Field(k, v, rest) => (if comma then "," else "") + Quote(k) + ":" + Show(v) + ShowFields(rest, true)
  }

  lemma {:induction false} SerializeShowsProjection(v: Json, keys: seq<string>)
    ensures Serialize(v, keys) == Show(Project(v, keys))
    decreases v, 0
  {
    match v
    case Arr(items) => SerializeItemsShows(items, keys, false);
    case Obj(fields) => SerializeMembersShows(fields, keys, keys, false);
    case _ =>
  }

  lemma {:induction false} SerializeItemsShows(items: Items, keys: seq<string>, comma: bool)
    ensures SerializeItems(items, keys, comma) == ShowItems(ProjectItems(items, keys), comma)
  {
    match items
    case NoItems =>
    case Item(v, rest) =>
      SerializeShowsProjection(v, keys);
      SerializeItemsShows(rest, keys, true);
  }

  lemma {:induction false} SerializeMembersShows(fields: Fields, todo: seq<string>, keys: seq<string>, comma: bool)
    ensures SerializeMembers(fields, todo, keys, comma) == ShowFields(ProjectFields(fields, todo, keys), comma)
    decreases fields, |todo| + 1
  {
    if todo != [] {
      match Lookup(fields, todo[0])
      case None => SerializeMembersShows(fields, todo[1..], keys, comma);
      case Some(v) =>
        SerializeShowsProjection(v, keys);
        SerializeMembersShows(fields, todo[1..], keys, true);
    }
  }

  // ----- Parsing ----------------------------------------------------------------------------------

  datatype Parsed<+T> = Fail | Got(value: T, rest: string)

  predicate IsNumberChar(c: char) { '0' <= c <= '9' || c == '-' || c == '+' || c == '.' || c == 'e' }

  /** Number::toString yields a digit or a minus sign followed by these characters. */
  predicate IsNumberText(text: string) {
    text != "" && ('0' <= text[0] <= '9' || text[0] == '-') && forall c | c in text :: IsNumberChar(c)
  }

  function TakeNumber(s: string): (string, string) {
    if s == "" || !IsNumberChar(s[0]) then ("", s)
    else var (digits, rest) := TakeNumber(s[1..]); ([s[0]] + digits, rest)
  }

  function HexValue(c: char): Option<nat> {
    if '0' <= c <= '9' then Some(c as nat - '0' as nat)
    else if 'a' <= c <= 'f' then Some(c as nat - 'a' as nat + 10)
    else None
  }

  /** One possibly escaped character. */
  function ParseChar(s: string): (r: Parsed<char>)
    ensures r.Got? ==> |r.rest| < |s|
  {
    if s == "" || s[0] == '\"' then Fail
    else if s[0] != '\\' then Got(s[0], s[1..])
    else if |s| < 2 then Fail
    else
      match s[1]
      case '\"' => Got('\"', s[2..])
      case '\\' => Got('\\', s[2..])
      case 'b' => Got(8 as char, s[2..])
      case 't' => Got(9 as char, s[2..])
      case 'n' => Got(10 as char, s[2..])
      case 'f' => Got(12 as char, s[2..])
      case 'r' => Got(13 as char, s[2..])
      case 'u' =>
        if |s| < 6 || s[2] != '0' || s[3] != '0' || HexValue(s[4]).None? || HexValue(s[5]).None? then Fail
        else Got((HexValue(s[4]).value * 16 + HexValue(s[5]).value) as char, s[6..])
      case _ => Fail
  }

  /** The rest of a string literal after its opening quote. */
  function ParseString(s: string): (r: Parsed<string>)
    ensures r.Got? ==> |r.rest| < |s|
    decreases |s|
  {
    if s != "" && s[0] == '\"' then Got("", s[1..])
    else
      match ParseChar(s)
      case Fail => Fail
      case Got(c, rest) =>
        match ParseString(rest)
        case Fail => Fail
        case Got(cs, end) => Got([c] + cs, end)
  }

  predicate StartsWith(s: string, prefix: string) { prefix <= s }

  function Parse(s: string): (r: Parsed<Json>)
    ensures r.Got? ==> |r.rest| < |s|
    decreases |s|, 0
  {
    if s == "" then Fail
    else if s[0] == '{' then
      match ParseFields(s[1..], false) case Fail => Fail case Got(fields, rest) => Got(Obj(fields), rest)
    else if s[0] == '[' then
      match ParseItems(s[1..], false) case Fail => Fail case Got(items, rest) => Got(Arr(items), rest)
    else if s[0] == '\"' then
      match ParseString(s[1..]) case Fail => Fail case Got(t, rest) => Got(Str(t), rest)
    else if StartsWith(s, "null") then Got(Null, s[4..])
    else if StartsWith(s, "true") then Got(Bool(true), s[4..])
    else if StartsWith(s, "false") then Got(Bool(false), s[5..])
    else if '0' <= s[0] <= '9' || s[0] == '-' then
      var (digits, rest) := TakeNumber(s);
      TakeNumberShrinks(s);
      Got(Num(digits), rest)
    else Fail
  }

  /** The rest of an array after its opening bracket, or after an element when `comma`. */
  function ParseItems(s: string, comma: bool): (r: Parsed<Items>)
    ensures r.Got? ==> |r.rest| < |s|
    decreases |s|, 1
  {
    if s == "" then Fail
    else if s[0] == ']' then Got(NoItems, s[1..])
    else
      var body := if comma then s[1..] else s;
      if comma && s[0] != ',' then Fail
      else
        match Parse(body)
        case Fail => Fail
        case Got(v, rest) =>
          match ParseItems(rest, true)
          case Fail => Fail
          case Got(vs, end) => Got(Item(v, vs), end)
  }

  function ParseFields(s: string, comma: bool): (r: Parsed<Fields>)
    ensures r.Got? ==> |r.rest| < |s|
    decreases |s|, 1
  {
    if s == "" then Fail
    else if s[0] == '}' then Got(NoFields, s[1..])
    else
      var body := if comma then s[1..] else s;
      if (comma && s[0] != ',') || body == "" || body[0] != '\"' then Fail
      else
        match ParseString(body[1..])
        case Fail => Fail
        case Got(k, afterKey) =>
          if afterKey == "" || afterKey[0] != ':' then Fail
          else
            match Parse(afterKey[1..])
            case Fail => Fail
            case Got(v, rest) =>
              match ParseFields(rest, true)
              case Fail => Fail
              case Got(fs, end) => Got(Field(k, v, fs), end)
  }

  lemma {:induction false} TakeNumberShrinks(s: string)
    requires s != "" && IsNumberChar(s[0])
    ensures |TakeNumber(s).1| < |s|
  {
    if |s| > 1 && IsNumberChar(s[1]) {
      TakeNumberShrinks(s[1..]);
    }
  }

  // ----- Parsing what was printed -----------------------------------------------------------------

  /** All number texts are numbers. */
  predicate Printable(v: Json) {
    match v
    case Num(text) => IsNumberText(text)
    case Arr(items) => PrintableItems(items)
    case Obj(fields) => PrintableFields(fields)
    case _ => true
  }

  predicate PrintableItems(items: Items) {
    match items case NoItems => true case Item(v, rest) => Printable(v) && PrintableItems(rest)
  }

  predicate PrintableFields(fields: Fields) {
    match fields case NoFields => true case Field(_, v, rest) => Printable(v) && PrintableFields(rest)
  }

  lemma ParseEscapedChar(c: char, rest: string)
    ensures ParseChar(EscapeChar(c) + rest) == Got(c, rest)
    ensures EscapeChar(c) != "" && EscapeChar(c)[0] != '\"'
  {
    var e := EscapeChar(c);
    assert (e + rest)[|e|..] == rest;
    if 13 < c as int < 32 || c as int < 8 || c as int == 11 {
      HexRoundTrip(c as int / 16);
      HexRoundTrip(c as int % 16);
    }
  }

  lemma HexRoundTrip(n: nat)
    requires n < 16
    ensures HexValue(HexDigit(n)) == Some(n)
  {
  }

  lemma ParseStringStep(s: string, c: char, after: string, cs: string, end: string)
    requires s != "" && s[0] != '\"' && ParseChar(s) == Got(c, after) && ParseString(after) == Got(cs, end)
    ensures ParseString(s) == Got([c] + cs, end)
  {
  }

  lemma EscapedText(s: string, rest: string)
    requires s != ""
    ensures Escape(s) + "\"" + rest == EscapeChar(s[0]) + (Escape(s[1..]) + "\"" + rest)
  {
  }

  lemma {:induction false} ParseQuoted(s: string, rest: string)
    ensures ParseString(Escape(s) + "\"" + rest) == Got(s, rest)
  {
    if s == "" {
      assert Escape(s) + "\"" + rest == "\"" + rest;
    } else {
      var tail := Escape(s[1..]) + "\"" + rest;
      EscapedText(s, rest);
      ParseEscapedChar(s[0], tail);
      ParseQuoted(s[1..], rest);
      ParseStringStep(EscapeChar(s[0]) + tail, s[0], tail, s[1..], rest);
      assert s == [s[0]] + s[1..];
    }
  }

  lemma {:induction false} TakeNumberText(text: string, rest: string)
    requires forall c | c in text :: IsNumberChar(c)
    requires rest == "" || !IsNumberChar(rest[0])
    ensures TakeNumber(text + rest) == (text, rest)
  {
    if text == "" {
      assert text + rest == rest;
    } else {
      assert (text + rest)[1..] == text[1..] + rest;
      TakeNumberText(text[1..], rest);
      assert text == [text[0]] + text[1..];
    }
  }

  /** A context in which a printed value can be read back: nothing that could continue a number. */
  predicate Delimits(rest: string) { rest == "" || !IsNumberChar(rest[0]) }

  lemma ParseBraced(s: string, fields: Fields, rest: string)
    requires ParseFields(s, false) == Got(fields, rest)
    ensures Parse("{" + s) == Got(Obj(fields), rest)
  {
    assert ("{" + s)[1..] == s;
  }

  lemma ParseBracketed(s: string, items: Items, rest: string)
    requires ParseItems(s, false) == Got(items, rest)
    ensures Parse("[" + s) == Got(Arr(items), rest)
  {
    assert ("[" + s)[1..] == s;
  }

  lemma ParseLiteral(s: string, t: string, rest: string)
    requires ParseString(s) == Got(t, rest)
    ensures Parse("\"" + s) == Got(Str(t), rest)
  {
    assert ("\"" + s)[1..] == s;
  }

  lemma ParseKeyword(rest: string)
    ensures Parse("null" + rest) == Got(Null, rest)
    ensures Parse("true" + rest) == Got(Bool(true), rest)
    ensures Parse("false" + rest) == Got(Bool(false), rest)
  {
    assert ("null" + rest)[4..] == rest && StartsWith("null" + rest, "null");
    assert ("true" + rest)[4..] == rest && StartsWith("true" + rest, "true");
    assert ("false" + rest)[5..] == rest && StartsWith("false" + rest, "false");
    assert ("true" + rest)[0] != "null"[0] && ("false" + rest)[0] != "null"[0] && ("false" + rest)[0] != "true"[0];
  }

  lemma ParseNumber(text: string, rest: string)
    requires IsNumberText(text) && Delimits(rest)
    ensures Parse(text + rest) == Got(Num(text), rest)
  {
    TakeNumberText(text, rest);
    assert (text + rest)[0] == text[0];
  }

  lemma {:induction false} ParseShown(v: Json, rest: string)
    requires Printable(v) && Delimits(rest)
    ensures Parse(Show(v) + rest) == Got(v, rest)
    decreases v
  {
    match v
    case Null => ParseKeyword(rest);
    case Bool(b) => ParseKeyword(rest);
    case Num(text) => ParseNumber(text, rest);
    case Str(t) =>
      ParseQuoted(t, rest);
      ParseLiteral(Escape(t) + "\"" + rest, t, rest);
      Regroup("\"", Escape(t), "\"", rest);
    case Arr(items) =>
      ParseShownItems(items, false, rest);
      ParseBracketed(ShowItems(items, false) + rest, items, rest);
      Regroup("", "[", ShowItems(items, false), rest);
    case Obj(fields) =>
      ParseShownFields(fields, false, rest);
      ParseBraced(ShowFields(fields, false) + rest, fields, rest);
      Regroup("", "{", ShowFields(fields, false), rest);
  }

  lemma ShowStarts(v: Json)
    requires Printable(v)
    ensures Show(v) != "" && Show(v)[0] != ']' && Show(v)[0] != '}'
  {
  }

  lemma ShowItemsStarts(items: Items)
    ensures ShowItems(items, true) != "" && !IsNumberChar(ShowItems(items, true)[0])
  {
  }

  lemma ShowFieldsStarts(fields: Fields)
    ensures ShowFields(fields, true) != "" && !IsNumberChar(ShowFields(fields, true)[0])
  {
  }

  function Separator(comma: bool): string { if comma then "," else "" }

  lemma ParseItemStep(body: string, comma: bool, v: Json, after: string, vs: Items, rest: string)
    requires body != "" && body[0] != ']'
    requires Parse(body) == Got(v, after) && ParseItems(after, true) == Got(vs, rest)
    ensures ParseItems(Separator(comma) + body, comma) == Got(Item(v, vs), rest)
  {
    if comma {
      assert ("," + body)[1..] == body;
    } else {
      assert "" + body == body;
    }
  }

  lemma ParseFieldStep(key: string, comma: bool, k: string, text: string, v: Json, after: string, fs: Fields,
      rest: string)
    requires ParseString(key) == Got(k, ":" + text) && Parse(text) == Got(v, after)
        && ParseFields(after, true) == Got(fs, rest)
    ensures ParseFields(Separator(comma) + ("\"" + key), comma) == Got(Field(k, v, fs), rest)
  {
    var body := "\"" + key;
    assert body[1..] == key;
    assert (":" + text)[1..] == text;
    if comma {
      assert ("," + body)[1..] == body;
    } else {
      assert "" + body == body;
    }
  }

  lemma {:induction false} ParseShownItems(items: Items, comma: bool, rest: string)
    requires PrintableItems(items)
    ensures ParseItems(ShowItems(items, comma) + rest, comma) == Got(items, rest)
    decreases items
  {
    match items
    case NoItems => assert ("]" + rest)[1..] == rest;
    case Item(v, tail) =>
      var after := ShowItems(tail, true) + rest;
      ShowStarts(v);
      ShowItemsStarts(tail);
      ParseShown(v, after);
      ParseShownItems(tail, true, rest);
      ParseItemStep(Show(v) + after, comma, v, after, tail, rest);
      ItemText(v, tail, comma, rest);
  }

  lemma ItemText(v: Json, tail: Items, comma: bool, rest: string)
    ensures ShowItems(Item(v, tail), comma) + rest == Separator(comma) + (Show(v) + (ShowItems(tail, true) + rest))
  {
    Regroup(Separator(comma), Show(v), ShowItems(tail, true), rest);
  }

  lemma FieldText(k: string, v: Json, tail: Fields, comma: bool, rest: string)
    ensures ShowFields(Field(k, v, tail), comma) + rest
            == Separator(comma) + ("\"" + (Escape(k) + "\"" + (":" + (Show(v) + (ShowFields(tail, true) + rest)))))
  {
    var colon := Separator(comma) + Quote(k) + ":";
    Regroup(colon, Show(v), ShowFields(tail, true), rest);
    Regroup(Separator(comma), Quote(k), ":", Show(v) + (ShowFields(tail, true) + rest));
    Regroup("\"", Escape(k), "\"", ":" + (Show(v) + (ShowFields(tail, true) + rest)));
  }

  lemma Regroup(a: string, b: string, c: string, d: string)
    ensures a + b + c + d == a + (b + (c + d))
    ensures a + b + c + d == a + (b + c + d)
    ensures a == "" ==> b + c + d == b + (c + d)
  {
  }

  lemma {:induction false} ParseShownFields(fields: Fields, comma: bool, rest: string)
    requires PrintableFields(fields)
    ensures ParseFields(ShowFields(fields, comma) + rest, comma) == Got(fields, rest)
    decreases fields
  {
    match fields
    case NoFields => assert ("}" + rest)[1..] == rest;
    case Field(k, v, tail) =>
      var after := ShowFields(tail, true) + rest;
      var text := Show(v) + after;
      var key := Escape(k) + "\"" + (":" + text);
      ShowFieldsStarts(tail);
      ParseQuoted(k, ":" + text);
      ParseShown(v, after);
      ParseShownFields(tail, true, rest);
      ParseFieldStep(key, comma, k, text, v, after, tail, rest);
      FieldText(k, v, tail, comma, rest);
  }

  lemma {:induction false} ProjectPrintable(v: Json, keys: seq<string>)
    requires Printable(v)
    ensures Printable(Project(v, keys))
    decreases v, 0
  {
    match v
    case Arr(items) => ProjectItemsPrintable(items, keys);
    case Obj(fields) => ProjectFieldsPrintable(fields, keys, keys);
    case _ =>
  }

  lemma {:induction false} ProjectItemsPrintable(items: Items, keys: seq<string>)
    requires PrintableItems(items)
    ensures PrintableItems(ProjectItems(items, keys))
  {
    match items
    case NoItems =>
    case Item(v, rest) =>
      ProjectPrintable(v, keys);
      ProjectItemsPrintable(rest, keys);
  }

  lemma {:induction false} LookupPrintable(fields: Fields, key: string)
    requires PrintableFields(fields)
    ensures forall v | Lookup(fields, key) == Some(v) :: Printable(v)
  {
    match fields case NoFields => case Field(_, _, rest) => LookupPrintable(rest, key);
  }

  lemma {:induction false} ProjectFieldsPrintable(fields: Fields, todo: seq<string>, keys: seq<string>)
    requires PrintableFields(fields)
    ensures PrintableFields(ProjectFields(fields, todo, keys))
    decreases fields, |todo| + 1
  {
    if todo != [] {
      LookupPrintable(fields, todo[0]);
      match Lookup(fields, todo[0]) {
        case None =>
        case Some(v) => ProjectPrintable(v, keys);
      }
      ProjectFieldsPrintable(fields, todo[1..], keys);
    }
  }

  /** Reading a serialized value back yields exactly its projection. */
  lemma ParseSerialized(v: Json, keys: seq<string>)
    requires Printable(v)
    ensures Parse(Serialize(v, keys)) == Got(Project(v, keys), "")
  {
    SerializeShowsProjection(v, keys);
    ProjectPrintable(v, keys);
    ParseShown(Project(v, keys), "");
    assert Show(Project(v, keys)) + "" == Show(Project(v, keys));
  }

  /** So two values serialize alike exactly when their projections are equal. */
  lemma SerializeInjectiveOnProjection(v: Json, w: Json, keys: seq<string>)
    requires Printable(v) && Printable(w)
    ensures Serialize(v, keys) == Serialize(w, keys) <==> Project(v, keys) == Project(w, keys)
  {
    ParseSerialized(v, keys);
    ParseSerialized(w, keys);
    SerializeShowsProjection(v, keys);
    SerializeShowsProjection(w, keys);
  }

  // ----- Independence of insertion order ----------------------------------------------------------

  /** Equal up to the order of properties, at every depth. */
  ghost predicate SameData(v: Json, w: Json)
    decreases v, 0
  {
    match (v, w)
    case (Arr(xs), Arr(ys)) => SameItems(xs, ys)
    case (Obj(fs), Obj(gs)) =>
      (forall k :: k in KeyList(fs) <==> k in KeyList(gs)) && SameFields(fs, gs)
    case _ => v == w
  }

  ghost predicate SameItems(xs: Items, ys: Items) {
    match (xs, ys)
    case (NoItems, NoItems) => true
    case (Item(v, xs'), Item(w, ys')) => SameData(v, w) && SameItems(xs', ys')
    case _ => false
  }

  /** Every property the two objects share has the same data in both. */
  ghost predicate SameFields(fs: Fields, gs: Fields) {
    forall k | k in KeyList(fs) && Lookup(fs, k).Some?
        && Lookup(gs, k).Some? :: SameData(Lookup(fs, k).value, Lookup(gs, k).value)
  }

  lemma {:induction false} LookupDefined(fields: Fields, key: string)
    ensures Lookup(fields, key).Some? <==> key in KeyList(fields)
  {
    match fields case NoFields => case Field(_, _, rest) => LookupDefined(rest, key);
  }

  lemma {:induction false} SameDataProjectsAlike(v: Json, w: Json, keys: seq<string>)
    requires SameData(v, w)
    ensures Project(v, keys) == Project(w, keys)
    decreases v, 0
  {
    match (v, w)
    case (Arr(xs), Arr(ys)) => SameItemsProjectAlike(xs, ys, keys);
    case (Obj(fs), Obj(gs)) => SameFieldsProjectAlike(fs, gs, keys, keys);
    case _ =>
  }

  lemma {:induction false} SameItemsProjectAlike(xs: Items, ys: Items, keys: seq<string>)
    requires SameItems(xs, ys)
    ensures ProjectItems(xs, keys) == ProjectItems(ys, keys)
  {
    match (xs, ys)
    case (Item(v, xs'), Item(w, ys')) =>
      SameDataProjectsAlike(v, w, keys);
      SameItemsProjectAlike(xs', ys', keys);
    case _ =>
  }

  lemma {:induction false} SameFieldsProjectAlike(fs: Fields, gs: Fields, todo: seq<string>, keys: seq<string>)
    requires forall k :: k in KeyList(fs) <==> k in KeyList(gs)
    requires SameFields(fs, gs)
    ensures ProjectFields(fs, todo, keys) == ProjectFields(gs, todo, keys)
    decreases fs, |todo| + 1
  {
    if todo != [] {
      LookupDefined(fs, todo[0]);
      LookupDefined(gs, todo[0]);
      if Lookup(fs, todo[0]).Some? {
        SameDataProjectsAlike(Lookup(fs, todo[0]).value, Lookup(gs, todo[0]).value, keys);
      }
      SameFieldsProjectAlike(fs, gs, todo[1..], keys);
    }
  }

  /** Values with the same data serialize alike, however their properties are ordered. */
  lemma SerializeIgnoresOrder(v: Json, w: Json, keys: seq<string>)
    requires SameData(v, w)
    ensures Serialize(v, keys) == Serialize(w, keys)
  {
    SameDataProjectsAlike(v, w, keys);
    SerializeShowsProjection(v, keys);
    SerializeShowsProjection(w, keys);
  }
}
