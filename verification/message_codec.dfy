/** The messages the chat-history route stores, and two ways of turning one
    into text and back. A message is any JSON value the request body can
    carry (floating-point numbers aside). `PyStr` is what the save route
    does, Python's `str()`; `Serialise`/`Parse` is a JSON-style text with a
    structural parser, which round-trips on every message. */
module MessageCodec {
  import opened Http
  import ChatHistory

  datatype Value =
    | Null
    | Bool(b: bool)
    | Int(n: int)
    | Str(s: string)
    | List(items: seq<Value>)
    | Dict(fields: seq<Field>)

  datatype Field = Field(key: string, value: Value)

  predicate IsDigit(c: char) {
    '0' <= c <= '9'
  }

  ghost predicate AllDigits(d: string) {
    forall i :: 0 <= i < |d| ==> IsDigit(d[i])
  }

  function DigitChar(d: nat): (c: char)
    requires d < 10
    ensures IsDigit(c) && c as int - '0' as int == d
  {
    ('0' as int + d) as char
  }

  /** Decimal digits of `n`, most significant first, with no leading zero. */
  function NatToString(n: nat): (r: string)
    ensures |r| > 0 && AllDigits(r)
    decreases n
  {
    if n < 10 then [DigitChar(n)] else NatToString(n / 10) + [DigitChar(n % 10)]
  }

  /** The number a string of decimal digits denotes. */
  function DigitsValue(d: string): nat
    requires AllDigits(d)
    decreases |d|
  {
    if d == [] then 0 else DigitsValue(d[..|d| - 1]) * 10 + (d[|d| - 1] as int - '0' as int)
  }

  lemma {:induction false} NatToStringValue(n: nat)
    ensures DigitsValue(NatToString(n)) == n
    decreases n
  {
    if n >= 10 {
      var d := NatToString(n);
      assert d[..|d| - 1] == NatToString(n / 10);
      NatToStringValue(n / 10);
    }
  }

  /** Python's decimal rendering of an integer. */
  function IntToString(n: int): string {
    if n < 0 then "-" + NatToString(-n) else NatToString(n)
  }

  // ---- The codec as the save route writes it ----

  /** Python's `repr` of a message. Strings are shown in single quotes;
      Python's choice of quote and its escapes inside strings are not
      modelled. */
  function PyRepr(v: Value): string
    decreases v
  {
    match v
    case Null => "None"
    case Bool(b) => if b then "True" else "False"
    case Int(n) => IntToString(n)
    case Str(s) => "'" + s + "'"
    case List(items) => "[" + PyReprItems(items) + "]"
    case Dict(fields) => "{" + PyReprFields(fields) + "}"
  }

  function PyReprItems(vs: seq<Value>): string
    decreases vs
  {
    if vs == [] then ""
    else PyRepr(vs[0]) + (if |vs| == 1 then "" else ", " + PyReprItems(vs[1..]))
  }

  function PyReprFields(fs: seq<Field>): string
    decreases fs
  {
    if fs == [] then ""
    else "'" + fs[0].key + "': " + PyRepr(fs[0].value) + (if |fs| == 1 then "" else ", " + PyReprFields(fs[1..]))
  }

  /** Python's `str()` of a message: a string is its own text, anything
      else its `repr`. */
  function PyStr(v: Value): string {
    match v
    case Str(s) => s
    case _ => PyRepr(v)
  }

  /** The codec of `encrypt_message`/`decrypt_message`: `str()` on the way
      in and whatever `eval` does on the way out. */
  function AsWrittenCodec(parse: string -> Option<Value>): ChatHistory.Codec<Value> {
    ChatHistory.Codec(PyStr, parse)
  }

  /** The number 2 and the string "2" are stored as the same text. */
  lemma AsWrittenCollision()
    ensures PyStr(Int(2)) == PyStr(Str("2")) && Int(2) != Str("2")
  {
  }

  /** Whatever `parse` does, the as-written codec loses some message. */
  lemma AsWrittenCodecFails(parse: string -> Option<Value>)
    ensures !ChatHistory.CodecRoundTrips(AsWrittenCodec(parse))
  {
    var k := AsWrittenCodec(parse);
    AsWrittenCollision();
    if parse("2") == Some(Int(2)) {
      assert k.parse(k.serialise(Str("2"))) != Some(Str("2"));
    } else {
      assert k.parse(k.serialise(Int(2))) != Some(Int(2));
    }
  }

  /** Through the store: with a perfect cipher, some one-message chat saved
      with the as-written codec does not read back as saved. */
  lemma AsWrittenSaveLosesMessage(c: ChatHistory.Cipher, parse: string -> Option<Value>,
                                  store: ChatHistory.Store, email: string)
    requires ChatHistory.CipherRoundTrips(c)
    ensures exists m :: ChatHistory.Load(c, AsWrittenCodec(parse), ChatHistory.Save(c, AsWrittenCodec(parse), store, email, [m]), email) != Ok([m])
  {
    var k := AsWrittenCodec(parse);
    AsWrittenCollision();
    var m := if parse("2") == Some(Int(2)) then Str("2") else Int(2);
    var saved := ChatHistory.Save(c, k, store, email, [m]);
    assert c.decrypt(c.encrypt(PyStr(m))) == Some(PyStr(m));
    assert ChatHistory.DecryptMessage(c, k, saved[email][0]) != Some(m);
    assert ChatHistory.Load(c, k, saved, email) != Ok([m]);
  }

  // ---- The JSON-style codec ----

  /** String contents with `"` and `\` escaped by a backslash. */
  function Escape(s: string): string
    decreases |s|
  {
    if s == [] then []
    else (if s[0] == '"' || s[0] == '\\' then ['\\', s[0]] else [s[0]]) + Escape(s[1..])
  }

  function Quote(s: string): string {
    "\"" + Escape(s) + "\""
  }

  function Serialise(v: Value): (r: string)
    ensures |r| > 0 && r[0] != ']' && r[0] != '}'
    decreases v
  {
    match v
    case Null => "null"
    case Bool(b) => if b then "true" else "false"
    case Int(n) => IntToString(n)
    case Str(s) => Quote(s)
    case List(items) => "[" + SerialiseItems(items) + "]"
    case Dict(fields) => "{" + SerialiseFields(fields) + "}"
  }

  function SerialiseItems(vs: seq<Value>): string
    decreases vs
  {
    if vs == [] then ""
    else Serialise(vs[0]) + (if |vs| == 1 then "" else "," + SerialiseItems(vs[1..]))
  }

  function SerialiseFields(fs: seq<Field>): string
    decreases fs
  {
    if fs == [] then ""
    else Quote(fs[0].key) + ":" + Serialise(fs[0].value) + (if |fs| == 1 then "" else "," + SerialiseFields(fs[1..]))
  }

  /** The contents of a string literal whose opening quote has been read,
      and the text after its closing quote. */
  function ParseString(s: string): (r: Option<(string, string)>)
    ensures r.Some? ==> |r.value.1| < |s|
    decreases |s|
  {
    if s == [] then None
    else if s[0] == '"' then Some(([], s[1..]))
    else if s[0] == '\\' then
      if |s| >= 2 && (s[1] == '"' || s[1] == '\\') then
        match ParseString(s[2..])
        case None => None
        case Some((t, rest)) => Some(([s[1]] + t, rest))
      else None
    else
      match ParseString(s[1..])
      case None => None
      case Some((t, rest)) => Some(([s[0]] + t, rest))
  }

  /** The length of the run of digits `s` starts with. */
  function DigitRun(s: string): (n: nat)
    ensures n <= |s| && AllDigits(s[..n])
    ensures n == |s| || !IsDigit(s[n])
    decreases |s|
  {
    if s != [] && IsDigit(s[0]) then
      var n := 1 + DigitRun(s[1..]);
      assert s[..n] == [s[0]] + s[1..][..n - 1];
      n
    else 0
  }

  function ParseNat(s: string): (r: Option<(nat, string)>)
    ensures r.Some? ==> |r.value.1| < |s|
  {
    var n := DigitRun(s);
    if n == 0 then None else Some((DigitsValue(s[..n]), s[n..]))
  }

  /** One value at the front of `s`, and the text after it; the first
      character decides which form is read. */
  function ParseValue(s: string): (r: Option<(Value, string)>)
    ensures r.Some? ==> |r.value.1| < |s|
    decreases |s|, 1
  {
    if s == [] then None
    else if s[0] == '[' then ParseList(s)
    else if s[0] == '{' then ParseDict(s)
    else if s[0] == '"' then ParseStr(s)
    else if s[0] == '-' || IsDigit(s[0]) then ParseInt(s)
    else ParseKeyword(s)
  }

  /** `null`, `true` or `false`. */
  function ParseKeyword(s: string): (r: Option<(Value, string)>)
    ensures r.Some? ==> |r.value.1| < |s|
  {
    if |s| >= 4 && s[..4] == "null" then Some((Null, s[4..]))
    else if |s| >= 4 && s[..4] == "true" then Some((Bool(true), s[4..]))
    else if |s| >= 5 && s[..5] == "false" then Some((Bool(false), s[5..]))
    else None
  }

  /** An optional minus sign and one or more digits. */
  function ParseInt(s: string): (r: Option<(Value, string)>)
    requires s != []
    ensures r.Some? ==> |r.value.1| < |s|
  {
    if s[0] == '-' then
      match ParseNat(s[1..])
      case None => None
      case Some((n, rest)) => Some((Int(-(n as int)), rest))
    else
      match ParseNat(s)
      case None => None
      case Some((n, rest)) => Some((Int(n), rest))
  }

  /** A string literal. */
  function ParseStr(s: string): (r: Option<(Value, string)>)
    requires s != [] && s[0] == '"'
    ensures r.Some? ==> |r.value.1| < |s|
  {
    match ParseString(s[1..])
    case None => None
    case Some((t, rest)) => Some((Str(t), rest))
  }

  /** A list: `[]`, or `[` then items. */
  function ParseList(s: string): (r: Option<(Value, string)>)
    requires s != [] && s[0] == '['
    ensures r.Some? ==> |r.value.1| < |s|
    decreases |s|, 0
  {
    if |s| >= 2 && s[1] == ']' then Some((List([]), s[2..]))
    else
      match ParseItems(s[1..])
      case None => None
      case Some((vs, rest)) => Some((List(vs), rest))
  }

  /** An object: `{}`, or `{` then fields. */
  function ParseDict(s: string): (r: Option<(Value, string)>)
    requires s != [] && s[0] == '{'
    ensures r.Some? ==> |r.value.1| < |s|
    decreases |s|, 0
  {
    if |s| >= 2 && s[1] == '}' then Some((Dict([]), s[2..]))
    else
      match ParseFields(s[1..])
      case None => None
      case Some((fs, rest)) => Some((Dict(fs), rest))
  }

  /** Values separated by commas up to and including the closing `]`. */
  function ParseItems(s: string): (r: Option<(seq<Value>, string)>)
    ensures r.Some? ==> |r.value.1| < |s|
    decreases |s|, 2
  {
    match ParseValue(s)
    case None => None
    case Some((v, rest)) =>
      if rest == [] then None
      else if rest[0] == ']' then Some(([v], rest[1..]))
      else if rest[0] == ',' then
        match ParseItems(rest[1..])
        case None => None
        case Some((vs, rest')) => Some(([v] + vs, rest'))
      else None
  }

  /** One `"key":value` pair. */
  function ParseField(s: string): (r: Option<(Field, string)>)
    ensures r.Some? ==> |r.value.1| < |s|
    decreases |s|, 1
  {
    if s == [] || s[0] != '"' then None
    else
      match ParseString(s[1..])
      case None => None
      case Some((key, afterKey)) =>
        if afterKey == [] || afterKey[0] != ':' then None
        else
          match ParseValue(afterKey[1..])
          case None => None
          case Some((v, rest)) => Some((Field(key, v), rest))
  }

  /** `"key":value` pairs separated by commas up to and including the
      closing `}`. */
  function ParseFields(s: string): (r: Option<(seq<Field>, string)>)
    ensures r.Some? ==> |r.value.1| < |s|
    decreases |s|, 2
  {
    match ParseField(s)
    case None => None
    case Some((f, rest)) =>
      if rest == [] then None
      else if rest[0] == '}' then Some(([f], rest[1..]))
      else if rest[0] == ',' then
        match ParseFields(rest[1..])
        case None => None
        case Some((fs, rest')) => Some(([f] + fs, rest'))
      else None
  }

  /** A whole text that is exactly one value. */
  function Parse(s: string): Option<Value> {
    match ParseValue(s)
    case None => None
    case Some((v, rest)) => if rest == [] then Some(v) else None
  }

  /** The codec the chat store should use. */
  function JsonCodec(): ChatHistory.Codec<Value> {
    ChatHistory.Codec(Serialise, Parse)
  }

  /** What may follow a value without being read as part of it. */
  predicate Follows(rest: string) {
    rest == [] || !IsDigit(rest[0])
  }

  lemma {:induction false} EscapeRoundTrip(t: string, rest: string)
    ensures ParseString(Escape(t) + "\"" + rest) == Some((t, rest))
    decreases |t|
  {
    var s := Escape(t) + "\"" + rest;
    if t == [] {
      assert s == "\"" + rest;
    } else if t[0] == '"' || t[0] == '\\' {
      assert s == ['\\', t[0]] + (Escape(t[1..]) + "\"" + rest);
      assert s[2..] == Escape(t[1..]) + "\"" + rest;
      EscapeRoundTrip(t[1..], rest);
      assert [t[0]] + t[1..] == t;
    } else {
      assert s == [t[0]] + (Escape(t[1..]) + "\"" + rest);
      assert s[1..] == Escape(t[1..]) + "\"" + rest;
      EscapeRoundTrip(t[1..], rest);
      assert [t[0]] + t[1..] == t;
    }
  }

  lemma {:induction false} DigitRunOf(d: string, rest: string)
    requires AllDigits(d) && Follows(rest)
    ensures DigitRun(d + rest) == |d|
    decreases |d|
  {
    if d == [] {
      assert d + rest == rest;
    } else {
      assert (d + rest)[1..] == d[1..] + rest;
      DigitRunOf(d[1..], rest);
    }
  }

  lemma NatRoundTrip(n: nat, rest: string)
    requires Follows(rest)
    ensures ParseNat(NatToString(n) + rest) == Some((n, rest))
  {
    var d := NatToString(n);
    DigitRunOf(d, rest);
    assert (d + rest)[..|d|] == d;
    assert (d + rest)[|d|..] == rest;
    NatToStringValue(n);
  }

  lemma KeywordRoundTrip(v: Value, rest: string)
    requires v.Null? || v.Bool?
    ensures ParseValue(Serialise(v) + rest) == Some((v, rest))
  {
  }

  lemma IntRoundTrip(n: int, rest: string)
    requires Follows(rest)
    ensures ParseValue(Serialise(Int(n)) + rest) == Some((Int(n), rest))
  {
    var s := Serialise(Int(n)) + rest;
    if n < 0 {
      assert s == "-" + (NatToString(-n) + rest);
      assert s[1..] == NatToString(-n) + rest;
      NatRoundTrip(-n, rest);
    } else {
      assert s == NatToString(n) + rest;
      NatRoundTrip(n, rest);
    }
  }

  lemma StrRoundTrip(t: string, rest: string)
    ensures ParseValue(Serialise(Str(t)) + rest) == Some((Str(t), rest))
  {
    var s := Serialise(Str(t)) + rest;
    assert s == "\"" + (Escape(t) + "\"" + rest);
    assert s[1..] == Escape(t) + "\"" + rest;
    EscapeRoundTrip(t, rest);
  }

  /** Parsing the text of a value gives back the value and leaves the rest. */
  lemma {:induction false} ParseSerialise(v: Value, rest: string)
    requires Follows(rest)
    ensures ParseValue(Serialise(v) + rest) == Some((v, rest))
    decreases v, 0
  {
    match v
    case Null => KeywordRoundTrip(v, rest);
    case Bool(_) => KeywordRoundTrip(v, rest);
    case Int(n) => IntRoundTrip(n, rest);
    case Str(t) => StrRoundTrip(t, rest);
    case List(items) => ListRoundTrip(items, rest);
    case Dict(fields) => DictRoundTrip(fields, rest);
  }

  lemma {:induction false} ListRoundTrip(items: seq<Value>, rest: string)
    ensures ParseValue(Serialise(List(items)) + rest) == Some((List(items), rest))
    decreases items, 1
  {
    var s := Serialise(List(items)) + rest;
    if items == [] {
      assert s == "[]" + rest;
      assert s[2..] == rest;
    } else {
      assert s == "[" + (SerialiseItems(items) + "]" + rest);
      assert s[1..] == SerialiseItems(items) + "]" + rest;
      ItemsRoundTrip(items, rest);
    }
  }

  lemma {:induction false} DictRoundTrip(fields: seq<Field>, rest: string)
    ensures ParseValue(Serialise(Dict(fields)) + rest) == Some((Dict(fields), rest))
    decreases fields, 2
  {
    var s := Serialise(Dict(fields)) + rest;
    if fields == [] {
      assert s == "{}" + rest;
      assert s[2..] == rest;
    } else {
      assert s == "{" + (SerialiseFields(fields) + "}" + rest);
      assert s[1..] == SerialiseFields(fields) + "}" + rest;
      FieldsRoundTrip(fields, rest);
    }
  }

  lemma {:induction false} ItemsRoundTrip(vs: seq<Value>, rest: string)
    requires vs != []
    ensures ParseItems(SerialiseItems(vs) + "]" + rest) == Some((vs, rest))
    decreases vs, 0
  {
    var after := if |vs| == 1 then "]" + rest else "," + (SerialiseItems(vs[1..]) + "]" + rest);
    assert SerialiseItems(vs) + "]" + rest == Serialise(vs[0]) + after;
    ParseSerialise(vs[0], after);
    if |vs| > 1 {
      assert after[1..] == SerialiseItems(vs[1..]) + "]" + rest;
      ItemsRoundTrip(vs[1..], rest);
      assert [vs[0]] + vs[1..] == vs;
    } else {
      assert after[1..] == rest;
      assert [vs[0]] == vs;
    }
  }

  lemma {:induction false} FieldRoundTrip(f: Field, after: string)
    requires Follows(after)
    ensures ParseField(Quote(f.key) + ":" + Serialise(f.value) + after) == Some((f, after))
    decreases f, 0
  {
    var afterKey := ":" + (Serialise(f.value) + after);
    var s := Quote(f.key) + ":" + Serialise(f.value) + after;
    assert s == "\"" + (Escape(f.key) + "\"" + afterKey);
    assert s[1..] == Escape(f.key) + "\"" + afterKey;
    EscapeRoundTrip(f.key, afterKey);
    assert afterKey[1..] == Serialise(f.value) + after;
    ParseSerialise(f.value, after);
  }

  lemma {:induction false} FieldsRoundTrip(fs: seq<Field>, rest: string)
    requires fs != []
    ensures ParseFields(SerialiseFields(fs) + "}" + rest) == Some((fs, rest))
    decreases fs, 1
  {
    var f := fs[0];
    var after := if |fs| == 1 then "}" + rest else "," + (SerialiseFields(fs[1..]) + "}" + rest);
    assert SerialiseFields(fs) + "}" + rest == Quote(f.key) + ":" + Serialise(f.value) + after;
    FieldRoundTrip(f, after);
    if |fs| > 1 {
      assert after[1..] == SerialiseFields(fs[1..]) + "}" + rest;
      FieldsRoundTrip(fs[1..], rest);
      assert [f] + fs[1..] == fs;
    } else {
      assert after[1..] == rest;
      assert [f] == fs;
    }
  }

  /** The JSON-style codec round-trips on every message. */
  lemma JsonCodecRoundTrips()
    ensures ChatHistory.CodecRoundTrips(JsonCodec())
  {
    forall m: Value ensures Parse(Serialise(m)) == Some(m) {
      assert Serialise(m) + [] == Serialise(m);
      ParseSerialise(m, []);
    }
  }

  /** With the JSON-style codec every chat reads back exactly as saved. */
  lemma SaveLoadMessages(c: ChatHistory.Cipher, store: ChatHistory.Store, email: string, msgs: seq<Value>)
    requires ChatHistory.CipherRoundTrips(c)
    ensures ChatHistory.Load(c, JsonCodec(), ChatHistory.Save(c, JsonCodec(), store, email, msgs), email) == Ok(msgs)
  {
    JsonCodecRoundTrips();
    ChatHistory.LoadAfterSave(c, JsonCodec(), store, email, msgs);
  }
}
