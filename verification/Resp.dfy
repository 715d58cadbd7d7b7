// The wire codec of the Redis client: writeCommand prints commands, readRESP parses
// replies of the Redis serialization protocol (RESP2).
module Resp {
  import opened Collections

  newtype byte = x: int | 0 <= x < 256

  type Bytes = seq<byte>

  const CR: byte := 13
  const LF: byte := 10
  const CRLF: Bytes := [13, 10]
  const PLUS: byte := 43
  const MINUS: byte := 45
  const COLON: byte := 58
  const DOLLAR: byte := 36
  const STAR: byte := 42
  const ZERO: byte := 48

  const MAX_INT: int := 0x7fff_ffff_ffff_ffff

  predicate InInt64(n: int) {
    -MAX_INT - 1 <= n <= MAX_INT
  }

  // ------------------------------------------------------------ numbers

  function Digits(n: nat): (r: Bytes)
    ensures r != [] && AllDigits(r)
  {
    if n < 10 then [(n as byte) + ZERO] else Digits(n / 10) + [((n % 10) as byte) + ZERO]
  }

  // %d
  function Format(n: int): Bytes {
    if n < 0 then [MINUS] + Digits(-n) else Digits(n)
  }

  predicate AllDigits(s: Bytes) {
    forall i :: 0 <= i < |s| ==> ZERO <= s[i] <= 57
  }

  function DigitsValue(s: Bytes): nat
    requires AllDigits(s)
  {
    if s == [] then 0 else DigitsValue(s[..|s| - 1]) * 10 + (s[|s| - 1] - ZERO) as nat
  }

  // strconv.Atoi and ParseInt(s, 10, 64): an optional sign, digits, the 64-bit range.
  function ParseNumber(s: Bytes): Option<int> {
    var signed := s != [] && (s[0] == PLUS || s[0] == MINUS);
    var digits := if signed then s[1..] else s;
    if digits == [] || !AllDigits(digits) then None
    else
      var n: int := if signed && s[0] == MINUS then 0 - DigitsValue(digits) else DigitsValue(digits);
      if InInt64(n) then Some(n) else None
  }

  lemma {:induction false} DigitsBack(n: nat)
    ensures DigitsValue(Digits(n)) == n
  {
    var d := Digits(n);
    if n < 10 {
      assert d[..0] == [];
    } else {
      DigitsBack(n / 10);
      assert d[..|d| - 1] == Digits(n / 10);
    }
  }

  lemma NumberBack(n: int)
    requires InInt64(n)
    ensures ParseNumber(Format(n)) == Some(n)
  {
    if n < 0 {
      DigitsBack(-n);
      assert Format(n)[1..] == Digits(-n);
    } else {
      DigitsBack(n);
      assert ZERO <= Digits(n)[0];
    }
  }

  // ------------------------------------------------------------ parsing

  datatype Value = Nil | Int(n: int) | Str(s: Bytes) | List(items: seq<Value>)

  datatype Failure = EndOfInput | ServerError(text: Bytes) | BadNumber | BadPrefix

  // A negative size below -1, or one whose buffer size leaves the 64-bit range, makes the
  // parser panic when it allocates.
  datatype Reply<T> = Ok(value: T, rest: Bytes) | Err(failure: Failure) | Panic

  // ReadString('\n') without its line end.
  function Line(s: Bytes): (r: Reply<Bytes>)
    ensures r.Ok? ==> |r.rest| < |s|
    ensures !r.Panic?
  {
    var k := IndexOfLf(s);
    if k == |s| then Err(EndOfInput)
    else Ok(if k > 0 && s[k - 1] == CR then s[..k - 1] else s[..k], s[k + 1..])
  }

  function IndexOfLf(s: Bytes): (k: nat)
    ensures k <= |s| && (k < |s| ==> s[k] == LF)
    ensures forall i :: 0 <= i < k ==> s[i] != LF
  {
    if s == [] || s[0] == LF then 0 else 1 + IndexOfLf(s[1..])
  }

  function Number(s: Bytes): (r: Reply<int>)
    ensures r.Ok? ==> |r.rest| < |s|
    ensures !r.Panic?
  {
    match Line(s)
    case Err(f) => Err(f)
    case Panic => Panic
    case Ok(text, rest) =>
      match ParseNumber(text)
      case None => Err(BadNumber)
      case Some(n) => Ok(n, rest)
  }

  function Read(s: Bytes): (r: Reply<Value>)
    ensures r.Ok? ==> |r.rest| < |s|
    decreases |s|, 0
  {
    if s == [] then Err(EndOfInput)
    else if s[0] == PLUS then
      match Line(s[1..]) { case Err(f) => Err(f) case Panic => Panic case Ok(text, rest) => Ok(Str(text), rest) }
    else if s[0] == MINUS then
      match Line(s[1..]) { case Err(f) => Err(f) case Panic => Panic case Ok(text, _) => Err(ServerError(text)) }
    else if s[0] == COLON then
      match Number(s[1..]) { case Err(f) => Err(f) case Panic => Panic case Ok(n, rest) => Ok(Int(n), rest) }
    else if s[0] == DOLLAR then
      match Number(s[1..]) { case Err(f) => Err(f) case Panic => Panic case Ok(n, rest) => ReadBulk(n, rest) }
    else if s[0] == STAR then
      match Number(s[1..])
      case Err(f) => Err(f)
      case Panic => Panic
      case Ok(n, rest) =>
        if n == -1 then Ok(Nil, rest)
        else if n < -1 then Panic
        else match ReadMany(n, rest) {
          case Err(f) => Err(f)
          case Panic => Panic
          case Ok(items, tail) => Ok(List(items), tail)
        }
    else Err(BadPrefix)
  }

  function ReadBulk(n: int, s: Bytes): (r: Reply<Value>)
    ensures r.Ok? ==> |r.rest| <= |s|
  {
    if n == -1 then Ok(Nil, s)
    else if n < -1 || n + 2 > MAX_INT then Panic
    else if |s| < n + 2 then Err(EndOfInput)
    else Ok(Str(s[..n]), s[n + 2..])
  }

  function ReadMany(n: nat, s: Bytes): (r: Reply<seq<Value>>)
    ensures r.Ok? ==> |r.rest| <= |s| && |r.value| == n
    decreases |s|, 1
  {
    if n == 0 then Ok([], s)
    else match Read(s)
      case Err(f) => Err(f)
      case Panic => Panic
      case Ok(v, rest) =>
        match ReadMany(n - 1, rest)
        case Err(f) => Err(f)
        case Panic => Panic
        case Ok(items, tail) => Ok([v] + items, tail)
  }

  // ------------------------------------------------------------ the source's reader and writer

  // A bufio.Reader over the bytes the server will ever send.
  class Reader {
    const input: Bytes
    var pos: nat

    ghost predicate Valid()
      reads this
    {
      pos <= |input|
    }

    function Rest(): Bytes
      requires Valid()
      reads this
    {
      input[pos..]
    }

    constructor (input: Bytes)
      ensures Valid() && Rest() == input
    {
      this.input := input;
      pos := 0;
    }

    // Up to the line end, which is consumed and dropped.
    method ReadLine() returns (r: Option<Bytes>)
      requires Valid()
      modifies this
      ensures Valid()
      ensures match Line(old(Rest())) {
        case Ok(text, rest) => r == Some(text) && Rest() == rest
        case _ => r == None
      }
    {
      var start := pos;
      ghost var before := Rest();
      while pos < |input| && input[pos] != LF
        invariant start <= pos <= |input|
        invariant forall i :: start <= i < pos ==> input[i] != LF
      {
        pos := pos + 1;
      }
      FirstLf(before, pos - start);
      ghost var k := pos - start;
      assert before[..k] == input[start..pos];
      assert k > 0 ==> before[..k - 1] == input[start..pos][..k - 1];
      if pos == |input| {
        return None;
      }
      var value := input[start..pos];
      pos := pos + 1;
      if |value| > 0 && value[|value| - 1] == CR {
        value := value[..|value| - 1];
      }
      r := Some(value);
    }

    method ReadNumber() returns (r: Reply<int>)
      requires Valid()
      modifies this
      ensures Valid()
      ensures match Number(old(Rest())) {
        case Ok(n, rest) => r == Ok(n, []) && Rest() == rest
        case Err(f) => r == Err(f)
        case Panic => false
      }
    {
      var text := ReadLine();
      if text.None? {
        return Err(EndOfInput);
      }
      var n := ParseNumber(text.value);
      return if n.None? then Err(BadNumber) else Ok(n.value, []);
    }

    // The payload of a bulk string and the two bytes after it, whatever they are.
    method ReadText(length: int) returns (r: Reply<Value>)
      requires Valid()
      modifies this
      ensures Valid()
      ensures match ReadBulk(length, old(Rest())) {
        case Ok(v, rest) => r == Ok(v, []) && Rest() == rest
        case Err(f) => r == Err(f)
        case Panic => r == Panic
      }
    {
      if length == -1 {
        return Ok(Nil, []);
      }
      if length < -1 || length + 2 > MAX_INT {
        return Panic;
      }
      if |input| - pos < length + 2 {
        return Err(EndOfInput);
      }
      var text := input[pos..pos + length];
      assert text == Rest()[..length];
      pos := pos + length + 2;
      return Ok(Str(text), []);
    }

    // readRESP.  The result carries no rest: the position of the reader is the rest.
    method ReadResp() returns (r: Reply<Value>)
      requires Valid()
      modifies this
      ensures Valid()
      ensures match Read(old(Rest())) {
        case Ok(v, rest) => r == Ok(v, []) && Rest() == rest
        case Err(f) => r == Err(f)
        case Panic => r == Panic
      }
      decreases |input| - pos, 0
    {
      if pos == |input| {
        return Err(EndOfInput);
      }
      ghost var all := Rest();
      var prefix := input[pos];
      pos := pos + 1;
      assert Rest() == all[1..];
      if prefix == PLUS || prefix == MINUS {
        var text := ReadLine();
        if text.None? {
          return Err(EndOfInput);
        }
        return if prefix == PLUS then Ok(Str(text.value), []) else Err(ServerError(text.value));
      }
      if prefix != COLON && prefix != DOLLAR && prefix != STAR {
        return Err(BadPrefix);
      }
      var number := ReadNumber();
      if !number.Ok? {
        return Err(number.failure);
      }
      var length := number.value;
      if prefix == COLON {
        return Ok(Int(length), []);
      }
      if prefix == DOLLAR {
        r := ReadText(length);
        return;
      }
      if length == -1 {
        return Ok(Nil, []);
      }
      if length < -1 {
        return Panic;
      }
      var items := ReadItems(length);
      match items
      case Ok(values, _) => return Ok(List(values), []);
      case Err(f) => return Err(f);
      case Panic => return Panic;
    }

    // The loop that fills the result of an array reply.
    method ReadItems(length: nat) returns (r: Reply<seq<Value>>)
      requires Valid()
      modifies this
      ensures Valid()
      ensures match ReadMany(length, old(Rest())) {
        case Ok(items, rest) => r == Ok(items, []) && Rest() == rest
        case Err(f) => r == Err(f)
        case Panic => r == Panic
      }
      decreases |input| - pos, 1
    {
      hide Read, ReadMany;
      var items: seq<Value> := [];
      ghost var goal := ReadMany(length, Rest());
      ghost var left: nat := length;
      PrependNone(goal);
      while |items| < length
        invariant Valid() && |items| + left == length && |input| - pos <= old(|input| - pos)
        invariant Prepended(items, ReadMany(left, Rest())) == goal
        decreases length - |items|
      {
        RoundOfMany(items, left, Rest());
        var item := ReadResp();
        if item.Err? {
          return Err(item.failure);
        }
        if item.Panic? {
          return Panic;
        }
        items := items + [item.value];
        left := left - 1;
      }
      PrependEnd(items, Rest());
      return Ok(items, []);
    }
  }

  ghost function Prepended(items: seq<Value>, r: Reply<seq<Value>>): Reply<seq<Value>> {
    if r.Ok? then Ok(items + r.value, r.rest) else r
  }

  lemma PrependNone(r: Reply<seq<Value>>)
    ensures Prepended([], r) == r
  {
    if r.Ok? {
      assert [] + r.value == r.value;
    }
  }

  lemma PrependEnd(items: seq<Value>, rest: Bytes)
    ensures Prepended(items, ReadMany(0, rest)) == Ok(items, rest)
  {
    assert items + [] == items;
  }

  // One round of the loop moves an item from the rest to the items read, or fails.
  lemma RoundOfMany(items: seq<Value>, left: nat, here: Bytes)
    requires left > 0
    ensures match Read(here) {
      case Ok(v, rest) => Prepended(items, ReadMany(left, here)) == Prepended(items + [v], ReadMany(left - 1, rest))
      case Err(f) => Prepended(items, ReadMany(left, here)) == Err(f)
      case Panic => Prepended(items, ReadMany(left, here)) == Panic
    }
  {
    if Read(here).Ok? {
      var more := ReadMany(left - 1, Read(here).rest);
      if more.Ok? {
        assert items + ([Read(here).value] + more.value) == items + [Read(here).value] + more.value;
      }
    }
  }

  lemma {:induction false} FirstLf(s: Bytes, k: nat)
    requires k <= |s| && (k < |s| ==> s[k] == LF)
    requires forall i :: 0 <= i < k ==> s[i] != LF
    ensures IndexOfLf(s) == k
  {
  }

  // ------------------------------------------------------------ printing

  // What writeCommand prints: an array of bulk strings.
  function Command(args: seq<Bytes>): Bytes {
    [STAR] + Digits(|args|) + CRLF + BulkStrings(args)
  }

  function BulkStrings(args: seq<Bytes>): Bytes {
    if args == [] then [] else BulkStrings(args[..|args| - 1]) + BulkString(args[|args| - 1])
  }

  function BulkString(text: Bytes): Bytes {
    [DOLLAR] + Digits(|text|) + CRLF + text + CRLF
  }

  lemma BulkStringsStep(args: seq<Bytes>, i: nat)
    ensures BulkStrings(args[..0]) == []
    ensures i < |args| ==> BulkStrings(args[..i + 1]) == BulkStrings(args[..i]) + BulkString(args[i])
  {
    if i < |args| {
      assert args[..i + 1][..i] == args[..i];
    }
  }

  class Writer {
    var output: Bytes

    constructor ()
      ensures output == []
    {
      output := [];
    }

    method WriteCommand(args: seq<Bytes>)
      modifies this
      ensures output == old(output) + Command(args)
    {
      hide Digits, BulkStrings;
      BulkStringsStep(args, 0);
      ghost var header := [STAR] + Digits(|args|) + CRLF;
      output := output + [STAR] + Digits(|args|) + CRLF;
      for i := 0 to |args|
        invariant output == old(output) + header + BulkStrings(args[..i])
      {
        BulkStringsStep(args, i);
        output := output + [DOLLAR] + Digits(|args[i]|) + CRLF + args[i] + CRLF;
        assert output == old(output) + header + (BulkStrings(args[..i]) + BulkString(args[i]));
      }
      assert args[..|args|] == args;
    }
  }

  // The replies a server may send, and how the protocol writes them.
  datatype RespValue = Simple(text: Bytes) | Error(text: Bytes) | Integer(n: int) | Bulk(text: Bytes)
                     | NullBulk | NullArray | Array(items: seq<RespValue>)

  ghost function Encode(v: RespValue): Bytes {
    match v
    case Simple(text) => [PLUS] + text + CRLF
    case Error(text) => [MINUS] + text + CRLF
    case Integer(n) => [COLON] + Format(n) + CRLF
    case Bulk(text) => BulkString(text)
    case NullBulk => [DOLLAR] + Format(-1) + CRLF
    case NullArray => [STAR] + Format(-1) + CRLF
    case Array(items) => [STAR] + Digits(|items|) + CRLF + EncodeAll(items)
  }

  ghost function EncodeAll(items: seq<RespValue>): Bytes {
    if items == [] then [] else Encode(items[0]) + EncodeAll(items[1..])
  }

  // Simple strings and errors hold no line end; sizes and numbers fit the 64-bit range.
  ghost predicate Sendable(v: RespValue) {
    match v
    case Simple(text) => CR !in text && LF !in text
    case Error(text) => CR !in text && LF !in text
    case Integer(n) => InInt64(n)
    case Bulk(text) => |text| + 2 <= MAX_INT
    case NullBulk => true
    case NullArray => true
    case Array(items) => |items| <= MAX_INT && AllSendable(items)
  }

  ghost predicate AllSendable(items: seq<RespValue>) {
    items == [] || (Sendable(items[0]) && AllSendable(items[1..]))
  }

  // The Go value of a reply; the first error reply inside it makes the whole read fail.
  datatype Meaning<T> = Means(value: T) | Fails(text: Bytes)

  ghost function MeaningOf(v: RespValue): Meaning<Value> {
    match v
    case Simple(text) => Means(Str(text))
    case Error(text) => Fails(text)
    case Integer(n) => Means(Int(n))
    case Bulk(text) => Means(Str(text))
    case NullBulk => Means(Nil)
    case NullArray => Means(Nil)
    case Array(items) =>
      match AllMeanings(items)
      case Fails(text) => Fails(text)
      case Means(values) => Means(List(values))
  }

  ghost function AllMeanings(items: seq<RespValue>): Meaning<seq<Value>> {
    if items == [] then Means([])
    else match MeaningOf(items[0])
      case Fails(text) => Fails(text)
      case Means(v) =>
        match AllMeanings(items[1..])
        case Fails(text) => Fails(text)
        case Means(rest) => Means([v] + rest)
  }

  ghost function Expected<T>(m: Meaning<T>, rest: Bytes): Reply<T> {
    match m
    case Means(v) => Ok(v, rest)
    case Fails(text) => Err(ServerError(text))
  }

  lemma LineOf(text: Bytes, rest: Bytes)
    requires LF !in text && CR !in text
    ensures Line(text + CRLF + rest) == Ok(text, rest)
  {
    var s := text + CRLF + rest;
    FirstLf(s, |text| + 1);
    assert s[|text|] == CR && s[..|text|] == text && s[|text| + 2..] == rest;
  }

  lemma NumberOf(n: int, rest: Bytes)
    requires InInt64(n)
    ensures Number(Format(n) + CRLF + rest) == Ok(n, rest)
  {
    NumberBack(n);
    assert forall c :: c in Format(n) ==> c == MINUS || ZERO <= c <= 57 by {
      var d := if n < 0 then Digits(-n) else Digits(n);
      assert AllDigits(d);
      assert Format(n) == if n < 0 then [MINUS] + d else d;
    }
    LineOf(Format(n), rest);
  }

  lemma BulkOf(text: Bytes, rest: Bytes)
    requires |text| + 2 <= MAX_INT
    ensures Read(BulkString(text) + rest) == Ok(Str(text), rest)
  {
    hide Number;
    var s, body := BulkString(text) + rest, text + CRLF + rest;
    assert s[1..] == Format(|text|) + CRLF + body;
    NumberOf(|text|, body);
    assert body[..|text|] == text && body[|text| + 2..] == rest;
  }

  lemma TextOf(prefix: byte, text: Bytes, rest: Bytes)
    requires LF !in text && CR !in text && (prefix == PLUS || prefix == MINUS)
    ensures Read([prefix] + text + CRLF + rest)
         == if prefix == PLUS then Ok(Str(text), rest) else Err(ServerError(text))
  {
    LineOf(text, rest);
    assert ([prefix] + text + CRLF + rest)[1..] == text + CRLF + rest;
  }

  lemma HeaderOf(prefix: byte, n: int, rest: Bytes)
    requires InInt64(n) && (prefix == COLON || prefix == DOLLAR || prefix == STAR)
    ensures prefix == COLON ==> Read([prefix] + Format(n) + CRLF + rest) == Ok(Int(n), rest)
    ensures prefix != COLON && n == -1 ==> Read([prefix] + Format(n) + CRLF + rest) == Ok(Nil, rest)
    ensures prefix == STAR && n >= 0 ==> Read([prefix] + Format(n) + CRLF + rest) == AsList(ReadMany(n, rest))
  {
    hide ReadMany, Number, Format;
    NumberOf(n, rest);
    assert ([prefix] + Format(n) + CRLF + rest)[1..] == Format(n) + CRLF + rest;
  }

  ghost function AsList(r: Reply<seq<Value>>): Reply<Value> {
    match r
    case Ok(items, rest) => Ok(List(items), rest)
    case Err(f) => Err(f)
    case Panic => Panic
  }

  // Reading back what the protocol writes gives its meaning and leaves the suffix.
  lemma {:induction false} ReadEncoded(v: RespValue, rest: Bytes)
    requires Sendable(v)
    ensures Read(Encode(v) + rest) == Expected(MeaningOf(v), rest)
    decreases v, 0
  {
    match v
    case Simple(text) => TextOf(PLUS, text, rest);
    case Error(text) => TextOf(MINUS, text, rest);
    case Integer(n) => HeaderOf(COLON, n, rest);
    case Bulk(text) => BulkOf(text, rest);
    case NullBulk => HeaderOf(DOLLAR, -1, rest);
    case NullArray => HeaderOf(STAR, -1, rest);
    case Array(items) =>
      ReadAllEncoded(items, rest);
      ArrayEncoded(items, rest);
  }

  lemma ArrayEncoded(items: seq<RespValue>, rest: Bytes)
    requires |items| <= MAX_INT
    requires ReadMany(|items|, EncodeAll(items) + rest) == Expected(AllMeanings(items), rest)
    ensures Read(Encode(Array(items)) + rest) == Expected(MeaningOf(Array(items)), rest)
  {
    hide Read, ReadMany;
    HeaderOf(STAR, |items|, EncodeAll(items) + rest);
    assert Encode(Array(items)) + rest == [STAR] + Format(|items|) + CRLF + (EncodeAll(items) + rest);
  }

  lemma {:induction false} ReadAllEncoded(items: seq<RespValue>, rest: Bytes)
    requires AllSendable(items)
    ensures ReadMany(|items|, EncodeAll(items) + rest) == Expected(AllMeanings(items), rest)
    decreases items, 1
  {
    if items == [] {
      assert EncodeAll(items) + rest == rest;
    } else {
      var tail := EncodeAll(items[1..]) + rest;
      assert EncodeAll(items) + rest == Encode(items[0]) + tail;
      ReadEncoded(items[0], tail);
      ReadAllEncoded(items[1..], rest);
    }
  }

  // Every command survives the trip, whatever bytes its arguments hold.
  lemma CommandRoundTrip(args: seq<Bytes>, rest: Bytes)
    requires |args| <= MAX_INT && forall a :: a in args ==> |a| + 2 <= MAX_INT
    ensures Read(Command(args) + rest) == Ok(List(Strings(args)), rest)
  {
    hide Read, ReadMany;
    ReadBulkStrings(args, rest);
    HeaderOf(STAR, |args|, BulkStrings(args) + rest);
    assert Command(args) + rest == [STAR] + Format(|args|) + CRLF + (BulkStrings(args) + rest);
  }

  function Strings(args: seq<Bytes>): seq<Value> {
    seq(|args|, i requires 0 <= i < |args| => Str(args[i]))
  }

  lemma StringsFirst(args: seq<Bytes>)
    requires args != []
    ensures Strings(args) == [Str(args[0])] + Strings(args[1..])
  {
  }

  lemma {:induction false} BulkStringsFirst(args: seq<Bytes>)
    requires args != []
    ensures BulkStrings(args) == BulkString(args[0]) + BulkStrings(args[1..])
  {
    if |args| > 1 {
      var n := |args| - 1;
      BulkStringsFirst(args[..n]);
      assert args[..n][1..] == args[1..][..n - 1];
    } else {
      assert args[..0] == [] == args[1..];
    }
  }

  lemma ReadNoStrings(rest: Bytes)
    ensures ReadMany(0, BulkStrings([]) + rest) == Ok(Strings([]), rest)
  {
    var none: seq<Bytes> := [];
    assert Strings(none) == [] && BulkStrings(none) + rest == rest;
  }

  lemma OneThenMany(s: Bytes, n: nat)
    requires Read(s).Ok? && ReadMany(n, Read(s).rest).Ok?
    ensures ReadMany(n + 1, s)
         == Ok([Read(s).value] + ReadMany(n, Read(s).rest).value, ReadMany(n, Read(s).rest).rest)
  {
  }

  lemma {:induction false} ReadBulkStrings(args: seq<Bytes>, rest: Bytes)
    requires forall a :: a in args ==> |a| + 2 <= MAX_INT
    ensures ReadMany(|args|, BulkStrings(args) + rest) == Ok(Strings(args), rest)
  {
    hide *;
    if args == [] {
      ReadNoStrings(rest);
    } else {
      var tail := BulkStrings(args[1..]) + rest;
      BulkStringsFirst(args);
      assert BulkStrings(args) + rest == BulkString(args[0]) + tail;
      BulkOf(args[0], tail);
      ReadBulkStrings(args[1..], rest);
      OneThenMany(BulkString(args[0]) + tail, |args| - 1);
      StringsFirst(args);
    }
  }

  // ------------------------------------------------------------ truncated input

  lemma LineExtends(s: Bytes, more: Bytes)
    requires Line(s).Ok?
    ensures Line(s + more) == Ok(Line(s).value, Line(s).rest + more)
  {
    var k := IndexOfLf(s);
    FirstLf(s + more, k);
    assert (s + more)[..k] == s[..k] && (s + more)[k + 1..] == s[k + 1..] + more;
    assert k > 0 ==> (s + more)[..k - 1] == s[..k - 1];
  }

  // More input never changes a value that was read, it only lengthens what is left.
  lemma {:induction false} ReadExtends(s: Bytes, more: Bytes)
    requires Read(s).Ok?
    ensures Read(s + more) == Ok(Read(s).value, Read(s).rest + more)
    decreases |s|, 0
  {
    hide ReadMany, Line, ParseNumber;
    assert (s + more)[0] == s[0] && (s + more)[1..] == s[1..] + more;
    LineExtends(s[1..], more);
    if s[0] == DOLLAR {
      var n, rest := Number(s[1..]).value, Number(s[1..]).rest;
      if n >= 0 {
        assert (rest + more)[..n] == rest[..n] && (rest + more)[n + 2..] == rest[n + 2..] + more;
      }
    } else if s[0] == STAR {
      var n, rest := Number(s[1..]).value, Number(s[1..]).rest;
      if n >= 0 {
        ReadManyExtends(n, rest, more);
      }
    }
  }

  lemma {:induction false} ReadManyExtends(n: nat, s: Bytes, more: Bytes)
    requires ReadMany(n, s).Ok?
    ensures ReadMany(n, s + more) == Ok(ReadMany(n, s).value, ReadMany(n, s).rest + more)
    decreases |s|, 1
  {
    hide Read;
    if n > 0 {
      ReadExtends(s, more);
      ReadManyExtends(n - 1, Read(s).rest, more);
    }
  }

  // A reply cut short is never taken for a complete one.
  lemma TruncatedIsRefused(v: RespValue, cut: nat)
    requires Sendable(v) && cut < |Encode(v)|
    ensures !Read(Encode(v)[..cut]).Ok?
  {
    var s := Encode(v);
    assert s + [] == s && s[..cut] + s[cut..] == s;
    ReadEncoded(v, []);
    if Read(s[..cut]).Ok? {
      ReadExtends(s[..cut], s[cut..]);
    }
  }

  // ------------------------------------------------------------ the format, byte by byte

  // Commands and replies as the protocol writes them.
  lemma WireFormat(args: seq<Bytes>, text: Bytes, n: int, items: seq<RespValue>)
    ensures Command(args) == [42] + Digits(|args|) + [13, 10] + BulkStrings(args)
    ensures BulkStrings([]) == [] &&
      BulkStrings(args + [text]) == BulkStrings(args) + ([36] + Digits(|text|) + [13, 10] + text + [13, 10])
    ensures Encode(Simple(text)) == [43] + text + [13, 10] && Encode(Error(text)) == [45] + text + [13, 10]
    ensures Encode(Integer(n)) == [58] + (if n < 0 then [45] + Digits(-n) else Digits(n)) + [13, 10]
    ensures Encode(Bulk(text)) == [36] + Digits(|text|) + [13, 10] + text + [13, 10]
    ensures Encode(NullBulk) == [36, 45, 49, 13, 10] && Encode(NullArray) == [42, 45, 49, 13, 10]
    ensures Encode(Array(items)) == [42] + Digits(|items|) + [13, 10] + EncodeAll(items)
  {
    assert (args + [text])[..|args|] == args;
  }

  // Numbers are decimal, and printed without leading zeros.
  lemma {:induction false} DecimalDigits(n: nat, s: Bytes, d: byte)
    requires AllDigits(s + [d])
    ensures DigitsValue([]) == 0 && AllDigits(s) && DigitsValue(s + [d]) == 10 * DigitsValue(s) + (d as int - 48)
    ensures n > 0 ==> Digits(n)[0] != 48
    decreases n
  {
    assert (s + [d])[..|s|] == s && (s + [d])[|s|] == d;
    forall i | 0 <= i < |s| ensures ZERO <= s[i] <= 57 {
      assert (s + [d])[i] == s[i];
    }
    if n >= 10 {
      DecimalDigits(n / 10, s, d);
    }
  }

  // A number is an optional sign and digits, within 64 bits ...
  lemma NumberExactly(s: Bytes)
    requires s != [] && AllDigits(s)
    ensures ParseNumber(s) == if DigitsValue(s) <= 0x7fff_ffff_ffff_ffff then Some(DigitsValue(s)) else None
    ensures ParseNumber([43] + s) == ParseNumber(s)
    ensures ParseNumber([45] + s) == if DigitsValue(s) <= 0x8000_0000_0000_0000 then Some(0 - DigitsValue(s)) else None
  {
    hide DigitsValue;
    var plus: Bytes, minus: Bytes := [43] + s, [45] + s;
    assert plus[1..] == s && minus[1..] == s && plus[0] == 43 && minus[0] == 45;
    assert ZERO <= s[0] <= 57;
  }

  // ... and everything else is refused.
  lemma NoNumber(s: Bytes)
    requires s == [] || !AllDigits(s)
    ensures ParseNumber([43] + s) == None && ParseNumber([45] + s) == None
    ensures s == [] || (s[0] != 43 && s[0] != 45) ==> ParseNumber(s) == None
  {
    hide DigitsValue;
    var plus: Bytes, minus: Bytes := [43] + s, [45] + s;
    assert plus[1..] == s && minus[1..] == s && plus[0] == 43 && minus[0] == 45;
  }

  // What the reader makes of input that is no reply.
  lemma MalformedReplies(s: Bytes)
    ensures s == [] ==> Read(s) == Err(EndOfInput)
    ensures s != [] && s[0] !in {43, 45, 58, 36, 42} ==> Read(s) == Err(BadPrefix)
    ensures s != [] && s[0] in {43, 45, 58, 36, 42} && LF !in s ==> Read(s) == Err(EndOfInput)
  {
    if s != [] && s[0] in {43, 45, 58, 36, 42} && LF !in s {
      assert IndexOfLf(s[1..]) == |s[1..]| by {
        assert forall i :: 0 <= i < |s[1..]| ==> s[1..][i] in s;
      }
    }
  }

  // A header line ends at its LF, with or without a CR; it needs a number, and a size no smaller
  // than -1, for which alone there is a nil.
  lemma MalformedHeaders(prefix: byte, text: Bytes, rest: Bytes)
    requires prefix in {58, 36, 42} && LF !in text
    ensures var s := [prefix] + text + [10] + rest;
      var line := if text != [] && text[|text| - 1] == 13 then text[..|text| - 1] else text;
      (ParseNumber(line) == None ==> Read(s) == Err(BadNumber)) &&
      (ParseNumber(line).Some? ==>
        var n := ParseNumber(line).value;
        (prefix == 58 ==> Read(s) == Ok(Int(n), rest)) &&
        (prefix != 58 && n == -1 ==> Read(s) == Ok(Nil, rest)) && (prefix != 58 && n < -1 ==> Read(s) == Panic) &&
        (prefix == 36 && 0 <= n <= 0x7fff_ffff_ffff_fffd ==>
          Read(s) == if |rest| < n + 2 then Err(EndOfInput) else Ok(Str(rest[..n]), rest[n + 2..])) &&
        (prefix == 36 && n > 0x7fff_ffff_ffff_fffd ==> Read(s) == Panic))
  {
    hide ParseNumber, ReadMany;
    var s := [prefix] + text + [10] + rest;
    var tail := s[1..];
    assert tail == text + [10] + rest;
    FirstLf(tail, |text|);
    assert tail[..|text|] == text && tail[|text| + 1..] == rest;
    assert text != [] ==> tail[..|text| - 1] == text[..|text| - 1];
  }
}
