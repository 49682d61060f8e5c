/**
 * Candidate IDs as an unambiguous code (packages/router/src/candidate.ts:71-126): UTF-8 as in section 3 of
 * RFC 3629, percent-encoding as in section 2.1 of RFC 3986, and `%uXXXX` for surrogates that are not paired.
 */
module CandidateId {
  import opened Prelude

  /** A UTF-16 code unit. */
  type Unit = u: int | 0 <= u < 0x10000

  predicate High(u: Unit) {
    0xD800 <= u <= 0xDBFF
  }

  predicate Low(u: Unit) {
    0xDC00 <= u <= 0xDFFF
  }

  type Point = p: int | 0 <= p < 0x110000

  function PairPoint(high: Unit, low: Unit): Point
    requires High(high) && Low(low)
  {
    0x10000 + (high - 0xD800) * 0x400 + (low - 0xDC00)
  }

  // ---------------------------------------------------------------------------------------------
  // Encoding

  function Hex(n: int): char
    requires 0 <= n < 16
  {
    "0123456789ABCDEF"[n]
  }

  type Byte = b: int | 0 <= b < 0x100

  function PercentByte(b: Byte): string {
    ['%', Hex(b / 16), Hex(b % 16)]
  }

  /** Letters, digits and `-_.`, which every stage leaves alone. */
  predicate Plain(p: int) {
    || 'a' as int <= p <= 'z' as int || 'A' as int <= p <= 'Z' as int || '0' as int <= p <= '9' as int
    || p == '-' as int || p == '_' as int || p == '.' as int
  }

  /** The marks `encodeURIComponent` leaves alone and this code does not. */
  predicate Mark(p: int) {
    || p == '!' as int || p == '\'' as int || p == '(' as int || p == ')' as int || p == '*' as int || p == '~' as int
  }

  function Utf8(p: Point): seq<Byte> {
    if p < 0x80 then [p]
    else if p < 0x800 then [0xC0 + p / 0x40, 0x80 + p % 0x40]
    else if p < 0x10000 then [0xE0 + p / 0x1000, 0x80 + p / 0x40 % 0x40, 0x80 + p % 0x40]
    else [0xF0 + p / 0x40000, 0x80 + p / 0x1000 % 0x40, 0x80 + p / 0x40 % 0x40, 0x80 + p % 0x40]
  }

  function Percent(bytes: seq<Byte>): string {
    if bytes == [] then "" else PercentByte(bytes[0]) + Percent(bytes[1..])
  }

  /** `encodeURIComponent` of one character. */
  function UriComponent(p: Point): string {
    if Plain(p) || Mark(p) then [p as char] else Percent(Utf8(p))
  }

  function EscapeMarks(s: string): string {
    if s == "" then ""
    else (if Mark(s[0] as int) then PercentByte(s[0] as int) else [s[0]]) + EscapeMarks(s[1..])
  }

  /** `encodeURIComponentCharacter`. */
  function EncodeCharacter(p: Point): string {
    EscapeMarks(UriComponent(p))
  }

  /** `%u` and four hexadecimal digits. */
  function EncodeSurrogate(u: Unit): string {
    ['%', 'u', Hex(u / 0x1000), Hex(u / 0x100 % 16), Hex(u / 16 % 16), Hex(u % 16)]
  }

  predicate PairAt(value: seq<Unit>, i: nat) {
    i + 1 < |value| && High(value[i]) && Low(value[i + 1])
  }

  /** Where the next character starts. */
  function Next(value: seq<Unit>, i: nat): nat {
    if PairAt(value, i) then i + 2 else i + 1
  }

  /** The code of the character that starts at `i`. */
  function EncodeAt(value: seq<Unit>, i: nat): string
    requires i < |value|
  {
    if PairAt(value, i) then EncodeCharacter(PairPoint(value[i], value[i + 1]))
    else if High(value[i]) || Low(value[i]) then EncodeSurrogate(value[i])
    else EncodeCharacter(value[i])
  }

  /** The code of everything from `i` on. */
  function EncodeFrom(value: seq<Unit>, i: nat): string
    decreases |value| - i
  {
    if i >= |value| then "" else EncodeAt(value, i) + EncodeFrom(value, Next(value, i))
  }

  lemma Regroup(a: string, b: string, c: string)
    ensures (a + b) + c == a + (b + c)
  {
  }

  /** `encodePresentComponent`: one pass over the units, skipping the second half of a pair. */
  method EncodePresentComponent(value: seq<Unit>) returns (encoded: string)
    ensures encoded == "=" + EncodeFrom(value, 0)
  {
    var acc, i := "", 0;
    ghost var total, rest := EncodeFrom(value, 0), EncodeFrom(value, 0);
    while i < |value|
      invariant i <= |value| && rest == EncodeFrom(value, i) && acc + rest == total
      decreases |value| - i
    {
      ghost var before := acc;
      var code;
      code, i, rest := EncodeNext(value, i);
      acc := acc + code;
      Regroup(before, code, rest);
    }
    encoded := "=" + acc;
  }

  /** The body of the loop: the code of the next character, and where the one after it starts. */
  method EncodeNext(value: seq<Unit>, i: nat) returns (code: string, next: nat, ghost rest: string)
    requires i < |value|
    ensures next == Next(value, i) && rest == EncodeFrom(value, next) && code + rest == EncodeFrom(value, i)
  {
    var last := i;
    if PairAt(value, i) {
      code := EncodeCharacter(PairPoint(value[i], value[i + 1]));
      last := i + 1;
    } else if High(value[i]) || Low(value[i]) {
      code := EncodeSurrogate(value[i]);
    } else {
      code := EncodeCharacter(value[i]);
    }
    next, rest := last + 1, EncodeFrom(value, last + 1);
  }

  // ---------------------------------------------------------------------------------------------
  // Decoding

  function HexValue(c: char): Option<int> {
    if '0' <= c <= '9' then Some(c as int - '0' as int)
    else if 'A' <= c <= 'F' then Some(c as int - 'A' as int + 10)
    else None
  }

  /** The value of the hexadecimal digits `s[i..i + n]`. */
  function HexAt(s: string, i: nat, n: nat): Option<int> {
    if n == 0 then Some(0)
    else if i + n > |s| then None
    else
      match (HexAt(s, i, n - 1), HexValue(s[i + n - 1]))
      case (Some(a), Some(b)) => Some(16 * a + b)
      case _ => None
  }

  function ByteAt(s: string, i: nat): Option<int> {
    if i < |s| && s[i] == '%' then HexAt(s, i + 1, 2) else None
  }

  /** A continuation byte, without its marker bits. */
  function TailAt(s: string, i: nat): Option<int> {
    match ByteAt(s, i)
    case Some(b) => if 0x80 <= b < 0xC0 then Some(b - 0x80) else None
    case None => None
  }

  function PointUnits(p: int): Option<seq<Unit>> {
    if 0 <= p < 0x10000 then Some([p])
    else if 0x10000 <= p < 0x110000 then Some([0xD800 + (p - 0x10000) / 0x400, 0xDC00 + (p - 0x10000) % 0x400])
    else None
  }

  datatype Read = Read(units: seq<Unit>, length: nat)

  function ReadPoint(p: Option<int>, length: nat): Option<Read> {
    if p.None? then None
    else if PointUnits(p.value).None? then None
    else Some(Read(PointUnits(p.value).value, length))
  }

  function Join(a: Option<int>, b: Option<int>): Option<int> {
    if a.Some? && b.Some? then Some(a.value * 0x40 + b.value) else None
  }

  /** The character at the front of `s`, and how much of `s` it takes. */
  function DecodeFirst(s: string): Option<Read>
    requires s != ""
  {
    if s[0] != '%' then (if Plain(s[0] as int) then Some(Read([s[0] as int], 1)) else None)
    else if 1 < |s| && s[1] == 'u' then ReadPoint(HexAt(s, 2, 4), 6)
    else DecodeUtf8(s)
  }

  /** One to four percent-encoded bytes, as many as the first of them says. */
  function DecodeUtf8(s: string): Option<Read> {
    match ByteAt(s, 0)
    case None => None
    case Some(b) =>
      if b < 0x80 then ReadPoint(Some(b), 3)
      else if b < 0xE0 then ReadPoint(Join(Some(b - 0xC0), TailAt(s, 3)), 6)
      else if b < 0xF0 then ReadPoint(Join(Join(Some(b - 0xE0), TailAt(s, 3)), TailAt(s, 6)), 9)
      else ReadPoint(Join(Join(Join(Some(b - 0xF0), TailAt(s, 3)), TailAt(s, 6)), TailAt(s, 9)), 12)
  }

  function Decode(s: string): Option<seq<Unit>> {
    if s == "" then Some([])
    else
      match DecodeFirst(s)
      case None => None
      case Some(r) =>
        if r.length == 0 || r.length > |s| then None
        else
          match Decode(s[r.length..])
          case None => None
          case Some(rest) => Some(r.units + rest)
  }

  // ---------------------------------------------------------------------------------------------
  // Round trip

  lemma HexRoundTrip(n: int)
    requires 0 <= n < 16
    ensures HexValue(Hex(n)) == Some(n) && Plain(Hex(n) as int) && Hex(n) != 'u' && !Mark(Hex(n) as int)
  {
  }

  lemma {:induction false} PercentChars(bytes: seq<Byte>, k: nat)
    requires k < |bytes|
    ensures |Percent(bytes)| == 3 * |bytes|
    ensures Percent(bytes)[3 * k] == '%'
    ensures Percent(bytes)[3 * k + 1] == Hex(bytes[k] / 16) && Percent(bytes)[3 * k + 2] == Hex(bytes[k] % 16)
    decreases |bytes|
  {
    if |bytes| > 1 {
      PercentChars(bytes[1..], if k == 0 then 0 else k - 1);
    }
  }

  lemma {:induction false} ReadsByte(bytes: seq<Byte>, rest: string, k: nat)
    requires k < |bytes|
    ensures |Percent(bytes)| == 3 * |bytes| && ByteAt(Percent(bytes) + rest, 3 * k) == Some(bytes[k])
  {
    PercentChars(bytes, k);
    var s, b := Percent(bytes) + rest, bytes[k];
    HexRoundTrip(b / 16);
    HexRoundTrip(b % 16);
    assert HexAt(s, 3 * k + 1, 0) == Some(0);
    assert HexAt(s, 3 * k + 1, 1) == Some(b / 16);
  }

  lemma {:induction false} EscapePercent(bytes: seq<Byte>)
    ensures EscapeMarks(Percent(bytes)) == Percent(bytes)
  {
    if bytes != [] {
      var b := bytes[0];
      HexRoundTrip(b / 16);
      HexRoundTrip(b % 16);
      EscapePercent(bytes[1..]);
      EscapeThree(Hex(b / 16), Hex(b % 16), Percent(bytes[1..]));
    }
  }

  lemma {:induction false} EscapeOne(c: char, rest: string)
    requires !Mark(c as int)
    ensures EscapeMarks([c] + rest) == [c] + EscapeMarks(rest)
  {
    assert ([c] + rest)[1..] == rest;
  }

  lemma {:induction false} EscapeThree(x: char, y: char, rest: string)
    requires !Mark(x as int) && !Mark(y as int)
    ensures EscapeMarks(['%', x, y] + rest) == ['%', x, y] + EscapeMarks(rest)
  {
    EscapeOne('%', [x, y] + rest);
    EscapeOne(x, [y] + rest);
    EscapeOne(y, rest);
    assert ['%', x, y] + rest == ['%'] + ([x, y] + rest);
    assert [x, y] + rest == [x] + ([y] + rest);
  }

  /** Both stages together: plain characters as they are, everything else as UTF-8 bytes. */
  lemma CharacterCode(p: Point)
    ensures EncodeCharacter(p) == if Plain(p) then [p as char] else Percent(Utf8(p))
  {
    if Plain(p) || Mark(p) {
      var s := [p as char];
      assert s[1..] == "" && EscapeMarks("") == "";
      assert Mark(p) ==> Utf8(p)[1..] == [] && PercentByte(p) + "" == PercentByte(p);
    } else {
      EscapePercent(Utf8(p));
    }
  }

  lemma Digits(p: Point)
    ensures p / 0x40 * 0x40 + p % 0x40 == p
    ensures p / 0x1000 * 0x40 + p / 0x40 % 0x40 == p / 0x40
    ensures p / 0x40000 * 0x40 + p / 0x1000 % 0x40 == p / 0x1000
  {
  }

  lemma TwoBytes(s: string, p: Point)
    requires 0x80 <= p < 0x800 && ByteAt(s, 0) == Some(0xC0 + p / 0x40) && ByteAt(s, 3) == Some(0x80 + p % 0x40)
    ensures DecodeUtf8(s) == ReadPoint(Some(p), 6)
  {
    Digits(p);
  }

  lemma ThreeBytes(s: string, p: Point)
    requires 0x800 <= p < 0x10000 && ByteAt(s, 0) == Some(0xE0 + p / 0x1000)
    requires ByteAt(s, 3) == Some(0x80 + p / 0x40 % 0x40) && ByteAt(s, 6) == Some(0x80 + p % 0x40)
    ensures DecodeUtf8(s) == ReadPoint(Some(p), 9)
  {
    Digits(p);
    assert Join(Some(p / 0x1000), TailAt(s, 3)) == Some(p / 0x40);
  }

  lemma FourBytes(s: string, p: Point)
    requires 0x10000 <= p && ByteAt(s, 0) == Some(0xF0 + p / 0x40000) && ByteAt(s, 3) == Some(0x80 + p / 0x1000 % 0x40)
    requires ByteAt(s, 6) == Some(0x80 + p / 0x40 % 0x40) && ByteAt(s, 9) == Some(0x80 + p % 0x40)
    ensures DecodeUtf8(s) == ReadPoint(Some(p), 12)
  {
    Digits(p);
    assert Join(Some(p / 0x40000), TailAt(s, 3)) == Some(p / 0x1000);
    assert Join(Some(p / 0x1000), TailAt(s, 6)) == Some(p / 0x40);
  }

  lemma DecodeMore(p: Point, rest: string)
    requires 0x80 <= p && ByteAt(Percent(Utf8(p)) + rest, 0) == Some(Utf8(p)[0]) && ByteAt(Percent(Utf8(p)) + rest, 3) == Some(Utf8(p)[1])
    ensures DecodeUtf8(Percent(Utf8(p)) + rest) == ReadPoint(Some(p), 3 * |Utf8(p)|)
  {
    var bytes := Utf8(p);
    var s := Percent(bytes) + rest;
    if p < 0x800 {
      TwoBytes(s, p);
    } else {
      ReadsByte(bytes, rest, 2);
      if p < 0x10000 {
        ThreeBytes(s, p);
      } else {
        ReadsByte(bytes, rest, 3);
        FourBytes(s, p);
      }
    }
  }

  lemma DecodeBytes(p: Point, rest: string)
    ensures DecodeUtf8(Percent(Utf8(p)) + rest) == ReadPoint(Some(p), |Percent(Utf8(p))|)
  {
    var bytes := Utf8(p);
    ReadsByte(bytes, rest, 0);
    if 0x80 <= p {
      ReadsByte(bytes, rest, 1);
      DecodeMore(p, rest);
    }
  }

  lemma DecodeCharacter(p: Point, rest: string)
    ensures EncodeCharacter(p) != ""
    ensures DecodeFirst(EncodeCharacter(p) + rest) == ReadPoint(Some(p), |EncodeCharacter(p)|)
  {
    CharacterCode(p);
    if !Plain(p) {
      PercentChars(Utf8(p), 0);
      HexRoundTrip(Utf8(p)[0] / 16);
      DecodeBytes(p, rest);
    }
  }

  lemma HexStep(s: string, i: nat, n: nat, a: int, b: int)
    requires i + n < |s| && HexAt(s, i, n) == Some(a) && 0 <= b < 16 && s[i + n] == Hex(b)
    ensures HexAt(s, i, n + 1) == Some(16 * a + b)
  {
    HexRoundTrip(b);
  }

  lemma TwoDigits(s: string, i: nat, a: int, b: int)
    requires 0 <= a < 16 && 0 <= b < 16 && i + 2 <= |s| && s[i] == Hex(a) && s[i + 1] == Hex(b)
    ensures HexAt(s, i, 2) == Some(16 * a + b)
  {
    HexStep(s, i, 0, 0, a);
    HexStep(s, i, 1, a, b);
  }

  lemma FourDigits(s: string, i: nat, a: int, b: int, c: int, d: int)
    requires 0 <= a < 16 && 0 <= b < 16 && 0 <= c < 16 && 0 <= d < 16
    requires i + 4 <= |s| && s[i] == Hex(a) && s[i + 1] == Hex(b) && s[i + 2] == Hex(c) && s[i + 3] == Hex(d)
    ensures HexAt(s, i, 4) == Some(4096 * a + 256 * b + 16 * c + d)
  {
    TwoDigits(s, i, a, b);
    HexStep(s, i, 2, 16 * a + b, c);
    HexStep(s, i, 3, 256 * a + 16 * b + c, d);
  }

  lemma DecodeDigits(a: int, b: int, c: int, d: int, rest: string)
    requires 0 <= a < 16 && 0 <= b < 16 && 0 <= c < 16 && 0 <= d < 16
    ensures DecodeFirst(['%', 'u', Hex(a), Hex(b), Hex(c), Hex(d)] + rest)
         == Some(Read([4096 * a + 256 * b + 16 * c + d], 6))
  {
    FourDigits(['%', 'u', Hex(a), Hex(b), Hex(c), Hex(d)] + rest, 2, a, b, c, d);
  }

  lemma UnitDigits(u: Unit)
    ensures 4096 * (u / 0x1000) + 256 * (u / 0x100 % 16) + 16 * (u / 16 % 16) + u % 16 == u
  {
    var x := u / 16;
    var y := x / 16;
    var z := y / 16;
    assert u / 0x100 == y && u / 0x1000 == z;
    assert u == 16 * x + u % 16 && x == 16 * y + x % 16 && y == 16 * z + y % 16;
  }

  lemma DecodeSurrogate(u: Unit, rest: string)
    ensures DecodeFirst(EncodeSurrogate(u) + rest) == Some(Read([u], 6))
  {
    UnitDigits(u);
    DecodeDigits(u / 0x1000, u / 0x100 % 16, u / 16 % 16, u % 16, rest);
  }

  lemma PairUnits(high: Unit, low: Unit)
    requires High(high) && Low(low)
    ensures PointUnits(PairPoint(high, low)) == Some([high, low])
  {
    var p := PairPoint(high, low) - 0x10000;
    assert p / 0x400 == high - 0xD800 && p % 0x400 == low - 0xDC00;
  }

  lemma DecodePair(high: Unit, low: Unit, rest: string)
    requires High(high) && Low(low)
    ensures EncodeCharacter(PairPoint(high, low)) != ""
    ensures DecodeFirst(EncodeCharacter(PairPoint(high, low)) + rest)
         == Some(Read([high, low], |EncodeCharacter(PairPoint(high, low))|))
  {
    DecodeCharacter(PairPoint(high, low), rest);
    PairUnits(high, low);
  }

  lemma DecodeAt(value: seq<Unit>, i: nat, rest: string)
    requires i < |value|
    ensures EncodeAt(value, i) != ""
    ensures DecodeFirst(EncodeAt(value, i) + rest) == Some(Read(value[i..Next(value, i)], |EncodeAt(value, i)|))
  {
    if PairAt(value, i) {
      DecodePair(value[i], value[i + 1], rest);
      assert value[i..i + 2] == [value[i], value[i + 1]];
    } else {
      assert value[i..i + 1] == [value[i]];
      if High(value[i]) || Low(value[i]) {
        DecodeSurrogate(value[i], rest);
      } else {
        DecodeCharacter(value[i], rest);
      }
    }
  }

  lemma {:induction false} DecodeJoin(head: string, rest: string, units: seq<Unit>, value: seq<Unit>)
    requires head != "" && DecodeFirst(head + rest) == Some(Read(units, |head|)) && Decode(rest) == Some(value)
    ensures Decode(head + rest) == Some(units + value)
  {
    assert (head + rest)[|head|..] == rest;
  }

  lemma {:induction false} DecodeOn(head: string, rest: string, value: seq<Unit>, i: nat, n: nat)
    requires i <= n <= |value| && head != "" && DecodeFirst(head + rest) == Some(Read(value[i..n], |head|))
    requires Decode(rest) == Some(value[n..])
    ensures Decode(head + rest) == Some(value[i..])
  {
    DecodeJoin(head, rest, value[i..n], value[n..]);
    Slices(value, i, n);
  }

  lemma Slices(value: seq<Unit>, i: nat, n: nat)
    requires i <= n <= |value|
    ensures value[i..n] + value[n..] == value[i..]
  {
  }

  /** Every text comes back, paired and unpaired surrogates included. */
  lemma {:induction false} RoundTrip(value: seq<Unit>, i: nat)
    requires i <= |value|
    ensures Decode(EncodeFrom(value, i)) == Some(value[i..])
    decreases |value| - i
  {
    if i == |value| {
      assert value[i..] == [];
    } else {
      var rest := EncodeFrom(value, Next(value, i));
      RoundTrip(value, Next(value, i));
      DecodeAt(value, i, rest);
      DecodeOn(EncodeAt(value, i), rest, value, i, Next(value, i));
    }
  }

  // ---------------------------------------------------------------------------------------------
  // Candidate IDs

  /** The provider and runtime patterns: a lower-case letter, then up to 63 letters, digits and dashes. */
  predicate Name(s: string) {
    && 1 <= |s| <= 64 && 'a' <= s[0] <= 'z'
    && (forall i :: 0 <= i < |s| ==> 'a' <= s[i] <= 'z' || '0' <= s[i] <= '9' || s[i] == '-')
  }

  predicate Location(v: Option<seq<Unit>>) {
    v.Some? ==> 1 <= |v.value| <= 64
  }

  datatype Identity = Identity(provider: string, runtime: string, region: Option<seq<Unit>>, profile: Option<seq<Unit>>)

  predicate ValidIdentity(i: Identity) {
    Name(i.provider) && Name(i.runtime) && Location(i.region) && Location(i.profile)
  }

  function EncodeOptional(v: Option<seq<Unit>>): string {
    match v
    case None => "-"
    case Some(value) => "=" + EncodeFrom(value, 0)
  }

  /** `createRoutingCandidateIDFromIdentity`. */
  function CandidateID(i: Identity): string {
    i.provider + "::" + i.runtime + "::" + EncodeOptional(i.region) + "::" + EncodeOptional(i.profile)
  }

  /** Length of the field at the front. */
  function Field(s: string): nat {
    if s == "" || s[0] == ':' then 0 else 1 + Field(s[1..])
  }

  /** What follows the field at the front and its separator. */
  function Beyond(s: string): string {
    if Field(s) + 2 <= |s| then s[Field(s) + 2..] else ""
  }

  function First(s: string): string {
    if Field(s) <= |s| then s[..Field(s)] else s
  }

  function DecodeOptional(s: string): Option<Option<seq<Unit>>> {
    if s == "-" then Some(None)
    else if s == "" || s[0] != '=' then None
    else
      match Decode(s[1..])
      case None => None
      case Some(value) => Some(Some(value))
  }

  function DecodeID(s: string): Option<Identity> {
    var t, u, v := Beyond(s), Beyond(Beyond(s)), Beyond(Beyond(Beyond(s)));
    match (DecodeOptional(First(u)), DecodeOptional(First(v)))
    case (Some(region), Some(profile)) => Some(Identity(First(s), First(t), region, profile))
    case _ => None
  }

  ghost predicate NoColon(s: string) {
    forall i :: 0 <= i < |s| ==> s[i] != ':'
  }

  lemma {:induction false} FieldEnds(a: string, rest: string)
    requires NoColon(a) && (rest == "" || rest[0] == ':')
    ensures Field(a + rest) == |a|
    decreases |a|
  {
    if a == "" {
      assert a + rest == rest;
    } else {
      assert (a + rest)[1..] == a[1..] + rest;
      FieldEnds(a[1..], rest);
    }
  }

  lemma FieldSplits(a: string, rest: string)
    requires NoColon(a)
    ensures First(a + "::" + rest) == a && Beyond(a + "::" + rest) == rest && First(a) == a
  {
    assert a + "::" + rest == a + ("::" + rest);
    FieldEnds(a, "::" + rest);
    FieldEnds(a, "");
    assert a + "" == a;
  }

  ghost predicate CodeChars(s: string) {
    forall i :: 0 <= i < |s| ==> Plain(s[i] as int) || s[i] == '%'
  }

  lemma {:induction false} PercentFits(bytes: seq<Byte>)
    ensures CodeChars(Percent(bytes)) && |Percent(bytes)| == 3 * |bytes|
  {
    if bytes != [] {
      HexRoundTrip(bytes[0] / 16);
      HexRoundTrip(bytes[0] % 16);
      PercentFits(bytes[1..]);
    }
  }

  lemma CodeFits(value: seq<Unit>, i: nat)
    requires i < |value|
    ensures CodeChars(EncodeAt(value, i)) && |EncodeAt(value, i)| <= 9 * (Next(value, i) - i)
  {
    if PairAt(value, i) {
      CharacterCode(PairPoint(value[i], value[i + 1]));
      PercentFits(Utf8(PairPoint(value[i], value[i + 1])));
    } else if High(value[i]) || Low(value[i]) {
      HexRoundTrip(value[i] / 0x1000);
      HexRoundTrip(value[i] / 0x100 % 16);
      HexRoundTrip(value[i] / 16 % 16);
      HexRoundTrip(value[i] % 16);
    } else {
      CharacterCode(value[i]);
      PercentFits(Utf8(value[i]));
    }
  }

  lemma {:induction false} ComponentFits(value: seq<Unit>, i: nat)
    requires i <= |value|
    ensures CodeChars(EncodeFrom(value, i)) && |EncodeFrom(value, i)| <= 9 * (|value| - i)
    decreases |value| - i
  {
    if i < |value| {
      CodeFits(value, i);
      ComponentFits(value, Next(value, i));
    }
  }

  lemma OptionalFits(v: Option<seq<Unit>>)
    requires Location(v)
    ensures NoColon(EncodeOptional(v)) && 1 <= |EncodeOptional(v)| <= 577
    ensures forall i :: 0 <= i < |EncodeOptional(v)| ==> IdChar(EncodeOptional(v)[i])
  {
    if v.Some? {
      ComponentFits(v.value, 0);
    }
  }

  lemma OptionalDecodes(v: Option<seq<Unit>>)
    ensures DecodeOptional(EncodeOptional(v)) == Some(v)
  {
    if v.Some? {
      RoundTrip(v.value, 0);
      assert ("=" + EncodeFrom(v.value, 0))[1..] == EncodeFrom(v.value, 0);
      assert v.value[0..] == v.value;
    }
  }

  /** The characters a candidate ID may use. */
  predicate IdChar(c: char) {
    Plain(c as int) || c == '%' || c == ':' || c == '='
  }

  lemma NameFits(s: string)
    requires Name(s)
    ensures NoColon(s) && (forall i :: 0 <= i < |s| ==> IdChar(s[i]))
  {
  }

  /** An ID says everything about its identity. */
  lemma IdDecodes(i: Identity)
    requires ValidIdentity(i)
    ensures DecodeID(CandidateID(i)) == Some(i)
  {
    var region, profile := EncodeOptional(i.region), EncodeOptional(i.profile);
    NameFits(i.provider);
    NameFits(i.runtime);
    OptionalFits(i.region);
    OptionalFits(i.profile);
    OptionalDecodes(i.region);
    OptionalDecodes(i.profile);
    assert CandidateID(i) == i.provider + "::" + (i.runtime + "::" + (region + "::" + profile));
    FieldSplits(i.provider, i.runtime + "::" + (region + "::" + profile));
    FieldSplits(i.runtime, region + "::" + profile);
    FieldSplits(region, profile);
    FieldSplits(profile, "");
  }

  /** Distinct identities have distinct IDs. */
  lemma IdsAreInjective(i: Identity, j: Identity)
    requires ValidIdentity(i) && ValidIdentity(j)
    ensures CandidateID(i) == CandidateID(j) <==> i == j
  {
    IdDecodes(i);
    IdDecodes(j);
  }

  /** Every ID passes the ID schema: allowed characters only, and at most 1288 of the 2048 it allows. */
  lemma IdFits(i: Identity)
    requires ValidIdentity(i)
    ensures 1 <= |CandidateID(i)| <= 1288 && (forall k :: 0 <= k < |CandidateID(i)| ==> IdChar(CandidateID(i)[k]))
  {
    NameFits(i.provider);
    NameFits(i.runtime);
    OptionalFits(i.region);
    OptionalFits(i.profile);
  }
}
