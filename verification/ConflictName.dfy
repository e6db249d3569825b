/**
 Names of conflicting versions (lib/src/conflict.rs): the name, ".v" and the first eight hexadecimal
 digits of the branch id.
 */
module ConflictName {
  import opened Options

  /** Strings are their UTF-8 bytes: lengths and splits count bytes. */
  type Byte = i: int | 0 <= i < 256

  type Bytes = seq<Byte>

  const SUFFIX_LEN: nat := 8
  const SEPARATOR: Bytes := [0x2E, 0x76]  // ".v"
  const DOT: Byte := 0x2E

  // ---------------------------------------------------------------- hexadecimal digits

  predicate IsLower(c: Byte) { 0x30 <= c <= 0x39 || 0x61 <= c <= 0x66 }

  predicate IsHex(c: Byte) { IsLower(c) || 0x41 <= c <= 0x46 }

  predicate AllHex(s: Bytes) { forall i :: 0 <= i < |s| ==> IsHex(s[i]) }

  predicate AllLower(s: Bytes) { forall i :: 0 <= i < |s| ==> IsLower(s[i]) }

  /** The digit of a value below 16, as `{:x}` prints it. */
  function Digit(v: int): (c: Byte)
    requires 0 <= v < 16
    ensures IsLower(c) && ValueOf(c) == v
  {
    if v < 10 then 0x30 + v else 0x61 + (v - 10)
  }

  function ValueOf(c: Byte): (v: int)
    requires IsHex(c)
    ensures 0 <= v < 16
  {
    if c <= 0x39 then c - 0x30 else if c <= 0x46 then c - 0x41 + 10 else c - 0x61 + 10
  }

  function Hex(id: Bytes): Bytes {
    if id == [] then [] else [Digit(id[0] / 16), Digit(id[0] % 16)] + Hex(id[1..])
  }

  /** `hex::decode_to_slice`, for an even number of digits. */
  function Unhex(s: Bytes): Option<Bytes>
    requires |s| % 2 == 0
  {
    if s == [] then Some([])
    else if !IsHex(s[0]) || !IsHex(s[1]) then None
    else
      match Unhex(s[2..])
      case None => None
      case Some(rest) => Some([ValueOf(s[0]) * 16 + ValueOf(s[1])] + rest)
  }

  /** `HexFmt` with a width: all digits if they fit, else the first ones and an ellipsis. */
  function HexFmt(id: Bytes, width: nat): Bytes {
    if 2 * |id| <= width then Hex(id)
    else if width <= 2 then seq(width, i => DOT)
    else FirstDigits(id, width - 2) + [DOT, DOT]
  }

  function FirstDigits(id: Bytes, n: nat): (d: Bytes)
    requires n <= 2 * |id|
    ensures |d| == n
  {
    if n == 0 then []
    else if n == 1 then [Digit(id[0] / 16)]
    else [Digit(id[0] / 16), Digit(id[0] % 16)] + FirstDigits(id[1..], n - 2)
  }

  // ---------------------------------------------------------------- create and parse

  function CreateUniqueName(name: Bytes, branchId: Bytes): Bytes {
    var output := name + SEPARATOR + HexFmt(branchId, SUFFIX_LEN + 2);
    var length := |name| + |SEPARATOR| + SUFFIX_LEN;
    if length <= |output| then output[..length] else output
  }

  predicate SeparatorAt(s: Bytes, i: int) {
    0 <= i && i + |SEPARATOR| <= |s| && s[i..i + |SEPARATOR|] == SEPARATOR
  }

  /** Where the last separator before position `bound` starts. */
  function LastSeparator(s: Bytes, bound: nat): (r: Option<nat>)
    ensures r.Some? ==> r.value < bound && SeparatorAt(s, r.value)
    ensures forall i :: (if r.Some? then r.value else -1) < i < bound ==> !SeparatorAt(s, i)
  {
    if bound == 0 then None
    else if SeparatorAt(s, bound - 1) then Some(bound - 1)
    else LastSeparator(s, bound - 1)
  }

  datatype Parsed = Parsed(name: Bytes, suffix: Option<Bytes>)

  function ParseUniqueName(unique: Bytes): Parsed {
    match LastSeparator(unique, |unique|)
    case None => Parsed(unique, None)
    case Some(i) =>
      var suffix := unique[i + |SEPARATOR|..];
      if |suffix| != SUFFIX_LEN then Parsed(unique, None)
      else
        match Unhex(suffix)
        case None => Parsed(unique, None)
        case Some(bytes) => Parsed(unique[..i], Some(bytes))
  }

  // ---------------------------------------------------------------- digits and bytes

  lemma {:induction false} UnhexHex(id: Bytes)
    ensures |Hex(id)| == 2 * |id| && AllLower(Hex(id))
    ensures Unhex(Hex(id)) == Some(id)
  {
    if id != [] {
      UnhexHex(id[1..]);
      var h := Hex(id);
      assert h[2..] == Hex(id[1..]);
      assert forall i :: 2 <= i < |h| ==> h[i] == Hex(id[1..])[i - 2];
      assert id == [id[0]] + id[1..];
    }
  }

  lemma UnhexOne(high: Byte, low: Byte, rest: Bytes)
    requires |rest| % 2 == 0 && IsHex(high) && IsHex(low) && Unhex(rest).Some?
    ensures Unhex([high, low] + rest) == Some([ValueOf(high) * 16 + ValueOf(low)] + Unhex(rest).value)
  {
    assert ([high, low] + rest)[2..] == rest;
  }

  /** Decoding succeeds exactly on hexadecimal digits. */
  lemma {:induction false} UnhexDefined(s: Bytes)
    requires |s| % 2 == 0
    ensures Unhex(s).Some? <==> AllHex(s)
    ensures Unhex(s).Some? ==> |Unhex(s).value| == |s| / 2
  {
    if s != [] {
      UnhexDefined(s[2..]);
      assert forall i :: 2 <= i < |s| ==> s[i] == s[2..][i - 2];
    }
  }

  lemma {:induction false} HexUnhex(s: Bytes)
    requires |s| % 2 == 0 && Unhex(s).Some?
    ensures Hex(Unhex(s).value) == s <==> AllLower(s)
  {
    if s != [] {
      HexUnhex(s[2..]);
      var b := Unhex(s).value;
      var high, low := ValueOf(s[0]), ValueOf(s[1]);
      assert b[0] == high * 16 + low && b[0] / 16 == high && b[0] % 16 == low;
      assert b[1..] == Unhex(s[2..]).value;
      assert s == [s[0], s[1]] + s[2..];
      assert Hex(b)[..2] == [Digit(high), Digit(low)] && Hex(b)[2..] == Hex(b[1..]);
      assert IsLower(s[0]) <==> Digit(high) == s[0];
      assert IsLower(s[1]) <==> Digit(low) == s[1];
      assert AllLower(s) <==> IsLower(s[0]) && IsLower(s[1]) && AllLower(s[2..]) by {
        assert forall i :: 2 <= i < |s| ==> s[i] == s[2..][i - 2];
      }
    }
  }

  lemma {:induction false} FirstDigitsAreHex(id: Bytes, n: nat)
    requires n <= |id|
    ensures FirstDigits(id, 2 * n) == Hex(id[..n])
  {
    if n > 0 {
      FirstDigitsAreHex(id[1..], n - 1);
      assert id[..n][1..] == id[1..][..n - 1];
    }
  }

  /** The created name in closed form. */
  lemma CreatedName(name: Bytes, branchId: Bytes)
    requires |branchId| == 32
    ensures CreateUniqueName(name, branchId) == name + SEPARATOR + Hex(branchId[..4])
  {
    FirstDigitsAreHex(branchId, 4);
    UnhexHex(branchId[..4]);
    var output := name + SEPARATOR + HexFmt(branchId, SUFFIX_LEN + 2);
    assert output == name + SEPARATOR + Hex(branchId[..4]) + [DOT, DOT];
  }

  // ---------------------------------------------------------------- the last separator

  /** No hexadecimal digit is part of a separator, so the one before the digits is the last. */
  lemma LastIsBeforeDigits(name: Bytes, digits: Bytes)
    requires AllHex(digits)
    ensures var s := name + SEPARATOR + digits; LastSeparator(s, |s|) == Some(|name|)
  {
    var s := name + SEPARATOR + digits;
    assert s[|name|..|name| + 2] == SEPARATOR;
    forall i | |name| < i < |s|
      ensures !SeparatorAt(s, i)
    {
      assert i + 2 <= |s| ==> s[i..i + 2][1] == digits[i - 1 - |name|];
      assert SEPARATOR[1] == 0x76 && !IsHex(0x76);
    }
    assert SeparatorAt(s, |name|);
  }

  /** An input that ends in ".v" and eight hex digits is split there, whatever comes before. */
  lemma ParseMeaning(unique: Bytes, name: Bytes, digits: Bytes)
    requires |digits| == SUFFIX_LEN && AllHex(digits) && unique == name + SEPARATOR + digits
    ensures Unhex(digits).Some? && ParseUniqueName(unique) == Parsed(name, Some(Unhex(digits).value))
  {
    LastIsBeforeDigits(name, digits);
    UnhexDefined(digits);
    assert unique[|name| + 2..] == digits && unique[..|name|] == name;
  }

  /** A suffix is found in no other input. */
  lemma ParsedSuffix(unique: Bytes)
    requires ParseUniqueName(unique).suffix.Some?
    ensures var p := ParseUniqueName(unique);
      var digits := unique[|unique| - SUFFIX_LEN..];
      && |unique| >= SUFFIX_LEN + 2
      && AllHex(digits)
      && unique == p.name + SEPARATOR + digits
      && Unhex(digits) == p.suffix
      && |p.suffix.value| == 4
  {
    var i := LastSeparator(unique, |unique|).value;
    var suffix := unique[i + 2..];
    UnhexDefined(suffix);
    assert unique == unique[..i] + unique[i..i + 2] + suffix;
    assert suffix == unique[|unique| - SUFFIX_LEN..];
  }

  /** Anything else is returned unchanged, with no suffix. */
  lemma ParsedPlain(unique: Bytes)
    requires ParseUniqueName(unique).suffix.None?
    ensures ParseUniqueName(unique).name == unique
    ensures !exists name: Bytes, digits: Bytes ::
      |digits| == SUFFIX_LEN && AllHex(digits) && unique == name + SEPARATOR + digits
  {
    forall name: Bytes, digits: Bytes | |digits| == SUFFIX_LEN && AllHex(digits)
      ensures unique != name + SEPARATOR + digits
    {
      if unique == name + SEPARATOR + digits { ParseMeaning(unique, name, digits); }
    }
  }

  // ---------------------------------------------------------------- round trips

  /** For every name, whatever separators it contains. */
  lemma ParseCreated(name: Bytes, branchId: Bytes)
    requires |branchId| == 32
    ensures ParseUniqueName(CreateUniqueName(name, branchId)) == Parsed(name, Some(branchId[..4]))
  {
    CreatedName(name, branchId);
    UnhexHex(branchId[..4]);
    ParseMeaning(CreateUniqueName(name, branchId), name, Hex(branchId[..4]));
  }

  lemma CreateIsInjective(name: Bytes, id: Bytes, name': Bytes, id': Bytes)
    requires |id| == 32 && |id'| == 32
    ensures CreateUniqueName(name, id) == CreateUniqueName(name', id') <==> name == name' && id[..4] == id'[..4]
  {
    ParseCreated(name, id);
    ParseCreated(name', id');
    CreatedName(name, id);
    CreatedName(name', id');
  }

  /** Conversely, a parsed name is created again exactly if its digits are in lower case. */
  lemma CreateParsed(unique: Bytes, branchId: Bytes)
    requires ParseUniqueName(unique).suffix.Some?
    requires |branchId| == 32 && branchId[..4] == ParseUniqueName(unique).suffix.value
    ensures CreateUniqueName(ParseUniqueName(unique).name, branchId) == unique <==>
      AllLower(unique[|unique| - SUFFIX_LEN..])
  {
    ParsedSuffix(unique);
    var p := ParseUniqueName(unique);
    var digits := unique[|unique| - SUFFIX_LEN..];
    CreatedName(p.name, branchId);
    HexUnhex(digits);
    UnhexHex(p.suffix.value);
    var created := p.name + SEPARATOR + Hex(p.suffix.value);
    assert created[|p.name| + 2..] == Hex(p.suffix.value) && unique[|p.name| + 2..] == digits;
  }

  /** Upper-case digits are read but never written. */
  lemma UpperCaseIsNotRecreated(branchId: Bytes)
    requires |branchId| == 32 && branchId[..4] == [0xAA, 0xAA, 0xAA, 0xAA]
    ensures var unique := SEPARATOR + seq(8, i => 0x41);
      && ParseUniqueName(unique) == Parsed([], Some(branchId[..4]))
      && CreateUniqueName([], branchId) != unique
  {
    var digits: Bytes := seq(8, i => 0x41);
    var unique := SEPARATOR + digits;
    assert unique == [] + SEPARATOR + digits;
    ParseMeaning(unique, [], digits);
    UnhexOne(0x41, 0x41, []);
    UnhexOne(0x41, 0x41, [0x41, 0x41]);
    UnhexOne(0x41, 0x41, [0x41, 0x41, 0x41, 0x41]);
    UnhexOne(0x41, 0x41, [0x41, 0x41, 0x41, 0x41, 0x41, 0x41]);
    assert digits == [0x41, 0x41] + [0x41, 0x41, 0x41, 0x41, 0x41, 0x41];
    CreateParsed(unique, branchId);
    assert !IsLower(unique[|unique| - SUFFIX_LEN..][0]);
  }
}
