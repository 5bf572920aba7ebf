// The passt-binary-patcher script: a four-byte patch of one jae instruction, made with dd and od.
module PasstPatch {
  import opened Common

  const JAE := 164189       // 0x2815d, where the instruction starts
  const OPERAND := 164191   // 0x2815f, where its rel32 operand starts
  const EXPECTED := "0f83d2000000"
  const EXPECTED_BYTES: Bytes := [0x0f, 0x83, 0xd2, 0, 0, 0]
  const NEW_OPERAND: Bytes := [0x58, 0, 0, 0]

  // -------- od -A n -t x1 | tr -d ' \n' --------

  function HexDigit(d: nat): char
    requires d < 16
  {
    if d < 10 then '0' + d as char else 'a' + (d - 10) as char
  }

  function Hex(s: Bytes): (h: string)
    ensures |h| == 2 * |s|
  {
    if s == [] then ""
    else [HexDigit(s[0] as nat / 16), HexDigit(s[0] as nat % 16)] + Hex(s[1..])
  }

  lemma SameByte(x: byte, y: byte)
    requires HexDigit(x as nat / 16) == HexDigit(y as nat / 16)
    requires HexDigit(x as nat % 16) == HexDigit(y as nat % 16)
    ensures x == y
  {
    assert x as nat / 16 == y as nat / 16 && x as nat % 16 == y as nat % 16;
  }

  lemma {:induction false} HexInjective(a: Bytes, b: Bytes)
    requires Hex(a) == Hex(b)
    ensures a == b
  {
    if a == [] {
    } else {
      assert Hex(a)[0] == Hex(b)[0] && Hex(a)[1] == Hex(b)[1];
      SameByte(a[0], b[0]);
      assert Hex(a)[2..] == Hex(a[1..]) && Hex(b)[2..] == Hex(b[1..]);
      HexInjective(a[1..], b[1..]);
      assert a == [a[0]] + a[1..] && b == [b[0]] + b[1..];
    }
  }

  lemma HexOfExpected()
    ensures Hex(EXPECTED_BYTES) == EXPECTED
  {
    assert Hex([0]) == "00" && Hex([0, 0]) == "0000" && Hex([0, 0, 0]) == "000000";
    assert Hex([0xd2, 0, 0, 0]) == "d2000000";
    assert Hex([0x83, 0xd2, 0, 0, 0]) == "83d2000000";
  }

  // -------- what the patch does --------

  predicate Matches(s: Bytes) {
    |s| >= JAE + 6 && s[JAE..JAE + 6] == EXPECTED_BYTES
  }

  function Patched(s: Bytes): Bytes {
    if Matches(s) then s[..OPERAND] + NEW_OPERAND + s[OPERAND + 4..] else s
  }

  // dd skip=.. count=..: what is there, at most count bytes.
  function Slice(s: Bytes, skip: nat, count: nat): Bytes {
    if skip >= |s| then [] else if skip + count <= |s| then s[skip..skip + count] else s[skip..]
  }

  lemma ComparesEqualIff(s: Bytes)
    ensures Hex(Slice(s, JAE, 6)) == EXPECTED <==> Matches(s)
  {
    HexOfExpected();
    if Hex(Slice(s, JAE, 6)) == EXPECTED {
      HexInjective(Slice(s, JAE, 6), EXPECTED_BYTES);
    }
  }

  method DdRead(src: array<byte>, skip: nat, count: nat) returns (bytes: Bytes)
    ensures bytes == Slice(src[..], skip, count)
  {
    bytes := [];
    var i := skip;
    while i < skip + count && i < src.Length
      invariant skip <= i
      invariant i <= skip + count
      invariant |bytes| == i - skip
      invariant i <= src.Length || bytes == []
      invariant i <= src.Length ==> bytes == src[skip..i]
    {
      bytes := bytes + [src[i]];
      i := i + 1;
    }
  }

  method DdWrite(out: array<byte>, seek: nat, data: Bytes)
    requires seek + |data| <= out.Length
    modifies out
    ensures out[..] == old(out[..seek]) + data + old(out[seek + |data|..])
  {
    for i := 0 to |data|
      invariant forall k :: seek <= k < seek + i ==> out[k] == data[k - seek]
      invariant forall k :: 0 <= k < seek || seek + i <= k < out.Length ==> out[k] == old(out[k])
    {
      out[seek + i] := data[i];
    }
  }

  // The script: copy, compare, and overwrite the operand in the copy.
  method PatchBinary(src: array<byte>) returns (out: array<byte>)
    ensures fresh(out) && out[..] == Patched(src[..])
  {
    out := new byte[src.Length];
    for i := 0 to src.Length
      invariant out[..i] == src[..i]
    {
      out[i] := src[i];
    }
    assert out[..] == src[..];
    var actual := DdRead(src, JAE, 6);
    ComparesEqualIff(src[..]);
    if Hex(actual) == EXPECTED {
      DdWrite(out, OPERAND, NEW_OPERAND);
    }
  }

  // -------- what the patch means --------

  // rel32: little-endian, two's complement.
  function Rel32(s: Bytes): int
    requires |s| == 4
  {
    var u := s[0] as int + 0x100 * s[1] as int + 0x1_0000 * s[2] as int + 0x100_0000 * s[3] as int;
    if u < 0x8000_0000 then u else u - 0x1_0000_0000
  }

  // Where the six-byte jae at the given offset jumps.
  function JaeTarget(s: Bytes, at: nat): int
    requires at + 6 <= |s|
  {
    at + 6 + Rel32(s[at + 2..at + 6])
  }

  // The copy has the length of the source and differs from it at 164191 if the six bytes match, and
  // nowhere else.
  lemma PatchIsExact(s: Bytes)
    ensures |Patched(s)| == |s|
    ensures forall i :: 0 <= i < |s| ==> (Patched(s)[i] != s[i] <==> Matches(s) && i == OPERAND)
    ensures Patched(s) != s <==> Matches(s)
  {
    if Matches(s) {
      var six := s[JAE..JAE + 6];
      assert six[2] == s[OPERAND] && six[3] == s[OPERAND + 1] && six[4] == s[OPERAND + 2] && six[5] == s[OPERAND + 3];
      assert Patched(s)[OPERAND] == 0x58;
    }
  }

  // The jump moves from the abort path to the truncation epilogue.
  lemma JumpIsRedirected(s: Bytes)
    requires Matches(s)
    ensures JaeTarget(s, JAE) == 0x28235
    ensures JaeTarget(Patched(s), JAE) == 0x281bb
    ensures Patched(s)[JAE..OPERAND] == s[JAE..OPERAND]
  {
    assert s[JAE + 2..JAE + 6] == EXPECTED_BYTES[2..6] by {
      assert s[JAE + 2..JAE + 6] == s[JAE..JAE + 6][2..6];
    }
    assert Patched(s)[JAE + 2..JAE + 6] == NEW_OPERAND;
  }

  lemma PatchIsIdempotent(s: Bytes)
    ensures Patched(Patched(s)) == Patched(s)
  {
    if Matches(s) {
      assert Patched(s)[JAE..JAE + 6][2] == 0x58;
    }
  }
}
