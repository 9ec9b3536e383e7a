/** The identifiers that are made up for runs registered without one. */
module RunIds {
  import R = RunRegistry

  type Byte = b: nat | b < 256

  function Digit(n: nat): char
    requires n < 16
  {
    if n < 10 then ('0' as int + n) as char else ('a' as int + n - 10) as char
  }

  function Hex(bytes: seq<Byte>): string {
    if bytes == [] then "" else [Digit(bytes[0] / 16), Digit(bytes[0] % 16)] + Hex(bytes[1..])
  }

  /** The id made for a request without one. */
  function GeneratedId(bytes: seq<Byte>): string { "run_" + Hex(bytes) }

  lemma {:induction false} HexIsPlain(bytes: seq<Byte>)
    ensures |Hex(bytes)| == 2 * |bytes| && forall i :: 0 <= i < |Hex(bytes)| ==> R.RunIdChar(Hex(bytes)[i])
    decreases |bytes|
  {
    if bytes == [] {
    } else {
      HexIsPlain(bytes[1..]);
    }
  }

  /** Sixteen bytes make a valid id of 36 characters. */
  lemma GeneratedIdIsValid(bytes: seq<Byte>)
    requires |bytes| == 16
    ensures R.ValidRunId(GeneratedId(bytes)) && |GeneratedId(bytes)| == 36
    ensures GeneratedId(bytes)[..4] == ['r', 'u', 'n', '_']
  {
    HexIsPlain(bytes);
  }

  lemma OneByte(a: Byte, b: Byte)
    requires Digit(a / 16) == Digit(b / 16) && Digit(a % 16) == Digit(b % 16)
    ensures a == b
  {
    assert a / 16 == b / 16 && a % 16 == b % 16;
  }

  lemma {:induction false} HexIsInjective(a: seq<Byte>, b: seq<Byte>)
    requires Hex(a) == Hex(b)
    ensures a == b
    decreases |a|
  {
    HexIsPlain(a);
    HexIsPlain(b);
    if a == [] {
    } else {
      hide Digit;
      assert Hex(a)[0] == Digit(a[0] / 16) && Hex(a)[1] == Digit(a[0] % 16);
      assert Hex(b)[0] == Digit(b[0] / 16) && Hex(b)[1] == Digit(b[0] % 16);
      OneByte(a[0], b[0]);
      assert Hex(a)[2..] == Hex(a[1..]) && Hex(b)[2..] == Hex(b[1..]);
      HexIsInjective(a[1..], b[1..]);
      assert a == [a[0]] + a[1..] && b == [b[0]] + b[1..];
    }
  }

  /** Different bytes make different ids. */
  lemma GeneratedIdsDiffer(a: seq<Byte>, b: seq<Byte>)
    ensures GeneratedId(a) == GeneratedId(b) <==> a == b
  {
    if GeneratedId(a) == GeneratedId(b) {
      assert GeneratedId(a)[4..] == Hex(a) && GeneratedId(b)[4..] == Hex(b);
      HexIsInjective(a, b);
    }
  }
}
