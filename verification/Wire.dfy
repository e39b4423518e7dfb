/** Bytes and the little-endian integers every message of the protocol is built from. */
module Wire {

  type byte = b: int | 0 <= b < 0x100
  type bytes = seq<byte>

  datatype Option<+T> = None | Some(value: T)

  function Min(a: nat, b: nat): nat {
    if a < b then a else b
  }

  /** Little-endian, the lowest byte first. */
  function Value(b: bytes): nat {
    if b == [] then 0 else b[0] + 0x100 * Value(b[1..])
  }

  /** The lowest bytes of `n`, as many as `blank` has room for. */
  function WriteOver(blank: bytes, n: nat): (b: bytes)
    ensures |b| == |blank|
  {
    if blank == [] then [] else [n % 0x100] + WriteOver(blank[1..], n / 0x100)
  }

  /** One more than the greatest number `blank` has room for. */
  function Room(blank: bytes): nat {
    if blank == [] then 1 else 0x100 * Room(blank[1..])
  }

  lemma {:induction false} ValueFits(b: bytes)
    ensures Value(b) < Room(b)
  {
    if b != [] {
      ValueFits(b[1..]);
    }
  }

  lemma {:induction false} ValueOfWritten(blank: bytes, n: nat)
    requires n < Room(blank)
    ensures Value(WriteOver(blank, n)) == n
  {
    if blank != [] {
      ValueOfWritten(blank[1..], n / 0x100);
      assert WriteOver(blank, n)[1..] == WriteOver(blank[1..], n / 0x100);
    }
  }

  lemma LowAndHigh(low: byte, high: nat)
    ensures (low + 0x100 * high) % 0x100 == low && (low + 0x100 * high) / 0x100 == high
  {
  }

  lemma {:induction false} WrittenValue(blank: bytes, b: bytes)
    requires |blank| == |b|
    ensures WriteOver(blank, Value(b)) == b
  {
    if b != [] {
      WrittenValue(blank[1..], b[1..]);
      LowAndHigh(b[0], Value(b[1..]));
      assert b == [b[0]] + b[1..];
    }
  }

  const WORD16: bytes := [0, 0]
  const WORD32: bytes := [0, 0, 0, 0]

  lemma {:induction false} WordRoom()
    ensures Room(WORD16) == 0x1_0000 && Room(WORD32) == 0x1_0000_0000
  {
    assert WORD32[1..] == [0, 0, 0] && WORD32[2..] == WORD16 && WORD16[1..] == [0] && [0 as byte][1..] == [];
    assert WORD32[1..][1..] == WORD16;
    assert Room([0]) == 0x100;
    assert Room(WORD32[1..]) == 0x100_0000;
  }

  lemma {:induction false} RoomBySize(a: bytes, b: bytes)
    requires |a| == |b|
    ensures Room(a) == Room(b)
  {
    if a != [] {
      RoomBySize(a[1..], b[1..]);
    }
  }

  function U16(lo: byte, hi: byte): (n: nat)
    ensures n < 0x1_0000
  {
    ValueFits([lo, hi]);
    RoomBySize([lo, hi], WORD16);
    WordRoom();
    Value([lo, hi])
  }

  function U32(b0: byte, b1: byte, b2: byte, b3: byte): (n: nat)
    ensures n < 0x1_0000_0000
  {
    ValueFits([b0, b1, b2, b3]);
    RoomBySize([b0, b1, b2, b3], WORD32);
    WordRoom();
    Value([b0, b1, b2, b3])
  }

  /** The lowest byte comes first. */
  lemma LowestFirst(b0: byte, b1: byte, b2: byte, b3: byte)
    ensures U16(b0, b1) == (b0 as int) + 0x100 * (b1 as int)
    ensures U32(b0, b1, b2, b3) == (b0 as int) + 0x100 * (b1 as int) + 0x1_0000 * (b2 as int) + 0x100_0000 * (b3 as int)
  {
    ValueOfFour([b0, b1, b2, b3]);
    assert [b0, b1][1..] == [b1] && [b1][1..] == [];
    assert Value([b1]) == b1;
  }

  lemma ValueOfFour(b: bytes)
    requires |b| == 4
    ensures Value(b) == (b[0] as int) + 0x100 * (b[1] as int) + 0x1_0000 * (b[2] as int) + 0x100_0000 * (b[3] as int)
  {
    assert b[1..][1..] == b[2..] && b[2..][1..] == b[3..] && b[3..][1..] == [];
    assert Value(b[3..]) == b[3];
    assert Value(b[2..]) == b[2] + 0x100 * Value(b[3..]);
    assert Value(b[1..]) == b[1] + 0x100 * Value(b[2..]);
  }

  /** The two bytes whose U16 is `n`. */
  function PackU16(n: nat): (b: bytes)
    requires n < 0x1_0000
    ensures |b| == 2 && U16(b[0], b[1]) == n
  {
    WordRoom();
    ValueOfWritten(WORD16, n);
    var b := WriteOver(WORD16, n);
    assert b == [b[0], b[1]];
    b
  }

  /** The four bytes whose U32 is `n`. */
  function PackU32(n: nat): (b: bytes)
    requires n < 0x1_0000_0000
    ensures |b| == 4 && U32(b[0], b[1], b[2], b[3]) == n
  {
    WordRoom();
    ValueOfWritten(WORD32, n);
    var b := WriteOver(WORD32, n);
    assert b == [b[0], b[1], b[2], b[3]];
    b
  }

  lemma PackU16Inverse(lo: byte, hi: byte)
    ensures PackU16(U16(lo, hi)) == [lo, hi]
  {
    WrittenValue(WORD16, [lo, hi]);
  }

  lemma PackU32Inverse(b0: byte, b1: byte, b2: byte, b3: byte)
    ensures PackU32(U32(b0, b1, b2, b3)) == [b0, b1, b2, b3]
  {
    WrittenValue(WORD32, [b0, b1, b2, b3]);
  }

  function Last<T>(s: seq<T>): T
    requires s != []
  {
    s[|s| - 1]
  }

  function Init<T>(s: seq<T>): seq<T>
    requires s != []
  {
    s[..|s| - 1]
  }

  // ----- Sequence facts, each on its own so that a proof can cite just the one it needs -----

  lemma Assoc<T>(a: seq<T>, b: seq<T>, c: seq<T>)
    ensures a + b + c == a + (b + c)
  {
  }

  lemma SliceInTwo<T>(s: seq<T>, i: nat, j: nat, k: nat)
    requires i <= j <= k <= |s|
    ensures s[i..k] == s[i..j] + s[j..k]
  {
  }

  lemma PrefixInTwo<T>(s: seq<T>, head: seq<T>, tail: seq<T>)
    requires head <= s && tail <= s[|head|..]
    ensures head + tail <= s
  {
  }

  /** A slice of a slice. */
  lemma SliceOfSlice<T>(s: seq<T>, at: nat, i: nat, j: nat)
    requires at + j <= |s| && i <= j
    ensures s[at..][i..j] == s[at + i..at + j]
  {
  }

  lemma SlicePrefix<T>(p: seq<T>, s: seq<T>, i: nat, j: nat)
    requires p <= s && i <= j <= |p|
    ensures s[i..j] == p[i..j]
  {
  }

  lemma BehindPrefix<T>(a: seq<T>, b: seq<T>, s: seq<T>)
    requires a + b <= s
    ensures a <= s && s[|a|..|a| + |b|] == b
  {
    assert (a + b)[|a|..] == b;
  }

  lemma MiddleOf<T>(a: seq<T>, b: seq<T>, c: seq<T>)
    ensures (a + b + c)[|a|..|a + b|] == b
  {
  }

  lemma SplitInThree<T>(s: seq<T>, i: nat, j: nat)
    requires i <= j <= |s|
    ensures s == s[..i] + s[i..j] + s[j..]
  {
  }
}
