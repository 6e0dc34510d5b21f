/** Constants of headers/libraries.h, the generic helpers of the model, and the
    wire format between a server worker and a client.

    A byte is a `char`: every statement below holds for any symbol a path or a file may
    contain, so in particular for the 256 values of a C `char`. */
module Wire {

  datatype Option<+T> = None | Some(value: T)

  const MAX_LENGTH: nat := 4096
  const DEFAULT_DIR := "/home/users/"
  const ACK_MSG := "ACK"
  const TERM_MSG := "END"
  const TERMINATION_MSG := "ALL FILES WERE TRANSFERED"

  const TWO_16: nat := 0x1_0000
  const TWO_31: nat := 0x8000_0000
  const TWO_32: nat := 0x1_0000_0000
  const TWO_64: nat := 0x1_0000_0000_0000_0000

  /** The client's test for the last record, a `strncmp` of the message's length. */
  predicate EndsTransfer(path: string) {
    TERMINATION_MSG <= path
  }

  // ---------------------------------------------------------------- network byte order

  /** The last `width` base-256 digits of `n`, most significant first: `htons` is width 2 and
      `htonl` width 4, so a value that does not fit is truncated. */
  function BigEndian(n: nat, width: nat): (r: string)
    ensures |r| == width
  {
    if width == 0 then "" else BigEndian(n / 0x100, width - 1) + [(n % 0x100) as char]
  }

  /** `ntohs` on two bytes, `ntohl` on four. */
  function FromBigEndian(b: string): nat {
    if b == "" then 0 else FromBigEndian(b[..|b| - 1]) * 0x100 + b[|b| - 1] as int
  }

  function Power256(width: nat): (r: nat)
    ensures r >= 1
  {
    if width == 0 then 1 else 0x100 * Power256(width - 1)
  }

  /** The order on the wire: byte `i` of a field is the digit that `width - 1 - i` more follow. */
  lemma {:induction false} DigitAt(n: nat, width: nat, i: nat)
    requires i < width
    ensures BigEndian(n, width)[i] as int == n / Power256(width - 1 - i) % 0x100
  {
    if i < width - 1 {
      DigitAt(n / 0x100, width - 1, i);
      DivideTwice(n, 0x100, Power256(width - 2 - i));
    }
  }

  lemma DivideTwice(n: nat, a: nat, b: nat)
    requires a >= 1 && b >= 1
    ensures a * b >= 1 && n / a / b == n / (a * b)
  {
    var q, r := n / a, n % a;
    var q', r' := q / b, q % b;
    Nested(a, b, q', r', r);
    QuotientIsUnique(n, a * b, q', a * r' + r);
  }

  lemma Nested(a: nat, b: nat, q: nat, r': nat, r: nat)
    requires r < a && r' < b
    ensures a * (b * q + r') + r == q * (a * b) + (a * r' + r)
    ensures a * r' + r < a * b
  {
    assert a * (b * q + r') == a * (b * q) + a * r';
    assert a * (b * q) == q * (a * b);
    assert a * r' <= a * (b - 1) && a * (b - 1) == a * b - a;
  }

  /** `htons` and `htonl`: the most significant byte goes first. */
  lemma MostSignificantFirst(n: nat)
    ensures BigEndian(n, 2) == [(n / 0x100 % 0x100) as char, (n % 0x100) as char]
    ensures BigEndian(n, 4)
         == [(n / 0x100_0000 % 0x100) as char, (n / 0x1_0000 % 0x100) as char, (n / 0x100 % 0x100) as char,
             (n % 0x100) as char]
  {
    assert Power256(0) == 1 && Power256(1) == 0x100 && Power256(2) == 0x1_0000;
    assert Power256(3) == 0x100 * Power256(2) == 0x100_0000;
    hide BigEndian, Power256;
    DigitAt(n, 2, 0);
    DigitAt(n, 2, 1);
    DigitAt(n, 4, 0);
    DigitAt(n, 4, 1);
    DigitAt(n, 4, 2);
    DigitAt(n, 4, 3);
  }

  /** `ntohs` and `ntohl`: the first byte weighs most. */
  lemma FirstWeighsMost(b: string)
    ensures |b| == 2 ==> FromBigEndian(b) == 0x100 * b[0] as int + b[1] as int
    ensures |b| == 4 ==>
              FromBigEndian(b) == 0x100_0000 * b[0] as int + 0x1_0000 * b[1] as int + 0x100 * b[2] as int + b[3] as int
  {
    if |b| == 2 {
      assert FromBigEndian(b[..1][..0]) == 0;
    } else if |b| == 4 {
      assert b[..3][..2] == b[..2] && b[..2][..1] == b[..1] && b[..1][..0] == "";
      assert FromBigEndian(b[..1]) == b[0] as int;
      assert FromBigEndian(b[..2]) == 0x100 * b[0] as int + b[1] as int;
      assert FromBigEndian(b[..3]) == 0x1_0000 * b[0] as int + 0x100 * b[1] as int + b[2] as int;
    }
  }

  /** Reading back what was written gives the value modulo the field's range. */
  lemma {:induction false} NetworkOrderRoundTrip(n: nat, width: nat)
    ensures FromBigEndian(BigEndian(n, width)) == n % Power256(width)
  {
    if width != 0 {
      var b := BigEndian(n, width);
      assert b[..|b| - 1] == BigEndian(n / 0x100, width - 1);
      NetworkOrderRoundTrip(n / 0x100, width - 1);
      DigitSplit(n, Power256(width - 1));
    }
  }

  lemma DigitSplit(n: nat, p: nat)
    requires p >= 1
    ensures n / 0x100 % p * 0x100 + n % 0x100 == n % (0x100 * p)
  {
    var q := n / 0x100 / p;
    assert n / 0x100 == q * p + n / 0x100 % p;
    var r := n / 0x100 % p * 0x100 + n % 0x100;
    assert n == q * (0x100 * p) + r;
    QuotientIsUnique(n, 0x100 * p, q, r);
  }

  lemma QuotientIsUnique(n: int, d: nat, q: int, r: int)
    requires d >= 1 && n == q * d + r && 0 <= r < d
    ensures n % d == r
  {
    var k := n / d - q;
    assert n == n / d * d + n % d;
    assert k * d == r - n % d;
    assert k >= 1 ==> k * d >= d;
    assert k <= -1 ==> k * d <= 0 - d;
  }

  lemma FieldRoundTrip(n: nat)
    ensures n < TWO_16 ==> FromBigEndian(BigEndian(n, 2)) == n
    ensures FromBigEndian(BigEndian(n, 4)) == n % TWO_32
  {
    hide BigEndian, FromBigEndian;
    NetworkOrderRoundTrip(n, 2);
    NetworkOrderRoundTrip(n, 4);
    assert Power256(1) == 0x100;
    assert Power256(2) == TWO_16;
    assert Power256(3) == 0x100_0000;
    assert Power256(4) == TWO_32;
  }

  // ---------------------------------------------------------------- records

  /** What the server's file system holds at a path. */
  function Contents(disk: map<string, string>, path: string): string {
    if path in disk then disk[path] else ""
  }

  /** The bytes of a file that go on the wire: `st_size` is cut to 32 bits before the send loop
      counts it down. */
  function Payload(content: string): string {
    content[..|content| % TWO_32]
  }

  /** A file arrives whole exactly when it is smaller than 4 GiB. */
  lemma PayloadIsWholeIff(content: string)
    ensures Payload(content) == content <==> |content| < TWO_32
  {
    assert |Payload(content)| == |content| % TWO_32;
  }

  /** One framed message: path length, payload size, path, payload. */
  function Frame(path: string, content: string): string {
    BigEndian(|path|, 2) + BigEndian(|content|, 4) + path + Payload(content)
  }

  /** What goes into the record of a queued path: the termination message has no content. */
  function Body(disk: map<string, string>, path: string): string {
    if path == TERMINATION_MSG then "" else Contents(disk, path)
  }

  function Encode(disk: map<string, string>, path: string): (r: string)
    ensures |r| == 6 + |path| + |Payload(Body(disk, path))|
  {
    Frame(path, Body(disk, path))
  }

  /** The record of a file on the disk: both sizes, the path, and the file's bytes, all of them when there
      are fewer than 4 GiB. */
  lemma EncodedFile(disk: map<string, string>, path: string)
    requires path in disk && path != "ALL FILES WERE TRANSFERED"
    ensures Encode(disk, path)
         == BigEndian(|path|, 2) + BigEndian(|disk[path]|, 4) + path + disk[path][..|disk[path]| % 0x1_0000_0000]
    ensures |disk[path]| < 0x1_0000_0000 ==>
              Encode(disk, path) == BigEndian(|path|, 2) + BigEndian(|disk[path]|, 4) + path + disk[path]
  {
    hide BigEndian;
    if |disk[path]| < TWO_32 {
      assert disk[path][..|disk[path]|] == disk[path];
    }
  }

  /** The termination record has size 0 and no content, whatever is on the disk. */
  lemma EncodedTermination(disk: map<string, string>)
    ensures Encode(disk, "ALL FILES WERE TRANSFERED")
         == [0 as char, 25 as char] + [0 as char, 0 as char, 0 as char, 0 as char] + "ALL FILES WERE TRANSFERED"
  {
    MostSignificantFirst(25);
    MostSignificantFirst(0);
    hide BigEndian;
    assert |TERMINATION_MSG| == 25 && Payload("") == "";
    assert Encode(disk, TERMINATION_MSG) == BigEndian(25, 2) + BigEndian(0, 4) + TERMINATION_MSG + "";
  }

  function EncodeAll(disk: map<string, string>, paths: seq<string>): string {
    if paths == [] then ""
    else EncodeAll(disk, paths[..|paths| - 1]) + Encode(disk, paths[|paths| - 1])
  }

  lemma {:induction false} EncodeAllAppends(disk: map<string, string>, a: seq<string>, b: seq<string>)
    ensures EncodeAll(disk, a + b) == EncodeAll(disk, a) + EncodeAll(disk, b)
  {
    hide Encode;
    if b == [] {
      assert a + b == a;
    } else {
      var init, last := b[..|b| - 1], Encode(disk, b[|b| - 1]);
      EncodeAllAppends(disk, a, init);
      assert (a + b)[..|a + b| - 1] == a + init && (a + b)[|a + b| - 1] == b[|b| - 1];
      Reassociate(EncodeAll(disk, a), EncodeAll(disk, init), last);
    }
  }

  lemma Reassociate(x: string, y: string, z: string)
    ensures (x + y) + z == x + (y + z)
  {
  }

  /** A slice of a slice is a slice. */
  lemma SliceOfSlice(s: string, base: nat, end: nat, a: nat, b: nat)
    requires base <= end <= |s| && a <= b <= end - base
    ensures s[base..end][a..b] == s[base + a..base + b]
  {
    forall k | 0 <= k < b - a
      ensures s[base..end][a..b][k] == s[base + a..base + b][k]
    {
    }
  }

  /** Record `i` occupies its own stretch of the stream, and nothing else does. */
  lemma RecordAt(disk: map<string, string>, paths: seq<string>, i: nat)
    requires i < |paths|
    ensures EncodeAll(disk, paths[..i + 1]) == EncodeAll(disk, paths[..i]) + Encode(disk, paths[i])
    ensures EncodeAll(disk, paths[..i + 1]) <= EncodeAll(disk, paths)
  {
    assert paths[..i + 1][..i] == paths[..i];
    assert paths == paths[..i + 1] + paths[i + 1..];
    EncodeAllAppends(disk, paths[..i + 1], paths[i + 1..]);
  }
}
