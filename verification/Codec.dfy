/** An independent reading of the wire format: what any receiver of the stream can make of it. */
module Codec {
  import opened Wire

  datatype Decoded = Decoded(path: string, content: string)

  /** The first record of a stream and what follows it. */
  function DecodeOne(s: string): (r: Option<(Decoded, string)>)
    ensures r.Some? ==> |r.value.1| < |s|
  {
    if |s| < 6 then None
    else
      var length, size := FromBigEndian(s[..2]), FromBigEndian(s[2..6]);
      if |s| < 6 + length + size then None
      else Some((Decoded(s[6..6 + length], s[6 + length..6 + length + size]), s[6 + length + size..]))
  }

  /** Records up to and including the first one that ends the transfer, and the bytes after it. */
  function DecodeAll(s: string): Option<(seq<Decoded>, string)>
    decreases |s|
  {
    match DecodeOne(s)
    case None => None
    case Some((first, rest)) =>
      if EndsTransfer(first.path) then Some(([first], rest))
      else match DecodeAll(rest)
        case None => None
        case Some((others, end)) => Some(([first] + others, end))
  }

  function Sent(disk: map<string, string>, path: string): Decoded {
    Decoded(path, Payload(Body(disk, path)))
  }

  function SentAll(disk: map<string, string>, paths: seq<string>): (r: seq<Decoded>)
    ensures |r| == |paths|
  {
    seq(|paths|, i requires 0 <= i < |paths| => Sent(disk, paths[i]))
  }

  lemma OneRoundTrip(disk: map<string, string>, path: string, rest: string)
    requires |path| < TWO_16
    ensures DecodeOne(Encode(disk, path) + rest) == Some((Sent(disk, path), rest))
  {
    hide BigEndian, FromBigEndian, Payload, Body;
    var body := Body(disk, path);
    var data := Payload(body);
    var a, b := BigEndian(|path|, 2), BigEndian(|body|, 4);
    FieldRoundTrip(|path|);
    FieldRoundTrip(|body|);
    PayloadSize(body);
    var s := Encode(disk, path) + rest;
    assert s == a + b + path + data + rest;
    Fields(a, b, path, data, rest);
  }

  lemma PayloadSize(content: string)
    ensures |Payload(content)| == |content| % TWO_32
  {
  }

  lemma Fields(a: string, b: string, path: string, data: string, rest: string)
    requires |a| == 2 && |b| == 4
    ensures var s := a + b + path + data + rest;
            && s[..2] == a && s[2..6] == b && s[6..6 + |path|] == path
            && s[6 + |path|..6 + |path| + |data|] == data && s[6 + |path| + |data|..] == rest
  {
  }

  /** Stream round trip: the encodings of any files followed by the termination message decode to
      exactly those files and contents, up to the cut of sizes to 32 bits, and every byte is used. */
  lemma {:induction false} StreamRoundTrip(disk: map<string, string>, files: seq<string>, rest: string)
    requires forall i | 0 <= i < |files| :: |files[i]| < TWO_16 && !EndsTransfer(files[i])
    ensures DecodeAll(EncodeAll(disk, files + [TERMINATION_MSG]) + rest)
            == Some((SentAll(disk, files + [TERMINATION_MSG]), rest))
  {
    hide Encode, DecodeOne, Payload, Body, EndsTransfer, EncodeAll;
    var all := files + [TERMINATION_MSG];
    var first, others := all[0], all[1..];
    EncodeFirst(disk, all);
    var tail := EncodeAll(disk, others) + rest;
    assert EncodeAll(disk, all) + rest == Encode(disk, first) + tail;
    TerminationEnds();
    OneRoundTrip(disk, first, tail);
    if files == [] {
      assert others == [];
      NoneEncoded(disk);
      assert tail == rest;
      assert SentAll(disk, all) == [Sent(disk, first)];
    } else {
      assert others == files[1..] + [TERMINATION_MSG];
      StreamRoundTrip(disk, files[1..], rest);
      assert SentAll(disk, all) == [Sent(disk, first)] + SentAll(disk, others);
    }
  }

  lemma TerminationEnds()
    ensures EndsTransfer(TERMINATION_MSG) && |TERMINATION_MSG| < TWO_16
  {
    assert |TERMINATION_MSG| == 25;
  }

  lemma NoneEncoded(disk: map<string, string>)
    ensures EncodeAll(disk, []) == ""
  {
  }

  lemma OneEncoded(disk: map<string, string>, path: string)
    ensures EncodeAll(disk, [path]) == Encode(disk, path)
  {
    hide Encode;
    assert [path][..0] == [];
    assert EncodeAll(disk, []) == "";
  }

  lemma EncodeFirst(disk: map<string, string>, paths: seq<string>)
    requires paths != []
    ensures EncodeAll(disk, paths) == Encode(disk, paths[0]) + EncodeAll(disk, paths[1..])
  {
    hide Encode, EncodeAll;
    assert paths == [paths[0]] + paths[1..];
    EncodeAllAppends(disk, [paths[0]], paths[1..]);
    OneEncoded(disk, paths[0]);
  }

  /** What a decoder makes of a sent file is the file itself if and only if it is below 4 GiB. */
  lemma DecodedContentIsWholeIff(disk: map<string, string>, path: string, rest: string)
    requires path in disk && path != TERMINATION_MSG && |path| < TWO_16
    ensures DecodeOne(Encode(disk, path) + rest).Some?
    ensures var (first, end) := DecodeOne(Encode(disk, path) + rest).value;
            && end == rest && first.path == path && first.content == disk[path][..|disk[path]| % TWO_32]
            && (first.content == disk[path] <==> |disk[path]| < TWO_32)
  {
    OneRoundTrip(disk, path, rest);
    PayloadIsWholeIff(disk[path]);
  }
}
