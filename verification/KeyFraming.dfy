/** The framing under a cache key: each part goes into the hash behind its length in eight bytes. */
module KeyFraming {
  import opened Prelude

  const SIZE_BOUND := 0x1_0000_0000_0000_0000

  // n in `width` bytes, most significant first, discarding what does not fit.
  function BigEndian(n: nat, width: nat): (r: Bytes)
    ensures |r| == width
  {
    if width == 0 then [] else BigEndian(n / 256, width - 1) + [(n % 256) as byte]
  }

  function FromBigEndian(s: Bytes): nat {
    if s == [] then 0 else FromBigEndian(s[..|s| - 1]) * 256 + s[|s| - 1] as nat
  }

  function Power256(width: nat): (r: nat)
    ensures r > 0
  {
    if width == 0 then 1 else 256 * Power256(width - 1)
  }

  lemma {:induction false} BigEndianRoundTrip(n: nat, width: nat)
    requires n < Power256(width)
    ensures FromBigEndian(BigEndian(n, width)) == n
  {
    if width > 0 {
      BigEndianRoundTrip(n / 256, width - 1);
      var r := BigEndian(n, width);
      assert r[..|r| - 1] == BigEndian(n / 256, width - 1);
    }
  }

  /** The first byte weighs most. */
  lemma {:induction false} MostSignificantFirst(b: byte, rest: Bytes)
    ensures FromBigEndian([b] + rest) == b as nat * Power256(|rest|) + FromBigEndian(rest)
  {
    if rest == [] {
      assert ([b] + rest)[..0] == [];
    } else {
      var n := |rest| - 1;
      MostSignificantFirst(b, rest[..n]);
      assert ([b] + rest)[..|rest|] == [b] + rest[..n];
    }
  }

  function Framed(part: Bytes): (r: Bytes)
    ensures |r| == 8 + |part|
  {
    BigEndian(|part|, 8) + part
  }

  /** Everything the hash is fed for these parts. */
  function Preimage(parts: seq<Bytes>): Bytes {
    if parts == [] then [] else Preimage(parts[..|parts| - 1]) + Framed(parts[|parts| - 1])
  }

  // Read framed parts back until the input is used up; None if it is cut short.
  function Unframe(s: Bytes): Option<seq<Bytes>>
    decreases |s|
  {
    if s == [] then Some([])
    else if |s| < 8 then None
    else
      var size := FromBigEndian(s[..8]);
      if |s| < 8 + size then None
      else
        match Unframe(s[8 + size..])
        case None => None
        case Some(rest) => Some([s[8..8 + size]] + rest)
  }

  ghost predicate Short(parts: seq<Bytes>) {
    forall i :: 0 <= i < |parts| ==> |parts[i]| < SIZE_BOUND
  }

  lemma SizeFits()
    ensures Power256(8) == SIZE_BOUND
  {
    assert Power256(4) == 0x1_0000_0000;
    assert Power256(8) == 256 * 256 * 256 * 256 * Power256(4);
  }

  lemma UnframeFirst(part: Bytes, rest: Bytes)
    requires |part| < SIZE_BOUND
    ensures Unframe(Framed(part) + rest) == Prefixed([part], Unframe(rest))
  {
    SizeFits();
    BigEndianRoundTrip(|part|, 8);
    var s := Framed(part) + rest;
    assert s[..8] == BigEndian(|part|, 8);
    assert s[8..8 + |part|] == part;
    assert s[8 + |part|..] == rest;
  }

  // What is read from a preimage with more input behind it.
  ghost function Prefixed(parts: seq<Bytes>, rest: Option<seq<Bytes>>): Option<seq<Bytes>> {
    match rest
    case None => None
    case Some(more) => Some(parts + more)
  }

  lemma PrefixedTwice(front: seq<Bytes>, last: Bytes, rest: Option<seq<Bytes>>)
    ensures Prefixed(front, Prefixed([last], rest)) == Prefixed(front + [last], rest)
    ensures Prefixed([], rest) == rest
  {
    match rest
    case None =>
    case Some(more) =>
      assert front + ([last] + more) == front + [last] + more;
      assert [] + more == more;
  }

  lemma {:induction false} UnframeAll(parts: seq<Bytes>, rest: Bytes)
    requires Short(parts)
    ensures Unframe(Preimage(parts) + rest) == Prefixed(parts, Unframe(rest))
  {
    if parts == [] {
      assert Preimage(parts) + rest == rest;
      PrefixedTwice([], [], Unframe(rest));
    } else {
      var front, last := parts[..|parts| - 1], parts[|parts| - 1];
      UnframeAll(front, Framed(last) + rest);
      UnframeFirst(last, rest);
      assert Preimage(parts) + rest == Preimage(front) + (Framed(last) + rest);
      PrefixedTwice(front, last, Unframe(rest));
      assert front + [last] == parts;
    }
  }

  /** Reading a preimage back gives exactly the parts it was made of. */
  lemma FramingRoundTrip(parts: seq<Bytes>)
    requires Short(parts)
    ensures Unframe(Preimage(parts)) == Some(parts)
  {
    UnframeAll(parts, []);
    assert Preimage(parts) + [] == Preimage(parts);
    assert parts + [] == parts;
  }

  /** So different parts never share a preimage. */
  lemma FramingIsInjective(parts: seq<Bytes>, others: seq<Bytes>)
    requires Short(parts) && Short(others) && Preimage(parts) == Preimage(others)
    ensures parts == others
  {
    FramingRoundTrip(parts);
    FramingRoundTrip(others);
  }

  // A running hash, seen as the bytes written to it so far.
  class Hash {
    var written: Bytes

    constructor ()
      ensures written == []
    {
      written := [];
    }

    method Write(part: Bytes)
      modifies this
      ensures written == old(written) + part
    {
      written := written + part;
    }
  }

  datatype Identity = Identity(provider: Bytes, model: Bytes, verb: Bytes, path: Bytes, query: Bytes, body: Bytes)

  function Parts(id: Identity): seq<Bytes> {
    [id.provider, id.model, id.verb, id.path, id.query, id.body]
  }

  lemma PreimageInOrder(id: Identity)
    ensures Preimage(Parts(id)) == Framed(id.provider) + Framed(id.model) + Framed(id.verb)
      + Framed(id.path) + Framed(id.query) + Framed(id.body)
  {
    var p := Parts(id);
    assert [] + [p[0]] == [p[0]] && [p[0]] + [p[1]] == [p[0], p[1]] && [p[0], p[1]] + [p[2]] == [p[0], p[1], p[2]];
    assert [p[0], p[1], p[2]] + [p[3]] == [p[0], p[1], p[2], p[3]];
    assert [p[0], p[1], p[2], p[3]] + [p[4]] == [p[0], p[1], p[2], p[3], p[4]];
    assert [p[0], p[1], p[2], p[3], p[4]] + [p[5]] == p;
    OneMorePart([], id.provider);
    OneMorePart([id.provider], id.model);
    OneMorePart([id.provider, id.model], id.verb);
    OneMorePart([id.provider, id.model, id.verb], id.path);
    OneMorePart([id.provider, id.model, id.verb, id.path], id.query);
    OneMorePart([id.provider, id.model, id.verb, id.path, id.query], id.body);
  }

  lemma OneMorePart(parts: seq<Bytes>, part: Bytes)
    ensures Preimage(parts + [part]) == Preimage(parts) + Framed(part)
    ensures parts == [] ==> Preimage(parts + [part]) == Framed(part)
  {
    assert (parts + [part])[..|parts|] == parts;
  }

  /** The cache key of a request: the digest of its framed parts, provider first and body last. */
  method Key(id: Identity, digest: Bytes -> string) returns (key: string)
    ensures key == digest(Preimage(Parts(id)))
    ensures key == digest(Framed(id.provider) + Framed(id.model) + Framed(id.verb)
                          + Framed(id.path) + Framed(id.query) + Framed(id.body))
  {
    var h := new Hash();
    var parts := Parts(id);
    for i := 0 to |parts|
      invariant h.written == Preimage(parts[..i])
    {
      assert parts[..i + 1][..i] == parts[..i];
      h.Write(BigEndian(|parts[i]|, 8));
      h.Write(parts[i]);
    }
    assert parts[..|parts|] == parts;
    PreimageInOrder(id);
    key := digest(h.written);
  }
}
