/** What an image input must be, what its frame says literally, and which bits base64 writes. */
module ImageRules {
  import opened Wrappers
  import opened Base64
  import opened JsonText
  import opened Texts
  import opened ImageInput

  // ----- images -----

  /** A PNG or a JPEG by its first bytes. */
  lemma SignatureIff(data: seq<Byte>, media: string)
    ensures SignatureMatches(data, media) <==>
            || (media == "image/png" && |data| >= 8 && data[..8] == [137, 80, 78, 71, 13, 10, 26, 10])
            || (media == "image/jpeg" && |data| >= 3 && data[..3] == [255, 216, 255])
  {
  }

  predicate GoodImage(i: Image) {
    && 1 <= i.position <= 10 && 1 <= |i.data| <= 2_097_152 && i.digested == i.data && SignatureMatches(i.data, i.media)
  }

  lemma {:induction false} ImagesIff(images: seq<Image>, previous: int)
    requires previous >= 0
    ensures ImagesOk(images, previous) <==>
            && (forall i :: 0 <= i < |images| ==> GoodImage(images[i]))
            && (images != [] ==> previous < images[0].position)
            && forall i, j :: 0 <= i < j < |images| ==> images[i].position < images[j].position
  {
    hide SignatureMatches;
    if images != [] {
      var rest := images[1..];
      if ImageOk(images[0], previous) {
        ImagesIff(rest, images[0].position);
      }
      assert forall i :: 1 <= i < |images| ==> images[i] == rest[i - 1];
      if forall i, j :: 0 <= i < j < |images| ==> images[i].position < images[j].position {
        forall i, j | 0 <= i < j < |rest|
          ensures rest[i].position < rest[j].position
        {
          assert images[i + 1].position < images[j + 1].position;
        }
      }
      if ImagesOk(images, previous) {
        Increasing(images);
      }
    }
  }

  lemma Increasing(images: seq<Image>)
    requires images != []
    requires forall i, j :: 0 <= i < j < |images[1..]| ==> images[1..][i].position < images[1..][j].position
    requires |images| > 1 ==> images[0].position < images[1].position
    ensures forall i, j :: 0 <= i < j < |images| ==> images[i].position < images[j].position
  {
    forall i, j | 0 <= i < j < |images|
      ensures images[i].position < images[j].position
    {
      assert images[j] == images[1..][j - 1];
      if i > 0 {
        assert images[i] == images[1..][i - 1];
      } else if j > 1 {
        assert images[1] == images[1..][0];
      }
    }
  }

  /** A prompt that says something, and one to ten good images in order, four megabytes of them at most. */
  lemma AdmissibleIff(prompt: string, images: seq<Image>, session: string, canonical: string -> bool)
    ensures Admissible(prompt, images, session, canonical) <==>
            && (exists i :: 0 <= i < |prompt| && !IsSpace(prompt[i])) && canonical(session)
            && 1 <= |images| <= 10 && Total(images) <= 4_194_304
            && (forall i :: 0 <= i < |images| ==> GoodImage(images[i]))
            && forall i, j :: 0 <= i < j < |images| ==> images[i].position < images[j].position
  {
    hide ImagesOk, GoodImage;
    ImagesIff(images, 0);
    if images != [] {
      GoodPosition(images[0]);
    }
  }

  lemma GoodPosition(i: Image)
    ensures GoodImage(i) ==> i.position >= 1
  {
  }

  // ----- the frame -----

  /** One block as JSON, its strings escaped. */
  function BlockLiteral(b: Block): string {
    match b
    case TextBlock(text) => "{\"type\":\"text\",\"text\":\"" + Body(text) + "\"" + "}"
    case ImageBlock(media, data) =>
      "{\"type\":\"i" + "mage\",\"source\":{\"type\":\"base64\",\"media_type\":\"" + Body(media) + "\""
      + ",\"data\":\"" + Body(data) + "\"" + "}}"
  }

  function Listed(blocks: seq<Block>): string {
    if blocks == [] then ""
    else if |blocks| == 1 then BlockLiteral(blocks[0])
    else BlockLiteral(blocks[0]) + "," + Listed(blocks[1..])
  }

  lemma Reassociated(a: string, b: string, c: string)
    ensures a + (b + c) == a + b + c
  {
  }

  lemma BlockIsLiteral(b: Block)
    ensures BlockText(b) == BlockLiteral(b)
  {
    hide Body;
    match b
    case TextBlock(text) => Reassociated(TEXT_HEAD, Closed(text), "}");
      Reassociated(TEXT_HEAD, Body(text), "\"");
    case ImageBlock(media, data) =>
      Reassociated(IMAGE_HEAD, Closed(media), DATA_HEAD + (Closed(data) + "}}"));
      Reassociated(IMAGE_HEAD, Body(media), "\"");
      Reassociated(IMAGE_HEAD + Body(media) + "\"", DATA_HEAD, Closed(data) + "}}");
      Reassociated(IMAGE_HEAD + Body(media) + "\"" + DATA_HEAD, Closed(data), "}}");
      Reassociated(IMAGE_HEAD + Body(media) + "\"" + DATA_HEAD, Body(data), "\"");
  }

  lemma {:induction false} ContentIsListed(content: seq<Block>)
    ensures ContentText(content) == Listed(content)
    ensures Tail(content) == if content == [] then "" else "," + Listed(content)
  {
    hide BlockText, BlockLiteral;
    if content != [] {
      BlockIsLiteral(content[0]);
      ContentIsListed(content[1..]);
      Reassociated(BlockLiteral(content[0]), ",", Listed(content[1..]));
    }
  }

  /** The frame of one user message, key by key. */
  lemma FrameIsLiteral(f: Frame)
    ensures FrameText(f)
         == "{\"type\":\"user\",\"session_id\":\"" + Body(f.session) + "\""
            + ",\"message\":{\"role\":\"user\",\"content\":[" + Listed(f.content)
            + "]},\"parent_tool_use_id\":null,\"uuid\":\"" + Body(f.uuid) + "\"" + "}"
  {
    hide ContentText, Listed, Body;
    ContentIsListed(f.content);
    var content, session := ContentText(f.content), FRAME_HEAD + Body(f.session) + "\"";
    Reassociated(FRAME_HEAD, Closed(f.session), MESSAGE_HEAD + (content + (UUID_HEAD + (Closed(f.uuid) + "}"))));
    Reassociated(FRAME_HEAD, Body(f.session), "\"");
    Reassociated(session, MESSAGE_HEAD, content + (UUID_HEAD + (Closed(f.uuid) + "}")));
    Reassociated(session + MESSAGE_HEAD, content, UUID_HEAD + (Closed(f.uuid) + "}"));
    Reassociated(session + MESSAGE_HEAD + content, UUID_HEAD, Closed(f.uuid) + "}");
    Reassociated(session + MESSAGE_HEAD + content + UUID_HEAD, Closed(f.uuid), "}");
    Reassociated(session + MESSAGE_HEAD + content + UUID_HEAD, Body(f.uuid), "\"");
  }

  lemma MarkersRead()
    ensures Marker(1) == "MATERIAL 1 IMAGE" && Marker(9) == "MATERIAL 9 IMAGE" && Marker(10) == "MATERIAL 10 IMAGE"
    ensures forall n :: 1 <= n <= 9 ==> Position(n) == [("0123456789")[n]]
  {
  }

  /** The prompt, and of each image its marker and its data, in order. */
  lemma {:induction false} PairsAreTheImages(images: seq<Image>, k: nat)
    requires k < |images|
    ensures |Pairs(images, true)| == 2 * |images|
    ensures Pairs(images, true)[2 * k] == TextBlock("MATERIAL " + Position(images[k].position) + " IMAGE")
    ensures Pairs(images, true)[2 * k + 1] == ImageBlock(images[k].media, Encode(images[k].data))
  {
    hide Encode, Position;
    if k > 0 {
      PairsAreTheImages(images[1..], k - 1);
    } else {
      PairsAreTwice(images);
    }
  }

  lemma {:induction false} PairsAreTwice(images: seq<Image>)
    ensures |Pairs(images, true)| == 2 * |images|
  {
    if images != [] {
      PairsAreTwice(images[1..]);
    }
  }

  // ----- base64 -----

  const UPPER := "ABCDEFGHIJKLMNOPQRSTUVWXYZ"
  const LOWER := "abcdefghijklmnopqrstuvwxyz"
  const DIGITS := "0123456789"

  /** The alphabet of section 4 of RFC 4648. */
  lemma Alphabet(v: Six)
    ensures Sym(v) == if v < 26 then UPPER[v] else if v < 52 then LOWER[v - 26] else if v < 62 then DIGITS[v - 52]
                      else if v == 62 then '+' else '/'
  {
  }

  /** Three bytes and their four symbols are the same twenty-four bits. */
  lemma SameBits(a: Byte, b: Byte, c: Byte)
    ensures |Quad(a, b, c)| == 4 && forall i :: 0 <= i < 4 ==> Val(Quad(a, b, c)[i]).Some?
    ensures var q := Quad(a, b, c);
            Val(q[0]).value * 262_144 + Val(q[1]).value * 4_096 + Val(q[2]).value * 64 + Val(q[3]).value
            == a * 65_536 + b * 256 + c
  {
    ValOfSym(a / 4);
    ValOfSym(a % 4 * 16 + b / 16);
    ValOfSym(b % 16 * 4 + c / 64);
    ValOfSym(c % 64);
  }

  /** Whole triples become quads. */
  lemma TripleEncodes(d: seq<Byte>)
    requires |d| >= 3
    ensures Encode(d) == Quad(d[0], d[1], d[2]) + Encode(d[3..])
  {
  }

  /** What is left over is padded with zero bits and equals signs. */
  lemma RestEncodes(d: seq<Byte>)
    requires |d| < 3
    ensures Encode(d) == if |d| == 2 then Quad(d[0], d[1], 0)[..3] + "="
                         else if |d| == 1 then Quad(d[0], 0, 0)[..2] + "==" else ""
  {
    hide Sym;
    if |d| == 2 {
      TwoLeft(d[0], d[1]);
    } else if |d| == 1 {
      OneLeft(d[0]);
    }
  }

  lemma TwoLeft(a: Byte, b: Byte)
    ensures Quad(a, b, 0)[..3] == [Sym(a / 4), Sym(a % 4 * 16 + b / 16), Sym(b % 16 * 4)]
  {
    hide Sym;
  }

  lemma OneLeft(a: Byte)
    ensures Quad(a, 0, 0)[..2] == [Sym(a / 4), Sym(a % 4 * 16)]
  {
    hide Sym;
  }
}
