/**
 * The image user frame: its exact size predicted before the images are
 * encoded, its text, and the receipt checker that must take it back.
 */
module ImageInput {
  import opened Wrappers
  import opened Base64
  import opened JsonText
  import opened Texts

  const MAX_IMAGE := 2097152
  const MAX_AGGREGATE := 4194304
  const MAX_INPUT := 8388608
  const RESERVE := 65536
  const MAX_IMAGES := 10

  /** SHA-256 is injective here, so a digest is the bytes it was taken of. */
  datatype Image = Image(position: int, media: string, data: seq<Byte>, digested: seq<Byte>)

  datatype Block = TextBlock(text: string) | ImageBlock(media: string, data: string)
  datatype Frame = Frame(session: string, content: seq<Block>, uuid: string)

  predicate SignatureMatches(data: seq<Byte>, media: string) {
    || (media == "image/png" && [0x89, 0x50, 0x4E, 0x47, 0x0D, 0x0A, 0x1A, 0x0A] <= data)
    || (media == "image/jpeg" && [0xFF, 0xD8, 0xFF] <= data)
  }

  predicate ImageOk(i: Image, previous: int) {
    && previous < i.position <= MAX_IMAGES
    && 0 < |i.data| <= MAX_IMAGE
    && SignatureMatches(i.data, i.media)
    && i.digested == i.data
  }

  function Position(n: int): string {
    if n == 10 then "10" else if 1 <= n <= 9 then [(48 + n) as char] else "0"
  }

  function Marker(n: int): string {
    "MATERIAL " + Position(n) + " IMAGE"
  }

  // The frame's text.

  const TEXT_HEAD := "{\"type\":\"text\",\"text\":\""
  const IMAGE_START := "{\"type\":\"i"
  const IMAGE_HEAD := IMAGE_START + "mage\",\"source\":{\"type\":\"base64\",\"media_type\":\""
  const DATA_HEAD := ",\"data\":\""
  const FRAME_HEAD := "{\"type\":\"user\",\"session_id\":\""
  const MESSAGE_HEAD := ",\"message\":{\"role\":\"user\",\"content\":["
  const UUID_HEAD := "]},\"parent_tool_use_id\":null,\"uuid\":\""

  /** A literal after its opening quote, closed. */
  function Closed(s: string): string {
    Body(s) + "\""
  }

  function BlockText(b: Block): string {
    match b
    case TextBlock(text) => TEXT_HEAD + (Closed(text) + "}")
    case ImageBlock(media, data) => IMAGE_HEAD + (Closed(media) + (DATA_HEAD + (Closed(data) + "}}")))
  }

  function Tail(content: seq<Block>): string {
    if content == [] then "" else "," + (BlockText(content[0]) + Tail(content[1..]))
  }

  function ContentText(content: seq<Block>): string {
    if content == [] then "" else BlockText(content[0]) + Tail(content[1..])
  }

  function FrameText(f: Frame): string {
    FRAME_HEAD + (Closed(f.session) + (MESSAGE_HEAD + (ContentText(f.content) + (UUID_HEAD + (Closed(f.uuid) + "}")))))
  }

  // Content with the images encoded, or still empty.

  function Pairs(images: seq<Image>, filled: bool): seq<Block> {
    if images == [] then []
    else
      var data := if filled then Encode(images[0].data) else "";
      [TextBlock(Marker(images[0].position)), ImageBlock(images[0].media, data)] + Pairs(images[1..], filled)
  }

  function FrameOf(prompt: string, images: seq<Image>, session: string, uuid: string, filled: bool): Frame {
    Frame(session, [TextBlock(prompt)] + Pairs(images, filled), uuid)
  }

  function Expanded(images: seq<Image>): nat {
    if images == [] then 0 else 4 * ((|images[0].data| + 2) / 3) + Expanded(images[1..])
  }

  function Total(images: seq<Image>): nat {
    if images == [] then 0 else |images[0].data| + Total(images[1..])
  }

  predicate ImagesOk(images: seq<Image>, previous: int) {
    images == [] || (ImageOk(images[0], previous) && ImagesOk(images[1..], images[0].position))
  }

  lemma PlainSize(data: seq<Byte>)
    ensures Size(Body(Encode(data))) == 4 * ((|data| + 2) / 3)
  {
    EncodedIsPlain(data);
    EncodedLength(data);
    PlainBody(Encode(data));
    forall i | 0 <= i < |Encode(data)|
      ensures (Encode(data)[i] as int) < 128
    {
      PlainIsPrintable(Encode(data)[i]);
    }
    AsciiSize(Encode(data));
  }

  lemma {:induction false} PlainBody(s: string)
    requires forall i :: 0 <= i < |s| ==> Plain(s[i])
    ensures Body(s) == s
  {
    if s != "" {
      PlainIsPrintable(s[0]);
      PlainBody(s[1..]);
    }
  }

  /** Replacing a middle changes the size by the difference of the middles. */
  lemma MiddleSize(pre: string, x: string, y: string, post: string)
    ensures Size(pre + (x + post)) - Size(pre + (y + post)) == Size(x) - Size(y)
    ensures Size(x) <= Size(pre + (x + post))
  {
    SizeAppend(pre, x + post);
    SizeAppend(pre, y + post);
    SizeAppend(x, post);
    SizeAppend(y, post);
  }

  lemma RegroupData(a: string, b: string, c: string, x: string, quote: string, end: string)
    ensures a + (b + (c + ((x + quote) + end))) == (a + (b + c)) + (x + (quote + end))
  {
    Assoc(x, quote, end);
    Assoc(b, c, x + (quote + end));
    Assoc(a, b + c, x + (quote + end));
  }

  lemma AroundData(media: string, x: string, y: string) returns (pre: string, post: string)
    ensures BlockText(ImageBlock(media, x)) == pre + (Body(x) + post)
    ensures BlockText(ImageBlock(media, y)) == pre + (Body(y) + post)
  {
    pre, post := IMAGE_HEAD + (Closed(media) + DATA_HEAD), "\"" + "}}";
    RegroupData(IMAGE_HEAD, Closed(media), DATA_HEAD, Body(x), "\"", "}}");
    RegroupData(IMAGE_HEAD, Closed(media), DATA_HEAD, Body(y), "\"", "}}");
  }

  lemma FilledBlock(media: string, data: seq<Byte>)
    ensures Size(BlockText(ImageBlock(media, Encode(data)))) ==
            Size(BlockText(ImageBlock(media, ""))) + 4 * ((|data| + 2) / 3)
  {
    var pre, post := AroundData(media, Encode(data), "");
    PlainSize(data);
    MiddleSize(pre, Body(Encode(data)), Body(""), post);
  }

  lemma TailStep(content: seq<Block>)
    requires content != []
    ensures Size(Tail(content)) == Size(",") + Size(BlockText(content[0])) + Size(Tail(content[1..]))
  {
    SizeAppend(",", BlockText(content[0]) + Tail(content[1..]));
    SizeAppend(BlockText(content[0]), Tail(content[1..]));
  }

  lemma {:induction false} PairsSize(images: seq<Image>)
    ensures Size(Tail(Pairs(images, true))) == Size(Tail(Pairs(images, false))) + Expanded(images)
  {
    if images != [] {
      var full, bare := Pairs(images, true), Pairs(images, false);
      TailStep(full);
      TailStep(bare);
      TailStep(full[1..]);
      TailStep(bare[1..]);
      assert full[1..][1..] == Pairs(images[1..], true);
      assert bare[1..][1..] == Pairs(images[1..], false);
      assert full[0] == bare[0];
      FilledBlock(images[0].media, images[0].data);
      PairsSize(images[1..]);
    }
  }

  lemma AroundTail(first: Block, x: seq<Block>, y: seq<Block>, session: string, uuid: string)
      returns (pre: string, post: string)
    ensures FrameText(Frame(session, [first] + x, uuid)) == pre + (Tail(x) + post)
    ensures FrameText(Frame(session, [first] + y, uuid)) == pre + (Tail(y) + post)
  {
    pre := FRAME_HEAD + (Closed(session) + (MESSAGE_HEAD + BlockText(first)));
    post := UUID_HEAD + (Closed(uuid) + "}");
    FrameSplits(pre, post, first, x, session, uuid);
    FrameSplits(pre, post, first, y, session, uuid);
  }

  lemma FrameSplits(pre: string, post: string, first: Block, x: seq<Block>, session: string, uuid: string)
    requires pre == FRAME_HEAD + (Closed(session) + (MESSAGE_HEAD + BlockText(first)))
    requires post == UUID_HEAD + (Closed(uuid) + "}")
    ensures FrameText(Frame(session, [first] + x, uuid)) == pre + (Tail(x) + post)
  {
    assert ([first] + x)[1..] == x;
    Regroup(FRAME_HEAD, Closed(session), MESSAGE_HEAD, BlockText(first), Tail(x), post);
  }

  lemma Regroup(a: string, b: string, c: string, d: string, e: string, post: string)
    ensures a + (b + (c + ((d + e) + post))) == (a + (b + (c + d))) + (e + post)
  {
    Assoc(d, e, post);
    Assoc(c, d, e + post);
    Assoc(b, c + d, e + post);
    Assoc(a, b + (c + d), e + post);
  }

  lemma Assoc(x: string, y: string, z: string)
    ensures (x + y) + z == x + (y + z)
  {
  }

  /** The size of the skeleton plus the predicted expansion is the size of the frame, to the byte. */
  lemma PredictionIsExact(prompt: string, images: seq<Image>, session: string, uuid: string)
    ensures Size(FrameText(FrameOf(prompt, images, session, uuid, true)))
         == Size(FrameText(FrameOf(prompt, images, session, uuid, false))) + Expanded(images)
  {
    var pre, post := AroundTail(TextBlock(prompt), Pairs(images, true), Pairs(images, false), session, uuid);
    MiddleSize(pre, Tail(Pairs(images, true)), Tail(Pairs(images, false)), post);
    PairsSize(images);
  }

  /** The prompt's early bound never refuses a frame that the final bound would have taken. */
  lemma EarlyBoundIsNotStricter(prompt: string, images: seq<Image>, session: string, uuid: string)
    ensures Size(Body(prompt)) <= Size(FrameText(FrameOf(prompt, images, session, uuid, false)))
  {
    var rest := Pairs(images, false);
    assert ([TextBlock(prompt)] + rest)[1..] == rest;
    var block := BlockText(TextBlock(prompt));
    var end := UUID_HEAD + (Closed(uuid) + "}");
    PromptInBlock(prompt);
    Inside("", block, Tail(rest));
    Inside(MESSAGE_HEAD, block + Tail(rest), end);
    Inside(Closed(session), MESSAGE_HEAD + ((block + Tail(rest)) + end), "");
    Inside(FRAME_HEAD, Closed(session) + (MESSAGE_HEAD + ((block + Tail(rest)) + end)), "");
  }

  lemma PromptInBlock(prompt: string)
    ensures Size(Body(prompt)) <= Size(BlockText(TextBlock(prompt)))
  {
    Inside(TEXT_HEAD, Closed(prompt), "}");
    Inside("", Body(prompt), "\"");
  }

  lemma Inside(pre: string, x: string, post: string)
    ensures Size(x) <= Size(pre + (x + post))
    ensures pre == "" ==> Size(x) <= Size(x + post)
    ensures post == "" ==> Size(x) <= Size(pre + x)
  {
    SizeAppend(pre, x + post);
    SizeAppend(pre, x);
    SizeAppend(x, post);
  }

  // Reading a frame back.

  function Expect(t: string, lit: string): (r: Option<string>)
    ensures r.Some? ==> |r.value| == |t| - |lit|
  {
    if lit <= t then Some(t[|lit|..]) else None
  }

  /** A literal after `head`, and what follows it. */
  function ReadAfter(head: string, t: string): (r: Option<(string, string)>)
    ensures r.Some? ==> |r.value.1| < |t|
  {
    var rest := Expect(t, head);
    if rest.None? then None
    else
      var read := ReadBody(rest.value);
      if read.Some? && |read.value.1| < |t| then read else None
  }

  function ReadBlock(t: string): (r: Option<(Block, string)>)
    ensures r.Some? ==> |r.value.1| < |t|
  {
    var text := ReadAfter(TEXT_HEAD, t);
    if text.Some? then
      var rest := Expect(text.value.1, "}");
      if rest.None? then None else Some((TextBlock(text.value.0), rest.value))
    else ReadImage(t)
  }

  function ReadImage(t: string): (r: Option<(Block, string)>)
    ensures r.Some? ==> |r.value.1| < |t|
  {
    var media := ReadAfter(IMAGE_HEAD, t);
    if media.None? then None
    else
      var data := ReadAfter(DATA_HEAD, media.value.1);
      if data.None? then None
      else
        var rest := Expect(data.value.1, "}}");
        if rest.None? then None else Some((ImageBlock(media.value.0, data.value.0), rest.value))
  }

  function ReadTail(t: string): Option<(seq<Block>, string)>
    decreases |t|
  {
    if t == "" || t[0] != ',' then Some(([], t))
    else
      var first := ReadBlock(t[1..]);
      if first.None? then None
      else
        var more := ReadTail(first.value.1);
        if more.None? then None else Some(([first.value.0] + more.value.0, more.value.1))
  }

  function ReadContent(t: string): Option<(seq<Block>, string)> {
    var first := ReadBlock(t);
    if first.None? then None
    else
      var more := ReadTail(first.value.1);
      if more.None? then None else Some(([first.value.0] + more.value.0, more.value.1))
  }

  function ReadFrame(t: string): Option<Frame> {
    var session := ReadAfter(FRAME_HEAD, t);
    if session.None? then None
    else
      var rest := Expect(session.value.1, MESSAGE_HEAD);
      if rest.None? then None
      else
        var content := ReadContent(rest.value);
        if content.None? then None
        else
          var uuid := ReadAfter(UUID_HEAD, content.value.1);
          if uuid.None? || uuid.value.1 != "}" then None
          else Some(Frame(session.value.0, content.value.0, uuid.value.0))
  }

  lemma Expects(lit: string, rest: string)
    ensures Expect(lit + rest, lit) == Some(rest)
  {
    assert (lit + rest)[|lit|..] == rest;
  }

  lemma ReadsAfter(head: string, s: string, rest: string)
    ensures ReadAfter(head, head + (Closed(s) + rest)) == Some((s, rest))
  {
    Expects(head, Closed(s) + rest);
    QuotedReads(s, rest);
    assert Closed(s) + rest == Body(s) + "\"" + rest;
  }

  lemma ImageReads(media: string, data: string, rest: string)
    ensures ReadImage(BlockText(ImageBlock(media, data)) + rest) == Some((ImageBlock(media, data), rest))
  {
    var inner := DATA_HEAD + (Closed(data) + ("}}" + rest));
    ReadsAfter(IMAGE_HEAD, media, inner);
    ReadsAfter(DATA_HEAD, data, "}}" + rest);
    Expects("}}", rest);
    RegroupImage(IMAGE_HEAD, Closed(media), DATA_HEAD, Closed(data), "}}", rest);
  }

  lemma RegroupImage(a: string, b: string, c: string, d: string, e: string, rest: string)
    ensures (a + (b + (c + (d + e)))) + rest == a + (b + (c + (d + (e + rest))))
  {
    Assoc(a, b + (c + (d + e)), rest);
    Assoc(b, c + (d + e), rest);
    Assoc(c, d + e, rest);
    Assoc(d, e, rest);
  }

  lemma HeadsDiffer(rest: string)
    ensures ReadAfter(TEXT_HEAD, IMAGE_HEAD + rest).None?
  {
    assert TEXT_HEAD[9] == 't' && IMAGE_START[9] == 'i';
    assert IMAGE_HEAD[9] == IMAGE_START[9];
    assert (IMAGE_HEAD + rest)[9] == 'i';
  }

  lemma BlockReads(b: Block, rest: string)
    ensures ReadBlock(BlockText(b) + rest) == Some((b, rest))
  {
    match b
    case TextBlock(text) =>
      ReadsAfter(TEXT_HEAD, text, "}" + rest);
      Expects("}", rest);
      Assoc(TEXT_HEAD, Closed(text) + "}", rest);
      Assoc(Closed(text), "}", rest);
    case ImageBlock(media, data) =>
      ImageReads(media, data, rest);
      var inner := Closed(media) + (DATA_HEAD + (Closed(data) + "}}"));
      Assoc(IMAGE_HEAD, inner, rest);
      HeadsDiffer(inner + rest);
  }

  lemma {:induction false} TailReads(content: seq<Block>, rest: string)
    requires rest == "" || rest[0] != ','
    ensures ReadTail(Tail(content) + rest) == Some((content, rest))
  {
    if content == [] {
      assert Tail(content) + rest == rest;
    } else {
      hide ReadBlock, BlockText;
      var b, tail := content[0], Tail(content[1..]);
      var t := Tail(content) + rest;
      TailReads(content[1..], rest);
      Assoc(",", BlockText(b) + tail, rest);
      Assoc(BlockText(b), tail, rest);
      assert t[0] == ',' && t[1..] == BlockText(b) + (tail + rest);
      BlockReads(b, tail + rest);
      assert [content[0]] + content[1..] == content;
    }
  }

  lemma ContentReads(content: seq<Block>, rest: string)
    requires content != [] && (rest == "" || rest[0] != ',')
    ensures ReadContent(ContentText(content) + rest) == Some((content, rest))
  {
    Assoc(BlockText(content[0]), Tail(content[1..]), rest);
    BlockReads(content[0], Tail(content[1..]) + rest);
    TailReads(content[1..], rest);
    assert [content[0]] + content[1..] == content;
  }

  /** Nothing in a prompt, media type or data can change the shape of the frame around it. */
  lemma FrameReads(f: Frame)
    requires f.content != []
    ensures ReadFrame(FrameText(f)) == Some(f)
  {
    var end := UUID_HEAD + (Closed(f.uuid) + "}");
    ReadsAfter(FRAME_HEAD, f.session, MESSAGE_HEAD + (ContentText(f.content) + end));
    Expects(MESSAGE_HEAD, ContentText(f.content) + end);
    assert end[0] == ']';
    ContentReads(f.content, end);
    ReadsAfter(UUID_HEAD, f.uuid, "}");
  }

  // The receipt checker.

  /** The position a marker text names, if it is exactly one of the ten markers. */
  ghost function MarkerOf(text: string): Option<int> {
    if exists n :: 1 <= n <= MAX_IMAGES && text == Marker(n) then
      var n :| 1 <= n <= MAX_IMAGES && text == Marker(n);
      Some(n)
    else None
  }

  /** Decoded size of an image block, if it is canonical base64 of a bounded image with its own signature. */
  function ImageSize(b: Block): Option<int> {
    if !b.ImageBlock? || b.media !in {"image/png", "image/jpeg"} || |b.data| > 4 * ((MAX_IMAGE + 2) / 3) then None
    else
      var data := Decode(b.data);
      if data.None? || !(0 < |data.value| <= MAX_IMAGE) || !SignatureMatches(data.value, b.media)
         || Encode(data.value) != b.data
      then None
      else Some(|data.value|)
  }

  /** One marker and its image: the position and the new total, if both are in order. */
  ghost function PairRead(marker: Block, image: Block, previous: int, total: int): Option<(int, int)> {
    var position := if marker.TextBlock? then MarkerOf(marker.text) else None;
    var size := ImageSize(image);
    if position.None? || position.value <= previous || size.None? || total + size.value > MAX_AGGREGATE then None
    else Some((position.value, total + size.value))
  }

  ghost predicate PairsAccepted(content: seq<Block>, previous: int, total: int) {
    content == [] ||
    (|content| >= 2 &&
     var read := PairRead(content[0], content[1], previous, total);
     read.Some? && PairsAccepted(content[2..], read.value.0, read.value.1))
  }

  /** Everything the constructor asks of a frame but its image pairs. */
  predicate FrameAccepted(f: Frame, expected: string, canonical: string -> bool) {
    && f.session == expected && canonical(f.session) && canonical(f.uuid)
    && 3 <= |f.content| <= 1 + 2 * MAX_IMAGES && |f.content| % 2 == 1
    && f.content[0].TextBlock? && !Blank(f.content[0].text)
  }

  ghost predicate ReceiptAccepts(f: Frame, expected: string, canonical: string -> bool) {
    FrameAccepted(f, expected, canonical) && PairsAccepted(f.content[1..], 0, 0)
  }

  lemma MarkersDiffer(a: int, b: int)
    requires 1 <= a <= MAX_IMAGES && 1 <= b <= MAX_IMAGES && a != b
    ensures Marker(a) != Marker(b)
  {
    assert Marker(a)[9] == Position(a)[0] && Marker(b)[9] == Position(b)[0];
    assert Marker(a)[10] == (if a == 10 then '0' else ' ') && Marker(b)[10] == if b == 10 then '0' else ' ';
  }

  lemma MarkerReads(p: int)
    requires 1 <= p <= MAX_IMAGES
    ensures MarkerOf(Marker(p)) == Some(p)
  {
    forall n | 1 <= n <= MAX_IMAGES && n != p
      ensures Marker(n) != Marker(p)
    {
      MarkersDiffer(n, p);
    }
  }

  lemma EncodedImageSize(i: Image, previous: int)
    requires ImageOk(i, previous)
    ensures ImageSize(ImageBlock(i.media, Encode(i.data))) == Some(|i.data|)
  {
    hide Decode, Encode;
    DecodeEncode(i.data);
    EncodedLength(i.data);
  }

  lemma EncodedPairReads(i: Image, previous: int, total: int)
    requires ImageOk(i, previous) && previous >= 0 && total + |i.data| <= MAX_AGGREGATE
    ensures PairRead(TextBlock(Marker(i.position)), ImageBlock(i.media, Encode(i.data)), previous, total)
            == Some((i.position, total + |i.data|))
  {
    MarkerReads(i.position);
    EncodedImageSize(i, previous);
  }

  /** The two blocks of one image. */
  function PairOf(i: Image): seq<Block> {
    [TextBlock(Marker(i.position)), ImageBlock(i.media, Encode(i.data))]
  }

  lemma PairAccepted(i: Image, rest: seq<Block>, previous: int, total: int)
    requires ImageOk(i, previous) && previous >= 0 && total + |i.data| <= MAX_AGGREGATE
    requires PairsAccepted(rest, i.position, total + |i.data|)
    ensures PairsAccepted(PairOf(i) + rest, previous, total)
  {
    hide PairRead, ImageOk;
    EncodedPairReads(i, previous, total);
    assert (PairOf(i) + rest)[2..] == rest;
  }

  lemma ConsImages(i: Image, rest: seq<Image>, previous: int)
    requires ImageOk(i, previous) && ImagesOk(rest, i.position)
    ensures ImagesOk([i] + rest, previous) && Total([i] + rest) == |i.data| + Total(rest)
    ensures Pairs([i] + rest, true) == PairOf(i) + Pairs(rest, true)
  {
    assert ([i] + rest)[1..] == rest;
  }

  lemma FirstPairDecodes(content: seq<Block>, previous: int, total: int) returns (i: Image)
    requires previous >= 0 && content != [] && PairsAccepted(content, previous, total)
    ensures |content| >= 2 && content == PairOf(i) + content[2..]
    ensures ImageOk(i, previous) && i.position >= 0 && total + |i.data| <= MAX_AGGREGATE
    ensures PairsAccepted(content[2..], i.position, total + |i.data|)
  {
    hide Decode, Encode, SignatureMatches;
    var data := Decode(content[1].data).value;
    i := Image(MarkerOf(content[0].text).value, content[1].media, data, data);
    assert content == [content[0], content[1]] + content[2..];
  }

  lemma NoPairsAccepted(previous: int, total: int)
    ensures PairsAccepted([], previous, total)
  {
  }

  lemma {:induction false} PairsAreAccepted(images: seq<Image>, previous: int, total: int)
    requires previous >= 0 && ImagesOk(images, previous) && 0 <= total && total + Total(images) <= MAX_AGGREGATE
    ensures PairsAccepted(Pairs(images, true), previous, total)
  {
    hide PairsAccepted;
    if images == [] {
      NoPairsAccepted(previous, total);
    } else {
      PairsAreAccepted(images[1..], images[0].position, total + |images[0].data|);
      PairAccepted(images[0], Pairs(images[1..], true), previous, total);
      assert Pairs(images, true) == PairOf(images[0]) + Pairs(images[1..], true);
    }
  }

  /** The images an accepted frame carries; there is only one text for them. */
  lemma {:induction false} AcceptedPairsDecode(content: seq<Block>, previous: int, total: int)
      returns (images: seq<Image>)
    requires previous >= 0 && 0 <= total <= MAX_AGGREGATE && PairsAccepted(content, previous, total)
    ensures content == Pairs(images, true) && ImagesOk(images, previous) && total + Total(images) <= MAX_AGGREGATE
    decreases |content|
  {
    hide PairsAccepted, ImageOk;
    images := [];
    if content != [] {
      var image := FirstPairDecodes(content, previous, total);
      var rest := AcceptedPairsDecode(content[2..], image.position, total + |image.data|);
      ConsImages(image, rest, previous);
      images := [image] + rest;
    }
  }

  lemma {:induction false} PairsLength(images: seq<Image>, filled: bool)
    ensures |Pairs(images, filled)| == 2 * |images|
  {
    if images != [] {
      PairsLength(images[1..], filled);
    }
  }

  /** What the encoder takes, apart from the final size. */
  predicate Admissible(prompt: string, images: seq<Image>, session: string, canonical: string -> bool) {
    && !Blank(prompt) && canonical(session)
    && 1 <= |images| <= MAX_IMAGES
    && ImagesOk(images, 0) && Total(images) <= MAX_AGGREGATE
  }

  lemma AcceptedAround(prompt: string, pairs: seq<Block>, session: string, uuid: string, canonical: string -> bool)
    requires canonical(session) && canonical(uuid) && !Blank(prompt)
    requires 2 <= |pairs| <= 2 * MAX_IMAGES && |pairs| % 2 == 0
    ensures var f := Frame(session, [TextBlock(prompt)] + pairs, uuid);
            FrameAccepted(f, session, canonical) && f.content[1..] == pairs
  {
  }

  /** Every encoded frame is accepted for its session, and by FrameReads its text reads back as the frame. */
  lemma EncodedIsAccepted(prompt: string, images: seq<Image>, session: string, uuid: string, canonical: string -> bool)
    requires Admissible(prompt, images, session, canonical) && canonical(uuid)
    ensures ReceiptAccepts(FrameOf(prompt, images, session, uuid, true), session, canonical)
  {
    hide PairsAccepted, ImageOk;
    PairsLength(images, true);
    PairsAreAccepted(images, 0, 0);
    AcceptedAround(prompt, Pairs(images, true), session, uuid, canonical);
  }

  /** json.loads over one input: the newline after the frame is whitespace. */
  function ReadInput(text: string): Option<Frame> {
    if text != "" && text[|text| - 1] == '\n' then ReadFrame(text[..|text| - 1]) else ReadFrame(text)
  }

  /** The receipt's constructor over the bytes it is given. */
  ghost predicate ReceiptTakes(text: string, expected: string, canonical: string -> bool) {
    Size(text) <= MAX_INPUT && ReadInput(text).Some? && ReceiptAccepts(ReadInput(text).value, expected, canonical)
  }

  /** The very text the encoder returns is read, bounded and accepted by the receipt of its session. */
  lemma EncodedTextIsTaken(prompt: string, images: seq<Image>, session: string, uuid: string, canonical: string -> bool)
    requires Admissible(prompt, images, session, canonical) && canonical(uuid)
    requires Size(FrameText(FrameOf(prompt, images, session, uuid, true))) + 1 <= MAX_INPUT - RESERVE
    ensures ReceiptTakes(FrameText(FrameOf(prompt, images, session, uuid, true)) + "\n", session, canonical)
  {
    hide FrameText, FrameOf, ReadFrame, ReceiptAccepts;
    var f := FrameOf(prompt, images, session, uuid, true);
    EncodedIsAccepted(prompt, images, session, uuid, canonical);
    HasContent(prompt, images, session, uuid);
    FrameReads(f);
    var text := FrameText(f) + "\n";
    assert text[..|text| - 1] == FrameText(f);
    SizeAppend(FrameText(f), "\n");
    assert Size("\n") == 1;
  }

  lemma HasContent(prompt: string, images: seq<Image>, session: string, uuid: string)
    ensures FrameOf(prompt, images, session, uuid, true).content != []
  {
  }

  /** And nothing else is accepted: an accepted frame is the encoding of admissible input. */
  lemma AcceptedIsEncoded(f: Frame, session: string, canonical: string -> bool)
      returns (prompt: string, images: seq<Image>)
    requires ReceiptAccepts(f, session, canonical)
    ensures Admissible(prompt, images, session, canonical)
    ensures f == FrameOf(prompt, images, session, f.uuid, true)
  {
    prompt := f.content[0].text;
    images := AcceptedPairsDecode(f.content[1..], 0, 0);
    PairsLength(images, true);
    assert f.content == [f.content[0]] + f.content[1..];
  }

  // The encoder.

  lemma {:induction false} PairsAppend(a: seq<Image>, b: seq<Image>, filled: bool)
    ensures Pairs(a + b, filled) == Pairs(a, filled) + Pairs(b, filled)
  {
    if a == [] {
      assert a + b == b;
    } else {
      assert (a + b)[1..] == a[1..] + b;
      PairsAppend(a[1..], b, filled);
    }
  }

  /** Content whose first `i` images are filled in. */
  function Filled(prompt: string, images: seq<Image>, i: nat): seq<Block>
    requires i <= |images|
  {
    [TextBlock(prompt)] + Pairs(images[..i], true) + Pairs(images[i..], false)
  }

  lemma FilledStep(prompt: string, images: seq<Image>, i: nat)
    requires i < |images|
    ensures |Filled(prompt, images, i)| == 1 + 2 * |images|
    ensures var image := ImageBlock(images[i].media, Encode(images[i].data));
            Filled(prompt, images, i)[2 * i + 2 := image] == Filled(prompt, images, i + 1)
  {
    var done, left := [TextBlock(prompt)] + Pairs(images[..i], true), Pairs(images[i + 1..], false);
    PairsLength(images[..i], true);
    PairsLength(images[i + 1..], false);
    assert images[i..] == [images[i]] + images[i + 1..];
    assert images[..i + 1] == images[..i] + [images[i]];
    PairsAppend(images[..i], [images[i]], true);
    PairsAppend([images[i]], images[i + 1..], false);
    PairAlone(images[i]);
    var marker := TextBlock(Marker(images[i].position));
    var empty, full := ImageBlock(images[i].media, ""), ImageBlock(images[i].media, Encode(images[i].data));
    assert Filled(prompt, images, i) == done + ([marker, empty] + left);
    assert Filled(prompt, images, i + 1) == done + ([marker, full] + left);
    Replaced(done, marker, empty, full, left);
  }

  lemma PairAlone(i: Image)
    ensures Pairs([i], true) == [TextBlock(Marker(i.position)), ImageBlock(i.media, Encode(i.data))]
    ensures Pairs([i], false) == [TextBlock(Marker(i.position)), ImageBlock(i.media, "")]
  {
    assert [i][1..] == [];
  }

  lemma Replaced(done: seq<Block>, marker: Block, empty: Block, full: Block, left: seq<Block>)
    ensures (done + ([marker, empty] + left))[|done| + 1 := full] == done + ([marker, full] + left)
  {
  }

  /** Put each image's encoding into its place. */
  method Fill(laid: seq<Block>, prompt: string, images: seq<Image>) returns (content: seq<Block>)
    requires laid == [TextBlock(prompt)] + Pairs(images, false)
    ensures content == [TextBlock(prompt)] + Pairs(images, true)
  {
    content := laid;
    assert images[0..] == images && images[..|images|] == images;
    for i := 0 to |images|
      invariant content == Filled(prompt, images, i)
    {
      FilledStep(prompt, images, i);
      content := content[2 * i + 2 := ImageBlock(images[i].media, Encode(images[i].data))];
    }
  }

  /** Checks every image and lays out the frame with empty data. */
  method LayOut(prompt: string, images: seq<Image>) returns (content: Option<seq<Block>>)
    ensures content.Some? <==> ImagesOk(images, 0) && Total(images) <= MAX_AGGREGATE
    ensures content.Some? ==> content.value == [TextBlock(prompt)] + Pairs(images, false)
  {
    var total, previous := 0, 0;
    var blocks := [TextBlock(prompt)];
    for i := 0 to |images|
      invariant ImagesOk(images, 0) <==> ImagesOk(images[i..], previous)
      invariant total <= MAX_AGGREGATE && total + Total(images[i..]) == Total(images)
      invariant blocks + Pairs(images[i..], false) == [TextBlock(prompt)] + Pairs(images, false)
    {
      var image := images[i];
      assert images[i..][1..] == images[i + 1..];
      if !ImageOk(image, previous) {
        return None;
      }
      previous := image.position;
      total := total + |image.data|;
      if total > MAX_AGGREGATE {
        return None;
      }
      var pair := [TextBlock(Marker(image.position)), ImageBlock(image.media, "")];
      assert (blocks + pair) + Pairs(images[i + 1..], false) == blocks + (pair + Pairs(images[i + 1..], false));
      blocks := blocks + pair;
    }
    content := Some(blocks);
  }

  method EncodeImageInput(prompt: string, images: seq<Image>, session: string, uuid: string, canonical: string -> bool)
    returns (encoded: Option<string>)
    ensures encoded.Some? <==>
            Admissible(prompt, images, session, canonical)
            && Size(FrameText(FrameOf(prompt, images, session, uuid, true))) + 1 <= MAX_INPUT - RESERVE
    ensures encoded.Some? ==> encoded.value == FrameText(FrameOf(prompt, images, session, uuid, true)) + "\n"
    ensures encoded.Some? && canonical(uuid) ==> ReceiptTakes(encoded.value, session, canonical)
  {
    hide ReceiptTakes;
    PredictionIsExact(prompt, images, session, uuid);
    EarlyBoundIsNotStricter(prompt, images, session, uuid);
    if Blank(prompt) || !canonical(session) || !(1 <= |images| <= MAX_IMAGES) {
      return None;
    }
    var escaped := EscapedSize(prompt);
    if escaped > MAX_INPUT {
      return None;
    }
    var laid := LayOut(prompt, images);
    if laid.None? {
      return None;
    }
    var content := laid.value;
    var skeleton := Size(FrameText(Frame(session, content, uuid)));
    if skeleton + Expanded(images) + 1 > MAX_INPUT - RESERVE {
      return None;
    }
    content := Fill(content, prompt, images);
    var text := FrameText(Frame(session, content, uuid));
    // The second bound of the source cannot fire: the prediction was exact.
    assert Size(text) + 1 <= MAX_INPUT - RESERVE;
    if canonical(uuid) {
      EncodedTextIsTaken(prompt, images, session, uuid, canonical);
    }
    encoded := Some(text + "\n");
  }
}
