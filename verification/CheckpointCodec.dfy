/** crates/codex/src/checkpoint_codec.rs: a reader checkpoint as a fixed 154-byte
    envelope followed by the parser's resume state.  The resume state's own text
    form is a parameter; the parser's is in ResumeText.dfy. */
module CheckpointCodec {
  import opened Prelude
  import opened Bytes

  const MAX_CHECKPOINT_BYTES := 32768
  const MAX_RESUME_BYTES := 32768
  const MAX_ANCHOR_BYTES := 4096
  const FIXED_BYTES := 154
  const MAGIC: Text := [0x54, 0x4D, 0x43, 0x50]
  const ENVELOPE_VERSION := 1
  const CHECKPOINT_SCHEMA := 1
  const PARSER_SCHEMA := 2
  const ZEROS: Text := LittleEndian(0, 32)

  datatype Error = InvalidEnvelope | UnsupportedVersion | CapacityExceeded | InvalidFlags | IdentityMismatch
                 | TrailingBytes | InvalidResume | InvalidCheckpoint

  /** How the parser writes and reads its resume state, and which states it can
      resume from. */
  datatype ResumeCodec<!R> = ResumeCodec(write: R -> Option<Text>, read: Text -> Option<R>, restores: R -> bool)

  /** Reading undoes writing for every state the parser can resume from. */
  ghost predicate RoundTrips<R(!new)>(codec: ResumeCodec<R>) {
    forall r, text :: codec.restores(r) && codec.write(r) == Some(text) ==> codec.read(text) == Some(r)
  }

  /** The text of every such state fits a checkpoint together with the envelope. */
  ghost predicate LeavesRoom<R(!new)>(codec: ResumeCodec<R>) {
    forall r, text :: codec.restores(r) && codec.write(r) == Some(text) ==>
                        |text| <= MAX_CHECKPOINT_BYTES - FIXED_BYTES
  }

  datatype Identity = Identity(logical: Text, physical: Option<Text>)

  datatype Offsets = Offsets(committed: nat, scan: nat, observed: nat)

  datatype Anchor = Anchor(start: nat, len: nat, sha256: Text)

  datatype Marks = Marks(discarding: bool, incompleteTail: bool, fullPrefix: bool)

  datatype Checkpoint<R> = Checkpoint(parserSchema: nat, identity: Identity, offsets: Offsets, modified: Option<int>,
                                      anchor: Anchor, marks: Marks, resume: R)
  {
    /** The widths of the source's field types. */
    predicate Fits() {
      && parserSchema < U16_LIMIT
      && |identity.logical| == 32 && (identity.physical.Some? ==> |identity.physical.value| == 32)
      && offsets.committed < U64_LIMIT && offsets.scan < U64_LIMIT && offsets.observed < U64_LIMIT
      && (modified.Some? ==> IsI64(modified.value))
      && anchor.start < U64_LIMIT && anchor.len < U16_LIMIT && |anchor.sha256| == 32
    }
  }

  /** What the constructors of the anchor and of the checkpoint demand. */
  predicate Acceptable<R>(codec: ResumeCodec<R>, c: Checkpoint<R>) {
    && c.anchor.len <= MAX_ANCHOR_BYTES && c.anchor.start + c.anchor.len < U64_LIMIT
    && c.parserSchema == PARSER_SCHEMA && codec.restores(c.resume)
    && codec.write(c.resume).Some? && |codec.write(c.resume).value| <= MAX_RESUME_BYTES
    && c.offsets.committed <= c.offsets.scan <= c.offsets.observed
    && (!c.marks.discarding ==> c.offsets.scan == c.offsets.committed)
    && c.anchor.start + c.anchor.len <= c.offsets.committed
    && (c.marks.discarding ==> c.marks.incompleteTail && c.offsets.scan != c.offsets.committed)
  }

  predicate Valid<R>(codec: ResumeCodec<R>, c: Checkpoint<R>) {
    c.Fits() && Acceptable(codec, c)
  }

  // ------------------------------------------------------------------
  // The layout

  function Bit(b: bool, weight: nat): nat {
    if b then weight else 0
  }

  /** The five flags are distinct bits, so their union is their sum. */
  function Flags<R>(c: Checkpoint<R>): (r: nat)
    ensures r < 32
  {
    Bit(c.identity.physical.Some?, 1) + Bit(c.modified.Some?, 2) + Bit(c.marks.discarding, 4)
    + Bit(c.marks.incompleteTail, 8) + Bit(c.marks.fullPrefix, 16)
  }

  function PhysicalBytes(identity: Identity): Text {
    if identity.physical.Some? then identity.physical.value else ZEROS
  }

  function ModifiedBits(modified: Option<int>): nat
    requires modified.Some? ==> IsI64(modified.value)
  {
    if modified.Some? then Unsigned(modified.value) else 0
  }

  function Versions<R>(c: Checkpoint<R>): (r: Text)
    ensures |r| == 12
  {
    MAGIC + LittleEndian(ENVELOPE_VERSION, 2) + LittleEndian(CHECKPOINT_SCHEMA, 2)
    + LittleEndian(c.parserSchema, 2) + LittleEndian(Flags(c), 2)
  }

  function OffsetBytes(offsets: Offsets): (r: Text)
    ensures |r| == 24
  {
    LittleEndian(offsets.committed, 8) + LittleEndian(offsets.scan, 8) + LittleEndian(offsets.observed, 8)
  }

  function AnchorBytes(anchor: Anchor): (r: Text)
    ensures |r| == 10 + |anchor.sha256|
  {
    LittleEndian(anchor.start, 8) + LittleEndian(anchor.len, 2) + anchor.sha256
  }

  /** Everything before the resume state's length: 150 bytes. */
  function Envelope<R>(c: Checkpoint<R>): (r: Text)
    requires c.Fits()
    ensures |r| == 150
  {
    Versions(c) + c.identity.logical + PhysicalBytes(c.identity) + OffsetBytes(c.offsets)
    + LittleEndian(ModifiedBits(c.modified), 8) + AnchorBytes(c.anchor)
  }

  function Layout<R>(c: Checkpoint<R>, resume: Text): (r: Text)
    requires c.Fits()
    ensures |r| == FIXED_BYTES + |resume|
  {
    Envelope(c) + LittleEndian(|resume|, 4) + resume
  }

  function Encoded<R>(codec: ResumeCodec<R>, c: Checkpoint<R>): Result<Text, Error>
    requires c.Fits()
  {
    var resume := codec.write(c.resume);
    if resume.None? then Failure(InvalidResume)
    else if |resume.value| > MAX_RESUME_BYTES || FIXED_BYTES + |resume.value| > MAX_CHECKPOINT_BYTES
    then Failure(CapacityExceeded)
    else Success(Layout(c, resume.value))
  }

  /** The bytes are pushed one field after the other. */
  method Encode<R>(codec: ResumeCodec<R>, c: Checkpoint<R>) returns (r: Result<Text, Error>)
    requires c.Fits()
    ensures r == Encoded(codec, c)
  {
    var written := codec.write(c.resume);
    if written.None? { return Failure(InvalidResume); }
    var resume := written.value;
    if |resume| > MAX_RESUME_BYTES || FIXED_BYTES + |resume| > MAX_CHECKPOINT_BYTES {
      return Failure(CapacityExceeded);
    }
    var flags := 0;
    if c.identity.physical.Some? { flags := flags + 1; }
    if c.modified.Some? { flags := flags + 2; }
    if c.marks.discarding { flags := flags + 4; }
    if c.marks.incompleteTail { flags := flags + 8; }
    if c.marks.fullPrefix { flags := flags + 16; }
    var encoded := PushVersions(c, flags);
    encoded := encoded + c.identity.logical;
    if c.identity.physical.Some? {
      encoded := encoded + c.identity.physical.value;
    } else {
      encoded := encoded + ZEROS;
    }
    encoded := PushOffsets(encoded, c.offsets);
    encoded := encoded + LittleEndian(if c.modified.Some? then Unsigned(c.modified.value) else 0, 8);
    encoded := PushAnchor(encoded, c.anchor);
    encoded := encoded + LittleEndian(|resume|, 4);
    encoded := encoded + resume;
    r := Success(encoded);
  }

  method PushVersions<R>(c: Checkpoint<R>, flags: nat) returns (encoded: Text)
    requires flags == Flags(c)
    ensures encoded == Versions(c)
  {
    encoded := MAGIC;
    encoded := encoded + LittleEndian(ENVELOPE_VERSION, 2);
    encoded := encoded + LittleEndian(CHECKPOINT_SCHEMA, 2);
    encoded := encoded + LittleEndian(c.parserSchema, 2);
    encoded := encoded + LittleEndian(flags, 2);
  }

  method PushOffsets(before: Text, offsets: Offsets) returns (encoded: Text)
    ensures encoded == before + OffsetBytes(offsets)
  {
    encoded := before + LittleEndian(offsets.committed, 8);
    encoded := encoded + LittleEndian(offsets.scan, 8);
    encoded := encoded + LittleEndian(offsets.observed, 8);
  }

  method PushAnchor(before: Text, anchor: Anchor) returns (encoded: Text)
    ensures encoded == before + AnchorBytes(anchor)
  {
    encoded := before + LittleEndian(anchor.start, 8);
    encoded := encoded + LittleEndian(anchor.len, 2);
    encoded := encoded + anchor.sha256;
  }

  // ------------------------------------------------------------------
  // Decoding, field by field at fixed places

  function NumberAt(e: Text, at: nat, n: nat): nat
    requires at + n <= |e|
  {
    FromLittleEndian(e[at..at + n])
  }

  predicate FlagAt(flags: nat, weight: nat)
    requires weight > 0
  {
    flags / weight % 2 == 1
  }

  lemma NumberAtFits(e: Text, at: nat, n: nat)
    requires at + n <= |e|
    ensures NumberAt(e, at, n) < Pow256(n)
  {
    LittleEndianInverse(e[at..at + n]);
  }

  function ModifiedAt(e: Text): (r: int)
    requires FIXED_BYTES <= |e|
    ensures IsI64(r) && Unsigned(r) == NumberAt(e, 100, 8)
  {
    NumberAtFits(e, 100, 8);
    Widths();
    Signed(NumberAt(e, 100, 8))
  }

  datatype Head = Head(parserSchema: nat, flags: nat, identity: Identity, offsets: Offsets, modified: Option<int>)

  function HeadAt(e: Text): Head
    requires FIXED_BYTES <= |e|
  {
    var flags := NumberAt(e, 10, 2);
    Head(NumberAt(e, 8, 2), flags,
         Identity(e[12..44], if FlagAt(flags, 1) then Some(e[44..76]) else None),
         Offsets(NumberAt(e, 76, 8), NumberAt(e, 84, 8), NumberAt(e, 92, 8)),
         if FlagAt(flags, 2) then Some(ModifiedAt(e)) else None)
  }

  /** The checkpoint the bytes spell, with the resume state read from the rest. */
  function Spelled<R>(e: Text, resume: R): Checkpoint<R>
    requires FIXED_BYTES <= |e|
  {
    var h := HeadAt(e);
    Checkpoint(h.parserSchema, h.identity, h.offsets, h.modified,
               Anchor(NumberAt(e, 108, 8), NumberAt(e, 116, 2), e[118..150]),
               Marks(FlagAt(h.flags, 4), FlagAt(h.flags, 8), FlagAt(h.flags, 16)),
               resume)
  }

  function Decoded<R>(codec: ResumeCodec<R>, e: Text, expected: Text): Result<Checkpoint<R>, Error> {
    if |e| > MAX_CHECKPOINT_BYTES then Failure(CapacityExceeded)
    else if |e| < FIXED_BYTES || e[..4] != MAGIC then Failure(InvalidEnvelope)
    else
      var header := HeaderError(e, expected);
      if header.Some? then Failure(header.value)
      else
        var tail := TailError(e);
        if tail.Some? then Failure(tail.value)
        else
          var resume := codec.read(e[FIXED_BYTES..]);
          if resume.None? then Failure(InvalidResume)
          else if !Acceptable(codec, Spelled(e, resume.value)) then Failure(InvalidCheckpoint)
          else Success(Spelled(e, resume.value))
  }

  function HeaderError(e: Text, expected: Text): Option<Error>
    requires FIXED_BYTES <= |e|
  {
    if NumberAt(e, 4, 2) != ENVELOPE_VERSION || NumberAt(e, 6, 2) != CHECKPOINT_SCHEMA then Some(UnsupportedVersion)
    else if NumberAt(e, 10, 2) >= 32 then Some(InvalidFlags)
    else if e[12..44] != expected then Some(IdentityMismatch)
    else if !FlagAt(NumberAt(e, 10, 2), 1) && e[44..76] != ZEROS then Some(InvalidFlags)
    else if !FlagAt(NumberAt(e, 10, 2), 2) && ModifiedAt(e) != 0 then Some(InvalidFlags)
    else None
  }

  function TailError(e: Text): Option<Error>
    requires FIXED_BYTES <= |e|
  {
    var len := NumberAt(e, 150, 4);
    if len > MAX_RESUME_BYTES then Some(CapacityExceeded)
    else if |e| < FIXED_BYTES + len then Some(InvalidEnvelope)
    else if |e| > FIXED_BYTES + len then Some(TrailingBytes)
    else None
  }

  /** A position in the encoded bytes. */
  class Cursor {
    const source: Text
    var at: nat

    constructor (source: Text, at: nat)
      ensures this.source == source && this.at == at
    {
      this.source, this.at := source, at;
    }

    method Take(n: nat) returns (bytes: Text)
      requires at + n <= |source|
      modifies this
      ensures at == old(at) + n && bytes == source[old(at)..at]
    {
      bytes := source[at..at + n];
      at := at + n;
    }

    method TakeNumber(n: nat) returns (value: nat)
      requires at + n <= |source|
      modifies this
      ensures at == old(at) + n && value == NumberAt(source, old(at), n)
    {
      var bytes := Take(n);
      value := FromLittleEndian(bytes);
    }

    method TakeSigned() returns (value: int)
      requires at + 8 <= |source|
      modifies this
      ensures at == old(at) + 8 && IsI64(value) && Unsigned(value) == NumberAt(source, old(at), 8)
    {
      NumberAtFits(source, at, 8);
      Widths();
      var bits := TakeNumber(8);
      value := Signed(bits);
    }
  }

  /** The first 108 bytes, after the magic. */
  method DecodeHead(cursor: Cursor, expected: Text) returns (r: Result<Head, Error>)
    requires cursor.at == 4 && FIXED_BYTES <= |cursor.source|
    modifies cursor
    ensures r.Failure? ==> HeaderError(cursor.source, expected) == Some(r.error)
    ensures r.Success? ==> HeaderError(cursor.source, expected) == None && cursor.at == 108
    ensures r.Success? ==> r.value == HeadAt(cursor.source)
  {
    var envelope := cursor.TakeNumber(2);
    if envelope != ENVELOPE_VERSION { return Failure(UnsupportedVersion); }
    var schema := cursor.TakeNumber(2);
    if schema != CHECKPOINT_SCHEMA { return Failure(UnsupportedVersion); }
    var parserSchema := cursor.TakeNumber(2);
    var flags := cursor.TakeNumber(2);
    if flags >= 32 { return Failure(InvalidFlags); }
    var logical := cursor.Take(32);
    if logical != expected { return Failure(IdentityMismatch); }
    var physicalBytes := cursor.Take(32);
    var physical := None;
    if FlagAt(flags, 1) {
      physical := Some(physicalBytes);
    } else if physicalBytes != ZEROS {
      return Failure(InvalidFlags);
    }
    var committed := cursor.TakeNumber(8);
    var scan := cursor.TakeNumber(8);
    var observed := cursor.TakeNumber(8);
    var modifiedRaw := cursor.TakeSigned();
    var modified := None;
    if FlagAt(flags, 2) {
      modified := Some(modifiedRaw);
    } else if modifiedRaw != 0 {
      return Failure(InvalidFlags);
    }
    r := Success(Head(parserSchema, flags, Identity(logical, physical), Offsets(committed, scan, observed), modified));
  }

  method Decode<R>(codec: ResumeCodec<R>, e: Text, expected: Text) returns (r: Result<Checkpoint<R>, Error>)
    ensures r == Decoded(codec, e, expected)
  {
    if |e| > MAX_CHECKPOINT_BYTES { return Failure(CapacityExceeded); }
    if |e| < FIXED_BYTES || e[..4] != MAGIC { return Failure(InvalidEnvelope); }
    var cursor := new Cursor(e, 4);
    var head := DecodeHead(cursor, expected);
    if head.Failure? { return Failure(head.error); }
    var start := cursor.TakeNumber(8);
    var anchorLen := cursor.TakeNumber(2);
    var sha256 := cursor.Take(32);
    var len := cursor.TakeNumber(4);
    if len > MAX_RESUME_BYTES { return Failure(CapacityExceeded); }
    if |e| < FIXED_BYTES + len { return Failure(InvalidEnvelope); }
    if |e| > FIXED_BYTES + len { return Failure(TrailingBytes); }
    assert e[cursor.at..FIXED_BYTES + len] == e[FIXED_BYTES..];
    var resume := codec.read(e[cursor.at..FIXED_BYTES + len]);
    if resume.None? { return Failure(InvalidResume); }
    var h := head.value;
    var c := Checkpoint(h.parserSchema, h.identity, h.offsets, h.modified, Anchor(start, anchorLen, sha256),
                        Marks(FlagAt(h.flags, 4), FlagAt(h.flags, 8), FlagAt(h.flags, 16)), resume.value);
    if !Acceptable(codec, c) { return Failure(InvalidCheckpoint); }
    r := Success(c);
  }
}
