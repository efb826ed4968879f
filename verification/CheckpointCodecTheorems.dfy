/** Decoding undoes encoding, and accepts nothing it should not. */
module CheckpointCodecTheorems {
  import opened Prelude
  import opened Bytes
  import opened CheckpointCodec
  import opened ResumeText
  import opened ResumeTextTheorems

  /** The bytes are the envelope of `c`, the length of the rest, and a text the
      resume codec reads as the resume state of `c`. */
  ghost predicate Spells<R(!new)>(codec: ResumeCodec<R>, e: Text, expected: Text, c: Checkpoint<R>) {
    && FIXED_BYTES <= |e| <= MAX_CHECKPOINT_BYTES
    && Valid(codec, c) && c.identity.logical == expected
    && e[..150] == Envelope(c) && e[150..154] == LittleEndian(|e| - FIXED_BYTES, 4)
    && codec.read(e[FIXED_BYTES..]) == Some(c.resume)
  }

  // ------------------------------------------------------------------
  // Fields at their places

  lemma NumberIs(e: Text, at: nat, n: nat, value: nat)
    requires at + n <= |e| && value < Pow256(n)
    ensures e[at..at + n] == LittleEndian(value, n) <==> NumberAt(e, at, n) == value
  {
    LittleEndianInverse(e[at..at + n]);
    LittleEndianRoundTrip(value, n);
  }

  ghost predicate VersionsAt<R>(e: Text, c: Checkpoint<R>)
    requires FIXED_BYTES <= |e|
  {
    && e[..4] == MAGIC && e[4..6] == LittleEndian(ENVELOPE_VERSION, 2) && e[6..8] == LittleEndian(CHECKPOINT_SCHEMA, 2)
    && e[8..10] == LittleEndian(c.parserSchema, 2) && e[10..12] == LittleEndian(Flags(c), 2)
  }

  ghost predicate OffsetsAt(e: Text, offsets: Offsets)
    requires FIXED_BYTES <= |e|
  {
    && e[76..84] == LittleEndian(offsets.committed, 8) && e[84..92] == LittleEndian(offsets.scan, 8)
    && e[92..100] == LittleEndian(offsets.observed, 8)
  }

  ghost predicate AnchorAt(e: Text, anchor: Anchor)
    requires FIXED_BYTES <= |e|
  {
    && e[108..116] == LittleEndian(anchor.start, 8) && e[116..118] == LittleEndian(anchor.len, 2)
    && e[118..150] == anchor.sha256
  }

  ghost predicate FieldsAt<R>(e: Text, c: Checkpoint<R>)
    requires FIXED_BYTES <= |e| && c.Fits()
  {
    && VersionsAt(e, c) && e[12..44] == c.identity.logical && e[44..76] == PhysicalBytes(c.identity)
    && OffsetsAt(e, c.offsets) && e[100..108] == LittleEndian(ModifiedBits(c.modified), 8) && AnchorAt(e, c.anchor)
  }

  lemma SplitIff(a: Text, b: Text, x: Text, y: Text)
    requires |a| == |x|
    ensures a + b == x + y <==> a == x && b == y
  {
    if a + b == x + y { Cancel(a, x, b, y); }
  }

  lemma VersionsAre<R>(e: Text, c: Checkpoint<R>)
    requires FIXED_BYTES <= |e|
    ensures e[..12] == Versions(c) <==> VersionsAt(e, c)
  {
    hide LittleEndian, Flags;
    var q1 := MAGIC + LittleEndian(ENVELOPE_VERSION, 2);
    var q2 := q1 + LittleEndian(CHECKPOINT_SCHEMA, 2);
    var q3 := q2 + LittleEndian(c.parserSchema, 2);
    SplitIff(e[..4], e[4..6], MAGIC, LittleEndian(ENVELOPE_VERSION, 2));
    assert e[..4] + e[4..6] == e[..6];
    SplitIff(e[..6], e[6..8], q1, LittleEndian(CHECKPOINT_SCHEMA, 2));
    assert e[..6] + e[6..8] == e[..8];
    SplitIff(e[..8], e[8..10], q2, LittleEndian(c.parserSchema, 2));
    assert e[..8] + e[8..10] == e[..10];
    SplitIff(e[..10], e[10..12], q3, LittleEndian(Flags(c), 2));
    assert e[..10] + e[10..12] == e[..12];
  }

  lemma OffsetsAre(e: Text, offsets: Offsets)
    requires FIXED_BYTES <= |e|
    ensures e[76..100] == OffsetBytes(offsets) <==> OffsetsAt(e, offsets)
  {
    hide LittleEndian;
    var q1 := LittleEndian(offsets.committed, 8) + LittleEndian(offsets.scan, 8);
    SplitIff(e[76..84], e[84..92], LittleEndian(offsets.committed, 8), LittleEndian(offsets.scan, 8));
    assert e[76..84] + e[84..92] == e[76..92];
    SplitIff(e[76..92], e[92..100], q1, LittleEndian(offsets.observed, 8));
    assert e[76..92] + e[92..100] == e[76..100];
  }

  lemma AnchorIs(e: Text, anchor: Anchor)
    requires FIXED_BYTES <= |e| && |anchor.sha256| == 32
    ensures e[108..150] == AnchorBytes(anchor) <==> AnchorAt(e, anchor)
  {
    hide LittleEndian;
    var q1 := LittleEndian(anchor.start, 8) + LittleEndian(anchor.len, 2);
    SplitIff(e[108..116], e[116..118], LittleEndian(anchor.start, 8), LittleEndian(anchor.len, 2));
    assert e[108..116] + e[116..118] == e[108..118];
    SplitIff(e[108..118], e[118..150], q1, anchor.sha256);
    assert e[108..118] + e[118..150] == e[108..150];
  }

  /** The envelope is its fields at their places. */
  lemma EnvelopeIs<R>(e: Text, c: Checkpoint<R>)
    requires FIXED_BYTES <= |e| && c.Fits()
    ensures e[..150] == Envelope(c) <==> FieldsAt(e, c)
  {
    hide LittleEndian, Versions, OffsetBytes, AnchorBytes, VersionsAt, OffsetsAt, AnchorAt;
    VersionsAre(e, c);
    OffsetsAre(e, c.offsets);
    AnchorIs(e, c.anchor);
    var q1 := Versions(c) + c.identity.logical;
    var q2 := q1 + PhysicalBytes(c.identity);
    var q3 := q2 + OffsetBytes(c.offsets);
    var q4 := q3 + LittleEndian(ModifiedBits(c.modified), 8);
    SplitIff(e[..12], e[12..44], Versions(c), c.identity.logical);
    assert e[..12] + e[12..44] == e[..44];
    SplitIff(e[..44], e[44..76], q1, PhysicalBytes(c.identity));
    assert e[..44] + e[44..76] == e[..76];
    SplitIff(e[..76], e[76..100], q2, OffsetBytes(c.offsets));
    assert e[..76] + e[76..100] == e[..100];
    SplitIff(e[..100], e[100..108], q3, LittleEndian(ModifiedBits(c.modified), 8));
    assert e[..100] + e[100..108] == e[..108];
    SplitIff(e[..108], e[108..150], q4, AnchorBytes(c.anchor));
    assert e[..108] + e[108..150] == e[..150];
  }

  // ------------------------------------------------------------------
  // What is accepted

  predicate FlagsAre<R>(flags: nat, c: Checkpoint<R>) {
    && flags < 32
    && FlagAt(flags, 1) == c.identity.physical.Some? && FlagAt(flags, 2) == c.modified.Some?
    && FlagAt(flags, 4) == c.marks.discarding && FlagAt(flags, 8) == c.marks.incompleteTail
    && FlagAt(flags, 16) == c.marks.fullPrefix
  }

  lemma FlagsTell<R>(flags: nat, c: Checkpoint<R>)
    ensures flags == Flags(c) <==> FlagsAre(flags, c)
  {
  }

  /** The numbers at the places of the first 76 bytes. */
  lemma HeadIs<R>(e: Text, c: Checkpoint<R>)
    requires FIXED_BYTES <= |e| && c.Fits()
    ensures VersionsAt(e, c) <==>
            && e[..4] == MAGIC && NumberAt(e, 4, 2) == ENVELOPE_VERSION && NumberAt(e, 6, 2) == CHECKPOINT_SCHEMA
            && NumberAt(e, 8, 2) == c.parserSchema && FlagsAre(NumberAt(e, 10, 2), c)
  {
    hide NumberAt, LittleEndian, Flags, FlagsAre;
    Widths();
    NumberIs(e, 4, 2, ENVELOPE_VERSION);
    NumberIs(e, 6, 2, CHECKPOINT_SCHEMA);
    NumberIs(e, 8, 2, c.parserSchema);
    NumberIs(e, 10, 2, Flags(c));
    FlagsTell(NumberAt(e, 10, 2), c);
  }

  lemma NumbersAre<R>(e: Text, c: Checkpoint<R>)
    requires FIXED_BYTES <= |e| && c.Fits()
    ensures OffsetsAt(e, c.offsets) <==>
            c.offsets == Offsets(NumberAt(e, 76, 8), NumberAt(e, 84, 8), NumberAt(e, 92, 8))
    ensures AnchorAt(e, c.anchor) <==> c.anchor == Anchor(NumberAt(e, 108, 8), NumberAt(e, 116, 2), e[118..150])
    ensures e[100..108] == LittleEndian(ModifiedBits(c.modified), 8) <==>
            ModifiedAt(e) == (if c.modified.Some? then c.modified.value else 0)
  {
    hide NumberAt, LittleEndian;
    Widths();
    NumberIs(e, 76, 8, c.offsets.committed);
    NumberIs(e, 84, 8, c.offsets.scan);
    NumberIs(e, 92, 8, c.offsets.observed);
    NumberIs(e, 108, 8, c.anchor.start);
    NumberIs(e, 116, 2, c.anchor.len);
    NumberIs(e, 100, 8, ModifiedBits(c.modified));
  }

  /** The bytes spell `c` exactly when every check on the header passes and the
      fields read back are those of `c`. */
  lemma SpelledIs<R>(e: Text, expected: Text, c: Checkpoint<R>)
    requires FIXED_BYTES <= |e| && c.Fits() && c.identity.logical == expected
    ensures FieldsAt(e, c) <==>
            e[..4] == MAGIC && HeaderError(e, expected) == None && Spelled(e, c.resume) == c
  {
    hide NumberAt, LittleEndian, VersionsAt, OffsetsAt, AnchorAt, FlagAt, ModifiedAt;
    HeadIs(e, c);
    NumbersAre(e, c);
  }

  lemma SpelledFits<R>(e: Text, resume: R)
    requires FIXED_BYTES <= |e|
    ensures Spelled(e, resume).Fits()
  {
    hide NumberAt;
    Widths();
    NumberAtFits(e, 8, 2);
    NumberAtFits(e, 76, 8);
    NumberAtFits(e, 84, 8);
    NumberAtFits(e, 92, 8);
    NumberAtFits(e, 108, 8);
    NumberAtFits(e, 116, 2);
  }

  lemma TailIs(e: Text)
    requires FIXED_BYTES <= |e| <= MAX_CHECKPOINT_BYTES
    ensures TailError(e) == None <==> e[150..154] == LittleEndian(|e| - FIXED_BYTES, 4)
  {
    hide NumberAt, LittleEndian;
    Widths();
    NumberIs(e, 150, 4, |e| - FIXED_BYTES);
  }

  /** Decoding accepts exactly the spellings of a valid checkpoint with the
      expected identity, and gives that checkpoint. */
  lemma DecodeAcceptsSpellings<R(!new)>(codec: ResumeCodec<R>, e: Text, expected: Text, c: Checkpoint<R>)
    ensures Decoded(codec, e, expected) == Success(c) <==> Spells(codec, e, expected, c)
  {
    hide NumberAt, LittleEndian, TailError, HeaderError, Envelope, FieldsAt, Spelled, Acceptable;
    if FIXED_BYTES <= |e| <= MAX_CHECKPOINT_BYTES {
      TailIs(e);
      var resume := codec.read(e[FIXED_BYTES..]);
      if resume.Some? {
        SpelledFits(e, resume.value);
        if Decoded(codec, e, expected) == Success(c) {
          assert c == Spelled(e, resume.value);
          IdentityIs(e, expected, resume.value);
        }
        if c.Fits() && c.identity.logical == expected && c.resume == resume.value {
          SpelledIs(e, expected, c);
          EnvelopeIs(e, c);
        }
      }
    }
  }

  lemma IdentityIs<R>(e: Text, expected: Text, resume: R)
    requires FIXED_BYTES <= |e| && HeaderError(e, expected) == None
    ensures Spelled(e, resume).identity.logical == expected && Spelled(e, resume).resume == resume
  {
    hide NumberAt, FlagAt, ModifiedAt;
  }

  // ------------------------------------------------------------------
  // The promises

  /** Whatever the resume codec, encoding a valid checkpoint succeeds exactly
      when the resume text leaves room for the envelope. */
  lemma EncodeSucceedsWhenItFits<R>(codec: ResumeCodec<R>, c: Checkpoint<R>)
    requires Valid(codec, c)
    ensures Encoded(codec, c).Success? <==> |codec.write(c.resume).value| <= MAX_CHECKPOINT_BYTES - FIXED_BYTES
    ensures Encoded(codec, c).Failure? ==> Encoded(codec, c).error == CapacityExceeded
  {
    hide Layout;
  }

  /** Every valid checkpoint is encoded, and decoding undoes it. */
  lemma DecodeUndoesEncode<R(!new)>(codec: ResumeCodec<R>, c: Checkpoint<R>)
    requires RoundTrips(codec) && LeavesRoom(codec) && Valid(codec, c)
    ensures Encoded(codec, c).Success?
    ensures Decoded(codec, Encoded(codec, c).value, c.identity.logical) == Success(c)
  {
    EncodeSucceedsWhenItFits(codec, c);
    SpellsItself(codec, c);
    hide Decoded, Spells;
    DecodeAcceptsSpellings(codec, Encoded(codec, c).value, c.identity.logical, c);
  }

  lemma SpellsItself<R(!new)>(codec: ResumeCodec<R>, c: Checkpoint<R>)
    requires RoundTrips(codec) && Valid(codec, c) && Encoded(codec, c).Success?
    ensures Spells(codec, Encoded(codec, c).value, c.identity.logical, c)
  {
    hide LittleEndian, Envelope;
    var resume := codec.write(c.resume).value;
    var e := Encoded(codec, c).value;
    assert e[..150] == Envelope(c) && e[150..154] == LittleEndian(|resume|, 4) && e[154..] == resume;
  }

  /** The parser's own codec: it writes compact JSON, resumes only from states
      within the limits of their types, and reads what it wrote. */
  ghost predicate IsParserCodec(codec: ResumeCodec<Resume>) {
    && (forall r :: codec.write(r) == Some(Written(r)))
    && (forall r :: codec.restores(r) ==> WithinLimits(r))
    && (forall r :: codec.restores(r) ==> codec.read(Written(r)) == Some(r))
  }

  /** There is such a codec for all states within the limits, because no two of
      them are written alike. */
  lemma ParserCodecExists() returns (codec: ResumeCodec<Resume>)
    ensures IsParserCodec(codec) && forall r :: codec.restores(r) <==> WithinLimits(r)
  {
    hide Written, WithinLimits, ReadBack;
    codec := ResumeCodec(r => Some(Written(r)), text => ReadBack(text), r => WithinLimits(r));
    forall r | WithinLimits(r) ensures codec.read(Written(r)) == Some(r) { ReadBackUndoes(r); }
  }

  /** The limits of the parser's resume state leave room for the envelope. */
  lemma ParserLeavesRoom(codec: ResumeCodec<Resume>)
    requires IsParserCodec(codec)
    ensures RoundTrips(codec) && LeavesRoom(codec)
  {
    hide Written, WithinLimits;
    forall r | codec.restores(r) ensures |Written(r)| <= MAX_WRITTEN { WrittenLength(r); }
  }

  /** So every valid checkpoint of the reader is encoded and read back. */
  lemma ReaderCheckpointsRoundTrip(codec: ResumeCodec<Resume>, c: Checkpoint<Resume>)
    requires IsParserCodec(codec) && Valid(codec, c)
    ensures Encoded(codec, c).Success?
    ensures Decoded(codec, Encoded(codec, c).value, c.identity.logical) == Success(c)
  {
    hide Encoded, Decoded, Valid, IsParserCodec;
    ParserLeavesRoom(codec);
    DecodeUndoesEncode(codec, c);
  }

  /** No accepted input is a proper prefix of another, whatever identities they
      are decoded for: every proper prefix and every extension is refused. */
  lemma AcceptedArePrefixFree<R(!new)>(codec: ResumeCodec<R>, e: Text, f: Text, forE: Text, forF: Text)
    requires Decoded(codec, e, forE).Success? && Decoded(codec, f, forF).Success? && e <= f
    ensures e == f
  {
    hide LittleEndian, Envelope, Decoded, Acceptable, Valid;
    DecodeAcceptsSpellings(codec, e, forE, Decoded(codec, e, forE).value);
    DecodeAcceptsSpellings(codec, f, forF, Decoded(codec, f, forF).value);
    assert e[150..154] == f[150..154];
    Widths();
    LittleEndianRoundTrip(|e| - FIXED_BYTES, 4);
    LittleEndianRoundTrip(|f| - FIXED_BYTES, 4);
  }

  /** Two accepted inputs with the same checkpoint differ at most in the resume
      text and its length. */
  lemma SameCheckpointSameEnvelope<R(!new)>(codec: ResumeCodec<R>, e: Text, f: Text, expected: Text)
    requires Decoded(codec, e, expected).Success? && Decoded(codec, e, expected) == Decoded(codec, f, expected)
    ensures FIXED_BYTES <= |e| && FIXED_BYTES <= |f| && e[..150] == f[..150]
    ensures codec.read(e[FIXED_BYTES..]) == codec.read(f[FIXED_BYTES..])
  {
    hide LittleEndian, Envelope, Decoded, Acceptable;
    DecodeAcceptsSpellings(codec, e, expected, Decoded(codec, e, expected).value);
    DecodeAcceptsSpellings(codec, f, expected, Decoded(codec, f, expected).value);
  }

  // ------------------------------------------------------------------
  // Which error when

  predicate Framed(e: Text) {
    FIXED_BYTES <= |e| <= MAX_CHECKPOINT_BYTES && e[..4] == MAGIC
  }

  predicate KnownVersions(e: Text)
    requires FIXED_BYTES <= |e|
  {
    NumberAt(e, 4, 2) == 1 && NumberAt(e, 6, 2) == 1
  }

  /** Fields whose flag is down hold zeros. */
  predicate BlanksAreBlank(e: Text)
    requires FIXED_BYTES <= |e|
  {
    var flags := NumberAt(e, 10, 2);
    && (flags % 2 == 0 ==> forall i :: 44 <= i < 76 ==> e[i] == 0)
    && (flags / 2 % 2 == 0 ==> NumberAt(e, 100, 8) == 0)
  }

  /** Everything up to the resume state's length passes. */
  predicate HeaderIsFine(e: Text, expected: Text) {
    && Framed(e) && KnownVersions(e) && NumberAt(e, 10, 2) < 32
    && e[12..44] == expected && BlanksAreBlank(e)
  }

  /** The length field tells exactly how many bytes follow. */
  predicate TailIsFine(e: Text)
    requires FIXED_BYTES <= |e|
  {
    NumberAt(e, 150, 4) == |e| - FIXED_BYTES
  }

  /** What a checkpoint must satisfy to be resumed from. */
  predicate IsSound<R>(codec: ResumeCodec<R>, c: Checkpoint<R>) {
    && c.parserSchema == 2 && codec.restores(c.resume)
    && codec.write(c.resume).Some? && |codec.write(c.resume).value| <= 32768
    && c.offsets.committed <= c.offsets.scan <= c.offsets.observed
    && (c.marks.discarding <==> c.offsets.scan != c.offsets.committed)
    && (c.marks.discarding ==> c.marks.incompleteTail)
    && c.anchor.len <= 4096 && c.anchor.start + c.anchor.len < U64_LIMIT
    && c.anchor.start + c.anchor.len <= c.offsets.committed
  }

  lemma HeaderErrorIs(e: Text, expected: Text)
    requires FIXED_BYTES <= |e|
    ensures var r := HeaderError(e, expected);
            && (r == Some(UnsupportedVersion) <==> !KnownVersions(e))
            && (r == Some(InvalidFlags) <==>
                  && KnownVersions(e)
                  && (NumberAt(e, 10, 2) >= 32 || (e[12..44] == expected && !BlanksAreBlank(e))))
            && (r == Some(IdentityMismatch) <==>
                  KnownVersions(e) && NumberAt(e, 10, 2) < 32 && e[12..44] != expected)
            && (r.Some? ==> r.value in {UnsupportedVersion, InvalidFlags, IdentityMismatch})
  {
    hide FromLittleEndian;
    assert e[44..76] == ZEROS <==> forall i :: 44 <= i < 76 ==> e[i] == 0 by { ZerosAre(e); }
    assert ModifiedAt(e) == 0 <==> NumberAt(e, 100, 8) == 0;
  }

  lemma ZerosAre(e: Text)
    requires FIXED_BYTES <= |e|
    ensures e[44..76] == ZEROS <==> forall i :: 44 <= i < 76 ==> e[i] == 0
  {
    forall i: nat | i < 32 ensures ZEROS[i] == 0 { LittleEndianDigit(0, 32, i); }
    assert forall i :: 44 <= i < 76 ==> e[44..76][i - 44] == e[i];
  }

  /** Each error has its own condition on the bytes, in the order in which they
      are noticed; what passes them all is accepted. */
  lemma DecodeErrorsExactlyWhen<R(!new)>(codec: ResumeCodec<R>, e: Text, expected: Text)
    ensures var r := Decoded(codec, e, expected);
            var fine := HeaderIsFine(e, expected);
            var len := if fine then NumberAt(e, 150, 4) else 0;
            var resume := if fine then codec.read(e[FIXED_BYTES..]) else None;
            && (r == Failure(CapacityExceeded) <==> |e| > MAX_CHECKPOINT_BYTES || (fine && len > MAX_RESUME_BYTES))
            && (r == Failure(InvalidEnvelope) <==>
                  && |e| <= MAX_CHECKPOINT_BYTES
                  && (!Framed(e) || (fine && len <= MAX_RESUME_BYTES && |e| < FIXED_BYTES + len)))
            && (r == Failure(UnsupportedVersion) <==> Framed(e) && !KnownVersions(e))
            && (r == Failure(InvalidFlags) <==>
                  && Framed(e) && KnownVersions(e)
                  && (NumberAt(e, 10, 2) >= 32 || (e[12..44] == expected && !BlanksAreBlank(e))))
            && (r == Failure(IdentityMismatch) <==>
                  Framed(e) && KnownVersions(e) && NumberAt(e, 10, 2) < 32 && e[12..44] != expected)
            && (r == Failure(TrailingBytes) <==> fine && len <= MAX_RESUME_BYTES && |e| > FIXED_BYTES + len)
            && (r == Failure(InvalidResume) <==> fine && TailIsFine(e) && resume.None?)
            && (r == Failure(InvalidCheckpoint) <==>
                  fine && TailIsFine(e) && resume.Some? && !IsSound(codec, Spelled(e, resume.value)))
            && (r.Success? <==> fine && TailIsFine(e) && resume.Some? && IsSound(codec, Spelled(e, resume.value)))
  {
    hide FromLittleEndian, HeaderError, BlanksAreBlank, KnownVersions;
    if Framed(e) { HeaderErrorIs(e, expected); }
  }

  /** Encoding fails exactly if the parser cannot write its state or the text does
      not fit together with the envelope. */
  lemma EncodeErrorsExactlyWhen<R>(codec: ResumeCodec<R>, c: Checkpoint<R>)
    requires c.Fits()
    ensures var r, text := Encoded(codec, c), codec.write(c.resume);
            && (r == Failure(InvalidResume) <==> text.None?)
            && (r == Failure(CapacityExceeded) <==> text.Some? && |text.value| > 32768 - 154)
            && (r.Success? <==> text.Some? && |text.value| <= 32768 - 154)
  {
  }
}
