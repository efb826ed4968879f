/** crates/accounting/src/hash.rs: the bytes fed to the hash for an event
    fingerprint and for a replay signature.  The digest itself is not modelled. */
module HashPreimages {
  import opened Prelude
  import opened Bytes

  datatype Count = Available(value: nat) | Unavailable {
    predicate Fits() {
      Available? ==> value < U64_LIMIT
    }
  }

  datatype Usage = Usage(input: Count, cached: Count, output: Count, reasoning: Count, total: Count,
                         cacheWrite5m: Count, cacheWrite1h: Count)
  {
    /** The five counts that are hashed; the two cache writes are not. */
    function Counts(): seq<Count> {
      [input, cached, output, reasoning, total]
    }

    predicate Fits() {
      input.Fits() && cached.Fits() && output.Fits() && reasoning.Fits() && total.Fits()
    }
  }

  datatype Draft = Draft(provider: Text, profile: Text, session: Text, ordinal: nat, model: Text,
                         delta: Usage, cumulative: Option<Usage>)
  {
    /** The widths of the source's types, and texts whose length fits its field. */
    predicate Fits() {
      && |provider| < U32_LIMIT && |profile| < U32_LIMIT && |session| < U32_LIMIT && |model| < U32_LIMIT
      && ordinal < U64_LIMIT && delta.Fits() && (cumulative.Some? ==> cumulative.value.Fits())
    }
  }

  predicate IsAscii(s: string) {
    forall i :: 0 <= i < |s| ==> s[i] < 128 as char
  }

  function Ascii(s: string): (r: Text)
    requires IsAscii(s)
    ensures |r| == |s| && forall i :: 0 <= i < |r| ==> r[i] == s[i] as int
  {
    seq(|s|, i requires 0 <= i < |s| => s[i] as int)
  }

  const EVENT_DOMAIN: Text := Ascii("tokenmaster.event-fingerprint.v2\0")
  const REPLAY_DOMAIN: Text := Ascii("tokenmaster.replay-signature.v1\0")

  /** A length that does not fit its four bytes is written as the largest one. */
  function TextField(text: Text): Text {
    BigEndian(if |text| < U32_LIMIT then |text| else U32_LIMIT - 1, 4) + text
  }

  function CountField(count: Count): Text {
    match count
    case Available(value) => [1] + BigEndian(value, 8)
    case Unavailable => [0]
  }

  function CountFields(counts: seq<Count>): Text {
    if counts == [] then [] else CountField(counts[0]) + CountFields(counts[1..])
  }

  function UsageField(usage: Usage): Text {
    CountFields(usage.Counts())
  }

  function CumulativeField(cumulative: Option<Usage>): Text {
    if cumulative.Some? then [1] + UsageField(cumulative.value) else [0]
  }

  function EventPreimage(d: Draft): Text {
    EVENT_DOMAIN + (TextField(d.provider) + (TextField(d.profile) + (TextField(d.session)
    + (BigEndian(d.ordinal, 8) + (TextField(d.model) + UsageField(d.delta))))))
  }

  function ReplayPreimage(d: Draft): Text {
    REPLAY_DOMAIN + (TextField(d.model) + (UsageField(d.delta) + CumulativeField(d.cumulative)))
  }

  // ------------------------------------------------------------------
  // The hasher

  /** A hash in progress: the bytes fed so far. */
  class Hasher {
    var fed: Text

    constructor ()
      ensures fed == []
    {
      fed := [];
    }

    method Update(bytes: Text)
      modifies this
      ensures fed == old(fed) + bytes
    {
      fed := fed + bytes;
    }

    method UpdateText(text: Text)
      modifies this
      ensures fed == old(fed) + TextField(text)
    {
      Update(BigEndian(if |text| < U32_LIMIT then |text| else U32_LIMIT - 1, 4));
      Update(text);
    }

    method UpdateCount(count: Count)
      modifies this
      ensures fed == old(fed) + CountField(count)
    {
      match count
      case Available(value) =>
        Update([1]);
        Update(BigEndian(value, 8));
      case Unavailable => Update([0]);
    }

    method UpdateUsage(usage: Usage)
      modifies this
      ensures fed == old(fed) + UsageField(usage)
    {
      hide CountField;
      var counts := usage.Counts();
      ghost var all := old(fed) + UsageField(usage);
      assert counts[0..] == counts;
      for i := 0 to |counts|
        invariant fed + CountFields(counts[i..]) == all
      {
        assert counts[i..][1..] == counts[i + 1..];
        Regroup(fed, CountField(counts[i]), CountFields(counts[i + 1..]));
        UpdateCount(counts[i]);
      }
    }
  }

  method EventFingerprint(d: Draft) returns (preimage: Text)
    ensures preimage == EventPreimage(d)
  {
    hide TextField, UsageField, EVENT_DOMAIN;
    var h := new Hasher();
    h.Update(EVENT_DOMAIN);
    h.UpdateText(d.provider);
    h.UpdateText(d.profile);
    h.UpdateText(d.session);
    h.Update(BigEndian(d.ordinal, 8));
    h.UpdateText(d.model);
    h.UpdateUsage(d.delta);
    preimage := h.fed;
  }

  method ReplaySignature(d: Draft) returns (preimage: Text)
    ensures preimage == ReplayPreimage(d)
  {
    hide TextField, UsageField, REPLAY_DOMAIN;
    var h := new Hasher();
    h.Update(REPLAY_DOMAIN);
    h.UpdateText(d.model);
    h.UpdateUsage(d.delta);
    match d.cumulative {
      case Some(cumulative) =>
        h.Update([1]);
        h.UpdateUsage(cumulative);
      case None => h.Update([0]);
    }
    preimage := h.fed;
  }

  // ------------------------------------------------------------------
  // Each field ends where its own bytes say

  lemma TextFieldEnds(a: Text, b: Text, x: Text, y: Text)
    requires |a| < U32_LIMIT && |b| < U32_LIMIT && TextField(a) + x == TextField(b) + y
    ensures a == b && x == y
  {
    assert TextField(a) + x == BigEndian(|a|, 4) + (a + x);
    assert TextField(b) + y == BigEndian(|b|, 4) + (b + y);
    Cancel(BigEndian(|a|, 4), BigEndian(|b|, 4), a + x, b + y);
    Widths();
    BigEndianInjective(|a|, |b|, 4);
    Cancel(a, b, x, y);
  }

  lemma CountFieldEnds(a: Count, b: Count, x: Text, y: Text)
    requires a.Fits() && b.Fits() && CountField(a) + x == CountField(b) + y
    ensures a == b && x == y
  {
    assert (CountField(a) + x)[0] == CountField(a)[0] && (CountField(b) + y)[0] == CountField(b)[0];
    Cancel(CountField(a), CountField(b), x, y);
    if a.Available? {
      Widths();
      Cancel([1], [1], BigEndian(a.value, 8), BigEndian(b.value, 8));
      BigEndianInjective(a.value, b.value, 8);
    }
  }

  lemma {:induction false} CountFieldsEnd(a: seq<Count>, b: seq<Count>, x: Text, y: Text)
    requires |a| == |b| && (forall i :: 0 <= i < |a| ==> a[i].Fits() && b[i].Fits())
    requires CountFields(a) + x == CountFields(b) + y
    ensures a == b && x == y
  {
    hide CountField;
    if a == [] {
      assert CountFields(a) + x == x && CountFields(b) + y == y;
    } else {
      var p, q := CountFields(a[1..]), CountFields(b[1..]);
      assert CountFields(a) + x == CountField(a[0]) + (p + x) by { Regroup(CountField(a[0]), p, x); }
      assert CountFields(b) + y == CountField(b[0]) + (q + y) by { Regroup(CountField(b[0]), q, y); }
      CountFieldEnds(a[0], b[0], p + x, q + y);
      CountFieldsEnd(a[1..], b[1..], x, y);
      assert a == [a[0]] + a[1..] && b == [b[0]] + b[1..];
    }
  }

  lemma Regroup(a: Text, b: Text, c: Text)
    ensures a + b + c == a + (b + c)
  {
  }

  lemma UsageFieldEnds(a: Usage, b: Usage, x: Text, y: Text)
    requires a.Fits() && b.Fits() && UsageField(a) + x == UsageField(b) + y
    ensures a.Counts() == b.Counts() && x == y
  {
    hide CountFields;
    CountFieldsEnd(a.Counts(), b.Counts(), x, y);
  }

  /** Two drafts have the same event preimage exactly when they agree on every
      field of it; cache writes do not tell them apart. */
  lemma EventPreimageInjective(a: Draft, b: Draft)
    requires a.Fits() && b.Fits()
    ensures EventPreimage(a) == EventPreimage(b) <==>
            && a.provider == b.provider && a.profile == b.profile && a.session == b.session
            && a.ordinal == b.ordinal && a.model == b.model && a.delta.Counts() == b.delta.Counts()
  {
    hide TextField, CountFields, EVENT_DOMAIN, BigEndian;
    if EventPreimage(a) == EventPreimage(b) {
      var a5, b5 := TextField(a.model) + UsageField(a.delta), TextField(b.model) + UsageField(b.delta);
      var a4, b4 := BigEndian(a.ordinal, 8) + a5, BigEndian(b.ordinal, 8) + b5;
      var a3, b3 := TextField(a.session) + a4, TextField(b.session) + b4;
      var a2, b2 := TextField(a.profile) + a3, TextField(b.profile) + b3;
      Cancel(EVENT_DOMAIN, EVENT_DOMAIN, TextField(a.provider) + a2, TextField(b.provider) + b2);
      TextFieldEnds(a.provider, b.provider, a2, b2);
      TextFieldEnds(a.profile, b.profile, a3, b3);
      TextFieldEnds(a.session, b.session, a4, b4);
      Cancel(BigEndian(a.ordinal, 8), BigEndian(b.ordinal, 8), a5, b5);
      Widths();
      BigEndianInjective(a.ordinal, b.ordinal, 8);
      TextFieldEnds(a.model, b.model, UsageField(a.delta), UsageField(b.delta));
      assert UsageField(a.delta) + [] == UsageField(b.delta) + [];
      UsageFieldEnds(a.delta, b.delta, [], []);
    }
  }

  function CountsOf(usage: Option<Usage>): Option<seq<Count>> {
    if usage.Some? then Some(usage.value.Counts()) else None
  }

  /** The same for the replay preimage, the optional cumulative usage included. */
  lemma ReplayPreimageInjective(a: Draft, b: Draft)
    requires a.Fits() && b.Fits()
    ensures ReplayPreimage(a) == ReplayPreimage(b) <==>
            && a.model == b.model && a.delta.Counts() == b.delta.Counts()
            && CountsOf(a.cumulative) == CountsOf(b.cumulative)
  {
    hide TextField, CountFields, REPLAY_DOMAIN, BigEndian;
    if ReplayPreimage(a) == ReplayPreimage(b) {
      var a2, b2 := CumulativeField(a.cumulative), CumulativeField(b.cumulative);
      var a1, b1 := UsageField(a.delta) + a2, UsageField(b.delta) + b2;
      Cancel(REPLAY_DOMAIN, REPLAY_DOMAIN, TextField(a.model) + a1, TextField(b.model) + b1);
      TextFieldEnds(a.model, b.model, a1, b1);
      UsageFieldEnds(a.delta, b.delta, a2, b2);
      assert a2[0] == b2[0];
      if a.cumulative.Some? {
        var x, y := UsageField(a.cumulative.value), UsageField(b.cumulative.value);
        Cancel([1], [1], x, y);
        assert x + [] == y + [];
        UsageFieldEnds(a.cumulative.value, b.cumulative.value, [], []);
      }
    }
  }

  /** An event preimage is never a replay preimage. */
  lemma DomainsAreApart(a: Draft, b: Draft)
    ensures EventPreimage(a) != ReplayPreimage(b)
  {
    assert EVENT_DOMAIN[12] == 'e' as int && REPLAY_DOMAIN[12] == 'r' as int;
    assert EventPreimage(a)[12] == EVENT_DOMAIN[12] && ReplayPreimage(b)[12] == REPLAY_DOMAIN[12];
  }
}
