/** The parser's resume state of crates/codex/src/parser/state.rs and its compact
    JSON text: how long it can be.  Texts are UTF-8 bytes. */
module ResumeText {
  import opened Prelude
  import opened Bytes
  import opened HashPreimages

  const MAX_TOOL_NAMES := 64
  const MAX_TOOL_NAME_BYTES := 80
  const MAX_TEXT_BYTES := 512
  const MAX_MODEL_KEY_BYTES := 64

  datatype ToolCount = ToolCount(name: Text, count: nat)

  datatype Model = Model(key: Text, raw: Option<Text>, fallback: bool)

  datatype Session = Session(id: Option<Text>, parent: Option<Text>, lineageConflict: bool, nextOrdinal: nat)

  datatype Labels = Labels(serviceTier: Option<Text>, project: Option<Text>, originator: Option<Text>,
                           sourceAlias: Option<Text>, gitBranch: Option<Text>)

  datatype Activity = Activity(pending: seq<nat>, aggregate: seq<nat>)

  datatype Resume = Resume(version: nat, model: Option<Model>, totals: Option<Usage>, session: Session,
                           labels: Labels, contextWindow: Option<nat>, activity: Activity,
                           tools: seq<ToolCount>, otherTools: nat)

  // ------------------------------------------------------------------
  // The limits that the field types and the restoring check impose

  /** Bounded, and free of control characters. */
  predicate Plain(text: Text, limit: nat) {
    |text| <= limit && forall i :: 0 <= i < |text| ==> text[i] >= 32
  }

  predicate PlainOrNone(text: Option<Text>) {
    text.Some? ==> Plain(text.value, MAX_TEXT_BYTES)
  }

  predicate Words(counts: seq<nat>) {
    |counts| == 8 && forall i :: 0 <= i < |counts| ==> counts[i] < U64_LIMIT
  }

  predicate LabelsFit(labels: Labels) {
    && PlainOrNone(labels.serviceTier) && PlainOrNone(labels.project) && PlainOrNone(labels.originator)
    && PlainOrNone(labels.sourceAlias) && PlainOrNone(labels.gitBranch)
  }

  predicate ToolsFit(tools: seq<ToolCount>) {
    && |tools| <= MAX_TOOL_NAMES
    && (forall i :: 0 <= i < |tools| ==> Plain(tools[i].name, MAX_TOOL_NAME_BYTES) && tools[i].count < U64_LIMIT)
  }

  predicate UsageFits(usage: Usage) {
    usage.Fits() && usage.cacheWrite5m.Fits() && usage.cacheWrite1h.Fits()
  }

  predicate WithinLimits(r: Resume) {
    && r.version < U16_LIMIT
    && (r.model.Some? ==> Plain(r.model.value.key, MAX_MODEL_KEY_BYTES) && PlainOrNone(r.model.value.raw))
    && (r.totals.Some? ==> UsageFits(r.totals.value))
    && PlainOrNone(r.session.id) && PlainOrNone(r.session.parent) && r.session.nextOrdinal < U64_LIMIT
    && LabelsFit(r.labels) && (r.contextWindow.Some? ==> r.contextWindow.value < U64_LIMIT)
    && Words(r.activity.pending) && Words(r.activity.aggregate)
    && ToolsFit(r.tools) && r.otherTools < U64_LIMIT
  }

  // ------------------------------------------------------------------
  // JSON

  const QUOTE: Byte := 34
  const BACKSLASH: Byte := 92
  const COMMA: Text := [44]
  const NULL: Text := [110, 117, 108, 108]

  function HexDigit(n: nat): Byte
    requires n < 16
  {
    if n < 10 then 48 + n else 87 + n
  }

  function Escape(b: Byte): Text {
    if b == QUOTE || b == BACKSLASH then [BACKSLASH, b]
    else if b == 8 then [BACKSLASH, 98]
    else if b == 9 then [BACKSLASH, 116]
    else if b == 10 then [BACKSLASH, 110]
    else if b == 12 then [BACKSLASH, 102]
    else if b == 13 then [BACKSLASH, 114]
    else if b < 32 then [BACKSLASH, 117, 48, 48, HexDigit(b / 16), HexDigit(b % 16)]
    else [b]
  }

  function Escaped(text: Text): Text {
    if text == [] then [] else Escape(text[0]) + Escaped(text[1..])
  }

  function Quoted(text: Text): Text {
    [QUOTE] + Escaped(text) + [QUOTE]
  }

  function Decimal(n: nat): Text {
    if n < 10 then [48 + n] else Decimal(n / 10) + [48 + n % 10]
  }

  function Truth(b: bool): Text {
    if b then [116, 114, 117, 101] else [102, 97, 108, 115, 101]
  }

  function TextOrNull(text: Option<Text>): Text {
    if text.Some? then Quoted(text.value) else NULL
  }

  function CountOrNull(count: Count): Text {
    if count.Available? then Decimal(count.value) else NULL
  }

  function Joined(parts: seq<Text>): Text {
    if parts == [] then [] else if |parts| == 1 then parts[0] else parts[0] + COMMA + Joined(parts[1..])
  }

  function Listed(parts: seq<Text>): Text {
    [91] + Joined(parts) + [93]
  }

  function NameBytes(name: string): (r: Text)
    ensures |r| == |name|
  {
    seq(|name|, i requires 0 <= i < |name| => name[i] as int % 256)
  }

  /** Member names are ASCII and need no escapes. */
  function Member(name: string, value: Text): (r: Text)
    ensures |r| == |name| + 3 + |value|
  {
    [QUOTE] + NameBytes(name) + [QUOTE, 58] + value
  }

  function Record(members: seq<Text>): Text {
    [123] + Joined(members) + [125]
  }

  function ModelMembers(m: Model): seq<Text> {
    [Member("key", Quoted(m.key)), Member("raw", TextOrNull(m.raw)), Member("fallback", Truth(m.fallback))]
  }

  function ModelText(m: Model): Text {
    Record(ModelMembers(m))
  }

  function UsageMembers(u: Usage): seq<Text> {
    [Member("input", CountOrNull(u.input)), Member("cached", CountOrNull(u.cached)),
     Member("output", CountOrNull(u.output)), Member("reasoning", CountOrNull(u.reasoning)),
     Member("total", CountOrNull(u.total)), Member("cache_write_5m", CountOrNull(u.cacheWrite5m)),
     Member("cache_write_1h", CountOrNull(u.cacheWrite1h))]
  }

  function UsageText(u: Usage): Text {
    Record(UsageMembers(u))
  }

  function ModelOrNull(m: Option<Model>): Text {
    if m.Some? then ModelText(m.value) else NULL
  }

  function UsageOrNull(u: Option<Usage>): Text {
    if u.Some? then UsageText(u.value) else NULL
  }

  function WindowText(w: Option<nat>): Text {
    if w.Some? then Decimal(w.value) else NULL
  }

  function WordsText(counts: seq<nat>): Text {
    Listed(seq(|counts|, i requires 0 <= i < |counts| => Decimal(counts[i])))
  }

  function ToolText(t: ToolCount): Text {
    Record([Member("name", Quoted(t.name)), Member("count", Decimal(t.count))])
  }

  function ToolsText(tools: seq<ToolCount>): Text {
    Listed(seq(|tools|, i requires 0 <= i < |tools| => ToolText(tools[i])))
  }

  function HeadMembers(r: Resume): seq<Text> {
    [Member("version", Decimal(r.version)),
     Member("current_model", ModelOrNull(r.model)),
     Member("previous_totals", UsageOrNull(r.totals)),
     Member("service_tier", TextOrNull(r.labels.serviceTier))]
  }

  function SessionMembers(s: Session): seq<Text> {
    [Member("session_id", TextOrNull(s.id)),
     Member("parent_session_id", TextOrNull(s.parent)),
     Member("lineage_conflict", Truth(s.lineageConflict)),
     Member("next_usage_ordinal", Decimal(s.nextOrdinal))]
  }

  function LabelMembers(labels: Labels): seq<Text> {
    [Member("project", TextOrNull(labels.project)),
     Member("originator", TextOrNull(labels.originator)),
     Member("source_alias", TextOrNull(labels.sourceAlias)),
     Member("git_branch", TextOrNull(labels.gitBranch))]
  }

  function ActivityMembers(r: Resume): seq<Text> {
    [Member("context_window", WindowText(r.contextWindow)),
     Member("pending_activity", WordsText(r.activity.pending)),
     Member("aggregate_activity", WordsText(r.activity.aggregate))]
  }

  function ToolMembers(r: Resume): seq<Text> {
    [Member("tool_counts", ToolsText(r.tools)), Member("other_tools", Decimal(r.otherTools))]
  }

  /** The whole state, as it is serialised. */
  function Written(r: Resume): Text {
    Record(HeadMembers(r) + SessionMembers(r.session) + LabelMembers(r.labels) + ActivityMembers(r) + ToolMembers(r))
  }

  // ------------------------------------------------------------------
  // How long each part can be

  lemma {:induction false} EscapedAtMostDoubles(text: Text)
    requires forall i :: 0 <= i < |text| ==> text[i] >= 32
    ensures |Escaped(text)| <= 2 * |text|
  {
    if text != [] { EscapedAtMostDoubles(text[1..]); }
  }

  function Pow10(k: nat): nat {
    if k == 0 then 1 else 10 * Pow10(k - 1)
  }

  lemma {:induction false} DecimalLength(n: nat, k: nat)
    requires k > 0 && n < Pow10(k)
    ensures |Decimal(n)| <= k
  {
    if n >= 10 { DecimalLength(n / 10, k - 1); }
  }

  lemma WordLength(n: nat)
    requires n < U64_LIMIT
    ensures |Decimal(n)| <= 20
  {
    assert Pow10(5) == 100000;
    assert Pow10(10) == 100000 * Pow10(5);
    assert Pow10(15) == 100000 * Pow10(10);
    assert Pow10(20) == 100000 * Pow10(15);
    DecimalLength(n, 20);
  }

  lemma QuotedLength(text: Text, limit: nat)
    requires Plain(text, limit)
    ensures |Quoted(text)| <= 2 * limit + 2
  {
    EscapedAtMostDoubles(text);
  }

  lemma TextLength(text: Option<Text>)
    requires PlainOrNone(text)
    ensures |TextOrNull(text)| <= 1026
  {
    if text.Some? { QuotedLength(text.value, MAX_TEXT_BYTES); }
  }

  lemma CountLength(count: Count)
    requires count.Fits()
    ensures |CountOrNull(count)| <= 20
  {
    if count.Available? { WordLength(count.value); }
  }

  /** Parts of at most `each` bytes, with a comma for each. */
  lemma {:induction false} JoinedLength(parts: seq<Text>, each: nat)
    requires forall i :: 0 <= i < |parts| ==> |parts[i]| <= each
    ensures |Joined(parts)| <= |parts| * (each + 1)
  {
    if |parts| > 1 {
      JoinedLength(parts[1..], each);
      assert |parts| * (each + 1) == (|parts| - 1) * (each + 1) + (each + 1);
    }
  }

  lemma JoinedTwo(a: Text, b: Text)
    ensures |Joined([a, b])| == |a| + |b| + 1
  {
    assert [a, b][1..] == [b];
    assert Joined([a, b]) == a + COMMA + b;
  }

  lemma JoinedThree(a: Text, b: Text, c: Text)
    ensures |Joined([a, b, c])| == |a| + |b| + |c| + 2
  {
    JoinedTwo(b, c);
    assert [a, b, c][1..] == [b, c];
    assert Joined([a, b, c]) == a + COMMA + Joined([b, c]);
  }

  lemma ModelLength(m: Model)
    requires Plain(m.key, MAX_MODEL_KEY_BYTES) && PlainOrNone(m.raw)
    ensures |ModelText(m)| <= 1188
  {
    hide Quoted, TextOrNull, Member, Joined;
    QuotedLength(m.key, MAX_MODEL_KEY_BYTES);
    TextLength(m.raw);
    JoinedThree(Member("key", Quoted(m.key)), Member("raw", TextOrNull(m.raw)), Member("fallback", Truth(m.fallback)));
  }

  lemma UsageLength(u: Usage)
    requires UsageFits(u)
    ensures |UsageText(u)| <= 268
  {
    hide CountOrNull, Member, Joined;
    CountLength(u.input);
    CountLength(u.cached);
    CountLength(u.output);
    CountLength(u.reasoning);
    CountLength(u.total);
    CountLength(u.cacheWrite5m);
    CountLength(u.cacheWrite1h);
    var members := [Member("input", CountOrNull(u.input)), Member("cached", CountOrNull(u.cached)),
                    Member("output", CountOrNull(u.output)), Member("reasoning", CountOrNull(u.reasoning)),
                    Member("total", CountOrNull(u.total)), Member("cache_write_5m", CountOrNull(u.cacheWrite5m)),
                    Member("cache_write_1h", CountOrNull(u.cacheWrite1h))];
    JoinedLength(members, 37);
  }

  lemma WordsLength(counts: seq<nat>)
    requires Words(counts)
    ensures |WordsText(counts)| <= 170
  {
    hide Decimal, Joined;
    forall i | 0 <= i < |counts| ensures |Decimal(counts[i])| <= 20 { WordLength(counts[i]); }
    JoinedLength(seq(|counts|, i requires 0 <= i < |counts| => Decimal(counts[i])), 20);
  }

  lemma ToolLength(t: ToolCount)
    requires Plain(t.name, MAX_TOOL_NAME_BYTES) && t.count < U64_LIMIT
    ensures |ToolText(t)| <= 200
  {
    hide Quoted, Decimal, Member, Joined;
    QuotedLength(t.name, MAX_TOOL_NAME_BYTES);
    WordLength(t.count);
    JoinedTwo(Member("name", Quoted(t.name)), Member("count", Decimal(t.count)));
  }

  lemma ToolsLength(tools: seq<ToolCount>)
    requires ToolsFit(tools)
    ensures |ToolsText(tools)| <= 64 * 201 + 2
  {
    hide ToolText, Joined;
    forall i | 0 <= i < |tools| ensures |ToolText(tools[i])| <= 200 { ToolLength(tools[i]); }
    JoinedLength(seq(|tools|, i requires 0 <= i < |tools| => ToolText(tools[i])), 200);
  }

  lemma HeadLength(r: Resume)
    requires WithinLimits(r)
    ensures |Joined(HeadMembers(r))| <= 4820
  {
    hide Decimal, ModelText, UsageText, TextOrNull, Joined, Member;
    WordLength(r.version);
    if r.model.Some? { ModelLength(r.model.value); }
    if r.totals.Some? { UsageLength(r.totals.value); }
    TextLength(r.labels.serviceTier);
    JoinedLength(HeadMembers(r), 1204);
  }

  lemma SessionLength(s: Session)
    requires PlainOrNone(s.id) && PlainOrNone(s.parent) && s.nextOrdinal < U64_LIMIT
    ensures |Joined(SessionMembers(s))| <= 4188
  {
    hide Decimal, TextOrNull, Joined, Member;
    TextLength(s.id);
    TextLength(s.parent);
    WordLength(s.nextOrdinal);
    JoinedLength(SessionMembers(s), 1046);
  }

  lemma LabelsLength(labels: Labels)
    requires LabelsFit(labels)
    ensures |Joined(LabelMembers(labels))| <= 4168
  {
    hide TextOrNull, Joined, Member;
    TextLength(labels.project);
    TextLength(labels.originator);
    TextLength(labels.sourceAlias);
    TextLength(labels.gitBranch);
    JoinedLength(LabelMembers(labels), 1041);
  }

  lemma ActivityLength(r: Resume)
    requires WithinLimits(r)
    ensures |Joined(ActivityMembers(r))| <= 576
  {
    hide Decimal, WordsText, Joined, Member;
    if r.contextWindow.Some? { WordLength(r.contextWindow.value); }
    WordsLength(r.activity.pending);
    WordsLength(r.activity.aggregate);
    JoinedLength(ActivityMembers(r), 191);
  }

  lemma ToolMembersLength(r: Resume)
    requires WithinLimits(r)
    ensures |Joined(ToolMembers(r))| <= 12915
  {
    hide Decimal, ToolsText, Joined, Member;
    ToolsLength(r.tools);
    WordLength(r.otherTools);
    JoinedTwo(Member("tool_counts", ToolsText(r.tools)), Member("other_tools", Decimal(r.otherTools)));
  }

  lemma {:induction false} JoinedConcat(a: seq<Text>, b: seq<Text>)
    ensures |Joined(a + b)| <= |Joined(a)| + |Joined(b)| + 1
  {
    if a == [] {
      assert a + b == b;
    } else if b == [] {
      assert a + b == a;
    } else {
      JoinedConcat(a[1..], b);
      assert (a + b)[1..] == a[1..] + b;
      if |a| == 1 { assert a[1..] + b == b; }
    }
  }

  /** The longest text a state within the limits can be written as. */
  const MAX_WRITTEN := 26673

  lemma WrittenLength(r: Resume)
    requires WithinLimits(r)
    ensures |Written(r)| <= MAX_WRITTEN
  {
    HeadLength(r);
    SessionLength(r.session);
    LabelsLength(r.labels);
    ActivityLength(r);
    ToolMembersLength(r);
    hide Joined, HeadMembers, SessionMembers, LabelMembers, ActivityMembers, ToolMembers;
    var a, b, c, d, e :=
      HeadMembers(r), SessionMembers(r.session), LabelMembers(r.labels), ActivityMembers(r), ToolMembers(r);
    JoinedConcat(a, b);
    JoinedConcat(a + b, c);
    JoinedConcat(a + b + c, d);
    JoinedConcat(a + b + c + d, e);
  }
}
