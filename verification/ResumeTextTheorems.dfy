/** No two resume states are written as the same text, so a reader that undoes
    the writing can exist. */
module ResumeTextTheorems {
  import opened Prelude
  import opened Bytes
  import opened HashPreimages
  import opened ResumeText

  /** What follows a value: a comma or a closing bracket. */
  predicate Stops(x: Text) {
    x != [] && (x[0] == 44 || x[0] == 93 || x[0] == 125)
  }

  /** What closes a list or a record. */
  predicate Closes(x: Text) {
    x != [] && (x[0] == 93 || x[0] == 125)
  }

  /** Two values are told apart by whatever text they begin. */
  ghost predicate Separable(p: Text, q: Text) {
    forall u, v :: Stops(u) && Stops(v) && p + u == q + v ==> p == q
  }

  // ------------------------------------------------------------------
  // Strings

  lemma EscapeEnds(p: Byte, q: Byte, x: Text, y: Text)
    requires p >= 32 && q >= 32 && Escape(p) + x == Escape(q) + y
    ensures p == q && x == y
  {
    assert (Escape(p) + x)[0] == Escape(p)[0] && (Escape(q) + y)[0] == Escape(q)[0];
    if |Escape(p)| == 2 {
      assert (Escape(p) + x)[1] == p;
      assert (Escape(q) + y)[1] == q;
    }
    Cancel(Escape(p), Escape(q), x, y);
  }

  lemma {:induction false} EscapedEnds(a: Text, b: Text, x: Text, y: Text)
    requires Plain(a, |a|) && Plain(b, |b|) && Escaped(a) + ([QUOTE] + x) == Escaped(b) + ([QUOTE] + y)
    ensures a == b && x == y
  {
    hide Escape;
    if a == [] { assert Escaped(a) + ([QUOTE] + x) == [QUOTE] + x; } else { QuoteIsNoEscape(a, [QUOTE] + x); }
    if b == [] { assert Escaped(b) + ([QUOTE] + y) == [QUOTE] + y; } else { QuoteIsNoEscape(b, [QUOTE] + y); }
    if a == [] && b == [] {
      Cancel([QUOTE], [QUOTE], x, y);
    } else if a != [] && b != [] {
      var p, q := Escaped(a[1..]), Escaped(b[1..]);
      Regroup(Escape(a[0]), p, [QUOTE] + x);
      Regroup(Escape(b[0]), q, [QUOTE] + y);
      EscapeEnds(a[0], b[0], p + ([QUOTE] + x), q + ([QUOTE] + y));
      EscapedEnds(a[1..], b[1..], x, y);
      assert a == [a[0]] + a[1..] && b == [b[0]] + b[1..];
    }
  }

  lemma QuoteIsNoEscape(a: Text, x: Text)
    requires a != [] && Plain(a, |a|)
    ensures (Escaped(a) + x)[0] != QUOTE
  {
    assert Escaped(a)[0] == Escape(a[0])[0];
  }

  lemma QuotedSeparable(a: Text, b: Text)
    requires Plain(a, |a|) && Plain(b, |b|)
    ensures Separable(Quoted(a), Quoted(b))
    ensures Quoted(a) == Quoted(b) ==> a == b
  {
    forall u, v | Quoted(a) + u == Quoted(b) + v ensures a == b {
      assert Quoted(a) + u == [QUOTE] + (Escaped(a) + ([QUOTE] + u));
      assert Quoted(b) + v == [QUOTE] + (Escaped(b) + ([QUOTE] + v));
      Cancel([QUOTE], [QUOTE], Escaped(a) + ([QUOTE] + u), Escaped(b) + ([QUOTE] + v));
      EscapedEnds(a, b, u, v);
    }
    if Quoted(a) == Quoted(b) { assert Quoted(a) + [] == Quoted(b) + []; }
  }

  // ------------------------------------------------------------------
  // Numbers

  predicate IsDigit(b: Byte) {
    48 <= b <= 57
  }

  lemma {:induction false} DecimalDigits(n: nat)
    ensures Decimal(n) != [] && forall i :: 0 <= i < |Decimal(n)| ==> IsDigit(Decimal(n)[i])
  {
    if n >= 10 { DecimalDigits(n / 10); }
  }

  lemma {:induction false} DecimalInjective(m: nat, n: nat)
    requires Decimal(m) == Decimal(n)
    ensures m == n
  {
    DecimalDigits(m / 10);
    DecimalDigits(n / 10);
    if m >= 10 && n >= 10 {
      var p, q := Decimal(m / 10), Decimal(n / 10);
      assert Decimal(m)[..|Decimal(m)| - 1] == p && Decimal(n)[..|Decimal(n)| - 1] == q;
      assert Decimal(m)[|Decimal(m)| - 1] == 48 + m % 10 && Decimal(n)[|Decimal(n)| - 1] == 48 + n % 10;
      DecimalInjective(m / 10, n / 10);
    }
  }

  /** Digits end no earlier than where the other text stops. */
  lemma DigitsReach(p: Text, u: Text, q: Text, v: Text)
    requires Stops(u) && p + u == q + v && forall i :: 0 <= i < |q| ==> IsDigit(q[i])
    ensures |q| <= |p|
  {
    assert (p + u)[|p|] == u[0] && !IsDigit(u[0]);
    assert forall i :: 0 <= i < |q| ==> (q + v)[i] == q[i];
  }

  lemma DecimalSeparable(m: nat, n: nat)
    ensures Separable(Decimal(m), Decimal(n))
    ensures Decimal(m) == Decimal(n) ==> m == n
  {
    DecimalDigits(m);
    DecimalDigits(n);
    hide Decimal;
    var p, q := Decimal(m), Decimal(n);
    forall u, v | Stops(u) && Stops(v) && p + u == q + v ensures p == q {
      DigitsReach(p, u, q, v);
      DigitsReach(q, v, p, u);
      Cancel(p, q, u, v);
    }
    if p == q { DecimalInjective(m, n); }
  }

  // ------------------------------------------------------------------
  // Values told apart by their first byte

  lemma FirstDiffers(p: Text, q: Text)
    requires p != [] && q != [] && p[0] != q[0]
    ensures Separable(p, q) && Separable(q, p)
  {
    assert forall u: Text :: (p + u)[0] == p[0];
    assert forall u: Text :: (q + u)[0] == q[0];
  }

  lemma SameSeparable(p: Text)
    ensures Separable(p, p)
  {
  }

  lemma TruthSeparable(a: bool, b: bool)
    ensures Separable(Truth(a), Truth(b)) && (Truth(a) == Truth(b) ==> a == b)
  {
    if a == b { SameSeparable(Truth(a)); } else { FirstDiffers(Truth(a), Truth(b)); }
  }

  lemma TextOrNullSeparable(a: Option<Text>, b: Option<Text>)
    requires PlainOrNone(a) && PlainOrNone(b)
    ensures Separable(TextOrNull(a), TextOrNull(b)) && (TextOrNull(a) == TextOrNull(b) ==> a == b)
  {
    if a.Some? && b.Some? {
      QuotedSeparable(a.value, b.value);
    } else if a.Some? || b.Some? {
      assert TextOrNull(a)[0] != TextOrNull(b)[0];
      FirstDiffers(TextOrNull(a), TextOrNull(b));
    } else {
      SameSeparable(NULL);
    }
  }

  lemma CountSeparable(a: Count, b: Count)
    ensures Separable(CountOrNull(a), CountOrNull(b)) && (CountOrNull(a) == CountOrNull(b) ==> a == b)
  {
    if a.Available? && b.Available? {
      DecimalSeparable(a.value, b.value);
    } else if a.Available? {
      DecimalDigits(a.value);
      FirstDiffers(CountOrNull(a), NULL);
    } else if b.Available? {
      DecimalDigits(b.value);
      FirstDiffers(NULL, CountOrNull(b));
    } else {
      SameSeparable(NULL);
    }
  }

  // ------------------------------------------------------------------
  // Members, lists and records

  lemma MemberSeparable(name: string, v: Text, w: Text)
    requires Separable(v, w)
    ensures Separable(Member(name, v), Member(name, w))
    ensures Member(name, v) == Member(name, w) ==> v == w
  {
    var head := [QUOTE] + NameBytes(name) + [QUOTE, 58];
    forall x, y | Stops(x) && Stops(y) && Member(name, v) + x == Member(name, w) + y
      ensures Member(name, v) == Member(name, w)
    {
      Regroup(head, v, x);
      Regroup(head, w, y);
      Cancel(head, head, v + x, w + y);
    }
    if Member(name, v) == Member(name, w) { Cancel(head, head, v, w); }
  }

  /** An element of a list or record: never taken for the closing bracket. */
  predicate Opens(p: Text) {
    p != [] && !Closes(p)
  }

  ghost predicate PairsSeparable(a: seq<Text>, b: seq<Text>) {
    && (forall i :: 0 <= i < |a| ==> Opens(a[i])) && (forall i :: 0 <= i < |b| ==> Opens(b[i]))
    && (forall i :: 0 <= i < |a| && i < |b| ==> Separable(a[i], b[i]))
  }

  /** The part of a joined text after its first element. */
  function Rest(parts: seq<Text>, x: Text): Text
    requires parts != []
  {
    if |parts| == 1 then x else COMMA + (Joined(parts[1..]) + x)
  }

  lemma JoinedHead(parts: seq<Text>, x: Text)
    requires parts != []
    ensures Joined(parts) + x == parts[0] + Rest(parts, x)
  {
  }

  lemma {:induction false} JoinedEnds(a: seq<Text>, b: seq<Text>, x: Text, y: Text)
    requires PairsSeparable(a, b) && Closes(x) && Closes(y) && Joined(a) + x == Joined(b) + y
    ensures a == b && x == y
    decreases |a|, 1
  {
    hide Separable;
    if a == [] { assert Joined(a) + x == x; } else { JoinedOpens(a, x); }
    if b == [] { assert Joined(b) + y == y; } else { JoinedOpens(b, y); }
    if a != [] && b != [] {
      JoinedHead(a, x);
      JoinedHead(b, y);
      SeparableEnds(a[0], b[0], Rest(a, x), Rest(b, y));
      RestEnds(a, b, x, y);
      assert a == [a[0]] + a[1..] && b == [b[0]] + b[1..];
    }
  }

  lemma JoinedOpens(parts: seq<Text>, x: Text)
    requires parts != [] && Opens(parts[0])
    ensures Opens(Joined(parts) + x)
  {
    JoinedHead(parts, x);
  }

  lemma {:induction false} RestEnds(a: seq<Text>, b: seq<Text>, x: Text, y: Text)
    requires a != [] && b != [] && PairsSeparable(a, b) && Closes(x) && Closes(y) && Rest(a, x) == Rest(b, y)
    ensures a[1..] == b[1..] && x == y
    decreases |a|, 0
  {
    hide Separable;
    if |a| > 1 && |b| > 1 {
      Cancel(COMMA, COMMA, Joined(a[1..]) + x, Joined(b[1..]) + y);
      JoinedEnds(a[1..], b[1..], x, y);
    }
  }

  lemma SeparableEnds(p: Text, q: Text, u: Text, v: Text)
    requires Separable(p, q) && Stops(u) && Stops(v) && p + u == q + v
    ensures p == q && u == v
  {
    Cancel(p, q, u, v);
  }

  lemma RecordSeparable(a: seq<Text>, b: seq<Text>)
    requires PairsSeparable(a, b)
    ensures Separable(Record(a), Record(b)) && (Record(a) == Record(b) ==> a == b)
    ensures Separable(Listed(a), Listed(b)) && (Listed(a) == Listed(b) ==> a == b)
  {
    hide PairsSeparable;
    BracketedSeparable(123, a, b, 125);
    BracketedSeparable(91, a, b, 93);
  }

  lemma BracketedSeparable(open: Byte, a: seq<Text>, b: seq<Text>, close: Byte)
    requires PairsSeparable(a, b) && (close == 93 || close == 125)
    ensures var p, q := [open] + Joined(a) + [close], [open] + Joined(b) + [close];
            Separable(p, q) && (p == q ==> a == b)
  {
    hide PairsSeparable, Joined;
    var p, q := [open] + Joined(a) + [close], [open] + Joined(b) + [close];
    forall u, v | p + u == q + v ensures a == b {
      assert p + u == [open] + (Joined(a) + ([close] + u)) && q + v == [open] + (Joined(b) + ([close] + v));
      Cancel([open], [open], Joined(a) + ([close] + u), Joined(b) + ([close] + v));
      JoinedEnds(a, b, [close] + u, [close] + v);
    }
    if p == q { assert p + [] == q + []; }
  }

  // ------------------------------------------------------------------
  // The parts of a resume state

  lemma MembersOpen(name: string, v: Text)
    ensures Opens(Member(name, v))
  {
  }

  lemma ModelSeparable(a: Model, b: Model)
    requires Plain(a.key, MAX_MODEL_KEY_BYTES) && PlainOrNone(a.raw)
    requires Plain(b.key, MAX_MODEL_KEY_BYTES) && PlainOrNone(b.raw)
    ensures Separable(ModelText(a), ModelText(b)) && (ModelText(a) == ModelText(b) ==> a == b)
  {
    hide Separable, Quoted, TextOrNull, Truth, Member, Opens;
    QuotedSeparable(a.key, b.key);
    TextOrNullSeparable(a.raw, b.raw);
    TruthSeparable(a.fallback, b.fallback);
    var p, q := ModelMembers(a), ModelMembers(b);
    BothMembers("key", Quoted(a.key), Quoted(b.key));
    BothMembers("raw", TextOrNull(a.raw), TextOrNull(b.raw));
    BothMembers("fallback", Truth(a.fallback), Truth(b.fallback));
    RecordSeparable(p, q);
    if ModelText(a) == ModelText(b) { assert p[0] == q[0] && p[1] == q[1] && p[2] == q[2]; }
  }

  lemma BothMembers(name: string, v: Text, w: Text)
    requires Separable(v, w)
    ensures Opens(Member(name, v)) && Opens(Member(name, w))
    ensures Separable(Member(name, v), Member(name, w)) && (Member(name, v) == Member(name, w) ==> v == w)
  {
    MembersOpen(name, v);
    MembersOpen(name, w);
    MemberSeparable(name, v, w);
  }

  lemma CountMembers(name: string, a: Count, b: Count)
    ensures Opens(Member(name, CountOrNull(a))) && Opens(Member(name, CountOrNull(b)))
    ensures Separable(Member(name, CountOrNull(a)), Member(name, CountOrNull(b)))
    ensures Member(name, CountOrNull(a)) == Member(name, CountOrNull(b)) ==> a == b
  {
    hide CountOrNull, Member, Opens;
    CountSeparable(a, b);
    BothMembers(name, CountOrNull(a), CountOrNull(b));
  }

  lemma UsageSeparable(a: Usage, b: Usage)
    ensures Separable(UsageText(a), UsageText(b)) && (UsageText(a) == UsageText(b) ==> a == b)
  {
    hide Separable, CountOrNull, Member, Opens;
    CountMembers("input", a.input, b.input);
    CountMembers("cached", a.cached, b.cached);
    CountMembers("output", a.output, b.output);
    CountMembers("reasoning", a.reasoning, b.reasoning);
    CountMembers("total", a.total, b.total);
    CountMembers("cache_write_5m", a.cacheWrite5m, b.cacheWrite5m);
    CountMembers("cache_write_1h", a.cacheWrite1h, b.cacheWrite1h);
    var p, q := UsageMembers(a), UsageMembers(b);
    RecordSeparable(p, q);
    if UsageText(a) == UsageText(b) {
      assert p[0] == q[0] && p[1] == q[1] && p[2] == q[2] && p[3] == q[3];
      assert p[4] == q[4] && p[5] == q[5] && p[6] == q[6];
    }
  }

  lemma WordsSeparable(a: seq<nat>, b: seq<nat>)
    ensures Separable(WordsText(a), WordsText(b)) && (WordsText(a) == WordsText(b) ==> a == b)
  {
    hide Separable, Decimal;
    var p := seq(|a|, i requires 0 <= i < |a| => Decimal(a[i]));
    var q := seq(|b|, i requires 0 <= i < |b| => Decimal(b[i]));
    forall i | 0 <= i < |a| ensures Opens(p[i]) { DecimalDigits(a[i]); }
    forall i | 0 <= i < |b| ensures Opens(q[i]) { DecimalDigits(b[i]); }
    forall i | 0 <= i < |a| && i < |b| ensures Separable(p[i], q[i]) && (p[i] == q[i] ==> a[i] == b[i]) {
      DecimalSeparable(a[i], b[i]);
    }
    RecordSeparable(p, q);
  }

  lemma ToolSeparable(a: ToolCount, b: ToolCount)
    requires Plain(a.name, MAX_TOOL_NAME_BYTES) && Plain(b.name, MAX_TOOL_NAME_BYTES)
    ensures Opens(ToolText(a)) && Opens(ToolText(b))
    ensures Separable(ToolText(a), ToolText(b)) && (ToolText(a) == ToolText(b) ==> a == b)
  {
    assert ToolText(a)[0] == 123 && ToolText(b)[0] == 123;
    hide Separable, Quoted, Decimal, Member, Opens;
    QuotedSeparable(a.name, b.name);
    DecimalSeparable(a.count, b.count);
    var p, q := [Member("name", Quoted(a.name)), Member("count", Decimal(a.count))],
                [Member("name", Quoted(b.name)), Member("count", Decimal(b.count))];
    BothMembers("name", Quoted(a.name), Quoted(b.name));
    BothMembers("count", Decimal(a.count), Decimal(b.count));
    RecordSeparable(p, q);
    if ToolText(a) == ToolText(b) { assert p[0] == q[0] && p[1] == q[1]; }
  }

  lemma ToolsSeparable(a: seq<ToolCount>, b: seq<ToolCount>)
    requires ToolsFit(a) && ToolsFit(b)
    ensures Separable(ToolsText(a), ToolsText(b)) && (ToolsText(a) == ToolsText(b) ==> a == b)
  {
    hide Separable, ToolText, Opens;
    var p := seq(|a|, i requires 0 <= i < |a| => ToolText(a[i]));
    var q := seq(|b|, i requires 0 <= i < |b| => ToolText(b[i]));
    forall i | 0 <= i < |a| ensures Opens(p[i]) { ToolSeparable(a[i], a[i]); }
    forall i | 0 <= i < |b| ensures Opens(q[i]) { ToolSeparable(b[i], b[i]); }
    forall i | 0 <= i < |a| && i < |b| ensures Separable(p[i], q[i]) && (p[i] == q[i] ==> a[i] == b[i]) {
      ToolSeparable(a[i], b[i]);
    }
    RecordSeparable(p, q);
  }

  // ------------------------------------------------------------------
  // The whole state

  lemma HeadPairs(a: Resume, b: Resume)
    requires WithinLimits(a) && WithinLimits(b)
    ensures PairsSeparable(HeadMembers(a), HeadMembers(b))
    ensures HeadMembers(a) == HeadMembers(b) ==>
              && a.version == b.version && a.model == b.model && a.totals == b.totals
              && a.labels.serviceTier == b.labels.serviceTier
  {
    hide Separable, Decimal, ModelText, UsageText, TextOrNull, Member, Opens;
    var p, q := HeadMembers(a), HeadMembers(b);
    DecimalSeparable(a.version, b.version);
    BothMembers("version", Decimal(a.version), Decimal(b.version));
    ModelsSeparable(a.model, b.model);
    BothMembers("current_model", ModelOrNull(a.model), ModelOrNull(b.model));
    UsagesSeparable(a.totals, b.totals);
    BothMembers("previous_totals", UsageOrNull(a.totals), UsageOrNull(b.totals));
    TextMembers("service_tier", a.labels.serviceTier, b.labels.serviceTier);
    if p == q { assert p[0] == q[0] && p[1] == q[1] && p[2] == q[2] && p[3] == q[3]; }
  }

  lemma SessionPairs(a: Session, b: Session)
    requires PlainOrNone(a.id) && PlainOrNone(a.parent) && PlainOrNone(b.id) && PlainOrNone(b.parent)
    ensures PairsSeparable(SessionMembers(a), SessionMembers(b))
    ensures SessionMembers(a) == SessionMembers(b) ==> a == b
  {
    hide Separable, Decimal, TextOrNull, Truth, Member, Opens;
    var p, q := SessionMembers(a), SessionMembers(b);
    TextMembers("session_id", a.id, b.id);
    TextMembers("parent_session_id", a.parent, b.parent);
    TruthSeparable(a.lineageConflict, b.lineageConflict);
    BothMembers("lineage_conflict", Truth(a.lineageConflict), Truth(b.lineageConflict));
    DecimalSeparable(a.nextOrdinal, b.nextOrdinal);
    BothMembers("next_usage_ordinal", Decimal(a.nextOrdinal), Decimal(b.nextOrdinal));
    if p == q { assert p[0] == q[0] && p[1] == q[1] && p[2] == q[2] && p[3] == q[3]; }
  }

  lemma TextMembers(name: string, a: Option<Text>, b: Option<Text>)
    requires PlainOrNone(a) && PlainOrNone(b)
    ensures Opens(Member(name, TextOrNull(a))) && Opens(Member(name, TextOrNull(b)))
    ensures Separable(Member(name, TextOrNull(a)), Member(name, TextOrNull(b)))
    ensures Member(name, TextOrNull(a)) == Member(name, TextOrNull(b)) ==> a == b
  {
    hide TextOrNull, Member, Opens;
    TextOrNullSeparable(a, b);
    BothMembers(name, TextOrNull(a), TextOrNull(b));
  }

  /** A record begins with a brace, which null does not. */
  lemma RecordIsNotNull(members: seq<Text>)
    ensures Separable(Record(members), NULL) && Separable(NULL, Record(members)) && Record(members) != NULL
  {
    assert Record(members)[0] == 123;
    FirstDiffers(Record(members), NULL);
  }

  lemma ModelsSeparable(a: Option<Model>, b: Option<Model>)
    requires a.Some? ==> Plain(a.value.key, MAX_MODEL_KEY_BYTES) && PlainOrNone(a.value.raw)
    requires b.Some? ==> Plain(b.value.key, MAX_MODEL_KEY_BYTES) && PlainOrNone(b.value.raw)
    ensures Separable(ModelOrNull(a), ModelOrNull(b)) && (ModelOrNull(a) == ModelOrNull(b) ==> a == b)
  {
    hide Separable, Record, Member;
    if a.Some? && b.Some? {
      ModelSeparable(a.value, b.value);
    } else if a.Some? {
      RecordIsNotNull(ModelMembers(a.value));
    } else if b.Some? {
      RecordIsNotNull(ModelMembers(b.value));
    } else {
      SameSeparable(NULL);
    }
  }

  lemma UsagesSeparable(a: Option<Usage>, b: Option<Usage>)
    ensures Separable(UsageOrNull(a), UsageOrNull(b)) && (UsageOrNull(a) == UsageOrNull(b) ==> a == b)
  {
    hide Separable, Record, Member;
    if a.Some? && b.Some? {
      UsageSeparable(a.value, b.value);
    } else if a.Some? {
      RecordIsNotNull(UsageMembers(a.value));
    } else if b.Some? {
      RecordIsNotNull(UsageMembers(b.value));
    } else {
      SameSeparable(NULL);
    }
  }

  lemma WindowSeparable(a: Option<nat>, b: Option<nat>)
    ensures Separable(WindowText(a), WindowText(b)) && (WindowText(a) == WindowText(b) ==> a == b)
  {
    CountSeparable(if a.Some? then Available(a.value) else Unavailable,
                   if b.Some? then Available(b.value) else Unavailable);
  }

  lemma LabelPairs(a: Labels, b: Labels)
    requires LabelsFit(a) && LabelsFit(b)
    ensures PairsSeparable(LabelMembers(a), LabelMembers(b))
    ensures LabelMembers(a) == LabelMembers(b) && a.serviceTier == b.serviceTier ==> a == b
  {
    hide Separable, TextOrNull, Member, Opens;
    var p, q := LabelMembers(a), LabelMembers(b);
    TextMembers("project", a.project, b.project);
    TextMembers("originator", a.originator, b.originator);
    TextMembers("source_alias", a.sourceAlias, b.sourceAlias);
    TextMembers("git_branch", a.gitBranch, b.gitBranch);
    if p == q { assert p[0] == q[0] && p[1] == q[1] && p[2] == q[2] && p[3] == q[3]; }
  }

  lemma ActivityPairs(a: Resume, b: Resume)
    ensures PairsSeparable(ActivityMembers(a), ActivityMembers(b))
    ensures ActivityMembers(a) == ActivityMembers(b) ==> a.contextWindow == b.contextWindow && a.activity == b.activity
  {
    hide Separable, Decimal, WordsText, Member, Opens;
    var p, q := ActivityMembers(a), ActivityMembers(b);
    WindowSeparable(a.contextWindow, b.contextWindow);
    BothMembers("context_window", WindowText(a.contextWindow), WindowText(b.contextWindow));
    WordsSeparable(a.activity.pending, b.activity.pending);
    BothMembers("pending_activity", WordsText(a.activity.pending), WordsText(b.activity.pending));
    WordsSeparable(a.activity.aggregate, b.activity.aggregate);
    BothMembers("aggregate_activity", WordsText(a.activity.aggregate), WordsText(b.activity.aggregate));
    if p == q { assert p[0] == q[0] && p[1] == q[1] && p[2] == q[2]; }
  }

  lemma ToolPairs(a: Resume, b: Resume)
    requires WithinLimits(a) && WithinLimits(b)
    ensures PairsSeparable(ToolMembers(a), ToolMembers(b))
    ensures ToolMembers(a) == ToolMembers(b) ==> a.tools == b.tools && a.otherTools == b.otherTools
  {
    hide Separable, Decimal, ToolsText, Member, Opens;
    var p, q := ToolMembers(a), ToolMembers(b);
    ToolsSeparable(a.tools, b.tools);
    BothMembers("tool_counts", ToolsText(a.tools), ToolsText(b.tools));
    DecimalSeparable(a.otherTools, b.otherTools);
    BothMembers("other_tools", Decimal(a.otherTools), Decimal(b.otherTools));
    if p == q { assert p[0] == q[0] && p[1] == q[1]; }
  }

  lemma PairsConcat(a: seq<Text>, b: seq<Text>, c: seq<Text>, d: seq<Text>)
    requires |a| == |b| && PairsSeparable(a, b) && PairsSeparable(c, d)
    ensures PairsSeparable(a + c, b + d)
    ensures a + c == b + d ==> a == b && c == d
  {
    hide Separable, Opens;
    if a + c == b + d {
      assert a == (a + c)[..|a|] && b == (b + d)[..|a|] && c == (a + c)[|a|..] && d == (b + d)[|a|..];
    }
  }

  /** No two resume states within the limits are written as the same text. */
  lemma WrittenInjective(a: Resume, b: Resume)
    requires WithinLimits(a) && WithinLimits(b) && Written(a) == Written(b)
    ensures a == b
  {
    HeadPairs(a, b);
    SessionPairs(a.session, b.session);
    LabelPairs(a.labels, b.labels);
    ActivityPairs(a, b);
    ToolPairs(a, b);
    MemberCounts(a, b);
    hide PairsSeparable, Record, WithinLimits;
    hide HeadMembers, SessionMembers, LabelMembers, ActivityMembers, ToolMembers;
    var p1, q1 := HeadMembers(a), HeadMembers(b);
    var p2, q2 := p1 + SessionMembers(a.session), q1 + SessionMembers(b.session);
    var p3, q3 := p2 + LabelMembers(a.labels), q2 + LabelMembers(b.labels);
    var p4, q4 := p3 + ActivityMembers(a), q3 + ActivityMembers(b);
    PairsConcat(p1, q1, SessionMembers(a.session), SessionMembers(b.session));
    PairsConcat(p2, q2, LabelMembers(a.labels), LabelMembers(b.labels));
    PairsConcat(p3, q3, ActivityMembers(a), ActivityMembers(b));
    PairsConcat(p4, q4, ToolMembers(a), ToolMembers(b));
    RecordSeparable(p4 + ToolMembers(a), q4 + ToolMembers(b));
  }

  ghost predicate IsWritten(r: Resume, text: Text) {
    WithinLimits(r) && Written(r) == text
  }

  /** The reader that undoes the writing. */
  ghost function ReadBack(text: Text): Option<Resume> {
    if exists r :: IsWritten(r, text) then
      var r :| IsWritten(r, text);
      Some(r)
    else None
  }

  lemma ReadBackUndoes(r: Resume)
    requires WithinLimits(r)
    ensures ReadBack(Written(r)) == Some(r)
  {
    hide Written, WithinLimits;
    assert IsWritten(r, Written(r));
    var found := ReadBack(Written(r)).value;
    WrittenInjective(r, found);
  }

  lemma MemberCounts(a: Resume, b: Resume)
    ensures |HeadMembers(a)| == |HeadMembers(b)| && |SessionMembers(a.session)| == |SessionMembers(b.session)|
    ensures |LabelMembers(a.labels)| == |LabelMembers(b.labels)| && |ActivityMembers(a)| == |ActivityMembers(b)|
  {
  }
}
