/** crates/benefits/src/identity.rs: the bytes fed to the hash for scope, change
    and delivery identities.  A digest is any 32 bytes: nothing else is assumed of
    the hash. */
module BenefitIdentity {
  import opened Prelude
  import opened Bytes
  import opened HashPreimages
  import opened Benefits
  import opened Reconcile
  import opened ReconcileTheorems
  import opened Reminders

  const SCOPE_DOMAIN: Text := Ascii("tokenmaster.benefit.scope.v1")
  const CHANGE_DOMAIN: Text := Ascii("tokenmaster.benefit.change.v1")
  const DELIVERY_DOMAIN: Text := Ascii("tokenmaster.benefit.delivery.v1")

  datatype ScopeText = ScopeText(provider: Text, account: Text, workspace: Option<Text>) {
    /** No text in memory reaches 2^64 bytes. */
    predicate Fits() {
      && |provider| < U64_LIMIT && |account| < U64_LIMIT
      && (workspace.Some? ==> |workspace.value| < U64_LIMIT)
    }
  }

  type Digest = t: Text | |t| == 32 witness BigEndian(0, 32)

  function Field(value: Text): Text
    requires |value| < U64_LIMIT
  {
    BigEndian(|value|, 8) + value
  }

  function ScopePreimage(s: ScopeText): Text
    requires s.Fits()
  {
    Field(SCOPE_DOMAIN) + (Field(s.provider) + (Field(s.account)
    + if s.workspace.Some? then Field([1]) + Field(s.workspace.value) else Field([0])))
  }

  datatype ChangeKey = ChangeKey(scope: Digest, sequence: nat, lot: Digest, revision: nat, code: Byte) {
    predicate Fits() {
      sequence < U64_LIMIT && revision < U64_LIMIT
    }
  }

  function ChangePreimage(k: ChangeKey): Text {
    Field(CHANGE_DOMAIN) + (Field(k.scope) + (Field(BigEndian(k.sequence, 8)) + (Field(k.lot)
    + (Field(BigEndian(k.revision, 8)) + Field([k.code])))))
  }

  datatype DeliveryKey = DeliveryKey(scope: Digest, lot: Digest, revision: nat, lead: nat, channel: Channel) {
    predicate Fits() {
      revision < U64_LIMIT && lead < U32_LIMIT
    }
  }

  function DeliveryPreimage(k: DeliveryKey): Text
    requires k.Fits()
  {
    Field(DELIVERY_DOMAIN) + (Field(k.scope) + (Field(k.lot) + (Field(BigEndian(k.revision, 8))
    + (Field(BigEndian(k.lead, 4)) + Field([k.channel.Code()])))))
  }

  // ------------------------------------------------------------------
  // The hasher fed field by field

  method UpdateField(h: Hasher, value: Text)
    requires |value| < U64_LIMIT
    modifies h
    ensures h.fed == old(h.fed) + Field(value)
  {
    h.Update(BigEndian(|value|, 8));
    h.Update(value);
  }

  method ScopeId(s: ScopeText) returns (preimage: Text)
    requires s.Fits()
    ensures preimage == ScopePreimage(s)
  {
    hide Field;
    var h := new Hasher();
    UpdateField(h, SCOPE_DOMAIN);
    UpdateField(h, s.provider);
    UpdateField(h, s.account);
    match s.workspace {
      case Some(workspace) =>
        UpdateField(h, [1]);
        UpdateField(h, workspace);
      case None => UpdateField(h, [0]);
    }
    preimage := h.fed;
  }

  method ChangeId(k: ChangeKey) returns (preimage: Text)
    requires k.Fits()
    ensures preimage == ChangePreimage(k)
  {
    hide Field;
    var h := new Hasher();
    UpdateField(h, CHANGE_DOMAIN);
    UpdateField(h, k.scope);
    UpdateField(h, BigEndian(k.sequence, 8));
    UpdateField(h, k.lot);
    UpdateField(h, BigEndian(k.revision, 8));
    UpdateField(h, [k.code]);
    preimage := h.fed;
  }

  method DeliveryId(k: DeliveryKey) returns (preimage: Text)
    requires k.Fits()
    ensures preimage == DeliveryPreimage(k)
  {
    hide Field;
    var h := new Hasher();
    UpdateField(h, DELIVERY_DOMAIN);
    UpdateField(h, k.scope);
    UpdateField(h, k.lot);
    UpdateField(h, BigEndian(k.revision, 8));
    UpdateField(h, BigEndian(k.lead, 4));
    UpdateField(h, [k.channel.Code()]);
    preimage := h.fed;
  }

  // ------------------------------------------------------------------
  // Injectivity

  lemma FieldEnds(a: Text, b: Text, x: Text, y: Text)
    requires |a| < U64_LIMIT && |b| < U64_LIMIT && Field(a) + x == Field(b) + y
    ensures a == b && x == y
  {
    assert Field(a) + x == BigEndian(|a|, 8) + (a + x);
    assert Field(b) + y == BigEndian(|b|, 8) + (b + y);
    Cancel(BigEndian(|a|, 8), BigEndian(|b|, 8), a + x, b + y);
    Widths();
    BigEndianInjective(|a|, |b|, 8);
    Cancel(a, b, x, y);
  }

  lemma NumberFieldEnds(a: nat, b: nat, n: nat, x: Text, y: Text)
    requires n <= 8 && a < Pow256(n) && b < Pow256(n) && Field(BigEndian(a, n)) + x == Field(BigEndian(b, n)) + y
    ensures a == b && x == y
  {
    FieldEnds(BigEndian(a, n), BigEndian(b, n), x, y);
    BigEndianInjective(a, b, n);
  }

  lemma LastFieldEnds(a: Text, b: Text)
    requires |a| < U64_LIMIT && |b| < U64_LIMIT && Field(a) == Field(b)
    ensures a == b
  {
    assert Field(a) + [] == Field(b) + [];
    FieldEnds(a, b, [], []);
  }

  /** Scope preimages tell scopes apart, a missing workspace included. */
  lemma ScopePreimageInjective(a: ScopeText, b: ScopeText)
    requires a.Fits() && b.Fits() && ScopePreimage(a) == ScopePreimage(b)
    ensures a == b
  {
    hide Field;
    var a3 := if a.workspace.Some? then Field([1]) + Field(a.workspace.value) else Field([0]);
    var b3 := if b.workspace.Some? then Field([1]) + Field(b.workspace.value) else Field([0]);
    var a2, b2 := Field(a.account) + a3, Field(b.account) + b3;
    FieldEnds(SCOPE_DOMAIN, SCOPE_DOMAIN, Field(a.provider) + a2, Field(b.provider) + b2);
    FieldEnds(a.provider, b.provider, a2, b2);
    FieldEnds(a.account, b.account, a3, b3);
    WorkspaceFieldEnds(a.workspace, b.workspace);
  }

  lemma WorkspaceFieldEnds(a: Option<Text>, b: Option<Text>)
    requires a.Some? ==> |a.value| < U64_LIMIT
    requires b.Some? ==> |b.value| < U64_LIMIT
    requires (if a.Some? then Field([1]) + Field(a.value) else Field([0])) ==
             (if b.Some? then Field([1]) + Field(b.value) else Field([0]))
    ensures a == b
  {
    hide Field;
    var x: Text, y: Text := if a.Some? then Field(a.value) else [], if b.Some? then Field(b.value) else [];
    var p: Text, q: Text := [if a.Some? then 1 else 0], [if b.Some? then 1 else 0];
    assert Field([0]) + [] == Field([0]);
    assert Field(p) + x == Field(q) + y;
    FieldEnds(p, q, x, y);
    assert p[0] == q[0];
    if a.Some? { LastFieldEnds(a.value, b.value); }
  }

  /** Change preimages tell changes apart. */
  lemma ChangePreimageInjective(a: ChangeKey, b: ChangeKey)
    requires a.Fits() && b.Fits() && ChangePreimage(a) == ChangePreimage(b)
    ensures a == b
  {
    hide Field, BigEndian;
    Widths();
    var a4, b4 := Field(BigEndian(a.revision, 8)) + Field([a.code]), Field(BigEndian(b.revision, 8)) + Field([b.code]);
    var a3, b3 := Field(a.lot) + a4, Field(b.lot) + b4;
    var a2, b2 := Field(BigEndian(a.sequence, 8)) + a3, Field(BigEndian(b.sequence, 8)) + b3;
    FieldEnds(CHANGE_DOMAIN, CHANGE_DOMAIN, Field(a.scope) + a2, Field(b.scope) + b2);
    FieldEnds(a.scope, b.scope, a2, b2);
    NumberFieldEnds(a.sequence, b.sequence, 8, a3, b3);
    FieldEnds(a.lot, b.lot, a4, b4);
    NumberFieldEnds(a.revision, b.revision, 8, Field([a.code]), Field([b.code]));
    LastFieldEnds([a.code], [b.code]);
    assert [a.code][0] == [b.code][0];
  }

  /** Delivery preimages tell deliveries apart. */
  lemma DeliveryPreimageInjective(a: DeliveryKey, b: DeliveryKey)
    requires a.Fits() && b.Fits() && DeliveryPreimage(a) == DeliveryPreimage(b)
    ensures a == b
  {
    hide Field, BigEndian;
    Widths();
    var a4, b4 := Field([a.channel.Code()]), Field([b.channel.Code()]);
    var a3, b3 := Field(BigEndian(a.lead, 4)) + a4, Field(BigEndian(b.lead, 4)) + b4;
    var a2, b2 := Field(BigEndian(a.revision, 8)) + a3, Field(BigEndian(b.revision, 8)) + b3;
    var a1, b1 := Field(a.lot) + a2, Field(b.lot) + b2;
    FieldEnds(DELIVERY_DOMAIN, DELIVERY_DOMAIN, Field(a.scope) + a1, Field(b.scope) + b1);
    FieldEnds(a.scope, b.scope, a1, b1);
    FieldEnds(a.lot, b.lot, a2, b2);
    NumberFieldEnds(a.revision, b.revision, 8, a3, b3);
    NumberFieldEnds(a.lead, b.lead, 4, a4, b4);
    LastFieldEnds([a.channel.Code()], [b.channel.Code()]);
    assert [a.channel.Code()][0] == [b.channel.Code()][0];
  }

  /** Whatever the hash, two deliveries share a preimage only if they agree in
      everything and their scopes are equal, or the scopes' preimages collide. */
  lemma DeliveriesOfScopesDiffer(hash: Text -> Text, s: ScopeText, t: ScopeText, a: DeliveryKey, b: DeliveryKey)
    requires s.Fits() && t.Fits() && a.Fits() && b.Fits() && DeliveryPreimage(a) == DeliveryPreimage(b)
    requires a.scope == hash(ScopePreimage(s)) && b.scope == hash(ScopePreimage(t))
    ensures a == b
    ensures s != t ==> ScopePreimage(s) != ScopePreimage(t) && hash(ScopePreimage(s)) == hash(ScopePreimage(t))
  {
    hide DeliveryPreimage, ScopePreimage;
    DeliveryPreimageInjective(a, b);
    if ScopePreimage(s) == ScopePreimage(t) { ScopePreimageInjective(s, t); }
  }

  /** Preimages of different kinds of identity differ. */
  lemma IdentitiesAreApart(s: ScopeText, c: ChangeKey, d: DeliveryKey)
    requires s.Fits() && d.Fits()
    ensures ScopePreimage(s) != ChangePreimage(c) && ChangePreimage(c) != DeliveryPreimage(d)
    ensures ScopePreimage(s) != DeliveryPreimage(d)
  {
    FirstLength(SCOPE_DOMAIN, ScopePreimage(s)[|Field(SCOPE_DOMAIN)|..]);
    FirstLength(CHANGE_DOMAIN, ChangePreimage(c)[|Field(CHANGE_DOMAIN)|..]);
    FirstLength(DELIVERY_DOMAIN, DeliveryPreimage(d)[|Field(DELIVERY_DOMAIN)|..]);
  }

  lemma FirstLength(domain: Text, rest: Text)
    requires |domain| < 256
    ensures (Field(domain) + rest)[7] == |domain|
  {
    assert BigEndian(|domain|, 8)[7] == |domain|;
  }

  // ------------------------------------------------------------------
  // The identities of a change log

  function KindCode(kind: ChangeKind): Byte {
    match kind
    case Awarded => 1
    case QuantityChanged => 2
    case StateChanged => 3
    case ExpiryChanged => 4
    case Corrected => 5
    case DisappearedAmbiguous => 6
    case Reappeared => 7
    case RetiredTerminal => 8
  }

  function KeyOf(scope: Digest, change: Change): ChangeKey {
    ChangeKey(scope, change.sequence, BigEndian(change.draft.lotId, 32), change.draft.revision,
              KindCode(change.draft.kind))
  }

  /** In any run no two changes are published under the same identity preimage. */
  lemma LogIdentitiesDiffer(ledgers: seq<Ledger>, scope: Scope, k: nat, digest: Digest, i: nat, j: nat)
    requires IsRun(ledgers, scope) && k < |ledgers| && i < j < |ledgers[k].log|
    ensures ChangePreimage(KeyOf(digest, ledgers[k].log[i])) != ChangePreimage(KeyOf(digest, ledgers[k].log[j]))
  {
    hide ChangePreimage, IsRun, BigEndian;
    RunKeepsInv(ledgers, scope, k);
    var a, b := KeyOf(digest, ledgers[k].log[i]), KeyOf(digest, ledgers[k].log[j]);
    if ChangePreimage(a) == ChangePreimage(b) { SequenceEnds(a, b); }
  }

  lemma SequenceEnds(a: ChangeKey, b: ChangeKey)
    requires a.sequence < U64_LIMIT && b.sequence < U64_LIMIT && ChangePreimage(a) == ChangePreimage(b)
    ensures a.sequence == b.sequence
  {
    hide Field, BigEndian;
    Widths();
    var a3 := Field(a.lot) + (Field(BigEndian(a.revision, 8)) + Field([a.code]));
    var b3 := Field(b.lot) + (Field(BigEndian(b.revision, 8)) + Field([b.code]));
    var a2, b2 := Field(BigEndian(a.sequence, 8)) + a3, Field(BigEndian(b.sequence, 8)) + b3;
    FieldEnds(CHANGE_DOMAIN, CHANGE_DOMAIN, Field(a.scope) + a2, Field(b.scope) + b2);
    FieldEnds(a.scope, b.scope, a2, b2);
    NumberFieldEnds(a.sequence, b.sequence, 8, a3, b3);
  }
}
