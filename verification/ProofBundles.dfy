/** Public proof bundles: redaction, content and root hashes, verification (packages/domain/src/proofs.ts). */
module ProofBundles {
  import opened Results
  import opened Text
  import opened Numerals
  import opened Json
  import opened KeyOrders
  import opened CanonicalJson
  import opened Hashing

  // Redaction

  /** Case folding of the Unicode-aware pattern: besides ASCII, the long s and the kelvin sign fold to letters. */
  function Fold(c: char): char {
    if c == '\U{17F}' then 's' else if c == '\U{212A}' then 'k' else LowerChar(c)
  }

  function Folded(s: string): (r: string)
    ensures |r| == |s| && forall i :: 0 <= i < |s| ==> r[i] == Fold(s[i])
  {
    seq(|s|, i requires 0 <= i < |s| => Fold(s[i]))
  }

  const FORBIDDEN := {"apikey", "authorization", "cookie", "email", "encryptedsecretref", "organizationid", "privatekey",
                      "secret", "token"}

  predicate IsForbidden(key: string) {
    Folded(key) in FORBIDDEN
  }

  function Redact(v: HostValue): HostValue {
    match v
    case VArray(items) => VArray(RedactItems(items))
    case VObject(fields) => VObject(RedactFields(fields))
    case _ => v
  }

  function RedactItems(items: seq<HostValue>): seq<HostValue> {
    if items == [] then [] else [Redact(items[0])] + RedactItems(items[1..])
  }

  function RedactFields(fields: seq<Property>): seq<Property> {
    if fields == [] then []
    else if IsForbidden(fields[0].key) then RedactFields(fields[1..])
    else [Property(fields[0].key, Redact(fields[0].value))] + RedactFields(fields[1..])
  }

  /** The value as JSON; anything else is refused by the bundle's schema. */
  function AsJson(v: HostValue): Result<Json, Unsupported> {
    match v
    case VNull => Ok(Null)
    case VBool(b) => Ok(Bool(b))
    case VNumber(n) => Ok(Num(n))
    case VString(s) => Ok(Str(s))
    case VArray(items) => var js :- ItemsAsJson(items); Ok(Arr(js))
    case VObject(fields) => var js :- FieldsAsJson(fields); Ok(Obj(js))
    case _ => Err(NotJson)
  }

  function ItemsAsJson(items: seq<HostValue>): Result<seq<Json>, Unsupported> {
    if items == [] then Ok([]) else
      var j :- AsJson(items[0]);
      var js :- ItemsAsJson(items[1..]);
      Ok([j] + js)
  }

  function FieldsAsJson(fields: seq<Property>): Result<seq<Field>, Unsupported> {
    if fields == [] then Ok([]) else
      var j :- AsJson(fields[0].value);
      var js :- FieldsAsJson(fields[1..]);
      Ok([Field(fields[0].key, j)] + js)
  }

  /** A JSON value as the host reads it back. */
  function AsHost(j: Json): HostValue {
    match j
    case Null => VNull
    case Bool(b) => VBool(b)
    case Num(n) => VNumber(n)
    case Str(s) => VString(s)
    case Arr(items) => VArray(HostItems(items))
    case Obj(fields) => VObject(HostFields(fields))
  }

  function HostItems(items: seq<Json>): seq<HostValue> {
    if items == [] then [] else [AsHost(items[0])] + HostItems(items[1..])
  }

  function HostFields(fields: seq<Field>): seq<Property> {
    if fields == [] then [] else [Property(fields[0].key, AsHost(fields[0].value))] + HostFields(fields[1..])
  }

  /** Nothing at any depth that JSON does not have. */
  predicate IsJson(v: HostValue) {
    match v
    case VNonFinite => false
    case VBigInt(_) => false
    case VUndefined => false
    case VArray(items) => forall i | 0 <= i < |items| :: IsJson(items[i])
    case VObject(fields) => forall i | 0 <= i < |fields| :: IsJson(fields[i].value)
    case _ => true
  }

  /** The schema takes exactly JSON values, and takes each for itself. */
  lemma {:induction false} JsonIff(v: HostValue)
    ensures AsJson(v).Ok? <==> IsJson(v)
    ensures AsJson(v).Ok? ==> AsHost(AsJson(v).value) == v
  {
    match v
    case VArray(items) => JsonItems(items);
    case VObject(fields) => JsonFields(fields);
    case _ =>
  }

  lemma {:induction false} JsonItems(items: seq<HostValue>)
    ensures ItemsAsJson(items).Ok? <==> forall i | 0 <= i < |items| :: IsJson(items[i])
    ensures ItemsAsJson(items).Ok? ==> HostItems(ItemsAsJson(items).value) == items
  {
    hide AsJson, IsJson, AsHost;
    if items != [] {
      JsonIff(items[0]);
      JsonItems(items[1..]);
      assert forall i | 0 < i < |items| :: items[i] == items[1..][i - 1];
      if ItemsAsJson(items).Ok? {
        assert ItemsAsJson(items).value[1..] == ItemsAsJson(items[1..]).value;
      }
    }
  }

  lemma {:induction false} JsonFields(fields: seq<Property>)
    ensures FieldsAsJson(fields).Ok? <==> forall i | 0 <= i < |fields| :: IsJson(fields[i].value)
    ensures FieldsAsJson(fields).Ok? ==> HostFields(FieldsAsJson(fields).value) == fields
  {
    hide AsJson, IsJson, AsHost;
    if fields != [] {
      JsonIff(fields[0].value);
      JsonFields(fields[1..]);
      assert forall i | 0 < i < |fields| :: fields[i] == fields[1..][i - 1];
      if FieldsAsJson(fields).Ok? {
        assert FieldsAsJson(fields).value[1..] == FieldsAsJson(fields[1..]).value;
      }
    }
  }

  /** No forbidden key at any depth. */
  predicate Clean(j: Json) {
    match j
    case Arr(items) => CleanItems(items)
    case Obj(fields) => CleanFields(fields)
    case _ => true
  }

  predicate CleanItems(items: seq<Json>) {
    items == [] || (Clean(items[0]) && CleanItems(items[1..]))
  }

  predicate CleanFields(fields: seq<Field>) {
    fields == [] || (!IsForbidden(fields[0].key) && Clean(fields[0].value) && CleanFields(fields[1..]))
  }

  lemma {:induction false} RedactedIsClean(v: HostValue)
    requires AsJson(Redact(v)).Ok?
    ensures Clean(AsJson(Redact(v)).value)
  {
    match v
    case VArray(items) => RedactedItemsClean(items);
    case VObject(fields) => RedactedFieldsClean(fields);
    case _ =>
  }

  lemma {:induction false} RedactedItemsClean(items: seq<HostValue>)
    requires ItemsAsJson(RedactItems(items)).Ok?
    ensures CleanItems(ItemsAsJson(RedactItems(items)).value)
  {
    if items != [] {
      RedactedIsClean(items[0]);
      RedactedItemsClean(items[1..]);
      assert RedactItems(items)[1..] == RedactItems(items[1..]);
    }
  }

  lemma {:induction false} RedactedFieldsClean(fields: seq<Property>)
    requires FieldsAsJson(RedactFields(fields)).Ok?
    ensures CleanFields(FieldsAsJson(RedactFields(fields)).value)
  {
    hide IsForbidden;
    if fields != [] {
      if !IsForbidden(fields[0].key) {
        assert RedactFields(fields)[1..] == RedactFields(fields[1..]);
        RedactedIsClean(fields[0].value);
      }
      RedactedFieldsClean(fields[1..]);
    }
  }

  // The names, as the source spells them

  const NAMES := ["apiKey", "authorization", "cookie", "email", "encryptedSecretRef", "organizationId", "privateKey",
                  "secret", "token"]

  /** The same letter in either case; in a Unicode-aware pattern the long s is an s and the kelvin sign a k. */
  predicate SameLetter(c: char, d: char) {
    LowerChar(c) == LowerChar(d) || (c == '\U{17F}' && LowerChar(d) == 's') || (c == '\U{212A}' && LowerChar(d) == 'k')
  }

  predicate Spells(key: string, name: string) {
    |key| == |name| && forall i | 0 <= i < |key| :: SameLetter(key[i], name[i])
  }

  /** The key is one of the names, letter by letter in any case. */
  predicate IsNamed(key: string) {
    exists n | 0 <= n < |NAMES| :: Spells(key, NAMES[n])
  }

  lemma SpellsIff(key: string, name: string)
    requires forall i | 0 <= i < |name| :: 'a' <= LowerChar(name[i]) <= 'z'
    ensures Spells(key, name) <==> Folded(key) == Lower(name)
  {
    if |key| == |name| {
      forall i | 0 <= i < |key| ensures SameLetter(key[i], name[i]) <==> Fold(key[i]) == LowerChar(name[i]) {
        FoldIff(key[i], LowerChar(name[i]));
      }
      if Folded(key) == Lower(name) {
        forall i | 0 <= i < |key| ensures SameLetter(key[i], name[i]) {
          assert Folded(key)[i] == Lower(name)[i];
        }
      }
    }
  }

  lemma FoldIff(c: char, d: char)
    requires 'a' <= d <= 'z'
    ensures Fold(c) == d <==> LowerChar(c) == d || (c == '\U{17F}' && d == 's') || (c == '\U{212A}' && d == 'k')
  {
  }

  /** The pattern's set is that of the names in lower case. */
  lemma LowerNames()
    ensures Lower("apiKey") == "apikey" && Lower("authorization") == "authorization" && Lower("cookie") == "cookie"
    ensures Lower("email") == "email" && Lower("encryptedSecretRef") == "encryptedsecretref"
    ensures Lower("organizationId") == "organizationid" && Lower("privateKey") == "privatekey"
    ensures Lower("secret") == "secret" && Lower("token") == "token"
  {
  }

  lemma NameLetters(n: nat)
    requires n < |NAMES|
    ensures forall i | 0 <= i < |NAMES[n]| :: 'a' <= LowerChar(NAMES[n][i]) <= 'z'
  {
  }

  /** The pattern matches exactly the keys that spell one of the names. */
  lemma ForbiddenIff(key: string)
    ensures IsForbidden(key) <==> IsNamed(key)
  {
    hide Spells, Folded, Lower;
    LowerNames();
    assert |NAMES| == 9;
    forall n | 0 <= n < |NAMES| ensures Spells(key, NAMES[n]) <==> Folded(key) == Lower(NAMES[n]) {
      NameLetters(n);
      SpellsIff(key, NAMES[n]);
    }
    var k := Folded(key);
    assert IsNamed(key) <==> exists n | 0 <= n < |NAMES| :: k == Lower(NAMES[n]);
    NamesInOrder(k);
  }

  lemma NamesInOrder(k: string)
    ensures (exists n | 0 <= n < |NAMES| :: k == Lower(NAMES[n])) <==> k in FORBIDDEN
  {
    hide Lower;
    LowerNames();
    assert NAMES[0] == "apiKey" && NAMES[1] == "authorization" && NAMES[2] == "cookie" && NAMES[3] == "email";
    assert NAMES[4] == "encryptedSecretRef" && NAMES[5] == "organizationId" && NAMES[6] == "privateKey";
    assert NAMES[7] == "secret" && NAMES[8] == "token";
  }

  /** Every letter-case variant of a name spells it. */
  lemma CaseVariants(key: string, n: nat)
    requires n < |NAMES| && Lower(key) == Lower(NAMES[n])
    ensures IsNamed(key)
  {
    var name := NAMES[n];
    forall i | 0 <= i < |key| ensures SameLetter(key[i], name[i]) {
      assert Lower(key)[i] == Lower(name)[i];
    }
    assert |key| == |Lower(key)| == |Lower(name)| == |name|;
    assert Spells(key, NAMES[n]);
  }

  /** All keys of a value, at every depth. */
  function AllKeys(j: Json): set<string> {
    match j
    case Arr(items) => KeysOfItems(items)
    case Obj(fields) => KeysOfFields(fields)
    case _ => {}
  }

  function KeysOfItems(items: seq<Json>): set<string> {
    if items == [] then {} else AllKeys(items[0]) + KeysOfItems(items[1..])
  }

  function KeysOfFields(fields: seq<Field>): set<string> {
    if fields == [] then {} else {fields[0].key} + AllKeys(fields[0].value) + KeysOfFields(fields[1..])
  }

  lemma {:induction false} CleanIff(j: Json)
    ensures Clean(j) <==> forall key | key in AllKeys(j) :: !IsNamed(key)
  {
    match j
    case Arr(items) => CleanItemsIff(items);
    case Obj(fields) => CleanFieldsIff(fields);
    case _ =>
  }

  lemma {:induction false} CleanItemsIff(items: seq<Json>)
    ensures CleanItems(items) <==> forall key | key in KeysOfItems(items) :: !IsNamed(key)
  {
    hide IsNamed, Clean, AllKeys;
    if items != [] {
      CleanIff(items[0]);
      CleanItemsIff(items[1..]);
    }
  }

  lemma {:induction false} CleanFieldsIff(fields: seq<Field>)
    ensures CleanFields(fields) <==> forall key | key in KeysOfFields(fields) :: !IsNamed(key)
  {
    hide IsNamed, IsForbidden, Clean, AllKeys;
    if fields != [] {
      ForbiddenIff(fields[0].key);
      CleanIff(fields[0].value);
      CleanFieldsIff(fields[1..]);
    }
  }

  /** A redacted value has no key, at any depth, that spells one of the names. */
  lemma RedactedHasNoNames(v: HostValue)
    requires AsJson(Redact(v)).Ok?
    ensures forall key | key in AllKeys(AsJson(Redact(v)).value) :: !IsNamed(key)
  {
    RedactedIsClean(v);
    CleanIff(AsJson(Redact(v)).value);
  }

  /** A value without such keys is published as it is. */
  lemma NamelessIsKept(v: HostValue)
    requires AsJson(v).Ok? && forall key | key in AllKeys(AsJson(v).value) :: !IsNamed(key)
    ensures Redact(v) == v
  {
    hide IsNamed;
    CleanIff(AsJson(v).value);
    CleanIsKept(v);
  }

  /** Redacting an object removes the members whose key spells one of the names and nothing else: every other member stays,
      with its value redacted. */
  lemma RedactedMembers(fields: seq<Property>, p: Property)
    ensures Redact(VObject(fields)).VObject?
    ensures p in Redact(VObject(fields)).fields <==>
            exists i | 0 <= i < |fields| ::
              !IsNamed(fields[i].key) && p == Property(fields[i].key, Redact(fields[i].value))
  {
    hide IsForbidden, IsNamed;
    RedactedAllowed(fields, p);
    forall i | 0 <= i < |fields| ensures IsForbidden(fields[i].key) <==> IsNamed(fields[i].key) {
      ForbiddenIff(fields[i].key);
    }
  }

  lemma {:induction false} RedactedAllowed(fields: seq<Property>, p: Property)
    ensures p in RedactFields(fields) <==>
            exists i | 0 <= i < |fields| ::
              !IsForbidden(fields[i].key) && p == Property(fields[i].key, Redact(fields[i].value))
  {
    hide IsForbidden, Redact;
    if fields != [] {
      var rest := fields[1..];
      RedactedAllowed(rest, p);
      assert forall i | 0 < i < |fields| :: fields[i] == rest[i - 1];
      if p in RedactFields(rest) {
        var i :| 0 <= i < |rest| && !IsForbidden(rest[i].key) && p == Property(rest[i].key, Redact(rest[i].value));
        assert fields[i + 1] == rest[i];
      }
    }
  }

  /** Arrays keep their length and positions, and leaves stay as they are. */
  lemma RedactedPositions(v: HostValue, i: nat)
    ensures v.VArray? ==> Redact(v).VArray? && |Redact(v).items| == |v.items|
                          && (i < |v.items| ==> Redact(v).items[i] == Redact(v.items[i]))
    ensures !v.VArray? && !v.VObject? ==> Redact(v) == v
  {
    if v.VArray? {
      RedactedItem(v.items, i);
    }
  }

  lemma {:induction false} RedactedItem(items: seq<HostValue>, i: nat)
    ensures |RedactItems(items)| == |items|
    ensures i < |items| ==> RedactItems(items)[i] == Redact(items[i])
  {
    hide Redact;
    if items != [] {
      RedactedItem(items[1..], if i == 0 then 0 else i - 1);
    }
  }

  /** A value without forbidden keys is published as it is. */
  lemma {:induction false} CleanIsKept(v: HostValue)
    requires AsJson(v).Ok? && Clean(AsJson(v).value)
    ensures Redact(v) == v
  {
    match v
    case VArray(items) => CleanItemsKept(items);
    case VObject(fields) => CleanFieldsKept(fields);
    case _ =>
  }

  lemma {:induction false} CleanItemsKept(items: seq<HostValue>)
    requires ItemsAsJson(items).Ok? && CleanItems(ItemsAsJson(items).value)
    ensures RedactItems(items) == items
  {
    if items != [] {
      assert ItemsAsJson(items).value[1..] == ItemsAsJson(items[1..]).value;
      CleanIsKept(items[0]);
      CleanItemsKept(items[1..]);
    }
  }

  lemma {:induction false} CleanFieldsKept(fields: seq<Property>)
    requires FieldsAsJson(fields).Ok? && CleanFields(FieldsAsJson(fields).value)
    ensures RedactFields(fields) == fields
  {
    hide IsForbidden;
    if fields != [] {
      assert FieldsAsJson(fields).value[1..] == FieldsAsJson(fields[1..]).value;
      CleanIsKept(fields[0].value);
      CleanFieldsKept(fields[1..]);
    }
  }

  // Bundles

  datatype Artifact = Artifact(kind: string, name: string, payload: HostValue, publicReference: Option<string>, recordedAt: string)

  datatype Entry = Entry(position: nat, kind: string, name: string, payload: Json, contentHash: string,
                         publicReference: Option<string>, recordedAt: string)

  datatype Bundle = Bundle(id: string, entries: seq<Entry>, rootHash: string)

  /** How texts are made and hashed: the digest and the locale's key order. */
  datatype Setup = Setup(hash: Hash, locale: Order)

  /** `hashCanonicalJson` */
  function HashJson(setup: Setup, j: Json): string {
    "sha256:" + setup.hash(CanonicalText(Enumerated(setup.locale), j))
  }

  datatype BundleError = PayloadNotJson | NoEntries | PositionsNotContiguous

  function EntriesFrom(setup: Setup, artifacts: seq<Artifact>, position: nat): Result<seq<Entry>, BundleError> {
    if artifacts == [] then Ok([])
    else
      var a := artifacts[0];
      match AsJson(Redact(a.payload))
      case Err(_) => Err(PayloadNotJson)
      case Ok(payload) =>
        var rest :- EntriesFrom(setup, artifacts[1..], position + 1);
        Ok([Entry(position, a.kind, a.name, payload, HashJson(setup, payload), a.publicReference, a.recordedAt)] + rest)
  }

  function RootItem(position: nat, kind: string, contentHash: string): Json {
    Obj([Field("position", Num(Numeral(position, Dec))), Field("kind", Str(kind)), Field("contentHash", Str(contentHash))])
  }

  /** The part of the entries that the root covers, with the hashes stored in them. */
  function RootItems(entries: seq<Entry>): (r: seq<Json>)
    ensures |r| == |entries|
    ensures forall i :: 0 <= i < |r| ==> r[i] == RootItem(entries[i].position, entries[i].kind, entries[i].contentHash)
  {
    if entries == [] then []
    else [RootItem(entries[0].position, entries[0].kind, entries[0].contentHash)] + RootItems(entries[1..])
  }

  /** The entries with their content hashes recomputed from the payloads. */
  function Rehashed(setup: Setup, entries: seq<Entry>): (r: seq<Entry>)
    ensures |r| == |entries|
    ensures forall i :: 0 <= i < |r| ==> r[i] == entries[i].(contentHash := HashJson(setup, entries[i].payload))
  {
    if entries == [] then []
    else [entries[0].(contentHash := HashJson(setup, entries[0].payload))] + Rehashed(setup, entries[1..])
  }

  function RootHash(setup: Setup, entries: seq<Entry>): string {
    HashJson(setup, Arr(RootItems(entries)))
  }

  predicate Contiguous(entries: seq<Entry>) {
    forall i :: 0 <= i < |entries| ==> entries[i].position == i
  }

  /** The schema's own conditions on entries. */
  function ParseBundle(b: Bundle): Result<Bundle, BundleError> {
    if b.entries == [] then Err(NoEntries)
    else if !Contiguous(b.entries) then Err(PositionsNotContiguous)
    else Ok(b)
  }

  function CreateBundle(setup: Setup, id: string, artifacts: seq<Artifact>): Result<Bundle, BundleError> {
    var entries :- EntriesFrom(setup, artifacts, 0);
    ParseBundle(Bundle(id, entries, RootHash(setup, entries)))
  }

  datatype Verdict = Verdict(valid: bool, invalidPositions: seq<nat>)

  function InvalidPositions(setup: Setup, entries: seq<Entry>): seq<nat> {
    if entries == [] then []
    else (if HashJson(setup, entries[0].payload) != entries[0].contentHash then [entries[0].position] else [])
         + InvalidPositions(setup, entries[1..])
  }

  function VerifyBundle(setup: Setup, b: Bundle): Result<Verdict, BundleError> {
    var bundle :- ParseBundle(b);
    var invalid := InvalidPositions(setup, bundle.entries);
    Ok(Verdict(invalid == [] && RootHash(setup, Rehashed(setup, bundle.entries)) == bundle.rootHash, invalid))
  }

  // What creation guarantees

  /** What an entry takes over from its artifact. */
  predicate Describes(e: Entry, a: Artifact) {
    e.kind == a.kind && e.name == a.name && e.publicReference == a.publicReference && e.recordedAt == a.recordedAt
  }

  lemma {:induction false} EntriesShape(setup: Setup, artifacts: seq<Artifact>, position: nat)
    requires EntriesFrom(setup, artifacts, position).Ok?
    ensures var es := EntriesFrom(setup, artifacts, position).value;
      && |es| == |artifacts|
      && forall i :: 0 <= i < |es| ==>
           && es[i].position == position + i && Describes(es[i], artifacts[i])
           && AsJson(Redact(artifacts[i].payload)) == Ok(es[i].payload) && Clean(es[i].payload)
           && es[i].contentHash == HashJson(setup, es[i].payload)
  {
    hide HashJson, Redact, AsJson, Clean;
    if artifacts != [] {
      EntriesShape(setup, artifacts[1..], position + 1);
      RedactedIsClean(artifacts[0].payload);
    }
  }

  lemma {:induction false} NothingInvalid(setup: Setup, entries: seq<Entry>)
    requires forall i :: 0 <= i < |entries| ==> entries[i].contentHash == HashJson(setup, entries[i].payload)
    ensures InvalidPositions(setup, entries) == [] && Rehashed(setup, entries) == entries
  {
    hide HashJson;
    if entries != [] {
      NothingInvalid(setup, entries[1..]);
    }
  }

  /** Creation fails exactly on an empty list or a payload that, redacted, is not JSON. What it returns verifies, position
      by position; each entry is its artifact with the redacted payload; and no key at any depth spells one of the names. */
  lemma CreatedVerifies(setup: Setup, id: string, artifacts: seq<Artifact>)
    ensures CreateBundle(setup, id, artifacts).Ok? <==>
              artifacts != [] && forall i :: 0 <= i < |artifacts| ==> IsJson(Redact(artifacts[i].payload))
    ensures CreateBundle(setup, id, artifacts).Err? ==>
              CreateBundle(setup, id, artifacts).error == if artifacts == [] then NoEntries else PayloadNotJson
    ensures CreateBundle(setup, id, artifacts).Ok? ==>
              var b := CreateBundle(setup, id, artifacts).value;
              && b.id == id && VerifyBundle(setup, b) == Ok(Verdict(true, []))
              && |b.entries| == |artifacts|
              && forall i :: 0 <= i < |b.entries| ==>
                   && Describes(b.entries[i], artifacts[i]) && b.entries[i].position == i
                   && AsHost(b.entries[i].payload) == Redact(artifacts[i].payload)
                   && forall key | key in AllKeys(b.entries[i].payload) :: !IsNamed(key)
  {
    hide HashJson, Redact, AsJson, Clean, IsJson, AsHost, AllKeys, IsNamed;
    EntriesOk(setup, artifacts, 0);
    forall i | 0 <= i < |artifacts| ensures AsJson(Redact(artifacts[i].payload)).Ok? <==> IsJson(Redact(artifacts[i].payload)) {
      JsonIff(Redact(artifacts[i].payload));
    }
    if EntriesFrom(setup, artifacts, 0).Ok? {
      var es := EntriesFrom(setup, artifacts, 0).value;
      EntriesShape(setup, artifacts, 0);
      NothingInvalid(setup, es);
      forall i | 0 <= i < |es| ensures AsHost(es[i].payload) == Redact(artifacts[i].payload) {
        JsonIff(Redact(artifacts[i].payload));
      }
      forall i, key | 0 <= i < |es| && key in AllKeys(es[i].payload) ensures !IsNamed(key) {
        CleanIff(es[i].payload);
      }
    }
  }

  /** A key that is one of the nine names up to letter case is nowhere in a created bundle. */
  lemma CreatedHasNoVariant(setup: Setup, id: string, artifacts: seq<Artifact>, key: string, n: nat)
    requires CreateBundle(setup, id, artifacts).Ok? && n < |NAMES| && Lower(key) == Lower(NAMES[n])
    ensures forall i | 0 <= i < |CreateBundle(setup, id, artifacts).value.entries| ::
      key !in AllKeys(CreateBundle(setup, id, artifacts).value.entries[i].payload)
  {
    hide CreateBundle, AllKeys, IsNamed, Redact, IsJson, AsHost;
    CreatedVerifies(setup, id, artifacts);
    CaseVariants(key, n);
  }

  lemma {:induction false} EntriesOk(setup: Setup, artifacts: seq<Artifact>, position: nat)
    ensures EntriesFrom(setup, artifacts, position).Ok? <==>
              forall i :: 0 <= i < |artifacts| ==> AsJson(Redact(artifacts[i].payload)).Ok?
    ensures EntriesFrom(setup, artifacts, position).Err? ==> EntriesFrom(setup, artifacts, position).error == PayloadNotJson
  {
    hide HashJson, Redact, AsJson;
    if artifacts != [] {
      EntriesOk(setup, artifacts[1..], position + 1);
      assert artifacts[0] == artifacts[0] && forall i :: 1 <= i < |artifacts| ==> artifacts[i] == artifacts[1..][i - 1];
      if forall i :: 0 <= i < |artifacts| ==> AsJson(Redact(artifacts[i].payload)).Ok? {
        forall i | 0 <= i < |artifacts[1..]| ensures AsJson(Redact(artifacts[1..][i].payload)).Ok? {
          assert artifacts[1..][i] == artifacts[i + 1];
        }
      }
    }
  }

  /** Verification lists exactly the positions whose payload no longer hashes to its stored hash. */
  lemma InvalidExactly(setup: Setup, b: Bundle, k: nat)
    requires VerifyBundle(setup, b).Ok?
    ensures k in VerifyBundle(setup, b).value.invalidPositions <==>
            k < |b.entries| && HashJson(setup, b.entries[k].payload) != b.entries[k].contentHash
  {
    hide HashJson;
    InvalidFrom(setup, b.entries, 0, k);
  }

  lemma {:induction false} InvalidFrom(setup: Setup, entries: seq<Entry>, from: nat, k: nat)
    requires forall i :: 0 <= i < |entries| ==> entries[i].position == from + i
    ensures k in InvalidPositions(setup, entries) <==>
            from <= k < from + |entries| && HashJson(setup, entries[k - from].payload) != entries[k - from].contentHash
  {
    hide HashJson;
    if entries != [] {
      InvalidFrom(setup, entries[1..], from + 1, k);
    }
  }

  // What a root binds

  lemma ItemValid(position: nat, kind: string, contentHash: string)
    ensures Valid(RootItem(position, kind, contentHash))
    ensures MeaningOf(RootItem(position, kind, contentHash)) ==
            MObj(map["contentHash" := MStr(contentHash), "kind" := MStr(kind), "position" := MNum(Numeral(position, Dec))])
  {
    hide Numeral, IsNumeral;
    NumeralOk(position);
    var p, k, c := Field("position", Num(Numeral(position, Dec))), Field("kind", Str(kind)), Field("contentHash", Str(contentHash));
    assert [p, k, c][1..] == [k, c] && [k, c][1..] == [c] && [c][1..] == [];
    DifferentNames();
    OneField(c);
    MoreFields(k, [c]);
    MoreFields(p, [k, c]);
    assert [k] + [c] == [k, c] && [p] + [k, c] == [p, k, c];
  }

  lemma DifferentNames()
    ensures "kind" != "contentHash" && "position" != "kind" && "position" != "contentHash"
  {
    assert |"kind"| == 4 && |"contentHash"| == 11 && |"position"| == 8;
  }

  lemma NumeralOk(n: nat)
    ensures IsNumeral(Numeral(n, Dec))
  {
    var s := Numeral(n, Dec);
    assert forall i :: 0 <= i < |s| ==> IsDigit(s[i], Dec);
  }

  lemma OneField(f: Field)
    requires Valid(f.value)
    ensures ValidFields([f]) && UniqueKeys([f]) && Keys([f]) == {f.key}
    ensures MeaningOfFields([f]) == map[f.key := MeaningOf(f.value)]
  {
    MoreFields(f, []);
    assert [f] + [] == [f];
  }

  lemma MoreFields(f: Field, fields: seq<Field>)
    requires Valid(f.value) && ValidFields(fields) && UniqueKeys(fields) && f.key !in Keys(fields)
    ensures var r := [f] + fields;
      ValidFields(r) && UniqueKeys(r) && Keys(r) == {f.key} + Keys(fields)
      && MeaningOfFields(r) == MeaningOfFields(fields)[f.key := MeaningOf(f.value)]
  {
    hide Valid, MeaningOf;
    assert ([f] + fields)[1..] == fields;
  }

  lemma {:induction false} RootValid(entries: seq<Entry>)
    ensures ValidItems(RootItems(entries))
  {
    hide Valid;
    if entries != [] {
      ItemValid(entries[0].position, entries[0].kind, entries[0].contentHash);
      RootValid(entries[1..]);
      assert RootItems(entries)[1..] == RootItems(entries[1..]);
    }
  }

  lemma ItemBinds(i: nat, k: string, c: string, j: nat, l: string, d: string)
    requires MeaningOf(RootItem(i, k, c)) == MeaningOf(RootItem(j, l, d))
    ensures k == l && c == d
  {
    hide MeaningOf, Numeral;
    ItemValid(i, k, c);
    ItemValid(j, l, d);
    DifferentNames();
    var m := map["contentHash" := MStr(c), "kind" := MStr(k), "position" := MNum(Numeral(i, Dec))];
    var n := map["contentHash" := MStr(d), "kind" := MStr(l), "position" := MNum(Numeral(j, Dec))];
    assert m["kind"] == n["kind"] && m["contentHash"] == n["contentHash"];
  }

  lemma HashBinds(setup: Setup, a: Json, b: Json)
    requires CollisionFree(setup.hash) && Valid(a) && Valid(b) && HashJson(setup, a) == HashJson(setup, b)
    ensures MeaningOf(a) == MeaningOf(b)
  {
    hide CanonicalText, MeaningOf, Valid, AllDigits;
    var o := Enumerated(setup.locale);
    assert HashJson(setup, a)[7..] == setup.hash(CanonicalText(o, a));
    assert HashJson(setup, b)[7..] == setup.hash(CanonicalText(o, b));
    SameTextSameMeaning(o, a, b);
  }

  /** The entries agree in number, and position by position in kind and in the meaning of the payload. */
  predicate SameContent(x: seq<Entry>, y: seq<Entry>) {
    |x| == |y| && forall i :: 0 <= i < |x| ==> x[i].kind == y[i].kind && MeaningOf(x[i].payload) == MeaningOf(y[i].payload)
  }

  predicate PayloadsValid(b: Bundle) {
    forall i :: 0 <= i < |b.entries| ==> Valid(b.entries[i].payload)
  }

  /** A verified bundle's hashes are those of its payloads, and its root is that of its entries. */
  lemma VerifiedFacts(setup: Setup, b: Bundle)
    requires VerifyBundle(setup, b).Ok? && VerifyBundle(setup, b).value.valid
    ensures forall i :: 0 <= i < |b.entries| ==> HashJson(setup, b.entries[i].payload) == b.entries[i].contentHash
    ensures b.rootHash == RootHash(setup, b.entries) && Contiguous(b.entries)
  {
    hide HashJson, RootHash;
    ValidMeansHashed(setup, b.entries);
    NothingInvalid(setup, b.entries);
  }

  lemma RootsEqual(setup: Setup, x: seq<Entry>, y: seq<Entry>)
    requires CollisionFree(setup.hash) && RootHash(setup, x) == RootHash(setup, y)
    ensures |x| == |y| && forall i :: 0 <= i < |x| ==> x[i].kind == y[i].kind && x[i].contentHash == y[i].contentHash
  {
    hide HashJson, RootItem, AllDigits, MeaningOfItems, RootItems;
    RootValid(x);
    RootValid(y);
    HashBinds(setup, Arr(RootItems(x)), Arr(RootItems(y)));
    var p, q := RootItems(x), RootItems(y);
    assert MeaningOfItems(p) == MeaningOfItems(q) by { ArrayMeaning(p); ArrayMeaning(q); }
    assert |p| == |MeaningOfItems(p)| == |q|;
    forall i | 0 <= i < |x| ensures x[i].kind == y[i].kind && x[i].contentHash == y[i].contentHash {
      assert MeaningOfItems(p)[i] == MeaningOf(p[i]) && MeaningOfItems(q)[i] == MeaningOf(q[i]);
      ItemBinds(x[i].position, x[i].kind, x[i].contentHash, y[i].position, y[i].kind, y[i].contentHash);
    }
  }

  lemma ArrayMeaning(items: seq<Json>)
    ensures MeaningOf(Arr(items)) == MArr(MeaningOfItems(items))
  {
  }

  lemma ValidMeansHashed(setup: Setup, entries: seq<Entry>)
    requires InvalidPositions(setup, entries) == []
    ensures forall i :: 0 <= i < |entries| ==> HashJson(setup, entries[i].payload) == entries[i].contentHash
  {
    hide HashJson;
    if entries != [] {
      ValidMeansHashed(setup, entries[1..]);
    }
  }

  /** Bundles that verify under one root say the same thing: as many entries, the same kinds, the same payloads up to
      key order. No property of the locale's key order is needed. */
  lemma RootBinds(setup: Setup, a: Bundle, b: Bundle)
    requires CollisionFree(setup.hash) && PayloadsValid(a) && PayloadsValid(b)
    requires VerifyBundle(setup, a).Ok? && VerifyBundle(setup, a).value.valid
    requires VerifyBundle(setup, b).Ok? && VerifyBundle(setup, b).value.valid
    requires a.rootHash == b.rootHash
    ensures SameContent(a.entries, b.entries)
  {
    hide HashJson, VerifyBundle, RootHash, RootItems, MeaningOf, Valid, AllDigits;
    VerifiedFacts(setup, a);
    VerifiedFacts(setup, b);
    RootsEqual(setup, a.entries, b.entries);
    forall i | 0 <= i < |a.entries| ensures MeaningOf(a.entries[i].payload) == MeaningOf(b.entries[i].payload) {
      HashBinds(setup, a.entries[i].payload, b.entries[i].payload);
    }
  }

  lemma SameRootItems(x: seq<Entry>, y: seq<Entry>)
    requires |x| == |y| && forall i :: 0 <= i < |x| ==>
      (x[i].position, x[i].kind, x[i].contentHash) == (y[i].position, y[i].kind, y[i].contentHash)
    ensures RootItems(x) == RootItems(y)
  {
    hide RootItem;
  }

  /** No payload has an object with two keys that tie. */
  predicate PayloadsUntied(setup: Setup, b: Bundle) {
    forall i | 0 <= i < |b.entries| :: Untied(Enumerated(setup.locale), MeaningOf(b.entries[i].payload))
  }

  /** Where no keys tie, the root is also the same whenever the content is. */
  lemma SameContentSameRoot(setup: Setup, a: Bundle, b: Bundle)
    requires StrictOrder(setup.locale) && PayloadsValid(a) && PayloadsValid(b) && PayloadsUntied(setup, a)
    requires VerifyBundle(setup, a).Ok? && VerifyBundle(setup, a).value.valid
    requires VerifyBundle(setup, b).Ok? && VerifyBundle(setup, b).value.valid
    requires SameContent(a.entries, b.entries)
    ensures a.rootHash == b.rootHash
  {
    hide VerifyBundle, MeaningOf, Valid, CanonicalText, Enumerated, Untied;
    EnumeratedStrict(setup.locale);
    VerifiedFacts(setup, a);
    VerifiedFacts(setup, b);
    forall i | 0 <= i < |a.entries| ensures a.entries[i].contentHash == b.entries[i].contentHash {
      NormalForm(Enumerated(setup.locale), a.entries[i].payload, b.entries[i].payload);
    }
    SameRootItems(a.entries, b.entries);
  }

  /** Entries that differ at most in their descriptions. */
  predicate SameEvidence(x: seq<Entry>, y: seq<Entry>) {
    |x| == |y| && forall i :: 0 <= i < |x| ==>
      (x[i].position, x[i].kind, x[i].payload, x[i].contentHash) == (y[i].position, y[i].kind, y[i].payload, y[i].contentHash)
  }

  lemma SameEvidenceVerifies(setup: Setup, b: Bundle, entries: seq<Entry>)
    requires VerifyBundle(setup, b) == Ok(Verdict(true, [])) && SameEvidence(b.entries, entries)
    ensures VerifyBundle(setup, b.(entries := entries)) == Ok(Verdict(true, []))
  {
    hide HashJson, RootItem;
    ValidMeansHashed(setup, b.entries);
    NothingInvalid(setup, b.entries);
    NothingInvalid(setup, entries);
    assert RootItems(entries) == RootItems(b.entries);
  }

  /** The root says nothing about names, references and recording times: they can be replaced in a verified bundle. */
  lemma RootIgnoresDescriptions(setup: Setup, b: Bundle, k: nat, name: string, reference: Option<string>, at: string)
    requires VerifyBundle(setup, b) == Ok(Verdict(true, [])) && k < |b.entries|
    ensures var changed := b.entries[k].(name := name, publicReference := reference, recordedAt := at);
      VerifyBundle(setup, b.(entries := b.entries[k := changed])) == Ok(Verdict(true, []))
  {
    hide VerifyBundle;
    SameEvidenceVerifies(setup, b, b.entries[k := b.entries[k].(name := name, publicReference := reference, recordedAt := at)]);
  }
}
